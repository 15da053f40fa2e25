// The reservation form of src/pages/Client/FormularioReserva.tsx, the one
// opened from a room card. Unlike ReservasClient it checks only the dates,
// chooses the new id itself (largest id + 1), and updates its own list with
// the server's answer; the answer and whether the request succeeded are
// parameters.
module FormularioReserva {
  import opened Comun
  import opened Tipos
  import opened Eventos
  import opened VentanaContext
  import opened Reservas

  /** What a valid submit sends: an update of `editandoId`, or a create whose id is SiguienteId of the current list. */
  function PeticionEnvio(f: FormReserva, usuarioId: int, editandoId: Option<int>, rs: seq<Reserva>): (p: Peticion)
    ensures p.Actualizar? <==> Verdadero(editandoId)
    ensures !p.Actualizar? ==> p.Crear?
    ensures p.reserva == DeFormulario(p.reserva.id, usuarioId, f)
    ensures p.Actualizar? ==> p.id == editandoId.value && p.reserva.id == p.id
    ensures !p.Actualizar? ==> p.reserva.id == SiguienteId(rs)
                               && forall i :: 0 <= i < |rs| ==> rs[i].id < p.reserva.id
  {
    if Verdadero(editandoId) then Actualizar(editandoId.value, DeFormulario(editandoId.value, usuarioId, f))
    else Crear(DeFormulario(SiguienteId(rs), usuarioId, f))
  }

  /** A created reservation gets an id above every id in the list, 1 for an empty list, so appending it keeps ids unique. */
  lemma CrearIdFresco(f: FormReserva, usuarioId: int, rs: seq<Reserva>)
    requires IdsReservaUnicos(rs)
    ensures var p := PeticionEnvio(f, usuarioId, None, rs);
      p.Crear? && (rs == [] ==> p.reserva.id == 1)
      && (forall i :: 0 <= i < |rs| ==> rs[i].id < p.reserva.id)
      && IdsReservaUnicos(rs + [p.reserva])
  {
    var p := PeticionEnvio(f, usuarioId, None, rs);
    SiguienteIdFresco(rs, p.reserva);
  }

  /** The list after an accepted submit: the answer replaces the edited entries, or is appended. */
  function ListaTrasEnvio(rs: seq<Reserva>, editandoId: Option<int>, respuesta: Reserva): (r: seq<Reserva>)
    ensures |r| == if Verdadero(editandoId) then |rs| else |rs| + 1
    ensures !Verdadero(editandoId) ==> r[|rs|] == respuesta
  {
    if Verdadero(editandoId) then ReemplazarPorId(rs, editandoId.value, respuesta) else rs + [respuesta]
  }

  /** A create appends the answer at the end and leaves every earlier entry where it was. */
  lemma CrearAnade(rs: seq<Reserva>, respuesta: Reserva)
    ensures var r := ListaTrasEnvio(rs, None, respuesta);
      |r| == |rs| + 1 && r[|rs|] == respuesta && r[..|rs|] == rs
  {
  }

  /** An update keeps the length and changes exactly the entries whose id is editandoId. */
  lemma ActualizarReemplaza(rs: seq<Reserva>, e: int, respuesta: Reserva)
    requires e != 0
    ensures var r := ListaTrasEnvio(rs, Some(e), respuesta);
      |r| == |rs| && forall i :: 0 <= i < |rs| ==> (r[i] != rs[i] ==> rs[i].id == e) && (rs[i].id == e ==> r[i] == respuesta)
  {
  }

  /** The guard of the trailing broadcast, `!modoFlotante || (modoFlotante && !cerrarVentana)`; `hayFuncion` is the truthiness of `cerrarVentana`. */
  predicate GuardaEmisionFinal(modoFlotante: bool, hayFuncion: bool)
    ensures GuardaEmisionFinal(modoFlotante, hayFuncion) <==> !modoFlotante || !hayFuncion
  {
    !modoFlotante || (modoFlotante && !hayFuncion)
  }

  /** `cerrarVentana` is a function, hence truthy, so the guard reduces to `!modoFlotante`. */
  lemma GuardaEsNoFlotante(modoFlotante: bool)
    ensures GuardaEmisionFinal(modoFlotante, true) <==> !modoFlotante
  {
  }

  /** Broadcasts of one accepted submit: the one of a floating create plus the trailing one. */
  function EmisionesEnvio(modoFlotante: bool, editando: bool): (n: nat)
    ensures n <= 2
    ensures n == 0 <==> modoFlotante && editando
  {
    (if modoFlotante && !editando then 1 else 0) + (if GuardaEmisionFinal(modoFlotante, true) then 1 else 0)
  }

  /** An accepted create emits exactly one broadcast whether floating or not; a floating update emits none. */
  lemma EmisionesCrear(modoFlotante: bool)
    ensures EmisionesEnvio(modoFlotante, false) == 1
    ensures EmisionesEnvio(true, true) == 0 && EmisionesEnvio(false, true) == 1
  {
  }

  class FormularioReservaState {
    const modoFlotante: bool
    const habitacionPreseleccionada: Option<int>
    const registro: VentanaRegistro
    const canal: Canal
    var usuario: Option<Usuario>
    var reservas: seq<Reserva>
    var habitaciones: seq<Habitacion>
    var errorFecha: string
    var form: FormReserva
    var editandoId: Option<int>

    /** The initial state: no user, empty lists, no error, the form on the preselected room (or 0). */
    constructor (modoFlotante: bool, habitacionPreseleccionada: Option<int>, registro: VentanaRegistro, canal: Canal)
      ensures this.modoFlotante == modoFlotante && this.habitacionPreseleccionada == habitacionPreseleccionada
      ensures this.registro == registro && this.canal == canal
      ensures usuario == None && reservas == [] && habitaciones == [] && errorFecha == "" && editandoId == None
      ensures form == FormReserva(HabitacionInicial(habitacionPreseleccionada), Invalida, Invalida, Pendiente)
    {
      this.modoFlotante := modoFlotante;
      this.habitacionPreseleccionada := habitacionPreseleccionada;
      this.registro := registro;
      this.canal := canal;
      usuario := None;
      reservas := [];
      habitaciones := [];
      errorFecha := "";
      form := FormReserva(HabitacionInicial(habitacionPreseleccionada), Invalida, Invalida, Pendiente);
      editandoId := None;
    }

    /**
     * The mount effect: with a stored user, adopt it, set the form's room from
     * the preselection or the URL, and take whichever lists the two requests
     * returned (a failed request leaves its list). The rooms request keeps
     * only the available rooms.
     */
    method Montar(guardado: Option<Usuario>, habitacionIdURL: Option<int>,
                  habitacionesRes: Option<seq<Habitacion>>, reservasRes: Option<seq<Reserva>>)
      modifies this`usuario, this`form, this`habitaciones, this`reservas
      ensures guardado.None? ==>
        usuario == old(usuario) && form == old(form) && habitaciones == old(habitaciones) && reservas == old(reservas)
      ensures guardado.Some? ==>
        (usuario == guardado
         && form == old(form).(habitacionId := HabitacionAlMontar(old(form).habitacionId, habitacionPreseleccionada, habitacionIdURL, modoFlotante))
         && habitaciones == (if habitacionesRes.Some? then Disponibles(habitacionesRes.value) else old(habitaciones))
         && reservas == (if reservasRes.Some? then reservasRes.value else old(reservas)))
      ensures guardado.Some? && habitacionesRes.Some? ==>
        forall h :: h in habitaciones ==> h.estado == Disponible
    {
      if guardado.Some? {
        usuario := guardado;
        if Verdadero(habitacionPreseleccionada) {
          form := form.(habitacionId := habitacionPreseleccionada.value);
        }
        if habitacionIdURL.Some? && !modoFlotante {
          form := form.(habitacionId := habitacionIdURL.value);
        }
        if habitacionesRes.Some? {
          habitaciones := Disponibles(habitacionesRes.value);
        }
        if reservasRes.Some? {
          reservas := reservasRes.value;
        }
      }
    }

    /** The second effect: a floating form takes a truthy preselection as its room. */
    method SincronizarPreseleccion()
      modifies this`form
      ensures modoFlotante && Verdadero(habitacionPreseleccionada) ==> form == old(form).(habitacionId := habitacionPreseleccionada.value)
      ensures !(modoFlotante && Verdadero(habitacionPreseleccionada)) ==> form == old(form)
    {
      if modoFlotante && Verdadero(habitacionPreseleccionada) {
        form := form.(habitacionId := habitacionPreseleccionada.value);
      }
    }

    /**
     * `handleSubmit`. Without a user nothing happens; a failed date check sets
     * its message and stops (there is no room check here). Otherwise the error
     * is cleared and the request of PeticionEnvio is returned. When the server
     * accepts it, its answer `respuesta` goes into the list, a floating create
     * emits and closes "reservas", the form and editandoId are reset, and a
     * non-floating page emits once more.
     */
    method HandleSubmit(hoy: int, servidorOk: bool, respuesta: Reserva) returns (peticion: Option<Peticion>)
      requires registro.Valid()
      modifies this`errorFecha, this`form, this`editandoId, this`reservas, registro, canal
      ensures registro.Valid()
      ensures usuario.None? ==>
        peticion == None && errorFecha == old(errorFecha) && form == old(form) && editandoId == old(editandoId)
        && reservas == old(reservas) && registro.ventanas == old(registro.ventanas) && canal.emisiones == old(canal.emisiones)
      ensures usuario.Some? && ValidarFechas(old(form), hoy).Some? ==>
        peticion == None && errorFecha == ValidarFechas(old(form), hoy).value && form == old(form) && editandoId == old(editandoId)
        && reservas == old(reservas) && registro.ventanas == old(registro.ventanas) && canal.emisiones == old(canal.emisiones)
      ensures usuario.Some? && ValidarFechas(old(form), hoy) == None ==>
        errorFecha == "" && peticion == Some(PeticionEnvio(old(form), usuario.value.id, old(editandoId), old(reservas)))
      ensures usuario.Some? && ValidarFechas(old(form), hoy) == None && servidorOk ==>
        reservas == ListaTrasEnvio(old(reservas), old(editandoId), respuesta)
        && form == FormVacio && editandoId == None
        && canal.emisiones == old(canal.emisiones) + EmisionesEnvio(modoFlotante, Verdadero(old(editandoId)))
        && registro.ventanas == if modoFlotante && !Verdadero(old(editandoId)) then Cerrar(old(registro.ventanas), "reservas") else old(registro.ventanas)
      ensures usuario.Some? && ValidarFechas(old(form), hoy) == None && !servidorOk ==>
        reservas == old(reservas) && form == old(form) && editandoId == old(editandoId)
        && registro.ventanas == old(registro.ventanas) && canal.emisiones == old(canal.emisiones)
    {
      peticion := None;
      if usuario.None? {
        return;
      }
      var error := ValidarFechas(form, hoy);
      if error.Some? {
        errorFecha := error.value;
        return;
      }
      errorFecha := "";
      peticion := Some(PeticionEnvio(form, usuario.value.id, editandoId, reservas));
      if !servidorOk {
        return;
      }
      if Verdadero(editandoId) {
        reservas := ReemplazarPorId(reservas, editandoId.value, respuesta);
      } else {
        reservas := reservas + [respuesta];
        if modoFlotante {
          canal.Emitir();
          registro.CerrarVentana("reservas");
        }
      }
      ghost var editando := Verdadero(editandoId);
      form := FormVacio;
      editandoId := None;
      if GuardaEmisionFinal(modoFlotante, true) {
        canal.Emitir();
      }
      assert canal.emisiones == old(canal.emisiones) + EmisionesEnvio(modoFlotante, editando);
    }
  }
}

// The reservation page of src/pages/Client/ReservasClient.tsx: a form
// validated in three steps, a create/update submit, edit, cancel and delete.
// The backend is not modelled: each request is returned to the caller, and
// whether the server accepted it arrives as a parameter. The reloads the page
// starts after a write are asynchronous and are the separate CargarReservas
// and CargarHabitaciones steps.
module ReservasClient {
  import opened Comun
  import opened Tipos
  import opened Eventos
  import opened VentanaContext
  import opened Reservas

  /** The three checks of `handleSubmit`, in order: check-in, check-out, then a room must be chosen. */
  function Validar(f: FormReserva, hoy: int): (m: Option<string>)
    ensures m == None || m == Some(MsgIngresoAnterior) || m == Some(MsgSalidaNoPosterior) || m == Some(MsgSinHabitacion)
    ensures m == None ==> f.habitacionId != 0
  {
    var fechas := ValidarFechas(f, hoy);
    if fechas.Some? then fechas
    else if f.habitacionId == 0 then Some(MsgSinHabitacion)
    else None
  }

  /**
   * The room check comes last: a date failure wins over it, and the form is
   * accepted exactly when both the dates and the room pass.
   */
  lemma ValidarOrden(f: FormReserva, hoy: int)
    ensures Validar(f, hoy) == None <==> ValidarFechas(f, hoy) == None && f.habitacionId != 0
    ensures ValidarFechas(f, hoy).Some? ==> Validar(f, hoy) == ValidarFechas(f, hoy)
    ensures ValidarFechas(f, hoy) == None && f.habitacionId == 0 ==> Validar(f, hoy) == Some(MsgSinHabitacion)
  {
  }

  /** A stay from today to tomorrow in a chosen room is accepted. */
  lemma ValidarAceptaHoy(f: FormReserva, hoy: int)
    requires f.fechaIngreso == Dia(hoy) && f.fechaSalida == Dia(hoy + 1) && f.habitacionId != 0
    ensures Validar(f, hoy) == None
  {
  }

  /**
   * The handler alone lets an empty date through: every comparison with an
   * invalid date is false, so neither `fechaIn < hoyDate` nor
   * `fechaOut <= fechaIn` fires. The `required` attribute of the date inputs
   * is what keeps such a form from being submitted.
   */
  lemma ValidarFechaVacia(f: FormReserva, hoy: int)
    requires f.habitacionId != 0
    requires f.fechaIngreso == Invalida || (f.fechaSalida == Invalida && f.fechaIngreso.Dia? && hoy <= f.fechaIngreso.n)
    ensures Validar(f, hoy) == None
  {
  }

  /** What a valid submit sends: an update of `editandoId` when editing, otherwise a create without id. */
  function PeticionEnvio(f: FormReserva, usuarioId: int, editandoId: Option<int>): (p: Peticion)
    ensures p.Actualizar? <==> Verdadero(editandoId)
    ensures p.Actualizar? ==> p.id == editandoId.value && p.reserva.id == p.id
                              && p.reserva.usuarioId == usuarioId && FormDe(p.reserva) == f
    ensures !p.Actualizar? ==> p == CrearSinId(usuarioId, f)
  {
    if Verdadero(editandoId) then Actualizar(editandoId.value, DeFormulario(editandoId.value, usuarioId, f))
    else CrearSinId(usuarioId, f)
  }

  /** The form `editar(r)` produces. */
  function FormDe(r: Reserva): (f: FormReserva)
    ensures DeFormulario(r.id, r.usuarioId, f) == r
  {
    FormReserva(r.habitacionId, r.fechaIngreso, r.fechaSalida, r.estado)
  }

  /**
   * Editing a reservation and submitting the form untouched sends that same
   * reservation back under its own id, with the current user as usuarioId.
   */
  lemma EditarYEnviar(r: Reserva, usuarioId: int)
    requires r.id != 0
    ensures PeticionEnvio(FormDe(r), usuarioId, Some(r.id)) == Actualizar(r.id, r.(usuarioId := usuarioId))
  {
  }

  /** A reservation whose id is 0 cannot be edited: `if (editandoId)` is false and the submit creates a new one. */
  lemma EditarIdCero(r: Reserva, usuarioId: int)
    requires r.id == 0
    ensures PeticionEnvio(FormDe(r), usuarioId, Some(r.id)) == CrearSinId(usuarioId, FormDe(r))
  {
  }

  class ReservasClientState {
    const modoFlotante: bool
    const habitacionPreseleccionada: Option<int>
    const registro: VentanaRegistro
    const canal: Canal
    var usuario: Option<Usuario>
    var reservas: seq<Reserva>
    var habitaciones: seq<Habitacion>
    var errorFecha: string
    var form: FormReserva
    var editandoId: Option<int>

    /** The initial state: no user, empty lists, no error, the form on the preselected room (or 0). */
    constructor (modoFlotante: bool, habitacionPreseleccionada: Option<int>, registro: VentanaRegistro, canal: Canal)
      ensures this.modoFlotante == modoFlotante && this.habitacionPreseleccionada == habitacionPreseleccionada
      ensures this.registro == registro && this.canal == canal
      ensures usuario == None && reservas == [] && habitaciones == [] && errorFecha == "" && editandoId == None
      ensures form == FormReserva(HabitacionInicial(habitacionPreseleccionada), Invalida, Invalida, Pendiente)
    {
      this.modoFlotante := modoFlotante;
      this.habitacionPreseleccionada := habitacionPreseleccionada;
      this.registro := registro;
      this.canal := canal;
      usuario := None;
      reservas := [];
      habitaciones := [];
      errorFecha := "";
      form := FormReserva(HabitacionInicial(habitacionPreseleccionada), Invalida, Invalida, Pendiente);
      editandoId := None;
    }

    /** The mount effect: with a stored user, adopt it and set the form's room from the preselection or the URL. */
    method Montar(guardado: Option<Usuario>, habitacionIdURL: Option<int>)
      modifies this`usuario, this`form
      ensures guardado.None? ==> usuario == old(usuario) && form == old(form)
      ensures guardado.Some? ==>
        (usuario == guardado
         && form == old(form).(habitacionId := HabitacionAlMontar(old(form).habitacionId, habitacionPreseleccionada, habitacionIdURL, modoFlotante)))
    {
      if guardado.Some? {
        usuario := guardado;
        if Verdadero(habitacionPreseleccionada) {
          form := form.(habitacionId := habitacionPreseleccionada.value);
        }
        if habitacionIdURL.Some? && !modoFlotante {
          form := form.(habitacionId := habitacionIdURL.value);
        }
      }
    }

    /** The second effect: a floating form keeps its room equal to a truthy preselection. */
    method SincronizarPreseleccion()
      modifies this`form
      ensures modoFlotante && Verdadero(habitacionPreseleccionada) ==> form == old(form).(habitacionId := habitacionPreseleccionada.value)
      ensures !(modoFlotante && Verdadero(habitacionPreseleccionada)) ==> form == old(form)
    {
      if modoFlotante && Verdadero(habitacionPreseleccionada) && form.habitacionId != habitacionPreseleccionada.value {
        form := form.(habitacionId := habitacionPreseleccionada.value);
      }
    }

    /** `cargarReservas`: a reply replaces the list; a failed request leaves it. */
    method CargarReservas(respuesta: Option<seq<Reserva>>)
      modifies this`reservas
      ensures reservas == if respuesta.Some? then respuesta.value else old(reservas)
    {
      if respuesta.Some? {
        reservas := respuesta.value;
      }
    }

    /** `cargarHabitaciones`: the available rooms of the server's list replace the list; a failed request leaves it. */
    method CargarHabitaciones(respuesta: Option<seq<Habitacion>>)
      modifies this`habitaciones
      ensures habitaciones == if respuesta.Some? then Disponibles(respuesta.value) else old(habitaciones)
    {
      if respuesta.Some? {
        habitaciones := Disponibles(respuesta.value);
      }
    }

    /**
     * `handleSubmit`. Without a user nothing happens. A failed check sets its
     * message and stops. Otherwise the error is cleared and the request of
     * PeticionEnvio is returned; when the server accepts it, a floating create
     * closes "reservas", one "dashboardUpdate" is emitted and the form and
     * editandoId are reset. A refused request changes nothing more.
     */
    method HandleSubmit(hoy: int, servidorOk: bool) returns (peticion: Option<Peticion>)
      requires registro.Valid()
      modifies this`errorFecha, this`form, this`editandoId, registro, canal
      ensures registro.Valid()
      ensures usuario.None? ==>
        peticion == None && errorFecha == old(errorFecha) && form == old(form) && editandoId == old(editandoId)
        && registro.ventanas == old(registro.ventanas) && canal.emisiones == old(canal.emisiones)
      ensures usuario.Some? && Validar(old(form), hoy).Some? ==>
        peticion == None && errorFecha == Validar(old(form), hoy).value && form == old(form) && editandoId == old(editandoId)
        && registro.ventanas == old(registro.ventanas) && canal.emisiones == old(canal.emisiones)
      ensures usuario.Some? && Validar(old(form), hoy) == None ==>
        errorFecha == "" && peticion == Some(PeticionEnvio(old(form), usuario.value.id, old(editandoId)))
      ensures usuario.Some? && Validar(old(form), hoy) == None && servidorOk ==>
        form == FormVacio && editandoId == None && canal.emisiones == old(canal.emisiones) + 1
        && registro.ventanas == if modoFlotante && !Verdadero(old(editandoId)) then Cerrar(old(registro.ventanas), "reservas") else old(registro.ventanas)
      ensures usuario.Some? && Validar(old(form), hoy) == None && !servidorOk ==>
        form == old(form) && editandoId == old(editandoId)
        && registro.ventanas == old(registro.ventanas) && canal.emisiones == old(canal.emisiones)
    {
      peticion := None;
      if usuario.None? {
        return;
      }
      var error := Validar(form, hoy);
      if error.Some? {
        errorFecha := error.value;
        return;
      }
      errorFecha := "";
      peticion := Some(PeticionEnvio(form, usuario.value.id, editandoId));
      if !servidorOk {
        return;
      }
      if !Verdadero(editandoId) && modoFlotante {
        registro.CerrarVentana("reservas");
      }
      canal.Emitir();
      form := FormVacio;
      editandoId := None;
    }

    /** `editar(r)`: the four fields go into the form and r's id becomes editandoId. */
    method Editar(r: Reserva)
      modifies this`form, this`editandoId
      ensures form == FormDe(r) && editandoId == Some(r.id)
    {
      form := FormReserva(r.habitacionId, r.fechaIngreso, r.fechaSalida, r.estado);
      editandoId := Some(r.id);
    }

    /**
     * `cancelar(id)`: an id not in the list does nothing, not even ask; then
     * only a confirmed cancel sends the update, and only an accepted one emits.
     */
    method Cancelar(id: int, confirmado: bool, servidorOk: bool) returns (peticion: Option<Peticion>)
      modifies canal
      ensures peticion == if confirmado then PeticionCancelar(reservas, id) else None
      ensures canal.emisiones == old(canal.emisiones) + if peticion.Some? && servidorOk then 1 else 0
    {
      peticion := None;
      var p := PeticionCancelar(reservas, id);
      if p.None? || !confirmado {
        return;
      }
      peticion := p;
      if servidorOk {
        canal.Emitir();
      }
    }

    /** `eliminar(id)`: a confirmed delete is sent whatever the list holds; an accepted one emits. */
    method Eliminar(id: int, confirmado: bool, servidorOk: bool) returns (enviado: bool)
      modifies canal
      ensures enviado == confirmado
      ensures canal.emisiones == old(canal.emisiones) + if confirmado && servidorOk then 1 else 0
    {
      enviado := confirmado;
      if confirmado && servidorOk {
        canal.Emitir();
      }
    }
  }
}

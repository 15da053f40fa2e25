// The reservation list of src/pages/Client/ListaReserva.tsx: cancel and
// delete update the local list after the server accepts the request, each
// followed by one "dashboardUpdate"; every row looks its room up by comparing
// ids as strings.
module ListaReserva {
  import opened Comun
  import opened Tipos
  import opened Eventos
  import opened Reservas

  /** An id as it arrives in JSON: a number, a string, or missing. */
  datatype IdJson = Numero(n: int) | Texto(s: string) | Ausente

  /** `x?.toString()`: a missing id stays undefined. */
  function ComoTexto(x: IdJson): (t: Option<string>)
    ensures t.None? <==> x.Ausente?
  {
    match x
    case Numero(n) => Some(IntToString(n))
    case Texto(s) => Some(s)
    case Ausente => None
  }

  /** `a?.toString() === b?.toString()`. */
  predicate MismoId(a: IdJson, b: IdJson)
    ensures a == b ==> MismoId(a, b)
    ensures MismoId(a, b) ==> (a.Ausente? <==> b.Ausente?)
  {
    ComoTexto(a) == ComoTexto(b)
  }

  /** A numeric id matches its decimal text: 5 matches "5" but not "05". */
  lemma NumeroCoincideConTexto()
    ensures MismoId(Numero(5), Texto("5"))
    ensures !MismoId(Numero(5), Texto("05"))
  {
  }

  /** Between two numbers the string comparison is plain equality. */
  lemma NumerosCoinciden(a: int, b: int)
    ensures MismoId(Numero(a), Numero(b)) <==> a == b
  {
    if MismoId(Numero(a), Numero(b)) {
      IntToStringInjective(a, b);
    }
  }

  /** Two missing ids match each other, and nothing else. */
  lemma AusenteCoincide(x: IdJson)
    ensures MismoId(Ausente, x) <==> x.Ausente?
  {
  }

  /** `habitaciones.find((h) => h.id?.toString() === res.habitacionId?.toString())`. */
  function HabitacionDe(hs: seq<Habitacion>, habitacionId: int): (h: Option<Habitacion>)
    ensures h.Some? <==> exists i :: 0 <= i < |hs| && hs[i].id == habitacionId
    ensures h.Some? ==> exists i :: 0 <= i < |hs| && hs[i] == h.value && h.value.id == habitacionId
                                    && forall j :: 0 <= j < i ==> hs[j].id != habitacionId
  {
    assert forall i :: 0 <= i < |hs| ==> (MismoId(Numero(hs[i].id), Numero(habitacionId)) <==> hs[i].id == habitacionId) by {
      forall i | 0 <= i < |hs| {
        NumerosCoinciden(hs[i].id, habitacionId);
      }
    }
    Primero(hs, (x: Habitacion) => MismoId(Numero(x.id), Numero(habitacionId)))
  }

  /** Cancel and delete controls are offered only for reservations that are not cancelled. */
  predicate OfreceAcciones(r: Reserva)
    ensures OfreceAcciones(r) <==> r.estado == EstadoReserva.Pendiente || r.estado == EstadoReserva.Confirmada
  {
    r.estado != EstadoReserva.Cancelada
  }

  /** One row of the list: the reservation, its room if found, and whether the two buttons are shown. */
  datatype Fila = Fila(reserva: Reserva, habitacion: Option<Habitacion>, acciones: bool)

  /** The rows, one per reservation in list order. */
  function Render(rs: seq<Reserva>, hs: seq<Habitacion>): (r: seq<Fila>)
    ensures |r| == |rs|
    ensures forall i :: 0 <= i < |rs| ==>
      r[i].reserva == rs[i] && r[i].habitacion == HabitacionDe(hs, rs[i].habitacionId)
      && (r[i].acciones <==> rs[i].estado != EstadoReserva.Cancelada)
  {
    seq(|rs|, i requires 0 <= i < |rs| => Fila(rs[i], HabitacionDe(hs, rs[i].habitacionId), OfreceAcciones(rs[i])))
  }

  /** After a cancel, no reservation with that id offers the controls any more. */
  lemma CancelarRetiraAcciones(rs: seq<Reserva>, id: int)
    ensures forall r :: r in CancelarEnLista(rs, id) && r.id == id ==> !OfreceAcciones(r)
  {
    var f := BuscarPorId(rs, id);
    if f.Some? {
      var r := CancelarEnLista(rs, id);
      forall x | x in r && x.id == id ensures !OfreceAcciones(x) {
        var i :| 0 <= i < |r| && r[i] == x;
      }
    }
  }

  class ListaReservaState {
    const canal: Canal
    var usuario: Option<Usuario>
    var reservas: seq<Reserva>
    var habitaciones: seq<Habitacion>

    /** No user, empty lists. */
    constructor (canal: Canal)
      ensures this.canal == canal && usuario == None && reservas == [] && habitaciones == []
    {
      this.canal := canal;
      usuario := None;
      reservas := [];
      habitaciones := [];
    }

    /** `cargarDatos`: both requests run together; the lists change only when both succeed. */
    method CargarDatos(habitacionesRes: Option<seq<Habitacion>>, reservasRes: Option<seq<Reserva>>)
      modifies this`habitaciones, this`reservas
      ensures habitacionesRes.Some? && reservasRes.Some? ==>
        habitaciones == habitacionesRes.value && reservas == reservasRes.value
      ensures habitacionesRes.None? || reservasRes.None? ==>
        habitaciones == old(habitaciones) && reservas == old(reservas)
    {
      if habitacionesRes.Some? && reservasRes.Some? {
        habitaciones := habitacionesRes.value;
        reservas := reservasRes.value;
      }
    }

    /** The mount effect: a stored user is adopted and its data loaded; without one nothing happens. */
    method Montar(guardado: Option<Usuario>, habitacionesRes: Option<seq<Habitacion>>, reservasRes: Option<seq<Reserva>>)
      modifies this`usuario, this`habitaciones, this`reservas
      ensures guardado.None? ==>
        usuario == old(usuario) && habitaciones == old(habitaciones) && reservas == old(reservas)
      ensures guardado.Some? ==> usuario == guardado
      ensures guardado.Some? && habitacionesRes.Some? && reservasRes.Some? ==>
        habitaciones == habitacionesRes.value && reservas == reservasRes.value
      ensures guardado.Some? && (habitacionesRes.None? || reservasRes.None?) ==>
        habitaciones == old(habitaciones) && reservas == old(reservas)
    {
      if guardado.Some? {
        usuario := guardado;
        CargarDatos(habitacionesRes, reservasRes);
      }
    }

    /**
     * `cancelarReserva(id)`: asks first, then looks the id up; an unconfirmed
     * cancel or an unknown id sends nothing. An accepted update replaces the
     * entries with that id and emits once.
     */
    method CancelarReserva(id: int, confirmado: bool, servidorOk: bool) returns (peticion: Option<Peticion>)
      modifies this`reservas, canal
      ensures peticion == if confirmado then PeticionCancelar(old(reservas), id) else None
      ensures reservas == if peticion.Some? && servidorOk then CancelarEnLista(old(reservas), id) else old(reservas)
      ensures canal.emisiones == old(canal.emisiones) + if peticion.Some? && servidorOk then 1 else 0
    {
      peticion := None;
      if !confirmado {
        return;
      }
      var reserva := BuscarPorId(reservas, id);
      if reserva.None? {
        return;
      }
      var actualizada := ComoCancelada(reserva.value);
      peticion := Some(Actualizar(id, actualizada));
      if servidorOk {
        reservas := ReemplazarPorId(reservas, id, actualizada);
        canal.Emitir();
      }
    }

    /** `eliminarReserva(id)`: a confirmed delete is sent; an accepted one filters the id out and emits once. */
    method EliminarReserva(id: int, confirmado: bool, servidorOk: bool) returns (enviado: bool)
      modifies this`reservas, canal
      ensures enviado == confirmado
      ensures reservas == if confirmado && servidorOk then EliminarPorId(old(reservas), id) else old(reservas)
      ensures canal.emisiones == old(canal.emisiones) + if confirmado && servidorOk then 1 else 0
    {
      enviado := confirmado;
      if confirmado && servidorOk {
        reservas := EliminarPorId(reservas, id);
        canal.Emitir();
      }
    }
  }
}

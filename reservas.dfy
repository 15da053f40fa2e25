// Reservation rules shared by the three reservation pages
// (src/pages/Client/ReservasClient.tsx, FormularioReserva.tsx and
// ListaReserva.tsx): the form record, the date checks and their messages, the
// next id, and the list updates done after a successful remote call.
module Reservas {
  import opened Comun
  import opened Tipos

  const MsgIngresoAnterior: string := "La fecha de ingreso no puede ser anterior a hoy."
  const MsgSalidaNoPosterior: string := "La fecha de salida debe ser posterior a la de ingreso."
  const MsgSinHabitacion: string := "Por favor, selecciona una habitación."

  /** The form state: a reservation without `id` and `usuarioId`. */
  datatype FormReserva = FormReserva(habitacionId: int, fechaIngreso: Fecha, fechaSalida: Fecha, estado: EstadoReserva)

  /** The initial and reset form: no room, empty dates, "Pendiente". */
  const FormVacio: FormReserva := FormReserva(0, Invalida, Invalida, Pendiente)

  /** `{ ...form, usuarioId, id }`. */
  function DeFormulario(id: int, usuarioId: int, f: FormReserva): (r: Reserva)
    ensures r.id == id && r.usuarioId == usuarioId
    ensures FormReserva(r.habitacionId, r.fechaIngreso, r.fechaSalida, r.estado) == f
  {
    Reserva(id, usuarioId, f.habitacionId, f.fechaIngreso, f.fechaSalida, f.estado)
  }

  /** What a submit sends to the backend. */
  datatype Peticion =
    | CrearSinId(usuarioId: int, form: FormReserva)   // POST of `Omit<Reserva, "id">`
    | Crear(reserva: Reserva)                          // POST of a reservation with a client-chosen id
    | Actualizar(id: int, reserva: Reserva)            // PUT /reservas/{id}

  /**
   * JavaScript truthiness of a number that may be null, as in `if (editandoId)`
   * and `if (habitacionPreseleccionada)`: neither null nor 0.
   */
  predicate Verdadero(x: Option<int>)
    ensures Verdadero(x) ==> x.Some?
    ensures x == Some(0) ==> !Verdadero(x)
  {
    x.Some? && x.value != 0
  }

  /** The two date checks, in order; the first failing one gives the message. `hoy` is today's day number. */
  function ValidarFechas(f: FormReserva, hoy: int): (m: Option<string>)
    ensures m == None || m == Some(MsgIngresoAnterior) || m == Some(MsgSalidaNoPosterior)
    ensures m == None ==> !Antes(f.fechaIngreso, Dia(hoy)) && !AntesOIgual(f.fechaSalida, f.fechaIngreso)
  {
    if Antes(f.fechaIngreso, Dia(hoy)) then Some(MsgIngresoAnterior)
    else if AntesOIgual(f.fechaSalida, f.fechaIngreso) then Some(MsgSalidaNoPosterior)
    else None
  }

  /** The date checks accept exactly a check-in not before today followed by a later check-out (valid dates). */
  lemma ValidarFechasAcepta(f: FormReserva, hoy: int)
    requires f.fechaIngreso.Dia? && f.fechaSalida.Dia?
    ensures ValidarFechas(f, hoy) == None <==> hoy <= f.fechaIngreso.n < f.fechaSalida.n
  {
  }

  /** A check-in before today is refused with its message whatever the check-out; one equal to today passes that check. */
  lemma ValidarFechasIngreso(f: FormReserva, hoy: int)
    ensures Antes(f.fechaIngreso, Dia(hoy)) ==> ValidarFechas(f, hoy) == Some(MsgIngresoAnterior)
    ensures f.fechaIngreso == Dia(hoy) ==> ValidarFechas(f, hoy) != Some(MsgIngresoAnterior)
  {
  }

  /** A check-out on or before the check-in is refused (when the check-in itself passed). */
  lemma ValidarFechasSalida(f: FormReserva, hoy: int)
    requires f.fechaIngreso.Dia? && f.fechaSalida.Dia? && hoy <= f.fechaIngreso.n
    ensures f.fechaSalida.n <= f.fechaIngreso.n ==> ValidarFechas(f, hoy) == Some(MsgSalidaNoPosterior)
  {
  }

  /** The largest id of a non-empty list: `Math.max(...reservas.map((r) => r.id))`. */
  function MaxId(rs: seq<Reserva>): (m: int)
    requires rs != []
    ensures forall i :: 0 <= i < |rs| ==> rs[i].id <= m
    ensures exists i :: 0 <= i < |rs| && rs[i].id == m
  {
    if |rs| == 1 then rs[0].id
    else
      var m := MaxId(rs[1..]);
      assert forall i :: 1 <= i < |rs| ==> rs[i] == rs[1..][i - 1];
      if rs[0].id > m then rs[0].id else m
  }

  /** `ultimoId + 1` where `ultimoId` is 0 for an empty list and the largest id otherwise. */
  function SiguienteId(rs: seq<Reserva>): (id: int)
    ensures rs == [] ==> id == 1
    ensures forall i :: 0 <= i < |rs| ==> rs[i].id < id
    ensures rs != [] ==> exists i :: 0 <= i < |rs| && rs[i].id == id - 1
  {
    if |rs| > 0 then MaxId(rs) + 1 else 1
  }

  /** No two reservations share an id. */
  predicate IdsReservaUnicos(rs: seq<Reserva>) {
    forall i, j :: 0 <= i < j < |rs| ==> rs[i].id != rs[j].id
  }

  /** The fresh id never collides, so appending a reservation with it keeps ids unique. */
  lemma SiguienteIdFresco(rs: seq<Reserva>, r: Reserva)
    requires IdsReservaUnicos(rs) && r.id == SiguienteId(rs)
    ensures IdsReservaUnicos(rs + [r])
  {
  }

  /** `{ ...reserva, estado: "Cancelada" }`. */
  function ComoCancelada(r: Reserva): (c: Reserva)
    ensures c.estado == EstadoReserva.Cancelada && c.(estado := r.estado) == r
  {
    r.(estado := EstadoReserva.Cancelada)
  }

  /** `reservas.find((r) => r.id === id)`: the first reservation with that id. */
  function BuscarPorId(rs: seq<Reserva>, id: int): (r: Option<Reserva>)
    ensures r.Some? <==> exists i :: 0 <= i < |rs| && rs[i].id == id
    ensures r.Some? ==> exists i :: 0 <= i < |rs| && rs[i] == r.value && r.value.id == id
                                    && forall j :: 0 <= j < i ==> rs[j].id != id
  {
    Primero(rs, (x: Reserva) => x.id == id)
  }

  /** `prev.map((r) => (r.id === id ? x : r))`. */
  function ReemplazarPorId(rs: seq<Reserva>, id: int, x: Reserva): (r: seq<Reserva>)
    ensures |r| == |rs|
    ensures forall i :: 0 <= i < |rs| ==> r[i] == if rs[i].id == id then x else rs[i]
  {
    if rs == [] then []
    else [if rs[0].id == id then x else rs[0]] + ReemplazarPorId(rs[1..], id, x)
  }

  /** `prev.filter((r) => r.id !== id)`. */
  function EliminarPorId(rs: seq<Reserva>, id: int): (r: seq<Reserva>)
    ensures |r| <= |rs|
    ensures forall x :: x in r <==> x in rs && x.id != id
    ensures (forall i :: 0 <= i < |rs| ==> rs[i].id != id) ==> r == rs
  {
    if rs == [] then []
    else (if rs[0].id == id then [] else [rs[0]]) + EliminarPorId(rs[1..], id)
  }

  /** Deleting works on each part of the list separately, so the survivors keep their order. */
  lemma {:induction false} EliminarPorIdConcat(a: seq<Reserva>, b: seq<Reserva>, id: int)
    ensures EliminarPorId(a + b, id) == EliminarPorId(a, id) + EliminarPorId(b, id)
    decreases |a|
  {
    if a == [] {
      assert a + b == b;
    } else {
      assert (a + b)[1..] == a[1..] + b;
      EliminarPorIdConcat(a[1..], b, id);
    }
  }

  /**
   * The list after a successful cancel: every entry with the id becomes the
   * first such entry with estado "Cancelada"; an id not in the list changes nothing.
   */
  function CancelarEnLista(rs: seq<Reserva>, id: int): (r: seq<Reserva>)
    ensures |r| == |rs|
    ensures forall i :: 0 <= i < |rs| && rs[i].id != id ==> r[i] == rs[i]
    ensures forall i :: 0 <= i < |rs| && rs[i].id == id ==> r[i].id == id && r[i].estado == EstadoReserva.Cancelada
  {
    match BuscarPorId(rs, id)
    case None => rs
    case Some(x) => ReemplazarPorId(rs, id, ComoCancelada(x))
  }

  /** With unique ids, cancelling changes only the matching reservation, and only its estado; order and length stay. */
  lemma CancelarSoloEstado(rs: seq<Reserva>, id: int)
    requires IdsReservaUnicos(rs)
    ensures |CancelarEnLista(rs, id)| == |rs|
    ensures forall i :: 0 <= i < |rs| ==>
      CancelarEnLista(rs, id)[i] == if rs[i].id == id then rs[i].(estado := EstadoReserva.Cancelada) else rs[i]
  {
    var f := BuscarPorId(rs, id);
    if f.Some? {
      var k :| 0 <= k < |rs| && rs[k] == f.value;
      forall i | 0 <= i < |rs| && rs[i].id == id ensures rs[i] == f.value {
      }
    }
  }

  /** Replacing by id with the value every matching entry already has changes nothing. */
  lemma ReemplazarSinEfecto(rs: seq<Reserva>, id: int, x: Reserva)
    requires forall i :: 0 <= i < |rs| && rs[i].id == id ==> rs[i] == x
    ensures ReemplazarPorId(rs, id, x) == rs
  {
  }

  /** Cancelling twice gives the same list as cancelling once. */
  lemma CancelarIdempotente(rs: seq<Reserva>, id: int)
    ensures CancelarEnLista(CancelarEnLista(rs, id), id) == CancelarEnLista(rs, id)
  {
    match BuscarPorId(rs, id)
    case None =>
    case Some(x) =>
      var c := ComoCancelada(x);
      var r1 := ReemplazarPorId(rs, id, c);
      assert CancelarEnLista(rs, id) == r1;
      assert forall i :: 0 <= i < |r1| && r1[i].id == id ==> r1[i] == c;
      var k :| 0 <= k < |rs| && rs[k].id == id;
      assert r1[k].id == id;
      var g := BuscarPorId(r1, id);
      assert g == Some(c);
      assert ComoCancelada(c) == c;
      ReemplazarSinEfecto(r1, id, c);
  }

  /**
   * The update a cancel sends (`{ ...reserva, estado: "Cancelada" }` for the
   * first reservation with the id); none when the id is not in the list.
   */
  function PeticionCancelar(rs: seq<Reserva>, id: int): (p: Option<Peticion>)
    ensures p.Some? <==> exists i :: 0 <= i < |rs| && rs[i].id == id
    ensures p.Some? ==> p.value.Actualizar? && p.value.id == id && p.value.reserva.id == id
                        && p.value.reserva.estado == EstadoReserva.Cancelada
                        && exists i :: 0 <= i < |rs| && p.value.reserva == rs[i].(estado := EstadoReserva.Cancelada)
  {
    match BuscarPorId(rs, id)
    case None => None
    case Some(x) => Some(Actualizar(id, ComoCancelada(x)))
  }

  /** `habitacionPreseleccionada || 0`. */
  function HabitacionInicial(p: Option<int>): (h: int)
    ensures Verdadero(p) ==> h == p.value
    ensures !Verdadero(p) ==> h == 0
  {
    if p.Some? then p.value else 0
  }

  /**
   * The room of the form after the mount effect with a stored user: a
   * preselected room first, then the URL's `habitacionId` when not floating.
   */
  function HabitacionAlMontar(actual: int, pre: Option<int>, url: Option<int>, modoFlotante: bool): (h: int)
    ensures url.Some? && !modoFlotante ==> h == url.value
    ensures (url.None? || modoFlotante) && Verdadero(pre) ==> h == pre.value
    ensures (url.None? || modoFlotante) && !Verdadero(pre) ==> h == actual
  {
    var h1 := if Verdadero(pre) then pre.value else actual;
    if url.Some? && !modoFlotante then url.value else h1
  }

  /** `data.filter((h) => h.estado === "Disponible")`, the filter both reservation pages' room requests apply. */
  function Disponibles(hs: seq<Habitacion>): (r: seq<Habitacion>)
    ensures |r| <= |hs|
    ensures forall h :: h in r <==> h in hs && h.estado == Disponible
  {
    if hs == [] then []
    else (if hs[0].estado == Disponible then [hs[0]] else []) + Disponibles(hs[1..])
  }

  /** The filter keeps the server's order: it works on each part of the list separately. */
  lemma {:induction false} DisponiblesConcat(a: seq<Habitacion>, b: seq<Habitacion>)
    ensures Disponibles(a + b) == Disponibles(a) + Disponibles(b)
    decreases |a|
  {
    if a == [] {
      assert a + b == b;
    } else {
      assert (a + b)[1..] == a[1..] + b;
      DisponiblesConcat(a[1..], b);
    }
  }
}

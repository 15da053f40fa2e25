// The dashboard aggregation of src/services/dashboardService.ts: for each of
// the user's active reservations, look its room up and attach it (or keep the
// bare reservation when the lookup fails), add up the prices of the rooms
// found, then add the prices of the services stored under `servicios-<userId>`.
// The server is a parameter: the reservations reply (None when the request
// fails) and a snapshot of the rooms, where a room id missing from the map is
// a failed lookup.
module Dashboard {
  import opened Comun
  import opened Tipos
  import opened Almacenamiento

  /** A reservation with the room found for it, if any (`detalleHabitacion?`). */
  datatype ReservaConHabitacion = ReservaConHabitacion(reserva: Reserva, detalleHabitacion: Option<Habitacion>)

  /** What the service returns. */
  datatype Resumen = Resumen(reservas: seq<ReservaConHabitacion>, servicios: seq<Servicio>, total: int)

  /** The outcome: the summary, or the reservations request's error passed on. */
  datatype Carga = Cargado(resumen: Resumen) | Fallo

  /** One loop step's entry: `{ ...reserva, detalleHabitacion }` when the room was found, the bare reservation otherwise. */
  function ConDetalle(r: Reserva, servidor: map<int, Habitacion>): (d: ReservaConHabitacion)
    ensures d.reserva == r
    ensures d.detalleHabitacion.Some? <==> r.habitacionId in servidor
    ensures d.detalleHabitacion.Some? ==> d.detalleHabitacion.value == servidor[r.habitacionId]
  {
    ReservaConHabitacion(r, if r.habitacionId in servidor then Some(servidor[r.habitacionId]) else None)
  }

  /** The entries for a list of reservations, in the same order. */
  function Detallar(rs: seq<Reserva>, servidor: map<int, Habitacion>): (out: seq<ReservaConHabitacion>)
    ensures |out| == |rs|
    ensures forall i :: 0 <= i < |rs| ==>
      out[i].reserva == rs[i]
      && (out[i].detalleHabitacion.Some? <==> rs[i].habitacionId in servidor)
      && (out[i].detalleHabitacion.Some? ==> out[i].detalleHabitacion.value == servidor[rs[i].habitacionId])
  {
    if rs == [] then []
    else Detallar(rs[..|rs| - 1], servidor) + [ConDetalle(rs[|rs| - 1], servidor)]
  }

  /** The sum of the prices of the rooms found for the reservations. */
  function SumaHalladas(rs: seq<Reserva>, servidor: map<int, Habitacion>): (t: int)
    ensures (forall k :: k in servidor ==> 0 <= servidor[k].precio) ==> 0 <= t
  {
    if rs == [] then 0
    else
      var r := rs[|rs| - 1];
      SumaHalladas(rs[..|rs| - 1], servidor) + if r.habitacionId in servidor then servidor[r.habitacionId].precio else 0
  }

  /** The room total is the sum over each part of the reservation list. */
  lemma {:induction false} SumaHalladasConcat(a: seq<Reserva>, b: seq<Reserva>, servidor: map<int, Habitacion>)
    ensures SumaHalladas(a + b, servidor) == SumaHalladas(a, servidor) + SumaHalladas(b, servidor)
    decreases |b|
  {
    if b == [] {
      assert a + b == a;
    } else {
      assert (a + b)[..|a + b| - 1] == a + b[..|b| - 1];
      SumaHalladasConcat(a, b[..|b| - 1], servidor);
    }
  }

  /** A reservation whose room lookup fails adds nothing to the total; one whose lookup succeeds adds that room's price. */
  lemma SumaHalladasUna(rs: seq<Reserva>, r: Reserva, servidor: map<int, Habitacion>)
    ensures r.habitacionId !in servidor ==> SumaHalladas(rs + [r], servidor) == SumaHalladas(rs, servidor)
    ensures r.habitacionId in servidor ==> SumaHalladas(rs + [r], servidor) == SumaHalladas(rs, servidor) + servidor[r.habitacionId].precio
  {
    assert (rs + [r])[..|rs + [r]| - 1] == rs;
  }

  /** The room total is the sum of the prices attached to the entries: a reservation counts exactly when it carries a room. */
  lemma {:induction false} SumaHalladasEsDetalle(rs: seq<Reserva>, servidor: map<int, Habitacion>)
    ensures SumaHalladas(rs, servidor) == SumaDetalles(Detallar(rs, servidor))
    decreases |rs|
  {
    if rs != [] {
      var init := rs[..|rs| - 1];
      SumaHalladasEsDetalle(init, servidor);
      var d := Detallar(rs, servidor);
      assert d[..|d| - 1] == Detallar(init, servidor);
    }
  }

  /** The prices of the rooms attached to a list of entries. */
  function SumaDetalles(ds: seq<ReservaConHabitacion>): (t: int)
    ensures (forall i :: 0 <= i < |ds| ==> ds[i].detalleHabitacion.None?) ==> t == 0
  {
    if ds == [] then 0
    else
      var d := ds[|ds| - 1];
      SumaDetalles(ds[..|ds| - 1]) + if d.detalleHabitacion.Some? then d.detalleHabitacion.value.precio else 0
  }

  /** With no room found, the total is the services' total alone. */
  lemma {:induction false} SinHabitacionesHalladas(rs: seq<Reserva>, servidor: map<int, Habitacion>)
    requires forall i :: 0 <= i < |rs| ==> rs[i].habitacionId !in servidor
    ensures SumaHalladas(rs, servidor) == 0
    decreases |rs|
  {
    if rs != [] {
      SinHabitacionesHalladas(rs[..|rs| - 1], servidor);
    }
  }

  /**
   * `loadClientDashboardData(userId)`. A failed reservations request is passed
   * on; otherwise the loop builds one entry per reservation in order, summing
   * the prices of the rooms found, and the services stored for the user (none
   * when the key is missing) are added to the total.
   */
  method LoadClientDashboardData(userId: int, reservasRes: Option<seq<Reserva>>,
                                 servidor: map<int, Habitacion>, items: map<string, Valor>) returns (res: Carga)
    ensures reservasRes.None? <==> res.Fallo?
    ensures reservasRes.Some? ==>
      var servicios := ServiciosGuardados(items, userId);
      res == Cargado(Resumen(Detallar(reservasRes.value, servidor), servicios,
                             SumaHalladas(reservasRes.value, servidor) + SumaPrecios(servicios)))
  {
    if reservasRes.None? {
      return Fallo;
    }
    var userReservas := reservasRes.value;
    var conDetalle: seq<ReservaConHabitacion> := [];
    var sumaTotalReservas := 0;
    for i := 0 to |userReservas|
      invariant conDetalle == Detallar(userReservas[..i], servidor)
      invariant sumaTotalReservas == SumaHalladas(userReservas[..i], servidor)
    {
      var reserva := userReservas[i];
      assert userReservas[..i + 1][..i] == userReservas[..i];
      if reserva.habitacionId in servidor {
        var habitacionDetalle := servidor[reserva.habitacionId];
        conDetalle := conDetalle + [ReservaConHabitacion(reserva, Some(habitacionDetalle))];
        sumaTotalReservas := sumaTotalReservas + habitacionDetalle.precio;
      } else {
        conDetalle := conDetalle + [ReservaConHabitacion(reserva, None)];
      }
    }
    assert userReservas[..|userReservas|] == userReservas;
    var servicios := ServiciosGuardados(items, userId);
    res := Cargado(Resumen(conDetalle, servicios, sumaTotalReservas + SumaPrecios(servicios)));
  }
}

// The room catalogue of src/pages/Client/HabitacionesClient.tsx: every room
// fetched is shown as "Disponible", whatever the server says, and "reservar"
// opens a simple window holding a floating reservation form for that room.
module HabitacionesClient {
  import opened Comun
  import opened Tipos
  import opened VentanaContext
  import opened VentanasFlotantes
  import opened VentanasSimples

  /** `res.data.map((hab) => ({ ...hab, estado: "Disponible" }))`. */
  function MarcarDisponibles(hs: seq<Habitacion>): (r: seq<Habitacion>)
    ensures |r| == |hs|
    ensures forall i :: 0 <= i < |hs| ==> r[i].estado == Disponible && r[i].(estado := hs[i].estado) == hs[i]
  {
    seq(|hs|, i requires 0 <= i < |hs| => hs[i].(estado := Disponible))
  }

  /** Marking twice is marking once. */
  lemma MarcarIdempotente(hs: seq<Habitacion>)
    ensures MarcarDisponibles(MarcarDisponibles(hs)) == MarcarDisponibles(hs)
  {
  }

  /** The window id of a room's form: `reserva-${habitacionId}`. */
  function IdReserva(habitacionId: int): (id: string)
    ensures "reserva-" <= id && |id| > |"reserva-"|
  {
    "reserva-" + IntToString(habitacionId)
  }

  /** Different rooms get different windows. */
  lemma IdReservaInjective(a: int, b: int)
    requires IdReserva(a) == IdReserva(b)
    ensures a == b
  {
    assert IdReserva(a)[8..] == IntToString(a);
    assert IdReserva(b)[8..] == IntToString(b);
    IntToStringInjective(a, b);
  }

  /** The registry after `reservar(n)`. */
  function Reservar(vs: seq<Ventana>, n: int): (r: seq<Ventana>)
    ensures Existe(r, IdReserva(n))
    ensures |r| == if Existe(vs, IdReserva(n)) then |vs| else |vs| + 1
  {
    Abrir(vs, IdReserva(n), "Reserva", FormularioReservaFlotante(n), Simple)
  }

  /**
   * `reservar(n)` leaves a "simple" window "reserva-n" titled "Reserva" with
   * the form for room n; it shows in the simple view and not in the overlay.
   */
  lemma ReservarAbreSimple(vs: seq<Ventana>, n: int)
    ensures Abierta(Reservar(vs, n), IdReserva(n), "Reserva", FormularioReservaFlotante(n), Simple)
    ensures Ventana(IdReserva(n), "Reserva", FormularioReservaFlotante(n), Some(Simple)) in VistaSimple(Reservar(vs, n))
    ensures Ventana(IdReserva(n), "Reserva", FormularioReservaFlotante(n), Some(Simple)) !in VistaFlotante(Reservar(vs, n))
  {
    var r := Reservar(vs, n);
    var i :| 0 <= i < |r| && r[i].id == IdReserva(n);
    assert r[i] == Ventana(IdReserva(n), "Reserva", FormularioReservaFlotante(n), Some(Simple));
  }

  /** Reserving the same room twice leaves the registry as one reserve did, so a single window for it. */
  lemma ReservarDosVeces(vs: seq<Ventana>, n: int)
    ensures Reservar(Reservar(vs, n), n) == Reservar(vs, n)
    ensures IdsUnicos(vs) ==> IdsUnicos(Reservar(Reservar(vs, n), n))
  {
    AbrirIdempotente(Reservar(vs, n), IdReserva(n), "Reserva", FormularioReservaFlotante(n), Simple);
    if IdsUnicos(vs) {
      AbrirPreservaUnicos(vs, IdReserva(n), "Reserva", FormularioReservaFlotante(n), Simple);
    }
  }

  /** Reserving another room keeps this room's window open. */
  lemma ReservarOtraConserva(vs: seq<Ventana>, n: int, m: int)
    requires n != m
    ensures Abierta(Reservar(Reservar(vs, n), m), IdReserva(n), "Reserva", FormularioReservaFlotante(n), Simple)
  {
    if IdReserva(m) == IdReserva(n) {
      IdReservaInjective(m, n);
    }
    ReservarAbreSimple(vs, n);
    AbrirConservaAbierta(Reservar(vs, n), IdReserva(m), "Reserva", FormularioReservaFlotante(m), Simple,
                         IdReserva(n), "Reserva", FormularioReservaFlotante(n), Simple);
  }

  class HabitacionesClientState {
    const registro: VentanaRegistro
    var habitaciones: seq<Habitacion>

    /** Nothing shown yet. */
    constructor (registro: VentanaRegistro)
      ensures this.registro == registro && habitaciones == []
    {
      this.registro := registro;
      habitaciones := [];
    }

    /** `cargarHabitaciones`: the server's rooms, all marked "Disponible"; a failed request leaves the list. */
    method CargarHabitaciones(respuesta: Option<seq<Habitacion>>)
      modifies this`habitaciones
      ensures habitaciones == if respuesta.Some? then MarcarDisponibles(respuesta.value) else old(habitaciones)
    {
      if respuesta.Some? {
        habitaciones := MarcarDisponibles(respuesta.value);
      }
    }

    /** `reservar(n)`: open (or refresh) the simple window "reserva-n". */
    method ReservarHabitacion(n: int)
      requires registro.Valid()
      modifies registro
      ensures registro.Valid() && registro.ventanas == Reservar(old(registro.ventanas), n)
      ensures habitaciones == old(habitaciones)
    {
      registro.AbrirVentana(IdReserva(n), "Reserva", FormularioReservaFlotante(n), Simple);
    }
  }
}

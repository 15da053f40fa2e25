// The records the client exchanges with the REST backend and keeps in local
// storage. Reserva and Habitacion follow src/types/Reserva.ts and
// src/types/Habitacion.ts; Usuario follows the interface in
// src/context/AuthContext.tsx; Servicio, Opinion and the stored `db` object
// have the fields the pages read from them.
module Tipos {
  import opened Comun

  datatype EstadoReserva = Confirmada | Pendiente | Cancelada

  datatype EstadoHabitacion = Disponible | Ocupada | Mantenimiento

  /**
   * A date from a date input, as a day number. The empty string (the form's
   * initial and reset value) gives JavaScript an invalid Date, whose every
   * comparison is false; `Invalida` stands for it.
   */
  datatype Fecha = Dia(n: int) | Invalida

  /** `a < b` on two Date objects. */
  predicate Antes(a: Fecha, b: Fecha) {
    a.Dia? && b.Dia? && a.n < b.n
  }

  /** `a <= b` on two Date objects. */
  predicate AntesOIgual(a: Fecha, b: Fecha) {
    a.Dia? && b.Dia? && a.n <= b.n
  }

  datatype Reserva = Reserva(
    id: int,
    usuarioId: int,
    habitacionId: int,
    fechaIngreso: Fecha,
    fechaSalida: Fecha,
    estado: EstadoReserva)

  /** Prices are whole cents. */
  datatype Habitacion = Habitacion(
    id: int,
    numero: string,
    tipo: string,
    precio: int,
    estado: EstadoHabitacion,
    capacidad: int,
    imagen: Option<string>)

  datatype Usuario = Usuario(id: int, nombre: string, correo: string, contrasena: string, rol: string)

  datatype Servicio = Servicio(id: int, nombre: string, descripcion: string, precio: int)

  datatype Opinion = Opinion(id: int, usuarioId: int, comentario: string, calificacion: int)

  /** The whole mock database as cached under the storage key "db"; `opiniones` may be missing. */
  datatype Db = Db(
    usuarios: seq<Usuario>,
    habitaciones: seq<Habitacion>,
    servicios: seq<Servicio>,
    opiniones: Option<seq<Opinion>>)

  /** `servicios.reduce((total, s) => total + s.precio, 0)`. */
  function SumaPrecios(ss: seq<Servicio>): (total: int)
    ensures (forall i :: 0 <= i < |ss| ==> 0 <= ss[i].precio) ==> 0 <= total
    ensures (forall i :: 0 <= i < |ss| ==> ss[i].precio == 0) ==> total == 0
  {
    if ss == [] then 0 else SumaPrecios(ss[..|ss| - 1]) + ss[|ss| - 1].precio
  }

  /** The total of two lists put together is the sum of their totals. */
  lemma {:induction false} SumaPreciosConcat(a: seq<Servicio>, b: seq<Servicio>)
    ensures SumaPrecios(a + b) == SumaPrecios(a) + SumaPrecios(b)
    decreases |b|
  {
    if b != [] {
      assert (a + b)[..|a + b| - 1] == a + b[..|b| - 1];
      SumaPreciosConcat(a, b[..|b| - 1]);
    } else {
      assert a + b == a;
    }
  }
}

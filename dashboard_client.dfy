// The client dashboard of src/pages/Client/DashboardClient.tsx. Its
// `cargarDatos` repeats the aggregation of the dashboard service (modelled
// once, by Dashboard.LoadClientDashboardData) and, on any error, clears the
// page. It reloads on "dashboardUpdate" and on storage events whose key
// starts with the user's services key.
module DashboardClient {
  import opened Comun
  import opened Tipos
  import opened Almacenamiento
  import opened Dashboard

  /**
   * The storage-event filter: a non-null key that starts with
   * `servicios-${user.id}`, and a truthy user id (the reload handler checks it).
   */
  predicate DebeRecargar(clave: Option<string>, userId: int)
    ensures DebeRecargar(clave, userId) ==> clave.Some? && |ClaveServicios(userId)| <= |clave.value|
  {
    clave.Some? && ClaveServicios(userId) <= clave.value && userId != 0
  }

  /** The user's own services key triggers a reload; a null key never does. */
  lemma RecargaPropia(userId: int)
    requires userId != 0
    ensures DebeRecargar(Some(ClaveServicios(userId)), userId)
    ensures !DebeRecargar(None, userId)
  {
  }

  /** The filter is a prefix test: user 1 also reloads for user 12's key, but not for user 2's nor for "usuario". */
  lemma RecargaPorPrefijo()
    ensures ClaveServicios(1) == "servicios-1" && ClaveServicios(12) == "servicios-12"
    ensures DebeRecargar(Some("servicios-12"), 1)
    ensures !DebeRecargar(Some("servicios-2"), 1)
    ensures !DebeRecargar(Some("usuario"), 1)
  {
    assert NatToString(12) == NatToString(1) + [Digito(2)];
    assert "servicios-2"[10] != ClaveServicios(1)[10];
    assert "usuario"[0] != ClaveServicios(1)[0];
  }

  /** Only a services key can trigger a reload, and only for a user whose key is a prefix of it. */
  lemma RecargaSoloServicios(clave: string, userId: int)
    requires DebeRecargar(Some(clave), userId)
    ensures "servicios-" <= clave && |clave| > |"servicios-"|
    ensures clave[..|ClaveServicios(userId)|] == ClaveServicios(userId)
  {
  }

  class DashboardClientState {
    const almacen: Almacen
    var usuario: Option<Usuario>
    var reservasDelUsuario: seq<ReservaConHabitacion>
    var serviciosAdicionales: seq<Servicio>
    var totalGeneral: int

    /** No user, nothing loaded, total 0. */
    constructor (almacen: Almacen)
      ensures this.almacen == almacen && usuario == None
      ensures reservasDelUsuario == [] && serviciosAdicionales == [] && totalGeneral == 0
    {
      this.almacen := almacen;
      usuario := None;
      reservasDelUsuario := [];
      serviciosAdicionales := [];
      totalGeneral := 0;
    }

    /** `cargarDatos(userId)`: the aggregation's result, or everything cleared (and total 0) when it fails. */
    method CargarDatos(userId: int, reservasRes: Option<seq<Reserva>>, servidor: map<int, Habitacion>)
      modifies this`reservasDelUsuario, this`serviciosAdicionales, this`totalGeneral
      ensures reservasRes.None? ==> reservasDelUsuario == [] && serviciosAdicionales == [] && totalGeneral == 0
      ensures reservasRes.Some? ==>
        reservasDelUsuario == Detallar(reservasRes.value, servidor)
        && serviciosAdicionales == ServiciosGuardados(almacen.items, userId)
        && totalGeneral == SumaHalladas(reservasRes.value, servidor) + SumaPrecios(serviciosAdicionales)
    {
      var res := LoadClientDashboardData(userId, reservasRes, servidor, almacen.items);
      match res
      case Cargado(resumen) =>
        reservasDelUsuario := resumen.reservas;
        serviciosAdicionales := resumen.servicios;
        totalGeneral := resumen.total;
      case Fallo =>
        reservasDelUsuario := [];
        serviciosAdicionales := [];
        totalGeneral := 0;
    }

    /** The mount effect: without a stored user nothing happens; otherwise adopt it and load its data. */
    method Montar(reservasRes: Option<seq<Reserva>>, servidor: map<int, Habitacion>)
      modifies this`usuario, this`reservasDelUsuario, this`serviciosAdicionales, this`totalGeneral
      ensures UsuarioGuardado(almacen.items).None? ==>
        usuario == old(usuario) && reservasDelUsuario == old(reservasDelUsuario)
        && serviciosAdicionales == old(serviciosAdicionales) && totalGeneral == old(totalGeneral)
      ensures UsuarioGuardado(almacen.items).Some? ==>
        usuario == UsuarioGuardado(almacen.items)
        && (reservasRes.None? ==> reservasDelUsuario == [] && serviciosAdicionales == [] && totalGeneral == 0)
        && (reservasRes.Some? ==>
              reservasDelUsuario == Detallar(reservasRes.value, servidor)
              && serviciosAdicionales == ServiciosGuardados(almacen.items, usuario.value.id)
              && totalGeneral == SumaHalladas(reservasRes.value, servidor) + SumaPrecios(serviciosAdicionales))
    {
      var u := UsuarioGuardado(almacen.items);
      if u.None? {
        return;
      }
      usuario := u;
      CargarDatos(u.value.id, reservasRes, servidor);
    }

    /**
     * `handleStorageChange`: reload exactly when DebeRecargar holds for the
     * mounted user's id. The listener is registered only after the mount found
     * a stored user, so there is one.
     */
    method AlCambiarAlmacen(clave: Option<string>, reservasRes: Option<seq<Reserva>>, servidor: map<int, Habitacion>)
      returns (recargado: bool)
      requires usuario.Some?
      modifies this`reservasDelUsuario, this`serviciosAdicionales, this`totalGeneral
      ensures recargado == DebeRecargar(clave, usuario.value.id)
      ensures !recargado ==>
        reservasDelUsuario == old(reservasDelUsuario) && serviciosAdicionales == old(serviciosAdicionales)
        && totalGeneral == old(totalGeneral)
      ensures recargado && reservasRes.Some? ==>
        reservasDelUsuario == Detallar(reservasRes.value, servidor)
        && serviciosAdicionales == ServiciosGuardados(almacen.items, usuario.value.id)
        && totalGeneral == SumaHalladas(reservasRes.value, servidor) + SumaPrecios(serviciosAdicionales)
      ensures recargado && reservasRes.None? ==>
        reservasDelUsuario == [] && serviciosAdicionales == [] && totalGeneral == 0
    {
      recargado := DebeRecargar(clave, usuario.value.id);
      if recargado {
        CargarDatos(usuario.value.id, reservasRes, servidor);
      }
    }
  }
}

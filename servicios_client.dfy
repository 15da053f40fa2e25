// The extra-services page of src/pages/Client/ServiciosClient.tsx: the user's
// selected services form a list without repeated ids, mirrored in local
// storage under `servicios-<userId>`; every change is announced with one
// "dashboardUpdate", and the page shows the sum of the selected prices.
module ServiciosClient {
  import opened Comun
  import opened Tipos
  import opened Eventos
  import opened Almacenamiento

  /** `ss.some((s) => s.id === id)`. */
  predicate TieneId(ss: seq<Servicio>, id: int) {
    exists i :: 0 <= i < |ss| && ss[i].id == id
  }

  /** The list after `agregarServicio(s)`: appended when its id is new, unchanged otherwise. */
  function Agregar(ss: seq<Servicio>, s: Servicio): (r: seq<Servicio>)
    ensures TieneId(ss, s.id) ==> r == ss
    ensures !TieneId(ss, s.id) ==> |r| == |ss| + 1 && r[..|ss|] == ss && r[|ss|] == s
    ensures TieneId(r, s.id)
  {
    if TieneId(ss, s.id) then ss
    else
      var r := ss + [s];
      assert r[|ss|] == s;
      r
  }

  /** `ss.filter((s) => s.id !== id)`. */
  function QuitarPorId(ss: seq<Servicio>, id: int): (r: seq<Servicio>)
    ensures |r| <= |ss|
    ensures forall x :: x in r <==> x in ss && x.id != id
    ensures !TieneId(r, id)
    ensures !TieneId(ss, id) ==> r == ss
  {
    if ss == [] then []
    else
      var r := (if ss[0].id == id then [] else [ss[0]]) + QuitarPorId(ss[1..], id);
      assert forall i :: 0 <= i < |r| ==> r[i] in r;
      r
  }

  /** Removal works on each part of the list separately, so the kept services stay in order. */
  lemma {:induction false} QuitarPorIdConcat(a: seq<Servicio>, b: seq<Servicio>, id: int)
    ensures QuitarPorId(a + b, id) == QuitarPorId(a, id) + QuitarPorId(b, id)
    decreases |a|
  {
    if a == [] {
      assert a + b == b;
    } else {
      assert (a + b)[1..] == a[1..] + b;
      QuitarPorIdConcat(a[1..], b, id);
    }
  }

  /** No two selected services share an id. */
  predicate IdsServicioUnicos(ss: seq<Servicio>) {
    forall i, j :: 0 <= i < j < |ss| ==> ss[i].id != ss[j].id
  }

  /** Adding keeps the selection free of repeated ids. */
  lemma AgregarConservaUnicos(ss: seq<Servicio>, s: Servicio)
    requires IdsServicioUnicos(ss)
    ensures IdsServicioUnicos(Agregar(ss, s))
  {
  }

  /** Removing keeps the selection free of repeated ids. */
  lemma {:induction false} QuitarConservaUnicos(ss: seq<Servicio>, id: int)
    requires IdsServicioUnicos(ss)
    ensures IdsServicioUnicos(QuitarPorId(ss, id))
    decreases |ss|
  {
    if ss != [] {
      QuitarConservaUnicos(ss[1..], id);
      var resto := QuitarPorId(ss[1..], id);
      forall x | x in resto ensures x.id != ss[0].id {
        var i :| 0 <= i < |ss[1..]| && ss[1..][i] == x;
        assert ss[i + 1] == x;
      }
    }
  }

  /** Adding a service whose id is new and then removing that id gives back the original list. */
  lemma AgregarQuitarRestaura(ss: seq<Servicio>, s: Servicio)
    requires !TieneId(ss, s.id)
    ensures QuitarPorId(Agregar(ss, s), s.id) == ss
  {
    QuitarPorIdConcat(ss, [s], s.id);
    assert QuitarPorId([s], s.id) == [];
  }

  /** The total after an add grows by the new service's price exactly when it was added. */
  lemma TotalTrasAgregar(ss: seq<Servicio>, s: Servicio)
    ensures SumaPrecios(Agregar(ss, s)) == SumaPrecios(ss) + if TieneId(ss, s.id) then 0 else s.precio
  {
    if !TieneId(ss, s.id) {
      SumaPreciosConcat(ss, [s]);
      assert SumaPrecios([s]) == s.precio by {
        assert [s][..0] == [];
      }
    }
  }

  class ServiciosClientState {
    const almacen: Almacen
    const canal: Canal
    var usuario: Option<Usuario>
    var servicios: seq<Servicio>
    var serviciosAgregados: seq<Servicio>

    /** The selection is what a reload would read back from storage for the current user. */
    ghost predicate Reflejado()
      reads this, almacen
    {
      usuario.Some? ==> serviciosAgregados == ServiciosGuardados(almacen.items, usuario.value.id)
    }

    /** No user, no catalogue, nothing selected. */
    constructor (almacen: Almacen, canal: Canal)
      ensures this.almacen == almacen && this.canal == canal
      ensures usuario == None && servicios == [] && serviciosAgregados == []
    {
      this.almacen := almacen;
      this.canal := canal;
      usuario := None;
      servicios := [];
      serviciosAgregados := [];
    }

    /** `cargarServiciosAgregados(userId)`: the stored list, or the empty list when the key is missing. */
    method CargarServiciosAgregados(userId: int)
      modifies this`serviciosAgregados
      ensures serviciosAgregados == ServiciosGuardados(almacen.items, userId)
    {
      serviciosAgregados := ServiciosGuardados(almacen.items, userId);
    }

    /** The mount effect: only when both "db" and "usuario" are stored, adopt the user, the catalogue and the stored selection. */
    method Montar()
      modifies this`usuario, this`servicios, this`serviciosAgregados
      ensures DbGuardada(almacen.items).None? || UsuarioGuardado(almacen.items).None? ==>
        usuario == old(usuario) && servicios == old(servicios) && serviciosAgregados == old(serviciosAgregados)
      ensures DbGuardada(almacen.items).Some? && UsuarioGuardado(almacen.items).Some? ==>
        usuario == UsuarioGuardado(almacen.items) && servicios == DbGuardada(almacen.items).value.servicios
        && serviciosAgregados == ServiciosGuardados(almacen.items, usuario.value.id) && Reflejado()
    {
      var db := DbGuardada(almacen.items);
      var u := UsuarioGuardado(almacen.items);
      if db.Some? && u.Some? {
        usuario := u;
        servicios := db.value.servicios;
        CargarServiciosAgregados(u.value.id);
      }
    }

    /**
     * `agregarServicio(s)`: without a user, or with the id already selected,
     * nothing changes and nothing is emitted; otherwise s is appended, the new
     * list is stored under the user's key and one broadcast is emitted.
     */
    method AgregarServicio(s: Servicio)
      modifies this`serviciosAgregados, almacen, canal
      ensures usuario.None? || TieneId(old(serviciosAgregados), s.id) ==>
        serviciosAgregados == old(serviciosAgregados) && almacen.items == old(almacen.items)
        && canal.emisiones == old(canal.emisiones)
      ensures usuario.Some? && !TieneId(old(serviciosAgregados), s.id) ==>
        serviciosAgregados == Agregar(old(serviciosAgregados), s)
        && almacen.items == old(almacen.items)[ClaveServicios(usuario.value.id) := VServicios(serviciosAgregados)]
        && ServiciosGuardados(almacen.items, usuario.value.id) == serviciosAgregados
        && canal.emisiones == old(canal.emisiones) + 1
      ensures TotalServicios() == old(TotalServicios()) + if usuario.Some? && !TieneId(old(serviciosAgregados), s.id) then s.precio else 0
    {
      if usuario.None? {
        return;
      }
      if !TieneId(serviciosAgregados, s.id) {
        TotalTrasAgregar(serviciosAgregados, s);
        var nuevos := serviciosAgregados + [s];
        serviciosAgregados := nuevos;
        almacen.SetItem(ClaveServicios(usuario.value.id), VServicios(nuevos));
        canal.Emitir();
      }
    }

    /**
     * `quitarServicio(id)`: without a user nothing happens; otherwise the id is
     * filtered out, the list is stored, and a broadcast is emitted even when
     * nothing was removed.
     */
    method QuitarServicio(id: int)
      modifies this`serviciosAgregados, almacen, canal
      ensures usuario.None? ==>
        serviciosAgregados == old(serviciosAgregados) && almacen.items == old(almacen.items)
        && canal.emisiones == old(canal.emisiones)
      ensures usuario.Some? ==>
        serviciosAgregados == QuitarPorId(old(serviciosAgregados), id)
        && almacen.items == old(almacen.items)[ClaveServicios(usuario.value.id) := VServicios(serviciosAgregados)]
        && ServiciosGuardados(almacen.items, usuario.value.id) == serviciosAgregados
        && canal.emisiones == old(canal.emisiones) + 1
    {
      if usuario.None? {
        return;
      }
      var nuevos := QuitarPorId(serviciosAgregados, id);
      serviciosAgregados := nuevos;
      almacen.SetItem(ClaveServicios(usuario.value.id), VServicios(nuevos));
      canal.Emitir();
    }

    /** `totalServicios`: the sum of the selected services' prices; never negative when no price is. */
    function TotalServicios(): (t: int)
      reads this`serviciosAgregados
      ensures (forall i :: 0 <= i < |serviciosAgregados| ==> 0 <= serviciosAgregados[i].precio) ==> 0 <= t
    {
      SumaPrecios(serviciosAgregados)
    }
  }
}

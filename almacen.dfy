// Browser local storage as a string-keyed map. The client stores JSON text;
// the model stores the typed value that text encodes, so JSON.stringify and
// JSON.parse become the identity.
module Almacenamiento {
  import opened Comun
  import opened Tipos

  datatype Valor = VUsuario(u: Usuario) | VServicios(ss: seq<Servicio>) | VDb(db: Db)

  const ClaveUsuario: string := "usuario"
  const ClaveDb: string := "db"

  /** The key under which a user's selected services are kept: `servicios-${userId}`. */
  function ClaveServicios(userId: int): (k: string)
    ensures |k| > |"servicios-"| && "servicios-" <= k
  {
    "servicios-" + IntToString(userId)
  }

  /** Two users never share a services key. */
  lemma ClaveServiciosInjective(a: int, b: int)
    requires ClaveServicios(a) == ClaveServicios(b)
    ensures a == b
  {
    assert ClaveServicios(a)[10..] == IntToString(a);
    assert ClaveServicios(b)[10..] == IntToString(b);
    IntToStringInjective(a, b);
  }

  /** The logged-in user kept under "usuario", if any. */
  function UsuarioGuardado(items: map<string, Valor>): (u: Option<Usuario>)
    ensures u.Some? <==> ClaveUsuario in items && items[ClaveUsuario].VUsuario?
    ensures u.Some? ==> items[ClaveUsuario] == VUsuario(u.value)
  {
    if ClaveUsuario in items && items[ClaveUsuario].VUsuario? then Some(items[ClaveUsuario].u) else None
  }

  /** `JSON.parse(localStorage.getItem(`servicios-${userId}`) || "[]")`: a missing key reads as the empty list. */
  function ServiciosGuardados(items: map<string, Valor>, userId: int): (ss: seq<Servicio>)
    ensures ClaveServicios(userId) !in items ==> ss == []
    ensures ClaveServicios(userId) in items && items[ClaveServicios(userId)].VServicios?
      ==> ss == items[ClaveServicios(userId)].ss
  {
    var k := ClaveServicios(userId);
    if k in items && items[k].VServicios? then items[k].ss else []
  }

  /** The cached database under "db", if any. */
  function DbGuardada(items: map<string, Valor>): (db: Option<Db>)
    ensures db.Some? <==> ClaveDb in items && items[ClaveDb].VDb?
    ensures db.Some? ==> items[ClaveDb] == VDb(db.value)
  {
    if ClaveDb in items && items[ClaveDb].VDb? then Some(items[ClaveDb].db) else None
  }

  class Almacen {
    var items: map<string, Valor>

    constructor (inicial: map<string, Valor>)
      ensures items == inicial
    {
      items := inicial;
    }

    /** `localStorage.setItem(clave, valor)`. */
    method SetItem(clave: string, valor: Valor)
      modifies this
      ensures items == old(items)[clave := valor]
    {
      items := items[clave := valor];
    }

    /** `localStorage.removeItem(clave)`. */
    method RemoveItem(clave: string)
      modifies this
      ensures items == old(items) - {clave}
    {
      items := items - {clave};
    }
  }
}

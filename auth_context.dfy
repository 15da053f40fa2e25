// The authentication context of src/context/AuthContext.tsx: the current
// `usuario` (or null), mirrored in local storage under the key "usuario".
module AuthContext {
  import opened Comun
  import opened Tipos
  import opened Almacenamiento

  /** The storage after `login(u)`: the user is written under "usuario". */
  function TrasLogin(items: map<string, Valor>, u: Usuario): (r: map<string, Valor>)
    ensures UsuarioGuardado(r) == Some(u)
    ensures forall k :: k != ClaveUsuario ==> (k in r <==> k in items) && (k in items ==> r[k] == items[k])
  {
    items[ClaveUsuario := VUsuario(u)]
  }

  /** The storage after `logout()`: the "usuario" key is gone. */
  function TrasLogout(items: map<string, Valor>): (r: map<string, Valor>)
    ensures UsuarioGuardado(r) == None && ClaveUsuario !in r
    ensures forall k :: k != ClaveUsuario ==> (k in r <==> k in items) && (k in items ==> r[k] == items[k])
  {
    items - {ClaveUsuario}
  }

  /** Logging in and then out leaves no stored user, whatever was stored before. */
  lemma LoginLogout(items: map<string, Valor>, u: Usuario)
    ensures TrasLogout(TrasLogin(items, u)) == TrasLogout(items)
    ensures UsuarioGuardado(TrasLogout(TrasLogin(items, u))) == None
  {
  }

  /** Of two logins, the second one's user is the one stored. */
  lemma DosLogins(items: map<string, Valor>, u1: Usuario, u2: Usuario)
    ensures TrasLogin(TrasLogin(items, u1), u2) == TrasLogin(items, u2)
  {
  }

  class AuthContextState {
    const almacen: Almacen
    var usuario: Option<Usuario>

    /** The state agrees with what a reload would read back from storage. */
    ghost predicate Reflejado()
      reads this, almacen
    {
      usuario == UsuarioGuardado(almacen.items)
    }

    /** `useState<Usuario | null>(null)`. */
    constructor (almacen: Almacen)
      ensures this.almacen == almacen && usuario == None
    {
      this.almacen := almacen;
      usuario := None;
    }

    /** The mount effect: a stored user becomes the current one; with none stored, usuario is left as it was. */
    method CargarInicial()
      modifies this`usuario
      ensures usuario == if UsuarioGuardado(almacen.items).Some? then UsuarioGuardado(almacen.items) else old(usuario)
      ensures old(usuario) == None ==> Reflejado()
    {
      var guardado := UsuarioGuardado(almacen.items);
      if guardado.Some? {
        usuario := guardado;
      }
    }

    /** `login(user)`: store the user under "usuario" and make it current. */
    method Login(u: Usuario)
      modifies this`usuario, almacen
      ensures almacen.items == TrasLogin(old(almacen.items), u)
      ensures usuario == Some(u) && Reflejado()
    {
      almacen.SetItem(ClaveUsuario, VUsuario(u));
      usuario := Some(u);
    }

    /** `logout()`: remove the "usuario" key and clear the current user. */
    method Logout()
      modifies this`usuario, almacen
      ensures almacen.items == TrasLogout(old(almacen.items))
      ensures usuario == None && Reflejado()
    {
      almacen.RemoveItem(ClaveUsuario);
      usuario := None;
    }
  }
}

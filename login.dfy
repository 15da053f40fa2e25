// The login/registration page of src/pages/Login.tsx. Both modes start from
// the full user list fetched from the server (None when the request fails).
// Registration refuses a name or e-mail already in use and otherwise posts a
// "cliente" user; login looks for the first user whose e-mail and password
// both match. Navigation after success is not modelled.
module Login {
  import opened Comun
  import opened Tipos
  import opened Almacenamiento
  import opened AuthContext

  const MsgDuplicado: string := "El nombre de usuario o correo ya está en uso."
  const MsgCredenciales: string := "Usuario o contraseña incorrectos."
  const MsgServidor: string := "Ocurrió un problema al conectar con el servidor."

  /** The form fields. */
  datatype FormLogin = FormLogin(nombre: string, correo: string, password: string)

  /** `usuarios.find((u) => u.nombre === form.nombre || u.correo === form.correo)`. */
  function Duplicado(us: seq<Usuario>, nombre: string, correo: string): (r: Option<Usuario>)
    ensures r.Some? <==> exists i :: 0 <= i < |us| && (us[i].nombre == nombre || us[i].correo == correo)
    ensures r.Some? ==> r.value in us && (r.value.nombre == nombre || r.value.correo == correo)
  {
    Primero(us, (u: Usuario) => u.nombre == nombre || u.correo == correo)
  }

  /** `usuarios.find((u) => u.correo === form.correo && u.contrasena === form.password)`. */
  function Credenciales(us: seq<Usuario>, correo: string, password: string): (r: Option<Usuario>)
    ensures r.Some? <==> exists i :: 0 <= i < |us| && us[i].correo == correo && us[i].contrasena == password
    ensures r.Some? ==> exists i :: 0 <= i < |us| && us[i] == r.value
                          && r.value.correo == correo && r.value.contrasena == password
                          && forall j :: 0 <= j < i ==> !(us[j].correo == correo && us[j].contrasena == password)
  {
    Primero(us, (u: Usuario) => u.correo == correo && u.contrasena == password)
  }

  /** The user a registration creates; `ahora` is `Date.now()`. */
  function NuevoUsuario(ahora: int, f: FormLogin): (u: Usuario)
    ensures u.id == ahora && u.rol == "cliente"
    ensures Credenciales([u], f.correo, f.password) == Some(u)
  {
    Usuario(ahora, f.nombre, f.correo, f.password, "cliente")
  }

  /** A registration that passes the duplicate check creates a "cliente" whose name and e-mail no existing user has. */
  lemma RegistroNoDuplica(us: seq<Usuario>, ahora: int, f: FormLogin)
    requires Duplicado(us, f.nombre, f.correo) == None
    ensures var n := NuevoUsuario(ahora, f);
      n.rol == "cliente" && n.contrasena == f.password
      && forall u :: u in us ==> u.nombre != n.nombre && u.correo != n.correo
  {
  }

  /** Once a registered user is in the list, logging in with the same e-mail and password finds exactly that user. */
  lemma RegistroLuegoLogin(us: seq<Usuario>, ahora: int, f: FormLogin)
    requires Duplicado(us, f.nombre, f.correo) == None
    ensures Credenciales(us + [NuevoUsuario(ahora, f)], f.correo, f.password) == Some(NuevoUsuario(ahora, f))
  {
    var n := NuevoUsuario(ahora, f);
    var todos := us + [n];
    assert todos[|us|] == n;
    var r := Credenciales(todos, f.correo, f.password);
    var i :| 0 <= i < |todos| && todos[i] == r.value && r.value.correo == f.correo && r.value.contrasena == f.password
             && forall j :: 0 <= j < i ==> !(todos[j].correo == f.correo && todos[j].contrasena == f.password);
    assert forall j :: 0 <= j < |us| ==> todos[j] == us[j] && us[j] in us;
  }

  /** Login never looks at the name: with no user holding that e-mail, no password logs in. */
  lemma LoginIgnoraNombre(us: seq<Usuario>, f: FormLogin)
    requires forall u :: u in us ==> u.correo != f.correo
    ensures Credenciales(us, f.correo, f.password) == None
  {
  }

  class LoginState {
    const auth: AuthContextState
    var form: FormLogin
    var esNuevo: bool
    var error: string

    /** An empty form in login mode, no error. */
    constructor (auth: AuthContextState)
      ensures this.auth == auth && form == FormLogin("", "", "") && !esNuevo && error == ""
    {
      this.auth := auth;
      form := FormLogin("", "", "");
      esNuevo := false;
      error := "";
    }

    /**
     * `handleSubmit`. `usuariosRes` is the user list (None when the request
     * fails), `ahora` the new user's id and `postOk` whether the registration
     * POST succeeds. Returns the user logged in, if any; every failure sets its
     * message and logs nobody in.
     */
    method HandleSubmit(usuariosRes: Option<seq<Usuario>>, ahora: int, postOk: bool) returns (sesion: Option<Usuario>)
      modifies this`error, auth, auth.almacen
      ensures sesion.None? ==>
        auth.usuario == old(auth.usuario) && auth.almacen.items == old(auth.almacen.items)
      ensures sesion.Some? ==>
        auth.usuario == sesion && auth.almacen.items == TrasLogin(old(auth.almacen.items), sesion.value)
        && error == old(error)
      ensures usuariosRes.None? ==> sesion == None && error == MsgServidor
      ensures usuariosRes.Some? && esNuevo ==>
        var dup := Duplicado(usuariosRes.value, form.nombre, form.correo);
        (dup.Some? ==> sesion == None && error == MsgDuplicado)
        && (dup.None? && postOk ==> sesion == Some(NuevoUsuario(ahora, form)))
        && (dup.None? && !postOk ==> sesion == None && error == MsgServidor)
      ensures usuariosRes.Some? && !esNuevo ==>
        var c := Credenciales(usuariosRes.value, form.correo, form.password);
        sesion == c && (c.None? ==> error == MsgCredenciales)
    {
      sesion := None;
      if usuariosRes.None? {
        error := MsgServidor;
        return;
      }
      var usuarios := usuariosRes.value;
      if esNuevo {
        var existe := Duplicado(usuarios, form.nombre, form.correo);
        if existe.Some? {
          error := MsgDuplicado;
          return;
        }
        var nuevoUsuario := NuevoUsuario(ahora, form);
        if !postOk {
          error := MsgServidor;
          return;
        }
        auth.Login(nuevoUsuario);
        sesion := Some(nuevoUsuario);
      } else {
        var encontrado := Credenciales(usuarios, form.correo, form.password);
        if encontrado.Some? {
          auth.Login(encontrado.value);
          sesion := encontrado;
        } else {
          error := MsgCredenciales;
        }
      }
    }

    /** The mode switch: flips between registration and login and clears the error. */
    method ToggleModo()
      modifies this`esNuevo, this`error
      ensures esNuevo == !old(esNuevo) && error == ""
    {
      esNuevo := !esNuevo;
      error := "";
    }
  }
}

// The guest-reviews page of src/pages/Opiniones.tsx. The mock database is
// cached in local storage under "db"; a review is appended to the page's list
// and written back into the cached database. Each review shows the name of
// the first user with a matching id, or "Anónimo".
module Opiniones {
  import opened Comun
  import opened Tipos
  import opened Almacenamiento
  import opened AuthContext

  const Anonimo: string := "Anónimo"

  /** `parsed.opiniones || []`: a missing list reads as empty. */
  function OpinionesDe(db: Db): (ops: seq<Opinion>)
    ensures db.opiniones.None? ==> ops == []
    ensures db.opiniones.Some? ==> ops == db.opiniones.value
  {
    if db.opiniones.Some? then db.opiniones.value else []
  }

  /** `usuarios.find((u) => u.id === id)`. */
  function BuscarUsuario(us: seq<Usuario>, id: int): (r: Option<Usuario>)
    ensures r.Some? <==> exists i :: 0 <= i < |us| && us[i].id == id
    ensures r.Some? ==> exists i :: 0 <= i < |us| && us[i] == r.value && r.value.id == id
                          && forall j :: 0 <= j < i ==> us[j].id != id
  {
    Primero(us, (u: Usuario) => u.id == id)
  }

  /** `db?.usuarios.find((u) => u.id === op.usuarioId)?.nombre || "Anónimo"`. */
  function Autor(db: Option<Db>, usuarioId: int): (a: string)
    ensures a != ""
    ensures db.None? ==> a == Anonimo
  {
    if db.None? then Anonimo
    else
      var u := BuscarUsuario(db.value.usuarios, usuarioId);
      if u.Some? && u.value.nombre != "" then u.value.nombre else Anonimo
  }

  /** The author shown is the name of the first user with that id when it is non-empty; otherwise "Anónimo". */
  lemma AutorEsPrimerUsuario(db: Db, usuarioId: int)
    ensures Autor(Some(db), usuarioId) != Anonimo ==>
      exists i :: 0 <= i < |db.usuarios| && db.usuarios[i].id == usuarioId
        && Autor(Some(db), usuarioId) == db.usuarios[i].nombre && db.usuarios[i].nombre != ""
        && forall j :: 0 <= j < i ==> db.usuarios[j].id != usuarioId
    ensures (forall i :: 0 <= i < |db.usuarios| ==> db.usuarios[i].id != usuarioId) ==> Autor(Some(db), usuarioId) == Anonimo
  {
  }

  /** Without a loaded database every author is "Anónimo". */
  lemma AutorSinDb(usuarioId: int)
    ensures Autor(None, usuarioId) == Anonimo
  {
  }

  /** `{ ...db, opiniones: nuevas }`. */
  function ConOpiniones(db: Db, nuevas: seq<Opinion>): (r: Db)
    ensures OpinionesDe(r) == nuevas
    ensures r.usuarios == db.usuarios && r.habitaciones == db.habitaciones && r.servicios == db.servicios
  {
    db.(opiniones := Some(nuevas))
  }

  class OpinionesState {
    const auth: AuthContextState
    var db: Option<Db>
    var opiniones: seq<Opinion>
    var comentario: string
    var calificacion: int

    /** No database, no reviews, empty comment, rating 5. */
    constructor (auth: AuthContextState)
      ensures this.auth == auth && db == None && opiniones == [] && comentario == "" && calificacion == 5
    {
      this.auth := auth;
      db := None;
      opiniones := [];
      comentario := "";
      calificacion := 5;
    }

    /**
     * The mount effect: use the cached database when there is one; otherwise
     * cache and use the one `/db.json` returned (`descargada`; None when the
     * fetch fails, which leaves everything as it was).
     */
    method Montar(descargada: Option<Db>)
      modifies this`db, this`opiniones, auth.almacen
      ensures DbGuardada(old(auth.almacen.items)).Some? ==>
        db == DbGuardada(old(auth.almacen.items)) && opiniones == OpinionesDe(db.value)
        && auth.almacen.items == old(auth.almacen.items)
      ensures DbGuardada(old(auth.almacen.items)).None? && descargada.Some? ==>
        db == descargada && opiniones == OpinionesDe(descargada.value)
        && auth.almacen.items == old(auth.almacen.items)[ClaveDb := VDb(descargada.value)]
      ensures DbGuardada(old(auth.almacen.items)).None? && descargada.None? ==>
        db == old(db) && opiniones == old(opiniones) && auth.almacen.items == old(auth.almacen.items)
    {
      var guardada := DbGuardada(auth.almacen.items);
      if guardada.Some? {
        db := guardada;
        opiniones := OpinionesDe(guardada.value);
      } else if descargada.Some? {
        auth.almacen.SetItem(ClaveDb, VDb(descargada.value));
        db := descargada;
        opiniones := OpinionesDe(descargada.value);
      }
    }

    /**
     * `handleSubmit`; `nuevoId` is `Date.now()`. Without a user or a database
     * nothing changes. Otherwise exactly one review is appended, the cached
     * database becomes the page's database with only its reviews replaced, and
     * the form resets to an empty comment and rating 5. The `db` state itself
     * is not updated.
     */
    method HandleSubmit(nuevoId: int)
      modifies this`opiniones, this`comentario, this`calificacion, auth.almacen
      ensures auth.usuario.None? || db.None? ==>
        opiniones == old(opiniones) && comentario == old(comentario) && calificacion == old(calificacion)
        && auth.almacen.items == old(auth.almacen.items)
      ensures auth.usuario.Some? && db.Some? ==>
        opiniones == old(opiniones) + [Opinion(nuevoId, auth.usuario.value.id, old(comentario), old(calificacion))]
        && auth.almacen.items == old(auth.almacen.items)[ClaveDb := VDb(ConOpiniones(db.value, opiniones))]
        && comentario == "" && calificacion == 5
    {
      if auth.usuario.None? || db.None? {
        return;
      }
      var nuevaOpinion := Opinion(nuevoId, auth.usuario.value.id, comentario, calificacion);
      var nuevasOpiniones := opiniones + [nuevaOpinion];
      var nuevoDb := ConOpiniones(db.value, nuevasOpiniones);
      auth.almacen.SetItem(ClaveDb, VDb(nuevoDb));
      opiniones := nuevasOpiniones;
      comentario := "";
      calificacion := 5;
    }
  }

  /**
   * A submit survives a reload: mounting over the storage a submit wrote reads
   * back exactly the list the page showed after it.
   */
  lemma EnviarLuegoMontar(items: map<string, Valor>, db: Db, nuevas: seq<Opinion>)
    ensures var guardada := DbGuardada(items[ClaveDb := VDb(ConOpiniones(db, nuevas))]);
      guardada.Some? && OpinionesDe(guardada.value) == nuevas
  {
  }
}

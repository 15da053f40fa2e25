// The floating-window registry of src/components/VentanaContext.tsx: an
// ordered list of windows shared by the whole application, changed only by
// abrirVentana (upsert by id), cerrarVentana and cerrarTodasLasVentanas.
module VentanaContext {
  import opened Comun

  datatype TipoVentana = Completa | Simple

  /**
   * What a window renders. The source stores a React element; the registry
   * never looks inside it, and the model names the component and its props.
   */
  datatype Contenido =
    | ReservasClientFlotante
    | ServiciosClientFlotante
    | ContactoFlotante
    | FormularioReservaFlotante(habitacionPreseleccionada: int)

  /** A window record; `tipo` is optional in the record type (`tipo?`). */
  datatype Ventana = Ventana(id: string, titulo: string, contenido: Contenido, tipo: Option<TipoVentana>)

  /** `prev.find((v) => v.id === id)` finds something. */
  predicate Existe(vs: seq<Ventana>, id: string) {
    exists i :: 0 <= i < |vs| && vs[i].id == id
  }

  /** The id is open, and every window with that id has these fields. */
  predicate Abierta(vs: seq<Ventana>, id: string, titulo: string, contenido: Contenido, tipo: TipoVentana) {
    Existe(vs, id)
    && forall i :: 0 <= i < |vs| && vs[i].id == id ==>
         vs[i].titulo == titulo && vs[i].contenido == contenido && vs[i].tipo == Some(tipo)
  }

  /** At most one window per id. */
  predicate IdsUnicos(vs: seq<Ventana>) {
    forall i, j :: 0 <= i < j < |vs| ==> vs[i].id != vs[j].id
  }

  /** `ventanas.map((v) => v.id)`. */
  function Ids(vs: seq<Ventana>): (ids: seq<string>)
    ensures |ids| == |vs| && forall i :: 0 <= i < |vs| ==> ids[i] == vs[i].id
  {
    seq(|vs|, i requires 0 <= i < |vs| => vs[i].id)
  }

  /** The window `{ ...v, contenido, titulo, tipo }`: same id, new title, content and type. */
  function Actualizada(v: Ventana, titulo: string, contenido: Contenido, tipo: TipoVentana): Ventana {
    v.(titulo := titulo, contenido := contenido, tipo := Some(tipo))
  }

  /** `prev.map((v) => v.id === id ? { ...v, contenido, titulo, tipo } : v)`. */
  function Reemplazar(vs: seq<Ventana>, id: string, titulo: string, contenido: Contenido, tipo: TipoVentana): (r: seq<Ventana>)
    ensures |r| == |vs|
    ensures forall i :: 0 <= i < |vs| ==>
      r[i] == if vs[i].id == id then Actualizada(vs[i], titulo, contenido, tipo) else vs[i]
  {
    if vs == [] then []
    else [if vs[0].id == id then Actualizada(vs[0], titulo, contenido, tipo) else vs[0]]
         + Reemplazar(vs[1..], id, titulo, contenido, tipo)
  }

  /**
   * The list abrirVentana leaves: replace in place when the id is present,
   * append a new window otherwise. Afterwards the id is present with exactly
   * the given fields, and every window with another id is where it was.
   */
  function Abrir(vs: seq<Ventana>, id: string, titulo: string, contenido: Contenido, tipo: TipoVentana): (r: seq<Ventana>)
    ensures Abierta(r, id, titulo, contenido, tipo)
    ensures |r| == if Existe(vs, id) then |vs| else |vs| + 1
    ensures forall i :: 0 <= i < |vs| && vs[i].id != id ==> r[i] == vs[i]
  {
    if Existe(vs, id) then Reemplazar(vs, id, titulo, contenido, tipo)
    else
      var r := vs + [Ventana(id, titulo, contenido, Some(tipo))];
      assert r[|vs|].id == id;
      r
  }

  /** `prev.filter((v) => v.id !== id)`. */
  function Cerrar(vs: seq<Ventana>, id: string): (r: seq<Ventana>)
    ensures |r| <= |vs|
    ensures forall v :: v in r <==> v in vs && v.id != id
    ensures !Existe(r, id)
    ensures !Existe(vs, id) ==> r == vs
  {
    if vs == [] then []
    else (if vs[0].id == id then [] else [vs[0]]) + Cerrar(vs[1..], id)
  }

  /** Opening an id that is absent appends exactly one window at the end; the earlier windows are untouched. */
  lemma AbrirNuevo(vs: seq<Ventana>, id: string, titulo: string, contenido: Contenido, tipo: TipoVentana)
    requires !Existe(vs, id)
    ensures Abrir(vs, id, titulo, contenido, tipo) == vs + [Ventana(id, titulo, contenido, Some(tipo))]
  {
  }

  /** Opening an id that is present rewrites that entry's titulo, contenido and tipo in place. */
  lemma AbrirExistente(vs: seq<Ventana>, k: nat, titulo: string, contenido: Contenido, tipo: TipoVentana)
    requires k < |vs|
    ensures var r := Abrir(vs, vs[k].id, titulo, contenido, tipo);
      |r| == |vs| && r[k] == Ventana(vs[k].id, titulo, contenido, Some(tipo))
      && forall i :: 0 <= i < |vs| && vs[i].id != vs[k].id ==> r[i] == vs[i]
  {
  }

  /** Opening keeps ids unique. */
  lemma AbrirPreservaUnicos(vs: seq<Ventana>, id: string, titulo: string, contenido: Contenido, tipo: TipoVentana)
    requires IdsUnicos(vs)
    ensures IdsUnicos(Abrir(vs, id, titulo, contenido, tipo))
  {
    var r := Abrir(vs, id, titulo, contenido, tipo);
    if Existe(vs, id) {
      forall i, j | 0 <= i < j < |r| ensures r[i].id != r[j].id {
        assert r[i].id == vs[i].id && r[j].id == vs[j].id;
      }
    }
  }

  /** Two opens of one id: the second call's arguments win, and nothing else differs from a single open. */
  lemma AbrirRepetido(vs: seq<Ventana>, id: string,
                      titulo1: string, contenido1: Contenido, tipo1: TipoVentana,
                      titulo2: string, contenido2: Contenido, tipo2: TipoVentana)
    ensures Abrir(Abrir(vs, id, titulo1, contenido1, tipo1), id, titulo2, contenido2, tipo2)
         == Abrir(vs, id, titulo2, contenido2, tipo2)
  {
    var r1 := Abrir(vs, id, titulo1, contenido1, tipo1);
    var r2 := Abrir(r1, id, titulo2, contenido2, tipo2);
    var r := Abrir(vs, id, titulo2, contenido2, tipo2);
    if Existe(vs, id) {
      assert |r2| == |r|;
      forall i | 0 <= i < |r| ensures r2[i] == r[i] {
        assert r1[i].id == vs[i].id;
      }
    } else {
      assert r1 == vs + [Ventana(id, titulo1, contenido1, Some(tipo1))];
      assert |r2| == |r|;
      forall i | 0 <= i < |r| ensures r2[i] == r[i] {
        if i < |vs| { assert r1[i] == vs[i]; }
      }
    }
  }

  /** Opening an id that already holds exactly these fields leaves the list as it is. */
  lemma AbrirIdempotente(vs: seq<Ventana>, id: string, titulo: string, contenido: Contenido, tipo: TipoVentana)
    requires Abierta(vs, id, titulo, contenido, tipo)
    ensures Abrir(vs, id, titulo, contenido, tipo) == vs
  {
    var r := Abrir(vs, id, titulo, contenido, tipo);
    forall i | 0 <= i < |vs| ensures r[i] == vs[i] {
      if vs[i].id == id {
        assert r[i] == Actualizada(vs[i], titulo, contenido, tipo);
      }
    }
  }

  /** Opening one id leaves what another open id holds as it was. */
  lemma AbrirConservaAbierta(vs: seq<Ventana>, id: string, titulo: string, contenido: Contenido, tipo: TipoVentana,
                             id2: string, titulo2: string, contenido2: Contenido, tipo2: TipoVentana)
    requires id != id2 && Abierta(vs, id2, titulo2, contenido2, tipo2)
    ensures Abierta(Abrir(vs, id, titulo, contenido, tipo), id2, titulo2, contenido2, tipo2)
  {
    var r := Abrir(vs, id, titulo, contenido, tipo);
    var k :| 0 <= k < |vs| && vs[k].id == id2;
    assert r[k] == vs[k];
  }

  /** cerrarVentana filters independently on each part of a list, so the survivors keep their order. */
  lemma {:induction false} CerrarConcat(a: seq<Ventana>, b: seq<Ventana>, id: string)
    ensures Cerrar(a + b, id) == Cerrar(a, id) + Cerrar(b, id)
    decreases |a|
  {
    if a == [] {
      assert a + b == b;
    } else {
      assert (a + b)[1..] == a[1..] + b;
      CerrarConcat(a[1..], b, id);
    }
  }

  /** Opening a fresh id and closing it again gives back the list as it was. */
  lemma AbrirCerrarRestaura(vs: seq<Ventana>, id: string, titulo: string, contenido: Contenido, tipo: TipoVentana)
    requires !Existe(vs, id)
    ensures Cerrar(Abrir(vs, id, titulo, contenido, tipo), id) == vs
  {
    var w := Ventana(id, titulo, contenido, Some(tipo));
    CerrarConcat(vs, [w], id);
    assert Cerrar([w], id) == [];
  }

  /** Closing keeps ids unique. */
  lemma {:induction false} CerrarPreservaUnicos(vs: seq<Ventana>, id: string)
    requires IdsUnicos(vs)
    ensures IdsUnicos(Cerrar(vs, id))
    decreases |vs|
  {
    if vs != [] {
      CerrarPreservaUnicos(vs[1..], id);
      var rest := Cerrar(vs[1..], id);
      forall w | w in rest ensures w.id != vs[0].id {
        var k :| 0 <= k < |vs[1..]| && vs[1..][k] == w;
        assert vs[k + 1] == w;
      }
    }
  }

  class VentanaRegistro {
    var ventanas: seq<Ventana>

    /** Every window has a unique id and a type (abrirVentana always supplies one). */
    ghost predicate Valid()
      reads this
    {
      IdsUnicos(ventanas) && forall i :: 0 <= i < |ventanas| ==> ventanas[i].tipo.Some?
    }

    /** `useState<Ventana[]>([])`. */
    constructor ()
      ensures Valid() && ventanas == []
    {
      ventanas := [];
    }

    /** `abrirVentana(id, titulo, contenido, tipo = "completa")`. */
    method AbrirVentana(id: string, titulo: string, contenido: Contenido, tipo: TipoVentana := Completa)
      requires Valid()
      modifies this
      ensures Valid()
      ensures ventanas == Abrir(old(ventanas), id, titulo, contenido, tipo)
    {
      AbrirPreservaUnicos(ventanas, id, titulo, contenido, tipo);
      if Existe(ventanas, id) {
        ventanas := Reemplazar(ventanas, id, titulo, contenido, tipo);
      } else {
        ventanas := ventanas + [Ventana(id, titulo, contenido, Some(tipo))];
      }
    }

    /** `cerrarVentana(id)`. */
    method CerrarVentana(id: string)
      requires Valid()
      modifies this
      ensures Valid()
      ensures ventanas == Cerrar(old(ventanas), id)
    {
      CerrarPreservaUnicos(ventanas, id);
      ventanas := Cerrar(ventanas, id);
    }

    /** `cerrarTodasLasVentanas()`: always the empty list. */
    method CerrarTodasLasVentanas()
      requires Valid()
      modifies this
      ensures Valid()
      ensures ventanas == []
    {
      ventanas := [];
    }
  }
}

// The overlay of src/components/VentanasFlotantes.tsx: the windows that are
// not "simple", each drawn as a bubble and, unless its id is in the
// `minimizadas` list, also as an expanded panel. Toggling only edits
// `minimizadas`; the registry is read, never written.
module VentanasFlotantes {
  import opened Comun
  import opened VentanaContext

  /** `v.tipo !== "simple"`: a missing tipo counts as not simple. */
  predicate NoSimple(v: Ventana) {
    v.tipo != Some(Simple)
  }

  /** `ventanas.filter((v) => v.tipo !== "simple")`. */
  function VistaFlotante(vs: seq<Ventana>): (r: seq<Ventana>)
    ensures |r| <= |vs|
    ensures forall v :: v in r <==> v in vs && NoSimple(v)
  {
    if vs == [] then []
    else (if NoSimple(vs[0]) then [vs[0]] else []) + VistaFlotante(vs[1..])
  }

  /** The overlay's filter works on each part of the registry separately, so it keeps registry order. */
  lemma {:induction false} VistaFlotanteConcat(a: seq<Ventana>, b: seq<Ventana>)
    ensures VistaFlotante(a + b) == VistaFlotante(a) + VistaFlotante(b)
    decreases |a|
  {
    if a == [] {
      assert a + b == b;
    } else {
      assert (a + b)[1..] == a[1..] + b;
      VistaFlotanteConcat(a[1..], b);
    }
  }

  /** `minimizadas.filter((m) => m !== id)`. */
  function QuitarId(ms: seq<string>, id: string): (r: seq<string>)
    ensures |r| <= |ms|
    ensures forall x :: x in r <==> x in ms && x != id
    ensures id !in ms ==> r == ms
  {
    if ms == [] then []
    else (if ms[0] == id then [] else [ms[0]]) + QuitarId(ms[1..], id)
  }

  /** `toggleMinimizar(id)`: remove the id if listed, append it otherwise. */
  function Toggle(ms: seq<string>, id: string): (r: seq<string>)
    ensures id in r <==> id !in ms
    ensures forall x :: x != id ==> (x in r <==> x in ms)
  {
    if id in ms then QuitarId(ms, id) else ms + [id]
  }

  /** No id listed twice. */
  predicate SinDuplicados(ms: seq<string>) {
    forall i, j :: 0 <= i < j < |ms| ==> ms[i] != ms[j]
  }

  /** Removing an id keeps a duplicate-free list duplicate-free. */
  lemma {:induction false} QuitarIdSinDuplicados(ms: seq<string>, id: string)
    requires SinDuplicados(ms)
    ensures SinDuplicados(QuitarId(ms, id))
    decreases |ms|
  {
    if ms != [] {
      QuitarIdSinDuplicados(ms[1..], id);
      var rest := QuitarId(ms[1..], id);
      assert ms[0] !in ms[1..];
      assert ms[0] !in rest;
    }
  }

  /** Toggling keeps `minimizadas` duplicate-free. */
  lemma ToggleSinDuplicados(ms: seq<string>, id: string)
    requires SinDuplicados(ms)
    ensures SinDuplicados(Toggle(ms, id))
  {
    if id in ms {
      QuitarIdSinDuplicados(ms, id);
    }
  }

  /** Toggling the same id twice restores every id's membership. */
  lemma ToggleDosVeces(ms: seq<string>, id: string, x: string)
    ensures x in Toggle(Toggle(ms, id), id) <==> x in ms
  {
  }

  /** On an id that was not minimised, a second toggle gives back exactly the list it started from. */
  lemma {:induction false} ToggleDosVecesAusente(ms: seq<string>, id: string)
    requires id !in ms
    ensures Toggle(Toggle(ms, id), id) == ms
    decreases |ms|
  {
    assert Toggle(ms, id) == ms + [id];
    QuitarIdConcatFinal(ms, id);
  }

  /** Filtering an appended id out of a list that did not hold it gives the list back. */
  lemma {:induction false} QuitarIdConcatFinal(ms: seq<string>, id: string)
    requires id !in ms
    ensures QuitarId(ms + [id], id) == ms
    decreases |ms|
  {
    if ms == [] {
      assert QuitarId([id], id) == [];
    } else {
      assert (ms + [id])[1..] == ms[1..] + [id];
      QuitarIdConcatFinal(ms[1..], id);
    }
  }

  /** One entry of the overlay: the bubble is always drawn, the panel only when not minimised. */
  datatype Tarjeta = Tarjeta(id: string, titulo: string, panelExpandido: bool)

  /** The overlay's rendering: one entry per non-simple window, in registry order. */
  function Render(vs: seq<Ventana>, ms: seq<string>): (r: seq<Tarjeta>)
    ensures |r| == |VistaFlotante(vs)|
    ensures forall i :: 0 <= i < |r| ==>
      r[i].id == VistaFlotante(vs)[i].id && r[i].titulo == VistaFlotante(vs)[i].titulo
      && (r[i].panelExpandido <==> VistaFlotante(vs)[i].id !in ms)
  {
    var f := VistaFlotante(vs);
    seq(|f|, i requires 0 <= i < |f| => Tarjeta(f[i].id, f[i].titulo, f[i].id !in ms))
  }

  class PanelFlotante {
    const registro: VentanaRegistro
    var minimizadas: seq<string>

    /** `useState<string[]>([])`. */
    constructor (registro: VentanaRegistro)
      ensures this.registro == registro && minimizadas == []
    {
      this.registro := registro;
      minimizadas := [];
    }

    /** The mount effect: every window currently open starts minimised, in registry order. */
    method Montar()
      modifies this`minimizadas
      ensures minimizadas == Ids(registro.ventanas)
    {
      minimizadas := Ids(registro.ventanas);
    }

    /** `toggleMinimizar(id)`: only `minimizadas` changes; the registry is untouched and nothing is closed. */
    method ToggleMinimizar(id: string)
      modifies this`minimizadas
      ensures minimizadas == Toggle(old(minimizadas), id)
      ensures unchanged(registro)
    {
      if id in minimizadas {
        minimizadas := QuitarId(minimizadas, id);
      } else {
        minimizadas := minimizadas + [id];
      }
    }
  }

  /** Mounting over a registry with unique ids gives a duplicate-free `minimizadas`. */
  lemma MontarSinDuplicados(vs: seq<Ventana>)
    requires IdsUnicos(vs)
    ensures SinDuplicados(Ids(vs))
  {
  }
}

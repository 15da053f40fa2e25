// The view of src/components/VentanasSimples.tsx: the windows whose tipo is
// "simple", always expanded, each with a close button wired to cerrarVentana.
module VentanasSimples {
  import opened Comun
  import opened VentanaContext
  import opened VentanasFlotantes

  /** `v.tipo === "simple"`. */
  predicate EsSimple(v: Ventana) {
    v.tipo == Some(Simple)
  }

  /** `ventanas.filter((v) => v.tipo === "simple")`. */
  function VistaSimple(vs: seq<Ventana>): (r: seq<Ventana>)
    ensures |r| <= |vs|
    ensures forall v :: v in r <==> v in vs && EsSimple(v)
  {
    if vs == [] then []
    else (if EsSimple(vs[0]) then [vs[0]] else []) + VistaSimple(vs[1..])
  }

  /** The simple view keeps registry order. */
  lemma {:induction false} VistaSimpleConcat(a: seq<Ventana>, b: seq<Ventana>)
    ensures VistaSimple(a + b) == VistaSimple(a) + VistaSimple(b)
    decreases |a|
  {
    if a == [] {
      assert a + b == b;
    } else {
      assert (a + b)[1..] == a[1..] + b;
      VistaSimpleConcat(a[1..], b);
    }
  }

  /** A window whose tipo is missing or "completa" never shows here. */
  lemma NoSimpleNoSeMuestra(vs: seq<Ventana>, v: Ventana)
    requires v.tipo == None || v.tipo == Some(Completa)
    ensures v !in VistaSimple(vs)
  {
  }

  /**
   * The two views split the registry: together they show every window exactly
   * as often as the registry holds it, and no window is in both.
   */
  lemma VistasParticionan(vs: seq<Ventana>)
    ensures multiset(VistaSimple(vs)) + multiset(VistaFlotante(vs)) == multiset(vs)
    ensures |VistaSimple(vs)| + |VistaFlotante(vs)| == |vs|
    ensures forall v :: v in vs ==> (v in VistaSimple(vs) <==> v !in VistaFlotante(vs))
  {
    VistasParticionanMultiset(vs);
    assert |multiset(VistaSimple(vs)) + multiset(VistaFlotante(vs))| == |multiset(vs)|;
  }

  /** Each window of the registry goes to exactly one of the two filters. */
  lemma {:induction false} VistasParticionanMultiset(vs: seq<Ventana>)
    ensures multiset(VistaSimple(vs)) + multiset(VistaFlotante(vs)) == multiset(vs)
    decreases |vs|
  {
    if vs != [] {
      VistasParticionanMultiset(vs[1..]);
      assert vs == [vs[0]] + vs[1..];
      assert multiset(vs) == multiset([vs[0]]) + multiset(vs[1..]);
    }
  }

  /** One simple window as drawn: always expanded, with a close button. */
  datatype TarjetaSimple = TarjetaSimple(id: string, titulo: string, expandida: bool)

  /** The simple view's rendering, in registry order; there is no minimised state. */
  function Render(vs: seq<Ventana>): (r: seq<TarjetaSimple>)
    ensures |r| == |VistaSimple(vs)|
    ensures forall i :: 0 <= i < |r| ==>
      r[i].id == VistaSimple(vs)[i].id && r[i].titulo == VistaSimple(vs)[i].titulo && r[i].expandida
  {
    var s := VistaSimple(vs);
    seq(|s|, i requires 0 <= i < |s| => TarjetaSimple(s[i].id, s[i].titulo, true))
  }

  /** The close button of the window at position `k` of the simple view: removes exactly that window. */
  method CerrarDesdeVista(registro: VentanaRegistro, k: nat)
    requires registro.Valid() && k < |VistaSimple(registro.ventanas)|
    modifies registro
    ensures registro.Valid()
    ensures registro.ventanas == Cerrar(old(registro.ventanas), VistaSimple(old(registro.ventanas))[k].id)
    ensures var v := VistaSimple(old(registro.ventanas))[k];
      v !in registro.ventanas
      && forall w :: w in old(registro.ventanas) && w != v ==> w in registro.ventanas
  {
    var v := VistaSimple(registro.ventanas)[k];
    ghost var antes := registro.ventanas;
    assert v in antes;
    registro.CerrarVentana(v.id);
    forall w | w in antes && w != v ensures w in registro.ventanas {
      var i :| 0 <= i < |antes| && antes[i] == w;
      var j :| 0 <= j < |antes| && antes[j] == v;
      assert i == j || antes[i].id != antes[j].id;
    }
  }
}

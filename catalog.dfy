/** The catalog page's client-side filtering (public/js/main.js): the price
    and type filters applied to the full product list fetched once from
    GET /productos, and the list of types offered in the type selector. The
    inputs' texts arrive already parsed (`None` where `parseFloat` gives NaN);
    the type selector's value is a string, "" for "all types". */
module Catalog {
  import opened Wrappers
  import opened Seqs
  import opened Server

  /** `parseFloat(hasta) || Infinity` can be unbounded. */
  datatype UpperBound = Finite(max: real) | Infinity

  /** `parseFloat(desde) || 0`: NaN and 0 are falsy, so both give 0. */
  function LowerBoundOf(desde: Option<real>): (lo: real)
    ensures lo == if desde.Some? then desde.value else 0.0
  {
    if desde.Some? && desde.value != 0.0 then desde.value else 0.0
  }

  /** `parseFloat(hasta) || Infinity`: NaN and 0 are falsy, so both give
      Infinity. */
  function UpperBoundOf(hasta: Option<real>): (hi: UpperBound)
    ensures hi == Infinity <==> hasta.None? || hasta.value == 0.0
    ensures hi.Finite? ==> hi.max == hasta.value
  {
    if hasta.Some? && hasta.value != 0.0 then Finite(hasta.value) else Infinity
  }

  predicate AtMost(precio: real, hi: UpperBound)
  {
    hi.Infinity? || precio <= hi.max
  }

  /** The price filter's callback: `precio >= desde && precio <= hasta`. */
  function InPriceRange(lo: real, hi: UpperBound): Product -> bool
  {
    (p: Product) => lo <= p.precio && AtMost(p.precio, hi)
  }

  /** The type filter's callback: `p.tipo === tipo`. */
  function OfType(tipo: string): Product -> bool
  {
    (p: Product) => p.tipo == tipo
  }

  /** Both filters as one test: what a product must satisfy to be shown. */
  function Shown(lo: real, hi: UpperBound, tipo: string): Product -> bool
  {
    (p: Product) => lo <= p.precio && AtMost(p.precio, hi) && (tipo == "" || p.tipo == tipo)
  }

  /** `aplicarFiltros`: the price filter, then the type filter when a type
      is selected. */
  function AplicarFiltros(todos: seq<Product>, desde: Option<real>, hasta: Option<real>, tipo: string): (r: seq<Product>)
    ensures |r| <= |todos|
    ensures forall p :: p in r <==>
      && p in todos
      && LowerBoundOf(desde) <= p.precio
      && AtMost(p.precio, UpperBoundOf(hasta))
      && (tipo == "" || p.tipo == tipo)
  {
    var porPrecio := Filter(todos, InPriceRange(LowerBoundOf(desde), UpperBoundOf(hasta)));
    if tipo != "" then Filter(porPrecio, OfType(tipo)) else porPrecio
  }

  /** How the two bound inputs are read: an empty or unparsable lower bound
      is 0; an empty, unparsable or zero upper bound is no bound at all. */
  lemma BoundsRead(desde: Option<real>, hasta: Option<real>)
    ensures desde.None? ==> LowerBoundOf(desde) == 0.0
    ensures desde.Some? ==> LowerBoundOf(desde) == desde.value
    ensures UpperBoundOf(hasta) == Infinity <==> hasta.None? || hasta.value == 0.0
    ensures UpperBoundOf(hasta).Finite? ==> UpperBoundOf(hasta).max == hasta.value
  {
  }

  /** The chain of two filters is a single filter by the conjunction of the
      price and type tests. */
  lemma {:induction false} AplicarFiltrosIsOneFilter(todos: seq<Product>, desde: Option<real>, hasta: Option<real>, tipo: string)
    ensures AplicarFiltros(todos, desde, hasta, tipo)
         == Filter(todos, Shown(LowerBoundOf(desde), UpperBoundOf(hasta), tipo))
  {
    var lo, hi := LowerBoundOf(desde), UpperBoundOf(hasta);
    if tipo != "" {
      FilterFilter(todos, InPriceRange(lo, hi), OfType(tipo), Shown(lo, hi, tipo));
    } else {
      assert forall p :: Shown(lo, hi, tipo)(p) == InPriceRange(lo, hi)(p);
      FilterCongruent(todos, InPriceRange(lo, hi), Shown(lo, hi, tipo));
    }
  }

  /** A product is shown iff its price lies in the inclusive range and,
      when a type is selected, its type is exactly that type; the products
      shown keep their catalog order, with every occurrence of a shown
      product kept. */
  lemma {:induction false} AplicarFiltrosSpec(todos: seq<Product>, desde: Option<real>, hasta: Option<real>, tipo: string)
    ensures var r := AplicarFiltros(todos, desde, hasta, tipo);
      && (forall p :: p in r <==>
            && p in todos
            && LowerBoundOf(desde) <= p.precio
            && AtMost(p.precio, UpperBoundOf(hasta))
            && (tipo == "" || p.tipo == tipo))
      && IsSubsequence(r, todos)
      && (forall p :: p in todos && Shown(LowerBoundOf(desde), UpperBoundOf(hasta), tipo)(p) ==>
            multiset(r)[p] == multiset(todos)[p])
  {
    var shown := Shown(LowerBoundOf(desde), UpperBoundOf(hasta), tipo);
    AplicarFiltrosIsOneFilter(todos, desde, hasta, tipo);
    FilterIsSubsequence(todos, shown);
    forall p | p in todos && shown(p) ensures multiset(Filter(todos, shown))[p] == multiset(todos)[p] {
      FilterCount(todos, shown, p);
    }
  }

  /** Typing 0 as the upper bound shows the same products as leaving it
      empty. */
  lemma ZeroUpperBoundIsNoBound(todos: seq<Product>, desde: Option<real>, tipo: string)
    ensures AplicarFiltros(todos, desde, Some(0.0), tipo) == AplicarFiltros(todos, desde, None, tipo)
  {
  }

  /** `productos.map(p => p.tipo)` */
  function Types(ps: seq<Product>): (ts: seq<string>)
    ensures |ts| == |ps| && forall i :: 0 <= i < |ps| ==> ts[i] == ps[i].tipo
  {
    seq(|ps|, i requires 0 <= i < |ps| => ps[i].tipo)
  }

  function NonEmpty(t: string): bool
  {
    t != ""
  }

  /** `popularFiltroTipos`: the distinct types through a `Set`, then only the
      truthy ones become options. */
  function TiposDelFiltro(ps: seq<Product>): (r: seq<string>)
    ensures forall t :: t in r <==> t != "" && t in Types(ps)
  {
    Filter(Distinct(Types(ps)), NonEmpty)
  }

  /** The selector offers every non-empty type of some product, exactly once
      each, in the order in which the types first occur in the catalog. */
  lemma {:induction false} TiposDelFiltroSpec(ps: seq<Product>)
    ensures var r := TiposDelFiltro(ps);
      && (forall t :: t in r <==> t != "" && exists i :: 0 <= i < |ps| && ps[i].tipo == t)
      && NoDuplicates(r)
      && forall i, j :: 0 <= i < j < |r| ==>
           r[i] in Types(ps) && r[j] in Types(ps)
           && FirstIndex(Types(ps), r[i]) < FirstIndex(Types(ps), r[j])
  {
    var ts := Types(ps);
    var d := Distinct(ts);
    var r := TiposDelFiltro(ps);
    forall t ensures t in ts <==> exists i :: 0 <= i < |ps| && ps[i].tipo == t {
      if t in ts {
        var i :| 0 <= i < |ts| && ts[i] == t;
        assert ps[i].tipo == t;
      }
    }
    FilterKeepsPairwise(d, NonEmpty, (x, y) => x != y);
    FilterKeepsPairwise(d, NonEmpty, (x, y) => x in ts && y in ts && FirstIndex(ts, x) < FirstIndex(ts, y));
  }
}

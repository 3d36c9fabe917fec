/**
 Clamping of particle coordinates into an interval, element by element, the way
 numpy's clip does it: first raise to the lower bound, then cut at the upper one.
 */
module Clip {

  /** Distance between two reals. */
  function Dist(a: real, b: real): real {
    if a <= b then b - a else a - b
  }

  /** True iff every element of xs lies in [lo, hi]. */
  predicate AllWithin(xs: seq<real>, lo: real, hi: real) {
    forall i :: 0 <= i < |xs| ==> lo <= xs[i] <= hi
  }

  /** One coordinate clipped into [lo, hi]. For an empty interval (hi < lo) the
      result is hi, as with numpy. */
  function Clip(v: real, lo: real, hi: real): (r: real)
    ensures lo <= hi ==> lo <= r <= hi
    ensures lo <= v <= hi ==> r == v
    ensures hi < lo ==> r == hi
  {
    var raised := if v < lo then lo else v;
    if hi < raised then hi else raised
  }

  /** The clipped value is the point of [lo, hi] nearest to v. */
  lemma ClipIsNearest(v: real, lo: real, hi: real, w: real)
    requires lo <= w <= hi
    ensures Dist(Clip(v, lo, hi), v) <= Dist(w, v)
  {
  }

  /** Clipping twice is the same as clipping once. */
  lemma ClipIdempotent(v: real, lo: real, hi: real)
    ensures Clip(Clip(v, lo, hi), lo, hi) == Clip(v, lo, hi)
  {
  }

  /** Every coordinate of xs clipped into [lo, hi]. */
  function ClipAll(xs: seq<real>, lo: real, hi: real): (r: seq<real>)
    ensures |r| == |xs|
    ensures lo <= hi ==> AllWithin(r, lo, hi)
    ensures forall i :: 0 <= i < |xs| && lo <= xs[i] <= hi ==> r[i] == xs[i]
    ensures forall i :: 0 <= i < |xs| && xs[i] < lo <= hi ==> r[i] == lo
    ensures forall i :: 0 <= i < |xs| && lo <= hi < xs[i] ==> r[i] == hi
  {
    seq(|xs|, i requires 0 <= i < |xs| => Clip(xs[i], lo, hi))
  }

  /** Coordinates already inside the interval are left where they are. */
  lemma ClipAllKeepsInside(xs: seq<real>, lo: real, hi: real)
    requires AllWithin(xs, lo, hi)
    ensures ClipAll(xs, lo, hi) == xs
  {
  }

  /** Clipping a whole sequence twice is the same as clipping it once. */
  lemma ClipAllIdempotent(xs: seq<real>, lo: real, hi: real)
    ensures ClipAll(ClipAll(xs, lo, hi), lo, hi) == ClipAll(xs, lo, hi)
  {
    var once := ClipAll(xs, lo, hi);
    forall i | 0 <= i < |xs|
      ensures ClipAll(once, lo, hi)[i] == once[i]
    {
      ClipIdempotent(xs[i], lo, hi);
    }
  }
}

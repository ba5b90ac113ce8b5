/**
 * Threshold counting: the reference definition of the dashboard's
 * first-match if-chains. A chain `x <= b0 ? L0 : x <= b1 ? L1 : ... : Ln`
 * over ascending bounds picks label number CountBelow(bounds, x); a chain
 * written with strict `x < t` picks label number CountAtOrBelow(bounds, x).
 */
module Bands {

  /** How many bounds lie strictly below `x`. */
  function CountBelow(bounds: seq<real>, x: real): (n: nat)
    ensures n <= |bounds|
  {
    if bounds == [] then 0
    else (if bounds[0] < x then 1 else 0) + CountBelow(bounds[1..], x)
  }

  /** How many bounds lie at or below `x`. */
  function CountAtOrBelow(bounds: seq<real>, x: real): (n: nat)
    ensures n <= |bounds|
  {
    if bounds == [] then 0
    else (if bounds[0] <= x then 1 else 0) + CountAtOrBelow(bounds[1..], x)
  }

  /** A larger input never falls in a lower band. */
  lemma {:induction false} CountBelowMonotone(bounds: seq<real>, x: real, y: real)
    requires x <= y
    ensures CountBelow(bounds, x) <= CountBelow(bounds, y)
    decreases |bounds|
  {
    if bounds != [] {
      CountBelowMonotone(bounds[1..], x, y);
    }
  }

  lemma {:induction false} CountAtOrBelowMonotone(bounds: seq<real>, x: real, y: real)
    requires x <= y
    ensures CountAtOrBelow(bounds, x) <= CountAtOrBelow(bounds, y)
    decreases |bounds|
  {
    if bounds != [] {
      CountAtOrBelowMonotone(bounds[1..], x, y);
    }
  }

  /** Strictly increasing bounds. */
  predicate Ascending(bounds: seq<real>) {
    forall i, j :: 0 <= i < j < |bounds| ==> bounds[i] < bounds[j]
  }

  /**
   * For ascending bounds, `CountBelow` is the index of the first bound that
   * is not below `x`: the band a first-match `x <= bound` chain selects.
   */
  lemma {:induction false} CountBelowBand(bounds: seq<real>, x: real, i: nat)
    requires Ascending(bounds) && i <= |bounds|
    requires i > 0 ==> bounds[i - 1] < x
    requires i < |bounds| ==> x <= bounds[i]
    ensures CountBelow(bounds, x) == i
    decreases |bounds|
  {
    if bounds != [] {
      if i == 0 {
        CountBelowBand(bounds[1..], x, 0);
      } else {
        CountBelowBand(bounds[1..], x, i - 1);
      }
    }
  }

  /** The same for a first-match `x < bound` chain and `CountAtOrBelow`. */
  lemma {:induction false} CountAtOrBelowBand(bounds: seq<real>, x: real, i: nat)
    requires Ascending(bounds) && i <= |bounds|
    requires i > 0 ==> bounds[i - 1] <= x
    requires i < |bounds| ==> x < bounds[i]
    ensures CountAtOrBelow(bounds, x) == i
    decreases |bounds|
  {
    if bounds != [] {
      if i == 0 {
        CountAtOrBelowBand(bounds[1..], x, 0);
      } else {
        CountAtOrBelowBand(bounds[1..], x, i - 1);
      }
    }
  }
}

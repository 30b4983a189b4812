/** Small shared vocabulary: optional values, JavaScript-style rounding and the
    numeric helpers (Math.abs, Math.min, Math.max, Array.filter on a range)
    that the fit modules use. */
module Prelude {

  /** A value that may be absent (`undefined` in the TypeScript code). */
  datatype Option<+T> = None | Some(value: T) {
    /** `this ?? default`: the value when present, otherwise the default. */
    function GetOr(default: T): (r: T)
      ensures Some? ==> r == value
      ensures None? ==> r == default
    {
      match this
      case Some(v) => v
      case None => default
    }
  }

  function Abs(x: real): (r: real)
    ensures r >= 0.0
    ensures r == x || r == -x
  {
    if x < 0.0 then -x else x
  }

  function Min(a: real, b: real): (r: real)
    ensures r <= a && r <= b
    ensures r == a || r == b
  {
    if a <= b then a else b
  }

  function Max(a: real, b: real): (r: real)
    ensures r >= a && r >= b
    ensures r == a || r == b
  {
    if a >= b then a else b
  }

  function IntMin(a: int, b: int): (r: int)
    ensures r <= a && r <= b
    ensures r == a || r == b
  {
    if a <= b then a else b
  }

  function IntMax(a: int, b: int): (r: int)
    ensures r >= a && r >= b
    ensures r == a || r == b
  {
    if a >= b then a else b
  }

  /** JavaScript `Math.round`: round half up, towards positive infinity. */
  function Round(x: real): (r: int)
    ensures x - 0.5 < r as real <= x + 0.5
  {
    (x + 0.5).Floor
  }

  /** Round is the half-up nearest integer: any integer within 0.5 below and
      strictly less than 0.5 above is the rounded value. */
  lemma RoundUnique(x: real, k: int)
    requires x - 0.5 < k as real <= x + 0.5
    ensures Round(x) == k
  {
  }

  /** Rounding commutes with an integer shift. */
  lemma RoundShift(x: real, k: int)
    ensures Round(x + k as real) == Round(x) + k
  {
    RoundUnique(x + k as real, Round(x) + k);
  }

  lemma RoundOfInt(k: int)
    ensures Round(k as real) == k
  {
    RoundUnique(k as real, k);
  }

  lemma RoundMonotone(x: real, y: real)
    requires x <= y
    ensures Round(x) <= Round(y)
  {
  }

  /** A sequence in strictly ascending order. */
  predicate StrictlyAscending(xs: seq<int>) {
    forall i, j :: 0 <= i < j < |xs| ==> xs[i] < xs[j]
  }

  /** `xs.filter(x => x >= lo && x <= hi)`: the elements of `xs` in [lo, hi],
      in their original order. */
  function FilterWithin(xs: seq<int>, lo: int, hi: int): seq<int> {
    if xs == [] then []
    else (if lo <= xs[0] <= hi then [xs[0]] else []) + FilterWithin(xs[1..], lo, hi)
  }

  /** FilterWithin keeps exactly the elements in range and keeps their order. */
  lemma {:induction false} FilterWithinSpec(xs: seq<int>, lo: int, hi: int)
    ensures forall x :: x in FilterWithin(xs, lo, hi) <==> x in xs && lo <= x <= hi
    ensures |FilterWithin(xs, lo, hi)| <= |xs|
    ensures StrictlyAscending(xs) ==> StrictlyAscending(FilterWithin(xs, lo, hi))
    decreases |xs|
  {
    if xs != [] {
      FilterWithinSpec(xs[1..], lo, hi);
      var rest := FilterWithin(xs[1..], lo, hi);
      assert forall x :: x in xs <==> x == xs[0] || x in xs[1..];
      assert StrictlyAscending(xs) ==> forall k :: 0 <= k < |rest| ==> xs[0] < rest[k] by {
        if StrictlyAscending(xs) {
          forall k | 0 <= k < |rest| ensures xs[0] < rest[k] {
            assert rest[k] in xs[1..];
            var j :| 0 <= j < |xs[1..]| && xs[1..][j] == rest[k];
            assert xs[j + 1] == rest[k];
          }
        }
      }
    }
  }
}

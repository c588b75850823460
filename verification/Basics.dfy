/** Small vocabulary shared by every module. */
module Basics {

  datatype Option<+T> = None | Some(value: T)

  /** A field of an update: left as it is, or set. */
  datatype Patch<+T> = Keep | Set(value: T)

  function Patched<T>(current: T, patch: Patch<T>): T {
    if patch.Keep? then current else patch.value
  }

  function Min(a: nat, b: nat): nat {
    if a < b then a else b
  }
}

/** Sums of the amounts at a chosen set of positions, and how they combine. */
module Sums {

  function SumOver(w: seq<nat>, chosen: set<nat>): nat {
    if |w| == 0 then 0
    else SumOver(w[..|w| - 1], chosen) + (if |w| - 1 in chosen then w[|w| - 1] else 0)
  }

  lemma {:induction false} InclusionExclusion(w: seq<nat>, a: set<nat>, b: set<nat>)
    ensures SumOver(w, a) + SumOver(w, b) == SumOver(w, a + b) + SumOver(w, a * b)
  {
    if |w| > 0 {
      InclusionExclusion(w[..|w| - 1], a, b);
    }
  }

  /** Only membership of positions inside `w` matters. */
  lemma {:induction false} SumAgree(w: seq<nat>, a: set<nat>, b: set<nat>)
    requires forall i :: 0 <= i < |w| ==> (i in a <==> i in b)
    ensures SumOver(w, a) == SumOver(w, b)
  {
    if |w| > 0 {
      SumAgree(w[..|w| - 1], a, b);
    }
  }

  lemma {:induction false} SumEmpty(w: seq<nat>)
    ensures SumOver(w, {}) == 0
  {
    if |w| > 0 {
      SumEmpty(w[..|w| - 1]);
    }
  }

  lemma {:induction false} SumOne(w: seq<nat>, i: nat)
    requires i < |w|
    ensures SumOver(w, {i}) == w[i]
  {
    if i == |w| - 1 {
      SumAgree(w[..|w| - 1], {i}, {});
      SumEmpty(w[..|w| - 1]);
    } else {
      SumOne(w[..|w| - 1], i);
    }
  }

  lemma SumAdd(w: seq<nat>, a: set<nat>, i: nat)
    requires i < |w| && i !in a
    ensures SumOver(w, a + {i}) == SumOver(w, a) + w[i]
  {
    InclusionExclusion(w, a, {i});
    assert a * {i} == {};
    SumEmpty(w);
    SumOne(w, i);
  }

  /** Taking a subset away subtracts exactly its sum. */
  lemma SumMinus(w: seq<nat>, a: set<nat>, b: set<nat>)
    requires b <= a
    ensures SumOver(w, a - b) == SumOver(w, a) - SumOver(w, b)
  {
    InclusionExclusion(w, a - b, b);
    assert (a - b) + b == a;
    assert (a - b) * b == {};
    SumEmpty(w);
  }

  lemma SumMonotone(w: seq<nat>, a: set<nat>, b: set<nat>)
    requires a <= b
    ensures SumOver(w, a) <= SumOver(w, b)
  {
    SumMinus(w, b, a);
  }

  lemma SumSnoc(w: seq<nat>, v: nat, a: set<nat>)
    ensures SumOver(w + [v], a) == SumOver(w, a) + (if |w| in a then v else 0)
  {
    assert (w + [v])[..|w|] == w;
  }

  /** With positive amounts a sum is zero exactly when nothing is chosen. */
  lemma SumZero(w: seq<nat>, a: set<nat>)
    requires forall i :: 0 <= i < |w| ==> w[i] > 0
    ensures SumOver(w, a) == 0 <==> (forall i :: 0 <= i < |w| ==> i !in a)
  {
    if i :| 0 <= i < |w| && i in a {
      SumOne(w, i);
      SumMonotone(w, {i}, a);
    } else {
      SumAgree(w, a, {});
      SumEmpty(w);
    }
  }
}

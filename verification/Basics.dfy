/** Small shared vocabulary: optional values, string tests, real minima and powers. */
module Basics {
  datatype Option<+T> = None | Some(value: T)

  predicate StartsWith(s: string, prefix: string) {
    |s| >= |prefix| && s[..|prefix|] == prefix
  }

  predicate EndsWith(s: string, suffix: string) {
    |s| >= |suffix| && s[|s| - |suffix|..] == suffix
  }

  function MaxR(a: real, b: real): real { if a < b then b else a }

  function MinR(a: real, b: real): real { if a < b then a else b }

  function Power(x: real, k: nat): real { if k == 0 then 1.0 else x * Power(x, k - 1) }

  lemma {:induction false} PowerAtLeastOne(x: real, k: nat)
    requires x >= 1.0
    ensures Power(x, k) >= 1.0
  {
    if k > 0 {
      PowerAtLeastOne(x, k - 1);
      var y := Power(x, k - 1);
      assert x * y >= y by { assert (x - 1.0) * y >= 0.0; }
    }
  }

  /** The values present, in order. */
  function Somes<T>(xs: seq<Option<T>>): seq<T> {
    if xs == [] then []
    else Somes(xs[..|xs| - 1]) + (if xs[|xs| - 1].Some? then [xs[|xs| - 1].value] else [])
  }

  lemma SomesStep<T>(xs: seq<Option<T>>, x: Option<T>)
    ensures Somes(xs + [x]) == Somes(xs) + if x.Some? then [x.value] else []
  {
    assert (xs + [x])[..|xs|] == xs;
  }

  lemma {:induction false} SomesMembers<T>(xs: seq<Option<T>>, v: T)
    ensures v in Somes(xs) <==> Some(v) in xs
  {
    if xs != [] {
      SomesMembers(xs[..|xs| - 1], v);
      assert xs == xs[..|xs| - 1] + [xs[|xs| - 1]];
    }
  }

  predicate Distinct<T(==)>(s: seq<T>) { forall i, j :: 0 <= i < j < |s| ==> s[i] != s[j] }

  /** Values that occur once among the options come out once. */
  lemma {:induction false} SomesDistinct<T>(xs: seq<Option<T>>)
    requires forall i, j :: 0 <= i < j < |xs| && xs[i].Some? ==> xs[i] != xs[j]
    ensures Distinct(Somes(xs))
  {
    if xs != [] {
      var n := |xs| - 1;
      SomesDistinct(xs[..n]);
      if xs[n].Some? { SomesMembers(xs[..n], xs[n].value); }
    }
  }
}

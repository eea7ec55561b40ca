/** Reservoir sampling of the Redis keyspace, and the uniformity of the sample it keeps. */
module Reservoir {

  /** One observation: append while there is room (or no cap), otherwise overwrite the drawn slot if it exists. */
  function Keep<T>(sample: seq<T>, key: T, cap: int, slot: nat): seq<T> {
    if cap <= 0 || |sample| < cap then sample + [key]
    else if slot < cap && slot < |sample| then sample[slot := key]
    else sample
  }

  /** The sample after a whole stream; `slots[i]` is the draw made for the key at position `i`. */
  function SampleOf<T>(stream: seq<T>, cap: int, slots: seq<nat>): seq<T>
    requires |slots| == |stream|
  {
    if stream == [] then []
    else
      var n := |stream| - 1;
      Keep(SampleOf(stream[..n], cap, slots[..n]), stream[n], cap, slots[n])
  }

  /** `randrange(seen)` for the key at 1-based position `seen`. */
  predicate Drawn(slots: seq<nat>) { forall i :: 0 <= i < |slots| ==> slots[i] <= i }

  // ------------------------------------------------------------------ the choices that matter

  /**
   * Positions kept after the first `cap + |cs|` keys, where `cs` are the draws made once the
   * reservoir is full. Positions stand for keys: the sampler never looks at a key's value.
   */
  function Kept(cap: nat, cs: seq<nat>): seq<nat> {
    if cs == [] then seq(cap, i => i)
    else Keep<nat>(Kept(cap, cs[..|cs| - 1]), cap + |cs| - 1, cap, cs[|cs| - 1])
  }

  function Below(n: nat): (s: set<nat>)
    ensures |s| == n && forall i :: i in s <==> 0 <= i < n
  {
    if n == 0 then {} else Below(n - 1) + {n - 1}
  }

  type Draws = map<seq<nat>, set<nat>>

  /** Every way to extend a key of `next` by one of the draws it allows there. */
  ghost function ExtendAll(next: Draws): set<seq<nat>> {
    set cs, s | cs in next && s in next[cs] :: cs + [s]
  }

  /** The same draws for every sequence. */
  ghost function Always(from: set<seq<nat>>, draws: set<nat>): Draws {
    map cs | cs in from :: draws
  }

  /** All sequences of `m` draws: the `j`-th is one of `cap + j` equally likely slots. */
  ghost function Choices(cap: nat, m: nat): set<seq<nat>> {
    if m == 0 then {[]} else ExtendAll(Always(Choices(cap, m - 1), Below(cap + m)))
  }

  function Elems(s: seq<nat>): set<nat> { set i | i in s }

  /** Choices that leave position `i` in the sample. */
  ghost function Keeping(cap: nat, m: nat, i: nat): set<seq<nat>> {
    set cs | cs in Choices(cap, m) && i in Kept(cap, cs)
  }

  /** Choices whose sample is exactly the set `a`. */
  ghost function Yielding(cap: nat, m: nat, a: set<nat>): set<seq<nat>> {
    set cs | cs in Choices(cap, m) && Elems(Kept(cap, cs)) == a
  }

  function Factorial(m: nat): nat { if m == 0 then 1 else m * Factorial(m - 1) }

  // ------------------------------------------------------------------ counting

  lemma SnocInjective(cs: seq<nat>, s: nat, cs': seq<nat>, s': nat)
    requires cs + [s] == cs' + [s']
    ensures cs == cs' && s == s'
  {
    assert (cs + [s])[..|cs|] == cs && (cs' + [s'])[..|cs'|] == cs';
    assert (cs + [s])[|cs|] == s && (cs' + [s'])[|cs'|] == s';
  }

  ghost function Tails(cs: seq<nat>, draws: set<nat>): set<seq<nat>> {
    set s | s in draws :: cs + [s]
  }

  lemma {:induction false} TailsCount(cs: seq<nat>, draws: set<nat>)
    ensures |Tails(cs, draws)| == |draws|
    decreases draws
  {
    if draws != {} {
      var s :| s in draws;
      TailsCount(cs, draws - {s});
      assert Tails(cs, draws) == Tails(cs, draws - {s}) + {cs + [s]};
      assert cs + [s] !in Tails(cs, draws - {s}) by {
        forall s' | s' in draws - {s} ensures cs + [s'] != cs + [s] {
          assert (cs + [s'])[|cs|] == s' && (cs + [s])[|cs|] == s;
        }
      }
    }
  }

  lemma ExtendSplits(next: Draws, cs: seq<nat>)
    requires cs in next
    ensures ExtendAll(next) == ExtendAll(next - {cs}) + Tails(cs, next[cs])
    ensures ExtendAll(next - {cs}) !! Tails(cs, next[cs])
  {
    var rest := next - {cs};
    forall x | x in ExtendAll(next) ensures x in ExtendAll(rest) + Tails(cs, next[cs]) {
      var cs', s' :| cs' in next && s' in next[cs'] && x == cs' + [s'];
      if cs' != cs { assert cs' in rest && s' in rest[cs']; }
    }
    forall x | x in ExtendAll(rest) ensures x in ExtendAll(next) && x !in Tails(cs, next[cs]) {
      var cs', s' :| cs' in rest && s' in rest[cs'] && x == cs' + [s'];
      assert cs' in next && s' in next[cs'];
      if x in Tails(cs, next[cs]) {
        var s :| s in next[cs] && x == cs + [s];
        SnocInjective(cs, s, cs', s');
      }
    }
    forall x | x in Tails(cs, next[cs]) ensures x in ExtendAll(next) {
      var s :| s in next[cs] && x == cs + [s];
    }
  }

  /** If every sequence allows `c` draws, extending multiplies the count by `c`. */
  lemma {:induction false} ExtendCount(next: Draws, c: nat)
    requires forall cs :: cs in next ==> |next[cs]| == c
    ensures |ExtendAll(next)| == |next| * c
    decreases |next|
  {
    if next == map[] {
      assert ExtendAll(next) == {};
    } else {
      var cs :| cs in next;
      var rest := next - {cs};
      assert |rest| == |next| - 1 by { assert rest.Keys == next.Keys - {cs}; }
      ExtendCount(rest, c);
      TailsCount(cs, next[cs]);
      ExtendSplits(next, cs);
      AddOne(|rest|, c);
    }
  }

  lemma AddOne(n: nat, c: nat)
    ensures (n + 1) * c == n * c + c
  {}

  /** `cap` distinct positions below `bound`. */
  predicate Shape(s: seq<nat>, cap: nat, bound: nat) {
    && |s| == cap && (forall j :: 0 <= j < cap ==> s[j] < bound)
    && forall j, k :: 0 <= j < k < cap ==> s[j] != s[k]
  }

  lemma KeepShape(s: seq<nat>, cap: nat, bound: nat, slot: nat)
    requires cap >= 1 && Shape(s, cap, bound)
    ensures Shape(Keep<nat>(s, bound, cap, slot), cap, bound + 1)
  {}

  lemma ChoicesUnfold(cap: nat, m: nat)
    ensures Choices(cap, m + 1) == ExtendAll(Always(Choices(cap, m), Below(cap + m + 1)))
  {}

  lemma KeptUnfold(cap: nat, cs: seq<nat>, s: nat)
    ensures Kept(cap, cs + [s]) == Keep<nat>(Kept(cap, cs), cap + |cs|, cap, s)
  {
    assert (cs + [s])[..|cs|] == cs;
  }

  lemma ChoicesSplit(cap: nat, m: nat, x: seq<nat>) returns (cs: seq<nat>, s: nat)
    requires x in Choices(cap, m + 1)
    ensures cs in Choices(cap, m) && s < cap + m + 1 && x == cs + [s]
  {
    ChoicesUnfold(cap, m);
    hide Choices, Kept;
    var next := Always(Choices(cap, m), Below(cap + m + 1));
    cs, s :| cs in next && s in next[cs] && x == cs + [s];
  }

  lemma NoDrawsShape(cap: nat, cs: seq<nat>)
    requires cs in Choices(cap, 0)
    ensures cs == [] && Shape(Kept(cap, cs), cap, cap)
  {}

  /** A full reservoir holds `cap` distinct positions of those seen so far. */
  lemma {:induction false} KeptShape(cap: nat, m: nat, cs: seq<nat>)
    requires cap >= 1 && cs in Choices(cap, m)
    ensures |cs| == m && Shape(Kept(cap, cs), cap, cap + m)
  {
    hide *;
    if m == 0 {
      NoDrawsShape(cap, cs);
    } else {
      var cs', s := ChoicesSplit(cap, m - 1, cs);
      KeptShape(cap, m - 1, cs');
      KeptUnfold(cap, cs', s);
      var kept := Kept(cap, cs');
      assert Kept(cap, cs) == Keep<nat>(kept, cap + m - 1, cap, s);
      KeepShape(kept, cap, cap + m - 1, s);
      assert Shape(Keep<nat>(kept, cap + m - 1, cap, s), cap, cap + m);
    }
  }

  /** What one more draw does to the kept positions. */
  lemma KeptStep(cap: nat, m: nat, cs: seq<nat>, s: nat)
    requires cap >= 1 && cs in Choices(cap, m) && s < cap + m + 1
    ensures cs + [s] in Choices(cap, m + 1)
    ensures |Kept(cap, cs)| == cap && Kept(cap, cs + [s]) == Keep<nat>(Kept(cap, cs), cap + m, cap, s)
  {
    hide Choices, Kept, Keep;
    KeptShape(cap, m, cs);
    KeptUnfold(cap, cs, s);
    ChoicesUnfold(cap, m);
    var next := Always(Choices(cap, m), Below(cap + m + 1));
    assert cs in next && s in next[cs];
  }

  // ------------------------------------------------------------------ every position is equally likely

  /** From each choice that keeps `i`, the slots whose overwriting does not evict it. */
  ghost function Sparing(cap: nat, m: nat, i: nat): Draws {
    map cs | cs in Keeping(cap, m, i) ::
      set s | s in Below(cap + m + 1) && !(s < |Kept(cap, cs)| && Kept(cap, cs)[s] == i)
  }

  lemma OneSlot(kept: seq<nat>, cap: nat, bound: nat, i: nat) returns (k: nat)
    requires Shape(kept, cap, bound) && i in kept
    ensures |kept| == cap && k < cap && forall s :: 0 <= s < cap ==> (kept[s] == i <==> s == k)
  {
    k :| 0 <= k < cap && kept[k] == i;
  }

  lemma SparingCount(cap: nat, m: nat, i: nat, cs: seq<nat>)
    requires cap >= 1 && cs in Keeping(cap, m, i)
    ensures |Sparing(cap, m, i)[cs]| == cap + m
  {
    hide Choices, Kept, Shape;
    KeptShape(cap, m, cs);
    var k := OneSlot(Kept(cap, cs), cap, cap + m, i);
    assert Sparing(cap, m, i)[cs] == Below(cap + m + 1) - {k};
  }

  lemma OldPositionSurvives(cap: nat, m: nat, i: nat)
    requires cap >= 1 && i < cap + m
    ensures Keeping(cap, m + 1, i) == ExtendAll(Sparing(cap, m, i))
  {
    hide Choices, Kept;
    var next := Sparing(cap, m, i);
    forall x | x in Keeping(cap, m + 1, i) ensures x in ExtendAll(next) {
      var cs, s := ChoicesSplit(cap, m, x);
      KeptStep(cap, m, cs, s);
      KeptShape(cap, m, cs);
      KeptShape(cap, m + 1, x);
      var k :| 0 <= k < cap && Kept(cap, x)[k] == i;
      assert Kept(cap, cs)[k] == i && k != s;
      assert cs in next && s in next[cs];
    }
    forall x | x in ExtendAll(next) ensures x in Keeping(cap, m + 1, i) {
      var cs, s :| cs in next && s in next[cs] && x == cs + [s];
      KeptStep(cap, m, cs, s);
      var k :| 0 <= k < cap && Kept(cap, cs)[k] == i;
      assert Kept(cap, x)[k] == i;
    }
  }

  lemma NewPositionEnters(cap: nat, m: nat)
    requires cap >= 1
    ensures Keeping(cap, m + 1, cap + m) == ExtendAll(Always(Choices(cap, m), Below(cap)))
  {
    hide Choices, Kept;
    var next := Always(Choices(cap, m), Below(cap));
    forall x | x in Keeping(cap, m + 1, cap + m) ensures x in ExtendAll(next) {
      var cs, s := ChoicesSplit(cap, m, x);
      KeptStep(cap, m, cs, s);
      KeptShape(cap, m, cs);
      var k :| 0 <= k < cap && Kept(cap, x)[k] == cap + m;
      assert s < cap;
      assert cs in next && s in next[cs];
    }
    forall x | x in ExtendAll(next) ensures x in Keeping(cap, m + 1, cap + m) {
      var cs, s :| cs in next && s in next[cs] && x == cs + [s];
      KeptStep(cap, m, cs, s);
      assert Kept(cap, x)[s] == cap + m;
    }
  }

  lemma AlwaysCount(from: set<seq<nat>>, draws: set<nat>)
    ensures |ExtendAll(Always(from, draws))| == |from| * |draws|
  {
    hide ExtendAll;
    assert Always(from, draws).Keys == from;
    ExtendCount(Always(from, draws), |draws|);
  }

  lemma ChoicesCount(cap: nat, m: nat)
    ensures |Choices(cap, m + 1)| == |Choices(cap, m)| * (cap + m + 1)
  {
    hide *;
    ChoicesUnfold(cap, m);
    AlwaysCount(Choices(cap, m), Below(cap + m + 1));
  }

  lemma OldPositionCount(cap: nat, m: nat, i: nat)
    requires cap >= 1 && i < cap + m
    ensures |Keeping(cap, m + 1, i)| == |Keeping(cap, m, i)| * (cap + m)
  {
    hide Choices, Kept, ExtendAll, Keeping;
    OldPositionSurvives(cap, m, i);
    var next := Sparing(cap, m, i);
    assert next.Keys == Keeping(cap, m, i);
    forall cs | cs in next ensures |next[cs]| == cap + m {
      SparingCount(cap, m, i, cs);
    }
    ExtendCount(next, cap + m);
  }

  lemma NewPositionCount(cap: nat, m: nat)
    requires cap >= 1
    ensures |Keeping(cap, m + 1, cap + m)| == |Choices(cap, m)| * cap
  {
    hide *;
    NewPositionEnters(cap, m);
    AlwaysCount(Choices(cap, m), Below(cap));
  }

  lemma NoDrawsKeepAll(cap: nat, i: nat)
    requires i < cap
    ensures |Keeping(cap, 0, i)| == 1 && |Choices(cap, 0)| == 1
  {
    assert Kept(cap, [])[i] == i;
    assert Keeping(cap, 0, i) == {[]};
  }

  lemma Regroup(a: nat, b: nat, c: nat)
    ensures (a * b) * c == b * (a * c) && (b * a) * c == b * (a * c)
  {}

  lemma Rescaled(x: nat, y: nat, c: nat)
    requires x == y
    ensures x * c == y * c
  {}

  /**
   * Of all choice sequences for a stream of `cap + m` keys, the share that keeps position `i` is
   * `cap / (cap + m)`, whatever `i` is.
   */
  lemma {:induction false} InclusionIsUniform(cap: nat, m: nat, i: nat)
    requires cap >= 1 && i < cap + m
    ensures |Keeping(cap, m, i)| * (cap + m) == cap * |Choices(cap, m)|
  {
    hide *;
    if m == 0 {
      NoDrawsKeepAll(cap, i);
    } else {
      ChoicesCount(cap, m - 1);
      var all, seen := |Choices(cap, m - 1)|, cap + m;
      if i == cap + m - 1 {
        NewPositionCount(cap, m - 1);
        Regroup(all, cap, seen);
      } else {
        InclusionIsUniform(cap, m - 1, i);
        OldPositionCount(cap, m - 1, i);
        var k := |Keeping(cap, m - 1, i)|;
        assert k * (seen - 1) == cap * all;
        Regroup(all, cap, seen);
        Rescaled(k * (seen - 1), cap * all, seen);
      }
    }
  }

  // ------------------------------------------------------------------ every sample is equally likely

  lemma NewestIsElem(kept: seq<nat>, cap: nat, new': nat, s: nat)
    requires cap >= 1 && |kept| == cap
    ensures s < cap ==> new' in Elems(Keep<nat>(kept, new', cap, s))
  {
    if s < cap {
      var last := Keep<nat>(kept, new', cap, s);
      assert last[s] == new';
    }
  }

  lemma WithoutNewSplits(cap: nat, m: nat, a: set<nat>, x: seq<nat>) returns (cs: seq<nat>, s: nat)
    requires cap >= 1 && a <= Below(cap + m) && x in Yielding(cap, m + 1, a)
    ensures cs in Yielding(cap, m, a) && s in Below(cap + m + 1) - Below(cap) && x == cs + [s]
  {
    hide Choices, Kept, Elems;
    cs, s := ChoicesSplit(cap, m, x);
    KeptStep(cap, m, cs, s);
    NewestIsElem(Kept(cap, cs), cap, cap + m, s);
  }

  lemma WithoutNewJoins(cap: nat, m: nat, a: set<nat>, cs: seq<nat>, s: nat)
    requires cap >= 1 && cs in Yielding(cap, m, a) && s in Below(cap + m + 1) - Below(cap)
    ensures cs + [s] in Yielding(cap, m + 1, a)
  {
    hide Choices, Kept, Elems;
    KeptStep(cap, m, cs, s);
  }

  /** Samples without the newest position come from the same sample and a draw past the cap. */
  lemma YieldingWithoutNew(cap: nat, m: nat, a: set<nat>)
    requires cap >= 1 && a <= Below(cap + m)
    ensures Yielding(cap, m + 1, a) == ExtendAll(Always(Yielding(cap, m, a), Below(cap + m + 1) - Below(cap)))
  {
    hide Choices, Kept, Elems, Yielding, Below;
    var next := Always(Yielding(cap, m, a), Below(cap + m + 1) - Below(cap));
    forall x | x in Yielding(cap, m + 1, a) ensures x in ExtendAll(next) {
      var cs, s := WithoutNewSplits(cap, m, a, x);
      assert cs in next && s in next[cs];
    }
    forall x | x in ExtendAll(next) ensures x in Yielding(cap, m + 1, a) {
      var cs, s :| cs in next && s in next[cs] && x == cs + [s];
      WithoutNewJoins(cap, m, a, cs, s);
    }
  }

  /** Choices whose sample is `b` plus one element of `xs`. */
  ghost function Over(cap: nat, m: nat, b: set<nat>, xs: set<nat>): set<seq<nat>> {
    set cs | cs in Choices(cap, m) && exists x :: x in xs && Elems(Kept(cap, cs)) == b + {x}
  }

  lemma OverSplits(cap: nat, m: nat, b: set<nat>, xs: set<nat>, x: nat)
    requires b !! xs && x in xs
    ensures Over(cap, m, b, xs) == Over(cap, m, b, xs - {x}) + Yielding(cap, m, b + {x})
    ensures Over(cap, m, b, xs - {x}) !! Yielding(cap, m, b + {x})
  {
    hide Choices, Kept, Elems;
    forall cs | cs in Over(cap, m, b, xs - {x}) ensures cs !in Yielding(cap, m, b + {x}) {
      var y :| y in xs - {x} && Elems(Kept(cap, cs)) == b + {y};
      assert y in b + {y} && y !in b + {x};
    }
    forall cs | cs in Yielding(cap, m, b + {x}) ensures cs in Over(cap, m, b, xs) {
      assert x in xs && Elems(Kept(cap, cs)) == b + {x};
    }
  }

  lemma OverNothing(cap: nat, m: nat, b: set<nat>)
    ensures Over(cap, m, b, {}) == {}
  {
    hide Choices, Kept;
  }

  lemma {:induction false} OverCount(cap: nat, m: nat, b: set<nat>, xs: set<nat>, c: nat)
    requires b !! xs && forall x :: x in xs ==> |Yielding(cap, m, b + {x})| == c
    ensures |Over(cap, m, b, xs)| == |xs| * c
    decreases xs
  {
    hide *;
    if xs == {} {
      OverNothing(cap, m, b);
    } else {
      var x :| x in xs;
      OverCount(cap, m, b, xs - {x}, c);
      OverSplits(cap, m, b, xs, x);
      AddOne(|xs - {x}|, c);
    }
  }

  /** From each of those, the single slot that holds the element outside `b`. */
  ghost function Evicting(cap: nat, m: nat, b: set<nat>, xs: set<nat>): Draws {
    map cs | cs in Over(cap, m, b, xs) :: set s | s in Below(cap) && s < |Kept(cap, cs)| && Kept(cap, cs)[s] !in b
  }

  lemma OneOutside(kept: seq<nat>, cap: nat, bound: nat, b: set<nat>, x: nat) returns (k: nat)
    requires Shape(kept, cap, bound) && x !in b && Elems(kept) == b + {x}
    ensures |kept| == cap && k < cap && forall s :: 0 <= s < cap ==> (kept[s] !in b <==> s == k)
  {
    assert x in Elems(kept);
    k :| 0 <= k < cap && kept[k] == x;
    forall s | 0 <= s < cap ensures kept[s] !in b <==> s == k {
      assert kept[s] in Elems(kept);
    }
  }

  lemma EvictingCount(cap: nat, m: nat, b: set<nat>, xs: set<nat>, cs: seq<nat>)
    requires cap >= 1 && b !! xs && cs in Over(cap, m, b, xs)
    ensures |Evicting(cap, m, b, xs)[cs]| == 1
  {
    hide Choices, Kept, Elems, Shape;
    KeptShape(cap, m, cs);
    var x :| x in xs && Elems(Kept(cap, cs)) == b + {x};
    var k := OneOutside(Kept(cap, cs), cap, cap + m, b, x);
    assert |Kept(cap, cs)| == cap;
    assert Evicting(cap, m, b, xs)[cs] == {k};
  }

  /** Overwriting the one slot outside `b` with the newest position leaves exactly `b` and that position. */
  lemma OverwriteElems(s: seq<nat>, k: nat, new': nat, b: set<nat>, x: nat)
    requires k < |s| && s[k] == x && Elems(s) == b + {x} && x !in b
    requires forall j :: 0 <= j < |s| && j != k ==> s[j] != x
    ensures Elems(s[k := new']) == b + {new'}
  {
    forall y | y in b ensures y in s[k := new'] {
      assert y in Elems(s);
      var j :| 0 <= j < |s| && s[j] == y;
      assert s[k := new'][j] == y;
    }
    assert s[k := new'][k] == new';
    forall j | 0 <= j < |s| && j != k ensures s[j] in b {
      assert s[j] in Elems(s);
    }
  }

  /** Conversely, a sample that holds the newest position overwrote a slot that `b` does not need. */
  lemma NewMeansOverwritten(s: seq<nat>, cap: nat, bound: nat, slot: nat, b: set<nat>)
    requires cap >= 1 && Shape(s, cap, bound) && bound !in b
    requires Elems(Keep<nat>(s, bound, cap, slot)) == b + {bound}
    ensures slot < cap && s[slot] !in b && Elems(s) == b + {s[slot]}
  {
    var s' := Keep<nat>(s, bound, cap, slot);
    assert slot < cap by {
      assert bound in Elems(s');
    }
    assert s' == s[slot := bound];
    OthersKept(s, slot, bound, b);
    assert forall y :: y in Elems(s) <==> y in b || y == s[slot];
  }

  lemma OthersKept(s: seq<nat>, slot: nat, bound: nat, b: set<nat>)
    requires slot < |s| && Shape(s, |s|, bound) && bound !in b && Elems(s[slot := bound]) == b + {bound}
    ensures forall j :: 0 <= j < |s| && j != slot ==> s[j] in b
    ensures s[slot] !in b && forall y :: y in b ==> y in Elems(s)
  {
    var s' := s[slot := bound];
    forall j | 0 <= j < |s| && j != slot ensures s[j] in b {
      assert s'[j] in Elems(s');
    }
    forall y | y in b ensures y in Elems(s) && y != s[slot] {
      assert y in Elems(s');
      var j :| 0 <= j < |s'| && s'[j] == y;
      assert s[j] == y && j != slot;
    }
  }

  lemma YieldingWithNew(cap: nat, m: nat, b: set<nat>)
    requires cap >= 1 && b <= Below(cap + m)
    ensures Yielding(cap, m + 1, b + {cap + m}) == ExtendAll(Evicting(cap, m, b, Below(cap + m) - b))
  {
    hide Choices, Kept, Elems, Keep;
    var next := Evicting(cap, m, b, Below(cap + m) - b);
    forall y | y in Yielding(cap, m + 1, b + {cap + m}) ensures y in ExtendAll(next) {
      var cs, s := NewComesByEviction(cap, m, b, y);
    }
    forall y | y in ExtendAll(next) ensures y in Yielding(cap, m + 1, b + {cap + m}) {
      var cs, s :| cs in next && s in next[cs] && y == cs + [s];
      var x := EvictionFacts(cap, m, b, cs, s);
      EvictionBringsNew(cap, m, b, cs, s, x);
    }
  }

  lemma NewComesByEviction(cap: nat, m: nat, b: set<nat>, y: seq<nat>) returns (cs: seq<nat>, s: nat)
    requires cap >= 1 && b <= Below(cap + m) && y in Yielding(cap, m + 1, b + {cap + m})
    ensures var next := Evicting(cap, m, b, Below(cap + m) - b);
            cs in next && s in next[cs] && y == cs + [s]
  {
    hide Choices, Kept, Elems;
    cs, s := ChoicesSplit(cap, m, y);
    KeptStep(cap, m, cs, s);
    KeptShape(cap, m, cs);
    NewMeansOverwritten(Kept(cap, cs), cap, cap + m, s, b);
    var x := Kept(cap, cs)[s];
    assert x in Below(cap + m) - b && Elems(Kept(cap, cs)) == b + {x};
  }

  /** What a choice of `Evicting` promises, without the map. */
  lemma EvictionFacts(cap: nat, m: nat, b: set<nat>, cs: seq<nat>, s: nat) returns (x: nat)
    requires var next := Evicting(cap, m, b, Below(cap + m) - b); cs in next && s in next[cs]
    ensures cs in Choices(cap, m) && s < cap && s < |Kept(cap, cs)| && Kept(cap, cs)[s] !in b
    ensures x !in b && Elems(Kept(cap, cs)) == b + {x}
  {
    hide Choices, Kept, Elems;
    x :| x in Below(cap + m) - b && Elems(Kept(cap, cs)) == b + {x};
  }

  lemma EvictionBringsNew(cap: nat, m: nat, b: set<nat>, cs: seq<nat>, s: nat, x: nat)
    requires cap >= 1 && cs in Choices(cap, m) && s < cap && s < |Kept(cap, cs)| && Kept(cap, cs)[s] !in b
    requires x !in b && Elems(Kept(cap, cs)) == b + {x}
    ensures cs + [s] in Choices(cap, m + 1) && Elems(Kept(cap, cs + [s])) == b + {cap + m}
  {
    hide *;
    KeptStep(cap, m, cs, s);
    KeptShape(cap, m, cs);
    EvictionElems(Kept(cap, cs), cap, cap + m, s, b, x);
  }

  lemma EvictionElems(kept: seq<nat>, cap: nat, bound: nat, s: nat, b: set<nat>, x: nat)
    requires Shape(kept, cap, bound) && s < cap && kept[s] !in b && x !in b && Elems(kept) == b + {x}
    ensures Elems(Keep<nat>(kept, bound, cap, s)) == b + {bound}
  {
    assert kept[s] in Elems(kept);
    OverwriteElems(kept, s, bound, b, x);
  }

  lemma EvictingExtendCount(cap: nat, m: nat, b: set<nat>, xs: set<nat>)
    requires cap >= 1 && b !! xs
    ensures |ExtendAll(Evicting(cap, m, b, xs))| == |Over(cap, m, b, xs)|
  {
    hide Choices, Kept, Over, ExtendAll, Elems, Below;
    var next := Evicting(cap, m, b, xs);
    assert next.Keys == Over(cap, m, b, xs);
    forall cs | cs in next ensures |next[cs]| == 1 {
      EvictingCount(cap, m, b, xs, cs);
    }
    ExtendCount(next, 1);
  }

  lemma RoomLeft(n: nat, b: set<nat>)
    requires b <= Below(n)
    ensures |Below(n) - b| == n - |b| && b !! Below(n) - b
  {}

  lemma EvictingTotal(cap: nat, m: nat, b: set<nat>, c: nat)
    requires cap >= 1 && b <= Below(cap + m) && |b| == cap - 1
    requires forall x :: x in Below(cap + m) - b ==> |Yielding(cap, m, b + {x})| == c
    ensures |Yielding(cap, m + 1, b + {cap + m})| == (m + 1) * c
  {
    hide *;
    var xs := Below(cap + m) - b;
    RoomLeft(cap + m, b);
    OverCount(cap, m, b, xs, c);
    YieldingWithNew(cap, m, b);
    EvictingExtendCount(cap, m, b, xs);
  }

  lemma NoDrawsYield(cap: nat, a: set<nat>)
    requires |a| == cap && a <= Below(cap)
    ensures |Yielding(cap, 0, a)| == 1
  {
    SameSize(a, Below(cap));
    assert Kept(cap, []) == seq(cap, i => i);
    forall i | 0 <= i < cap ensures i in Elems(Kept(cap, [])) {
      assert Kept(cap, [])[i] == i;
    }
    assert Elems(Kept(cap, [])) == a;
    assert Yielding(cap, 0, a) == {[]};
  }

  lemma SameSize(a: set<nat>, b: set<nat>)
    requires a <= b && |a| == |b|
    ensures a == b
  {
    assert |b - a| == 0;
  }

  lemma WithoutNewTotal(cap: nat, m: nat, a: set<nat>)
    requires cap >= 1 && a <= Below(cap + m)
    ensures |Yielding(cap, m + 1, a)| == |Yielding(cap, m, a)| * (m + 1)
  {
    hide Choices, Kept, Yielding, ExtendAll;
    YieldingWithoutNew(cap, m, a);
    var draws := Below(cap + m + 1) - Below(cap);
    assert |draws| == m + 1 by { assert Below(cap) <= Below(cap + m + 1); }
    AlwaysCount(Yielding(cap, m, a), draws);
  }

  /** Taking the newest position out of a sample leaves room for exactly the older ones it lacks. */
  lemma WithoutNewest(a: set<nat>, n: nat) returns (b: set<nat>)
    requires a <= Below(n + 1) && n in a
    ensures b == a - {n} && b <= Below(n) && |b| == |a| - 1 && a == b + {n}
    ensures forall x :: x in Below(n) - b ==> |b + {x}| == |a| && b + {x} <= Below(n)
  {
    b := a - {n};
  }

  lemma WithNewTotal(cap: nat, m: nat, a: set<nat>, f: nat)
    requires cap >= 1 && |a| == cap && a <= Below(cap + m + 1) && cap + m in a
    requires forall b :: |b| == cap && b <= Below(cap + m) ==> |Yielding(cap, m, b)| == f
    ensures |Yielding(cap, m + 1, a)| == (m + 1) * f
  {
    hide *;
    var b := WithoutNewest(a, cap + m);
    EvictingTotal(cap, m, b, f);
  }

  /**
   * The sample is uniform over samples: every set of `cap` positions out of `cap + m` is produced
   * by exactly `m!` of the choice sequences.
   */
  lemma {:induction false} SampleIsUniform(cap: nat, m: nat, a: set<nat>)
    requires cap >= 1 && |a| == cap && a <= Below(cap + m)
    ensures |Yielding(cap, m, a)| == Factorial(m)
  {
    hide Choices, Kept, Yielding, Elems;
    if m == 0 {
      NoDrawsYield(cap, a);
    } else {
      var k := m - 1;
      if cap + k in a {
        forall b | |b| == cap && b <= Below(cap + k) ensures |Yielding(cap, k, b)| == Factorial(k) {
          SampleIsUniform(cap, k, b);
        }
        WithNewTotal(cap, k, a, Factorial(k));
      } else {
        assert a <= Below(cap + k);
        SampleIsUniform(cap, k, a);
        WithoutNewTotal(cap, k, a);
      }
    }
  }
}

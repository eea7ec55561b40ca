/** The watermark of one zoom: the fast in-place form against the set of completed indices. */
module Watermark {

  /** Pop the indices above `w` that are contiguous with it. */
  function Absorb(w: nat, above: set<nat>): (nat, set<nat>)
    decreases above
  {
    if w in above then Absorb(w + 1, above - {w}) else (w, above)
  }

  /** One completion folded into the pair (watermark, indices done above it). */
  function Advance(w: nat, above: set<nat>, i: nat): (nat, set<nat>) {
    if i == w then Absorb(w + 1, above)
    else if i > w then (w, above + {i})
    else (w, above)
  }

  /** The simple form: `w` is the least index from `resume` on that is not done, `above` the done ones past it. */
  ghost predicate IsFrontier(resume: nat, done: set<nat>, w: nat, above: set<nat>) {
    && resume <= w && w !in done
    && (forall j :: resume <= j < w ==> j in done)
    && (forall j :: j in above <==> j in done && j > w)
  }

  lemma {:induction false} AbsorbFindsFrontier(resume: nat, done: set<nat>, w: nat, above: set<nat>)
    requires resume <= w
    requires forall j :: resume <= j < w ==> j in done
    requires forall j :: j in above <==> j in done && j >= w
    ensures var (w', above') := Absorb(w, above); IsFrontier(resume, done, w', above')
    decreases above
  {
    if w in above {
      AbsorbFindsFrontier(resume, done, w + 1, above - {w});
    }
  }

  lemma AdvanceKeepsFrontier(resume: nat, done: set<nat>, w: nat, above: set<nat>, i: nat)
    requires IsFrontier(resume, done, w, above)
    requires i >= resume && i !in done
    ensures var (w', above') := Advance(w, above, i); IsFrontier(resume, done + {i}, w', above')
  {
    if i == w {
      AbsorbFindsFrontier(resume, done + {i}, w + 1, above);
    }
  }

  /** The pair after a whole sequence of completions. */
  function FoldAll(resume: nat, order: seq<nat>): (nat, set<nat>) {
    if order == [] then (resume, {})
    else
      var (w, above) := FoldAll(resume, order[..|order| - 1]);
      Advance(w, above, order[|order| - 1])
  }

  function Elements(order: seq<nat>): set<nat> { set i | i in order }

  predicate Distinct(order: seq<nat>) {
    forall i, j :: 0 <= i < j < |order| ==> order[i] != order[j]
  }

  /** For every order of distinct completions the fast form computes the frontier of the completed set. */
  lemma {:induction false} FoldIsFrontier(resume: nat, order: seq<nat>)
    requires Distinct(order) && forall k :: 0 <= k < |order| ==> order[k] >= resume
    ensures var (w, above) := FoldAll(resume, order); IsFrontier(resume, Elements(order), w, above)
  {
    if order != [] {
      var init, i := order[..|order| - 1], order[|order| - 1];
      FoldIsFrontier(resume, init);
      var (w, above) := FoldAll(resume, init);
      AdvanceKeepsFrontier(resume, Elements(init), w, above, i);
      assert Elements(order) == Elements(init) + {i};
    }
  }

  /** A chunk drained in any order ends with the watermark at its end and nothing left above. */
  lemma FullChunkDrains(start: nat, end: nat, order: seq<nat>)
    requires start <= end && Distinct(order)
    requires forall i :: i in order <==> start <= i < end
    ensures FoldAll(start, order) == (end, {})
  {
    forall k | 0 <= k < |order| ensures order[k] >= start {
      assert order[k] in order;
    }
    FoldIsFrontier(start, order);
    var (w, above) := FoldAll(start, order);
    assert w < end ==> w in order;
    assert w > end ==> end in Elements(order);
    assert above == {};
  }
}

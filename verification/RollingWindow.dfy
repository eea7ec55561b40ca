/** The bounded outcome window shared by the provider breaker and the storage circuit. */
module RollingWindow {

  /** Append, then drop the oldest entry once the window is over capacity. */
  function Push(w: seq<bool>, failed: bool, cap: nat): seq<bool> {
    var w' := w + [failed];
    if |w'| > cap then w'[1..] else w'
  }

  function Failures(w: seq<bool>): (n: nat)
    ensures n <= |w|
  {
    if w == [] then 0 else (if w[|w| - 1] then 1 else 0) + Failures(w[..|w| - 1])
  }

  /** Strictly more than `threshold` of the window failed, once it holds `minSamples` entries. */
  predicate Exceeds(w: seq<bool>, minSamples: nat, threshold: real) {
    |w| >= minSamples && Failures(w) as real > threshold * (|w| as real)
  }

  function LastN<T>(s: seq<T>, n: nat): seq<T> {
    if |s| <= n then s else s[|s| - n..]
  }

  /** Feeding outcomes one at a time leaves exactly the most recent `cap` of them. */
  lemma PushKeepsLast(s: seq<bool>, failed: bool, cap: nat)
    ensures Push(LastN(s, cap), failed, cap) == LastN(s + [failed], cap)
  {
    if |s| < cap {
    } else if cap == 0 {
      assert LastN(s, 0) == [];
    } else {
      assert Push(LastN(s, cap), failed, cap) == (s[|s| - cap..] + [failed])[1..];
      assert (s + [failed])[|s| + 1 - cap..] == s[|s| + 1 - cap..] + [failed];
    }
  }

  /** The count of failures is their multiplicity. */
  lemma {:induction false} FailuresAreTheTrues(w: seq<bool>)
    ensures Failures(w) == multiset(w)[true]
  {
    if w != [] {
      FailuresAreTheTrues(w[..|w| - 1]);
      assert w == w[..|w| - 1] + [w[|w| - 1]];
    }
  }

  /** A window trips exactly when it is long enough and the share of failures in it is above the threshold. */
  lemma ExceedsMeans(w: seq<bool>, minSamples: nat, threshold: real)
    requires minSamples >= 1
    ensures Exceeds(w, minSamples, threshold) <==>
            |w| >= minSamples && multiset(w)[true] as real / |w| as real > threshold
  {
    FailuresAreTheTrues(w);
    if |w| >= minSamples { RateForms(Failures(w), |w|, threshold); }
  }

  lemma {:induction false} FailuresConcat(a: seq<bool>, b: seq<bool>)
    ensures Failures(a + b) == Failures(a) + Failures(b)
  {
    if b == [] {
      assert a + b == a;
    } else {
      var n := |b| - 1;
      assert (a + b)[..|a| + n] == a + b[..n];
      FailuresConcat(a, b[..n]);
    }
  }

  lemma {:induction false} FailingEnd(w: seq<bool>, m: nat)
    requires m <= |w| && forall i :: |w| - m <= i < |w| ==> w[i]
    ensures Failures(w) >= m
  {
    if m > 0 { FailingEnd(w[..|w| - 1], m - 1); }
  }

  lemma FailingSuffixCounts(s: seq<bool>, k: nat, cap: nat)
    requires k <= |s| && forall i :: |s| - k <= i < |s| ==> s[i]
    ensures var w := LastN(s, cap); Failures(w) >= if k <= |w| then k else |w|
  {
    hide Failures;
    var w := LastN(s, cap);
    FailingEnd(w, if k <= |w| then k else |w|);
  }

  lemma ProductMonotone(t: real, x: real, y: real)
    requires t >= 0.0 && x <= y
    ensures t * x <= t * y
  {
    var d := y - x;
    assert t * d >= 0.0;
    assert t * y == t * x + t * d;
  }

  lemma ShareBelowWhole(t: real, x: real)
    requires t < 1.0 && x > 0.0
    ensures t * x < x
  {
    var u := 1.0 - t;
    assert u * x > 0.0;
    assert t * x + u * x == (t + u) * x == x;
  }

  lemma RateExceeded(m: real, n: real, k: real, cap: real, threshold: real)
    requires 0.0 < threshold < 1.0 && 0.0 < n <= cap && m == (if k <= n then k else n)
    requires k > threshold * cap
    ensures m > threshold * n
  {
    ProductMonotone(threshold, n, cap);
    ShareBelowWhole(threshold, n);
  }

  /**
   * A window ending in `k` failures exceeds any threshold below 1 as soon as
   * `k >= minSamples` and `k > threshold * cap`.
   */
  lemma FailingSuffixExceeds(s: seq<bool>, k: nat, cap: nat, minSamples: nat, threshold: real)
    requires 0.0 < threshold < 1.0 && 1 <= minSamples <= cap
    requires k <= |s| && forall i :: |s| - k <= i < |s| ==> s[i]
    requires k >= minSamples && k as real > threshold * (cap as real)
    ensures Exceeds(LastN(s, cap), minSamples, threshold)
  {
    hide Failures;
    var n := |LastN(s, cap)|;
    FailingSuffixCounts(s, k, cap);
    var m := if k <= n then k else n;
    RateExceeded(m as real, n as real, k as real, cap as real, threshold);
  }

  /** With the threshold at its maximum the failure rate can never be exceeded. */
  lemma ThresholdOneNeverExceeded(w: seq<bool>, minSamples: nat, threshold: real)
    requires threshold >= 1.0
    ensures !Exceeds(w, minSamples, threshold)
  {
    assert threshold * (|w| as real) >= |w| as real by {
      assert (threshold - 1.0) * (|w| as real) >= 0.0;
    }
  }

  /** `sum(window)`. */
  method CountFailures(w: seq<bool>) returns (n: nat)
    ensures n == Failures(w)
  {
    n := 0;
    for i := 0 to |w|
      invariant n == Failures(w[..i])
    {
      assert w[..i + 1][..i] == w[..i];
      if w[i] { n := n + 1; }
    }
    assert w[..|w|] == w;
  }

  lemma RateForms(n: nat, len: nat, threshold: real)
    requires len > 0
    ensures n as real / len as real > threshold <==> n as real > threshold * (len as real)
  {
    var q, l := n as real / len as real, len as real;
    assert q * l == n as real;
    assert (q - threshold) * l == n as real - threshold * l;
    assert q > threshold ==> (q - threshold) * l > 0.0;
    assert q <= threshold ==> (q - threshold) * l <= 0.0;
  }
}

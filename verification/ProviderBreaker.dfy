/** The rate breaker of a sweep and the persisted escalation of its cooldowns. */
module ProviderBreaker {
  import opened Basics
  import opened RollingWindow
  import opened SweepModel

  // ------------------------------------------------------------------ the verdict of one call

  /** The verdict as a function of the health signals alone. */
  predicate SignalTripped(p: Plan, sig: seq<bool>) {
    exists k :: 0 < k <= |sig| && Exceeds(LastN(sig[..k], p.window), p.minSamples, p.threshold)
  }

  /** One more signal adds one more window to judge. */
  lemma SignalStep(p: Plan, sig: seq<bool>, x: bool)
    ensures SignalTripped(p, sig + [x]) <==>
            SignalTripped(p, sig) || Exceeds(LastN(sig + [x], p.window), p.minSamples, p.threshold)
  {
    hide Exceeds, LastN;
    var sig' := sig + [x];
    assert sig'[..|sig'|] == sig';
    if SignalTripped(p, sig) {
      var k :| 0 < k <= |sig| && Exceeds(LastN(sig[..k], p.window), p.minSamples, p.threshold);
      assert sig'[..k] == sig[..k];
    }
    if SignalTripped(p, sig') {
      var k :| 0 < k <= |sig'| && Exceeds(LastN(sig'[..k], p.window), p.minSamples, p.threshold);
      if k <= |sig| { assert sig'[..k] == sig[..k]; }
    }
  }

  /** Missing tiles and storage outcomes never influence the breaker; and once tripped it stays so. */
  lemma {:induction false} VerdictDependsOnSignalsOnly(p: Plan, os: seq<Outcome>)
    ensures Tripped(p, os) <==> SignalTripped(p, Signals(os))
  {
    hide Exceeds, LastN;
    if os != [] {
      var init, o := os[..|os| - 1], os[|os| - 1];
      VerdictDependsOnSignalsOnly(p, init);
      SignalStep(p, Signals(init), o == Unavailable);
      assert !IsSignal(o) ==> Signals(os) == Signals(init);
      hide SignalTripped;
    }
  }

  /** A stored tile and an unavailable one are the only outcomes the breaker hears. */
  lemma OnlyFetchesCount(p: Plan, os: seq<Outcome>, o: Outcome)
    ensures o == Missing || o == StorageError || o == StorageSkipped ==>
              Signals(os + [o]) == Signals(os) && Tripped(p, os + [o]) == Tripped(p, os)
    ensures o == Ok ==> Signals(os + [o]) == Signals(os) + [false]
    ensures o == Unavailable ==> Signals(os + [o]) == Signals(os) + [true]
  {
    assert (os + [o])[..|os|] == os;
    assert Signals(os) + [] == Signals(os);
  }

  /** `k` failed fetches in a row are enough for a threshold below 1. */
  predicate Enough(p: Plan, k: nat) {
    k >= p.minSamples && k as real > p.threshold * (p.window as real)
  }

  /**
   * From any history, the breaker trips no later than the `k`-th consecutive failed fetch, for
   * every `k` at least the minimum sample count and above threshold times window.
   */
  lemma TripsWithinBound(p: Plan, os: seq<Outcome>, k: nat)
    requires ValidPlan(p) && p.threshold < 1.0 && Enough(p, k)
    requires var sig := Signals(os); k <= |sig| && forall i :: |sig| - k <= i < |sig| ==> sig[i]
    ensures Tripped(p, os)
  {
    var sig := Signals(os);
    FailingSuffixExceeds(sig, k, p.window, p.minSamples, p.threshold);
    assert sig[..|sig|] == sig;
    VerdictDependsOnSignalsOnly(p, os);
  }

  /** The bound is reachable: max(min_samples, floor(threshold * window) + 1) is enough, and within the window. */
  lemma BoundIsEnough(p: Plan)
    requires ValidPlan(p) && p.threshold < 1.0
    ensures var f := (p.threshold * (p.window as real)).Floor + 1;
            var k := if f < p.minSamples then p.minSamples else f;
            0 < k <= p.window && Enough(p, k)
  {
    var y := p.threshold * (p.window as real);
    StrictShare(p.threshold, p.window as real, y);
    FirstAbove(y, p.window, p.minSamples);
  }

  lemma FirstAbove(y: real, w: nat, min: nat)
    requires 0.0 < y < w as real && 1 <= min <= w
    ensures var f := y.Floor + 1; var k := if f < min then min else f; 0 < k <= w && k >= min && k as real > y
  {}

  lemma StrictShare(t: real, x: real, y: real)
    requires 0.0 < t < 1.0 && x > 0.0 && y == t * x
    ensures 0.0 < y < x
  {
    var u := 1.0 - t;
    var rest := u * x;
    assert rest > 0.0;
    assert y + rest == x;
  }

  /** A threshold of 1, which the settings accept, switches the breaker off. */
  lemma ThresholdOneNeverTrips(p: Plan, os: seq<Outcome>)
    requires p.threshold >= 1.0
    ensures !Tripped(p, os)
  {
    VerdictDependsOnSignalsOnly(p, os);
    var sig := Signals(os);
    forall k | 0 < k <= |sig| ensures !Exceeds(LastN(sig[..k], p.window), p.minSamples, p.threshold) {
      ThresholdOneNeverExceeded(LastN(sig[..k], p.window), p.minSamples, p.threshold);
    }
  }

  // ------------------------------------------------------------------ escalation across calls

  /** Tiles stored by the call that is running at the end of the log. */
  function DownloadsOfCall(log: seq<Action>): nat {
    if log == [] || log[|log| - 1].Begin? then 0
    else
      var a := log[|log| - 1];
      DownloadsOfCall(log[..|log| - 1]) + (if (a.Retry? || a.Complete?) && a.o == Ok then 1 else 0)
  }

  /** The trip count as the log defines it: progress restarts it, a clean sweep clears it, nothing else counts. */
  function TripCount(log: seq<Action>): nat {
    if log == [] then 0
    else
      var init := log[..|log| - 1];
      match log[|log| - 1]
      case Trip(_) => if DownloadsOfCall(init) > 0 then 1 else TripCount(init) + 1
      case CloseHealth => 0
      case _ => TripCount(init)
  }

  lemma DownloadsStep(p: Plan, s: State, a: Action)
    requires Enabled(p, s, a) && Apply(p, s, a).run.Some?
    ensures var n := if a.Begin? then 0 else Downloads(s.run.value.consumed);
            Downloads(Apply(p, s, a).run.value.consumed)
            == n + (if (a.Retry? || a.Complete?) && a.o == Ok then 1 else 0)
  {
    hide Tripped, StorageErrors, Signals;
    if a.Retry? || a.Complete? {
      var os := s.run.value.consumed;
      assert (os + [a.o])[..|os|] == os;
    }
  }

  lemma {:induction false} DownloadsMatchLog(p: Plan, log: seq<Action>)
    requires ValidLog(p, log) && After(p, log).run.Some?
    ensures Downloads(After(p, log).run.value.consumed) == DownloadsOfCall(log)
  {
    hide Apply, Downloads;
    if log != [] {
      var init, a := log[..|log| - 1], log[|log| - 1];
      DownloadsStep(p, After(p, init), a);
      if !a.Begin? { DownloadsMatchLog(p, init); }
    }
  }

  function StoredTrips(s: State): nat { if s.db.health.Some? then s.db.health.value.trips else 0 }

  lemma TripsStep(p: Plan, s: State, a: Action)
    requires Enabled(p, s, a)
    ensures StoredTrips(Apply(p, s, a)) ==
            match a
            case Trip(_) => if Downloads(s.run.value.consumed) > 0 then 1 else StoredTrips(s) + 1
            case CloseHealth => 0
            case _ => StoredTrips(s)
  {
    hide Tripped, StorageErrors, Signals, Downloads;
  }

  /** After every run with restarts the stored trip count is the one the log defines. */
  lemma {:induction false} StoredTripsMatchLog(p: Plan, log: seq<Action>)
    requires ValidLog(p, log)
    ensures TripCount(log) == StoredTrips(After(p, log))
  {
    if log != [] {
      var init, a := log[..|log| - 1], log[|log| - 1];
      TripsStep(p, After(p, init), a);
      StoredTripsMatchLog(p, init);
      if a.Trip? { DownloadsMatchLog(p, init); }
      hide Apply, Downloads, StoredTrips, DownloadsOfCall;
    }
  }

  /** Cooldowns never shrink as trips accumulate and stay within the schedule. */
  lemma CooldownMonotone(s: seq<int>, m: int, n: int)
    requires ValidSchedule(s) && m <= n
    ensures 0 < s[0] <= Cooldown(s, m) <= Cooldown(s, n) <= s[|s| - 1]
    ensures 1 <= n <= |s| ==> Cooldown(s, n) == s[n - 1]
    ensures n >= |s| ==> Cooldown(s, n) == s[|s| - 1]
  {}

  predicate WritesHealth(a: Action) { a.Trip? || a == CloseHealth }

  /** A cooldown opened at position `k` still stands as long as no later action rewrites it. */
  lemma {:induction false} CooldownSurvives(p: Plan, log: seq<Action>, k: nat)
    requires ValidLog(p, log) && k < |log| && log[k].Trip?
    requires forall m :: k < m < |log| ==> !WritesHealth(log[m])
    ensures var h := After(p, log).db.health;
            h.Some? && h.value.cooldownUntil == log[k].now + Cooldown(p.schedule, TripCount(log[..k + 1]))
  {
    var n := |log| - 1;
    if k == n {
      assert log[..k + 1] == log;
      StoredTripsMatchLog(p, log);
    } else {
      CooldownSurvives(p, log[..n], k);
      assert log[..n][..k + 1] == log[..k + 1];
    }
  }

  /** No call starts before the cooldown opened by the latest trip has run out, restarts included. */
  lemma NoSweepDuringCooldown(p: Plan, log: seq<Action>, k: nat, now: int)
    requires ValidLog(p, log) && k < |log| && log[k].Trip?
    requires forall m :: k < m < |log| ==> !WritesHealth(log[m])
    requires Enabled(p, After(p, log), Begin(now))
    ensures now >= log[k].now + Cooldown(p.schedule, TripCount(log[..k + 1]))
  {
    CooldownSurvives(p, log, k);
  }

  // ------------------------------------------------------------------ the interval between sweeps

  /** A completion stamp stands until the next one. */
  lemma {:induction false} StampSurvives(p: Plan, log: seq<Action>, k: nat)
    requires ValidLog(p, log) && k < |log| && log[k].Stamp?
    requires forall m :: k < m < |log| ==> !log[m].Stamp?
    ensures After(p, log).db.lastCompleted == Some(log[k].now)
  {
    hide Tripped, StorageErrors, Signals, Downloads;
    if k < |log| - 1 { StampSurvives(p, log[..|log| - 1], k); }
  }

  /** A new sweep starts no earlier than the interval after the latest completion. */
  lemma NoEarlyRescan(p: Plan, log: seq<Action>, k: nat, now: int)
    requires ValidLog(p, log) && k < |log| && log[k].Stamp?
    requires forall m :: k < m < |log| ==> !log[m].Stamp?
    requires After(p, log).db.cursor.None? && Enabled(p, After(p, log), Begin(now))
    ensures now >= log[k].now + p.interval
  {
    StampSurvives(p, log, k);
  }
}

/** The exponential-backoff circuit around a shared storage backend. */
module StorageCircuit {
  import opened Basics
  import opened RollingWindow

  datatype Settings = Settings(
    window: nat, minSamples: nat, threshold: real, base: real, max: real, maxTrips: nat)

  ghost predicate ValidSettings(c: Settings) {
    1 <= c.minSamples <= c.window && c.base > 0.0 && c.max > 0.0
  }

  /** A state change worth one log line. */
  datatype Transition =
    | Opened(cooldown: real, failures: nat)
    | ProbeFailed(cooldown: real, failures: nat)
    | Recovered(failures: nat, downtime: real)

  /** The circuit's fields as a value. */
  datatype State = State(
    recent: seq<bool>, openUntil: real, cooldown: real, trips: nat, failures: nat, openedAt: real)

  /**
   * One report of a write's outcome. The code reads the clock once to judge the probe window and
   * again to arm the cooldown: `at` and `armed`.
   */
  datatype Report = Report(ok: bool, at: real, armed: real)

  predicate IsOpen(s: State) { s.openUntil > 0.0 }

  predicate InProbeWindow(s: State, now: real) { IsOpen(s) && now >= s.openUntil }

  function Initial(c: Settings): State { State([], 0.0, c.base, 0, 0, 0.0) }

  function Step(c: Settings, s: State, r: Report): (State, Option<Transition>) {
    if r.ok then
      if IsOpen(s) then
        if InProbeWindow(s, r.at)
        then (Initial(c), Some(Recovered(s.failures, r.armed - s.openedAt)))
        else (s, None)
      else (s.(recent := Push(s.recent, false, c.window)), None)
    else
      var f := s.failures + 1;
      if IsOpen(s) then
        if InProbeWindow(s, r.at)
        then
          var cooldown := if s.cooldown * 2.0 < c.max then s.cooldown * 2.0 else c.max;
          (s.(trips := s.trips + 1, cooldown := cooldown, openUntil := r.armed + cooldown, failures := f),
           Some(ProbeFailed(cooldown, f)))
        else (s.(failures := f), None)
      else
        var recent := Push(s.recent, true, c.window);
        if Exceeds(recent, c.minSamples, c.threshold)
        then (State([], r.armed + c.base, c.base, 0, Failures(recent), r.armed),
              Some(Opened(c.base, Failures(recent))))
        else (s.(recent := recent, failures := f), None)
  }

  function After(c: Settings, rs: seq<Report>): State {
    if rs == [] then Initial(c) else Step(c, After(c, rs[..|rs| - 1]), rs[|rs| - 1]).0
  }

  /** The transitions the reports returned, in order. */
  function Trace(c: Settings, rs: seq<Report>): seq<Transition> {
    if rs == [] then []
    else
      var t := Step(c, After(c, rs[..|rs| - 1]), rs[|rs| - 1]).1;
      Trace(c, rs[..|rs| - 1]) + (if t.Some? then [t.value] else [])
  }

  /** The clock never runs backwards, within a report or between two. */
  ghost predicate Clocked(rs: seq<Report>) {
    && (forall i :: 0 <= i < |rs| ==> 0.0 <= rs[i].at <= rs[i].armed)
    && forall i, j :: 0 <= i < j < |rs| ==> rs[i].armed <= rs[j].at
  }

  // ------------------------------------------------------------------ the backoff schedule

  /** The cooldown after `k` failed probes. */
  function CooldownAt(c: Settings, k: nat): real {
    if k == 0 then c.base
    else if c.base * Power(2.0, k) < c.max then c.base * Power(2.0, k) else c.max
  }

  /** The first `n` cooldowns together. */
  function Backoff(c: Settings, n: nat): real {
    if n == 0 then 0.0 else Backoff(c, n - 1) + CooldownAt(c, n - 1)
  }

  lemma CooldownDoubles(c: Settings, k: nat)
    requires ValidSettings(c)
    ensures var d := CooldownAt(c, k) * 2.0; CooldownAt(c, k + 1) == (if d < c.max then d else c.max)
    ensures CooldownAt(c, k) > 0.0
  {
    PowerAtLeastOne(2.0, k);
    assert c.base * Power(2.0, k) > 0.0;
    assert c.base * Power(2.0, k + 1) == c.base * Power(2.0, k) * 2.0;
  }

  /** The schedule is the capped power of two, except that an opening with a base above the maximum is not capped. */
  lemma CooldownIsCappedPower(c: Settings, k: nat)
    requires ValidSettings(c)
    ensures CooldownAt(c, k) == MinR(c.base * Power(2.0, k), c.max) <==> k > 0 || c.base <= c.max
  {
    var y := c.base * Power(2.0, k);
    if k == 0 {
      assert Power(2.0, k) == 1.0;
      assert y == c.base;
      assert CooldownAt(c, k) == c.base;
      assert MinR(y, c.max) == c.base <==> c.base <= c.max;
    } else {
      assert CooldownAt(c, k) == MinR(y, c.max);
    }
  }

  /** One failed write, with one sample enough and a base of 1 above a maximum of a half, opens uncapped. */
  lemma OpensAboveMaximum()
    ensures var c, rs := Settings(20, 1, 0.8, 1.0, 0.5, 6), [Report(false, 5.0, 5.0)];
            ValidSettings(c) && Clocked(rs) && IsOpen(After(c, rs)) && After(c, rs).cooldown == 1.0 > c.max
  {
    var c, r := Settings(20, 1, 0.8, 1.0, 0.5, 6), Report(false, 5.0, 5.0);
    assert [r][..0] == [] && After(c, []) == Initial(c);
    assert Push([], true, 20) == [true] && Failures([true]) == 1;
  }

  /** What an open circuit's fields are worth at any moment. */
  ghost predicate OnSchedule(c: Settings, s: State) {
    if IsOpen(s) then
      && s.cooldown == CooldownAt(c, s.trips)
      && s.openUntil >= s.openedAt + Backoff(c, s.trips + 1)
      && s.openedAt >= 0.0
    else s.trips == 0 && s.cooldown == c.base
  }

  lemma StepStaysOnSchedule(c: Settings, s: State, r: Report)
    requires ValidSettings(c) && OnSchedule(c, s) && 0.0 <= r.at <= r.armed
    ensures OnSchedule(c, Step(c, s, r).0)
  {
    CooldownDoubles(c, s.trips);
    assert Backoff(c, 1) == c.base;
  }

  /** Whatever the interleaving of reports, stragglers included, the backoff stays on schedule. */
  lemma {:induction false} AlwaysOnSchedule(c: Settings, rs: seq<Report>)
    requires ValidSettings(c) && Clocked(rs)
    ensures OnSchedule(c, After(c, rs))
  {
    if rs != [] {
      AlwaysOnSchedule(c, rs[..|rs| - 1]);
      StepStaysOnSchedule(c, After(c, rs[..|rs| - 1]), rs[|rs| - 1]);
    }
  }

  predicate Exhausted(c: Settings, s: State) { s.trips >= c.maxTrips }

  /** Giving up is never premature: the report that exhausts the probes comes after every scheduled pause. */
  lemma ExhaustedOnlyAfterBackoff(c: Settings, rs: seq<Report>, r: Report)
    requires ValidSettings(c) && Clocked(rs + [r])
    requires !Exhausted(c, After(c, rs)) && Exhausted(c, Step(c, After(c, rs), r).0)
    ensures r.at >= OutageStart(c, rs) + Backoff(c, c.maxTrips)
  {
    hide Step, CooldownAt, Backoff, OutageStart;
    PrefixIsClocked(rs, r);
    AlwaysOnSchedule(c, rs);
    OnlyAProbeExhausts(c, After(c, rs), r);
    OpenedAtMatchesReports(c, rs);
  }

  lemma OnlyAProbeExhausts(c: Settings, s: State, r: Report)
    requires ValidSettings(c) && OnSchedule(c, s) && !Exhausted(c, s) && Exhausted(c, Step(c, s, r).0)
    ensures IsOpen(s) && s.trips + 1 == c.maxTrips && r.at >= s.openedAt + Backoff(c, c.maxTrips)
  {
    hide Exceeds, Failures, CooldownAt, Backoff;
  }

  /** At the defaults that is 61 seconds. */
  lemma DefaultBackoffIs61()
    ensures var c := Settings(20, 10, 0.8, 1.0, 30.0, 6); ValidSettings(c) && Backoff(c, c.maxTrips) == 61.0
  {
    var c := Settings(20, 10, 0.8, 1.0, 30.0, 6);
    assert Power(2.0, 1) == 2.0 && Power(2.0, 2) == 4.0 && Power(2.0, 3) == 8.0;
    assert Power(2.0, 4) == 16.0 && Power(2.0, 5) == 32.0;
    assert Backoff(c, 3) == 7.0;
    assert Backoff(c, 5) == 31.0;
  }

  // ------------------------------------------------------------------ whole traces

  /** (Opened ProbeFailed* Recovered)* and its prefixes, read by a two-state automaton. */
  predicate Follows(ts: seq<Transition>) {
    ts == [] || (Follows(ts[..|ts| - 1]) && ts[|ts| - 1].Opened? == !EndsOpen(ts[..|ts| - 1]))
  }

  predicate EndsOpen(ts: seq<Transition>) { ts != [] && !ts[|ts| - 1].Recovered? }

  /** A report's transition, if any, says where the circuit was and where it is. */
  lemma TransitionTellsPosition(c: Settings, s: State, r: Report)
    requires ValidSettings(c) && OnSchedule(c, s) && 0.0 <= r.at <= r.armed
    ensures var (s', t) := Step(c, s, r);
            if t.None? then IsOpen(s') == IsOpen(s)
            else t.value.Opened? == !IsOpen(s) && t.value.Recovered? == !IsOpen(s')
  {
    hide Exceeds, Failures, CooldownAt, Backoff;
    CooldownDoubles(c, s.trips);
  }

  lemma {:induction false} TraceFollows(c: Settings, rs: seq<Report>)
    requires ValidSettings(c) && Clocked(rs)
    ensures Follows(Trace(c, rs)) && EndsOpen(Trace(c, rs)) == IsOpen(After(c, rs))
  {
    if rs != [] {
      var init := rs[..|rs| - 1];
      TraceFollows(c, init);
      AlwaysOnSchedule(c, init);
      hide Step, OnSchedule;
      TransitionTellsPosition(c, After(c, init), rs[|rs| - 1]);
      var ts, t := Trace(c, init), Step(c, After(c, init), rs[|rs| - 1]).1;
      if t.Some? { assert (ts + [t.value])[..|ts|] == ts; } else { assert ts + [] == ts; }
    }
  }

  /** Outcomes reported since the circuit was last closed; none while it is open. True is a failure. */
  function SinceClosed(c: Settings, rs: seq<Report>): seq<bool> {
    if rs == [] then []
    else
      var init, r := rs[..|rs| - 1], rs[|rs| - 1];
      if IsOpen(After(c, init)) || IsOpen(After(c, rs)) then [] else SinceClosed(c, init) + [!r.ok]
  }

  /** What one report does to the window, by the circuit's position before and after it. */
  lemma WindowStep(c: Settings, s: State, r: Report)
    requires ValidSettings(c) && 0.0 <= r.at <= r.armed && (IsOpen(s) ==> s.recent == [])
    ensures var s' := Step(c, s, r).0;
            s'.recent == if IsOpen(s) || IsOpen(s') then [] else Push(s.recent, !r.ok, c.window)
  {}

  /** The rolling window is the tail of those outcomes. */
  lemma {:induction false} WindowIsRecentReports(c: Settings, rs: seq<Report>)
    requires ValidSettings(c) && Clocked(rs)
    ensures After(c, rs).recent == LastN(SinceClosed(c, rs), c.window)
  {
    if rs != [] {
      hide Step, Exceeds, Failures;
      var init, r := rs[..|rs| - 1], rs[|rs| - 1];
      WindowIsRecentReports(c, init);
      assert IsOpen(After(c, init)) ==> SinceClosed(c, init) == [];
      WindowStep(c, After(c, init), r);
      PushKeepsLast(SinceClosed(c, init), !r.ok, c.window);
    }
  }

  /**
   * The failures of the current outage, read off the reports: those in the window that opened it,
   * and every failure reported since.
   */
  function OutageFailures(c: Settings, rs: seq<Report>): nat {
    if rs == [] || !IsOpen(After(c, rs)) then 0
    else
      var init, r := rs[..|rs| - 1], rs[|rs| - 1];
      if IsOpen(After(c, init)) then OutageFailures(c, init) + (if r.ok then 0 else 1)
      else Failures(LastN(SinceClosed(c, init) + [true], c.window))
  }

  lemma {:induction false} FailuresMatchReports(c: Settings, rs: seq<Report>)
    requires ValidSettings(c) && Clocked(rs) && IsOpen(After(c, rs))
    ensures After(c, rs).failures == OutageFailures(c, rs)
  {
    if rs != [] {
      var init := rs[..|rs| - 1];
      if IsOpen(After(c, init)) {
        FailuresMatchReports(c, init);
      } else {
        WindowIsRecentReports(c, init);
        PushKeepsLast(SinceClosed(c, init), true, c.window);
      }
    }
  }

  /** When the current outage began: the arming time of the report that opened the circuit. */
  function OutageStart(c: Settings, rs: seq<Report>): real {
    if rs == [] || !IsOpen(After(c, rs)) then 0.0
    else if IsOpen(After(c, rs[..|rs| - 1])) then OutageStart(c, rs[..|rs| - 1])
    else rs[|rs| - 1].armed
  }

  lemma {:induction false} OpenedAtMatchesReports(c: Settings, rs: seq<Report>)
    requires IsOpen(After(c, rs))
    ensures After(c, rs).openedAt == OutageStart(c, rs)
  {
    if rs != [] && IsOpen(After(c, rs[..|rs| - 1])) { OpenedAtMatchesReports(c, rs[..|rs| - 1]); }
  }

  /** The count reported on recovery is conserved: opening window plus everything since. */
  lemma RecoveryReportsEveryFailure(c: Settings, rs: seq<Report>, r: Report)
    requires ValidSettings(c) && Clocked(rs + [r])
    requires var t := Step(c, After(c, rs), r).1; t.Some? && t.value.Recovered?
    ensures var t := Step(c, After(c, rs), r).1.value;
            t.failures == OutageFailures(c, rs) && t.downtime == r.armed - OutageStart(c, rs)
  {
    PrefixIsClocked(rs, r);
    FailuresMatchReports(c, rs);
    OpenedAtMatchesReports(c, rs);
  }

  /** A report outside the probe window of an open circuit changes nothing but the failure count. */
  lemma StragglersOnlyCount(c: Settings, s: State, r: Report)
    requires IsOpen(s) && !InProbeWindow(s, r.at)
    ensures Step(c, s, r) == (s.(failures := if r.ok then s.failures else s.failures + 1), None)
  {}

  // ------------------------------------------------------------------ when it opens, when it closes

  lemma PrefixIsClocked(rs: seq<Report>, r: Report)
    requires Clocked(rs + [r])
    ensures Clocked(rs) && 0.0 <= r.at <= r.armed
  {
    var rs' := rs + [r];
    assert forall i :: 0 <= i < |rs| ==> rs'[i] == rs[i];
    assert rs'[|rs|] == r;
  }

  /** A closed circuit opens on a report exactly when it failed and the window it completes is over the threshold. */
  lemma OpensExactly(c: Settings, rs: seq<Report>, r: Report)
    requires ValidSettings(c) && Clocked(rs + [r]) && !IsOpen(After(c, rs))
    ensures var w, s' := LastN(SinceClosed(c, rs) + [true], c.window), Step(c, After(c, rs), r).0;
            && (IsOpen(s') <==> !r.ok && |w| >= c.minSamples && multiset(w)[true] as real / |w| as real > c.threshold)
            && (IsOpen(s') ==> s'.openUntil == r.armed + c.base && s'.openedAt == r.armed)
  {
    PrefixIsClocked(rs, r);
    WindowIsRecentReports(c, rs);
    PushKeepsLast(SinceClosed(c, rs), true, c.window);
    ExceedsMeans(LastN(SinceClosed(c, rs) + [true], c.window), c.minSamples, c.threshold);
    hide Exceeds, SinceClosed, After, Failures, Push, LastN;
  }

  /**
   * A report in the probe window of an open circuit decides: a success closes it, a failure keeps it
   * open for the next cooldown of the schedule.
   */
  lemma ProbeDecides(c: Settings, rs: seq<Report>, r: Report)
    requires ValidSettings(c) && Clocked(rs + [r]) && IsOpen(After(c, rs)) && r.at >= After(c, rs).openUntil
    ensures var s, (s', t) := After(c, rs), Step(c, After(c, rs), r);
            if r.ok then !IsOpen(s') && t.Some? && t.value.Recovered?
            else
              && IsOpen(s') && s'.trips == s.trips + 1 && s'.openUntil == r.armed + CooldownAt(c, s.trips + 1)
              && t.Some? && t.value.ProbeFailed? && t.value.cooldown == CooldownAt(c, s.trips + 1)
  {
    PrefixIsClocked(rs, r);
    AlwaysOnSchedule(c, rs);
    CooldownDoubles(c, After(c, rs).trips);
    CooldownDoubles(c, After(c, rs).trips + 1);
    hide Exceeds, After, CooldownAt, Backoff, Clocked, Failures, Push;
  }

  /** The failed probes that end a trace. */
  function TrailingProbes(ts: seq<Transition>): nat {
    if ts == [] || !ts[|ts| - 1].ProbeFailed? then 0 else TrailingProbes(ts[..|ts| - 1]) + 1
  }

  /** When the circuit was last opened or kept open: the arming time of that report. */
  function ArmedAt(c: Settings, rs: seq<Report>): real {
    if rs == [] then 0.0
    else if Step(c, After(c, rs[..|rs| - 1]), rs[|rs| - 1]).1.Some? then rs[|rs| - 1].armed
    else ArmedAt(c, rs[..|rs| - 1])
  }

  lemma ArmingStep(c: Settings, s: State, r: Report)
    requires ValidSettings(c) && OnSchedule(c, s) && 0.0 <= r.at <= r.armed && IsOpen(Step(c, s, r).0)
    ensures var (s', t) := Step(c, s, r);
            if t.None? then IsOpen(s) && s'.trips == s.trips && s'.openUntil == s.openUntil
            else
              && s'.openUntil == r.armed + CooldownAt(c, s'.trips)
              && s'.trips == (if t.value.ProbeFailed? then s.trips + 1 else 0)
              && (t.value.ProbeFailed? <==> IsOpen(s))
  {
    CooldownDoubles(c, s.trips);
    assert CooldownAt(c, 0) == c.base;
    hide Exceeds, Failures, CooldownAt, Backoff, Push;
  }

  /** An open circuit's trips are the failed probes since it opened, and it admits a probe one cooldown after the last. */
  lemma {:induction false} OpenUntilIsExact(c: Settings, rs: seq<Report>)
    requires ValidSettings(c) && Clocked(rs) && IsOpen(After(c, rs))
    ensures After(c, rs).trips == TrailingProbes(Trace(c, rs))
    ensures After(c, rs).openUntil == ArmedAt(c, rs) + CooldownAt(c, After(c, rs).trips)
  {
    if rs != [] {
      var init, r := rs[..|rs| - 1], rs[|rs| - 1];
      AlwaysOnSchedule(c, init);
      ArmingStep(c, After(c, init), r);
      var ts, t := Trace(c, init), Step(c, After(c, init), r).1;
      if t.Some? { assert (ts + [t.value])[..|ts|] == ts; } else { assert ts + [] == ts; }
      if IsOpen(After(c, init)) { OpenUntilIsExact(c, init); }
      hide Step, OnSchedule, CooldownAt, Clocked;
    }
  }

  lemma FiguresStep(c: Settings, s: State, r: Report)
    requires ValidSettings(c) && OnSchedule(c, s) && 0.0 <= r.at <= r.armed
    ensures var (s', t) := Step(c, s, r);
            t.Some? && !t.value.Recovered? ==>
              && IsOpen(s') && t.value.failures == s'.failures
              && t.value.cooldown == if t.value.Opened? then c.base else CooldownAt(c, s.trips + 1)
  {
    CooldownDoubles(c, s.trips);
    CooldownDoubles(c, s.trips + 1);
    hide Exceeds, Failures, CooldownAt, Backoff, Push;
  }

  /** The figures a transition carries are those of the outage it belongs to. */
  lemma TransitionReports(c: Settings, rs: seq<Report>, r: Report)
    requires ValidSettings(c) && Clocked(rs + [r])
    requires var t := Step(c, After(c, rs), r).1; t.Some? && !t.value.Recovered?
    ensures var t := Step(c, After(c, rs), r).1.value;
            && t.failures == OutageFailures(c, rs + [r])
            && t.cooldown == if t.Opened? then c.base else CooldownAt(c, After(c, rs).trips + 1)
  {
    PrefixIsClocked(rs, r);
    AlwaysOnSchedule(c, rs);
    FiguresStep(c, After(c, rs), r);
    assert (rs + [r])[..|rs|] == rs && (rs + [r])[|rs|] == r;
    assert After(c, rs + [r]) == Step(c, After(c, rs), r).0;
    hide Step, OnSchedule, OutageFailures, CooldownAt, Clocked, After;
    FailuresMatchReports(c, rs + [r]);
  }

  // ------------------------------------------------------------------ the circuit in place

  class Circuit {
    const c: Settings
    var recent: seq<bool>
    var openUntil: real
    var cooldown: real
    var trips: nat
    var failures: nat
    var openedAt: real

    ghost function View(): State
      reads this
    {
      State(recent, openUntil, cooldown, trips, failures, openedAt)
    }

    constructor (c: Settings)
      ensures this.c == c && View() == Initial(c)
    {
      this.c := c;
      recent, openUntil, cooldown, trips, failures, openedAt := [], 0.0, c.base, 0, 0, 0.0;
    }

    /** Seconds until the next probe is admitted. */
    function CooldownRemaining(now: real): (left: real)
      reads this
      ensures left >= 0.0
      ensures left == 0.0 <==> AllowsWrite(now)
      ensures left > 0.0 ==> now + left == openUntil && AllowsWrite(now + left)
    {
      if openUntil > 0.0 && openUntil - now > 0.0 then openUntil - now else 0.0
    }

    /** A write is admitted exactly when its report will not be a straggler's. */
    predicate AllowsWrite(now: real)
      reads this
      ensures AllowsWrite(now) <==> !IsOpen(View()) || InProbeWindow(View(), now)
    {
      !(openUntil > 0.0) || now >= openUntil
    }

    method Observe(failed: bool)
      modifies this`recent
      ensures recent == Push(old(recent), failed, c.window)
    {
      recent := recent + [failed];
      if |recent| > c.window { recent := recent[1..]; }
    }

    method ShouldOpen() returns (b: bool)
      requires ValidSettings(c)
      ensures b == Exceeds(recent, c.minSamples, c.threshold)
    {
      if |recent| < c.minSamples { return false; }
      var n := CountFailures(recent);
      RateForms(n, |recent|, c.threshold);
      b := n as real / |recent| as real > c.threshold;
    }

    method RecordSuccess(at: real, armed: real) returns (t: Option<Transition>)
      modifies this
      ensures (View(), t) == Step(c, old(View()), Report(true, at, armed))
    {
      if openUntil > 0.0 {
        if at >= openUntil {
          t := Some(Recovered(failures, armed - openedAt));
          recent, openUntil, cooldown, trips, failures, openedAt := [], 0.0, c.base, 0, 0, 0.0;
        } else {
          t := None;
        }
        return;
      }
      Observe(false);
      t := None;
    }

    method RecordFailure(at: real, armed: real) returns (t: Option<Transition>)
      requires ValidSettings(c)
      modifies this
      ensures (View(), t) == Step(c, old(View()), Report(false, at, armed))
    {
      failures := failures + 1;
      t := None;
      if openUntil > 0.0 {
        if at >= openUntil {
          trips := trips + 1;
          cooldown := if cooldown * 2.0 < c.max then cooldown * 2.0 else c.max;
          openUntil := armed + cooldown;
          t := Some(ProbeFailed(cooldown, failures));
        }
        return;
      }
      Observe(true);
      var opens := ShouldOpen();
      if opens {
        var n := CountFailures(recent);
        cooldown := c.base;
        openUntil, openedAt := armed + cooldown, armed;
        trips, failures, recent := 0, n, [];
        t := Some(Opened(cooldown, n));
      }
    }
  }
}

/**
 * The history a state carries, read off the log of the run, and what it says about a sweep.
 *
 * A position of the log belongs to the last sweep when no later call starts without a cursor.
 */
module SweepHistory {
  import opened Basics
  import opened TileGrid
  import opened SweepModel
  import opened SweepSafety

  // ------------------------------------------------------------------ marks on tiles

  /** An action that gives tile `t` an outcome, in the state it is taken from. */
  predicate Answers(p: Plan, s: State, a: Action, t: Tile) {
    (a.Retry? && a.t == t) || (a.Complete? && s.run.Some? && p.tile(s.run.value.zoom, a.i) == t)
  }

  predicate StartsFresh(s: State, a: Action) { a.Begin? && s.db.cursor.None? }

  /** Position `k` belongs to the sweep the log ends in: no later call starts without a cursor. */
  ghost predicate InLastSweep(p: Plan, log: seq<Action>, k: nat) {
    && k < |log| && ValidLog(p, log[..k])
    && forall m :: k < m < |log| ==> ValidLog(p, log[..m]) && !StartsFresh(After(p, log[..m]), log[m])
  }

  /** An interruption that falls between the outcome of `t` and the retry row it needs. */
  predicate Tears(p: Plan, s: State, a: Action, t: Tile) { (a == Crash || a == Abort) && Pending(p, s, t) }

  /** What the history remembers of a tile. */
  datatype Mark = Answered | Stored | Tried | Torn

  predicate Marks(p: Plan, s: State, a: Action, t: Tile, m: Mark) {
    match m
    case Answered => Answers(p, s, a, t)
    case Stored => Answers(p, s, a, t) && a.o == Ok
    case Tried => Answers(p, s, a, t) && a.o != StorageSkipped
    case Torn => Tears(p, s, a, t)
  }

  function Marked(seen: Seen, m: Mark): set<Tile> {
    match m
    case Answered => seen.last.Keys
    case Stored => seen.kept
    case Tried => seen.tried
    case Torn => seen.torn
  }

  /** Position `k` of the log marks `t`, in the sweep the log ends in. */
  ghost predicate MarkedAt(p: Plan, log: seq<Action>, k: nat, t: Tile, m: Mark) {
    InLastSweep(p, log, k) && Marks(p, After(p, log[..k]), log[k], t, m)
  }

  lemma MarkStep(p: Plan, s: State, a: Action, t: Tile, m: Mark)
    requires Enabled(p, s, a)
    ensures t in Marked(Apply(p, s, a).seen, m)
            <==> Marks(p, s, a, t, m) || (t in Marked(s.seen, m) && !StartsFresh(s, a))
  {
    hide Tripped, StorageErrors, Downloads;
  }

  /** One more action keeps a position in the last sweep, exactly unless it starts a new one. */
  lemma LastSweepStep(p: Plan, log: seq<Action>, a: Action, k: nat)
    requires ValidLog(p, log) && ValidLog(p, log + [a]) && k < |log|
    ensures InLastSweep(p, log + [a], k) <==> InLastSweep(p, log, k) && !StartsFresh(After(p, log), a)
  {
    hide ValidLog, After, StartsFresh;
    var log' := log + [a];
    assert log'[..k] == log[..k] && log'[..|log|] == log && log[..|log|] == log;
    assert forall m :: k < m < |log| ==> log'[..m] == log[..m] && log'[m] == log[m];
    if InLastSweep(p, log, k) && !StartsFresh(After(p, log), a) {
      forall m | k < m < |log'| ensures ValidLog(p, log'[..m]) && !StartsFresh(After(p, log'[..m]), log'[m]) {
        if m < |log| { assert log'[..m] == log[..m]; }
      }
    }
    if InLastSweep(p, log', k) {
      forall m | k < m < |log| ensures ValidLog(p, log[..m]) && !StartsFresh(After(p, log[..m]), log[m]) {
        assert log'[..m] == log[..m];
      }
    }
  }

  lemma MarksMove(p: Plan, log: seq<Action>, a: Action, t: Tile, m: Mark)
    requires ValidLog(p, log) && ValidLog(p, log + [a])
    ensures (exists k :: MarkedAt(p, log + [a], k, t, m)) <==>
            Marks(p, After(p, log), a, t, m)
            || (!StartsFresh(After(p, log), a) && exists k :: MarkedAt(p, log, k, t, m))
  {
    hide ValidLog, After, StartsFresh, Marks;
    var log' := log + [a];
    assert log'[..|log|] == log;
    if k: nat :| MarkedAt(p, log', k, t, m) {
      if k < |log| {
        LastSweepStep(p, log, a, k);
        assert log'[..k] == log[..k];
        assert MarkedAt(p, log, k, t, m);
      }
    }
    if Marks(p, After(p, log), a, t, m) { assert MarkedAt(p, log', |log|, t, m); }
    if k: nat :| !StartsFresh(After(p, log), a) && MarkedAt(p, log, k, t, m) {
      LastSweepStep(p, log, a, k);
      assert log'[..k] == log[..k];
      assert MarkedAt(p, log', k, t, m);
    }
  }

  /**
   * The history is exactly what the log of this sweep says: which tiles were answered, stored, given
   * an outcome other than skipped, or caught by an interruption without their retry row.
   */
  lemma {:induction false} HistoryIsReadOffTheLog(p: Plan, log: seq<Action>, t: Tile, m: Mark)
    requires ValidLog(p, log)
    ensures t in Marked(After(p, log).seen, m) <==> exists k :: MarkedAt(p, log, k, t, m)
  {
    if log != [] {
      var n := |log| - 1;
      var init, a := log[..n], log[n];
      assert log == init + [a];
      HistoryIsReadOffTheLog(p, init, t, m);
      MarkStep(p, After(p, init), a, t, m);
      MarksMove(p, init, a, t, m);
    }
  }

  lemma LastStep(p: Plan, s: State, a: Action, t: Tile)
    requires Enabled(p, s, a) && t in Apply(p, s, a).seen.last
    ensures if Answers(p, s, a, t) then Apply(p, s, a).seen.last[t] == a.o
            else t in s.seen.last && !StartsFresh(s, a) && Apply(p, s, a).seen.last[t] == s.seen.last[t]
  {
    hide Tripped, StorageErrors, Downloads;
  }

  ghost predicate NotAnsweredSince(p: Plan, log: seq<Action>, k: nat, t: Tile) {
    forall m :: k < m < |log| ==> ValidLog(p, log[..m]) && !Answers(p, After(p, log[..m]), log[m], t)
  }

  /** Position `k` gave `t` its latest outcome of this sweep. */
  ghost predicate LatestAnswer(p: Plan, log: seq<Action>, k: nat, t: Tile) {
    MarkedAt(p, log, k, t, Answered) && NotAnsweredSince(p, log, k, t)
  }

  /** The recorded outcome of a tile is the one its latest answer gave. */
  lemma {:induction false} LastIsLatestAnswer(p: Plan, log: seq<Action>, t: Tile) returns (k: nat)
    requires ValidLog(p, log) && t in After(p, log).seen.last
    ensures LatestAnswer(p, log, k, t) && After(p, log).seen.last[t] == log[k].o
  {
    var n := |log| - 1;
    var init, a := log[..n], log[n];
    assert log == init + [a];
    LastStep(p, After(p, init), a, t);
    if Answers(p, After(p, init), a, t) {
      k := n;
    } else {
      k := LastIsLatestAnswer(p, init, t);
      LatestAnswerStays(p, init, a, k, t);
    }
  }

  lemma LatestAnswerStays(p: Plan, log: seq<Action>, a: Action, k: nat, t: Tile)
    requires ValidLog(p, log) && ValidLog(p, log + [a]) && LatestAnswer(p, log, k, t)
    requires !StartsFresh(After(p, log), a) && !Answers(p, After(p, log), a, t)
    ensures LatestAnswer(p, log + [a], k, t)
  {
    hide ValidLog, After, StartsFresh, Answers;
    assert k < |log| && (log + [a])[..k] == log[..k];
    QuietStep(p, log, a, k, t);
    LastSweepStep(p, log, a, k);
    hide NotAnsweredSince, InLastSweep;
  }

  lemma QuietStep(p: Plan, log: seq<Action>, a: Action, k: nat, t: Tile)
    requires ValidLog(p, log) && k < |log| && NotAnsweredSince(p, log, k, t)
    requires !Answers(p, After(p, log), a, t)
    ensures NotAnsweredSince(p, log + [a], k, t)
  {
    hide ValidLog, After, Answers;
    var log' := log + [a];
    forall m | k < m < |log'| ensures ValidLog(p, log'[..m]) && !Answers(p, After(p, log'[..m]), log'[m], t) {
      if m < |log| { assert log'[..m] == log[..m]; } else { assert log'[..m] == log; }
    }
  }

  // ------------------------------------------------------------------ write-ahead safety, exactly

  /** Stored, queued, or never given any outcome other than skipped. */
  predicate WriteAhead(s: State, t: Tile) {
    t in s.seen.kept || t in s.db.failed || t !in s.seen.tried
  }

  /**
   * The stronger reading, "only ever skipped", fails for exactly the tiles whose retry row an
   * interruption lost and that have been neither stored nor queued since.
   */
  lemma WriteAheadExactlyUnlessTorn(p: Plan, log: seq<Action>, z: nat, i: nat)
    requires ValidPlan(p) && ValidLog(p, log) && BelowCursor(p, After(p, log), z, i)
    ensures var s, t := After(p, log), p.tile(z, i);
            WriteAhead(s, t) <==> ((exists k :: MarkedAt(p, log, k, t, Torn)) ==> t in s.seen.kept || t in s.db.failed)
  {
    RunKeepsInv(p, log);
    var s, t := After(p, log), p.tile(z, i);
    PendingIsNotBelowCursor(p, s, z, i);
    HistoryIsReadOffTheLog(p, log, t, Torn);
  }

  lemma PendingIsNotBelowCursor(p: Plan, s: State, z: nat, i: nat)
    requires ValidPlan(p) && Inv(p, s) && BelowCursor(p, s, z, i)
    ensures !Pending(p, s, p.tile(z, i))
  {}

  // ------------------------------------------------------------------ what a completed sweep means

  /** When a completion is stamped, every tile of every zoom was answered since the sweep began. */
  lemma StampMeansEveryTileAnswered(p: Plan, log: seq<Action>, z: nat, i: nat) returns (k: nat)
    requires ValidPlan(p) && ValidLog(p, log) && AboutToStamp(After(p, log))
    requires p.minZoom <= z <= p.maxZoom && i < p.total(z)
    ensures LatestAnswer(p, log, k, p.tile(z, i))
  {
    RunKeepsInv(p, log);
    k := LastIsLatestAnswer(p, log, p.tile(z, i));
  }
}

/** What one scrape call does from its begin on, over every run: its retries, its zooms, its accounting. */
module SweepCalls {
  import opened Basics
  import opened TileGrid
  import opened Watermark
  import opened SweepModel
  import opened SweepSafety

  // ------------------------------------------------------------------ the call in the log

  /** Position `k` belongs to the call the log ends in. */
  ghost predicate InLastCall(p: Plan, log: seq<Action>, k: nat) {
    k < |log| && ValidLog(p, log[..k]) && forall m :: k < m < |log| ==> !log[m].Begin?
  }

  /** What a step does to the fields a session keeps for its whole life. */
  lemma StartStep(p: Plan, s: State, a: Action)
    requires Enabled(p, s, a) && Apply(p, s, a).run.Some?
    ensures var r := Apply(p, s, a).run.value;
            if a.Begin? then StartOf(p, s.db) == Cursor(r.startZoom, r.startIndex) && r.rows == s.db.failed
            else s.run.Some? && r.startZoom == s.run.value.startZoom && r.startIndex == s.run.value.startIndex
                 && r.rows == s.run.value.rows
  {
    hide Tripped, StorageErrors, Downloads, Advance, RowsIn;
  }

  /** Position `b` begins the running call, and the session remembers the tables of that moment. */
  ghost predicate Begins(p: Plan, log: seq<Action>, b: nat, r: Session) {
    && InLastCall(p, log, b) && log[b].Begin?
    && var db := After(p, log[..b]).db;
       StartOf(p, db) == Cursor(r.startZoom, r.startIndex) && r.rows == db.failed
  }

  lemma InLastCallStays(p: Plan, log: seq<Action>, a: Action, k: nat)
    requires InLastCall(p, log, k) && !a.Begin?
    ensures InLastCall(p, log + [a], k) && (log + [a])[..k] == log[..k] && (log + [a])[k] == log[k]
  {
    hide ValidLog;
    assert (log + [a])[..k] == log[..k];
  }

  lemma {:induction false} CallStart(p: Plan, log: seq<Action>) returns (b: nat)
    requires ValidLog(p, log) && After(p, log).run.Some?
    ensures Begins(p, log, b, After(p, log).run.value)
  {
    var n := |log| - 1;
    var init, a := log[..n], log[n];
    assert log == init + [a];
    StartStep(p, After(p, init), a);
    if a.Begin? {
      b := n;
    } else {
      b := CallStart(p, init);
      InLastCallStays(p, init, a, b);
      hide Apply, Enabled, InLastCall, ValidLog, After, StartOf;
    }
  }

  /** The outcomes of the call the log ends in, in the order it took them. */
  function OutcomesOfCall(log: seq<Action>): seq<Outcome> {
    if log == [] || log[|log| - 1].Begin? then []
    else
      var a := log[|log| - 1];
      OutcomesOfCall(log[..|log| - 1]) + (if a.Retry? || a.Complete? then [a.o] else [])
  }

  /** A storage outcome, failed or skipped, that finds the storage circuit out of probes. */
  predicate GivesUp(a: Action) {
    (a.Retry? || a.Complete?) && (a.o == StorageError || a.o == StorageSkipped) && a.exhausted
  }

  predicate GaveUpInCall(log: seq<Action>) {
    log != [] && !log[|log| - 1].Begin? && (GaveUpInCall(log[..|log| - 1]) || GivesUp(log[|log| - 1]))
  }

  lemma ConsumeStep(p: Plan, s: State, a: Action)
    requires Enabled(p, s, a) && Apply(p, s, a).run.Some?
    ensures var r := Apply(p, s, a).run.value;
            if a.Begin? then r.consumed == [] && !r.abandoned
            else s.run.Some?
                 && r.consumed == s.run.value.consumed + (if a.Retry? || a.Complete? then [a.o] else [])
                 && r.abandoned == (s.run.value.abandoned || GivesUp(a))
  {
    hide Tripped, StorageErrors, Downloads, Advance, RowsIn;
  }

  /** What a call has consumed, and whether it has given storage up, is what the log says. */
  lemma {:induction false} CallMatchesLog(p: Plan, log: seq<Action>)
    requires ValidLog(p, log) && After(p, log).run.Some?
    ensures After(p, log).run.value.consumed == OutcomesOfCall(log)
    ensures After(p, log).run.value.abandoned == GaveUpInCall(log)
  {
    var init, a := log[..|log| - 1], log[|log| - 1];
    ConsumeStep(p, After(p, init), a);
    hide Apply, Enabled, GivesUp;
    if !a.Begin? { CallMatchesLog(p, init); }
  }

  // ------------------------------------------------------------------ the retry rows of a call

  /** The end of the zooms the call has entered so far. */
  function Entered(p: Plan, r: Session): nat { (if r.zoom <= p.maxZoom then r.zoom else p.maxZoom) + 1 }

  /** Two tables with the same rows at every zoom outside `a <= z < b`. */
  ghost predicate SameOutside(now: set<Tile>, before: set<Tile>, a: nat, b: nat) {
    forall t: Tile :: !(a <= t.z < b) ==> (t in now <==> t in before)
  }

  predicate Retrying(ph: Phase) { ph.AtZoom? || ph.Retried? }

  /** Rows of zooms not entered are untouched, and every listed row was retried once or is still due. */
  ghost predicate RowsInv(p: Plan, s: State, r: Session) {
    && (!r.phase.Dropped? && !r.phase.Stamped? ==> SameOutside(s.db.failed, r.rows, r.startZoom, Entered(p, r)))
    && (Retrying(r.phase) ==> forall t :: t in r.left ==> t.z == r.zoom)
    && (r.phase.Retried? ==> r.phase.t.z == r.zoom)
    && r.retried + (if Retrying(r.phase) then |r.left| else 0) == |RowsIn(r.rows, r.startZoom, Entered(p, r))|
  }

  /** Entering a zoom owes one retry for each row the table held there when the call began. */
  lemma ZoomOwesItsRows(rows: set<Tile>, failed: set<Tile>, a: nat, z: nat)
    requires a <= z && SameOutside(failed, rows, a, z)
    ensures |RowsIn(rows, a, z + 1)| == |RowsIn(rows, a, z)| + |RowsIn(failed, z, z + 1)|
  {
    assert RowsIn(rows, a, z + 1) == RowsIn(rows, a, z) + RowsIn(failed, z, z + 1);
  }

  lemma BeginKeepsRows(p: Plan, s: State, a: Action)
    requires a.Begin? && Enabled(p, s, a)
    ensures RowsInv(p, Apply(p, s, a), Apply(p, s, a).run.value)
  {
    var r := Apply(p, s, a).run.value;
    assert RowsIn(r.rows, r.startZoom, r.startZoom) == {};
    assert r.zoom > p.maxZoom ==> RowsIn(r.rows, r.startZoom, p.maxZoom + 1) == {};
    ZoomOwesItsRows(r.rows, s.db.failed, r.startZoom, r.startZoom);
  }

  lemma NextKeepsRows(p: Plan, s: State, a: Action)
    requires Inv(p, s) && a == NextZoom && Enabled(p, s, a) && RowsInv(p, s, s.run.value)
    ensures RowsInv(p, Apply(p, s, a), Apply(p, s, a).run.value)
  {
    hide Tripped, StorageErrors, Downloads, Covered, CountInv, PhaseInv, TriedInv, CursorInv;
    var r := s.run.value;
    ZoomOwesItsRows(r.rows, s.db.failed, r.startZoom, r.zoom + 1);
  }

  lemma RetryKeepsRows(p: Plan, s: State, a: Action)
    requires Inv(p, s) && (a.Retry? || a == RemoveRow) && Enabled(p, s, a) && RowsInv(p, s, s.run.value)
    ensures RowsInv(p, Apply(p, s, a), Apply(p, s, a).run.value)
  {
    hide Tripped, StorageErrors, Downloads, Covered, CountInv, PhaseInv, TriedInv, CursorInv;
  }

  lemma QueueKeepsRows(p: Plan, s: State, a: Action)
    requires ValidPlan(p) && Inv(p, s) && a == QueueRow && Enabled(p, s, a) && RowsInv(p, s, s.run.value)
    ensures RowsInv(p, Apply(p, s, a), Apply(p, s, a).run.value)
  {
    hide Tripped, StorageErrors, Downloads, Covered, CountInv, TriedInv, CursorInv;
    var r := s.run.value;
    assert p.tile(r.zoom, r.phase.i).z == r.zoom;
  }

  lemma OthersKeepRows(p: Plan, s: State, a: Action)
    requires Enabled(p, s, a) && s.run.Some? && RowsInv(p, s, s.run.value) && Apply(p, s, a).run.Some?
    requires !a.Retry? && a != RemoveRow && a != QueueRow && a != NextZoom
    ensures RowsInv(p, Apply(p, s, a), Apply(p, s, a).run.value)
  {
    hide Tripped, StorageErrors, Downloads, Advance, RowsIn;
  }

  lemma StepKeepsRows(p: Plan, s: State, a: Action)
    requires ValidPlan(p) && Inv(p, s) && Enabled(p, s, a) && Apply(p, s, a).run.Some?
    requires s.run.Some? ==> RowsInv(p, s, s.run.value)
    ensures RowsInv(p, Apply(p, s, a), Apply(p, s, a).run.value)
  {
    StartStep(p, s, a);
    hide Inv, RowsInv, Enabled, Apply;
    match a
    case Begin(_) => BeginKeepsRows(p, s, a);
    case NextZoom => NextKeepsRows(p, s, a);
    case Retry(_, _, _) => RetryKeepsRows(p, s, a);
    case RemoveRow => RetryKeepsRows(p, s, a);
    case QueueRow => QueueKeepsRows(p, s, a);
    case _ => OthersKeepRows(p, s, a);
  }

  lemma {:induction false} RunKeepsRows(p: Plan, log: seq<Action>)
    requires ValidPlan(p) && ValidLog(p, log) && After(p, log).run.Some?
    ensures RowsInv(p, After(p, log), After(p, log).run.value)
  {
    var n := |log| - 1;
    var init, a := log[..n], log[n];
    StartStep(p, After(p, init), a);
    RunKeepsInv(p, init);
    hide Inv, RowsInv, Apply, Enabled;
    if After(p, init).run.Some? { RunKeepsRows(p, init); }
    StepKeepsRows(p, After(p, init), a);
  }

  lemma ReachableKeepsRows(p: Plan, s: State)
    requires ValidPlan(p) && Reachable(p, s) && s.run.Some?
    ensures RowsInv(p, s, s.run.value)
  {
    var log :| ValidLog(p, log) && After(p, log) == s;
    RunKeepsRows(p, log);
  }

  lemma UnenteredRowsWait(p: Plan, s: State, b: nat)
    requires ValidPlan(p) && Reachable(p, s) && s.run.Some? && b >= Entered(p, s.run.value)
    requires !s.run.value.phase.Dropped? && !s.run.value.phase.Stamped?
    ensures SameOutside(s.db.failed, s.run.value.rows, s.run.value.startZoom, b)
  {
    ReachableKeepsRows(p, s);
  }

  /** Until a clean completion drops the table, a call leaves the rows of zooms it has not entered alone. */
  lemma UnvisitedRowsWait(p: Plan, log: seq<Action>) returns (b: nat)
    requires ValidPlan(p) && ValidLog(p, log) && After(p, log).run.Some?
    requires var ph := After(p, log).run.value.phase; !ph.Dropped? && !ph.Stamped?
    ensures var s := After(p, log);
            && Begins(p, log, b, s.run.value)
            && SameOutside(s.db.failed, After(p, log[..b]).db.failed, s.run.value.startZoom, Entered(p, s.run.value))
  {
    RunKeepsRows(p, log);
    b := CallStart(p, log);
  }

  // ------------------------------------------------------------------ where the next call would start

  predicate NotBefore(c: Cursor, z: nat, i: nat) { !Before(c.zoom, c.index, z, i) }

  /** Where the next call would start, phase by phase. */
  ghost predicate PlaceInv(p: Plan, s: State, r: Session) {
    && (r.zoom == r.startZoom ==> r.resume == r.startIndex)
    && r.startZoom <= r.zoom
    && var c := StartOf(p, s.db);
       if Retrying(r.phase) || r.phase.LoopDone? then c == Cursor(r.zoom, r.resume)
       else if InSweep(r.phase) then c.zoom == r.zoom && r.resume <= c.index
       else if r.phase.ZoomDone? then
         r.resume <= r.wm && s.db.cursor == Some(if r.wm >= p.total(r.zoom) then Cursor(r.zoom + 1, 0) else Cursor(r.zoom, r.wm))
       else true
  }

  lemma StepKeepsPlace(p: Plan, s: State, a: Action)
    requires Inv(p, s) && Enabled(p, s, a) && Apply(p, s, a).run.Some?
    requires s.run.Some? ==> PlaceInv(p, s, s.run.value)
    ensures PlaceInv(p, Apply(p, s, a), Apply(p, s, a).run.value)
  {
    hide Tripped, StorageErrors, Downloads, Advance, RowsIn, Covered, CountInv, TriedInv, CursorInv;
  }

  lemma {:induction false} RunKeepsPlace(p: Plan, log: seq<Action>)
    requires ValidPlan(p) && ValidLog(p, log) && After(p, log).run.Some?
    ensures PlaceInv(p, After(p, log), After(p, log).run.value)
  {
    var n := |log| - 1;
    var init, a := log[..n], log[n];
    StartStep(p, After(p, init), a);
    RunKeepsInv(p, init);
    hide Inv, PlaceInv, Apply, Enabled;
    if After(p, init).run.Some? { RunKeepsPlace(p, init); }
    StepKeepsPlace(p, After(p, init), a);
  }

  /** The cursor is given up only when every zoom has been visited and no verdict stopped the call. */
  lemma CursorClearedOnlyWhenDone(p: Plan, log: seq<Action>, a: Action)
    requires ValidPlan(p) && ValidLog(p, log) && Enabled(p, After(p, log), a)
    requires After(p, log).db.cursor.Some? && Apply(p, After(p, log), a).db.cursor.None?
    ensures var r := After(p, log).run.value; r.phase == LoopDone && r.zoom > p.maxZoom && !Stopped(p, r)
  {
    hide Tripped, StorageErrors, Downloads, ValidLog, After;
    RunKeepsInv(p, log);
  }

  /**
   * A call that a verdict stops leaves the next one exactly where it stood: at the zoom whose rows it
   * was retrying, or at the watermark of the zoom it was sweeping.
   */
  lemma StoppedCallResumesThere(p: Plan, log: seq<Action>, a: Action)
    requires ValidPlan(p) && ValidLog(p, log) && Enabled(p, After(p, log), a) && (a.Trip? || a == GiveUp)
    ensures var r, c := After(p, log).run.value, StartOf(p, Apply(p, After(p, log), a).db);
            if r.phase == AtZoom then c == Cursor(r.zoom, r.resume)
            else if r.wm >= p.total(r.zoom) then c == Cursor(r.zoom + 1, 0)
            else c == Cursor(r.zoom, r.wm)
  {
    hide Tripped, StorageErrors, Downloads, ValidLog, After;
    RunKeepsPlace(p, log);
  }

  /** However a call is cut short, crashes included, the next one starts no earlier than this one did. */
  lemma ProgressIsNeverLost(p: Plan, log: seq<Action>, a: Action)
    requires ValidPlan(p) && ValidLog(p, log) && Enabled(p, After(p, log), a) && After(p, log).run.Some?
    requires Apply(p, After(p, log), a).run.None? && !Closing(After(p, log).run.value.phase)
    ensures var r := After(p, log).run.value;
            NotBefore(StartOf(p, Apply(p, After(p, log), a).db), r.startZoom, r.startIndex)
  {
    hide Tripped, StorageErrors, Downloads, ValidLog, After;
    RunKeepsInv(p, log);
    RunKeepsPlace(p, log);
    CutKeepsPlace(p, After(p, log), a);
  }

  lemma CutKeepsPlace(p: Plan, s: State, a: Action)
    requires Inv(p, s) && s.run.Some? && PlaceInv(p, s, s.run.value) && Enabled(p, s, a)
    requires Apply(p, s, a).run.None? && !Closing(s.run.value.phase)
    ensures NotBefore(StartOf(p, Apply(p, s, a).db), s.run.value.startZoom, s.run.value.startIndex)
  {
    hide Tripped, StorageErrors, Downloads, Covered, CountInv, TriedInv, CursorInv;
  }

  lemma ReachableKeepsPlace(p: Plan, s: State)
    requires ValidPlan(p) && Reachable(p, s) && s.run.Some?
    ensures PlaceInv(p, s, s.run.value)
  {
    var log :| ValidLog(p, log) && After(p, log) == s;
    RunKeepsPlace(p, log);
  }

  /** The tables of a call that is between zooms, or cut off by `a`, are not behind its start. */
  lemma PlaceBetweenZooms(p: Plan, s: State)
    requires ValidPlan(p) && Reachable(p, s) && s.run.Some?
    requires var ph := s.run.value.phase; ph.AtZoom? || ph.ZoomDone? || ph.LoopDone?
    ensures NotBefore(StartOf(p, s.db), s.run.value.startZoom, s.run.value.startIndex)
  {
    ReachableKeepsPlace(p, s);
  }

  lemma PlaceWhenCut(p: Plan, s: State, a: Action)
    requires ValidPlan(p) && Reachable(p, s) && s.run.Some? && Enabled(p, s, a)
    requires Apply(p, s, a).run.None? && !Closing(s.run.value.phase)
    ensures NotBefore(StartOf(p, Apply(p, s, a).db), s.run.value.startZoom, s.run.value.startIndex)
  {
    ReachableKeepsInv(p, s);
    ReachableKeepsPlace(p, s);
    CutKeepsPlace(p, s, a);
  }

  // ------------------------------------------------------------------ the zooms of a call

  /** Position `k` of the running call ended zoom `z` complete: swept to its total, or entered at or past it. */
  ghost predicate ZoomEndsFull(p: Plan, log: seq<Action>, k: nat, z: nat) {
    && InLastCall(p, log, k) && After(p, log[..k]).run.Some?
    && var r := After(p, log[..k]).run.value;
       r.zoom == z && ((log[k] == FinishZoom && r.wm == p.total(z)) || (log[k] == EnterSweep && r.resume >= p.total(z)))
  }

  /** The zooms below this one are over. */
  function Ended(p: Plan, r: Session): nat { if r.phase.ZoomDone? && !Stopped(p, r) then r.zoom + 1 else r.zoom }

  lemma EndedStep(p: Plan, s: State, a: Action, z: nat)
    requires Enabled(p, s, a) && Apply(p, s, a).run.Some? && s.run.Some?
    requires Ended(p, s.run.value) <= z < Ended(p, Apply(p, s, a).run.value)
    ensures var r := s.run.value;
            r.zoom == z && ((a == FinishZoom && r.wm == p.total(z)) || (a == EnterSweep && r.resume >= p.total(z)))
  {
    hide Tripped, StorageErrors, Downloads, Advance, RowsIn;
  }

  lemma NothingEndedAtBegin(p: Plan, s: State, a: Action)
    requires Enabled(p, s, a) && a.Begin?
    ensures var r := Apply(p, s, a).run.value; Ended(p, r) == r.startZoom
  {}

  lemma {:induction false} EndedZoomsWereFull(p: Plan, log: seq<Action>, z: nat) returns (k: nat)
    requires ValidLog(p, log) && After(p, log).run.Some?
    requires var r := After(p, log).run.value; r.startZoom <= z < Ended(p, r)
    ensures ZoomEndsFull(p, log, k, z)
  {
    var n := |log| - 1;
    var init, a := log[..n], log[n];
    assert log == init + [a];
    var s := After(p, init);
    StartStep(p, s, a);
    if a.Begin? { NothingEndedAtBegin(p, s, a); }
    if z < Ended(p, s.run.value) {
      k := EndedZoomsWereFull(p, init, z);
      InLastCallStays(p, init, a, k);
    } else {
      EndedStep(p, s, a, z);
      k := n;
    }
    hide Apply, Enabled, InLastCall, ValidLog, After, StartOf, Ended;
  }

  /** An unstopped zoom consumes exactly the tiles from its resume index on. */
  lemma SweptZoom(p: Plan, s: State, s': State)
    requires ValidPlan(p) && Reachable(p, s) && Reachable(p, s') && s.run.Some? && s'.run.Some?
    requires var r, r' := s.run.value, s'.run.value;
             && r.phase == AtZoom && r'.phase == ZoomDone && !Stopped(p, r') && r'.retried == r.retried
             && r'.zoom == r.zoom && r'.startZoom == r.startZoom && r'.startIndex == r.startIndex
    ensures |s'.run.value.consumed| - |s.run.value.consumed| + s.run.value.resume == p.total(s.run.value.zoom)
  {
    ReachableKeepsInv(p, s);
    ReachableKeepsInv(p, s');
    hide Stopped, StorageErrors, PhaseInv, TriedInv, CursorInv, Reachable, ValidPlan;
  }

  // ------------------------------------------------------------------ what a stamping call amounts to

  /** A call that stamps reached the total of every zoom from its start cursor on. */
  lemma StampingCallSweptEveryZoom(p: Plan, log: seq<Action>, z: nat) returns (k: nat)
    requires ValidPlan(p) && ValidLog(p, log) && AboutToStamp(After(p, log))
    requires After(p, log).run.value.startZoom <= z <= p.maxZoom
    ensures ZoomEndsFull(p, log, k, z)
  {
    RunKeepsInv(p, log);
    k := EndedZoomsWereFull(p, log, z);
  }

  /**
   * A call that stamps consumed no storage outcome, never stopped, and consumed exactly one outcome
   * for each retry row its zooms held when it began and each tile it owed from its start cursor on.
   */
  lemma StampingCallAccounting(p: Plan, log: seq<Action>) returns (b: nat)
    requires ValidPlan(p) && ValidLog(p, log) && AboutToStamp(After(p, log))
    ensures Begins(p, log, b, After(p, log).run.value)
    ensures var r, db := After(p, log).run.value, After(p, log[..b]).db;
            var start := StartOf(p, db);
            && !Tripped(p, r.consumed) && !r.abandoned
            && (forall o :: o in r.consumed ==> o == Ok || o == Missing || o == Unavailable)
            && |r.consumed| + start.index
               == |RowsIn(db.failed, start.zoom, p.maxZoom + 1)| + Tiles(p, start.zoom, p.maxZoom + 1)
  {
    RunKeepsInv(p, log);
    RunKeepsRows(p, log);
    b := CallStart(p, log);
    AboutToStampCounts(p, After(p, log));
    hide Inv, RowsInv, After, ValidLog, InLastCall, RowsIn;
  }

  /** The counting half of the two invariants where the completion is about to be stamped. */
  lemma AboutToStampCounts(p: Plan, s: State)
    requires Inv(p, s) && AboutToStamp(s) && RowsInv(p, s, s.run.value)
    ensures var r := s.run.value;
            && !Tripped(p, r.consumed) && !r.abandoned && StorageErrors(r.consumed) == 0
            && |r.consumed| + r.startIndex
               == |RowsIn(r.rows, r.startZoom, p.maxZoom + 1)| + Tiles(p, r.startZoom, p.maxZoom + 1)
  {
    hide Tripped, StorageErrors, RowsIn, Tiles;
  }
}

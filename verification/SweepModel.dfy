/**
 * The resumable basemap sweep of one provider as a state machine.
 *
 * A state holds the tables that survive a crash, the history of the current sweep,
 * and the volatile session of a running scrape call, if any. One action is one store
 * write, one consumed tile outcome, or one volatile move between two awaits. A crash
 * may follow any action; a cancellation runs the sweep's `finally` write and ends the call.
 */
module SweepModel {
  import opened Basics
  import opened TileGrid
  import opened RollingWindow
  import opened Watermark

  datatype Outcome = Ok | Missing | Unavailable | StorageError | StorageSkipped

  datatype Cursor = Cursor(zoom: nat, index: nat)

  datatype Health = Health(trips: nat, cooldownUntil: int)

  /** What a scrape is configured with; `tile(z, i)` is the tile that index `i` of zoom `z` denotes. */
  datatype Plan = Plan(
    minZoom: nat, maxZoom: nat, total: nat -> nat, tile: (nat, nat) -> Tile,
    interval: int, window: nat, minSamples: nat, threshold: real, schedule: seq<int>)

  ghost predicate ValidPlan(p: Plan) {
    && (forall z: nat, i: nat, z': nat, j: nat ::
          i < p.total(z) && j < p.total(z') && p.tile(z, i) == p.tile(z', j) ==> z == z' && i == j)
    && (forall z: nat, i: nat :: i < p.total(z) ==> p.tile(z, i).z == z)
    && 0.0 < p.threshold <= 1.0 && 1 <= p.minSamples <= p.window
    && ValidSchedule(p.schedule)
  }

  ghost predicate ValidSchedule(s: seq<int>) {
    && s != [] && (forall i :: 0 <= i < |s| ==> s[i] > 0)
    && forall i, j :: 0 <= i < j < |s| ==> s[i] <= s[j]
  }

  /** The plan of a bounding box: indices denote the tiles of the clamped ranges. */
  function GridPlan(minZoom: nat, maxZoom: nat, raw: nat -> Range, interval: int,
                    window: nat, minSamples: nat, threshold: real, schedule: seq<int>): Plan
  {
    Plan(minZoom, maxZoom, (z: nat) => CountTiles(Clamp(z, raw(z))),
         (z: nat, i: nat) => TileAt(z, Clamp(z, raw(z)), i),
         interval, window, minSamples, threshold, schedule)
  }

  /** Settings that pass validation make the plan of any bounding box a valid one. */
  lemma GridPlanIsValid(minZoom: nat, maxZoom: nat, raw: nat -> Range, interval: int,
                        window: nat, minSamples: nat, threshold: real, schedule: seq<int>)
    requires 0.0 < threshold <= 1.0 && 1 <= minSamples <= window && ValidSchedule(schedule)
    ensures ValidPlan(GridPlan(minZoom, maxZoom, raw, interval, window, minSamples, threshold, schedule))
  {
    var p := GridPlan(minZoom, maxZoom, raw, interval, window, minSamples, threshold, schedule);
    forall z: nat, i: nat, z': nat, j: nat |
      i < p.total(z) && j < p.total(z') && p.tile(z, i) == p.tile(z', j)
      ensures z == z' && i == j
    {
      TileAtInjective(z, Clamp(z, raw(z)), i, z', Clamp(z', raw(z')), j);
    }
    assert forall z: nat, i: nat {:trigger p.tile(z, i)} :: p.tile(z, i) == TileAt(z, Clamp(z, raw(z)), i);
  }

  /** The tables of the state store: they survive a crash. */
  datatype Tables = Tables(
    cursor: Option<Cursor>, failed: set<Tile>, lastCompleted: Option<int>, health: Option<Health>)

  /**
   * What happened to tiles since the sweep started without a cursor: the latest outcome,
   * the tiles that reached storage, those with an outcome other than skipped, and those
   * whose outcome needed a retry row that an interruption lost.
   */
  datatype Seen = Seen(last: map<Tile, Outcome>, kept: set<Tile>, tried: set<Tile>, torn: set<Tile>)

  datatype Phase =
    | AtZoom                      // draining the zoom's retry rows
    | Retried(t: Tile)            // a retry succeeded, its row is still there
    | Pump                        // waiting for the next completion
    | Got(i: nat, o: Outcome)     // outcome consumed, retry row not written
    | Queued(i: nat)              // row written, or none needed
    | Advanced(w: nat)            // watermark moved locally, not yet handed back
    | Flushed(w: nat)             // cursor written at w, w not yet handed back
    | ZoomDone                    // the zoom's final cursor write is done
    | LoopDone                    // every zoom visited
    | Cleared | Dropped | Stamped // the writes of a clean completion

  datatype Session = Session(
    startZoom: nat, startIndex: nat, zoom: nat, resume: nat, wm: nat, above: set<nat>,
    phase: Phase, consumed: seq<Outcome>, abandoned: bool, retried: nat, swept: nat,
    rows: set<Tile>,              // the retry table when the call began
    left: set<Tile>)              // rows listed for this zoom and not yet retried

  datatype State = State(db: Tables, seen: Seen, run: Option<Session>)

  datatype Action =
    | Begin(now: int)
    | Retry(t: Tile, o: Outcome, exhausted: bool)
    | RemoveRow
    | EnterSweep
    | Complete(i: nat, o: Outcome, exhausted: bool)
    | QueueRow
    | AdvanceWatermark
    | Flush
    | HandBack
    | FinishZoom
    | NextZoom
    | Trip(now: int)
    | GiveUp
    | CloseIncomplete
    | ClearCursor
    | DropFailed
    | Stamp(now: int)
    | CloseHealth
    | Abort
    | Crash

  // ------------------------------------------------------------------ outcomes and verdicts

  predicate IsStorage(o: Outcome) { o == StorageError || o == StorageSkipped }

  predicate NeedsRow(o: Outcome) { o != Ok && o != StorageSkipped }

  predicate IsSignal(o: Outcome) { o == Ok || o == Unavailable }

  /** The provider-health signals among the outcomes: true for a failed fetch. */
  function Signals(os: seq<Outcome>): seq<bool> {
    if os == [] then []
    else
      var o := os[|os| - 1];
      Signals(os[..|os| - 1]) + (if IsSignal(o) then [o == Unavailable] else [])
  }

  /** The breaker's verdict over everything a call consumed. */
  predicate Tripped(p: Plan, os: seq<Outcome>) {
    os != [] &&
    (Tripped(p, os[..|os| - 1]) ||
     (IsSignal(os[|os| - 1]) && Exceeds(LastN(Signals(os), p.window), p.minSamples, p.threshold)))
  }

  function StorageErrors(os: seq<Outcome>): (n: nat)
    ensures n == 0 <==> forall i :: 0 <= i < |os| ==> !IsStorage(os[i])
  {
    if os == [] then 0
    else StorageErrors(os[..|os| - 1]) + (if IsStorage(os[|os| - 1]) then 1 else 0)
  }

  function Downloads(os: seq<Outcome>): nat {
    if os == [] then 0
    else Downloads(os[..|os| - 1]) + (if os[|os| - 1] == Ok then 1 else 0)
  }

  predicate Stopped(p: Plan, r: Session) { Tripped(p, r.consumed) || r.abandoned }

  function Cooldown(s: seq<int>, trips: int): int {
    if s == [] then 300
    else
      var idx := if trips - 1 < |s| - 1 then trips - 1 else |s| - 1;
      s[if idx < 0 then 0 else idx]
  }

  predicate Due(p: Plan, db: Tables, now: int) {
    && (db.health.Some? ==> db.health.value.cooldownUntil <= now)
    && (db.cursor.Some? || db.lastCompleted.None? || db.lastCompleted.value + p.interval <= now)
  }

  function NextTrips(db: Tables, consumed: seq<Outcome>): nat {
    if Downloads(consumed) > 0 then 1
    else (if db.health.Some? then db.health.value.trips else 0) + 1
  }

  // ------------------------------------------------------------------ the transition function

  function Witness(seen: Seen, t: Tile, o: Outcome): Seen {
    Seen(seen.last[t := o],
         if o == Ok then seen.kept + {t} else seen.kept,
         if o == StorageSkipped then seen.tried else seen.tried + {t},
         seen.torn)
  }

  function Consume(r: Session, o: Outcome, exhausted: bool): Session {
    r.(consumed := r.consumed + [o], abandoned := r.abandoned || (IsStorage(o) && exhausted))
  }

  /** The cursor the end-of-zoom write persists for a watermark. */
  function FinalCursor(p: Plan, zoom: nat, wm: nat): Cursor {
    if wm >= p.total(zoom) then Cursor(zoom + 1, 0) else Cursor(zoom, wm)
  }

  function StartOf(p: Plan, db: Tables): Cursor {
    if db.cursor.Some? then db.cursor.value else Cursor(p.minZoom, 0)
  }

  /** The rows of zooms `a <= z < b`. */
  function RowsIn(rows: set<Tile>, a: nat, b: nat): set<Tile> { set t | t in rows && a <= t.z < b }

  /** Entering a zoom lists its retry rows. */
  function EnterZoom(p: Plan, failed: set<Tile>, r: Session, zoom: nat, resume: nat): Session {
    r.(zoom := zoom, resume := resume, wm := resume, above := {}, left := RowsIn(failed, zoom, zoom + 1),
       phase := if zoom <= p.maxZoom then AtZoom else LoopDone)
  }

  /** An interruption between an outcome and its retry row tears that tile. */
  function Tear(p: Plan, seen: Seen, r: Session): Seen {
    if r.phase.Got? && NeedsRow(r.phase.o)
    then seen.(torn := seen.torn + {p.tile(r.zoom, r.phase.i)})
    else seen
  }

  predicate InSweep(ph: Phase) { ph.Pump? || ph.Got? || ph.Queued? || ph.Advanced? || ph.Flushed? }

  predicate Enabled(p: Plan, s: State, a: Action) {
    if a.Begin? then s.run.None? && Due(p, s.db, a.now)
    else
      s.run.Some? &&
      var r := s.run.value;
      match a
      case Retry(t, _, _) => r.phase == AtZoom && !Stopped(p, r) && t in r.left
      case RemoveRow => r.phase.Retried?
      case EnterSweep => r.phase == AtZoom && !Stopped(p, r) && r.left == {}
      case Complete(i, _, _) =>
        r.phase == Pump && !Stopped(p, r) && r.wm <= i < p.total(r.zoom) && i !in r.above
      case QueueRow => r.phase.Got?
      case AdvanceWatermark => r.phase.Queued?
      case Flush => r.phase.Advanced?
      case HandBack => r.phase.Advanced? || r.phase.Flushed?
      case FinishZoom => r.phase == Pump && (Stopped(p, r) || r.wm == p.total(r.zoom))
      case NextZoom => r.phase == ZoomDone && !Stopped(p, r)
      case Trip(_) => (r.phase == AtZoom || r.phase == ZoomDone) && Tripped(p, r.consumed)
      case GiveUp => (r.phase == AtZoom || r.phase == ZoomDone) && !Tripped(p, r.consumed) && r.abandoned
      case CloseIncomplete => r.phase == LoopDone && !Stopped(p, r) && StorageErrors(r.consumed) > 0
      case ClearCursor => r.phase == LoopDone && !Stopped(p, r) && StorageErrors(r.consumed) == 0
      case DropFailed => r.phase == Cleared
      case Stamp(_) => r.phase == Dropped
      case CloseHealth => r.phase == Stamped
      case Abort => InSweep(r.phase)
      case Crash => true
  }

  function Apply(p: Plan, s: State, a: Action): State
    requires Enabled(p, s, a)
  {
    if a.Begin? then
      var c := StartOf(p, s.db);
      var blank := Session(c.zoom, c.index, c.zoom, c.index, c.index, {}, AtZoom, [], false, 0, 0, s.db.failed, {});
      State(s.db,
            if s.db.cursor.None? then Seen(map[], {}, {}, {}) else s.seen,
            Some(EnterZoom(p, s.db.failed, blank, c.zoom, c.index)))
    else
      var r, db, seen := s.run.value, s.db, s.seen;
      match a
      case Retry(t, o, exhausted) =>
        var r' := Consume(r, o, exhausted).(retried := r.retried + 1, left := r.left - {t});
        State(db, Witness(seen, t, o), Some(r'.(phase := if o == Ok then Retried(t) else AtZoom)))
      case RemoveRow =>
        State(db.(failed := db.failed - {r.phase.t}), seen, Some(r.(phase := AtZoom)))
      case EnterSweep =>
        if r.resume >= p.total(r.zoom)
        then State(db.(cursor := Some(Cursor(r.zoom + 1, 0))), seen, Some(r.(phase := ZoomDone)))
        else State(db, seen, Some(r.(phase := Pump)))
      case Complete(i, o, exhausted) =>
        State(db, Witness(seen, p.tile(r.zoom, i), o),
              Some(Consume(r, o, exhausted).(phase := Got(i, o), swept := r.swept + 1)))
      case QueueRow =>
        var failed := if NeedsRow(r.phase.o) then db.failed + {p.tile(r.zoom, r.phase.i)} else db.failed;
        State(db.(failed := failed), seen, Some(r.(phase := Queued(r.phase.i))))
      case AdvanceWatermark =>
        var (w, above) := Advance(r.wm, r.above, r.phase.i);
        State(db, seen, Some(r.(above := above, phase := Advanced(w))))
      case Flush =>
        State(db.(cursor := Some(Cursor(r.zoom, r.phase.w))), seen, Some(r.(phase := Flushed(r.phase.w))))
      case HandBack => State(db, seen, Some(r.(wm := r.phase.w, phase := Pump)))
      case FinishZoom =>
        State(db.(cursor := Some(FinalCursor(p, r.zoom, r.wm))), seen, Some(r.(phase := ZoomDone)))
      case NextZoom => State(db, seen, Some(EnterZoom(p, db.failed, r, r.zoom + 1, 0)))
      case Trip(now) =>
        var trips := NextTrips(db, r.consumed);
        State(db.(health := Some(Health(trips, now + Cooldown(p.schedule, trips)))), seen, None)
      case GiveUp => State(db, seen, None)
      case CloseIncomplete => State(db.(cursor := None), seen, None)
      case ClearCursor => State(db.(cursor := None), seen, Some(r.(phase := Cleared)))
      case DropFailed => State(db.(failed := {}), seen, Some(r.(phase := Dropped)))
      case Stamp(now) => State(db.(lastCompleted := Some(now)), seen, Some(r.(phase := Stamped)))
      case CloseHealth => State(db.(health := None), seen, None)
      case Abort =>
        State(db.(cursor := Some(FinalCursor(p, r.zoom, r.wm))), Tear(p, seen, r), None)
      case Crash => State(db, Tear(p, seen, r), None)
  }

  // ------------------------------------------------------------------ runs

  const Fresh := State(Tables(None, {}, None, None), Seen(map[], {}, {}, {}), None)

  /** A log of actions that the machine can take from a store that was never written. */
  predicate ValidLog(p: Plan, log: seq<Action>)
    decreases |log|, 0
  {
    log == [] ||
    (ValidLog(p, log[..|log| - 1]) && Enabled(p, After(p, log[..|log| - 1]), log[|log| - 1]))
  }

  function After(p: Plan, log: seq<Action>): State
    requires ValidLog(p, log)
    decreases |log|, 1
  {
    if log == [] then Fresh else Apply(p, After(p, log[..|log| - 1]), log[|log| - 1])
  }

  lemma Extend(p: Plan, log: seq<Action>, a: Action)
    requires ValidLog(p, log) && Enabled(p, After(p, log), a)
    ensures ValidLog(p, log + [a]) && After(p, log + [a]) == Apply(p, After(p, log), a)
  {
    assert (log + [a])[..|log|] == log;
  }

  lemma {:induction false} PrefixIsValid(p: Plan, log: seq<Action>, k: nat)
    requires ValidLog(p, log) && k <= |log|
    ensures ValidLog(p, log[..k])
  {
    if k == |log| {
      assert log[..k] == log;
    } else {
      PrefixIsValid(p, log[..|log| - 1], k);
      assert log[..|log| - 1][..k] == log[..k];
    }
  }

  /** States that some run reaches, crashes and restarts included. */
  ghost predicate Reachable(p: Plan, s: State) {
    exists log :: ValidLog(p, log) && After(p, log) == s
  }

  lemma FreshIsReachable(p: Plan)
    ensures Reachable(p, Fresh)
  {
    assert ValidLog(p, []) && After(p, []) == Fresh;
  }

  lemma StepIsReachable(p: Plan, s: State, a: Action)
    requires Reachable(p, s) && Enabled(p, s, a)
    ensures Reachable(p, Apply(p, s, a))
  {
    var log :| ValidLog(p, log) && After(p, log) == s;
    Extend(p, log, a);
  }
}

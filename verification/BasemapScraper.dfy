/**
 * The scrape call chain of one provider in the source's own imperative form.
 *
 * Every store write names the action of `SweepModel` it performs, so the store never holds a state
 * that the machine cannot reach: a crash between any two writes leaves a state from which the
 * theorems of `SweepSafety` apply and from which the next call may start.
 */
module BasemapScraper {
  import opened Basics
  import opened TileGrid
  import opened RollingWindow
  import opened Watermark
  import opened SweepModel
  import opened SweepSafety
  import opened SweepCalls

  /** One provider's rows of the persistent tables. */
  class StateStore {
    ghost const plan: Plan
    var cursor: Option<Cursor>
    var failed: set<Tile>
    var lastCompleted: Option<int>
    var health: Option<Health>
    ghost var m: State

    ghost predicate Valid()
      reads this
    {
      ValidPlan(plan) && Reachable(plan, m) && m.db == Tables(cursor, failed, lastCompleted, health)
    }

    constructor (ghost plan: Plan)
      requires ValidPlan(plan)
      ensures Valid() && m == Fresh && this.plan == plan
    {
      this.plan := plan;
      cursor, failed, lastCompleted, health := None, {}, None, None;
      m := Fresh;
      FreshIsReachable(plan);
    }

    /** A move of the running call that writes nothing. */
    ghost method Move(a: Action)
      requires Valid() && Enabled(plan, m, a) && Apply(plan, m, a).db == m.db
      modifies this`m
      ensures Valid() && m == Apply(plan, old(m), a)
    {
      StepIsReachable(plan, m, a);
      m := Apply(plan, m, a);
    }

    method SetCursor(zoom: nat, index: nat, ghost a: Action)
      requires Valid() && Enabled(plan, m, a)
      requires Apply(plan, m, a).db == m.db.(cursor := Some(Cursor(zoom, index)))
      modifies this`m, this`cursor
      ensures Valid() && m == Apply(plan, old(m), a)
    {
      StepIsReachable(plan, m, a);
      cursor := Some(Cursor(zoom, index));
      m := Apply(plan, m, a);
    }

    method ClearCursorRow(ghost a: Action)
      requires Valid() && Enabled(plan, m, a) && Apply(plan, m, a).db == m.db.(cursor := None)
      modifies this`m, this`cursor
      ensures Valid() && m == Apply(plan, old(m), a)
    {
      StepIsReachable(plan, m, a);
      cursor := None;
      m := Apply(plan, m, a);
    }

    method AddFailed(t: Tile, ghost a: Action)
      requires Valid() && Enabled(plan, m, a)
      requires Apply(plan, m, a).db == m.db.(failed := m.db.failed + {t})
      modifies this`m, this`failed
      ensures Valid() && m == Apply(plan, old(m), a)
    {
      StepIsReachable(plan, m, a);
      failed := failed + {t};
      m := Apply(plan, m, a);
    }

    method RemoveFailed(t: Tile, ghost a: Action)
      requires Valid() && Enabled(plan, m, a)
      requires Apply(plan, m, a).db == m.db.(failed := m.db.failed - {t})
      modifies this`m, this`failed
      ensures Valid() && m == Apply(plan, old(m), a)
    {
      StepIsReachable(plan, m, a);
      failed := failed - {t};
      m := Apply(plan, m, a);
    }

    /** The rows of one zoom, in whatever order the table yields them. */
    method ListFailed(zoom: nat) returns (rows: seq<Tile>)
      ensures forall t :: t in rows <==> t in failed && t.z == zoom
      ensures forall i, j :: 0 <= i < j < |rows| ==> rows[i] != rows[j]
      ensures |rows| == |RowsIn(failed, zoom, zoom + 1)|
    {
      rows := [];
      var left := RowsIn(failed, zoom, zoom + 1);
      while left != {}
        invariant forall t :: t in rows || t in left <==> t in failed && t.z == zoom
        invariant forall t :: t in rows ==> t !in left
        invariant |rows| + |left| == |RowsIn(failed, zoom, zoom + 1)|
        invariant forall i, j :: 0 <= i < j < |rows| ==> rows[i] != rows[j]
        decreases left
      {
        var t :| t in left;
        rows := rows + [t];
        left := left - {t};
      }
    }

    /** End-of-zoom cleanup runs only on an empty listing, so it deletes nothing. */
    method ClearFailed(zoom: nat)
      requires forall t :: t in failed ==> t.z != zoom
      modifies this`failed
      ensures failed == old(failed)
    {
      failed := set t | t in failed && t.z != zoom;
    }

    method ClearFailedForProvider(ghost a: Action)
      requires Valid() && Enabled(plan, m, a) && Apply(plan, m, a).db == m.db.(failed := {})
      modifies this`m, this`failed
      ensures Valid() && m == Apply(plan, old(m), a)
    {
      StepIsReachable(plan, m, a);
      failed := {};
      m := Apply(plan, m, a);
    }

    method SetLastCompleted(now: int, ghost a: Action)
      requires Valid() && Enabled(plan, m, a) && Apply(plan, m, a).db == m.db.(lastCompleted := Some(now))
      modifies this`m, this`lastCompleted
      ensures Valid() && m == Apply(plan, old(m), a)
    {
      StepIsReachable(plan, m, a);
      lastCompleted := Some(now);
      m := Apply(plan, m, a);
    }

    method OpenCircuit(trips: nat, cooldownUntil: int, ghost a: Action)
      requires Valid() && Enabled(plan, m, a)
      requires Apply(plan, m, a).db == m.db.(health := Some(Health(trips, cooldownUntil)))
      modifies this`m, this`health
      ensures Valid() && m == Apply(plan, old(m), a)
    {
      StepIsReachable(plan, m, a);
      health := Some(Health(trips, cooldownUntil));
      m := Apply(plan, m, a);
    }

    method CloseCircuit(ghost a: Action)
      requires Valid() && Enabled(plan, m, a) && Apply(plan, m, a).db == m.db.(health := None)
      modifies this`m, this`health
      ensures Valid() && m == Apply(plan, old(m), a)
    {
      StepIsReachable(plan, m, a);
      health := None;
      m := Apply(plan, m, a);
    }
  }

  /** Per-call verdict state; `consumed` is every outcome it was fed. */
  class SweepState {
    var attempted: nat
    var failed: nat
    var tripped: bool
    var abandoned: bool
    var storageErrors: nat
    var recent: seq<bool>
    ghost var consumed: seq<Outcome>

    /** The incrementally maintained fields are functions of the consumed outcomes. */
    ghost predicate Tracks(p: Plan)
      reads this
    {
      && tripped == Tripped(p, consumed)
      && storageErrors == StorageErrors(consumed)
      && recent == LastN(Signals(consumed), p.window)
      && attempted == |Signals(consumed)|
      && failed == Failures(Signals(consumed))
    }

    constructor (ghost p: Plan)
      ensures Tracks(p) && consumed == [] && !abandoned
    {
      attempted, failed, tripped, abandoned, storageErrors, recent := 0, 0, false, false, 0, [];
      consumed := [];
    }

    method Update(p: Plan, o: Outcome, exhausted: bool)
      requires ValidPlan(p) && Tracks(p)
      modifies this
      ensures Tracks(p) && consumed == old(consumed) + [o]
      ensures abandoned == (old(abandoned) || (IsStorage(o) && exhausted))
    {
      hide Tripped, Signals, StorageErrors, Failures, LastN, Exceeds, Push;
      ghost var was := consumed;
      consumed := consumed + [o];
      OneMoreOutcome(p, was, o);
      if o == Missing {
        return;
      }
      if o == StorageError || o == StorageSkipped {
        storageErrors := storageErrors + 1;
        if exhausted { abandoned := true; }
        return;
      }
      var isFailure := o == Unavailable;
      attempted := attempted + 1;
      if isFailure { failed := failed + 1; }
      Observe(p, isFailure);
    }

    /** Slide the window and trip once its failure rate exceeds the threshold. */
    method Observe(p: Plan, isFailure: bool)
      requires ValidPlan(p)
      modifies this`recent, this`tripped
      ensures recent == Push(old(recent), isFailure, p.window)
      ensures tripped == (old(tripped) || Exceeds(recent, p.minSamples, p.threshold))
    {
      hide Failures;
      recent := recent + [isFailure];
      if |recent| > p.window { recent := recent[1..]; }
      var n := CountFailures(recent);
      if !tripped && |recent| >= p.minSamples && n as real / |recent| as real > p.threshold {
        tripped := true;
      }
      RateForms(n, |recent|, p.threshold);
    }
  }

  /** How the verdict, the counts and the window change with one more outcome. */
  lemma OneMoreOutcome(p: Plan, was: seq<Outcome>, o: Outcome)
    ensures var os := was + [o];
            && StorageErrors(os) == StorageErrors(was) + (if IsStorage(o) then 1 else 0)
            && Signals(os) == Signals(was) + (if IsSignal(o) then [o == Unavailable] else [])
            && Failures(Signals(os)) == Failures(Signals(was)) + (if o == Unavailable then 1 else 0)
            && Tripped(p, os) ==
               (Tripped(p, was)
                || (IsSignal(o) && Exceeds(LastN(Signals(os), p.window), p.minSamples, p.threshold)))
            && LastN(Signals(os), p.window) ==
               (if IsSignal(o) then Push(LastN(Signals(was), p.window), o == Unavailable, p.window)
                else LastN(Signals(was), p.window))
  {
    assert (was + [o])[..|was|] == was;
    if IsSignal(o) {
      FailuresConcat(Signals(was), [o == Unavailable]);
      PushKeepsLast(Signals(was), o == Unavailable, p.window);
    } else {
      assert Signals(was) + [] == Signals(was);
    }
  }

  /** What one tile fetch came to, from the circuit's gate, the upstream and the bucket. */
  datatype Fetch = Unreachable | Empty | Bytes

  function TileOutcome(circuitAdmits: bool, fetch: Fetch, persisted: bool): (o: Outcome)
    ensures o == Ok <==> circuitAdmits && fetch == Bytes && persisted
    ensures o == StorageError <==> circuitAdmits && fetch == Bytes && !persisted
    ensures o == StorageSkipped <==> !circuitAdmits
    ensures o == Missing <==> circuitAdmits && fetch == Empty
    ensures IsSignal(o) ==> circuitAdmits && fetch != Empty
  {
    if !circuitAdmits then StorageSkipped
    else
      match fetch
      case Unreachable => Unavailable
      case Empty => Missing
      case Bytes => if persisted then Ok else StorageError
  }

  /** Accumulators threaded across the chunks of one zoom. */
  class Progress {
    var watermark: nat
    var doneAbove: set<nat>
    var lastFlushed: nat
    var ok: nat
    var failed: nat

    constructor (resume: nat)
      ensures watermark == resume && doneAbove == {} && lastFlushed == resume && ok == 0 && failed == 0
    {
      watermark, doneAbove, lastFlushed, ok, failed := resume, {}, resume, 0, 0;
    }
  }

  /** How a scrape call ended. */
  datatype CallEnd = Skipped | Cancelled | CircuitOpened | SweepAbandoned | SweepIncomplete | Completed

  /** What the outcomes a call consumed make of it: the breaker first, then storage, then success. */
  function EndOf(p: Plan, os: seq<Outcome>, abandoned: bool): CallEnd {
    if Tripped(p, os) then CircuitOpened
    else if abandoned then SweepAbandoned
    else if StorageError in os || StorageSkipped in os then SweepIncomplete
    else Completed
  }

  class Scraper {
    const plan: Plan
    const fanout: nat
    const checkpointEvery: int
    const store: StateStore
    var storageRetryDue: bool
    var storageDown: bool

    constructor (plan: Plan, fanout: nat, checkpointEvery: int, store: StateStore)
      requires fanout >= 1
      ensures this.plan == plan && this.fanout == fanout && this.store == store
      ensures !storageRetryDue && !storageDown
    {
      this.plan, this.fanout, this.checkpointEvery, this.store := plan, fanout, checkpointEvery, store;
      storageRetryDue, storageDown := false, false;
    }

    ghost predicate Valid()
      reads this, store
    {
      store.Valid() && store.plan == plan && fanout >= 1 && (storageDown ==> storageRetryDue)
    }

    /** A call is running and its verdict state tracks what the machine says it consumed. */
    ghost predicate Running(ses: SweepState)
      reads this, store, ses
    {
      && Valid() && store.m.run.Some? && ses.Tracks(plan)
      && ses.consumed == store.m.run.value.consumed
      && ses.abandoned == store.m.run.value.abandoned
    }

    ghost function Run(): Session
      requires Valid() && store.m.run.Some?
      reads this, store
    {
      store.m.run.value
    }

    /** The fields a call keeps for its whole life. */
    static ghost predicate SameCall(a: Session, b: Session) {
      a.startZoom == b.startZoom && a.startIndex == b.startIndex && a.rows == b.rows
    }

    static ghost predicate SameZoom(a: Session, b: Session) {
      SameCall(a, b) && a.zoom == b.zoom && a.resume == b.resume && a.retried == b.retried
    }

    /** The loop of the watermark, in place on the progress record; returns where it got to. */
    method Absorb(prog: Progress, start: nat) returns (w: nat)
      modifies prog`doneAbove
      ensures (w, prog.doneAbove) == Watermark.Absorb(start, old(prog.doneAbove))
    {
      w := start;
      while w in prog.doneAbove
        invariant Watermark.Absorb(w, prog.doneAbove) == Watermark.Absorb(start, old(prog.doneAbove))
        decreases prog.doneAbove
      {
        prog.doneAbove := prog.doneAbove - {w};
        w := w + 1;
      }
    }

    /** The watermark has moved since the last checkpoint, and far enough or long enough ago. */
    predicate CheckpointDue(w: nat, lastFlushed: nat, elapsedDue: bool) {
      w > lastFlushed && (w >= lastFlushed + checkpointEvery || elapsedDue)
    }

    /**
     * What is at risk between two checkpoints: the persisted cursor is the last checkpoint, if the zoom
     * has had one, and the watermark is less than a checkpoint interval ahead of it.
     */
    ghost predicate CheckpointKept(prog: Progress, zoom: nat)
      requires Valid() && store.m.run.Some?
      reads this, store, prog
    {
      && (checkpointEvery >= 1 ==> prog.watermark < prog.lastFlushed + checkpointEvery)
      && CursorAtCheckpoint(prog, zoom)
    }

    ghost predicate CursorAtCheckpoint(prog: Progress, zoom: nat)
      requires Valid() && store.m.run.Some?
      reads this, store, prog
    {
      prog.lastFlushed > Run().resume ==> store.cursor == Some(Cursor(zoom, prog.lastFlushed))
    }

    /**
     * Advance past the consecutively completed indices and checkpoint when due. `elapsedDue` says
     * that the time since the last checkpoint is up, `cut` is a cancellation landing at the
     * checkpoint, before or after its write.
     */
    method AdvanceWatermark(ses: SweepState, prog: Progress, zoom: nat, idx: nat, elapsedDue: bool)
      returns (w: nat, flushed: bool, cut: bool)
      requires Running(ses) && Run().phase == Queued(idx) && Run().zoom == zoom
      requires Run().wm == prog.watermark && Run().above == prog.doneAbove
      requires prog.watermark <= idx && prog.lastFlushed <= prog.watermark
      modifies store`m, store`cursor, store`failed, prog`doneAbove
      ensures Running(ses) && SameZoom(old(Run()), Run()) && Run().swept == old(Run().swept)
      ensures Run().wm == old(Run().wm) && Run().consumed == old(Run().consumed)
      ensures (w, prog.doneAbove) == Watermark.Advance(old(prog.watermark), old(prog.doneAbove), idx)
      ensures Run().above == prog.doneAbove
      ensures if flushed then Run().phase == Flushed(w) else Run().phase == Advanced(w)
      ensures store.cursor == if flushed then Some(Cursor(zoom, w)) else old(store.cursor)
      ensures flushed || cut ==> CheckpointDue(w, prog.lastFlushed, elapsedDue)
      ensures CheckpointDue(w, prog.lastFlushed, elapsedDue) ==> flushed || cut
    {
      hide Tripped, Signals, StorageErrors, Failures, LastN, Exceeds, Watermark.Absorb;
      w := prog.watermark;
      if idx == w {
        w := Absorb(prog, w + 1);
      } else if idx > w {
        prog.doneAbove := prog.doneAbove + {idx};
      }
      store.Move(Action.AdvanceWatermark);
      flushed, cut := false, false;
      var advanced := w - prog.lastFlushed;
      if (advanced >= checkpointEvery || elapsedDue) && advanced > 0 {
        cut := *;
        if cut { return; }
        store.SetCursor(zoom, w, Flush);
        flushed := true;
        cut := *;
      }
    }

    /** First half of a completion: the verdict, the counters, and the retry row when one is due. */
    method RecordOutcome(ses: SweepState, prog: Progress, zoom: nat, idx: nat, o: Outcome, exhausted: bool)
      returns (cut: bool)
      requires Running(ses) && Run().phase == Pump && !Stopped(plan, Run()) && Run().zoom == zoom
      requires Run().wm <= idx < plan.total(zoom) && idx !in Run().above
      modifies store`m, store`failed, ses, prog`ok, prog`failed
      ensures Running(ses) && SameZoom(old(Run()), Run())
      ensures Run().wm == old(Run().wm) && Run().above == old(Run().above)
      ensures Run().swept == old(Run().swept) + 1 && Run().consumed == old(Run().consumed) + [o]
      ensures if cut then InSweep(Run().phase) else Run().phase == Queued(idx)
      ensures !cut ==> prog.ok + prog.failed == old(prog.ok + prog.failed) + 1
                       && prog.ok == old(prog.ok) + (if o == Ok then 1 else 0)
    {
      hide Tripped, Signals, StorageErrors, Failures, LastN, Exceeds;
      cut := false;
      ses.Update(plan, o, exhausted);
      store.Move(Complete(idx, o, exhausted));
      if o == Ok {
        prog.ok := prog.ok + 1;
      } else {
        prog.failed := prog.failed + 1;
        if o != StorageSkipped {
          cut := *;
          if cut { return; }
          store.AddFailed(plan.tile(zoom, idx), QueueRow);
          cut := *;
          return;
        }
      }
      store.Move(QueueRow);
    }

    /** Fold one completed tile into the verdict, the counters and the watermark. */
    method HandleCompletion(ses: SweepState, prog: Progress, zoom: nat, idx: nat, o: Outcome, exhausted: bool,
                            elapsedDue: bool)
      returns (cut: bool)
      requires Running(ses) && Run().phase == Pump && !Stopped(plan, Run()) && Run().zoom == zoom
      requires Run().wm == prog.watermark && Run().above == prog.doneAbove
      requires prog.watermark <= idx < plan.total(zoom) && idx !in prog.doneAbove
      requires prog.lastFlushed <= prog.watermark && CursorAtCheckpoint(prog, zoom)
      modifies store`m, store`cursor, store`failed, ses, prog
      ensures Running(ses) && SameZoom(old(Run()), Run()) && InSweep(Run().phase)
      ensures Run().wm == prog.watermark && prog.lastFlushed <= prog.watermark
      ensures Run().swept == old(Run().swept) + 1 && Run().consumed == old(Run().consumed) + [o]
      ensures !cut ==> CheckpointKept(prog, zoom)
      ensures !cut ==>
                prog.lastFlushed == if CheckpointDue(prog.watermark, old(prog.lastFlushed), elapsedDue)
                                    then prog.watermark else old(prog.lastFlushed)
      ensures !cut ==>
                && Run().phase == Pump && Run().above == prog.doneAbove
                && (prog.watermark, prog.doneAbove) == Watermark.Advance(old(prog.watermark), old(prog.doneAbove), idx)
                && prog.ok + prog.failed == old(prog.ok + prog.failed) + 1
                && prog.ok == old(prog.ok) + (if o == Ok then 1 else 0)
      ensures cut ==> prog.watermark == old(prog.watermark)
    {
      hide Tripped, Signals, StorageErrors, Failures, LastN, Exceeds;
      cut := RecordOutcome(ses, prog, zoom, idx, o, exhausted);
      if cut { return; }
      var w, flushed;
      w, flushed, cut := AdvanceWatermark(ses, prog, zoom, idx, elapsedDue);
      if cut { return; }
      AdvanceNeverRetreats(prog.watermark, old(prog.doneAbove), idx);
      store.Move(HandBack);
      prog.watermark := w;
      if flushed { prog.lastFlushed := w; }
    }

    static lemma DownloadsStep(os: seq<Outcome>, o: Outcome)
      ensures Downloads(os + [o]) == Downloads(os) + (if o == Ok then 1 else 0)
    {
      assert (os + [o])[..|os|] == os;
    }

    static lemma AdvanceNeverRetreats(w: nat, above: set<nat>, i: nat)
      ensures Watermark.Advance(w, above, i).0 >= w
    {
      AbsorbCounts(w + 1, above);
    }

    static function Span(start: nat, end: nat): (s: set<nat>)
      ensures forall j :: j in s <==> start <= j < end
      decreases end - start
    {
      if start >= end then {} else {start} + Span(start + 1, end)
    }

    /**
     * Drain one chunk. Completions arrive in any order and may be cut by a cancellation; unless a
     * verdict or a cancellation stops it, the watermark ends at the chunk's end with nothing above.
     */
    method SweepChunk(ses: SweepState, prog: Progress, zoom: nat, start: nat, end: nat) returns (cut: bool)
      requires Running(ses) && Run().phase == Pump && !Stopped(plan, Run()) && Run().zoom == zoom
      requires Run().wm == prog.watermark == start && Run().above == prog.doneAbove == {}
      requires start < end <= plan.total(zoom) && prog.lastFlushed <= prog.watermark && CheckpointKept(prog, zoom)
      modifies store`m, store`cursor, store`failed, ses, prog
      ensures Running(ses) && SameZoom(old(Run()), Run()) && InSweep(Run().phase)
      ensures Run().wm == prog.watermark && prog.lastFlushed <= prog.watermark
      ensures !cut ==> Run().phase == Pump && Run().above == prog.doneAbove && CheckpointKept(prog, zoom)
      ensures !cut && !Stopped(plan, Run()) ==> prog.watermark == end && prog.doneAbove == {}
      ensures !cut ==> prog.ok + prog.failed - old(prog.ok + prog.failed) == |Run().consumed| - |old(Run().consumed)|
      ensures !cut ==> prog.ok - old(prog.ok) == Downloads(Run().consumed) - Downloads(old(Run().consumed))
    {
      cut := false;
      hide Tripped, Signals, StorageErrors, Failures, LastN, Exceeds, Downloads, Advance, Watermark.Absorb, Apply, Enabled;
      var pending := Span(start, end);
      while pending != {} && !ses.tripped && !ses.abandoned
        invariant Running(ses) && SameZoom(old(Run()), Run()) && Run().phase == Pump && !cut
        invariant Run().wm == prog.watermark && Run().above == prog.doneAbove && prog.lastFlushed <= prog.watermark
        invariant start <= prog.watermark <= end && prog.watermark !in prog.doneAbove && CheckpointKept(prog, zoom)
        invariant forall j :: j in prog.doneAbove ==> prog.watermark < j < end
        invariant forall j :: j in pending <==> prog.watermark <= j < end && j !in prog.doneAbove
        invariant prog.ok + prog.failed - old(prog.ok + prog.failed) == |Run().consumed| - |old(Run().consumed)|
        invariant prog.ok - old(prog.ok) == Downloads(Run().consumed) - Downloads(old(Run().consumed))
        decreases pending
      {
        cut := *;
        if cut { return; }
        var idx: nat :| idx in pending;
        var admits: bool, fetch: Fetch, persisted: bool, exhausted: bool, elapsedDue: bool := *, *, *, *, *;
        var o := TileOutcome(admits, fetch, persisted);
        AdvanceBounds(prog.watermark, prog.doneAbove, idx, end);
        ghost var before := Run().consumed;
        cut := HandleCompletion(ses, prog, zoom, idx, o, exhausted, elapsedDue);
        if cut { return; }
        DownloadsStep(before, o);
        pending := pending - {idx};
      }
      if pending == {} {
        var w := prog.watermark;
        assert w < end ==> w in pending;
        assert prog.doneAbove == {};
      }
    }

    /** A zoom about to be worked on: nothing swept yet. */
    ghost predicate AtZoomStart(zoom: nat, resume: nat)
      requires Valid() && store.m.run.Some?
      reads this, store
    {
      && Run().phase == AtZoom && Run().zoom == zoom && Run().resume == resume
      && Run().wm == resume && Run().above == {}
    }

    /** The counters a zoom method returns, against what the call consumed meanwhile. */
    static ghost predicate Counts(ok: nat, failed: nat, before: seq<Outcome>, after: seq<Outcome>) {
      ok + failed == |after| - |before| && ok == Downloads(after) - Downloads(before)
    }

    /** Chunk after chunk from the watermark on, until the total, a verdict or a cancellation. */
    method SweepChunks(ses: SweepState, prog: Progress, zoom: nat, total: nat) returns (cut: bool)
      requires Running(ses) && Run().phase == Pump && !Stopped(plan, Run()) && Run().zoom == zoom
      requires Run().wm == prog.watermark <= total == plan.total(zoom) && Run().above == prog.doneAbove == {}
      requires prog.lastFlushed == prog.watermark == Run().resume && prog.ok == prog.failed == 0
      modifies store`m, store`cursor, store`failed, ses, prog
      ensures Running(ses) && SameZoom(old(Run()), Run()) && InSweep(Run().phase) && Run().wm == prog.watermark
      ensures !cut ==>
                && Run().phase == Pump && (Stopped(plan, Run()) || prog.watermark == total) && CheckpointKept(prog, zoom)
                && Counts(prog.ok, prog.failed, old(Run().consumed), Run().consumed)
    {
      hide Tripped, Signals, StorageErrors, Failures, LastN, Exceeds, Downloads, Apply, Enabled;
      var chunkStart := prog.watermark;
      cut := false;
      while chunkStart < total && !ses.tripped && !ses.abandoned && !cut
        invariant Running(ses) && SameZoom(old(Run()), Run()) && InSweep(Run().phase) && chunkStart <= total
        invariant Run().wm == prog.watermark && prog.lastFlushed <= prog.watermark
        invariant !cut ==> Run().phase == Pump && Run().above == prog.doneAbove && CheckpointKept(prog, zoom)
        invariant !cut && !Stopped(plan, Run()) ==> prog.watermark == chunkStart && prog.doneAbove == {}
        invariant !cut ==> Counts(prog.ok, prog.failed, old(Run().consumed), Run().consumed)
        decreases total - chunkStart, !cut
      {
        cut := *;
        if !cut {
          var chunkEnd := if chunkStart + fanout < total then chunkStart + fanout else total;
          cut := SweepChunk(ses, prog, zoom, chunkStart, chunkEnd);
          chunkStart := chunkEnd;
        }
      }
    }

    /** What that write does to the machine. */
    static lemma FinalWrite(p: Plan, s: State, cut: bool)
      requires ValidPlan(p) && Reachable(p, s) && s.run.Some? && InSweep(s.run.value.phase)
      requires var r := s.run.value; !cut ==> r.phase == Pump && (Stopped(p, r) || r.wm == p.total(r.zoom))
      ensures var r, a := s.run.value, if cut then Abort else FinishZoom;
              && Enabled(p, s, a)
              && Apply(p, s, a).db == s.db.(cursor := Some(if r.wm >= p.total(r.zoom) then Cursor(r.zoom + 1, 0)
                                                           else Cursor(r.zoom, r.wm)))
              && (!cut ==> Apply(p, s, a).run == Some(r.(phase := ZoomDone)))
              && (cut ==> Apply(p, s, a).run.None?
                          && NotBefore(StartOf(p, Apply(p, s, a).db), r.startZoom, r.startIndex)
                          && SameOutside(s.db.failed, r.rows, r.startZoom, r.zoom + 1))
    {
      hide Tripped, StorageErrors;
      if cut {
        PlaceWhenCut(p, s, Abort);
        UnenteredRowsWait(p, s, s.run.value.zoom + 1);
      }
    }

    /** The write that ends a zoom, cancelled or not: the next zoom when it is complete, else the watermark. */
    method FinishSweep(ses: SweepState, zoom: nat, w: nat, cut: bool)
      requires Running(ses) && InSweep(Run().phase) && Run().zoom == zoom && Run().wm == w
      requires !cut ==> Run().phase == Pump && (Stopped(plan, Run()) || w == plan.total(zoom))
      modifies store`m, store`cursor
      ensures Valid() && store.cursor == Some(if w >= plan.total(zoom) then Cursor(zoom + 1, 0) else Cursor(zoom, w))
      ensures cut ==> store.m.run.None? && OthersWait(old(Run()), zoom) && PlaceKept(old(Run()), true)
      ensures !cut ==> Running(ses) && store.m.run == Some(old(Run()).(phase := ZoomDone))
    {
      FinalWrite(plan, store.m, cut);
      hide Tripped, Signals, StorageErrors, Failures, LastN, Exceeds, SameOutside, NotBefore, ValidPlan, Apply, Enabled, Reachable;
      var total := plan.total(zoom);
      var nextZoom := if w >= total then zoom + 1 else zoom;
      var nextIndex := if w >= total then 0 else w;
      store.SetCursor(nextZoom, nextIndex, if cut then Abort else FinishZoom);
    }

    /**
     * Fan out one zoom in bounded chunks. However it ends, the cursor is written: at the next zoom
     * when the watermark reached the total, otherwise at the watermark.
     */
    method RunIndexedSweep(ses: SweepState, zoom: nat, resume: nat) returns (ok: nat, failed: nat, cut: bool)
      requires Running(ses) && AtZoomStart(zoom, resume) && !Stopped(plan, Run()) && Run().left == {}
      modifies store`m, store`cursor, store`failed, ses
      ensures Valid() && (cut ==> store.m.run.None?)
      ensures cut ==> OthersWait(old(Run()), zoom) && PlaceKept(old(Run()), true)
      ensures !cut ==>
                && Running(ses) && SameZoom(old(Run()), Run()) && Run().phase == ZoomDone
                && Counts(ok, failed, old(Run().consumed), Run().consumed) && store.cursor.Some?
    {
      hide Tripped, Signals, StorageErrors, Failures, LastN, Exceeds, Downloads;
      var total := plan.total(zoom);
      if resume >= total {
        store.SetCursor(zoom + 1, 0, EnterSweep);
        return 0, 0, false;
      }
      store.Move(EnterSweep);
      var prog := new Progress(resume);
      cut := SweepChunks(ses, prog, zoom, total);
      FinishSweep(ses, zoom, prog.watermark, cut);
      ok, failed := prog.ok, prog.failed;
    }

    /** The table has the rows it had when the call began, at every zoom the call has not entered. */
    ghost predicate OthersWait(r: Session, zoom: nat)
      reads this, store
    {
      SameOutside(store.failed, r.rows, r.startZoom, zoom + 1)
    }

    /** The next call starts no earlier than this one did, and finds a cursor if this one did. */
    ghost predicate PlaceKept(r: Session, hadCursor: bool)
      reads this, store
    {
      NotBefore(StartOf(plan, store.m.db), r.startZoom, r.startIndex) && (hadCursor ==> store.cursor.Some?)
    }

    /** One retry: a stored tile leaves the table. */
    method RetryTile(ses: SweepState, zoom: nat, resume: nat, t: Tile) returns (stored: bool)
      requires Running(ses) && AtZoomStart(zoom, resume) && !Stopped(plan, Run())
      requires t in store.failed && t in Run().left
      modifies store`m, store`failed, ses
      ensures Running(ses) && SameCall(old(Run()), Run()) && AtZoomStart(zoom, resume)
      ensures Run().left == old(Run().left) - {t}
      ensures Counts(if stored then 1 else 0, if stored then 0 else 1, old(Run().consumed), Run().consumed)
      ensures store.failed == if stored then old(store.failed) - {t} else old(store.failed)
    {
      hide Tripped, Signals, StorageErrors, Failures, LastN, Exceeds, Downloads;
      var admits: bool, fetch: Fetch, persisted: bool, exhausted: bool := *, *, *, *;
      var o := TileOutcome(admits, fetch, persisted);
      DownloadsStep(Run().consumed, o);
      ses.Update(plan, o, exhausted);
      store.Move(Retry(t, o, exhausted));
      stored := o == Ok;
      if stored { store.RemoveFailed(t, RemoveRow); }
    }

    /** A cancellation while retrying writes nothing more. */
    ghost method EndCutOff(zoom: nat)
      requires Valid() && store.m.run.Some? && Run().phase == AtZoom && Run().zoom == zoom
      modifies store`m
      ensures Valid() && store.m.run.None? && OthersWait(old(Run()), zoom)
      ensures PlaceKept(old(Run()), store.cursor.Some?)
    {
      PlaceWhenCut(plan, store.m, Crash);
      UnenteredRowsWait(plan, store.m, zoom + 1);
      store.Move(Crash);
    }

    /** The rows still to be retried are all the table holds for the zoom. */
    ghost predicate RowsListed(zoom: nat)
      requires Valid() && store.m.run.Some?
      reads this, store
    {
      Run().left == RowsIn(store.failed, zoom, zoom + 1)
    }

    /** Retry the zoom's queued tiles one by one, each exactly once unless a verdict stops the loop. */
    method RetryFailedTiles(ses: SweepState, zoom: nat, resume: nat) returns (ok: nat, failed: nat, cut: bool)
      requires Running(ses) && AtZoomStart(zoom, resume) && !Stopped(plan, Run()) && RowsListed(zoom)
      modifies store`m, store`failed, ses
      ensures Valid() && (cut ==> store.m.run.None?)
      ensures cut ==> OthersWait(old(Run()), zoom) && PlaceKept(old(Run()), store.cursor.Some?)
      ensures !cut ==>
                && Running(ses) && SameCall(old(Run()), Run()) && AtZoomStart(zoom, resume)
                && Counts(ok, failed, old(Run().consumed), Run().consumed)
                && |store.failed| + ok == |old(store.failed)| && store.failed <= old(store.failed)
      ensures !cut && !Stopped(plan, Run()) ==>
                Run().left == {} && ok + failed == |RowsIn(old(store.failed), zoom, zoom + 1)|
    {
      hide Tripped, Signals, StorageErrors, Failures, LastN, Exceeds, Downloads, Apply, Enabled, Reachable;
      var rows := store.ListFailed(zoom);
      ok, failed, cut := 0, 0, false;
      var k := 0;
      while k < |rows| && !ses.tripped && !ses.abandoned
        invariant Running(ses) && SameCall(old(Run()), Run()) && AtZoomStart(zoom, resume) && 0 <= k <= |rows|
        invariant forall j :: k <= j < |rows| ==> rows[j] in store.failed && rows[j] in Run().left
        invariant |Run().left| == |rows| - k && ok + failed == k
        invariant |store.failed| + ok == |old(store.failed)| && store.failed <= old(store.failed)
        invariant Counts(ok, failed, old(Run().consumed), Run().consumed)
      {
        cut := *;
        if cut {
          EndCutOff(zoom);
          return;
        }
        var stored := RetryTile(ses, zoom, resume, rows[k]);
        if stored { ok := ok + 1; } else { failed := failed + 1; }
        k := k + 1;
      }
    }

    /** One zoom: retry, sweep, and the end-of-zoom cleanup. */
    method ScrapeZoom(ses: SweepState, zoom: nat, resume: nat) returns (ok: nat, failed: nat, cut: bool)
      requires Running(ses) && AtZoomStart(zoom, resume) && !Stopped(plan, Run()) && RowsListed(zoom)
      modifies store`m, store`cursor, store`failed, ses
      ensures Valid() && (cut ==> store.m.run.None?)
      ensures cut ==> OthersWait(old(Run()), zoom) && PlaceKept(old(Run()), old(store.cursor.Some?))
      ensures old(store.cursor.Some?) ==> store.cursor.Some?
      ensures !cut ==>
                && Running(ses) && SameCall(old(Run()), Run()) && Run().zoom == zoom
                && (Run().phase == ZoomDone || (Run().phase == AtZoom && Stopped(plan, Run())))
                && Counts(ok, failed, old(Run().consumed), Run().consumed)
      ensures !cut && !Stopped(plan, Run()) ==>
                ok + failed + resume == |RowsIn(old(store.failed), zoom, zoom + 1)| + plan.total(zoom)
    {
      hide Tripped, Signals, StorageErrors, Failures, LastN, Exceeds, Downloads;
      ok, failed, cut := RetryFailedTiles(ses, zoom, resume);
      if cut || ses.tripped || ses.abandoned { return; }
      ghost var entered := store.m;
      var sweepOk, sweepFailed;
      sweepOk, sweepFailed, cut := RunIndexedSweep(ses, zoom, resume);
      if cut { return; }
      if !Stopped(plan, Run()) { SweptZoom(plan, entered, store.m); }
      var remaining := store.ListFailed(zoom);
      if remaining == [] {
        assert forall t :: t in store.failed && t.z == zoom ==> t in remaining;
        store.ClearFailed(zoom);
      }
      ok, failed := ok + sweepOk, failed + sweepFailed;
    }

    /** The sizes a stamping call must add up to, from the machine's invariant. */
    static lemma StampedCounts(p: Plan, s: State)
      requires ValidPlan(p) && Reachable(p, s) && AboutToStamp(s)
      ensures var r := s.run.value;
              |r.consumed| + r.startIndex
              == |RowsIn(r.rows, r.startZoom, p.maxZoom + 1)| + Tiles(p, r.startZoom, p.maxZoom + 1)
    {
      ReachableKeepsInv(p, s);
      ReachableKeepsRows(p, s);
      AboutToStampCounts(p, s);
    }

    /**
     * The zooms of one call, from its start cursor. Ends cancelled, stopped by a verdict, or with
     * every zoom visited.
     */
    method ScrapeZooms(ses: SweepState, start: Cursor) returns (downloaded: nat, failed: nat, cut: bool)
      requires Running(ses) && Run().consumed == [] && !Stopped(plan, Run())
      requires Run().startZoom == start.zoom && Run().startIndex == start.index
      requires if start.zoom <= plan.maxZoom then AtZoomStart(start.zoom, start.index) && RowsListed(start.zoom)
               else Run().phase == LoopDone
      modifies store`m, store`cursor, store`failed, ses
      ensures Valid() && (cut ==> store.m.run.None?)
      ensures !cut ==>
                && Running(ses) && Counts(downloaded, failed, [], Run().consumed) && SameCall(old(Run()), Run())
                && (if Stopped(plan, Run()) then Run().phase == AtZoom || Run().phase == ZoomDone
                    else Run().phase == LoopDone)
      ensures SameOutside(store.failed, old(Run().rows), start.zoom, plan.maxZoom + 1)
      ensures PlaceKept(old(Run()), old(store.cursor.Some?))
    {
      hide Tripped, Signals, StorageErrors, Failures, LastN, Exceeds, Downloads, NotBefore;
      downloaded, failed, cut := 0, 0, false;
      var zoom := start.zoom;
      while zoom <= plan.maxZoom && !ses.tripped && !ses.abandoned
        invariant Running(ses) && Counts(downloaded, failed, [], Run().consumed)
        invariant SameCall(old(Run()), Run())
        invariant if Stopped(plan, Run()) then Run().phase == AtZoom || Run().phase == ZoomDone
                  else if zoom <= plan.maxZoom
                  then AtZoomStart(zoom, if zoom == start.zoom then start.index else 0) && RowsListed(zoom)
                  else Run().phase == LoopDone
        invariant start.zoom <= zoom && (old(store.cursor.Some?) ==> store.cursor.Some?)
        decreases plan.maxZoom + 1 - zoom
      {
        var resume := if zoom == start.zoom then start.index else 0;
        var ok, bad;
        ok, bad, cut := ScrapeZoom(ses, zoom, resume);
        if cut { return; }
        downloaded, failed := downloaded + ok, failed + bad;
        if !ses.tripped && !ses.abandoned { store.Move(NextZoom); }
        zoom := zoom + 1;
      }
      UnenteredRowsWait(plan, store.m, plan.maxZoom + 1);
      PlaceBetweenZooms(plan, store.m);
    }

    /** The first two closing writes: no cursor, no rows. */
    method DropProgress()
      requires Valid() && store.m.run.Some? && Run().phase == LoopDone && !Stopped(plan, Run())
      requires StorageErrors(Run().consumed) == 0
      modifies store
      ensures Valid() && store.m.run == Some(old(Run()).(phase := Dropped))
      ensures store.m.db == old(store.m.db).(cursor := None, failed := {})
    {
      hide Tripped, StorageErrors;
      store.ClearCursorRow(ClearCursor);
      store.ClearFailedForProvider(DropFailed);
    }

    /** The last two closing writes: the stamp, and a healthy provider. */
    method StampAndClose(now: int)
      requires Valid() && AboutToStamp(store.m)
      modifies store
      ensures Valid() && store.m.run.None?
      ensures store.m.db == old(store.m.db).(lastCompleted := Some(now), health := None)
    {
      hide Tripped, StorageErrors;
      store.SetLastCompleted(now, Stamp(now));
      store.CloseCircuit(CloseHealth);
    }

    /** The four writes of a clean completion, in order. */
    method CloseClean(ses: SweepState, now: int)
      requires Running(ses) && Run().phase == LoopDone && !Stopped(plan, Run()) && StorageErrors(Run().consumed) == 0
      modifies store
      ensures Valid() && store.m.run.None?
      ensures store.m.db == Tables(None, {}, Some(now), None)
      ensures |old(Run().consumed)| + old(Run().startIndex)
              == |RowsIn(old(Run().rows), old(Run().startZoom), plan.maxZoom + 1)|
                 + Tiles(plan, old(Run().startZoom), plan.maxZoom + 1)
    {
      hide Tripped, Signals, StorageErrors, Failures, LastN, Exceeds, Downloads, RowsIn, Tiles, Apply, Enabled, Reachable;
      DropProgress();
      StampedCounts(plan, store.m);
      StampAndClose(now);
    }

    /** The bookkeeping after the zoom loop; `health` is the row read when the call started. */
    method Conclude(ses: SweepState, health: Option<Health>, now: int, downloaded: nat, failed: nat)
      returns (end: CallEnd, finished: int)
      requires Running(ses) && store.health == health && downloaded == Downloads(Run().consumed)
      requires downloaded + failed == |Run().consumed|
      requires if Stopped(plan, Run()) then Run().phase == AtZoom || Run().phase == ZoomDone
               else Run().phase == LoopDone
      modifies this, store
      ensures Valid() && store.m.run.None? && end != Skipped && end != Cancelled
      ensures end == Completed ==>
                && store.m.db == Tables(None, {}, Some(finished), None)
                && downloaded + failed + old(Run().startIndex)
                   == |RowsIn(old(Run().rows), old(Run().startZoom), plan.maxZoom + 1)|
                      + Tiles(plan, old(Run().startZoom), plan.maxZoom + 1)
      ensures end == EndOf(plan, old(Run().consumed), old(Run().abandoned))
      ensures end != Completed ==> store.failed == old(store.failed)
      ensures end == CircuitOpened || end == SweepAbandoned ==> store.cursor == old(store.cursor)
      ensures finished >= now
      ensures end == CircuitOpened ==> OpenedAfter(health, finished, downloaded)
      ensures end == SweepIncomplete ==> store.cursor == None
      ensures end != Completed && end != CircuitOpened ==> store.health == health
      ensures end != Completed ==> store.lastCompleted == old(store.lastCompleted)
      ensures storageRetryDue == (old(storageRetryDue) || end == SweepAbandoned || end == SweepIncomplete)
      ensures storageDown == (old(storageDown) || end == SweepAbandoned)
      ensures !storageRetryDue ==>
                (Due(plan, store.m.db, finished) <==> end == Completed && plan.interval <= 0)
    {
      hide Tripped, Signals, StorageErrors, Failures, LastN, Exceeds, Downloads;
      finished :| finished >= now;
      if ses.tripped {
        var prior := if health.Some? then health.value.trips else 0;
        var trips := if downloaded > 0 then 1 else prior + 1;
        assert Cooldown(plan.schedule, trips) > 0;
        store.OpenCircuit(trips, finished + Cooldown(plan.schedule, trips), Trip(finished));
        return CircuitOpened, finished;
      }
      if ses.abandoned {
        storageRetryDue, storageDown := true, true;
        store.Move(GiveUp);
        return SweepAbandoned, finished;
      }
      if ses.storageErrors > 0 {
        store.ClearCursorRow(CloseIncomplete);
        storageRetryDue := true;
        return SweepIncomplete, finished;
      }
      CloseClean(ses, finished);
      return Completed, finished;
    }

    /** The health row after a trip: progress restarts the escalation, otherwise it deepens. */
    ghost predicate OpenedAfter(prior: Option<Health>, now: int, downloaded: nat)
      reads this, store
    {
      var trips := if downloaded > 0 then 1 else (if prior.Some? then prior.value.trips else 0) + 1;
      && store.health.Some? && store.health.value.trips == trips
      && store.health.value.cooldownUntil == now + Cooldown(plan.schedule, trips)
    }

    /** The cooldown gate and the interval gate, as the call reads them. */
    method PassesGates(now: int) returns (passes: bool)
      requires Valid()
      ensures passes <==> Due(plan, store.m.db, now)
    {
      if store.health.Some? && store.health.value.cooldownUntil > now { return false; }
      if store.cursor.None? && store.lastCompleted.Some? && store.lastCompleted.value + plan.interval - now > 0 {
        return false;
      }
      return true;
    }

    /**
     * One scrape call. It may start from any reachable tables, in particular from those a crash
     * left behind, and always leaves reachable tables with no call running.
     */
    method ScrapeProvider(now: int)
      returns (end: CallEnd, finished: int, downloaded: nat, failed: nat,
               ghost consumed: seq<Outcome>, ghost abandoned: bool)
      requires Valid() && store.m.run.None?
      modifies this, store
      ensures Valid() && store.m.run.None?
      ensures end == Skipped <==> old(storageDown) || !Due(plan, old(store.m.db), now)
      ensures end == Skipped ==> store.m == old(store.m) && downloaded == failed == 0
      ensures finished >= now
      ensures end != Skipped && end != Cancelled ==>
                end == EndOf(plan, consumed, abandoned) && Counts(downloaded, failed, [], consumed)
      ensures end == Completed ==> store.m.db == Tables(None, {}, Some(finished), None)
      ensures end == Completed ==>
                var start := StartOf(plan, old(store.m.db));
                downloaded + failed + start.index
                == |RowsIn(old(store.failed), start.zoom, plan.maxZoom + 1)| + Tiles(plan, start.zoom, plan.maxZoom + 1)
      ensures end != Completed ==>
                SameOutside(store.failed, old(store.failed), StartOf(plan, old(store.m.db)).zoom, plan.maxZoom + 1)
      ensures end != Completed && end != SweepIncomplete && old(store.cursor).Some? ==>
                store.cursor.Some? && !LexLess(store.cursor.value, old(store.cursor).value)
      ensures end == CircuitOpened ==> OpenedAfter(old(store.health), finished, downloaded)
      ensures end == SweepIncomplete ==> store.cursor == None
      ensures end != Completed && end != CircuitOpened ==> store.health == old(store.health)
      ensures end != Completed ==> store.lastCompleted == old(store.lastCompleted)
      ensures storageRetryDue == (old(storageRetryDue) || end == SweepAbandoned || end == SweepIncomplete)
      ensures storageDown == (old(storageDown) || end == SweepAbandoned)
      ensures end != Cancelled && !storageRetryDue ==>
                (Due(plan, store.m.db, finished) <==> end == Completed && plan.interval <= 0)
    {
      finished, downloaded, failed, consumed, abandoned := now, 0, 0, [], false;
      if storageDown { return Skipped, now, 0, 0, [], false; }
      var passes := PassesGates(now);
      if !passes { return Skipped, now, 0, 0, [], false; }
      var health := store.health;
      hide Tripped, Signals, StorageErrors, Failures, LastN, Exceeds, Downloads;
      var start := if store.cursor.Some? then store.cursor.value else Cursor(plan.minZoom, 0);
      var ses := new SweepState(plan);
      store.Move(Begin(now));
      var cut;
      downloaded, failed, cut := ScrapeZooms(ses, start);
      if cut { return Cancelled, now, downloaded, failed, [], false; }
      consumed, abandoned := Run().consumed, Run().abandoned;
      end, finished := Conclude(ses, health, now, downloaded, failed);
    }
  }
}

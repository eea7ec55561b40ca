/** What every run of the sweep machine keeps, whatever the interleaving, trips, aborts and crashes. */
module SweepSafety {
  import opened Basics
  import opened TileGrid
  import opened Watermark
  import opened SweepModel

  // ------------------------------------------------------------------ the invariant

  /** A tile the sweep has answered for: stored, queued for retry, or skipped when last visited. */
  ghost predicate Accounted(s: State, t: Tile) {
    t in s.seen.last && (t in s.seen.kept || t in s.db.failed || s.seen.last[t] == StorageSkipped)
  }

  predicate Before(z: nat, i: nat, z': nat, i': nat) { z < z' || (z == z' && i < i') }

  /** Every tile of the plan strictly before position (z, i) is accounted for. */
  ghost predicate Covered(p: Plan, s: State, z: nat, i: nat) {
    forall z': nat, j: nat {:trigger p.tile(z', j)} ::
      p.minZoom <= z' && j < p.total(z') && Before(z', j, z, i) ==> Accounted(s, p.tile(z', j))
  }

  ghost predicate AllAnswered(p: Plan, s: State) {
    forall z: nat, j: nat {:trigger p.tile(z, j)} ::
      p.minZoom <= z <= p.maxZoom && j < p.total(z) ==> p.tile(z, j) in s.seen.last
  }

  /** Tiles of zooms `a <= z < b`. */
  function Tiles(p: Plan, a: nat, b: nat): nat
    decreases b
  {
    if b <= a then 0 else Tiles(p, a, b - 1) + p.total(b - 1)
  }

  ghost predicate CursorInv(p: Plan, s: State) {
    s.db.cursor.Some? ==>
      var c := s.db.cursor.value;
      && p.minZoom <= c.zoom && c.index <= p.total(c.zoom)
      && (c.zoom > p.maxZoom ==> c.index == 0)
      && Covered(p, s, c.zoom, c.index)
  }

  ghost predicate CursorAtMost(s: State, z: nat, i: nat) {
    s.db.cursor.Some? ==> !Before(z, i, s.db.cursor.value.zoom, s.db.cursor.value.index)
  }

  /** The consumed tile that still waits for its retry row, if any. */
  predicate Pending(p: Plan, s: State, t: Tile) {
    && s.run.Some? && s.run.value.phase.Got? && NeedsRow(s.run.value.phase.o)
    && t == p.tile(s.run.value.zoom, s.run.value.phase.i)
  }

  /** While the sweep can still be resumed: its cursor is set, or its call has not dropped the rows. */
  predicate Resumable(s: State) {
    s.db.cursor.Some? || (s.run.Some? && !s.run.value.phase.Dropped? && !s.run.value.phase.Stamped?)
  }

  /** An attempted tile is stored, queued, torn by an interruption, or about to be queued. */
  ghost predicate TriedInv(p: Plan, s: State) {
    && s.seen.torn <= s.seen.tried
    && (Resumable(s) ==>
          forall t :: t in s.seen.tried ==>
            t in s.seen.kept || t in s.db.failed || t in s.seen.torn || Pending(p, s, t))
  }

  /** Indices above `w` that are already done. */
  ghost predicate AboveInv(p: Plan, s: State, r: Session, w: nat) {
    && w !in r.above
    && forall j :: j in r.above ==> w < j < p.total(r.zoom) && Accounted(s, p.tile(r.zoom, j))
  }

  ghost predicate PhaseInv(p: Plan, s: State, r: Session) {
    match r.phase
    case AtZoom =>
      Covered(p, s, r.zoom, r.resume) && CursorAtMost(s, r.zoom, r.resume) && r.left <= s.db.failed
    case Retried(t) =>
      && Covered(p, s, r.zoom, r.resume) && CursorAtMost(s, r.zoom, r.resume)
      && t in s.seen.kept && r.left <= s.db.failed - {t}
    case Pump =>
      Covered(p, s, r.zoom, r.wm) && AboveInv(p, s, r, r.wm) && CursorAtMost(s, r.zoom, r.wm)
    case Got(i, o) =>
      && Covered(p, s, r.zoom, r.wm) && AboveInv(p, s, r, r.wm) && CursorAtMost(s, r.zoom, r.wm)
      && r.wm <= i < p.total(r.zoom) && i !in r.above
      && p.tile(r.zoom, i) in s.seen.last && s.seen.last[p.tile(r.zoom, i)] == o
      && (o == Ok ==> p.tile(r.zoom, i) in s.seen.kept)
      && (o != StorageSkipped ==> p.tile(r.zoom, i) in s.seen.tried)
    case Queued(i) =>
      && Covered(p, s, r.zoom, r.wm) && AboveInv(p, s, r, r.wm) && CursorAtMost(s, r.zoom, r.wm)
      && r.wm <= i < p.total(r.zoom) && i !in r.above && Accounted(s, p.tile(r.zoom, i))
    case Advanced(w) =>
      && r.wm <= w <= p.total(r.zoom) && Covered(p, s, r.zoom, w) && AboveInv(p, s, r, w)
      && CursorAtMost(s, r.zoom, r.wm)
    case Flushed(w) =>
      && r.wm <= w <= p.total(r.zoom) && Covered(p, s, r.zoom, w) && AboveInv(p, s, r, w)
      && s.db.cursor == Some(Cursor(r.zoom, w))
    case ZoomDone => !Stopped(p, r) ==> s.db.cursor == Some(Cursor(r.zoom + 1, 0))
    case LoopDone =>
      !Stopped(p, r) && Covered(p, s, r.zoom, 0)
    case Cleared => s.db.cursor.None? && AllAnswered(p, s) && Covered(p, s, r.zoom, 0)
    case Dropped => s.db.cursor.None? && AllAnswered(p, s)
    case Stamped => s.db.cursor.None? && AllAnswered(p, s)
  }

  predicate Closing(ph: Phase) { ph.LoopDone? || ph.Cleared? || ph.Dropped? || ph.Stamped? }

  /** How many main-sweep completions the session has consumed, phase by phase. */
  ghost predicate CountInv(p: Plan, r: Session) {
    && |r.consumed| == r.retried + r.swept
    && match r.phase
       case AtZoom => r.swept + r.startIndex == Tiles(p, r.startZoom, r.zoom) + r.resume
       case Retried(_) => r.swept + r.startIndex == Tiles(p, r.startZoom, r.zoom) + r.resume
       case Pump => r.swept + r.startIndex == Tiles(p, r.startZoom, r.zoom) + r.wm + |r.above|
       case Got(_, _) => r.swept + r.startIndex == Tiles(p, r.startZoom, r.zoom) + r.wm + |r.above| + 1
       case Queued(_) => r.swept + r.startIndex == Tiles(p, r.startZoom, r.zoom) + r.wm + |r.above| + 1
       case Advanced(w) => r.swept + r.startIndex == Tiles(p, r.startZoom, r.zoom) + w + |r.above|
       case Flushed(w) => r.swept + r.startIndex == Tiles(p, r.startZoom, r.zoom) + w + |r.above|
       case ZoomDone => !Stopped(p, r) ==> r.swept + r.startIndex == Tiles(p, r.startZoom, r.zoom + 1)
       case LoopDone => r.swept + r.startIndex == Tiles(p, r.startZoom, p.maxZoom + 1)
       case _ =>
         && r.swept + r.startIndex == Tiles(p, r.startZoom, p.maxZoom + 1)
         && !Stopped(p, r) && StorageErrors(r.consumed) == 0
  }

  ghost predicate SessionInv(p: Plan, s: State, r: Session) {
    && p.minZoom <= r.startZoom <= r.zoom
    && (InSweep(r.phase) ==> r.wm <= p.total(r.zoom))
    && r.resume <= p.total(r.zoom) && (InSweep(r.phase) || r.phase.AtZoom? || r.phase.Retried? ==> r.resume <= r.wm)
    && (if Closing(r.phase) then r.zoom > p.maxZoom else r.zoom <= p.maxZoom)
    && (r.phase.AtZoom? || r.phase.Retried? ==> r.wm == r.resume && r.above == {})
    && PhaseInv(p, s, r) && CountInv(p, r)
  }

  ghost predicate Inv(p: Plan, s: State) {
    CursorInv(p, s) && TriedInv(p, s) && (s.run.Some? ==> SessionInv(p, s, s.run.value))
  }

  // ------------------------------------------------------------------ preservation

  /** Coverage is inherited by a state that accounts for the same tiles. */
  lemma CoveredInherits(p: Plan, s: State, s': State, z: nat, i: nat, z': nat, i': nat)
    requires Covered(p, s, z, i) && !Before(z, i, z', i')
    requires forall t :: Accounted(s, t) ==> Accounted(s', t)
    ensures Covered(p, s', z', i')
  {
    forall a: nat, j: nat | p.minZoom <= a && j < p.total(a) && Before(a, j, z', i')
      ensures Accounted(s', p.tile(a, j))
    {
      assert Accounted(s, p.tile(a, j));
    }
  }

  lemma BeginKeepsInv(p: Plan, s: State, a: Action)
    requires ValidPlan(p) && Inv(p, s) && a.Begin? && Enabled(p, s, a)
    ensures Inv(p, Apply(p, s, a))
  {
    hide StorageErrors;
  }

  lemma RetryKeepsInv(p: Plan, s: State, a: Action)
    requires ValidPlan(p) && Inv(p, s) && (a.Retry? || a == RemoveRow) && Enabled(p, s, a)
    ensures Inv(p, Apply(p, s, a))
  {
    hide Tripped, StorageErrors;
    var s', r := Apply(p, s, a), s.run.value;
    assert forall t :: Accounted(s, t) ==> Accounted(s', t);
    CoveredInherits(p, s, s', r.zoom, r.resume, r.zoom, r.resume);
    if s.db.cursor.Some? {
      var c := s.db.cursor.value;
      CoveredInherits(p, s, s', c.zoom, c.index, c.zoom, c.index);
    }
  }

  lemma EnterKeepsInv(p: Plan, s: State, a: Action)
    requires ValidPlan(p) && Inv(p, s) && a == EnterSweep && Enabled(p, s, a)
    ensures Inv(p, Apply(p, s, a))
  {
    hide Tripped, StorageErrors;
  }

  lemma NextKeepsInv(p: Plan, s: State, a: Action)
    requires ValidPlan(p) && Inv(p, s) && a == NextZoom && Enabled(p, s, a)
    ensures Inv(p, Apply(p, s, a))
  {
    hide Tripped, StorageErrors;
  }

  /** A completion touches one tile, which no earlier position denotes. */
  lemma CompleteKeepsCovered(p: Plan, s: State, a: Action, z: nat, i: nat)
    requires ValidPlan(p) && a.Complete? && Enabled(p, s, a)
    requires Covered(p, s, z, i) && !Before(s.run.value.zoom, a.i, z, i)
    ensures Covered(p, Apply(p, s, a), z, i)
  {
    var s', zoom := Apply(p, s, a), s.run.value.zoom;
    forall z': nat, j: nat | p.minZoom <= z' && j < p.total(z') && Before(z', j, z, i)
      ensures Accounted(s', p.tile(z', j))
    {
      assert p.tile(z', j) != p.tile(zoom, a.i);
      assert Accounted(s, p.tile(z', j));
    }
  }

  lemma CompleteKeepsInv(p: Plan, s: State, a: Action)
    requires ValidPlan(p) && Inv(p, s) && a.Complete? && Enabled(p, s, a)
    ensures Inv(p, Apply(p, s, a))
  {
    hide Tripped, StorageErrors;
    var s', r := Apply(p, s, a), s.run.value;
    CompleteKeepsCovered(p, s, a, r.zoom, r.wm);
    if s.db.cursor.Some? {
      CompleteKeepsCovered(p, s, a, s.db.cursor.value.zoom, s.db.cursor.value.index);
    }
    forall j | j in r.above ensures Accounted(s', p.tile(r.zoom, j)) {
      assert p.tile(r.zoom, j) != p.tile(r.zoom, a.i);
    }
  }

  lemma QueueKeepsInv(p: Plan, s: State, a: Action)
    requires ValidPlan(p) && Inv(p, s) && a == QueueRow && Enabled(p, s, a)
    ensures Inv(p, Apply(p, s, a))
  {
    hide Tripped, StorageErrors;
    var s', r := Apply(p, s, a), s.run.value;
    assert forall t :: Accounted(s, t) ==> Accounted(s', t);
    CoveredInherits(p, s, s', r.zoom, r.wm, r.zoom, r.wm);
    if s.db.cursor.Some? {
      var c := s.db.cursor.value;
      CoveredInherits(p, s, s', c.zoom, c.index, c.zoom, c.index);
    }
  }

  /** Absorbing moves the watermark by exactly the number of indices it removes. */
  lemma {:induction false} AbsorbCounts(w: nat, above: set<nat>)
    ensures var (w', above') := Absorb(w, above);
            w <= w' && w' + |above'| == w + |above| && above' <= above && w' !in above'
            && forall j :: w <= j < w' ==> j in above
    decreases above
  {
    if w in above {
      AbsorbCounts(w + 1, above - {w});
    }
  }

  /** The local move of the watermark: bounds, count and what it leaves above. */
  lemma AdvanceBounds(wm: nat, above: set<nat>, i: nat, total: nat)
    requires wm <= i < total && i !in above && wm !in above
    requires forall j :: j in above ==> wm < j < total
    ensures var (w, above') := Advance(wm, above, i);
            && wm <= w <= total && w !in above && w != i
            && w + |above'| == wm + |above| + 1
            && (forall j :: j in above' <==> w < j && (j in above || j == i))
            && (forall j :: wm <= j < w ==> j in above || j == i)
  {
    if i == wm {
      AbsorbCounts(wm + 1, above);
      var (w, above') := Advance(wm, above, i);
      assert w > wm + 1 ==> w - 1 in above;
      AbsorbFindsFrontier(wm + 1, above, wm + 1, above);
    }
  }

  lemma AdvanceKeepsCovered(p: Plan, s: State, w: nat)
    requires s.run.Some? && s.run.value.phase.Queued?
    requires var r := s.run.value;
             && PhaseInv(p, s, r)
             && forall j :: r.wm <= j < w ==> j in r.above || j == r.phase.i
    ensures Covered(p, s, s.run.value.zoom, w)
  {
    var r := s.run.value;
    forall z': nat, j: nat | p.minZoom <= z' && j < p.total(z') && Before(z', j, r.zoom, w)
      ensures Accounted(s, p.tile(z', j))
    {
      if !Before(z', j, r.zoom, r.wm) { assert j in r.above || j == r.phase.i; }
    }
  }

  lemma AdvanceKeepsInv(p: Plan, s: State, a: Action)
    requires ValidPlan(p) && Inv(p, s) && a == AdvanceWatermark && Enabled(p, s, a)
    ensures Inv(p, Apply(p, s, a))
  {
    hide Tripped, StorageErrors, Advance, Watermark.Absorb, Tiles;
    var s', r := Apply(p, s, a), s.run.value;
    AdvanceBounds(r.wm, r.above, r.phase.i, p.total(r.zoom));
    var w := s'.run.value.phase.w;
    AdvanceKeepsCovered(p, s, w);
    CoveredInherits(p, s, s', r.zoom, w, r.zoom, w);
    if s.db.cursor.Some? {
      var c := s.db.cursor.value;
      CoveredInherits(p, s, s', c.zoom, c.index, c.zoom, c.index);
    }
  }

  lemma FlushKeepsInv(p: Plan, s: State, a: Action)
    requires ValidPlan(p) && Inv(p, s) && (a == Flush || a == HandBack) && Enabled(p, s, a)
    ensures Inv(p, Apply(p, s, a))
  {
    hide Tripped, StorageErrors;
  }

  /** The `finally` write persists a position the session already covers. */
  lemma FinalCursorCovered(p: Plan, s: State, zoom: nat, wm: nat)
    requires Covered(p, s, zoom, wm) && wm <= p.total(zoom)
    ensures var c := FinalCursor(p, zoom, wm); Covered(p, s, c.zoom, c.index)
  {
    var c := FinalCursor(p, zoom, wm);
    forall z': nat, j: nat | p.minZoom <= z' && j < p.total(z') && Before(z', j, c.zoom, c.index)
      ensures Accounted(s, p.tile(z', j))
    {
      assert Before(z', j, zoom, wm);
    }
  }

  lemma SweepCovered(p: Plan, s: State)
    requires Inv(p, s) && s.run.Some? && InSweep(s.run.value.phase)
    ensures Covered(p, s, s.run.value.zoom, s.run.value.wm) && s.run.value.wm <= p.total(s.run.value.zoom)
  {
    var r := s.run.value;
    if r.phase.Advanced? || r.phase.Flushed? {
      CoveredInherits(p, s, s, r.zoom, r.phase.w, r.zoom, r.wm);
    }
  }

  lemma FinishKeepsInv(p: Plan, s: State, a: Action)
    requires ValidPlan(p) && Inv(p, s) && a == FinishZoom && Enabled(p, s, a)
    ensures Inv(p, Apply(p, s, a))
  {
    hide Tripped, StorageErrors;
    var r := s.run.value;
    var s' := Apply(p, s, a);
    FinalCursorCovered(p, s, r.zoom, r.wm);
    var c := FinalCursor(p, r.zoom, r.wm);
    assert Covered(p, s', c.zoom, c.index) by { CoveredInherits(p, s, s', c.zoom, c.index, c.zoom, c.index); }
    if r.wm == p.total(r.zoom) {
      assert forall j :: j !in r.above;
      assert r.above == {};
    }
  }

  lemma StopKeepsInv(p: Plan, s: State, a: Action)
    requires ValidPlan(p) && Inv(p, s) && Enabled(p, s, a)
    requires a.Trip? || a == GiveUp || a == CloseIncomplete
    ensures Inv(p, Apply(p, s, a))
  {
    hide Tripped, StorageErrors;
  }

  lemma ClearKeepsInv(p: Plan, s: State, a: Action)
    requires ValidPlan(p) && Inv(p, s) && Enabled(p, s, a) && a == ClearCursor
    ensures Inv(p, Apply(p, s, a))
  {
    hide Tripped, StorageErrors;
    var s', r := Apply(p, s, a), s.run.value;
    forall z: nat, j: nat | p.minZoom <= z <= p.maxZoom && j < p.total(z)
      ensures p.tile(z, j) in s'.seen.last
    {
      assert Before(z, j, r.zoom, 0);
      assert Accounted(s, p.tile(z, j));
    }
  }

  lemma CloseKeepsInv(p: Plan, s: State, a: Action)
    requires ValidPlan(p) && Inv(p, s) && Enabled(p, s, a)
    requires a == DropFailed || a.Stamp? || a == CloseHealth
    ensures Inv(p, Apply(p, s, a))
  {
    hide Tripped, StorageErrors;
  }

  lemma InterruptKeepsInv(p: Plan, s: State, a: Action)
    requires ValidPlan(p) && Inv(p, s) && (a == Abort || a == Crash) && Enabled(p, s, a)
    ensures Inv(p, Apply(p, s, a))
  {
    hide Tripped, StorageErrors;
    var s', r := Apply(p, s, a), s.run.value;
    if a == Abort {
      SweepCovered(p, s);
      FinalCursorCovered(p, s, r.zoom, r.wm);
      var c := FinalCursor(p, r.zoom, r.wm);
      CoveredInherits(p, s, s', c.zoom, c.index, c.zoom, c.index);
    }
  }

  lemma StepKeepsInv(p: Plan, s: State, a: Action)
    requires ValidPlan(p) && Inv(p, s) && Enabled(p, s, a)
    ensures Inv(p, Apply(p, s, a))
  {
    hide *;
    match a
    case Begin(_) => BeginKeepsInv(p, s, a);
    case Retry(_, _, _) => RetryKeepsInv(p, s, a);
    case RemoveRow => RetryKeepsInv(p, s, a);
    case EnterSweep => EnterKeepsInv(p, s, a);
    case NextZoom => NextKeepsInv(p, s, a);
    case Complete(_, _, _) => CompleteKeepsInv(p, s, a);
    case QueueRow => QueueKeepsInv(p, s, a);
    case AdvanceWatermark => AdvanceKeepsInv(p, s, a);
    case Flush => FlushKeepsInv(p, s, a);
    case HandBack => FlushKeepsInv(p, s, a);
    case FinishZoom => FinishKeepsInv(p, s, a);
    case Abort => InterruptKeepsInv(p, s, a);
    case Crash => InterruptKeepsInv(p, s, a);
    case Trip(_) => StopKeepsInv(p, s, a);
    case GiveUp => StopKeepsInv(p, s, a);
    case CloseIncomplete => StopKeepsInv(p, s, a);
    case ClearCursor => ClearKeepsInv(p, s, a);
    case _ => CloseKeepsInv(p, s, a);
  }

  /** The invariant holds after every run. */
  lemma {:induction false} RunKeepsInv(p: Plan, log: seq<Action>)
    requires ValidPlan(p) && ValidLog(p, log)
    ensures Inv(p, After(p, log))
  {
    if log != [] {
      var init := log[..|log| - 1];
      RunKeepsInv(p, init);
      StepKeepsInv(p, After(p, init), log[|log| - 1]);
    }
  }

  // ------------------------------------------------------------------ write-ahead safety

  /** Some tile position of the plan strictly before the persisted cursor. */
  predicate BelowCursor(p: Plan, s: State, z: nat, i: nat) {
    && s.db.cursor.Some? && p.minZoom <= z && i < p.total(z)
    && Before(z, i, s.db.cursor.value.zoom, s.db.cursor.value.index)
  }

  /**
   * After every run, crashed or not, a tile below the persisted cursor got an outcome this
   * sweep and is stored, queued for retry, or was skipped when last visited.
   */
  lemma CursorNeverPassesUnanswered(p: Plan, log: seq<Action>, z: nat, i: nat)
    requires ValidPlan(p) && ValidLog(p, log) && BelowCursor(p, After(p, log), z, i)
    ensures var s, t := After(p, log), p.tile(z, i);
            && t in s.seen.last
            && (t in s.seen.kept || t in s.db.failed || s.seen.last[t] == StorageSkipped)
  {
    RunKeepsInv(p, log);
    assert Accounted(After(p, log), p.tile(z, i));
  }

  /** Only a successful retry, or a clean completion that already cleared the cursor, removes a row. */
  lemma RowsLeaveOnlyWhenSafe(p: Plan, log: seq<Action>, a: Action, t: Tile)
    requires ValidPlan(p) && ValidLog(p, log) && Enabled(p, After(p, log), a)
    requires t in After(p, log).db.failed && t !in Apply(p, After(p, log), a).db.failed
    ensures (a == RemoveRow && t in After(p, log).seen.kept)
            || (a == DropFailed && After(p, log).db.cursor.None? && AllAnswered(p, After(p, log)))
  {
    hide Tripped, StorageErrors, ValidLog, After;
    RunKeepsInv(p, log);
  }

  /** A row enters the table only for a tile just found missing, unavailable or impossible to store. */
  lemma RowsEnterOnlyForFailures(p: Plan, log: seq<Action>, a: Action, t: Tile)
    requires ValidPlan(p) && ValidLog(p, log) && Enabled(p, After(p, log), a)
    requires t !in After(p, log).db.failed && t in Apply(p, After(p, log), a).db.failed
    ensures a == QueueRow && t in After(p, log).seen.last
    ensures var o := After(p, log).seen.last[t]; o == Missing || o == Unavailable || o == StorageError
  {
    hide Tripped, StorageErrors, ValidLog, After;
    RunKeepsInv(p, log);
  }

  // ------------------------------------------------------------------ the cursor only moves forward

  predicate LexLess(c: Cursor, d: Cursor) { Before(c.zoom, c.index, d.zoom, d.index) }

  /**
   * Within a sweep a step moves the persisted cursor backwards exactly when it is the `finally`
   * write of a call cancelled inside a checkpoint: the checkpoint landed, its watermark did not.
   */
  lemma CursorMovesBackOnlyOnTornFlush(p: Plan, log: seq<Action>, a: Action)
    requires ValidPlan(p) && ValidLog(p, log) && Enabled(p, After(p, log), a)
    requires After(p, log).db.cursor.Some? && Apply(p, After(p, log), a).db.cursor.Some?
    ensures var s := After(p, log);
            LexLess(Apply(p, s, a).db.cursor.value, s.db.cursor.value)
            <==> a == Abort && s.run.value.phase.Flushed? && s.run.value.wm < s.run.value.phase.w
  {
    hide Tripped, StorageErrors, ValidLog, After;
    RunKeepsInv(p, log);
  }

  // ------------------------------------------------------------------ what a completed sweep means

  /** The next write of the running call is the completion stamp. */
  predicate AboutToStamp(s: State) { s.run.Some? && s.run.value.phase == Dropped }

  /**
   * The rows a clean completion is about to drop are all that separates the sweep from having
   * stored everything it did not skip.
   */
  lemma DroppedRowsAreTheShortfall(p: Plan, log: seq<Action>, z: nat, i: nat)
    requires ValidPlan(p) && ValidLog(p, log) && Enabled(p, After(p, log), DropFailed)
    requires p.minZoom <= z <= p.maxZoom && i < p.total(z)
    ensures var s, t := After(p, log), p.tile(z, i);
            t in s.seen.last
            && (t in s.seen.kept || t in s.db.failed || s.seen.last[t] == StorageSkipped)
  {
    RunKeepsInv(p, log);
    assert Accounted(After(p, log), p.tile(z, i));
  }

  lemma ReachableKeepsInv(p: Plan, s: State)
    requires ValidPlan(p) && Reachable(p, s)
    ensures Inv(p, s)
  {
    var log :| ValidLog(p, log) && After(p, log) == s;
    RunKeepsInv(p, log);
  }
}

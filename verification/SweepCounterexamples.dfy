/** Runs that show where two natural readings of the sweep's guarantees stop holding. */
module SweepCounterexamples {
  import opened Basics
  import opened TileGrid
  import opened Watermark
  import opened SweepModel
  import opened SweepSafety
  import opened SweepHistory

  /** One zoom of two tiles, with the default breaker settings scaled down. */
  const Small := Plan(0, 0, (z: nat) => 2, (z: nat, i: nat) => Tile(z, i, 0), 60, 20, 10, 0.8, [300])

  /** The first tile is stored and checkpointed; the second fails just before the process dies. */
  lemma DiesBeforeRow() returns (s: State)
    ensures ValidPlan(Small) && Reachable(Small, s) && s.run.None?
    ensures s.db == Tables(Some(Cursor(0, 1)), {}, None, None)
    ensures Tile(0, 1, 0) in s.seen.tried && Tile(0, 1, 0) !in s.seen.kept
  {
    s := Checkpointed();
    s := Then(s, HandBack);
    s := Then(s, Complete(1, Unavailable, false));
    s := Then(s, Crash);
  }

  /**
   * The resumed sweep skips the failed tile: the cursor passes a tile that is neither stored nor
   * queued, although it was not only skipped.
   */
  lemma TornRowLosesTile() returns (s: State)
    ensures ValidPlan(Small) && Reachable(Small, s)
    ensures BelowCursor(Small, s, 0, 1)
    ensures !WriteAhead(s, Small.tile(0, 1))
  {
    s := SkippedOnResume();
    s := Then(s, AdvanceWatermark);
    s := Then(s, Flush);
  }

  lemma SkippedOnResume() returns (s: State)
    ensures Reachable(Small, s) && s.run.Some?
    ensures var r := s.run.value; r.zoom == 0 && r.wm == 1 && r.above == {} && r.phase == Queued(1)
    ensures var t := Tile(0, 1, 0); t in s.seen.tried && t !in s.seen.kept && t !in s.db.failed
  {
    s := DiesBeforeRow();
    s := Then(s, Begin(1));
    s := Then(s, EnterSweep);
    s := Then(s, Complete(1, StorageSkipped, false));
    s := Then(s, QueueRow);
  }

  /** A call cancelled inside a checkpoint leaves the cursor behind the one it had just written. */
  lemma TornFlushMovesCursorBack() returns (s: State)
    ensures ValidPlan(Small) && Reachable(Small, s) && Enabled(Small, s, Abort)
    ensures s.db.cursor == Some(Cursor(0, 1))
    ensures Apply(Small, s, Abort).db.cursor == Some(Cursor(0, 0))
  {
    s := Checkpointed();
  }

  /** The first tile is stored and the cursor written, but its watermark not yet handed back. */
  lemma Checkpointed() returns (s: State)
    ensures Reachable(Small, s)
    ensures s == State(
              Tables(Some(Cursor(0, 1)), {}, None, None),
              Seen(map[Tile(0, 0, 0) := Ok], {Tile(0, 0, 0)}, {Tile(0, 0, 0)}, {}),
              Some(Session(0, 0, 0, 0, 0, {}, Flushed(1), [Ok], false, 0, 1, {}, {})))
  {
    s := FirstStored();
    s := Then(s, QueueRow);
    s := Then(s, AdvanceWatermark);
    s := Then(s, Flush);
  }

  lemma FirstStored() returns (s: State)
    ensures Reachable(Small, s)
    ensures s == State(
              Tables(None, {}, None, None),
              Seen(map[Tile(0, 0, 0) := Ok], {Tile(0, 0, 0)}, {Tile(0, 0, 0)}, {}),
              Some(Session(0, 0, 0, 0, 0, {}, Got(0, Ok), [Ok], false, 0, 1, {}, {})))
  {
    s := Fresh;
    FreshIsReachable(Small);
    s := Then(s, Begin(0));
    s := Then(s, EnterSweep);
    s := Then(s, Complete(0, Ok, false));
    assert s.seen.last == map[Tile(0, 0, 0) := Ok] && s.run.value.consumed == [Ok];
    assert s.seen.kept == s.seen.tried == {Tile(0, 0, 0)};
  }

  lemma Then(s: State, a: Action) returns (s': State)
    requires Reachable(Small, s) && Enabled(Small, s, a)
    ensures s' == Apply(Small, s, a) && Reachable(Small, s')
  {
    StepIsReachable(Small, s, a);
    s' := Apply(Small, s, a);
  }
}

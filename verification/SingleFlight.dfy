/** Single-flight tile reads: interleaved callers of one reader, one step between two awaits. */
module SingleFlight {
  import opened Basics

  type Key = (string, nat, nat, nat)

  /** What a call or a future comes to; `Withdrawn` is a future cancelled by one of its waiters. */
  datatype Result = Tile(data: Option<seq<nat>>) | Raised(error: nat) | Withdrawn

  datatype Future = Pending | Done(r: Result)

  datatype Caller =
    | Leading(k: Key, f: nat)
    | Waiting(k: Key, f: nat)
    | Returned(k: Key, f: nat, r: Result)

  /** `leader[f]` is the caller that created `f`, `settled[f]` what that caller itself returned. */
  datatype State = State(
    inflight: map<Key, nat>, futures: map<nat, Future>, callers: map<nat, Caller>,
    leader: map<nat, nat>, settled: map<nat, Result>)

  datatype Action =
    | Arrive(c: nat, k: Key, f: nat)  // a call starts; `f` names the future it creates, if it creates one
    | Settle(c: nat, r: Result)       // the leader's chain returned, timed out (a missing tile) or raised
    | Wake(c: nat)                    // a waiter resumes on a done future
    | Cancel(c: nat)                  // a waiter is cancelled, which cancels the future it awaits

  const Empty := State(map[], map[], map[], map[], map[])

  predicate Enabled(s: State, a: Action) {
    match a
    case Arrive(c, k, f) => c !in s.callers && f !in s.futures
    case Settle(c, r) => c in s.callers && s.callers[c].Leading? && !r.Withdrawn?
    case Wake(c) =>
      c in s.callers && s.callers[c].Waiting? && s.callers[c].f in s.futures && s.futures[s.callers[c].f].Done?
    case Cancel(c) => c in s.callers && s.callers[c].Waiting?
  }

  function Apply(s: State, a: Action): State
    requires Enabled(s, a)
  {
    match a
    case Arrive(c, k, f) =>
      if k in s.inflight then s.(callers := s.callers[c := Waiting(k, s.inflight[k])])
      else s.(inflight := s.inflight[k := f], futures := s.futures[f := Pending],
              callers := s.callers[c := Leading(k, f)], leader := s.leader[f := c])
    case Settle(c, r) =>
      var k, f := s.callers[c].k, s.callers[c].f;
      State(s.inflight - {k},
            if f in s.futures && s.futures[f].Pending? then s.futures[f := Done(r)] else s.futures,
            s.callers[c := Returned(k, f, r)], s.leader, s.settled[f := r])
    case Wake(c) =>
      var f := s.callers[c].f;
      s.(callers := s.callers[c := Returned(s.callers[c].k, f, s.futures[f].r)])
    case Cancel(c) =>
      var f := s.callers[c].f;
      s.(futures := if f in s.futures && s.futures[f].Pending? then s.futures[f := Done(Withdrawn)] else s.futures,
         callers := s.callers[c := Returned(s.callers[c].k, f, Withdrawn)])
  }

  predicate ValidLog(log: seq<Action>)
    decreases |log|, 0
  {
    log == [] || (ValidLog(log[..|log| - 1]) && Enabled(After(log[..|log| - 1]), log[|log| - 1]))
  }

  function After(log: seq<Action>): State
    requires ValidLog(log)
    decreases |log|, 1
  {
    if log == [] then Empty else Apply(After(log[..|log| - 1]), log[|log| - 1])
  }

  predicate Leads(s: State, c: nat, k: Key, f: nat) { c in s.callers && s.callers[c] == Leading(k, f) }

  /** The future `f` has a running leader for key `k`. */
  predicate LedFor(s: State, f: nat, k: Key) {
    f in s.leader && Leads(s, s.leader[f], k, f)
  }

  /** A running leader owns its key, and every key in flight and every pending future has one. */
  ghost predicate LeaderInv(s: State) {
    && (forall c :: c in s.callers && s.callers[c].Leading? ==> Owns(s, c, s.callers[c].k, s.callers[c].f))
    && (forall k :: k in s.inflight ==> LedFor(s, s.inflight[k], k))
    && (forall f :: f in s.futures && s.futures[f].Pending? ==>
          f in s.leader && s.leader[f] in s.callers && s.callers[s.leader[f]].Leading?
          && s.callers[s.leader[f]].f == f)
    && s.leader.Keys == s.futures.Keys
  }

  predicate Owns(s: State, c: nat, k: Key, f: nat) {
    && k in s.inflight && s.inflight[k] == f && f in s.futures
    && f in s.leader && s.leader[f] == c && f !in s.settled
  }

  /** A done future and a returned caller carry the leader's result, unless withdrawn. */
  ghost predicate ResultInv(s: State) {
    && s.settled.Keys <= s.futures.Keys
    && (forall f :: f in s.futures && f in s.settled ==> s.futures[f].Done? && !s.settled[f].Withdrawn?)
    && (forall f :: f in s.futures ==> Carries(s, f, s.futures[f]))
    && (forall c :: c in s.callers ==> s.callers[c].f in s.futures)
    && (forall c :: c in s.callers && s.callers[c].Returned? ==> Carries(s, s.callers[c].f, Done(s.callers[c].r)))
  }

  predicate Carries(s: State, f: nat, x: Future) {
    x.Done? && !x.r.Withdrawn? ==> f in s.settled && s.settled[f] == x.r
  }

  ghost predicate Inv(s: State) { LeaderInv(s) && ResultInv(s) }

  lemma JoiningKeepsLeaders(s: State, a: Action)
    requires Inv(s) && Enabled(s, a) && a.Arrive? && a.k in s.inflight
    ensures LeaderInv(Apply(s, a))
  {
    hide ResultInv, Carries;
  }

  lemma LeadingKeepsLeaders(s: State, a: Action)
    requires Inv(s) && Enabled(s, a) && a.Arrive? && a.k !in s.inflight
    ensures LeaderInv(Apply(s, a))
  {
    assert a.f !in s.settled;
    hide ResultInv, Carries;
    var s' := Apply(s, a);
    forall k | k in s'.inflight ensures LedFor(s', s'.inflight[k], k) {
      if k != a.k { assert LedFor(s, s.inflight[k], k); }
    }
    forall c | c in s'.callers && s'.callers[c].Leading? ensures Owns(s', c, s'.callers[c].k, s'.callers[c].f) {
      if c != a.c { assert Owns(s, c, s.callers[c].k, s.callers[c].f); }
    }
  }

  lemma SettlingKeepsLeaders(s: State, a: Action)
    requires Inv(s) && Enabled(s, a) && a.Settle?
    ensures LeaderInv(Apply(s, a))
  {
    hide ResultInv, Carries;
    var s', c0 := Apply(s, a), s.callers[a.c];
    assert Owns(s, a.c, c0.k, c0.f);
    forall k | k in s'.inflight ensures LedFor(s', s'.inflight[k], k) {
      assert LedFor(s, s.inflight[k], k);
    }
    forall c | c in s'.callers && s'.callers[c].Leading? ensures Owns(s', c, s'.callers[c].k, s'.callers[c].f) {
      assert Owns(s, c, s.callers[c].k, s.callers[c].f);
    }
  }

  lemma WaitersKeepLeaders(s: State, a: Action)
    requires Inv(s) && Enabled(s, a) && (a.Wake? || a.Cancel?)
    ensures LeaderInv(Apply(s, a))
  {
    hide ResultInv, Carries;
  }

  lemma LeadersKept(s: State, a: Action)
    requires Inv(s) && Enabled(s, a)
    ensures LeaderInv(Apply(s, a))
  {
    match a
    case Arrive(_, k, _) => if k in s.inflight { JoiningKeepsLeaders(s, a); } else { LeadingKeepsLeaders(s, a); }
    case Settle(_, _) => SettlingKeepsLeaders(s, a);
    case _ => WaitersKeepLeaders(s, a);
  }

  lemma SettlingKeepsResults(s: State, a: Action)
    requires Inv(s) && Enabled(s, a) && a.Settle?
    ensures ResultInv(Apply(s, a))
  {
    assert Owns(s, a.c, s.callers[a.c].k, s.callers[a.c].f);
  }

  lemma OthersKeepResults(s: State, a: Action)
    requires Inv(s) && Enabled(s, a) && !a.Settle?
    ensures ResultInv(Apply(s, a))
  {
  }

  lemma ResultsKept(s: State, a: Action)
    requires Inv(s) && Enabled(s, a)
    ensures ResultInv(Apply(s, a))
  {
    if a.Settle? { SettlingKeepsResults(s, a); } else { OthersKeepResults(s, a); }
  }

  lemma StepKeepsInv(s: State, a: Action)
    requires Inv(s) && Enabled(s, a)
    ensures Inv(Apply(s, a))
  {
    LeadersKept(s, a);
    ResultsKept(s, a);
  }

  lemma {:induction false} RunKeepsInv(log: seq<Action>)
    requires ValidLog(log)
    ensures Inv(After(log))
  {
    if log != [] {
      var init, a := log[..|log| - 1], log[|log| - 1];
      RunKeepsInv(init);
      StepKeepsInv(After(init), a);
    }
  }

  /** At most one chain runs per key, and a key stays registered only while its leader runs. */
  lemma OneLeaderPerKey(log: seq<Action>)
    requires ValidLog(log)
    ensures var s := After(log);
            && (forall c, c', k, f, f' :: Leads(s, c, k, f) && Leads(s, c', k, f') ==> c == c')
            && forall k :: k in s.inflight <==> exists c, f :: Leads(s, c, k, f)
  {
    RunKeepsInv(log);
    var s := After(log);
    forall k | k in s.inflight ensures exists c, f :: Leads(s, c, k, f) {
      assert Leads(s, s.leader[s.inflight[k]], k, s.inflight[k]);
    }
  }

  /** No waiter is left behind: its future is done, or the leader that will settle it still runs. */
  lemma NoLostWaiter(log: seq<Action>, c: nat)
    requires ValidLog(log) && c in After(log).callers && After(log).callers[c].Waiting?
    ensures var s := After(log);
            Enabled(s, Wake(c)) || exists l, k :: Leads(s, l, k, s.callers[c].f)
  {
    RunKeepsInv(log);
    var s := After(log);
    var f := s.callers[c].f;
    if s.futures[f].Pending? {
      var l := s.leader[f];
      assert Leads(s, l, s.callers[l].k, f);
    }
  }

  // ------------------------------------------------------------------ who gets what

  /** Some waiter was cancelled while the future was still pending. */
  predicate WasWithdrawn(log: seq<Action>, f: nat)
    requires ValidLog(log)
  {
    log != [] &&
    var init, a := log[..|log| - 1], log[|log| - 1];
    (WasWithdrawn(init, f) ||
     (a.Cancel? && After(init).callers[a.c].f == f && f in After(init).futures && After(init).futures[f].Pending?))
  }

  lemma {:induction false} WithdrawnFutures(log: seq<Action>, f: nat)
    requires ValidLog(log)
    ensures f in After(log).futures ==> (After(log).futures[f] == Done(Withdrawn) <==> WasWithdrawn(log, f))
    ensures f !in After(log).futures ==> !WasWithdrawn(log, f)
  {
    if log != [] {
      WithdrawnFutures(log[..|log| - 1], f);
      RunKeepsInv(log[..|log| - 1]);
    }
  }

  /**
   * A waiter that resumes receives exactly what the leader returned, unless another waiter of the
   * same future was cancelled first: then, and only then, it sees that cancellation instead.
   */
  lemma WaiterGetsLeadersResult(log: seq<Action>, c: nat)
    requires ValidLog(log) && Enabled(After(log), Wake(c))
    ensures var s := After(log);
            var f := s.callers[c].f;
            var r := Apply(s, Wake(c)).callers[c].r;
            if WasWithdrawn(log, f) then r == Withdrawn else f in s.settled && r == s.settled[f]
  {
    RunKeepsInv(log);
    WithdrawnFutures(log, After(log).callers[c].f);
  }

  lemma Then(log: seq<Action>, a: Action) returns (log': seq<Action>)
    requires ValidLog(log) && Enabled(After(log), a)
    ensures log' == log + [a] && ValidLog(log') && After(log') == Apply(After(log), a)
  {
    log' := log + [a];
    assert log'[..|log|] == log;
  }

  /** A leader and two waiters of one key, the first of which is cancelled. */
  lemma OneWaiterCancelled(k: Key) returns (log: seq<Action>)
    ensures log == [Arrive(0, k, 0), Arrive(1, k, 1), Arrive(2, k, 1), Cancel(1)] && ValidLog(log)
    ensures After(log) == State(map[k := 0], map[0 := Done(Withdrawn)],
                                map[0 := Leading(k, 0), 1 := Returned(k, 0, Withdrawn), 2 := Waiting(k, 0)],
                                map[0 := 0], map[])
  {
    log := Then([], Arrive(0, k, 0));
    log := Then(log, Arrive(1, k, 1));
    log := Then(log, Arrive(2, k, 1));
    log := Then(log, Cancel(1));
  }

  /**
   * Cancelling one waiter takes the others down: the second waiter, and a caller that arrives after
   * the cancellation and before the leader is done, end withdrawn although the leader returns a tile.
   */
  lemma CancellationSpreads(k: Key, tile: Option<seq<nat>>) returns (log: seq<Action>)
    ensures ValidLog(log)
    ensures log == [Arrive(0, k, 0), Arrive(1, k, 1), Arrive(2, k, 1), Cancel(1),
                    Arrive(3, k, 1), Wake(2), Wake(3), Settle(0, Tile(tile))]
    ensures After(log).callers == map[0 := Returned(k, 0, Tile(tile)), 1 := Returned(k, 0, Withdrawn),
                                      2 := Returned(k, 0, Withdrawn), 3 := Returned(k, 0, Withdrawn)]
  {
    log := OneWaiterCancelled(k);
    log := Then(log, Arrive(3, k, 1));
    log := Then(log, Wake(2));
    log := Then(log, Wake(3));
    log := Then(log, Settle(0, Tile(tile)));
  }

  /** Leaders are immune: whatever waiters do, a leader returns its own chain's result. */
  lemma {:induction false} SettledNeverChanges(log: seq<Action>, k: nat, f: nat)
    requires ValidLog(log) && k <= |log| && ValidLog(log[..k]) && f in After(log[..k]).settled
    ensures f in After(log).settled && After(log).settled[f] == After(log[..k]).settled[f]
  {
    if k == |log| {
      assert log[..k] == log;
    } else {
      var init := log[..|log| - 1];
      assert init[..k] == log[..k];
      SettledNeverChanges(init, k, f);
      RunKeepsInv(init);
      var s, a := After(init), log[|log| - 1];
      if a.Settle? { assert Leads(s, a.c, s.callers[a.c].k, s.callers[a.c].f); }
    }
  }

  // ------------------------------------------------------------------ the answer is for the key asked

  /** Every caller shares its key and its future with the leader of that future, whose own return is settled. */
  ghost predicate KeyInv(s: State) {
    forall c :: c in s.callers ==> SharesLeader(s, s.callers[c])
  }

  predicate SharesLeader(s: State, x: Caller) {
    && x.f in s.leader && s.leader[x.f] in s.callers
    && var l := s.callers[s.leader[x.f]];
       l.k == x.k && l.f == x.f && (x.f in s.settled ==> l == Returned(x.k, x.f, s.settled[x.f]))
  }

  lemma ArrivalKeepsKeys(s: State, a: Action)
    requires Inv(s) && KeyInv(s) && Enabled(s, a) && a.Arrive?
    ensures KeyInv(Apply(s, a))
  {
    var s' := Apply(s, a);
    if a.k in s.inflight {
      assert LedFor(s, s.inflight[a.k], a.k);
      assert SharesLeader(s, s.callers[s.leader[s.inflight[a.k]]]);
    }
    forall c | c in s'.callers ensures SharesLeader(s', s'.callers[c]) {
      if c != a.c { assert SharesLeader(s, s.callers[c]); }
    }
  }

  lemma OthersKeepKeys(s: State, a: Action)
    requires Inv(s) && KeyInv(s) && Enabled(s, a) && !a.Arrive?
    ensures KeyInv(Apply(s, a))
  {
    hide ResultInv, Carries;
    var s' := Apply(s, a);
    forall c | c in s'.callers ensures SharesLeader(s', s'.callers[c]) {
      assert SharesLeader(s, s.callers[c]);
    }
  }

  lemma {:induction false} RunKeepsKeys(log: seq<Action>)
    requires ValidLog(log)
    ensures KeyInv(After(log))
  {
    if log != [] {
      var init, a := log[..|log| - 1], log[|log| - 1];
      RunKeepsKeys(init);
      RunKeepsInv(init);
      if a.Arrive? { ArrivalKeepsKeys(After(init), a); } else { OthersKeepKeys(After(init), a); }
      hide Apply, Enabled, Inv, KeyInv;
    }
  }

  /** A caller's key is the one it arrived with. */
  lemma {:induction false} ArrivedWith(log: seq<Action>, c: nat) returns (i: nat)
    requires ValidLog(log) && c in After(log).callers
    ensures i < |log| && log[i].Arrive? && log[i].c == c && log[i].k == After(log).callers[c].k
    ensures forall j :: 0 <= j < |log| && log[j].Arrive? && log[j].c == c ==> j == i
  {
    var n := |log| - 1;
    var init, a := log[..n], log[n];
    if c in After(init).callers {
      i := ArrivedWith(init, c);
    } else {
      i := n;
      forall j | 0 <= j < |log| && log[j].Arrive? && log[j].c == c ensures j == n {
        if j < n { ArrivalsStay(init, j); }
      }
    }
  }

  lemma {:induction false} ArrivalsStay(log: seq<Action>, j: nat)
    requires ValidLog(log) && j < |log| && log[j].Arrive?
    ensures log[j].c in After(log).callers
  {
    if j < |log| - 1 { ArrivalsStay(log[..|log| - 1], j); }
  }

  /** Position `i` is the arrival of a caller of the future `f`. */
  predicate Joined(log: seq<Action>, i: nat, f: nat)
    requires ValidLog(log)
  {
    && i < |log| && log[i].Arrive? && log[i].c in After(log).callers
    && After(log).callers[log[i].c].f == f
  }

  lemma SettledStep(s: State, a: Action, f: nat)
    requires Inv(s) && Enabled(s, a) && f in Apply(s, a).settled
    ensures f in Apply(s, a).leader
    ensures if f in s.settled
            then f in s.leader && Apply(s, a).settled[f] == s.settled[f] && Apply(s, a).leader[f] == s.leader[f]
            else a == Settle(Apply(s, a).leader[f], Apply(s, a).settled[f])
  {
    if a.Settle? { assert Owns(s, a.c, s.callers[a.c].k, s.callers[a.c].f); }
  }

  /**
   * A settled future was settled by some step of the log, and later than any of its callers arrived:
   * nobody joins a future that is already settled.
   */
  lemma {:induction false} SettledBy(log: seq<Action>, f: nat) returns (m: nat)
    requires ValidLog(log) && f in After(log).settled
    ensures m < |log| && f in After(log).leader && log[m] == Settle(After(log).leader[f], After(log).settled[f])
    ensures forall i: nat :: Joined(log, i, f) ==> i < m
  {
    var n := |log| - 1;
    var init, a := log[..n], log[n];
    RunKeepsInv(init);
    SettledStep(After(init), a, f);
    if f !in After(init).settled {
      m := n;
    } else {
      m := SettledBy(init, f);
      forall i: nat | Joined(log, i, f) ensures i < m { JoinedEarlier(log, i, f); }
      hide *;
    }
  }

  lemma JoinedEarlier(log: seq<Action>, i: nat, f: nat)
    requires ValidLog(log) && log != [] && Joined(log, i, f) && f in After(log[..|log| - 1]).settled
    ensures Joined(log[..|log| - 1], i, f)
  {
    var n := |log| - 1;
    RunKeepsInv(log[..n]);
    NoLateJoin(After(log[..n]), log[n], f);
    if i < n { ArrivalsStay(log[..n], i); }
    hide Apply, Enabled, Inv;
  }

  lemma NoLateJoin(s: State, a: Action, f: nat)
    requires Inv(s) && Enabled(s, a) && f in s.settled
    ensures a.Arrive? ==> Apply(s, a).callers[a.c].f != f
    ensures forall c :: c in s.callers ==> Apply(s, a).callers[c].f == s.callers[c].f
  {
    if a.Arrive? && a.k in s.inflight {
      assert LedFor(s, s.inflight[a.k], a.k);
      assert Leads(s, s.leader[s.inflight[a.k]], a.k, s.inflight[a.k]);
    }
  }

  /**
   * Whoever returns without a withdrawal returns what a leader settled with after that caller came,
   * and the leader had asked for the same key.
   */
  lemma AnswerIsForTheKeyAsked(log: seq<Action>, i: nat) returns (j: nat, m: nat)
    requires ValidLog(log) && i < |log| && log[i].Arrive? && log[i].c in After(log).callers
    requires var x := After(log).callers[log[i].c]; x.Returned? && !x.r.Withdrawn?
    ensures j < |log| && log[j].Arrive? && log[j].k == log[i].k
    ensures i < m < |log| && log[m] == Settle(log[j].c, After(log).callers[log[i].c].r)
  {
    var c := log[i].c;
    var x := After(log).callers[c];
    RunKeepsInv(log);
    RunKeepsKeys(log);
    var i' := ArrivedWith(log, c);
    assert SharesLeader(After(log), x);
    j := ArrivedWith(log, After(log).leader[x.f]);
    m := SettledBy(log, x.f);
    assert Joined(log, i, x.f);
  }

  // ------------------------------------------------------------------ the reader in place

  /** The dictionaries of one reader; every method is one uninterrupted stretch of `get_tile`. */
  class TileReader {
    var inflight: map<Key, nat>
    var futures: map<nat, Future>
    var callers: map<nat, Caller>
    ghost var leader: map<nat, nat>
    ghost var settled: map<nat, Result>

    ghost function View(): State
      reads this
    {
      State(inflight, futures, callers, leader, settled)
    }

    constructor ()
      ensures View() == Empty && Inv(View())
    {
      inflight, futures, callers, leader, settled := map[], map[], map[], map[], map[];
    }

    /** Entry of `get_tile`: join the key's future or register a new one and lead. */
    method Enter(c: nat, k: Key, f: nat) returns (leads: bool)
      requires Inv(View()) && Enabled(View(), Arrive(c, k, f))
      modifies this
      ensures View() == Apply(old(View()), Arrive(c, k, f)) && Inv(View())
      ensures leads <==> k !in old(inflight)
    {
      StepKeepsInv(View(), Arrive(c, k, f));
      if k in inflight {
        callers := callers[c := Waiting(k, inflight[k])];
        leads := false;
      } else {
        inflight := inflight[k := f];
        futures := futures[f := Pending];
        callers := callers[c := Leading(k, f)];
        leader := leader[f := c];
        leads := true;
      }
    }

    /** The leader's tail: publish unless the future is already done, then unregister the key. */
    method Finish(c: nat, k: Key, f: nat, r: Result)
      requires Inv(View()) && Leads(View(), c, k, f) && !r.Withdrawn?
      modifies this
      ensures View() == Apply(old(View()), Settle(c, r)) && Inv(View()) && k !in inflight
    {
      assert f in futures;
      StepKeepsInv(View(), Settle(c, r));
      hide LeaderInv, ResultInv, Inv;
      if futures[f].Pending? { futures := futures[f := Done(r)]; }
      settled := settled[f := r];
      inflight := inflight - {k};
      callers := callers[c := Returned(k, f, r)];
    }

    /** A waiter resumes once its future is done. */
    method Resume(c: nat) returns (r: Result)
      requires Inv(View()) && Enabled(View(), Wake(c))
      modifies this
      ensures View() == Apply(old(View()), Wake(c)) && Inv(View()) && callers[c] == Returned(old(callers)[c].k, old(callers)[c].f, r)
    {
      StepKeepsInv(View(), Wake(c));
      r := futures[callers[c].f].r;
      callers := callers[c := Returned(callers[c].k, callers[c].f, r)];
    }

    /** Cancelling a waiter cancels the bare future it awaits. */
    method CancelWaiter(c: nat)
      requires Inv(View()) && Enabled(View(), Cancel(c))
      modifies this
      ensures View() == Apply(old(View()), Cancel(c)) && Inv(View())
    {
      StepKeepsInv(View(), Cancel(c));
      var f := callers[c].f;
      if futures[f].Pending? { futures := futures[f := Done(Withdrawn)]; }
      callers := callers[c := Returned(callers[c].k, f, Withdrawn)];
    }
  }
}

/** How long the scrape loop sleeps, against the gates a scrape call applies. */
module Scheduler {
  import opened Basics
  import opened SweepModel

  const STORAGE_RETRY_FLOOR := 60.0

  function Cooling(db: Tables, now: int): nat {
    if db.health.Some? && db.health.value.cooldownUntil > now then db.health.value.cooldownUntil - now else 0
  }

  function Resting(p: Plan, db: Tables, now: int): nat {
    if db.cursor.None? && db.lastCompleted.Some? && db.lastCompleted.value + p.interval > now
    then db.lastCompleted.value + p.interval - now else 0
  }

  /** Seconds until the gates of a scrape call open for these tables. */
  function Wait(p: Plan, db: Tables, now: int): nat {
    if Cooling(db, now) < Resting(p, db, now) then Resting(p, db, now) else Cooling(db, now)
  }

  /** Seconds until the first closed gate opens: the cooldown's while there is one, else the interval's. */
  function Recheck(p: Plan, db: Tables, now: int): nat {
    if Cooling(db, now) > 0 then Cooling(db, now) else Resting(p, db, now)
  }

  /** Waiting is exactly what it takes: the gates open `d` seconds from now iff `d` reaches the wait. */
  lemma WaitIsExact(p: Plan, db: Tables, now: int, d: nat)
    ensures Due(p, db, now + d) <==> d >= Wait(p, db, now)
  {}

  ghost predicate AnyDue(p: Plan, providers: seq<Tables>, now: int) {
    exists k :: 0 <= k < |providers| && Due(p, providers[k], now)
  }

  /** The least of the default and of what each provider asks to be looked at again. */
  ghost predicate IsSoonest(p: Plan, providers: seq<Tables>, now: int, default: real, m: real) {
    && m <= default && (forall k :: 0 <= k < |providers| ==> m <= Recheck(p, providers[k], now) as real)
    && (m == default || exists k :: 0 <= k < |providers| && m == Recheck(p, providers[k], now) as real)
  }

  /** How long the loop sleeps: a minute for a storage retry, nothing when a provider is due, else until the soonest. */
  ghost predicate IsNextSleep(p: Plan, providers: seq<Tables>, now: int, default: real, storageRetryDue: bool, sleep: real) {
    if storageRetryDue then sleep == STORAGE_RETRY_FLOOR
    else if AnyDue(p, providers, now) then sleep == 0.0
    else exists m :: IsSoonest(p, providers, now, default, m) && sleep == MaxR(60.0, m)
  }

  /** The soonest-due computation over every provider's tables. */
  method ComputeNextSleep(p: Plan, providers: seq<Tables>, now: int, default: real, storageRetryDue: bool)
    returns (sleep: real)
    ensures IsNextSleep(p, providers, now, default, storageRetryDue, sleep)
    ensures sleep == 0.0 || sleep >= 60.0
    ensures !storageRetryDue ==> (sleep == 0.0 <==> AnyDue(p, providers, now))
    ensures !storageRetryDue ==>
              sleep <= MaxR(60.0, default)
              && forall k :: 0 <= k < |providers| ==> sleep <= MaxR(60.0, Wait(p, providers[k], now) as real)
  {
    if storageRetryDue { return STORAGE_RETRY_FLOOR; }
    var soonest := default;
    var anyReady := false;
    for k := 0 to |providers|
      invariant anyReady <==> exists j :: 0 <= j < k && Due(p, providers[j], now)
      invariant soonest <= default
      invariant forall j :: 0 <= j < k && !Due(p, providers[j], now) ==> soonest <= Recheck(p, providers[j], now) as real
      invariant soonest == default || exists j :: 0 <= j < k && soonest == Recheck(p, providers[j], now) as real
    {
      var db := providers[k];
      if db.health.Some? && db.health.value.cooldownUntil > now {
        soonest := MinR(soonest, (db.health.value.cooldownUntil - now) as real);
      } else if db.cursor.Some? {
        anyReady := true;
      } else {
        var remaining := if db.lastCompleted.None? then 0
                         else if db.lastCompleted.value + p.interval - now > 0
                         then db.lastCompleted.value + p.interval - now else 0;
        if remaining <= 0 {
          anyReady := true;
        } else {
          soonest := MinR(soonest, remaining as real);
        }
      }
    }
    if anyReady { return 0.0; }
    assert IsSoonest(p, providers, now, default, soonest);
    sleep := MaxR(60.0, soonest);
  }

  /** The pacing of the sync loop: never below its own floor, never below what the provider tables ask for. */
  method NextCycleDelay(p: Plan, providers: seq<Tables>, now: int, elapsed: real, minSleep: real, storageRetryDue: bool)
    returns (delay: real)
    requires minSleep >= 0.0
    ensures exists sleep :: IsNextSleep(p, providers, now, MaxR(0.0, p.interval as real - elapsed), storageRetryDue, sleep)
                            && delay == MaxR(minSleep, sleep)
    ensures delay == 0.0 ==> !storageRetryDue && AnyDue(p, providers, now)
    ensures minSleep == 0.0 && delay != 0.0 ==> delay >= 60.0
  {
    var default := MaxR(0.0, p.interval as real - elapsed);
    var sleep := ComputeNextSleep(p, providers, now, default, storageRetryDue);
    delay := MaxR(minSleep, sleep);
  }
}

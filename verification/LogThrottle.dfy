/** The exponential-backoff throttle for repeating log lines. */
module LogThrottle {
  import opened Basics

  datatype Settings = Settings(base: real, max: real, factor: real)

  datatype KeyState = KeyState(nextAt: real, interval: real, suppressed: nat)

  function NextInterval(c: Settings, interval: real): real { MinR(interval * c.factor, c.max) }

  /** One occurrence of a key at `now`: its new state, and the suppressed count if the line is emitted. */
  function Check(c: Settings, s: Option<KeyState>, now: real): (KeyState, Option<nat>) {
    if s.None? then (KeyState(now + c.base, c.base, 0), Some(0))
    else if now < s.value.nextAt then (s.value.(suppressed := s.value.suppressed + 1), None)
    else
      var interval := NextInterval(c, s.value.interval);
      (KeyState(now + interval, interval, 0), Some(s.value.suppressed))
  }

  /** What a key's occurrences since its last reset led to. */
  datatype History = History(state: Option<KeyState>, emitted: seq<real>, reported: nat)

  function Replay(c: Settings, times: seq<real>): History {
    if times == [] then History(None, [], 0)
    else
      var h, now := Replay(c, times[..|times| - 1]), times[|times| - 1];
      var (s, out) := Check(c, h.state, now);
      if out.Some? then History(Some(s), h.emitted + [now], h.reported + out.value)
      else History(Some(s), h.emitted, h.reported)
  }

  /** Every occurrence is a line, part of a reported count, or still pending. */
  lemma {:induction false} OccurrencesConserved(c: Settings, times: seq<real>)
    ensures var h := Replay(c, times);
            |times| == |h.emitted| + h.reported + (if h.state.Some? then h.state.value.suppressed else 0)
  {
    if times != [] { OccurrencesConserved(c, times[..|times| - 1]); }
  }

  /** The gap promised after the `k`-th emitted line. */
  function Gap(c: Settings, k: nat): real { MinR(c.base * Power(c.factor, k), c.max) }

  lemma GapGrows(c: Settings, k: nat)
    requires 0.0 < c.base <= c.max && c.factor >= 1.0
    ensures Gap(c, k + 1) == NextInterval(c, Gap(c, k))
  {
    PowerAtLeastOne(c.factor, k);
    var y := Power(c.factor, k);
    ScaleAssociates(c.base, y, c.factor);
    CapCommutes(c.base * y, c.max, c.factor);
  }

  lemma ScaleAssociates(b: real, y: real, f: real)
    requires b > 0.0 && y >= 1.0
    ensures b * y > 0.0 && b * (f * y) == (b * y) * f
  {}

  /** Capping before or after a growing step makes no difference. */
  lemma CapCommutes(x: real, m: real, f: real)
    requires x > 0.0 && m > 0.0 && f >= 1.0
    ensures MinR(MinR(x, m) * f, m) == MinR(x * f, m)
  {
    assert (f - 1.0) * x >= 0.0 && (f - 1.0) * x == f * x - x;
    assert (f - 1.0) * m >= 0.0 && (f - 1.0) * m == f * m - m;
  }

  ghost predicate Paced(c: Settings, emitted: seq<real>) {
    forall k :: 0 <= k < |emitted| - 1 ==> emitted[k + 1] - emitted[k] >= Gap(c, k)
  }

  /** Consecutive lines of a key are at least the growing gap apart, however fast the events arrive. */
  lemma {:induction false} LinesArePaced(c: Settings, times: seq<real>)
    requires 0.0 < c.base <= c.max && c.factor >= 1.0
    ensures var h := Replay(c, times);
            && Paced(c, h.emitted)
            && (times != [] ==>
                  && h.state.Some? && h.emitted != []
                  && h.state.value.interval == Gap(c, |h.emitted| - 1)
                  && h.state.value.nextAt == h.emitted[|h.emitted| - 1] + h.state.value.interval)
  {
    if times != [] {
      var init := times[..|times| - 1];
      assert Gap(c, 0) == c.base;
      hide Gap, NextInterval;
      LinesArePaced(c, init);
      var h := Replay(c, init);
      if init != [] { GapGrows(c, |h.emitted| - 1); }
    }
  }

  /** The throttle itself: one state per key, updated in place. */
  /**
   * An occurrence is logged exactly when it is the first or the gap after the last line has passed; a
   * line reports everything suppressed since the last one, and a silent occurrence is one more of those.
   */
  lemma LoggedExactlyWhenDue(c: Settings, times: seq<real>, now: real)
    requires 0.0 < c.base <= c.max && c.factor >= 1.0
    ensures Replay(c, times + [now]).state.Some? && (times != [] ==> Replay(c, times).emitted != [])
    ensures var h, h' := Replay(c, times), Replay(c, times + [now]);
            var n, pending := |h.emitted|, if h.state.Some? then h.state.value.suppressed else 0;
            if times == [] || (n > 0 && now >= h.emitted[n - 1] + Gap(c, n - 1))
            then h'.emitted == h.emitted + [now] && h'.state.value.suppressed == 0 && h'.reported == h.reported + pending
            else h'.emitted == h.emitted && h'.state.value.suppressed == pending + 1 && h'.reported == h.reported
  {
    assert (times + [now])[..|times|] == times;
    LinesArePaced(c, times);
    hide Gap, NextInterval;
  }

  class Throttle {
    const c: Settings
    var states: map<string, KeyState>

    constructor (c: Settings)
      ensures this.c == c && states == map[]
    {
      this.c := c;
      states := map[];
    }

    ghost function Of(key: string): Option<KeyState>
      reads this
    {
      if key in states then Some(states[key]) else None
    }

    method CheckKey(key: string, now: real) returns (out: Option<nat>)
      modifies this
      ensures Of(key) == Some(Check(c, old(Of(key)), now).0) && out == Check(c, old(Of(key)), now).1
      ensures forall k :: k != key ==> Of(k) == old(Of(k))
    {
      if key !in states {
        states := states[key := KeyState(now + c.base, c.base, 0)];
        return Some(0);
      }
      var s := states[key];
      assert Of(key) == Some(s);
      if now < s.nextAt {
        states := states[key := s.(suppressed := s.suppressed + 1)];
        return None;
      }
      var interval := NextInterval(c, s.interval);
      states := states[key := KeyState(now + interval, interval, 0)];
      out := Some(s.suppressed);
    }

    method Reset(key: string)
      modifies this
      ensures Of(key) == None && forall k :: k != key ==> Of(k) == old(Of(k))
    {
      states := states - {key};
    }
  }
}

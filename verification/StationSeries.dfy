/** A station's history out of snapshot bodies: one-pass pivot against per-station extraction. */
module StationSeries {
  import opened Basics

  /** A `station_id` as decoded from JSON; booleans count as the integers they equal. */
  datatype StationId = IntId(n: int) | FloatId(r: real) | OtherId

  /** One entry of a body's station list; `point` stands for the flattened reading. */
  datatype Entry = NotAnObject | Obs(id: StationId, observedAt: Option<string>, point: int)

  datatype Body = Malformed | Stations(entries: seq<Entry>)

  /** An insertion-ordered dictionary from `observed_at` to point. */
  type Readings = seq<(string, int)>

  predicate Has(d: Readings, at: string) { exists j :: 0 <= j < |d| && d[j].0 == at }

  function PutNew(d: Readings, at: string, point: int): Readings {
    if Has(d, at) then d else d + [(at, point)]
  }

  /** `obs.get("station_id") == n`: a float id equal to the integer matches. */
  predicate Matches(e: Entry, n: int) {
    e.Obs? && match e.id
              case IntId(m) => m == n
              case FloatId(r) => r == n as real
              case OtherId => false
  }

  /** What the pivot accepts for station `n`. */
  predicate Counts(e: Entry, n: int) { e.Obs? && e.id == IntId(n) && e.observedAt.Some? }

  function Entries(b: Body): seq<Entry> { if b.Stations? then b.entries else [] }

  // ------------------------------------------------------------------ sorting

  /** Stable insertion by parsed time. */
  function Insert(s: seq<(int, int)>, x: (int, int)): seq<(int, int)> {
    if s == [] || s[|s| - 1].0 <= x.0 then s + [x] else Insert(s[..|s| - 1], x) + [s[|s| - 1]]
  }

  function SortReadings(d: Readings, parse: string -> Option<int>): seq<(int, int)> {
    if d == [] then []
    else
      var (at, point) := d[|d| - 1];
      var sorted := SortReadings(d[..|d| - 1], parse);
      if parse(at).None? then sorted else Insert(sorted, (parse(at).value, point))
  }

  function Points(s: seq<(int, int)>): seq<int> { seq(|s|, i requires 0 <= i < |s| => s[i].1) }

  /** Drop unparseable timestamps, sort by reading time, keep the points. */
  function SortedPoints(d: Readings, parse: string -> Option<int>): seq<int> { Points(SortReadings(d, parse)) }

  predicate Ascending(s: seq<(int, int)>) { forall i, j :: 0 <= i < j < |s| ==> s[i].0 <= s[j].0 }

  predicate AllAtMost(s: seq<(int, int)>, t: int) { forall i :: 0 <= i < |s| ==> s[i].0 <= t }

  lemma {:induction false} InsertBounded(s: seq<(int, int)>, x: (int, int), t: int)
    requires AllAtMost(s, t) && x.0 <= t
    ensures AllAtMost(Insert(s, x), t)
  {
    if s != [] && s[|s| - 1].0 > x.0 { InsertBounded(s[..|s| - 1], x, t); }
  }

  lemma {:induction false} InsertAscends(s: seq<(int, int)>, x: (int, int))
    requires Ascending(s)
    ensures Ascending(Insert(s, x))
  {
    if s != [] && s[|s| - 1].0 > x.0 {
      var init, last := s[..|s| - 1], s[|s| - 1];
      InsertAscends(init, x);
      InsertBounded(init, x, last.0);
    }
  }

  lemma {:induction false} InsertKeepsAll(s: seq<(int, int)>, x: (int, int))
    ensures multiset(Insert(s, x)) == multiset(s) + multiset{x}
  {
    if s != [] && s[|s| - 1].0 > x.0 {
      InsertKeepsAll(s[..|s| - 1], x);
      assert s == s[..|s| - 1] + [s[|s| - 1]];
    }
  }

  /** The readings whose timestamp parses, in the dictionary's order. */
  function Parseable(d: Readings, parse: string -> Option<int>): seq<(int, int)> {
    if d == [] then []
    else
      var (at, point) := d[|d| - 1];
      Parseable(d[..|d| - 1], parse) + (if parse(at).None? then [] else [(parse(at).value, point)])
  }

  /** Sorting loses and invents nothing: the series holds exactly the parseable readings. */
  lemma {:induction false} SeriesKeepsAll(d: Readings, parse: string -> Option<int>)
    ensures multiset(SortReadings(d, parse)) == multiset(Parseable(d, parse))
  {
    if d != [] {
      SeriesKeepsAll(d[..|d| - 1], parse);
      var (at, point) := d[|d| - 1];
      if parse(at).Some? { InsertKeepsAll(SortReadings(d[..|d| - 1], parse), (parse(at).value, point)); }
    }
  }

  /** The series comes out oldest first. */
  lemma {:induction false} SeriesAscends(d: Readings, parse: string -> Option<int>)
    ensures Ascending(SortReadings(d, parse))
  {
    if d != [] {
      SeriesAscends(d[..|d| - 1], parse);
      var (at, point) := d[|d| - 1];
      if parse(at).Some? { InsertAscends(SortReadings(d[..|d| - 1], parse), (parse(at).value, point)); }
    }
  }

  /** The readings of one time, in order. */
  function AtTime(s: seq<(int, int)>, t: int): seq<(int, int)> {
    if s == [] then [] else AtTime(s[..|s| - 1], t) + (if s[|s| - 1].0 == t then [s[|s| - 1]] else [])
  }

  lemma {:induction false} NoneLater(s: seq<(int, int)>, t: int, u: int)
    requires AllAtMost(s, u) && u < t
    ensures AtTime(s, t) == []
  {
    if s != [] { NoneLater(s[..|s| - 1], t, u); }
  }

  /** Insertion is stable: a reading goes after those of its own time and leaves the others alone. */
  lemma {:induction false} InsertIsStable(s: seq<(int, int)>, x: (int, int), t: int)
    requires Ascending(s)
    ensures AtTime(Insert(s, x), t) == AtTime(s, t) + if x.0 == t then [x] else []
  {
    if s == [] || s[|s| - 1].0 <= x.0 {
      assert (s + [x])[..|s|] == s;
    } else {
      var init, last := s[..|s| - 1], s[|s| - 1];
      InsertIsStable(init, x, t);
      var r := Insert(init, x);
      assert (r + [last])[..|r|] == r;
      if x.0 == t { assert AtTime(s, t) == AtTime(init, t) + []; }
    }
  }

  lemma {:induction false} SeriesIsStable(d: Readings, parse: string -> Option<int>, t: int)
    ensures AtTime(SortReadings(d, parse), t) == AtTime(Parseable(d, parse), t)
  {
    if d != [] {
      var init := d[..|d| - 1];
      SeriesIsStable(init, parse, t);
      var (at, point) := d[|d| - 1];
      var ps := Parseable(init, parse);
      if parse(at).Some? {
        SeriesAscends(init, parse);
        InsertIsStable(SortReadings(init, parse), (parse(at).value, point), t);
        assert (ps + [(parse(at).value, point)])[..|ps|] == ps;
      } else {
        assert ps + [] == ps;
      }
    }
  }

  /** A series shows exactly these readings, oldest first and those of one time in the order they were read. */
  ghost predicate IsSeries(series: seq<int>, readings: seq<(int, int)>) {
    exists s: seq<(int, int)> :: SortedFrom(s, readings) && |series| == |s| && forall i :: 0 <= i < |s| ==> series[i] == s[i].1
  }

  ghost predicate SortedFrom(s: seq<(int, int)>, readings: seq<(int, int)>) {
    Ascending(s) && multiset(s) == multiset(readings) && forall t :: AtTime(s, t) == AtTime(readings, t)
  }

  lemma SeriesIsSorted(d: Readings, parse: string -> Option<int>)
    ensures IsSeries(SortedPoints(d, parse), Parseable(d, parse))
  {
    SeriesAscends(d, parse);
    SeriesKeepsAll(d, parse);
    forall t ensures AtTime(SortReadings(d, parse), t) == AtTime(Parseable(d, parse), t) {
      SeriesIsStable(d, parse, t);
    }
    assert SortedFrom(SortReadings(d, parse), Parseable(d, parse));
  }

  // ------------------------------------------------------------------ extraction

  /** Index of the first matching entry, or the length. */
  function FirstMatch(es: seq<Entry>, n: int): (k: nat)
    ensures k <= |es| && (k < |es| ==> Matches(es[k], n)) && forall j :: 0 <= j < k ==> !Matches(es[j], n)
  {
    if es == [] || Matches(es[0], n) then 0 else 1 + FirstMatch(es[1..], n)
  }

  function TakeFirst(d: Readings, es: seq<Entry>, n: int): Readings {
    var k := FirstMatch(es, n);
    if k < |es| && es[k].observedAt.Some? then PutNew(d, es[k].observedAt.value, es[k].point) else d
  }

  function Extracted(bodies: seq<Body>, n: int): Readings {
    if bodies == [] then []
    else TakeFirst(Extracted(bodies[..|bodies| - 1], n), Entries(bodies[|bodies| - 1]), n)
  }

  method ExtractStationSeries(bodies: seq<Body>, n: int, parse: string -> Option<int>) returns (series: seq<int>)
    ensures series == SortedPoints(Extracted(bodies, n), parse)
    ensures IsSeries(series, Parseable(Extracted(bodies, n), parse))
  {
    var d: Readings := [];
    for i := 0 to |bodies|
      invariant d == Extracted(bodies[..i], n)
    {
      assert bodies[..i + 1][..i] == bodies[..i];
      if bodies[i].Stations? {
        var es := bodies[i].entries;
        var j := 0;
        while j < |es| && !Matches(es[j], n)
          invariant 0 <= j <= |es| && forall k :: 0 <= k < j ==> !Matches(es[k], n)
        {
          j := j + 1;
        }
        assert j == FirstMatch(es, n);
        if j < |es| && es[j].observedAt.Some? {
          d := PutNew(d, es[j].observedAt.value, es[j].point);
        }
      }
    }
    assert bodies[..|bodies|] == bodies;
    series := SortedPoints(d, parse);
    SeriesIsSorted(d, parse);
  }

  // ------------------------------------------------------------------ pivot

  function PivotEntries(d: Readings, es: seq<Entry>, n: int): Readings {
    if es == [] then d
    else
      var e := es[|es| - 1];
      var d' := PivotEntries(d, es[..|es| - 1], n);
      if Counts(e, n) then PutNew(d', e.observedAt.value, e.point) else d'
  }

  function Pivoted(bodies: seq<Body>, n: int): Readings {
    if bodies == [] then []
    else PivotEntries(Pivoted(bodies[..|bodies| - 1], n), Entries(bodies[|bodies| - 1]), n)
  }

  function Get(m: map<int, Readings>, n: int): Readings { if n in m then m[n] else [] }

  method PivotBody(perStation: map<int, Readings>, es: seq<Entry>) returns (r: map<int, Readings>)
    requires forall n :: n in perStation ==> perStation[n] != []
    ensures forall n :: Get(r, n) == PivotEntries(Get(perStation, n), es, n)
    ensures forall n :: n in r ==> r[n] != []
  {
    r := perStation;
    for i := 0 to |es|
      invariant forall n :: Get(r, n) == PivotEntries(Get(perStation, n), es[..i], n)
      invariant forall n :: n in r ==> r[n] != []
    {
      assert es[..i + 1][..i] == es[..i];
      var e := es[i];
      if e.Obs? && e.id.IntId? && e.observedAt.Some? {
        var bucket := if e.id.n in r then r[e.id.n] else [];
        r := r[e.id.n := PutNew(bucket, e.observedAt.value, e.point)];
      }
    }
    assert es[..|es|] == es;
  }

  method PivotStationSeries(bodies: seq<Body>, parse: string -> Option<int>) returns (series: map<int, seq<int>>)
    ensures forall n :: n in series <==> Pivoted(bodies, n) != []
    ensures forall n :: n in series ==> series[n] == SortedPoints(Pivoted(bodies, n), parse)
    ensures forall n :: n in series ==> IsSeries(series[n], Parseable(Pivoted(bodies, n), parse))
  {
    var perStation: map<int, Readings> := map[];
    for i := 0 to |bodies|
      invariant forall n :: Get(perStation, n) == Pivoted(bodies[..i], n)
      invariant forall n :: n in perStation ==> perStation[n] != []
    {
      assert bodies[..i + 1][..i] == bodies[..i];
      if bodies[i].Stations? { perStation := PivotBody(perStation, bodies[i].entries); }
    }
    assert bodies[..|bodies|] == bodies;
    series := map n | n in perStation :: SortedPoints(perStation[n], parse);
    forall n ensures n in series <==> Pivoted(bodies, n) != [] {
      assert Get(perStation, n) == Pivoted(bodies, n);
    }
    forall n | n in series ensures IsSeries(series[n], Parseable(Pivoted(bodies, n), parse)) {
      SeriesIsSorted(perStation[n], parse);
    }
  }

  // ------------------------------------------------------------------ what the dictionaries hold

  /** Put every offered reading whose timestamp is new. */
  function KeepFirst(os: seq<Option<(string, int)>>): Readings {
    if os == [] then []
    else
      var d, o := KeepFirst(os[..|os| - 1]), os[|os| - 1];
      if o.Some? then PutNew(d, o.value.0, o.value.1) else d
  }

  predicate Offers(o: Option<(string, int)>, at: string) { o.Some? && o.value.0 == at }

  /** Offer `i` is the first one with this timestamp. */
  predicate FirstOffer(os: seq<Option<(string, int)>>, i: nat, at: string, point: int) {
    i < |os| && os[i] == Some((at, point)) && forall j :: 0 <= j < i ==> !Offers(os[j], at)
  }

  lemma PutNewMembers(d: Readings, at: string, x: int, b: string, y: int)
    ensures (b, y) in PutNew(d, at, x) <==> (b, y) in d || (!Has(d, at) && (b, y) == (at, x))
    ensures Has(PutNew(d, at, x), b) <==> Has(d, b) || b == at
  {
    PutNewHas(d, at, x);
    if !Has(d, at) && Has(d + [(at, x)], b) && b != at {
      var j :| 0 <= j < |d| + 1 && (d + [(at, x)])[j].0 == b;
      assert d[j].0 == b;
    }
  }

  /** The dictionary holds, for each offered timestamp, the point of its first offer and nothing else. */
  lemma {:induction false} KeepFirstMeans(os: seq<Option<(string, int)>>, at: string, point: int)
    ensures (at, point) in KeepFirst(os) <==> exists i :: FirstOffer(os, i, at, point)
    ensures Has(KeepFirst(os), at) <==> exists i :: 0 <= i < |os| && Offers(os[i], at)
  {
    if os != [] {
      var n := |os| - 1;
      var init, o := os[..n], os[n];
      KeepFirstMeans(init, at, point);
      if o.Some? { PutNewMembers(KeepFirst(init), o.value.0, o.value.1, at, point); }
      hide Has, PutNew;
      if i: nat :| FirstOffer(os, i, at, point) {
        if i < n { assert FirstOffer(init, i, at, point); }
      }
      if i: nat :| FirstOffer(init, i, at, point) { assert FirstOffer(os, i, at, point); }
      if o == Some((at, point)) && !exists i :: 0 <= i < n && Offers(init[i], at) {
        assert FirstOffer(os, n, at, point);
      }
      if i :| 0 <= i < n && Offers(init[i], at) { assert Offers(os[i], at); }
      if i :| 0 <= i < |os| && Offers(os[i], at) { assert i < n ==> Offers(init[i], at); }
    }
  }

  /** What a body offers an extraction: the reading of its first entry of the station. */
  function FirstReading(b: Body, n: int): Option<(string, int)> {
    var es := Entries(b);
    var k := FirstMatch(es, n);
    if k < |es| && es[k].observedAt.Some? then Some((es[k].observedAt.value, es[k].point)) else None
  }

  lemma {:induction false} ExtractedKeepsFirst(bodies: seq<Body>, n: int)
    ensures Extracted(bodies, n) == KeepFirst(seq(|bodies|, i requires 0 <= i < |bodies| => FirstReading(bodies[i], n)))
  {
    if bodies != [] {
      var last := |bodies| - 1;
      var init := bodies[..last];
      var os := seq(|bodies|, i requires 0 <= i < |bodies| => FirstReading(bodies[i], n));
      ExtractedKeepsFirst(init, n);
      assert os[..last] == seq(|init|, i requires 0 <= i < |init| => FirstReading(init[i], n));
    }
  }

  /** What an entry offers the pivot of a station. */
  function AcceptedReading(e: Entry, n: int): Option<(string, int)> {
    if Counts(e, n) then Some((e.observedAt.value, e.point)) else None
  }

  /** The entries of all bodies, one after the other. */
  function AllEntries(bodies: seq<Body>): seq<Entry> {
    if bodies == [] then [] else AllEntries(bodies[..|bodies| - 1]) + Entries(bodies[|bodies| - 1])
  }

  lemma {:induction false} PivotConcat(d: Readings, a: seq<Entry>, b: seq<Entry>, n: int)
    ensures PivotEntries(d, a + b, n) == PivotEntries(PivotEntries(d, a, n), b, n)
  {
    if b == [] {
      assert a + b == a;
    } else {
      var last := |b| - 1;
      assert (a + b)[..|a| + last] == a + b[..last];
      PivotConcat(d, a, b[..last], n);
    }
  }

  lemma {:induction false} PivotedIsFlat(bodies: seq<Body>, n: int)
    ensures Pivoted(bodies, n) == PivotEntries([], AllEntries(bodies), n)
  {
    if bodies != [] {
      var init := bodies[..|bodies| - 1];
      PivotedIsFlat(init, n);
      PivotConcat([], AllEntries(init), Entries(bodies[|bodies| - 1]), n);
    }
  }

  lemma {:induction false} EntriesKeepFirst(es: seq<Entry>, n: int)
    ensures PivotEntries([], es, n) == KeepFirst(seq(|es|, i requires 0 <= i < |es| => AcceptedReading(es[i], n)))
  {
    if es != [] {
      var last := |es| - 1;
      var init := es[..last];
      var os := seq(|es|, i requires 0 <= i < |es| => AcceptedReading(es[i], n));
      EntriesKeepFirst(init, n);
      assert os[..last] == seq(|init|, i requires 0 <= i < |init| => AcceptedReading(init[i], n));
    }
  }

  lemma PivotedKeepsFirst(bodies: seq<Body>, n: int)
    ensures var es := AllEntries(bodies);
            Pivoted(bodies, n) == KeepFirst(seq(|es|, i requires 0 <= i < |es| => AcceptedReading(es[i], n)))
  {
    PivotedIsFlat(bodies, n);
    EntriesKeepFirst(AllEntries(bodies), n);
  }

  // ------------------------------------------------------------------ agreement

  /** Index of the first entry the pivot accepts for station `n`, or the length. */
  function FirstCounted(es: seq<Entry>, n: int): (c: nat)
    ensures c <= |es| && (c < |es| ==> Counts(es[c], n)) && forall j :: 0 <= j < c ==> !Counts(es[j], n)
  {
    if es == [] || Counts(es[0], n) then 0 else 1 + FirstCounted(es[1..], n)
  }

  /**
   * The body has one reading of station `n`: whatever the pivot accepts repeats the timestamp of the
   * first match, and the first it accepts carries the first match's point.
   */
  predicate OneReading(es: seq<Entry>, n: int) {
    var k, c := FirstMatch(es, n), FirstCounted(es, n);
    && (forall j :: 0 <= j < |es| && Counts(es[j], n) ==> k < |es| && es[j].observedAt == es[k].observedAt)
    && (k < |es| && es[k].observedAt.Some? ==> c < |es| && es[c].point == es[k].point)
  }

  /** At most one entry of station `n`, with an integer id. */
  ghost predicate OneEntry(es: seq<Entry>, n: int) {
    && (forall i :: 0 <= i < |es| && Matches(es[i], n) ==> es[i].id == IntId(n))
    && forall i, j :: 0 <= i < j < |es| && Matches(es[i], n) ==> !Matches(es[j], n)
  }

  lemma OneEntryIsOneReading(es: seq<Entry>, n: int)
    requires OneEntry(es, n)
    ensures OneReading(es, n)
  {
    var k, c := FirstMatch(es, n), FirstCounted(es, n);
    assert forall j :: 0 <= j < |es| && Counts(es[j], n) ==> Matches(es[j], n);
    if k < |es| && es[k].observedAt.Some? { assert Counts(es[k], n); }
  }

  lemma NothingHas(at: string)
    ensures !Has([], at)
  {}

  lemma PutNewHas(d: Readings, at: string, x: int)
    ensures Has(PutNew(d, at, x), at) && forall b :: Has(d, b) ==> Has(PutNew(d, at, x), b)
  {
    if !Has(d, at) {
      var d' := d + [(at, x)];
      assert d'[|d|].0 == at;
      forall b | Has(d, b) ensures Has(d', b) {
        var j :| 0 <= j < |d| && d[j].0 == b;
        assert d'[j].0 == b;
      }
    }
  }

  /** When every accepted entry carries the timestamp `at`, the pivot keeps the first of them. */
  lemma {:induction false} PivotKeepsFirst(d: Readings, es: seq<Entry>, n: int, at: Option<string>)
    requires forall j :: 0 <= j < |es| && Counts(es[j], n) ==> es[j].observedAt == at
    ensures var c := FirstCounted(es, n);
            PivotEntries(d, es, n) == if c < |es| then PutNew(d, es[c].observedAt.value, es[c].point) else d
  {
    if es != [] {
      var init := es[..|es| - 1];
      PivotKeepsFirst(d, init, n, at);
      hide Has;
      var c, b := FirstCounted(es, n), FirstCounted(init, n);
      if c < |init| {
        assert init[c] == es[c] && b == c;
        PutNewHas(d, es[c].observedAt.value, es[c].point);
      } else {
        assert b == |init|;
      }
    }
  }

  /** The pivot's dictionary starts with the first accepted entry and holds every accepted timestamp. */
  lemma {:induction false} PivotHolds(es: seq<Entry>, n: int, j: nat)
    requires j < |es| && Counts(es[j], n)
    ensures var d, c := PivotEntries([], es, n), FirstCounted(es, n);
            Has(d, es[j].observedAt.value) && c < |es| && d != [] && d[0] == (es[c].observedAt.value, es[c].point)
  {
    var last := |es| - 1;
    var init, c := es[..last], FirstCounted(es, n);
    hide Has;
    if c == last {
      PivotKeepsFirst([], init, n, None);
      PutNewHas([], es[last].observedAt.value, es[last].point);
      NothingHas(es[last].observedAt.value);
    } else {
      assert init[c] == es[c] && FirstCounted(init, n) == c;
      PivotHolds(init, n, if j < last then j else c);
      if Counts(es[last], n) { PutNewHas(PivotEntries([], init, n), es[last].observedAt.value, es[last].point); }
    }
  }

  lemma BodyAgrees(d: Readings, es: seq<Entry>, n: int)
    requires OneReading(es, n)
    ensures PivotEntries(d, es, n) == TakeFirst(d, es, n)
  {
    var k, c := FirstMatch(es, n), FirstCounted(es, n);
    PivotKeepsFirst(d, es, n, if k < |es| then es[k].observedAt else None);
  }

  lemma AgreementNeedsOneReading(es: seq<Entry>, n: int)
    requires PivotEntries([], es, n) == TakeFirst([], es, n)
    ensures OneReading(es, n)
  {
    var k, c := FirstMatch(es, n), FirstCounted(es, n);
    forall j | 0 <= j < |es| && Counts(es[j], n) ensures k < |es| && es[j].observedAt == es[k].observedAt {
      PivotHolds(es, n, j);
    }
    if c < |es| { PivotHolds(es, n, c); } else { PivotKeepsFirst([], es, n, None); }
  }

  lemma {:induction false} DictionariesAgree(bodies: seq<Body>, n: int)
    requires forall i :: 0 <= i < |bodies| ==> OneReading(Entries(bodies[i]), n)
    ensures Pivoted(bodies, n) == Extracted(bodies, n)
  {
    if bodies != [] {
      var last := |bodies| - 1;
      DictionariesAgree(bodies[..last], n);
      BodyAgrees(Pivoted(bodies[..last], n), Entries(bodies[last]), n);
    }
  }

  /** The two ways agree on every window of the snapshots exactly when each snapshot has one reading. */
  lemma WindowsAgreeExactly(bodies: seq<Body>, n: int)
    ensures (forall i, j :: 0 <= i <= j <= |bodies| ==> Pivoted(bodies[i..j], n) == Extracted(bodies[i..j], n))
            <==> forall i :: 0 <= i < |bodies| ==> OneReading(Entries(bodies[i]), n)
  {
    if forall i :: 0 <= i < |bodies| ==> OneReading(Entries(bodies[i]), n) {
      forall i, j | 0 <= i <= j <= |bodies| ensures Pivoted(bodies[i..j], n) == Extracted(bodies[i..j], n) {
        DictionariesAgree(bodies[i..j], n);
      }
    }
    if forall i, j :: 0 <= i <= j <= |bodies| ==> Pivoted(bodies[i..j], n) == Extracted(bodies[i..j], n) {
      forall i | 0 <= i < |bodies| ensures OneReading(Entries(bodies[i]), n) {
        var one := bodies[i..i + 1];
        assert one == [bodies[i]] && one[..0] == [];
        assert Pivoted([], n) == [] && Extracted([], n) == [];
        AgreementNeedsOneReading(Entries(bodies[i]), n);
      }
    }
  }

  /** The warmed series of every station equals the rebuilt one, and an absent station rebuilds to nothing. */
  lemma PivotEqualsExtraction(bodies: seq<Body>, n: int, parse: string -> Option<int>, pivot: map<int, seq<int>>)
    requires forall i :: 0 <= i < |bodies| ==> OneReading(Entries(bodies[i]), n)
    requires forall m :: m in pivot <==> Pivoted(bodies, m) != []
    requires forall m :: m in pivot ==> pivot[m] == SortedPoints(Pivoted(bodies, m), parse)
    ensures SortedPoints(Extracted(bodies, n), parse) == if n in pivot then pivot[n] else []
  {
    DictionariesAgree(bodies, n);
    assert SortedPoints([], parse) == [];
  }

  /** The precondition is needed: with two readings of one station in a body the pivot keeps both. */
  lemma TwoReadingsDisagree()
    ensures var b := Stations([Obs(IntId(7), Some("a"), 1), Obs(IntId(7), Some("b"), 2)]);
            Extracted([b], 7) == [("a", 1)] && Pivoted([b], 7) == [("a", 1), ("b", 2)]
  {
    var es := [Obs(IntId(7), Some("a"), 1), Obs(IntId(7), Some("b"), 2)];
    var b := Stations(es);
    assert [b][..0] == [] && es[..1] == [es[0]] && es[..1][..0] == [];
    assert Extracted([], 7) == [] && Pivoted([], 7) == [];
    assert FirstMatch(es, 7) == 0;
    assert PivotEntries([], es[..1], 7) == [("a", 1)];
    assert "a"[0] != "b"[0];
  }
}

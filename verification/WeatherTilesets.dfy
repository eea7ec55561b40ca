/** Two ways to pick an hour's snapshot, the listing and the single-bucket resolution, and their agreement. */
module WeatherTilesets {
  import opened Basics
  import opened SnapshotKeys

  /** The timestamp of a listed object, if it is a snapshot body. */
  function SnapshotTime(key: string): Option<DateTime> {
    if EndsWith(key, META_SUFFIX) then None else ParseSnapshotKey(key)
  }

  /** An object of `keys` whose time satisfies `within`, and no later one does. */
  ghost predicate IsLatest(keys: seq<string>, within: DateTime -> bool, k: string) {
    && k in keys && SnapshotTime(k).Some? && within(SnapshotTime(k).value)
    && forall j :: 0 <= j < |keys| && SnapshotTime(keys[j]).Some? && within(SnapshotTime(keys[j]).value) ==>
         !Before(SnapshotTime(k).value, SnapshotTime(keys[j]).value)
  }

  ghost predicate NoneWithin(keys: seq<string>, within: DateTime -> bool) {
    forall j :: 0 <= j < |keys| && SnapshotTime(keys[j]).Some? ==> !within(SnapshotTime(keys[j]).value)
  }

  /** The chosen object, or none when there is nothing to choose. */
  ghost predicate Chosen(keys: seq<string>, within: DateTime -> bool, k: Option<string>) {
    if k.Some? then IsLatest(keys, within, k.value) else NoneWithin(keys, within)
  }

  /** What the platform prints as the tileset id of a time: the four-digit form from year 1000 on. */
  ghost predicate PrintsIds(idOf: DateTime -> string) {
    forall t :: Printable(t) ==> idOf(t) == TilesetId(t)
  }

  function InHourOf(idOf: DateTime -> string, id: string): DateTime -> bool {
    (t: DateTime) => idOf(t) == id
  }

  function InBucket(start: DateTime, end: DateTime): DateTime -> bool {
    (t: DateTime) => !Before(t, start) && Before(t, end)
  }

  /** Latest key of a bucket in the listing's dictionary. */
  function Listed(perBucket: map<string, (DateTime, string)>, id: string): Option<string> {
    if id in perBucket then Some(perBucket[id].1) else None
  }

  /** One pass over the whole listing, keeping the latest snapshot of every hour bucket. */
  method LatestSnapshotPerBucket(keys: seq<string>, idOf: DateTime -> string)
    returns (perBucket: map<string, (DateTime, string)>)
    ensures forall id :: Chosen(keys, InHourOf(idOf, id), Listed(perBucket, id))
    ensures forall id :: id in perBucket ==> SnapshotTime(perBucket[id].1) == Some(perBucket[id].0)
  {
    hide ParseSnapshotKey;
    perBucket := map[];
    for i := 0 to |keys|
      invariant forall id :: id in perBucket ==> SnapshotTime(perBucket[id].1) == Some(perBucket[id].0)
      invariant forall id :: Chosen(keys[..i], InHourOf(idOf, id), Listed(perBucket, id))
    {
      var key := keys[i];
      assert keys[..i + 1] == keys[..i] + [key];
      ghost var was := perBucket;
      if !EndsWith(key, META_SUFFIX) {
        var ts := ParseSnapshotKey(key);
        if ts.Some? {
          assert SnapshotTime(keys[i]) == ts;
          var bucket := idOf(ts.value);
          if bucket !in perBucket || Before(perBucket[bucket].0, ts.value) {
            perBucket := perBucket[bucket := (ts.value, key)];
          }
        }
      }
      forall id ensures Chosen(keys[..i + 1], InHourOf(idOf, id), Listed(perBucket, id)) {
        assert Chosen(keys[..i], InHourOf(idOf, id), Listed(was, id));
        ChosenStep(keys[..i], key, InHourOf(idOf, id), Listed(was, id), Listed(perBucket, id));
      }
    }
    assert keys[..|keys|] == keys;
  }

  /** Folding one more object in: it replaces the choice exactly when it is within and strictly later. */
  lemma ChosenStep(keys: seq<string>, key: string, within: DateTime -> bool, k: Option<string>, k': Option<string>)
    requires Chosen(keys, within, k)
    requires k' == if SnapshotTime(key).Some? && within(SnapshotTime(key).value)
                      && (k.None? || Before(SnapshotTime(k.value).value, SnapshotTime(key).value))
                   then Some(key) else k
    ensures Chosen(keys + [key], within, k')
  {
    hide SnapshotTime;
    var keys' := keys + [key];
    assert keys'[|keys|] == key;
    if k'.Some? {
      assert k'.value in keys';
      forall j | 0 <= j < |keys'| && SnapshotTime(keys'[j]).Some? && within(SnapshotTime(keys'[j]).value)
        ensures !Before(SnapshotTime(k'.value).value, SnapshotTime(keys'[j]).value)
      {
        if j < |keys| { assert keys'[j] == keys[j]; }
      }
    }
  }

  datatype Resolution = Found(key: string) | NotFound | Overflow

  /** One pass over a day's objects, keeping the latest snapshot in `[target, target + 1h)`. */
  method ResolveBucket(keys: seq<string>, target: DateTime) returns (r: Resolution)
    ensures r.Overflow? <==> AddHour(target).None?
    ensures !r.Overflow? ==>
              Chosen(keys, InBucket(target, AddHour(target).value), if r.Found? then Some(r.key) else None)
  {
    var end := AddHour(target);
    if end.None? { return Overflow; }
    hide ParseSnapshotKey, AddHour;
    ghost var within := InBucket(target, end.value);
    var best: Option<(DateTime, string)> := None;
    for i := 0 to |keys|
      invariant best.Some? ==> SnapshotTime(best.value.1) == Some(best.value.0)
      invariant Chosen(keys[..i], within, if best.Some? then Some(best.value.1) else None)
    {
      var key := keys[i];
      assert keys[..i + 1] == keys[..i] + [key];
      ghost var was := if best.Some? then Some(best.value.1) else None;
      if !EndsWith(key, META_SUFFIX) {
        var ts := ParseSnapshotKey(key);
        if ts.Some? && !Before(ts.value, target) && Before(ts.value, end.value) {
          if best.None? || Before(best.value.0, ts.value) { best := Some((ts.value, key)); }
        }
      }
      ChosenStep(keys[..i], key, within, was, if best.Some? then Some(best.value.1) else None);
    }
    assert keys[..|keys|] == keys;
    r := if best.Some? then Found(best.value.1) else NotFound;
  }

  // ------------------------------------------------------------------ the bucket of objects

  /** What the scraper writes: snapshot bodies, and the metadata siblings of some of them. */
  ghost predicate IsObject(bodies: set<DateTime>, metas: set<DateTime>, key: string)
    requires forall t :: t in bodies + metas ==> Printable(t)
  {
    (exists t :: t in bodies && key == SnapshotKey(t)) || (exists t :: t in metas && key == MetaKey(SnapshotKey(t)))
  }

  ghost predicate AreObjects(bodies: set<DateTime>, metas: set<DateTime>) {
    forall t :: t in bodies + metas ==> Printable(t)
  }

  /** A LIST of a prefix, in any order. */
  ghost predicate ListsPrefix(keys: seq<string>, bodies: set<DateTime>, metas: set<DateTime>, prefix: string)
    requires AreObjects(bodies, metas)
  {
    forall k :: k in keys <==> IsObject(bodies, metas, k) && StartsWith(k, prefix)
  }

  /** Of those objects exactly the bodies have a time, and the time determines the object. */
  lemma ObjectTimes(bodies: set<DateTime>, metas: set<DateTime>, key: string)
    requires AreObjects(bodies, metas) && IsObject(bodies, metas, key)
    ensures SnapshotTime(key).Some? ==> SnapshotTime(key).value in bodies && key == SnapshotKey(SnapshotTime(key).value)
  {
    hide ParseSnapshotKey, SnapshotKey, MetaKey, EndsWith, IsDate;
    if t :| t in bodies && key == SnapshotKey(t) {
      SnapshotKeyRoundTrip(t);
    } else {
      var t :| t in metas && key == MetaKey(SnapshotKey(t));
      MetaSiblings(t);
    }
  }

  lemma KeysUnderPrefixes(t: DateTime, target: DateTime)
    requires Printable(t) && Printable(target)
    ensures StartsWith(SnapshotKey(t), SNAPSHOTS_PREFIX)
    ensures StartsWith(SnapshotKey(t), DayPrefix(target)) <==> SameDay(t, target)
  {
    SamePrefixIffSameDay(t, target);
    PrefixFields(t);
    PrefixFields(target);
    var key, day := SnapshotKey(t), DayPrefix(t);
    assert key == day + (D2(t.hour) + Leaf(t));
    assert key[..|day|] == day;
    assert day == SNAPSHOTS_PREFIX + (D4(t.year) + "/" + D2(t.month) + "/" + D2(t.day) + "/");
    assert key[..|SNAPSHOTS_PREFIX|] == day[..|SNAPSHOTS_PREFIX|] == SNAPSHOTS_PREFIX;
  }

  // ------------------------------------------------------------------ agreement

  lemma OrderIsTotal(a: DateTime, b: DateTime)
    requires !Before(a, b) && !Before(b, a)
    ensures a == b
  {}

  /** An id that is not its own canonical form never appears in the listing. */
  lemma OnlyCanonicalIdsAreListed(t: DateTime, id: string, target: DateTime)
    requires Printable(t) && Printable(target) && ParseTilesetId(id) == Some(target) && TilesetId(t) == id
    ensures TilesetId(target) == id && SameHour(t, target) && FloorHour(target) == target
  {
    hide ParseTilesetId, TilesetId;
    TilesetIdRoundTrip(t);
    SameIdIffSameHour(t, target);
  }

  /** For a canonical id the two filters accept the same timestamps. */
  lemma FiltersAgree(t: DateTime, idOf: DateTime -> string, id: string, target: DateTime)
    requires PrintsIds(idOf) && Printable(t) && Printable(target) && ParseTilesetId(id) == Some(target) && TilesetId(target) == id
    requires AddHour(target).Some?
    ensures InHourOf(idOf, id)(t) <==> SameHour(t, target)
    ensures InBucket(target, AddHour(target).value)(t) <==> SameHour(t, target)
  {
    OnlyCanonicalIdsAreListed(target, id, target);
    SameIdIffSameHour(t, target);
    BucketIsOneHour(target, t);
  }

  /** A candidate of one listing is a candidate of the other. */
  lemma SharedCandidate(bodies: set<DateTime>, metas: set<DateTime>, keys: seq<string>, other: seq<string>,
                        target: DateTime, prefix: string, prefix': string, k: string)
    requires AreObjects(bodies, metas) && Printable(target)
    requires prefix in {SNAPSHOTS_PREFIX, DayPrefix(target)} && prefix' in {SNAPSHOTS_PREFIX, DayPrefix(target)}
    requires ListsPrefix(keys, bodies, metas, prefix) && ListsPrefix(other, bodies, metas, prefix')
    requires k in keys && SnapshotTime(k).Some? && SameHour(SnapshotTime(k).value, target)
    ensures k in other && SnapshotTime(k).value in bodies && k == SnapshotKey(SnapshotTime(k).value)
  {
    hide SnapshotTime, SnapshotKey, DayPrefix, StartsWith;
    ObjectTimes(bodies, metas, k);
    KeysUnderPrefixes(SnapshotTime(k).value, target);
  }

  /** Two latest candidates of the same hour are one object. */
  lemma LatestIsUnique(bodies: set<DateTime>, metas: set<DateTime>, all: seq<string>, day: seq<string>,
                       idOf: DateTime -> string, id: string, target: DateTime, listed: Option<string>, resolved: Option<string>)
    requires AreObjects(bodies, metas) && Printable(target) && PrintsIds(idOf)
    requires ParseTilesetId(id) == Some(target) && TilesetId(target) == id && AddHour(target).Some?
    requires ListsPrefix(all, bodies, metas, SNAPSHOTS_PREFIX) && ListsPrefix(day, bodies, metas, DayPrefix(target))
    requires Chosen(all, InHourOf(idOf, id), listed)
    requires Chosen(day, InBucket(target, AddHour(target).value), resolved)
    ensures listed == resolved
  {
    hide SnapshotTime, SnapshotKey, DayPrefix, StartsWith, TilesetId, ParseTilesetId, AddHour, IsDate, SameHour, Before;
    if listed.Some? {
      var k := listed.value;
      var t := SnapshotTime(k).value;
      ObjectTimes(bodies, metas, k);
      FiltersAgree(t, idOf, id, target);
      SharedCandidate(bodies, metas, all, day, target, SNAPSHOTS_PREFIX, DayPrefix(target), k);
      assert k in day;
    }
    if resolved.Some? {
      var k := resolved.value;
      ObjectTimes(bodies, metas, k);
      FiltersAgree(SnapshotTime(k).value, idOf, id, target);
      SharedCandidate(bodies, metas, day, all, target, DayPrefix(target), SNAPSHOTS_PREFIX, k);
      assert k in all;
    }
    if listed.Some? && resolved.Some? {
      OrderIsTotal(SnapshotTime(listed.value).value, SnapshotTime(resolved.value).value);
    }
  }

  /** No snapshot of the target's day lies in `[target, target + 1h)`. */
  ghost predicate NothingInWindow(bodies: set<DateTime>, target: DateTime)
    requires AddHour(target).Some?
  {
    forall t :: t in bodies && SameDay(t, target) ==> !InBucket(target, AddHour(target).value)(t)
  }

  /** Resolution finds nothing exactly when the day holds nothing in the window. */
  lemma ResolvesUnlessEmpty(bodies: set<DateTime>, metas: set<DateTime>, day: seq<string>, target: DateTime,
                            resolved: Option<string>)
    requires AreObjects(bodies, metas) && Printable(target) && AddHour(target).Some?
    requires ListsPrefix(day, bodies, metas, DayPrefix(target))
    requires Chosen(day, InBucket(target, AddHour(target).value), resolved)
    ensures resolved.None? <==> NothingInWindow(bodies, target)
  {
    hide SnapshotTime, SnapshotKey, DayPrefix, StartsWith, AddHour, IsDate, Before, SameDay;
    if resolved.Some? {
      var t := SnapshotTime(resolved.value).value;
      ObjectTimes(bodies, metas, resolved.value);
      KeysUnderPrefixes(t, target);
    } else {
      forall t | t in bodies && SameDay(t, target) ensures !InBucket(target, AddHour(target).value)(t) {
        KeysUnderPrefixes(t, target);
        BodyTime(t);
        assert IsObject(bodies, metas, SnapshotKey(t));
        assert SnapshotKey(t) in day;
      }
    }
  }

  /**
   * For every set of objects the scraper can have written and every well-formed id, fetching an id
   * returns what the listing advertises for it, except that an id with minutes (or a trailing line
   * break) is never advertised: the two agree exactly when the id is canonical or no snapshot of its
   * day lies in the hour from the time it names.
   */
  lemma ListingAgreesWithResolution(bodies: set<DateTime>, metas: set<DateTime>, all: seq<string>, day: seq<string>,
                                    idOf: DateTime -> string, id: string, target: DateTime,
                                    listed: Option<string>, resolved: Option<string>)
    requires AreObjects(bodies, metas) && Printable(target) && PrintsIds(idOf) && ParseTilesetId(id) == Some(target)
    requires AddHour(target).Some?
    requires ListsPrefix(all, bodies, metas, SNAPSHOTS_PREFIX) && ListsPrefix(day, bodies, metas, DayPrefix(target))
    requires Chosen(all, InHourOf(idOf, id), listed)
    requires Chosen(day, InBucket(target, AddHour(target).value), resolved)
    ensures listed == resolved <==> TilesetId(target) == id || NothingInWindow(bodies, target)
  {
    hide SnapshotTime, SnapshotKey, DayPrefix, StartsWith, TilesetId, ParseTilesetId, AddHour, IsDate, Before, NothingInWindow;
    ResolvesUnlessEmpty(bodies, metas, day, target, resolved);
    if TilesetId(target) == id {
      LatestIsUnique(bodies, metas, all, day, idOf, id, target, listed, resolved);
    } else if listed.Some? {
      ObjectTimes(bodies, metas, listed.value);
      OnlyCanonicalIdsAreListed(SnapshotTime(listed.value).value, id, target);
    }
  }

  lemma BodyTime(t: DateTime)
    requires Printable(t)
    ensures SnapshotTime(SnapshotKey(t)) == Some(t)
  {
    SnapshotKeyRoundTrip(t);
    MetaSiblings(t);
  }

  /** A single snapshot is chosen by a filter that accepts its time, and by no other. */
  lemma OneSnapshotChosen(t: DateTime, within: DateTime -> bool)
    requires Printable(t)
    ensures Chosen([SnapshotKey(t)], within, if within(t) then Some(SnapshotKey(t)) else None)
  {
    BodyTime(t);
    hide SnapshotTime, SnapshotKey;
    assert SnapshotKey(t) in [SnapshotKey(t)];
  }

  /** The only object is a snapshot at `t`: the id 1430 resolves to it, and the listing has nothing for that id. */
  ghost predicate ResolvedNotListed(idOf: DateTime -> string, t: DateTime)
    requires Printable(t)
  {
    var target, keys, id := DateTime(2026, 5, 17, 14, 30, 0), [SnapshotKey(t)], "20260517T1430Z";
    && ListsPrefix(keys, {t}, {}, SNAPSHOTS_PREFIX) && ListsPrefix(keys, {t}, {}, DayPrefix(target))
    && ParseTilesetId(id) == Some(target) && AddHour(target).Some?
    && Chosen(keys, InHourOf(idOf, id), None)
    && Chosen(keys, InBucket(target, AddHour(target).value), Some(SnapshotKey(t)))
  }

  /** Whether the snapshot is of the id's own hour or of the next one, which leaves the id's hour empty. */
  lemma HalfHourIdIsNotListed(idOf: DateTime -> string, t: DateTime)
    requires PrintsIds(idOf)
    requires t == DateTime(2026, 5, 17, 14, 45, 0) || t == DateTime(2026, 5, 17, 15, 10, 0)
    ensures ResolvedNotListed(idOf, t)
  {
    hide SnapshotTime, SnapshotKey, DayPrefix, StartsWith, TilesetId, ParseTilesetId, ListsPrefix, Chosen;
    var target, id := DateTime(2026, 5, 17, 14, 30, 0), "20260517T1430Z";
    KeysUnderPrefixes(t, target);
    OneObject(t, SNAPSHOTS_PREFIX);
    OneObject(t, DayPrefix(target));
    HalfHourIdParses();
    TilesetIdRoundTrip(t);
    OneSnapshotChosen(t, InHourOf(idOf, id));
    OneSnapshotChosen(t, InBucket(target, AddHour(target).value));
  }

  lemma OneObject(t: DateTime, prefix: string)
    requires Printable(t) && StartsWith(SnapshotKey(t), prefix)
    ensures ListsPrefix([SnapshotKey(t)], {t}, {}, prefix)
  {
    hide SnapshotKey, StartsWith, IsDate;
    assert t in {t};
  }

  lemma HalfHourIdParses()
    ensures ParseTilesetId("20260517T1430Z") == Some(DateTime(2026, 5, 17, 14, 30, 0))
  {
    var s := "20260517T1430Z";
    assert DropNewline(s) == s;
    assert s[..4] == "2026" && s[4..6] == "05" && s[6..8] == "17" && s[9..11] == "14" && s[11..13] == "30";
    assert P4("2026") == 2026 by { assert "2026"[..2] == "20" && "2026"[2..] == "26"; }
  }
}

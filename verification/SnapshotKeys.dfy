/** Timestamps of weather snapshots and the strings that carry them. */
module SnapshotKeys {
  import opened Basics

  datatype DateTime = DateTime(year: int, month: int, day: int, hour: int, minute: int, second: int)

  predicate IsLeap(y: int) { y % 4 == 0 && (y % 100 != 0 || y % 400 == 0) }

  function DaysIn(y: int, m: int): (d: int)
    ensures 28 <= d <= 31
  {
    if m == 2 then (if IsLeap(y) then 29 else 28)
    else if m == 4 || m == 6 || m == 9 || m == 11 then 30 else 31
  }

  /** What the datetime constructor accepts. */
  predicate IsDate(t: DateTime) {
    && 1 <= t.year <= 9999 && 1 <= t.month <= 12 && 1 <= t.day <= DaysIn(t.year, t.month)
    && 0 <= t.hour < 24 && 0 <= t.minute < 60 && 0 <= t.second < 60
  }

  /** Years below 1000 are printed without padding by some platforms; the scraper stamps the present. */
  predicate Printable(t: DateTime) { IsDate(t) && t.year >= 1000 }

  predicate Before(a: DateTime, b: DateTime) {
    if a.year != b.year then a.year < b.year
    else if a.month != b.month then a.month < b.month
    else if a.day != b.day then a.day < b.day
    else if a.hour != b.hour then a.hour < b.hour
    else if a.minute != b.minute then a.minute < b.minute
    else a.second < b.second
  }

  function NextDay(t: DateTime): DateTime {
    if t.day < DaysIn(t.year, t.month) then t.(day := t.day + 1)
    else if t.month < 12 then t.(month := t.month + 1, day := 1)
    else t.(year := t.year + 1, month := 1, day := 1)
  }

  /** `t + timedelta(hours=1)`; none when it overflows the calendar. */
  function AddHour(t: DateTime): Option<DateTime> {
    var u := if t.hour < 23 then t.(hour := t.hour + 1) else NextDay(t.(hour := 0));
    if u.year > 9999 then None else Some(u)
  }

  predicate SameHour(a: DateTime, b: DateTime) {
    a.year == b.year && a.month == b.month && a.day == b.day && a.hour == b.hour
  }

  predicate SameDay(a: DateTime, b: DateTime) { a.year == b.year && a.month == b.month && a.day == b.day }

  function FloorHour(t: DateTime): DateTime { t.(minute := 0, second := 0) }

  /** An hour bucket that starts on the hour never leaves its day: it is exactly the timestamps of that hour. */
  lemma BucketIsOneHour(target: DateTime, t: DateTime)
    requires IsDate(target) && IsDate(t) && FloorHour(target) == target && AddHour(target).Some?
    ensures !Before(t, target) && Before(t, AddHour(target).value) <==> SameHour(t, target)
  {}

  // ------------------------------------------------------------------ digits

  function Digit(n: int): (c: char)
    requires 0 <= n < 10
  {
    ('0' as int + n) as char
  }

  predicate IsDigit(c: char) { '0' <= c <= '9' }

  function Value(c: char): int { c as int - '0' as int }

  function D2(n: int): (s: string)
    requires 0 <= n < 100
    ensures |s| == 2
  {
    [Digit(n / 10), Digit(n % 10)]
  }

  function D4(n: int): (s: string)
    requires 0 <= n < 10000
    ensures |s| == 4
  {
    D2(n / 100) + D2(n % 100)
  }

  predicate AllDigits(s: string) { forall i :: 0 <= i < |s| ==> IsDigit(s[i]) }

  /** `int(group)` of a two- and a four-digit group. */
  function P2(s: string): int
    requires |s| == 2
  {
    Value(s[0]) * 10 + Value(s[1])
  }

  function P4(s: string): int
    requires |s| == 4
  {
    P2(s[..2]) * 100 + P2(s[2..])
  }

  lemma D2RoundTrip(n: int)
    requires 0 <= n < 100
    ensures AllDigits(D2(n)) && P2(D2(n)) == n
  {}

  lemma D4RoundTrip(n: int)
    requires 0 <= n < 10000
    ensures AllDigits(D4(n)) && P4(D4(n)) == n
  {
    D2RoundTrip(n / 100);
    D2RoundTrip(n % 100);
    assert D4(n)[..2] == D2(n / 100) && D4(n)[2..] == D2(n % 100);
  }

  // ------------------------------------------------------------------ printers

  const SNAPSHOTS_PREFIX := "weather-stations/snapshots/"
  const META_SUFFIX := ".meta.json"

  /** `YYYYMMDDTHH`, shared by snapshot names and tileset ids. */
  function HourStamp(t: DateTime): (s: string)
    requires Printable(t)
    ensures |s| == 11
  {
    D4(t.year) + D2(t.month) + D2(t.day) + "T" + D2(t.hour)
  }

  function DayPrefix(t: DateTime): string
    requires Printable(t)
  {
    SNAPSHOTS_PREFIX + D4(t.year) + "/" + D2(t.month) + "/" + D2(t.day) + "/"
  }

  /** The object basename of a snapshot, with the slash before it: 22 characters. */
  function Leaf(t: DateTime): (s: string)
    requires Printable(t)
    ensures |s| == 22
  {
    "/" + HourStamp(t) + D2(t.minute) + D2(t.second) + "Z.json"
  }

  function SnapshotKey(t: DateTime): (key: string)
    requires Printable(t)
    ensures |key| >= 22
  {
    DayPrefix(t) + D2(t.hour) + Leaf(t)
  }

  function MetaKey(key: string): string
    requires |key| >= 5
  {
    key[..|key| - 5] + META_SUFFIX
  }

  function TilesetId(t: DateTime): (s: string)
    requires Printable(t)
    ensures |s| == 14
  {
    HourStamp(t) + "00Z"
  }

  // ------------------------------------------------------------------ parsers

  /** A regular expression's final `$` also matches before one trailing newline. */
  function DropNewline(s: string): string {
    if |s| > 0 && s[|s| - 1] == '\n' then s[..|s| - 1] else s
  }

  function Checked(t: DateTime): Option<DateTime> { if IsDate(t) then Some(t) else None }

  /** The last 22 characters of a snapshot key. */
  function ParseLeaf(s: string): Option<DateTime>
    requires |s| == 22
  {
    if s[0] == '/' && AllDigits(s[1..9]) && s[9] == 'T' && AllDigits(s[10..16]) && s[16..] == "Z.json"
    then Checked(DateTime(P4(s[1..5]), P2(s[5..7]), P2(s[7..9]), P2(s[10..12]), P2(s[12..14]), P2(s[14..16])))
    else None
  }

  function ParseSnapshotKey(key: string): Option<DateTime> {
    var b := DropNewline(key);
    if |b| < 22 || '\n' in b[..|b| - 22] then None else ParseLeaf(b[|b| - 22..])
  }

  /** None stands for the format error raised on a malformed id. */
  function ParseTilesetId(id: string): Option<DateTime> {
    var s := DropNewline(id);
    if |s| == 14 && AllDigits(s[..8]) && s[8] == 'T' && AllDigits(s[9..13]) && s[13] == 'Z'
    then Checked(DateTime(P4(s[..4]), P2(s[4..6]), P2(s[6..8]), P2(s[9..11]), P2(s[11..13]), 0))
    else None
  }

  // ------------------------------------------------------------------ round trips

  lemma ConcatDigits(a: string, b: string)
    requires AllDigits(a) && AllDigits(b)
    ensures AllDigits(a + b)
  {}

  lemma LeafParses(t: DateTime)
    requires Printable(t)
    ensures ParseLeaf(Leaf(t)) == Some(t)
  {
    var s := Leaf(t);
    D4RoundTrip(t.year);
    D2RoundTrip(t.month); D2RoundTrip(t.day); D2RoundTrip(t.hour); D2RoundTrip(t.minute); D2RoundTrip(t.second);
    assert s[1..5] == D4(t.year) && s[5..7] == D2(t.month) && s[7..9] == D2(t.day);
    assert s[10..12] == D2(t.hour) && s[12..14] == D2(t.minute) && s[14..16] == D2(t.second);
    ConcatDigits(s[1..5], s[5..7]);
    ConcatDigits(s[1..5] + s[5..7], s[7..9]);
    ConcatDigits(s[10..12], s[12..14]);
    ConcatDigits(s[10..12] + s[12..14], s[14..16]);
    assert s[1..9] == s[1..5] + s[5..7] + s[7..9];
    assert s[10..16] == s[10..12] + s[12..14] + s[14..16];
    assert s[16..] == "Z.json";
  }

  /** Characters of a printed prefix: digits, slashes and the fixed words. No line break. */
  lemma PrefixHasNoNewline(t: DateTime)
    requires Printable(t)
    ensures '\n' !in DayPrefix(t) + D2(t.hour)
  {
    D4RoundTrip(t.year);
    D2RoundTrip(t.month); D2RoundTrip(t.day); D2RoundTrip(t.hour);
    DigitsHaveNoNewline(D4(t.year));
    DigitsHaveNoNewline(D2(t.month)); DigitsHaveNoNewline(D2(t.day)); DigitsHaveNoNewline(D2(t.hour));
    assert '\n' !in SNAPSHOTS_PREFIX;
  }

  lemma DigitsHaveNoNewline(s: string)
    requires AllDigits(s)
    ensures '\n' !in s
  {}

  /** Every key the scraper writes is parsed back to its timestamp. */
  lemma SnapshotKeyRoundTrip(t: DateTime)
    requires Printable(t)
    ensures ParseSnapshotKey(SnapshotKey(t)) == Some(t)
  {
    var p, key := DayPrefix(t) + D2(t.hour), SnapshotKey(t);
    LeafParses(t);
    PrefixHasNoNewline(t);
    assert key == p + Leaf(t);
    assert Leaf(t)[21] == 'n';
    assert key[|key| - 1] == 'n';
    assert key[..|key| - 22] == p && key[|key| - 22..] == Leaf(t);
  }

  /** Snapshot keys are not mistaken for their metadata siblings, which are. */
  lemma MetaSiblings(t: DateTime)
    requires Printable(t)
    ensures !EndsWith(SnapshotKey(t), META_SUFFIX) && EndsWith(MetaKey(SnapshotKey(t)), META_SUFFIX)
  {
    var key := SnapshotKey(t);
    assert key == DayPrefix(t) + D2(t.hour) + Leaf(t);
    assert Leaf(t)[16] == 'Z';
    assert key[|key| - 6] == 'Z';
    var tail := key[|key| - 10..];
    assert tail[4] == 'Z' && META_SUFFIX[4] == 'a';
    var stem := key[..|key| - 5];
    assert (stem + META_SUFFIX)[|stem|..] == META_SUFFIX;
  }

  /** Tileset ids parse back to the start of the hour they were printed for. */
  lemma TilesetIdRoundTrip(t: DateTime)
    requires Printable(t)
    ensures ParseTilesetId(TilesetId(t)) == Some(FloorHour(t))
  {
    var s := TilesetId(t);
    D4RoundTrip(t.year);
    D2RoundTrip(t.month); D2RoundTrip(t.day); D2RoundTrip(t.hour); D2RoundTrip(0);
    assert s[..4] == D4(t.year) && s[4..6] == D2(t.month) && s[6..8] == D2(t.day);
    assert s[9..11] == D2(t.hour) && s[11..13] == D2(0);
    ConcatDigits(s[..4], s[4..6]);
    ConcatDigits(s[..4] + s[4..6], s[6..8]);
    ConcatDigits(s[9..11], s[11..13]);
    assert s[..8] == s[..4] + s[4..6] + s[6..8];
    assert s[9..13] == s[9..11] + s[11..13];
    assert s[13] == 'Z' && DropNewline(s) == s;
  }

  /** A day prefix identifies its day. */
  lemma SamePrefixIffSameDay(a: DateTime, b: DateTime)
    requires Printable(a) && Printable(b)
    ensures DayPrefix(a) == DayPrefix(b) <==> SameDay(a, b)
  {
    PrefixFields(a);
    PrefixFields(b);
    D4RoundTrip(a.year); D4RoundTrip(b.year);
    D2RoundTrip(a.month); D2RoundTrip(b.month);
    D2RoundTrip(a.day); D2RoundTrip(b.day);
  }

  lemma PrefixFields(t: DateTime)
    requires Printable(t)
    ensures var s, n := DayPrefix(t), |SNAPSHOTS_PREFIX|;
            |s| == n + 11 && s[n..n + 4] == D4(t.year) && s[n + 5..n + 7] == D2(t.month) && s[n + 8..n + 10] == D2(t.day)
  {
    var d := D4(t.year) + "/" + D2(t.month) + "/" + D2(t.day) + "/";
    assert DayPrefix(t) == SNAPSHOTS_PREFIX + d;
    assert d[0..4] == D4(t.year) && d[5..7] == D2(t.month) && d[8..10] == D2(t.day);
  }

  /** Two timestamps share a tileset id exactly when they fall in the same hour. */
  lemma SameIdIffSameHour(a: DateTime, b: DateTime)
    requires Printable(a) && Printable(b)
    ensures TilesetId(a) == TilesetId(b) <==> SameHour(a, b)
  {
    TilesetIdRoundTrip(a);
    TilesetIdRoundTrip(b);
  }

  // ------------------------------------------------------------------ what parses is what was printed

  lemma D2Inverse(s: string)
    requires |s| == 2 && AllDigits(s)
    ensures 0 <= P2(s) < 100 && D2(P2(s)) == s
  {
    assert IsDigit(s[0]) && IsDigit(s[1]);
    assert P2(s) / 10 == Value(s[0]) && P2(s) % 10 == Value(s[1]);
  }

  lemma D4Inverse(s: string)
    requires |s| == 4 && AllDigits(s)
    ensures 0 <= P4(s) < 10000 && D4(P4(s)) == s
  {
    D2Inverse(s[..2]);
    D2Inverse(s[2..]);
    assert P4(s) / 100 == P2(s[..2]) && P4(s) % 100 == P2(s[2..]);
    assert s == s[..2] + s[2..];
  }

  lemma DigitsWithin(s: string, a: nat, b: nat)
    requires a <= b <= |s| && AllDigits(s)
    ensures AllDigits(s[a..b])
  {}

  lemma EightDigits(s: string)
    requires |s| == 8 && AllDigits(s)
    ensures s == D4(P4(s[..4])) + D2(P2(s[4..6])) + D2(P2(s[6..8]))
  {
    DigitsWithin(s, 0, 4); DigitsWithin(s, 4, 6); DigitsWithin(s, 6, 8);
    D4Inverse(s[..4]); D2Inverse(s[4..6]); D2Inverse(s[6..8]);
    assert s == s[..4] + s[4..6] + s[6..8];
  }

  lemma SixDigits(s: string)
    requires |s| == 6 && AllDigits(s)
    ensures s == D2(P2(s[..2])) + D2(P2(s[2..4])) + D2(P2(s[4..6]))
  {
    DigitsWithin(s, 0, 2); DigitsWithin(s, 2, 4); DigitsWithin(s, 4, 6);
    D2Inverse(s[..2]); D2Inverse(s[2..4]); D2Inverse(s[4..6]);
    assert s == s[..2] + s[2..4] + s[4..6];
  }

  /** A key parses to a time only if, but for a final line break, it ends in that time's printed name. */
  lemma ParsedKeyIsPrinted(key: string, t: DateTime)
    requires ParseSnapshotKey(key) == Some(t) && Printable(t)
    ensures EndsWith(DropNewline(key), Leaf(t))
  {
    var b := DropNewline(key);
    var s := b[|b| - 22..];
    EightDigits(s[1..9]);
    SixDigits(s[10..16]);
    assert s[1..9][..4] == s[1..5] && s[1..9][4..6] == s[5..7] && s[1..9][6..8] == s[7..9];
    assert s[10..16][..2] == s[10..12] && s[10..16][2..4] == s[12..14] && s[10..16][4..6] == s[14..16];
    assert s == "/" + s[1..9] + "T" + s[10..16] + s[16..];
    assert Leaf(t) == "/" + s[1..9] + "T" + s[10..16] + "Z.json";
  }

  /** An id parses to a time only if, but for a final line break, it is that time printed to the minute. */
  lemma ParsedIdIsPrinted(id: string, t: DateTime)
    requires ParseTilesetId(id) == Some(t) && Printable(t)
    ensures DropNewline(id) == HourStamp(t) + D2(t.minute) + "Z" && t.second == 0
  {
    var s := DropNewline(id);
    EightDigits(s[..8]);
    assert s[..8][..4] == s[..4] && s[..8][4..6] == s[4..6] && s[..8][6..8] == s[6..8];
    DigitsWithin(s[9..13], 0, 2);
    DigitsWithin(s[9..13], 2, 4);
    assert s[9..13][..2] == s[9..11] && s[9..13][2..4] == s[11..13];
    D2Inverse(s[9..11]);
    D2Inverse(s[11..13]);
    assert s == s[..8] + "T" + s[9..11] + s[11..13] + "Z";
  }
}

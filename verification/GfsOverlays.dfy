/** GFS overlay objects: the names a step's overlays get, and what a cycle listing makes of them. */
module GfsOverlays {
  import opened Basics

  const SUFFIX := ".json"

  // ------------------------------------------------------------------ printers

  function StepId(cycle: string, step: string): string { cycle + "_" + step }

  function CyclePrefix(segment: string, cycle: string): string {
    "geojson/gfs/" + segment + "/" + cycle + "/"
  }

  /** `{cycle}_{fxxx}_{layer}`. */
  function OverlayName(cycle: string, step: string, layer: string): string {
    StepId(cycle, step) + "_" + layer
  }

  function OverlayKey(segment: string, cycle: string, step: string, layer: string): string {
    CyclePrefix(segment, cycle) + OverlayName(cycle, step, layer) + SUFFIX
  }

  // ------------------------------------------------------------------ parsers

  function StepFromBasename(name: string, cycle: string): Option<string> {
    var marker := cycle + "_";
    if !StartsWith(name, marker) then None
    else
      var step := name[|marker|..];
      if step == "" then None else Some(step)
  }

  /** Index of the first underscore, or the length when there is none. */
  function FirstUnderscore(s: string): (k: nat)
    ensures k <= |s| && (k < |s| ==> s[k] == '_') && forall j :: 0 <= j < k ==> s[j] != '_'
  {
    if s == "" || s[0] == '_' then 0 else 1 + FirstUnderscore(s[1..])
  }

  function StepAndLayer(name: string, cycle: string): Option<(string, string)> {
    var tail := StepFromBasename(name, cycle);
    if tail.None? || '_' !in tail.value then None
    else
      var k := FirstUnderscore(tail.value);
      var step, layer := tail.value[..k], tail.value[k + 1..];
      if step == "" || layer == "" then None else Some((step, layer))
  }

  /** Printing then parsing gives the pair back exactly when the step is a non-empty tag without underscore. */
  lemma PrintThenParse(cycle: string, step: string, layer: string)
    ensures StepAndLayer(OverlayName(cycle, step, layer), cycle) == Some((step, layer))
            <==> step != "" && '_' !in step && layer != ""
  {
    var marker, name := cycle + "_", OverlayName(cycle, step, layer);
    var tail := step + "_" + layer;
    assert name == marker + tail;
    assert name[..|marker|] == marker && name[|marker|..] == tail;
    assert tail[|step|] == '_';
    var k := FirstUnderscore(tail);
    assert k <= |step|;
    if '_' !in step {
      assert forall j :: 0 <= j < |step| ==> tail[j] == step[j];
      assert k == |step|;
      assert tail[..k] == step && tail[k + 1..] == layer;
    } else {
      var j :| 0 <= j < |step| && step[j] == '_';
      assert tail[j] == '_';
      assert k < |step|;
      assert |tail[..k]| != |step|;
    }
  }

  /** Parsing then printing gives the basename back. */
  lemma ParseThenPrint(name: string, cycle: string)
    requires StepAndLayer(name, cycle).Some?
    ensures var (step, layer) := StepAndLayer(name, cycle).value;
            OverlayName(cycle, step, layer) == name && '_' !in step && step != "" && layer != ""
  {
    var marker := cycle + "_";
    var tail := StepFromBasename(name, cycle).value;
    var k := FirstUnderscore(tail);
    assert name == marker + tail;
    assert tail == tail[..k] + "_" + tail[k + 1..];
  }

  // ------------------------------------------------------------------ listing

  /** What a delimited LIST of the prefix returns: objects directly under it, in any order. */
  ghost predicate Lists(keys: seq<string>, objects: set<string>, prefix: string) {
    forall k :: k in keys <==>
      k in objects && StartsWith(k, prefix) && '/' !in k[|prefix|..] && !EndsWith(k, "/")
  }

  /** `lstrip("/")`. */
  function LStrip(s: string): string { if s != "" && s[0] == '/' then LStrip(s[1..]) else s }

  lemma {:induction false} LStripShape(s: string)
    ensures var r := LStrip(s);
            |r| <= |s| && r == s[|s| - |r|..] && forall i :: 0 <= i < |s| - |r| ==> s[i] == '/'
  {
    if s != "" && s[0] == '/' { LStripShape(s[1..]); }
  }

  /** `s[n:]`. */
  function From(s: string, n: nat): string { if n <= |s| then s[n..] else "" }

  /** `s[:-n]`, which is empty for `n == 0`. */
  function Without(s: string, n: nat): string { if 0 < n <= |s| then s[..|s| - n] else "" }

  /** The basename a listed key contributes, if any. */
  function Basename(key: string, prefix: string, suffix: string): Option<string> {
    var tail := LStrip(From(key, |prefix|));
    if !EndsWith(key, suffix) || '/' in tail then None else Some(Without(tail, |suffix|))
  }

  predicate HasName(keys: seq<string>, prefix: string, suffix: string, name: string) {
    exists j :: 0 <= j < |keys| && Basename(keys[j], prefix, suffix) == Some(name)
  }

  /** The basenames of the keys that have one, in listing order. */
  function BasenamesOf(keys: seq<string>, prefix: string, suffix: string): seq<string> {
    Somes(seq(|keys|, i requires 0 <= i < |keys| => Basename(keys[i], prefix, suffix)))
  }

  /** Basenames of listed objects, whatever the prefix, the suffix and the delimiter of the listing. */
  method ListObjectBasenames(keys: seq<string>, prefix: string, suffix: string) returns (names: seq<string>)
    ensures names == BasenamesOf(keys, prefix, suffix)
    ensures forall n :: n in names <==> HasName(keys, prefix, suffix, n)
  {
    ghost var all := seq(|keys|, i requires 0 <= i < |keys| => Basename(keys[i], prefix, suffix));
    names := [];
    for i := 0 to |keys|
      invariant names == Somes(all[..i])
    {
      hide LStrip, EndsWith, Somes;
      if EndsWith(keys[i], suffix) {
        var tail := LStrip(From(keys[i], |prefix|));
        if '/' !in tail { names := names + [Without(tail, |suffix|)]; }
      }
      assert all[..i + 1] == all[..i] + [all[i]];
      SomesStep(all[..i], all[i]);
    }
    assert all[..|all|] == all;
    forall n ensures n in names <==> HasName(keys, prefix, suffix, n) {
      SomesMembers(all, n);
      assert forall i :: 0 <= i < |keys| ==> all[i] == Basename(keys[i], prefix, suffix);
    }
  }

  predicate AllSlashes(s: string, a: nat, b: nat)
    requires b <= |s|
  {
    forall i :: a <= i < b ==> s[i] == '/'
  }

  /** `key` is a `name` under the prefix, with the suffix, after `gap` slashes. */
  predicate NamedAfter(key: string, prefix: string, suffix: string, name: string, gap: nat) {
    && |key| == |prefix| + gap + |name| + |suffix| && StartsWith(key, prefix) && EndsWith(key, suffix)
    && AllSlashes(key, |prefix|, |prefix| + gap)
    && key[|prefix| + gap..|key| - |suffix|] == name
  }

  /**
   * What a basename means for a key of a directory prefix: the key is the prefix, perhaps further
   * slashes, the slash-free name and the suffix.
   */
  lemma BasenameMeans(key: string, prefix: string, suffix: string, name: string)
    requires EndsWith(prefix, "/") && StartsWith(key, prefix) && suffix != "" && '/' !in suffix
    ensures Basename(key, prefix, suffix) == Some(name)
            <==> '/' !in name && exists gap :: NamedAfter(key, prefix, suffix, name, gap)
  {
    if Basename(key, prefix, suffix) == Some(name) { BasenameFound(key, prefix, suffix, name); }
    if gap: nat :| '/' !in name && NamedAfter(key, prefix, suffix, name, gap) {
      BasenameTaken(key, prefix, suffix, name, gap);
    }
  }

  lemma BasenameFound(key: string, prefix: string, suffix: string, name: string)
    requires EndsWith(prefix, "/") && StartsWith(key, prefix) && suffix != "" && '/' !in suffix
    requires Basename(key, prefix, suffix) == Some(name)
    ensures '/' !in name && exists gap :: NamedAfter(key, prefix, suffix, name, gap)
  {
    hide LStrip, StartsWith, EndsWith, AllSlashes;
    var p := |prefix|;
    SlashBefore(key, prefix);
    StrippedTail(key, p);
    var tail := LStrip(key[p..]);
    var gap := |key| - p - |tail|;
    SuffixAfterSlash(key, suffix, p + gap - 1);
    CutTail(key, p + gap, |suffix|);
    assert NamedAfter(key, prefix, suffix, name, gap);
  }

  lemma SlashBefore(key: string, prefix: string)
    requires EndsWith(prefix, "/") && StartsWith(key, prefix)
    ensures 0 < |prefix| <= |key| && key[|prefix| - 1] == '/'
  {
    assert prefix[|prefix| - 1..][0] == '/';
    assert key[..|prefix|][|prefix| - 1] == '/';
  }

  lemma CutTail(key: string, at: nat, n: nat)
    requires at + n <= |key| && '/' !in key[at..]
    ensures key[at..][..|key| - at - n] == key[at..|key| - n] && '/' !in key[at..|key| - n]
  {
    var cut := key[at..|key| - n];
    assert key[at..] == cut + key[|key| - n..];
  }

  /** Stripping the tail of a directory's key leaves it after its last leading slash. */
  lemma StrippedTail(key: string, p: nat)
    requires 0 < p <= |key| && key[p - 1] == '/'
    ensures var tail := LStrip(key[p..]);
            var at := |key| - |tail|;
            p <= at && AllSlashes(key, p, at) && key[at - 1] == '/' && tail == key[at..]
  {
    var rest := key[p..];
    var tail := LStrip(rest);
    LStripShape(rest);
    hide LStrip;
    assert forall i :: p <= i < |key| - |tail| ==> key[i] == rest[i - p];
  }

  lemma BasenameTaken(key: string, prefix: string, suffix: string, name: string, gap: nat)
    requires suffix != "" && '/' !in suffix && '/' !in name && NamedAfter(key, prefix, suffix, name, gap)
    ensures Basename(key, prefix, suffix) == Some(name)
  {
    var p, at, rest := |prefix|, |key| - |suffix|, key[|prefix|..];
    var tail := key[p + gap..];
    assert key[at..] == suffix && tail == name + suffix && '/' !in tail;
    assert rest[gap..] == tail && tail[0] in tail && rest[gap] == tail[0];
    SlashesStripped(rest, gap);
    assert tail[..|name|] == name;
  }

  /** A slash-free suffix lies after every slash. */
  lemma SuffixAfterSlash(key: string, suffix: string, i: nat)
    requires EndsWith(key, suffix) && '/' !in suffix && i < |key| && key[i] == '/'
    ensures i + |suffix| < |key|
  {
    var at := |key| - |suffix|;
    assert key[at..] == suffix;
    assert forall j :: at <= j < |key| ==> key[j] == suffix[j - at];
  }

  lemma {:induction false} SlashesStripped(s: string, gap: nat)
    requires gap < |s| && AllSlashes(s, 0, gap) && s[gap] != '/'
    ensures LStrip(s) == s[gap..]
  {
    if gap > 0 { SlashesStripped(s[1..], gap - 1); }
  }

  function LayersOf(byStep: map<string, seq<string>>, step: string): seq<string> {
    if step in byStep then byStep[step] else []
  }

  /** The layer a name stands for at a step, if any. */
  function LayerAt(name: string, cycle: string, step: string): Option<string> {
    var parsed := StepAndLayer(name, cycle);
    if parsed.Some? && parsed.value.0 == step then Some(parsed.value.1) else None
  }

  function LayersAt(names: seq<string>, cycle: string, step: string): seq<Option<string>> {
    seq(|names|, i requires 0 <= i < |names| => LayerAt(names[i], cycle, step))
  }

  /** Group a cycle's basenames by step, in place on the dictionary. */
  method CycleLayerMap(names: seq<string>, cycle: string) returns (byStep: map<string, seq<string>>)
    ensures forall step :: LayersOf(byStep, step) == Somes(LayersAt(names, cycle, step))
    ensures forall step, layer :: layer in LayersOf(byStep, step) <==>
              exists j :: 0 <= j < |names| && StepAndLayer(names[j], cycle) == Some((step, layer))
  {
    hide StepAndLayer;
    byStep := map[];
    for i := 0 to |names|
      invariant forall step :: LayersOf(byStep, step) == Somes(LayersAt(names[..i], cycle, step))
    {
      hide Somes;
      var parsed := StepAndLayer(names[i], cycle);
      ghost var was := byStep;
      if parsed.Some? {
        var (step, layer) := parsed.value;
        byStep := byStep[step := LayersOf(byStep, step) + [layer]];
      }
      forall step ensures LayersOf(byStep, step) == Somes(LayersAt(names[..i + 1], cycle, step)) {
        assert LayersOf(was, step) == Somes(LayersAt(names[..i], cycle, step));
        LayersStep(names, i, cycle, step);
      }
    }
    assert names[..|names|] == names;
    forall step, layer ensures layer in LayersOf(byStep, step) <==>
                               exists j :: 0 <= j < |names| && StepAndLayer(names[j], cycle) == Some((step, layer))
    {
      LayerMembers(names, cycle, step, layer);
    }
  }

  lemma LayersStep(names: seq<string>, i: nat, cycle: string, step: string)
    requires i < |names|
    ensures var l := LayerAt(names[i], cycle, step);
            Somes(LayersAt(names[..i + 1], cycle, step))
            == Somes(LayersAt(names[..i], cycle, step)) + if l.Some? then [l.value] else []
  {
    assert LayersAt(names[..i + 1], cycle, step) == LayersAt(names[..i], cycle, step) + [LayerAt(names[i], cycle, step)];
    SomesStep(LayersAt(names[..i], cycle, step), LayerAt(names[i], cycle, step));
  }

  lemma LayerMembers(names: seq<string>, cycle: string, step: string, layer: string)
    ensures layer in Somes(LayersAt(names, cycle, step)) <==>
            exists j :: 0 <= j < |names| && StepAndLayer(names[j], cycle) == Some((step, layer))
  {
    hide StepAndLayer;
    var ls := LayersAt(names, cycle, step);
    SomesMembers(ls, layer);
    assert forall i :: 0 <= i < |names| ==> ls[i] == LayerAt(names[i], cycle, step);
    if j :| 0 <= j < |names| && StepAndLayer(names[j], cycle) == Some((step, layer)) {
      assert ls[j] == Some(layer);
    }
  }

  /** A listing that names every object once advertises every layer of a step once. */
  lemma LayersListedOnce(keys: seq<string>, objects: set<string>, segment: string, cycle: string, step: string)
    requires Distinct(keys) && Lists(keys, objects, CyclePrefix(segment, cycle))
    ensures Distinct(Somes(LayersAt(BasenamesOf(keys, CyclePrefix(segment, cycle), SUFFIX), cycle, step)))
  {
    var prefix := CyclePrefix(segment, cycle);
    assert prefix[|prefix| - 1..] == "/";
    var all := seq(|keys|, i requires 0 <= i < |keys| => Basename(keys[i], prefix, SUFFIX));
    forall i, j | 0 <= i < j < |all| && all[i].Some? ensures all[i] != all[j] {
      assert keys[i] in keys && keys[j] in keys;
      if all[i] == all[j] {
        DirectName(keys[i], prefix, all[i].value);
        DirectName(keys[j], prefix, all[i].value);
      }
    }
    SomesDistinct(all);
    var names := Somes(all);
    var ls := LayersAt(names, cycle, step);
    forall i, j | 0 <= i < j < |ls| && ls[i].Some? ensures ls[i] != ls[j] {
      ParseThenPrint(names[i], cycle);
      if ls[j].Some? { ParseThenPrint(names[j], cycle); }
    }
    SomesDistinct(ls);
  }

  lemma DirectName(key: string, prefix: string, name: string)
    requires EndsWith(prefix, "/") && StartsWith(key, prefix) && '/' !in key[|prefix|..]
    requires Basename(key, prefix, SUFFIX) == Some(name)
    ensures key == prefix + name + SUFFIX
  {
    BasenameMeans(key, prefix, SUFFIX, name);
    var gap: nat :| NamedAfter(key, prefix, SUFFIX, name, gap);
    DirectKey(key, prefix, name, gap);
  }

  predicate NoSlash(cycle: string, step: string, layer: string) {
    '/' !in cycle && '/' !in step && '/' !in layer
  }

  lemma NameSlashes(cycle: string, step: string, layer: string)
    ensures '/' in OverlayName(cycle, step, layer) <==> !NoSlash(cycle, step, layer)
  {
    var name := OverlayName(cycle, step, layer);
    assert name == cycle + ("_" + step + "_" + layer);
    assert forall c :: c in name <==> c in cycle || c == '_' || c in step || c in layer;
  }

  /** A basename of the delimited LIST is exactly an object directly under the prefix. */
  lemma ListedBasename(keys: seq<string>, objects: set<string>, prefix: string, name: string)
    requires EndsWith(prefix, "/") && Lists(keys, objects, prefix)
    ensures HasName(keys, prefix, SUFFIX, name) <==> prefix + name + SUFFIX in objects && '/' !in name
  {
    var p, key := |prefix|, prefix + name + SUFFIX;
    assert key[..p] == prefix && key[p..] == name + SUFFIX;
    assert key[|key| - |SUFFIX|..] == SUFFIX && key[p..|key| - |SUFFIX|] == name;
    assert key[|key| - 1] == 'n' && ('/' in name + SUFFIX <==> '/' in name);
    if key in objects && '/' !in name {
      assert key in keys;
      assert NamedAfter(key, prefix, SUFFIX, name, 0);
      BasenameMeans(key, prefix, SUFFIX, name);
    }
    if HasName(keys, prefix, SUFFIX, name) {
      var j :| 0 <= j < |keys| && Basename(keys[j], prefix, SUFFIX) == Some(name);
      assert keys[j] in keys;
      BasenameMeans(keys[j], prefix, SUFFIX, name);
      DirectName(keys[j], prefix, name);
    }
  }

  lemma SlashInTail(key: string, p: nat, gap: nat)
    requires 0 < gap && p + gap <= |key| && AllSlashes(key, p, p + gap)
    ensures '/' in key[p..]
  {
    assert key[p..][0] == '/';
  }

  lemma DirectKey(key: string, prefix: string, name: string, gap: nat)
    requires NamedAfter(key, prefix, SUFFIX, name, gap) && '/' !in key[|prefix|..]
    ensures key == prefix + name + SUFFIX
  {
    var p, at := |prefix|, |key| - |SUFFIX|;
    if gap > 0 { SlashInTail(key, p, gap); }
    assert key == key[..p] + key[p..at] + key[at..];
  }

  /** The overlay object a fetch would read is in the delimited LIST exactly when it exists and has no slash in its name. */
  lemma FetchedKeyIsListed(keys: seq<string>, objects: set<string>, segment: string, cycle: string, name: string)
    requires Lists(keys, objects, CyclePrefix(segment, cycle))
    ensures HasName(keys, CyclePrefix(segment, cycle), SUFFIX, name)
            <==> CyclePrefix(segment, cycle) + name + SUFFIX in objects && '/' !in name
  {
    var prefix := CyclePrefix(segment, cycle);
    assert prefix[|prefix| - 1..] == "/";
    ListedBasename(keys, objects, prefix, name);
  }

  /**
   * Listing and fetching agree for every object set, barb subtrees included: a layer is advertised
   * for a step exactly when the object at its fetch key exists and the names are ones the processor
   * writes, a step tag without underscore and no slash anywhere.
   */
  lemma ListedIffFetchable(objects: set<string>, keys: seq<string>, names: seq<string>, byStep: map<string, seq<string>>,
                           segment: string, cycle: string, step: string, layer: string)
    requires Lists(keys, objects, CyclePrefix(segment, cycle))
    requires forall n :: n in names <==> HasName(keys, CyclePrefix(segment, cycle), SUFFIX, n)
    requires forall s, l :: l in LayersOf(byStep, s) <==>
               exists j :: 0 <= j < |names| && StepAndLayer(names[j], cycle) == Some((s, l))
    ensures layer in LayersOf(byStep, step) <==>
              && OverlayKey(segment, cycle, step, layer) in objects
              && step != "" && '_' !in step && layer != "" && NoSlash(cycle, step, layer)
  {
    hide StepAndLayer, OverlayName, Lists, HasName, CyclePrefix, LayersOf, NoSlash;
    var name := OverlayName(cycle, step, layer);
    PrintThenParse(cycle, step, layer);
    NameSlashes(cycle, step, layer);
    FetchedKeyIsListed(keys, objects, segment, cycle, name);
    if layer in LayersOf(byStep, step) {
      var j :| 0 <= j < |names| && StepAndLayer(names[j], cycle) == Some((step, layer));
      ParseThenPrint(names[j], cycle);
      assert names[j] in names;
    } else if name in names {
      var j :| 0 <= j < |names| && names[j] == name;
    }
  }
}

/** One collection cycle of the Redis memory metrics: count, sample, measure, extrapolate. */
module RedisMetrics {
  import opened Reservoir

  type Key = string
  type Domain = string

  // ------------------------------------------------------------------ the sample of a stream

  /** Without a cap, or while the stream fits it, nothing is dropped or reordered. */
  lemma {:induction false} SmallStreamIsKept<T>(stream: seq<T>, cap: int, slots: seq<nat>)
    requires |slots| == |stream| && (cap <= 0 || |stream| <= cap)
    ensures SampleOf(stream, cap, slots) == stream
  {
    if stream != [] {
      var n := |stream| - 1;
      SmallStreamIsKept(stream[..n], cap, slots[..n]);
      assert stream == stream[..n] + [stream[n]];
    }
  }

  /** `sample` holds the keys of `stream` at the positions `kept`. */
  ghost predicate At<T>(stream: seq<T>, kept: seq<nat>, sample: seq<T>, cap: nat) {
    && |sample| == cap && Shape(kept, cap, |stream|)
    && forall j :: 0 <= j < cap ==> sample[j] == stream[kept[j]]
  }

  lemma KeepCommutes<T>(stream: seq<T>, kept: seq<nat>, sample: seq<T>, cap: nat, key: T, slot: nat)
    requires cap >= 1 && At(stream, kept, sample, cap)
    ensures At(stream + [key], Keep<nat>(kept, |stream|, cap, slot), Keep(sample, key, cap, slot), cap)
  {
    KeepShape(kept, cap, |stream|, slot);
  }

  lemma NoDrawsAt<T>(stream: seq<T>, cap: nat)
    requires cap == |stream|
    ensures [] in Choices(cap, 0) && At(stream, Kept(cap, []), stream, cap)
  {}

  /** Past the cap, the sample is the keys at the positions that the late draws keep. */
  lemma {:induction false} SampleIsKeptPositions<T>(stream: seq<T>, cap: nat, slots: seq<nat>)
    requires 1 <= cap <= |stream| == |slots| && Drawn(slots)
    ensures var cs := slots[cap..];
            && cs in Choices(cap, |stream| - cap)
            && At(stream, Kept(cap, cs), SampleOf(stream, cap, slots), cap)
  {
    hide Choices, Kept, Below, At;
    var m := |stream| - cap;
    if m == 0 {
      SmallStreamIsKept(stream, cap, slots);
      assert slots[cap..] == [];
      NoDrawsAt(stream, cap);
    } else {
      var n := |stream| - 1;
      var cs := slots[..n][cap..];
      SampleIsKeptPositions(stream[..n], cap, slots[..n]);
      assert slots[cap..] == cs + [slots[n]];
      KeptStep(cap, m - 1, cs, slots[n]);
      KeepCommutes(stream[..n], Kept(cap, cs), SampleOf(stream[..n], cap, slots[..n]), cap, stream[n], slots[n]);
      assert stream[..n] + [stream[n]] == stream;
    }
  }

  /** `sample` of one domain, filled in place key by key. */
  class DomainReservoir {
    var sample: seq<Key>

    constructor ()
      ensures sample == []
    {
      sample := [];
    }

    /** One observation; `slot` is the random draw, made only when the reservoir is full. */
    method Observe(key: Key, seen: nat, cap: int) returns (slot: nat)
      requires seen >= 1
      modifies this
      ensures slot < seen && sample == Keep(old(sample), key, cap, slot)
    {
      if cap <= 0 || |sample| < cap {
        sample := sample + [key];
        return 0;
      }
      slot :| 0 <= slot < seen;
      if slot < cap { sample := sample[slot := key]; }
    }
  }

  /** The keys of one domain, in scan order. */
  function Of(keys: seq<Key>, classify: Key -> Domain, d: Domain): seq<Key> {
    if keys == [] then []
    else
      var n := |keys| - 1;
      Of(keys[..n], classify, d) + (if classify(keys[n]) == d then [keys[n]] else [])
  }

  /** One more key extends its own domain's stream and no other. */
  lemma OfStep(keys: seq<Key>, key: Key, classify: Key -> Domain, d: Domain)
    ensures Of(keys + [key], classify, d) ==
            if classify(key) == d then Of(keys, classify, d) + [key] else Of(keys, classify, d)
  {
    assert (keys + [key])[..|keys|] == keys;
    assert Of(keys, classify, d) + [] == Of(keys, classify, d);
  }

  /** What a domain's entry of the cycle's dictionaries means. */
  ghost predicate Samples(stream: seq<Key>, cap: int, count: nat, sample: seq<Key>, slots: seq<nat>) {
    count == |stream| == |slots| && Drawn(slots) && sample == SampleOf(stream, cap, slots)
  }

  /** A sample that some draws of the reservoir yield. */
  ghost predicate IsSample(stream: seq<Key>, cap: int, sample: seq<Key>) {
    exists slots :: Samples(stream, cap, |stream|, sample, slots)
  }

  lemma NothingSampled(cap: int)
    ensures Samples([], cap, 0, [], [])
  {}

  lemma SamplesStep(stream: seq<Key>, key: Key, cap: int, count: nat, sample: seq<Key>, slots: seq<nat>, slot: nat)
    requires Samples(stream, cap, count, sample, slots) && slot <= count
    ensures Samples(stream + [key], cap, count + 1, Keep(sample, key, cap, slot), slots + [slot])
  {
    assert (stream + [key])[..|stream|] == stream && (slots + [slot])[..|slots|] == slots;
  }

  /** Every domain of the keys scanned so far, and no other, has such an entry. */
  ghost predicate Tallied(keys: seq<Key>, classify: Key -> Domain, cap: int, counts: map<Domain, nat>,
                          samples: map<Domain, seq<Key>>, slots: map<Domain, seq<nat>>)
  {
    && counts.Keys == samples.Keys == slots.Keys
    && (forall d :: d in counts ==> Samples(Of(keys, classify, d), cap, counts[d], samples[d], slots[d]))
    && forall d :: d !in counts ==> Of(keys, classify, d) == []
  }

  function Get<V>(m: map<Domain, V>, d: Domain, default: V): V { if d in m then m[d] else default }

  lemma TallyStep(keys: seq<Key>, key: Key, classify: Key -> Domain, cap: int, counts: map<Domain, nat>,
                  samples: map<Domain, seq<Key>>, slots: map<Domain, seq<nat>>, slot: nat)
    requires Tallied(keys, classify, cap, counts, samples, slots)
    requires var d := classify(key); slot <= Get(counts, d, 0)
    ensures var d := classify(key);
            Tallied(keys + [key], classify, cap,
                    counts[d := Get(counts, d, 0) + 1],
                    samples[d := Keep(Get(samples, d, []), key, cap, slot)],
                    slots[d := Get(slots, d, []) + [slot]])
  {
    hide Of, Samples, Keep;
    var d := classify(key);
    NothingSampled(cap);
    SamplesStep(Of(keys, classify, d), key, cap, Get(counts, d, 0), Get(samples, d, []), Get(slots, d, []), slot);
    forall e { OfStep(keys, key, classify, e); }
  }

  /**
   * The counting loop: keys of different domains interleave in the scan, yet every domain ends with
   * its exact count and a reservoir sample of its own keys alone.
   */
  method CountAndSample(keys: seq<Key>, classify: Key -> Domain, cap: int)
    returns (counts: map<Domain, nat>, samples: map<Domain, seq<Key>>)
    ensures counts.Keys == samples.Keys
    ensures forall d :: d in counts ==> counts[d] == |Of(keys, classify, d)|
    ensures forall d :: d in samples ==> IsSample(Of(keys, classify, d), cap, samples[d])
    ensures forall d :: d !in counts ==> Of(keys, classify, d) == []
  {
    counts, samples := map[], map[];
    ghost var slots: map<Domain, seq<nat>> := map[];
    assert Tallied(keys[..0], classify, cap, counts, samples, slots);
    for i := 0 to |keys|
      invariant Tallied(keys[..i], classify, cap, counts, samples, slots)
    {
      hide Tallied, Keep;
      assert keys[..i + 1] == keys[..i] + [keys[i]];
      var key := keys[i];
      var d := classify(key);
      var seen := Get(counts, d, 0) + 1;
      var r := new DomainReservoir();
      r.sample := Get(samples, d, []);
      var slot := r.Observe(key, seen, cap);
      TallyStep(keys[..i], key, classify, cap, counts, samples, slots, slot);
      slots := slots[d := Get(slots, d, []) + [slot]];
      counts, samples := counts[d := seen], samples[d := r.sample];
    }
    assert keys[..|keys|] == keys;
    forall d | d in samples ensures IsSample(Of(keys, classify, d), cap, samples[d]) {
      assert Samples(Of(keys, classify, d), cap, counts[d], samples[d], slots[d]);
    }
  }

  // ------------------------------------------------------------------ bytes

  /** MEMORY USAGE of the keys, a vanished key counting as 0. */
  function Bytes(keys: seq<Key>, size: Key -> nat): nat {
    if keys == [] then 0 else Bytes(keys[..|keys| - 1], size) + size(keys[|keys| - 1])
  }

  lemma {:induction false} BytesConcat(a: seq<Key>, b: seq<Key>, size: Key -> nat)
    ensures Bytes(a + b, size) == Bytes(a, size) + Bytes(b, size)
  {
    if b == [] {
      assert a + b == a;
    } else {
      var n := |b| - 1;
      assert (a + b)[..|a| + n] == a + b[..n];
      BytesConcat(a, b[..n], size);
    }
  }

  /** Python's `round`: to nearest, ties to even. */
  function Round(x: real): int {
    var f := x.Floor;
    var d := x - f as real;
    if d < 0.5 then f else if d > 0.5 then f + 1 else if f % 2 == 0 then f else f + 1
  }

  /** No integer is closer, and a tie goes to the even neighbour. */
  lemma RoundIsNearest(x: real)
    ensures var r := Round(x) as real; -0.5 <= r - x <= 0.5 && (r - x == 0.5 || r - x == -0.5 ==> Round(x) % 2 == 0)
  {}

  function Extrapolate(measured: nat, sampled: nat, total: nat): int {
    if sampled >= total then measured
    else if sampled == 0 then 0
    else Round(measured as real / sampled as real * total as real)
  }

  /** A partial sample is scaled to the whole domain, to the nearest byte. */
  lemma ExtrapolateIsNearest(measured: nat, sampled: nat, total: nat)
    requires 0 < sampled < total
    ensures var exact := measured as real / sampled as real * total as real;
            -0.5 <= Extrapolate(measured, sampled, total) as real - exact <= 0.5
  {
    RoundIsNearest(measured as real / sampled as real * total as real);
  }

  /** Batching does not change what is measured. */
  method MeasureDomain(sample: seq<Key>, total: nat, batch: nat, size: Key -> nat) returns (bytes: int)
    requires batch >= 1
    ensures bytes == Extrapolate(Bytes(sample, size), |sample|, total)
  {
    var measured := 0;
    var start := 0;
    while start < |sample|
      invariant 0 <= start <= |sample| && measured == Bytes(sample[..start], size)
    {
      var end := if start + batch < |sample| then start + batch else |sample|;
      BytesConcat(sample[..start], sample[start..end], size);
      assert sample[..start] + sample[start..end] == sample[..end];
      measured := measured + Bytes(sample[start..end], size);
      start := end;
    }
    assert sample[..start] == sample;
    bytes := Extrapolate(measured, |sample|, total);
  }

  /** A fully sampled domain is measured exactly, whatever the key sizes. */
  lemma CensusIsExact(stream: seq<Key>, cap: int, slots: seq<nat>, size: Key -> nat)
    requires |slots| == |stream| && (cap <= 0 || |stream| <= cap)
    ensures var s := SampleOf(stream, cap, slots); Extrapolate(Bytes(s, size), |s|, |stream|) == Bytes(stream, size)
  {
    SmallStreamIsKept(stream, cap, slots);
  }

  lemma {:induction false} EqualSizes(keys: seq<Key>, size: Key -> nat, b: nat)
    requires forall k :: k in keys ==> size(k) == b
    ensures Bytes(keys, size) == |keys| * b
  {
    if keys != [] {
      var n := |keys| - 1;
      EqualSizes(keys[..n], size, b);
      assert keys[n] in keys;
      assert |keys| * b == n * b + b;
    }
  }

  /** With equal key sizes, the assumption behind sampling, the estimate is exact at any sample size. */
  lemma EqualSizesAreExact(sample: seq<Key>, size: Key -> nat, b: nat, total: nat)
    requires forall k :: k in sample ==> size(k) == b
    requires 0 < |sample| <= total
    ensures Extrapolate(Bytes(sample, size), |sample|, total) == total * b
  {
    hide Bytes, Round;
    EqualSizes(sample, size, b);
    MeanTimesTotal(|sample|, b, total);
  }

  lemma MeanTimesTotal(n: nat, b: nat, total: nat)
    requires n > 0
    ensures Round((n * b) as real / n as real * total as real) == total * b
  {
    var x, y := n as real, b as real;
    assert (n * b) as real == x * y;
    assert (x * y) / x == y;
    assert y * total as real == (total * b) as real;
  }
}

/** Latency measurements of the benchmark client: a bounded reservoir per worker, merged into
    weighted samples (benchmarks/client.zig). Weights are reals. */
module Latency {
  import opened Percentile

  const U64_MAX: nat := 0xffff_ffff_ffff_ffff

  datatype Measured = Measured(
    completed: nat, exchangeErrors: nat, streamErrors: nat, eligible: nat,
    min: nat, max: nat, samples: seq<Sample>)

  const EMPTY := Measured(0, 0, 0, 0, U64_MAX, 0, [])

  function Smaller(a: nat, b: nat): nat { if a <= b then a else b }

  function Larger(a: nat, b: nat): nat { if a >= b then a else b }

  function Mix64(value: bv64): bv64 {
    var a := value + 0x9e3779b97f4a7c15;
    var b := (a ^ (a >> 30)) * 0xbf58476d1ce4e5b9;
    var c := (b ^ (b >> 27)) * 0x94d049bb133111eb;
    c ^ (c >> 31)
  }

  /** The reservoir slot the `count`-th latency falls on. */
  function Slot(count: nat, seed: bv64): (slot: nat)
    requires 0 < count <= U64_MAX
    ensures slot < count
  {
    (Mix64((count as bv64) ^ seed) as nat) % count
  }

  /** addLatency, for the slot the generator picks when the reservoir is full. */
  function Add(m: Measured, ns: nat, capacity: nat, slot: nat): Measured {
    var m1 := m.(eligible := m.eligible + 1, min := Smaller(m.min, ns), max := Larger(m.max, ns));
    if |m.samples| < capacity then m1.(samples := m.samples + [Sample(ns, 1.0)])
    else if slot < capacity && slot < |m.samples| then m1.(samples := m.samples[slot := Sample(ns, 1.0)])
    else m1
  }

  function Record(m: Measured, measured: bool, valid: bool, ns: nat, capacity: nat, slot: nat): Measured {
    if !measured then m
    else if !valid then m.(exchangeErrors := m.exchangeErrors + 1)
    else Add(m.(completed := m.completed + 1), ns, capacity, slot)
  }

  function Weigh(samples: seq<Sample>, weight: real): (s: seq<Sample>)
    ensures |s| == |samples|
    ensures forall i | 0 <= i < |s| :: s[i] == Sample(samples[i].ns, weight)
  {
    seq(|samples|, i requires 0 <= i < |samples| => Sample(samples[i].ns, weight))
  }

  /** mergeShard; without room for the samples it fails after the counters have been merged. */
  function Merge(m: Measured, shard: Measured, room: bool): Measured {
    var m1 := m.(
      completed := m.completed + shard.completed,
      exchangeErrors := m.exchangeErrors + shard.exchangeErrors,
      streamErrors := m.streamErrors + shard.streamErrors,
      eligible := m.eligible + shard.eligible,
      min := if shard.eligible != 0 then Smaller(m.min, shard.min) else m.min,
      max := if shard.eligible != 0 then Larger(m.max, shard.max) else m.max);
    if shard.samples == [] || !room then m1
    else m1.(samples := m.samples + Weigh(shard.samples, shard.eligible as real / |shard.samples| as real))
  }

  class Measurements {
    var completed: nat
    var exchangeErrors: nat
    var streamErrors: nat
    var eligible: nat
    var min: nat
    var max: nat
    const seed: bv64
    var samples: seq<Sample>

    function View(): Measured
      reads this
    {
      Measured(completed, exchangeErrors, streamErrors, eligible, min, max, samples)
    }

    constructor (seed: bv64)
      ensures View() == EMPTY && this.seed == seed
    {
      completed, exchangeErrors, streamErrors, eligible := 0, 0, 0, 0;
      min, max, samples := U64_MAX, 0, [];
      this.seed := seed;
    }

    method Insert(ns: nat, capacity: nat, slot: nat)
      requires |samples| <= capacity
      modifies this
      ensures View() == Add(old(View()), ns, capacity, slot)
    {
      eligible := eligible + 1;
      min := if min <= ns then min else ns;
      max := if max >= ns then max else ns;
      if |samples| < capacity {
        samples := samples + [Sample(ns, 1.0)];
        return;
      }
      if slot < capacity {
        samples := samples[slot := Sample(ns, 1.0)];
      }
    }

    method AddLatency(ns: nat, capacity: nat)
      requires eligible < U64_MAX && |samples| <= capacity
      modifies this
      ensures View() == Add(old(View()), ns, capacity, Slot(old(eligible) + 1, seed))
    {
      var slot := Slot(eligible + 1, seed);
      Insert(ns, capacity, slot);
    }

    method RecordExchange(measured: bool, valid: bool, ns: nat, capacity: nat)
      requires eligible < U64_MAX && |samples| <= capacity
      modifies this
      ensures View() == Record(old(View()), measured, valid, ns, capacity, Slot(old(eligible) + 1, seed))
    {
      if !measured {
        return;
      }
      if !valid {
        exchangeErrors := exchangeErrors + 1;
        return;
      }
      completed := completed + 1;
      AddLatency(ns, capacity);
    }

    method MergeShard(shard: Measurements, room: bool) returns (ok: bool)
      requires shard != this
      modifies this
      ensures View() == Merge(old(View()), shard.View(), room)
      ensures ok <==> room || shard.samples == []
    {
      completed := completed + shard.completed;
      exchangeErrors := exchangeErrors + shard.exchangeErrors;
      streamErrors := streamErrors + shard.streamErrors;
      eligible := eligible + shard.eligible;
      if shard.eligible != 0 {
        min := if min <= shard.min then min else shard.min;
        max := if max >= shard.max then max else shard.max;
      }
      if |shard.samples| == 0 {
        return true;
      }
      if !room {
        return false;
      }
      var weight := shard.eligible as real / |shard.samples| as real;
      ghost var weighed := Weigh(shard.samples, weight);
      ghost var before := View();
      for i := 0 to |shard.samples|
        invariant View() == before.(samples := old(samples) + weighed[..i])
      {
        assert weighed[..i + 1] == weighed[..i] + [weighed[i]];
        samples := samples + [Sample(shard.samples[i].ns, weight)];
      }
      assert weighed[..|shard.samples|] == weighed;
      return true;
    }
  }

  // --------------------------------------------------------------------- one reservoir

  function MinOf(log: seq<nat>): nat {
    if log == [] then U64_MAX else Smaller(MinOf(log[..|log| - 1]), log[|log| - 1])
  }

  function MaxOf(log: seq<nat>): nat {
    if log == [] then 0 else Larger(MaxOf(log[..|log| - 1]), log[|log| - 1])
  }

  function Values(samples: seq<Sample>): (v: seq<nat>)
    ensures |v| == |samples| && forall i | 0 <= i < |v| :: v[i] == samples[i].ns
  {
    seq(|samples|, i requires 0 <= i < |samples| => samples[i].ns)
  }

  /** `m` summarises `log`, all the latencies recorded: exact count and extrema, and a reservoir
      that is full or complete and drawn from the log without repetition. */
  ghost predicate Summarises(m: Measured, log: seq<nat>, capacity: nat) {
    && m.completed == m.eligible == |log|
    && m.min == MinOf(log) && m.max == MaxOf(log)
    && |m.samples| == Smaller(|log|, capacity)
    && multiset(Values(m.samples)) <= multiset(log)
  }

  lemma Appended(log: seq<nat>, ns: nat)
    ensures MinOf(log + [ns]) == Smaller(MinOf(log), ns) && MaxOf(log + [ns]) == Larger(MaxOf(log), ns)
    ensures multiset(log + [ns]) == multiset(log) + multiset{ns}
  {
    assert (log + [ns])[..|log + [ns]| - 1] == log;
  }

  lemma Replaced(v: seq<nat>, i: nat, x: nat)
    requires i < |v|
    ensures multiset(v[i := x]) == multiset(v) - multiset{v[i]} + multiset{x}
  {
  }

  /** Every valid measured exchange extends the summary by its latency, whatever slot the
      generator picks; no other exchange touches it. */
  lemma RecordSummarises(m: Measured, log: seq<nat>, measured: bool, valid: bool, ns: nat, capacity: nat, slot: nat)
    requires Summarises(m, log, capacity)
    ensures Summarises(Record(m, measured, valid, ns, capacity, slot),
                       if measured && valid then log + [ns] else log, capacity)
  {
    if measured && valid {
      var m', v := Add(m.(completed := m.completed + 1), ns, capacity, slot), Values(m.samples);
      Appended(log, ns);
      if |m.samples| < capacity {
        assert Values(m'.samples) == v + [ns];
      } else if slot < capacity {
        assert Values(m'.samples) == v[slot := ns];
        Replaced(v, slot, ns);
      }
    }
  }

  datatype Exchange = Exchange(measured: bool, valid: bool, ns: nat, slot: nat)

  function RecordAll(xs: seq<Exchange>, capacity: nat): Measured {
    if xs == [] then EMPTY
    else
      var x := xs[|xs| - 1];
      Record(RecordAll(xs[..|xs| - 1], capacity), x.measured, x.valid, x.ns, capacity, x.slot)
  }

  function LogOf(xs: seq<Exchange>): seq<nat> {
    if xs == [] then []
    else
      var x := xs[|xs| - 1];
      LogOf(xs[..|xs| - 1]) + if x.measured && x.valid then [x.ns] else []
  }

  /** A worker's measurements summarise its valid measured exchanges, whatever it records. */
  lemma {:induction false} RunSummarises(xs: seq<Exchange>, capacity: nat)
    ensures Summarises(RecordAll(xs, capacity), LogOf(xs), capacity)
  {
    if xs != [] {
      var x, init := xs[|xs| - 1], xs[..|xs| - 1];
      RunSummarises(init, capacity);
      RecordSummarises(RecordAll(init, capacity), LogOf(init), x.measured, x.valid, x.ns, capacity, x.slot);
      assert LogOf(init) + [] == LogOf(init);
    } else {
      assert Values([]) == [];
    }
  }

  /** The valid measured exchanges. */
  function Counted(xs: seq<Exchange>): seq<Exchange> {
    if xs == [] then []
    else
      var x := xs[|xs| - 1];
      Counted(xs[..|xs| - 1]) + if x.measured && x.valid then [x] else []
  }

  /** Which of them place `p` of the reservoir holds: the last that drew `p` once the reservoir was
      full, or else the one that first filled it. */
  function Holder(vs: seq<Exchange>, p: nat, capacity: nat): nat {
    if vs == [] then 0
    else
      var last := |vs| - 1;
      if (if last < capacity then p == last else vs[last].slot == p) then last else Holder(vs[..last], p, capacity)
  }

  ghost predicate Kept(m: Measured, vs: seq<Exchange>, capacity: nat) {
    && |m.samples| == Smaller(|vs|, capacity)
    && forall p | 0 <= p < |m.samples| ::
         Holder(vs, p, capacity) < |vs| && m.samples[p] == Sample(vs[Holder(vs, p, capacity)].ns, 1.0)
  }

  lemma AddKeeps(m: Measured, vs: seq<Exchange>, x: Exchange, capacity: nat)
    requires Kept(m, vs, capacity)
    ensures Kept(Add(m, x.ns, capacity, x.slot), vs + [x], capacity)
  {
    var m', vs' := Add(m, x.ns, capacity, x.slot), vs + [x];
    assert vs'[..|vs'| - 1] == vs;
    forall p | 0 <= p < |m'.samples|
      ensures Holder(vs', p, capacity) < |vs'| && m'.samples[p] == Sample(vs'[Holder(vs', p, capacity)].ns, 1.0)
    {
      if |vs| < capacity && p == |vs| {
        assert Holder(vs', p, capacity) == |vs|;
      } else if |vs| >= capacity && x.slot == p {
        assert Holder(vs', p, capacity) == |vs|;
      } else {
        assert Holder(vs', p, capacity) == Holder(vs, p, capacity);
      }
    }
  }

  /** The reservoir, place by place, whatever a worker records. */
  lemma {:induction false} ReservoirExact(xs: seq<Exchange>, capacity: nat)
    ensures Kept(RecordAll(xs, capacity), Counted(xs), capacity)
  {
    if xs != [] {
      var x, init := xs[|xs| - 1], xs[..|xs| - 1];
      ReservoirExact(init, capacity);
      var m := RecordAll(init, capacity);
      if x.measured && x.valid {
        AddKeeps(m.(completed := m.completed + 1), Counted(init), x, capacity);
      } else {
        assert Counted(init) + [] == Counted(init);
      }
    }
  }

  // --------------------------------------------------------------------------- merging

  /** A worker's summary and the log it stands for. */
  datatype Shard = Shard(m: Measured, log: seq<nat>)

  /** The merge of all shards; the programs give up on the first that fails. */
  function MergeAll(shards: seq<Shard>): Measured {
    if shards == [] then EMPTY else Merge(MergeAll(shards[..|shards| - 1]), shards[|shards| - 1].m, true)
  }

  function Logs(shards: seq<Shard>): seq<nat> {
    if shards == [] then [] else Logs(shards[..|shards| - 1]) + shards[|shards| - 1].log
  }

  lemma {:induction false} ExtremaOfConcat(a: seq<nat>, b: seq<nat>)
    ensures MinOf(a + b) == Smaller(MinOf(a), MinOf(b)) && MaxOf(a + b) == Larger(MaxOf(a), MaxOf(b))
    ensures MinOf(a) <= U64_MAX
  {
    MinBound(a);
    if b == [] {
      assert a + b == a;
    } else {
      var init, last := b[..|b| - 1], b[|b| - 1];
      ExtremaOfConcat(a, init);
      assert a + b == a + init + [last];
      Appended(a + init, last);
      assert b == init + [last];
    }
  }

  lemma {:induction false} MinBound(a: seq<nat>)
    ensures MinOf(a) <= U64_MAX
  {
    if a != [] {
      MinBound(a[..|a| - 1]);
    }
  }

  function ExchangeErrors(shards: seq<Shard>): nat {
    if shards == [] then 0 else ExchangeErrors(shards[..|shards| - 1]) + shards[|shards| - 1].m.exchangeErrors
  }

  function StreamErrors(shards: seq<Shard>): nat {
    if shards == [] then 0 else StreamErrors(shards[..|shards| - 1]) + shards[|shards| - 1].m.streamErrors
  }

  /** All samples, each standing for its share of the latencies of its worker. */
  function Shares(shards: seq<Shard>): seq<Sample> {
    if shards == [] then []
    else
      var m := shards[|shards| - 1].m;
      Shares(shards[..|shards| - 1]) +
      if m.samples == [] then [] else Weigh(m.samples, m.eligible as real / |m.samples| as real)
  }

  /** Merging adds up the errors and strings the samples together. */
  lemma {:induction false} MergeSums(shards: seq<Shard>)
    ensures var m := MergeAll(shards);
            && m.exchangeErrors == ExchangeErrors(shards) && m.streamErrors == StreamErrors(shards)
            && m.samples == Shares(shards)
  {
    if shards != [] {
      MergeSums(shards[..|shards| - 1]);
    }
  }

  /** Merging keeps the count and the extrema exact over all the latencies of all workers. */
  lemma {:induction false} MergeExact(shards: seq<Shard>, capacity: nat)
    requires forall i | 0 <= i < |shards| :: Summarises(shards[i].m, shards[i].log, capacity)
    ensures var m, log := MergeAll(shards), Logs(shards);
            m.completed == m.eligible == |log| && m.min == MinOf(log) && m.max == MaxOf(log)
  {
    if shards != [] {
      var init, last := shards[..|shards| - 1], shards[|shards| - 1];
      MergeExact(init, capacity);
      assert Summarises(last.m, last.log, capacity);
      ExtremaOfConcat(Logs(init), last.log);
    }
  }

  // ----------------------------------------------------------------------------- weight

  lemma {:induction false} CumulativeOfPrefix(s: seq<Sample>, t: seq<Sample>, k: nat)
    requires k <= |s|
    ensures Cumulative(s + t, k) == Cumulative(s, k)
  {
    if k > 0 {
      CumulativeOfPrefix(s, t, k - 1);
    }
  }

  lemma {:induction false} TotalOfConcat(s: seq<Sample>, t: seq<Sample>, k: nat)
    requires k <= |t|
    ensures Cumulative(s + t, |s| + k) == Total(s) + Cumulative(t, k)
  {
    if k == 0 {
      CumulativeOfPrefix(s, t, |s|);
    } else {
      TotalOfConcat(s, t, k - 1);
      assert (s + t)[|s| + k - 1] == t[k - 1];
    }
  }

  lemma {:induction false} EvenWeight(t: seq<Sample>, w: real, k: nat)
    requires k <= |t| && forall i | 0 <= i < |t| :: t[i].weight == w
    ensures Cumulative(t, k) == k as real * w
  {
    if k > 0 {
      EvenWeight(t, w, k - 1);
      assert k as real * w == (k - 1) as real * w + w;
    }
  }

  lemma Shared(total: real, n: real)
    requires n > 0.0
    ensures n * (total / n) == total
  {
  }

  /** A shard adds its whole eligible count in weight, unless it kept no sample or there is no
      room for its samples. */
  lemma MergeWeight(m: Measured, shard: Measured, room: bool)
    ensures Total(Merge(m, shard, room).samples) ==
            Total(m.samples) + if shard.samples == [] || !room then 0.0 else shard.eligible as real
  {
    if shard.samples != [] && room {
      var n := |shard.samples| as real;
      var w := shard.eligible as real / n;
      var t := Weigh(shard.samples, w);
      TotalOfConcat(m.samples, t, |t|);
      EvenWeight(t, w, |t|);
      Shared(shard.eligible as real, n);
    }
  }

  /** The latencies of shards that kept no sample. */
  function Unsampled(shards: seq<Shard>): nat {
    if shards == [] then 0
    else Unsampled(shards[..|shards| - 1]) +
         if shards[|shards| - 1].m.samples == [] then shards[|shards| - 1].m.eligible else 0
  }

  lemma {:induction false} MergedWeight(shards: seq<Shard>)
    ensures Total(MergeAll(shards).samples) == (MergeAll(shards).eligible - Unsampled(shards)) as real
  {
    if shards != [] {
      MergedWeight(shards[..|shards| - 1]);
      MergeWeight(MergeAll(shards[..|shards| - 1]), shards[|shards| - 1].m, true);
    }
  }

  lemma {:induction false} AllSampled(shards: seq<Shard>, capacity: nat)
    requires forall i | 0 <= i < |shards| :: Summarises(shards[i].m, shards[i].log, capacity)
    ensures capacity >= 1 ==> Unsampled(shards) == 0
    ensures capacity == 0 ==> Unsampled(shards) == MergeAll(shards).eligible
  {
    if shards != [] {
      AllSampled(shards[..|shards| - 1], capacity);
      assert Summarises(shards[|shards| - 1].m, shards[|shards| - 1].log, capacity);
    }
  }

  /** The total weight is the total eligible count exactly when the reservoirs have room or
      nothing was recorded; the client always gives them room. */
  lemma WeightIsCount(shards: seq<Shard>, capacity: nat)
    requires forall i | 0 <= i < |shards| :: Summarises(shards[i].m, shards[i].log, capacity)
    ensures Total(MergeAll(shards).samples) == MergeAll(shards).eligible as real
            <==> capacity >= 1 || MergeAll(shards).eligible == 0
  {
    MergedWeight(shards);
    AllSampled(shards, capacity);
  }
}

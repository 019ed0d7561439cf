/**
 Cumulative histograms, the per-route table that folds models past its cap, and the
 conversion to per-interval counts (`observe`, `routeTable.get`, `ObserveRoute` and
 `differenced` in internal/gateway/telemetry.go), against the raw observations.
 */
module Histograms {
  import opened Common

  /** `buckets[i]` counts the observations at most `bounds[i]`. */
  datatype Dist = Dist(buckets: seq<nat>, count: nat, sum: nat)

  ghost predicate Increasing(bounds: seq<nat>) { forall i, j :: 0 <= i < j < |bounds| ==> bounds[i] < bounds[j] }

  // ----- the raw observations -----

  /** How many observations lie in (lo, hi]. */
  function Between(history: seq<nat>, lo: int, hi: int): nat {
    if history == [] then 0
    else Between(history[..|history| - 1], lo, hi) + if lo < history[|history| - 1] <= hi then 1 else 0
  }

  function Above(history: seq<nat>, lo: int): nat {
    if history == [] then 0 else Above(history[..|history| - 1], lo) + if lo < history[|history| - 1] then 1 else 0
  }

  function Total(history: seq<nat>): nat {
    if history == [] then 0 else Total(history[..|history| - 1]) + history[|history| - 1]
  }

  /** The histogram of a list of observations. */
  function Of(bounds: seq<nat>, history: seq<nat>): Dist {
    Dist(seq(|bounds|, i requires 0 <= i < |bounds| => Between(history, -1, bounds[i])), |history|, Total(history))
  }

  lemma {:induction false} BetweenSplits(history: seq<nat>, lo: int, mid: int, hi: int)
    requires lo <= mid <= hi
    ensures Between(history, lo, hi) == Between(history, lo, mid) + Between(history, mid, hi)
  {
    if history == [] {
    } else {
      BetweenSplits(history[..|history| - 1], lo, mid, hi);
    }
  }

  lemma {:induction false} AboveSplits(history: seq<nat>, mid: int)
    requires -1 <= mid
    ensures |history| == Between(history, -1, mid) + Above(history, mid)
  {
    if history == [] {
    } else {
      AboveSplits(history[..|history| - 1], mid);
    }
  }

  // ----- observing -----

  /** What one observation adds to each figure: to a bucket, to the count, to the sum. */
  function Step(bounds: seq<nat>, n: nat, i: nat): nat {
    if i < |bounds| then (if n <= bounds[i] then 1 else 0) else if i == |bounds| then 1 else n
  }

  /** One figure of a histogram. */
  function Reading(d: Dist, i: nat): nat {
    if i < |d.buckets| then d.buckets[i] else if i == |d.buckets| then d.count else d.sum
  }

  /** `d'` is `d` and one more observation. */
  ghost predicate Added(bounds: seq<nat>, d: Dist, n: nat, d': Dist) {
    |d'.buckets| == |d.buckets| && forall i: nat :: Reading(d', i) == Reading(d, i) + Step(bounds, n, i)
  }

  method Observe(bounds: seq<nat>, d: Dist, n: nat) returns (d': Dist)
    requires |d.buckets| == |bounds|
    ensures Added(bounds, d, n, d')
  {
    var buckets := d.buckets;
    for i := 0 to |bounds|
      invariant |buckets| == |bounds|
      invariant forall j :: 0 <= j < i ==> buckets[j] == d.buckets[j] + Step(bounds, n, j)
      invariant forall j :: i <= j < |buckets| ==> buckets[j] == d.buckets[j]
    {
      if n <= bounds[i] {
        buckets := buckets[i := buckets[i] + 1];
      }
    }
    d' := Dist(buckets, d.count + 1, d.sum + n);
  }

  /** Adding observations one by one gives the histogram of all of them. */
  lemma OfSnoc(bounds: seq<nat>, history: seq<nat>, n: nat, d: Dist)
    ensures Added(bounds, Of(bounds, history), n, d) <==> d == Of(bounds, history + [n])
  {
    var h, h' := Of(bounds, history), Of(bounds, history + [n]);
    assert (history + [n])[..|history|] == history;
    assert Added(bounds, h, n, h');
    if Added(bounds, h, n, d) { SameReadings(d, h'); }
  }

  lemma SameReadings(d: Dist, e: Dist)
    requires |d.buckets| == |e.buckets| && forall i: nat :: Reading(d, i) == Reading(e, i)
    ensures d == e
  {
    var n := |d.buckets|;
    forall i | 0 <= i < n ensures d.buckets[i] == e.buckets[i] { assert Reading(d, i) == Reading(e, i); }
    assert Reading(d, n) == Reading(e, n) && Reading(d, n + 1) == Reading(e, n + 1);
  }

  // ----- differencing -----

  function Clamp(n: int): nat { if n < 0 then 0 else n }

  /** `cumulative` and `count` are read one by one, so they need not belong to one instant. */
  method Differenced(cumulative: seq<nat>, count: nat) returns (out: seq<nat>)
    ensures IsDifference(out, cumulative, count)
  {
    out := [];
    var prev: int := 0;
    for i := 0 to |cumulative|
      invariant |out| == i && prev == Level(cumulative, count, i)
      invariant forall j :: 0 <= j < i ==> out[j] == Clamp(Level(cumulative, count, j + 1) - Level(cumulative, count, j))
    {
      out := out + [Clamp(cumulative[i] - prev)];
      prev := cumulative[i];
    }
    out := out + [Clamp(count - prev)];
  }

  /** 0, the cumulative counts, the total. */
  function Level(cumulative: seq<nat>, count: nat, i: nat): nat {
    if i == 0 then 0 else if i <= |cumulative| then cumulative[i - 1] else count
  }

  function SumOf(s: seq<nat>): nat { if s == [] then 0 else SumOf(s[..|s| - 1]) + s[|s| - 1] }

  predicate IsDifference(out: seq<nat>, cumulative: seq<nat>, count: nat) {
    && |out| == |cumulative| + 1
    && forall i :: 0 <= i < |out| ==> out[i] == Clamp(Level(cumulative, count, i + 1) - Level(cumulative, count, i))
  }

  function Lower(bounds: seq<nat>, i: nat): int { if 0 < i <= |bounds| then bounds[i - 1] else -1 }

  /** The observations in the i-th interval (lower, upper], or above the last bound. */
  function Interval(bounds: seq<nat>, history: seq<nat>, i: nat): nat {
    if i < |bounds| then Between(history, Lower(bounds, i), bounds[i]) else Above(history, Lower(bounds, |bounds|))
  }

  /** The exported counts are exactly the observations in each interval, with the overflow last. */
  lemma DifferencedIsExact(bounds: seq<nat>, history: seq<nat>, out: seq<nat>)
    requires Increasing(bounds) && IsDifference(out, Of(bounds, history).buckets, |history|)
    ensures forall i :: 0 <= i <= |bounds| ==> out[i] == Interval(bounds, history, i)
    ensures SumOf(out) == |history|
  {
    var c, n := Of(bounds, history).buckets, |history|;
    assert |c| == |bounds|;
    forall i | 0 <= i <= |bounds|
      ensures out[i] == Interval(bounds, history, i) && Level(c, n, i) <= Level(c, n, i + 1)
    {
      LevelSteps(bounds, history, i);
      hide Of, Level, Interval;
    }
    hide Of, Level, Interval, IsDifference, Increasing;
    assert Rising(c, n);
    SumIsCountIff(out, c, n);
  }

  lemma LevelSteps(bounds: seq<nat>, history: seq<nat>, i: nat)
    requires Increasing(bounds) && i <= |bounds|
    ensures var c := Of(bounds, history).buckets;
      Level(c, |history|, i + 1) - Level(c, |history|, i) == Interval(bounds, history, i)
  {
    if i == 0 { NoneBelow(history); }
    if i < |bounds| {
      BetweenSplits(history, -1, Lower(bounds, i), bounds[i]);
    } else {
      AboveSplits(history, Lower(bounds, i));
    }
  }

  lemma {:induction false} NoneBelow(history: seq<nat>)
    ensures Between(history, -1, -1) == 0
  {
    if history == [] {
    } else {
      NoneBelow(history[..|history| - 1]);
    }
  }

  ghost predicate Rising(cumulative: seq<nat>, count: nat) {
    forall i :: 0 <= i <= |cumulative| ==> Level(cumulative, count, i) <= Level(cumulative, count, i + 1)
  }

  lemma {:induction false} SumOfPrefix(out: seq<nat>, cumulative: seq<nat>, count: nat, n: nat)
    requires IsDifference(out, cumulative, count) && n <= |out|
    ensures SumOf(out[..n]) >= Level(cumulative, count, n)
    ensures SumOf(out[..n]) == Level(cumulative, count, n) <==>
      forall i :: 0 <= i < n ==> Level(cumulative, count, i) <= Level(cumulative, count, i + 1)
  {
    if n > 0 {
      SumOfPrefix(out, cumulative, count, n - 1);
      assert out[..n][..n - 1] == out[..n - 1];
    }
  }

  /** Whatever was read, the counts add up to the total exactly if no reading was behind the one before it. */
  lemma SumIsCountIff(out: seq<nat>, cumulative: seq<nat>, count: nat)
    requires IsDifference(out, cumulative, count)
    ensures SumOf(out) == count <==> Rising(cumulative, count)
    ensures SumOf(out) >= count
  {
    SumOfPrefix(out, cumulative, count, |out|);
    assert out[..|out|] == out;
  }

  // ----- the route table -----

  const LATENCY_BOUNDS: seq<nat> := [5, 25, 100, 500, 1000, 5000, 15000, 60000, 90000]
  const TOKEN_BOUNDS: seq<nat> := [1, 16, 64, 256, 1024, 4096, 16384, 65536, 262144]

  lemma BoundsIncrease()
    ensures Increasing(LATENCY_BOUNDS) && Increasing(TOKEN_BOUNDS)
  {}

  const MAX_KEYS: nat := 128

  /** `error` is the status when it is at least 400, and 0 otherwise. */
  datatype RouteKey = RouteKey(provider: string, model: string, error: nat)

  /**
   One completed inference with the tokens its provider reported, zero and zero when it
   reported none; `at` is the key it was recorded under.
   */
  datatype Observation = Observation(key: RouteKey, at: RouteKey, ms: nat, input: nat, output: nat)

  datatype Stats = Stats(latency: Dist, input: Dist, output: Dist)

  datatype Kind = Latency | InputTokens | OutputTokens

  function BoundsOf(kind: Kind): seq<nat> { if kind.Latency? then LATENCY_BOUNDS else TOKEN_BOUNDS }

  function DistOf(st: Stats, kind: Kind): Dist {
    match kind
    case Latency => st.latency
    case InputTokens => st.input
    case OutputTokens => st.output
  }

  /** What an observation says of each kind; no reported usage is no token sample, not a sample of zero. */
  function Sample(o: Observation, kind: Kind): Option<nat> {
    match kind
    case Latency => Some(o.ms)
    case InputTokens => if o.input != 0 || o.output != 0 then Some(o.input) else None
    case OutputTokens => if o.input != 0 || o.output != 0 then Some(o.output) else None
  }

  const EMPTY := Stats(Of(LATENCY_BOUNDS, []), Of(TOKEN_BOUNDS, []), Of(TOKEN_BOUNDS, []))

  predicate Same(k: RouteKey, provider: string, error: nat) { k.provider == provider && k.error == error }

  ghost function Readings(m: map<RouteKey, Stats>, provider: string, error: nat, kind: Kind, i: nat): map<RouteKey, nat> {
    map k | k in m && Same(k, provider, error) :: Reading(DistOf(m[k], kind), i)
  }

  /** The samples of a kind observed for a provider and outcome, whatever the model. */
  function Matching(log: seq<Observation>, provider: string, error: nat, kind: Kind): seq<nat> {
    if log == [] then []
    else
      var o := log[|log| - 1];
      Matching(log[..|log| - 1], provider, error, kind) +
        if Same(o.key, provider, error) && Sample(o, kind).Some? then [Sample(o, kind).value] else []
  }

  /** The samples of a kind recorded under one key. */
  function Recorded(log: seq<Observation>, k: RouteKey, kind: Kind): seq<nat> {
    if log == [] then []
    else
      var o := log[|log| - 1];
      Recorded(log[..|log| - 1], k, kind) + if o.at == k && Sample(o, kind).Some? then [Sample(o, kind).value] else []
  }

  /** Each key's distributions are those of the samples recorded under it. */
  ghost predicate PerKey(m: map<RouteKey, Stats>, log: seq<Observation>) {
    forall k, kind :: DistOf(Lookup(m, k), kind) == Of(BoundsOf(kind), Recorded(log, k, kind))
  }

  /** A figure, summed over the keys of a provider and outcome, is that of the raw observations. */
  ghost predicate ExactAt(m: map<RouteKey, Stats>, log: seq<Observation>, provider: string, error: nat, kind: Kind, i: nat) {
    Sum(Readings(m, provider, error, kind, i)) == Reading(Of(BoundsOf(kind), Matching(log, provider, error, kind)), i)
  }

  ghost predicate Exact(m: map<RouteKey, Stats>, log: seq<Observation>) {
    forall provider, error, kind, i :: ExactAt(m, log, provider, error, kind, i)
  }

  ghost function Modelled(m: map<RouteKey, Stats>): set<RouteKey> { set k | k in m && k.model != "" }

  /** The folded keys of the providers and outcomes seen. */
  ghost function Pairs(log: seq<Observation>): set<RouteKey> { set o | o in log :: RouteKey(o.key.provider, "", o.key.error) }

  ghost predicate ShapedStats(st: Stats) { forall kind :: |DistOf(st, kind).buckets| == |BoundsOf(kind)| }

  ghost predicate Shaped(m: map<RouteKey, Stats>) { forall k :: k in m ==> ShapedStats(m[k]) }

  /** Where an observation goes: its own key, or its provider's once the table is full of others. */
  function Fold(m: map<RouteKey, Stats>, k: RouteKey): RouteKey {
    if k in m || |m| < MAX_KEYS then k else k.(model := "")
  }

  function Lookup(m: map<RouteKey, Stats>, k: RouteKey): Stats { if k in m then m[k] else EMPTY }

  /** `st'` is `st` and the samples of one more observation. */
  ghost predicate Moved(st: Stats, o: Observation, st': Stats) {
    forall kind ::
      if Sample(o, kind).Some? then Added(BoundsOf(kind), DistOf(st, kind), Sample(o, kind).value, DistOf(st', kind))
      else DistOf(st', kind) == DistOf(st, kind)
  }

  lemma EmptyReads(kind: Kind, i: nat)
    ensures Reading(DistOf(EMPTY, kind), i) == 0
  {}

  lemma MoveKeepsExact(m: map<RouteKey, Stats>, log: seq<Observation>, o: Observation, k: RouteKey, st: Stats)
    requires Exact(m, log) && Same(k, o.key.provider, o.key.error) && Moved(Lookup(m, k), o, st)
    ensures Exact(m[k := st], log + [o])
  {
    var m', log' := m[k := st], log + [o];
    forall provider, error, kind, i ensures ExactAt(m', log', provider, error, kind, i) {
      assert ExactAt(m, log, provider, error, kind, i);
      MoveKeepsOne(m, log, o, k, st, provider, error, kind, i);
    }
  }

  lemma MoveKeepsOne(m: map<RouteKey, Stats>, log: seq<Observation>, o: Observation, k: RouteKey, st: Stats,
                     provider: string, error: nat, kind: Kind, i: nat)
    requires Same(k, o.key.provider, o.key.error) && Moved(Lookup(m, k), o, st)
    requires ExactAt(m, log, provider, error, kind, i)
    ensures ExactAt(m[k := st], log + [o], provider, error, kind, i)
  {
    var matching, sample := Matching(log, provider, error, kind), Sample(o, kind);
    MatchingSnoc(log, o, provider, error, kind);
    hide Sum, Of, Matching, Sample, BoundsOf;
    if !Same(k, provider, error) {
      assert Readings(m[k := st], provider, error, kind, i) == Readings(m, provider, error, kind, i);
    } else {
      UpdateTotal(m, k, st, provider, error, kind, i);
      hide Readings, Reading;
      if sample.Some? {
        OfSnoc(BoundsOf(kind), matching, sample.value, Of(BoundsOf(kind), matching + [sample.value]));
      }
    }
  }

  lemma MatchingSnoc(log: seq<Observation>, o: Observation, provider: string, error: nat, kind: Kind)
    ensures Matching(log + [o], provider, error, kind) ==
      if Same(o.key, provider, error) && Sample(o, kind).Some?
      then Matching(log, provider, error, kind) + [Sample(o, kind).value] else Matching(log, provider, error, kind)
  {
    assert (log + [o])[..|log|] == log;
    assert Matching(log, provider, error, kind) + [] == Matching(log, provider, error, kind);
  }

  lemma MoveKeepsPerKey(m: map<RouteKey, Stats>, log: seq<Observation>, o: Observation, st: Stats)
    requires PerKey(m, log) && Moved(Lookup(m, o.at), o, st)
    ensures PerKey(m[o.at := st], log + [o])
  {
    var m', log' := m[o.at := st], log + [o];
    assert log'[..|log|] == log;
    forall k, kind ensures DistOf(Lookup(m', k), kind) == Of(BoundsOf(kind), Recorded(log', k, kind)) {
      var before, sample := Recorded(log, k, kind), Sample(o, kind);
      assert DistOf(Lookup(m, k), kind) == Of(BoundsOf(kind), before);
      assert before + [] == before;
      hide Of, Added;
      if k == o.at && sample.Some? {
        OfSnoc(BoundsOf(kind), before, sample.value, DistOf(st, kind));
      }
    }
  }

  lemma UpdateTotal(m: map<RouteKey, Stats>, k: RouteKey, st: Stats, provider: string, error: nat, kind: Kind, i: nat)
    requires Same(k, provider, error)
    ensures Sum(Readings(m[k := st], provider, error, kind, i)) ==
      Sum(Readings(m, provider, error, kind, i)) + Reading(DistOf(st, kind), i) - Reading(DistOf(Lookup(m, k), kind), i)
  {
    hide Sum, Of;
    var before := Readings(m, provider, error, kind, i);
    assert Readings(m[k := st], provider, error, kind, i) == before[k := Reading(DistOf(st, kind), i)];
    SumUpdate(before, k, Reading(DistOf(st, kind), i));
    EmptyReads(kind, i);
  }

  /** The three distributions of a key after one observation. */
  method Record(st: Stats, o: Observation) returns (st': Stats)
    requires ShapedStats(st)
    ensures Moved(st, o, st') && ShapedStats(st')
    ensures Added(LATENCY_BOUNDS, st.latency, o.ms, st'.latency)
    ensures if o.input == 0 && o.output == 0 then st'.input == st.input && st'.output == st.output
            else Added(TOKEN_BOUNDS, st.input, o.input, st'.input) && Added(TOKEN_BOUNDS, st.output, o.output, st'.output)
  {
    assert |DistOf(st, Latency).buckets| == 9 && |DistOf(st, InputTokens).buckets| == 9 && |DistOf(st, OutputTokens).buckets| == 9;
    hide Added;
    var latency := Observe(LATENCY_BOUNDS, st.latency, o.ms);
    var input, output := st.input, st.output;
    if o.input != 0 || o.output != 0 {
      input := Observe(TOKEN_BOUNDS, st.input, o.input);
      output := Observe(TOKEN_BOUNDS, st.output, o.output);
    }
    st' := Stats(latency, input, output);
    AddedShape(LATENCY_BOUNDS, st.latency, o.ms, latency);
    if o.input != 0 || o.output != 0 {
      AddedShape(TOKEN_BOUNDS, st.input, o.input, input);
      AddedShape(TOKEN_BOUNDS, st.output, o.output, output);
    }
  }

  lemma AddedShape(bounds: seq<nat>, d: Dist, n: nat, d': Dist)
    requires Added(bounds, d, n, d')
    ensures |d'.buckets| == |d.buckets|
  {}

  class RouteTable {
    var m: map<RouteKey, Stats>
    var folded: nat
    ghost var log: seq<Observation>

    ghost predicate Valid()
      reads this
    {
      && Shaped(m) && Exact(m, log) && PerKey(m, log)
      && |Modelled(m)| <= MAX_KEYS
      && m.Keys - Modelled(m) <= Pairs(log)
    }

    constructor ()
      ensures Valid() && m == map[] && folded == 0 && log == []
    {
      m, folded, log := map[], 0, [];
      new;
      EmptyIsExact();
      EmptyIsPerKey();
      assert Modelled(m) == {};
    }

    /** The key an observation is recorded under, created if it is new; a fold is counted. */
    method Get(k: RouteKey) returns (used: RouteKey)
      requires Valid()
      modifies this
      ensures used == Fold(old(m), k) && used in m && Lookup(old(m), used) == m[used]
      ensures used == if k in old(m) || |old(m)| < 128 then k else RouteKey(k.provider, "", k.error)
      ensures m == old(m)[used := m[used]] && log == old(log)
      ensures folded == old(folded) + if used != k then 1 else 0
    {
      used := k;
      if k in m {
        return;
      }
      if |m| >= MAX_KEYS && k.model != "" {
        folded, used := folded + 1, k.(model := "");
        if used in m {
          return;
        }
      }
      m := m[used := EMPTY];
    }

    /**
     One completed inference: every figure of its provider and outcome, of latency and of
     tokens, moves by exactly this observation.
     */
    method ObserveRoute(provider: string, model: string, status: nat, ms: nat, input: nat, output: nat)
      requires Valid()
      modifies this
      ensures Valid()
      ensures var key := RouteKey(provider, model, if status >= 400 then status else 0);
        log == old(log) + [Observation(key, Fold(old(m), key), ms, input, output)]
      ensures var o := log[|old(log)|];
        && o.at in m && m == old(m)[o.at := m[o.at]] && Moved(Lookup(old(m), o.at), o, m[o.at])
        && folded == old(folded) + if o.at != o.key then 1 else 0
    {
      var key := RouteKey(provider, model, if status >= 400 then status else 0);
      EmptyIsShaped();
      var k := Get(key);
      var o := Observation(key, k, ms, input, output);
      assert ShapedStats(m[k]);
      hide Exact, PerKey, Modelled, Pairs, ShapedStats, Moved;
      var st := Record(m[k], o);
      MoveKeepsPerKey(old(m), log, o, st);
      MoveKeepsExact(old(m), log, o, k, st);
      ModelledStays(old(m), key, st);
      PairsGrow(old(m), log, o, k, st);
      m := m[k := st];
      assert m == old(m)[k := st];
      log := log + [o];
    }
  }

  lemma EmptyIsShaped()
    ensures ShapedStats(EMPTY)
  {}

  lemma EmptyIsPerKey()
    ensures PerKey(map[], [])
  {
    forall k, kind ensures DistOf(Lookup(map[], k), kind) == Of(BoundsOf(kind), Recorded([], k, kind)) {
      assert Lookup(map[], k) == EMPTY;
    }
  }

  lemma EmptyIsExact()
    ensures Exact(map[], [])
  {
    forall provider, error, kind, i ensures ExactAt(map[], [], provider, error, kind, i) {
      assert Readings(map[], provider, error, kind, i) == map[];
      EmptyReads(kind, i);
    }
  }

  /** At most 128 keys carry a model: one is added only while the whole table is smaller. */
  lemma ModelledStays(m: map<RouteKey, Stats>, key: RouteKey, st: Stats)
    requires |Modelled(m)| <= MAX_KEYS
    ensures |Modelled(m[Fold(m, key) := st])| <= MAX_KEYS
  {
    var k := Fold(m, key);
    var m' := m[k := st];
    if k in m || k.model == "" {
      assert Modelled(m') == Modelled(m);
    } else {
      assert Modelled(m') == Modelled(m) + {k};
      Subset(Modelled(m), m.Keys);
    }
  }

  lemma {:induction false} Subset<T>(a: set<T>, b: set<T>)
    requires a <= b
    ensures |a| <= |b|
  {
    if a == {} {
    } else {
      var x :| x in a;
      Subset(a - {x}, b - {x});
    }
  }

  lemma PairsGrow(m: map<RouteKey, Stats>, log: seq<Observation>, o: Observation, k: RouteKey, st: Stats)
    requires m.Keys - Modelled(m) <= Pairs(log) && Same(k, o.key.provider, o.key.error)
    ensures m[k := st].Keys - Modelled(m[k := st]) <= Pairs(log + [o])
  {
    assert o in log + [o];
    forall x | x in m[k := st] && x.model == "" ensures x in Pairs(log + [o]) {
      if x == k {
        assert x == RouteKey(o.key.provider, "", o.key.error);
      } else {
        assert x in m.Keys - Modelled(m);
        var y :| y in log && x == RouteKey(y.key.provider, "", y.key.error);
        assert y in log + [o];
      }
    }
  }

  /** The whole table is never larger than 128 keys and one for each provider and outcome seen. */
  lemma TableIsBounded(t: RouteTable)
    requires t.Valid()
    ensures |t.m| <= MAX_KEYS + |Pairs(t.log)|
  {
    var plain := t.m.Keys - Modelled(t.m);
    assert t.m.Keys == Modelled(t.m) + plain;
    assert |t.m| == |t.m.Keys|;
    Subset(plain, Pairs(t.log));
  }

  // ----- what is exported -----

  /** A distribution of latencies is always exported, one of tokens if it has a sample. */
  predicate Reports(st: Stats, kind: Kind) { kind.Latency? || DistOf(st, kind).count > 0 }

  /** One differenced histogram for each key that reports. */
  ghost predicate Exported(m: map<RouteKey, Stats>, kind: Kind, out: map<RouteKey, seq<nat>>) {
    && (forall k :: k in out <==> k in m && Reports(m[k], kind))
    && (forall k :: k in out ==> IsDifference(out[k], DistOf(m[k], kind).buckets, DistOf(m[k], kind).count))
  }

  /** The exporter's pass over the table. */
  method Export(m: map<RouteKey, Stats>, kind: Kind) returns (out: map<RouteKey, seq<nat>>)
    ensures Exported(m, kind, out)
    ensures forall k :: k in out <==> k in m && (kind == Latency || DistOf(m[k], kind).count >= 1)
  {
    hide IsDifference;
    out := map[];
    var todo := m.Keys;
    while todo != {}
      invariant todo <= m.Keys
      invariant forall k :: k in out <==> k in m && k !in todo && Reports(m[k], kind)
      invariant forall k :: k in out ==> IsDifference(out[k], DistOf(m[k], kind).buckets, DistOf(m[k], kind).count)
      decreases todo
    {
      var k :| k in todo;
      if Reports(m[k], kind) {
        var counts := Differenced(DistOf(m[k], kind).buckets, DistOf(m[k], kind).count);
        out := out[k := counts];
      }
      todo := todo - {k};
    }
  }

  /** What is exported for a key counts exactly the samples recorded under it, interval by interval. */
  lemma ExportPerKey(t: RouteTable, kind: Kind, out: map<RouteKey, seq<nat>>, k: RouteKey)
    requires t.Valid() && Exported(t.m, kind, out) && k in out
    ensures var samples := Recorded(t.log, k, kind);
      && |out[k]| == |BoundsOf(kind)| + 1
      && (forall i :: 0 <= i <= |BoundsOf(kind)| ==> out[k][i] == Interval(BoundsOf(kind), samples, i))
      && SumOf(out[k]) == |samples|
  {
    BoundsIncrease();
    assert DistOf(Lookup(t.m, k), kind) == Of(BoundsOf(kind), Recorded(t.log, k, kind));
    DifferencedIsExact(BoundsOf(kind), Recorded(t.log, k, kind), out[k]);
  }

  /** The i-th exported count of each key of a provider and outcome. */
  ghost function Counts(out: map<RouteKey, seq<nat>>, provider: string, error: nat, i: nat): map<RouteKey, nat>
    requires forall k :: k in out ==> i < |out[k]|
  {
    map k | k in out && Same(k, provider, error) :: out[k][i]
  }

  /** A key that reports nothing has nothing in any interval. */
  lemma SilentKey(t: RouteTable, kind: Kind, k: RouteKey, i: nat)
    requires t.Valid() && k in t.m && !Reports(t.m[k], kind)
    ensures Interval(BoundsOf(kind), Recorded(t.log, k, kind), i) == 0
  {
    assert DistOf(Lookup(t.m, k), kind) == Of(BoundsOf(kind), Recorded(t.log, k, kind));
    assert Recorded(t.log, k, kind) == [];
  }

  /** Leaving zeros out does not change a total. */
  lemma {:induction false} SumWithoutZeros<K>(part: map<K, nat>, whole: map<K, nat>)
    requires forall k :: k in part ==> k in whole && part[k] == whole[k]
    requires forall k :: k in whole && k !in part ==> whole[k] == 0
    ensures Sum(part) == Sum(whole)
    decreases whole
  {
    if part.Keys == whole.Keys {
      assert part == whole;
    } else {
      var k :| k in whole && k !in part;
      SumRemove(whole, k);
      hide Sum;
      SumWithoutZeros(part, whole - {k});
    }
  }

  /** A level of the readings: nothing below the first bucket, then each figure up to the count. */
  function LevelOf(d: Dist, i: nat): nat { if i == 0 then 0 else Reading(d, i - 1) }

  lemma LevelIsReading(bounds: seq<nat>, samples: seq<nat>, i: nat)
    requires Increasing(bounds) && i <= |bounds|
    ensures var d := Of(bounds, samples); LevelOf(d, i) + Interval(bounds, samples, i) == LevelOf(d, i + 1)
  {
    LevelSteps(bounds, samples, i);
  }

  /** Tables that add up key by key add up in all. */
  lemma {:induction false} SumAdds<K>(a: map<K, nat>, b: map<K, nat>, c: map<K, nat>)
    requires a.Keys == b.Keys == c.Keys && forall k :: k in a ==> a[k] + b[k] == c[k]
    ensures Sum(a) + Sum(b) == Sum(c)
    decreases a
  {
    if a == map[] {
      assert b == map[] && c == map[];
    } else {
      var k :| k in a;
      SumRemove(a, k);
      SumRemove(b, k);
      SumRemove(c, k);
      hide Sum;
      SumAdds(a - {k}, b - {k}, c - {k});
    }
  }

  ghost function Levels(m: map<RouteKey, Stats>, provider: string, error: nat, kind: Kind, i: nat): map<RouteKey, nat> {
    map k | k in m && Same(k, provider, error) :: LevelOf(DistOf(m[k], kind), i)
  }

  lemma {:induction false} SumOfZeros<K>(m: map<K, nat>)
    requires forall k :: k in m ==> m[k] == 0
    ensures Sum(m) == 0
    decreases m
  {
    if m == map[] {
    } else {
      var k :| k in m;
      SumRemove(m, k);
      SumOfZeros(m - {k});
    }
  }

  lemma LevelsAreExact(m: map<RouteKey, Stats>, log: seq<Observation>, provider: string, error: nat, kind: Kind, i: nat)
    requires Exact(m, log)
    ensures Sum(Levels(m, provider, error, kind, i)) == LevelOf(Of(BoundsOf(kind), Matching(log, provider, error, kind)), i)
  {
    hide Sum, Of;
    if i == 0 {
      SumOfZeros(Levels(m, provider, error, kind, i));
    } else {
      assert ExactAt(m, log, provider, error, kind, i - 1);
      assert Levels(m, provider, error, kind, i) == Readings(m, provider, error, kind, i - 1);
    }
  }

  /** What each key of a provider and outcome holds in an interval, whether it reports or not. */
  ghost function Held(t: RouteTable, provider: string, error: nat, kind: Kind, i: nat): map<RouteKey, nat>
    reads t
  {
    var m, log := t.m, t.log;
    map k | k in m && Same(k, provider, error) :: Interval(BoundsOf(kind), Recorded(log, k, kind), i)
  }

  /** Level by level, a key's figures step by what it holds in the interval. */
  lemma KeySteps(t: RouteTable, kind: Kind, k: RouteKey, i: nat)
    requires t.Valid() && k in t.m && i <= |BoundsOf(kind)|
    ensures LevelOf(DistOf(t.m[k], kind), i) + Interval(BoundsOf(kind), Recorded(t.log, k, kind), i)
         == LevelOf(DistOf(t.m[k], kind), i + 1)
  {
    BoundsIncrease();
    assert DistOf(Lookup(t.m, k), kind) == Of(BoundsOf(kind), Recorded(t.log, k, kind));
    hide Of, Interval, LevelOf, Exact, Recorded, DistOf;
    LevelIsReading(BoundsOf(kind), Recorded(t.log, k, kind), i);
  }

  lemma HeldIsExact(t: RouteTable, kind: Kind, provider: string, error: nat, i: nat)
    requires t.Valid() && i <= |BoundsOf(kind)|
    ensures Sum(Held(t, provider, error, kind, i)) == Interval(BoundsOf(kind), Matching(t.log, provider, error, kind), i)
  {
    var lower, upper := Levels(t.m, provider, error, kind, i), Levels(t.m, provider, error, kind, i + 1);
    assert Increasing(BoundsOf(kind)) by { BoundsIncrease(); }
    hide Sum, Of, Interval, LevelOf, Exact, PerKey, Shaped, BoundsOf, Matching, Recorded, DistOf, Increasing, Modelled, Pairs;
    LevelsAreExact(t.m, t.log, provider, error, kind, i);
    LevelsAreExact(t.m, t.log, provider, error, kind, i + 1);
    LevelIsReading(BoundsOf(kind), Matching(t.log, provider, error, kind), i);
    var held := Held(t, provider, error, kind, i);
    forall k | k in lower ensures lower[k] + held[k] == upper[k] { KeySteps(t, kind, k, i); }
    SumAdds(lower, held, upper);
  }

  /**
   And summed over the keys of a provider and outcome, folded ones included, what is
   exported counts exactly the raw samples of that provider and outcome.
   */
  lemma ExportIsExact(t: RouteTable, kind: Kind, out: map<RouteKey, seq<nat>>, provider: string, error: nat, i: nat)
    requires t.Valid() && Exported(t.m, kind, out) && i <= |BoundsOf(kind)|
    ensures forall k :: k in out ==> i < |out[k]|
    ensures Sum(Counts(out, provider, error, i)) == Interval(BoundsOf(kind), Matching(t.log, provider, error, kind), i)
  {
    HeldIsExact(t, kind, provider, error, i);
    forall k | k in t.m
      ensures if k in out then i < |out[k]| && out[k][i] == Interval(BoundsOf(kind), Recorded(t.log, k, kind), i)
              else Interval(BoundsOf(kind), Recorded(t.log, k, kind), i) == 0
    {
      if k in out { ExportPerKey(t, kind, out, k); } else { SilentKey(t, kind, k, i); }
      hide Interval, Exact, PerKey, IsDifference;
    }
    hide Sum, Of, Interval, Exact, PerKey, Shaped, IsDifference, BoundsOf, Matching, Recorded, Reports;
    SumWithoutZeros(Counts(out, provider, error, i), Held(t, provider, error, kind, i));
  }
}

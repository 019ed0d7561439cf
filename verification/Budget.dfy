/**
 Budget-aware routing (internal/gateway/budget.go).  The table keeps two numbers
 per model; the reference is the full list of observations.
 */
module Budgets {
  import opened Common

  datatype Key = Key(provider: string, model: string)

  /** `emptyAt`: largest budget that produced no text.  `okAt`: smallest that did, 0 for never. */
  datatype Fact = Fact(emptyAt: nat, okAt: nat, seen: Time)

  type Budget = n: nat | n > 0 witness 1

  datatype Observation = Observation(key: Key, budget: Budget, text: bool, at: Time)

  const TTL: Time := 21600.0
  const LIMIT: nat := 256

  type History = seq<Observation>

  // ----- the reference: what the full history says -----

  ghost function KeysOf(h: History): set<Key> { set o | o in h :: o.key }

  /** When a key was last observed in a stretch of history. */
  ghost function LastSeen(h: History, k: Key): Option<Time> {
    if h == [] then None
    else if h[|h| - 1].key == k then Some(h[|h| - 1].at)
    else LastSeen(h[..|h| - 1], k)
  }

  lemma {:induction false} SeenIffKey(h: History, k: Key)
    ensures LastSeen(h, k).Some? <==> k in KeysOf(h)
  {
    if h == [] {
    } else {
      SeenIffKey(h[..|h| - 1], k);
      KeysOfAppend(h[..|h| - 1], h[|h| - 1]);
      assert h == h[..|h| - 1] + [h[|h| - 1]];
    }
  }

  /** Nothing usable is remembered about the key: never seen, or not for longer than the TTL. */
  ghost predicate Stale(h: History, k: Key, now: Time) {
    var s := LastSeen(h, k);
    s.None? || now - s.value > TTL
  }

  /** The observations made since the table was last dropped for being full. */
  ghost function SinceDrop(h: History): History {
    if h == [] then []
    else
      var kept, o := SinceDrop(h[..|h| - 1]), h[|h| - 1];
      (if Stale(kept, o.key, o.at) && |KeysOf(kept)| >= LIMIT then [] else kept) + [o]
  }

  /** Of those, the observations of one key since its last gap longer than the TTL. */
  ghost function SinceGap(h: History, k: Key): History {
    if h == [] then []
    else
      var kept, o := SinceGap(h[..|h| - 1], k), h[|h| - 1];
      if o.key != k then kept
      else if Stale(h[..|h| - 1], k, o.at) then [o]
      else kept + [o]
  }

  /** The observations that still count for a key. */
  ghost function Relevant(h: History, k: Key): History { SinceGap(SinceDrop(h), k) }

  /** Failure seen at this budget or higher, and no success at this budget or lower. */
  ghost predicate KnownEmpty(r: History, budget: nat) {
    && (exists o :: o in r && !o.text && budget <= o.budget)
    && (forall o :: o in r && o.text ==> budget < o.budget)
  }

  ghost predicate ShouldSkip(h: History, k: Key, budget: nat, now: Time) {
    !Stale(SinceDrop(h), k, now) && KnownEmpty(Relevant(h, k), budget)
  }

  // ----- the summary -----

  ghost function Largest(r: History): nat {
    if r == [] then 0
    else
      var m, o := Largest(r[..|r| - 1]), r[|r| - 1];
      if !o.text && o.budget > m then o.budget else m
  }

  ghost function Smallest(r: History): nat {
    if r == [] then 0
    else
      var m, o := Smallest(r[..|r| - 1]), r[|r| - 1];
      if o.text && (m == 0 || o.budget < m) then o.budget else m
  }

  /** What the table holds for a key, when the history has anything on it. */
  ghost function FactOf(kept: History, k: Key): Option<Fact> {
    var s := LastSeen(kept, k);
    if s.None? then None else Some(Fact(Largest(SinceGap(kept, k)), Smallest(SinceGap(kept, k)), s.value))
  }

  function Lookup(facts: map<Key, Fact>, k: Key): Option<Fact> {
    if k in facts then Some(facts[k]) else None
  }

  /** The table is the summary of the history: one fact per key seen since the last drop. */
  ghost predicate Summarises(facts: map<Key, Fact>, h: History) {
    forall k :: Lookup(facts, k) == FactOf(SinceDrop(h), k)
  }

  lemma KeysSummarised(facts: map<Key, Fact>, h: History)
    requires Summarises(facts, h)
    ensures facts.Keys == KeysOf(SinceDrop(h)) && |facts| == |KeysOf(SinceDrop(h))|
  {
    forall k ensures k in facts.Keys <==> k in KeysOf(SinceDrop(h)) {
      assert Lookup(facts, k) == FactOf(SinceDrop(h), k);
      SeenIffKey(SinceDrop(h), k);
    }
  }

  lemma {:induction false} LargestBounds(r: History, budget: nat)
    requires budget > 0
    ensures budget <= Largest(r) <==> exists o :: o in r && !o.text && budget <= o.budget
  {
    if r == [] {
    } else {
      var prev, o := r[..|r| - 1], r[|r| - 1];
      LargestBounds(prev, budget);
      assert r == prev + [o];
      assert o in r;
      assert forall p :: p in prev ==> p in r;
    }
  }

  lemma {:induction false} SmallestBounds(r: History, budget: nat)
    ensures Smallest(r) == 0 || budget < Smallest(r) <==> forall o :: o in r && o.text ==> budget < o.budget
    ensures Smallest(r) == 0 <==> forall o :: o in r ==> !o.text
  {
    if r == [] {
    } else {
      var prev, o := r[..|r| - 1], r[|r| - 1];
      SmallestBounds(prev, budget);
      assert r == prev + [o];
      assert o in r;
      assert forall p :: p in prev ==> p in r;
    }
  }

  /** Two numbers decide exactly what the list of observations decides. */
  lemma SummaryDecides(r: History, budget: nat)
    requires budget > 0
    ensures KnownEmpty(r, budget) <==> budget <= Largest(r) && (Smallest(r) == 0 || budget < Smallest(r))
  {
    LargestBounds(r, budget);
    SmallestBounds(r, budget);
  }

  lemma KeysOfAppend(h: History, o: Observation)
    ensures KeysOf(h + [o]) == KeysOf(h) + {o.key}
  {
    assert o in h + [o];
    forall k | k in KeysOf(h) ensures k in KeysOf(h + [o]) {
      var p :| p in h && p.key == k;
      assert p in h + [o];
    }
  }

  /** The update `Observe` makes, as a function of the table. */
  function Updated(facts: map<Key, Fact>, o: Observation): (r: map<Key, Fact>) {
    var stale := o.key !in facts || o.at - facts[o.key].seen > TTL;
    var f := if stale then Fact(0, 0, o.at) else facts[o.key];
    var base := if stale && |facts| >= LIMIT then map[] else facts;
    base[o.key := Folded(f, o)]
  }

  function Folded(f: Fact, o: Observation): Fact {
    if o.text then f.(okAt := if f.okAt == 0 || o.budget < f.okAt then o.budget else f.okAt, seen := o.at)
    else f.(emptyAt := if o.budget > f.emptyAt then o.budget else f.emptyAt, seen := o.at)
  }

  lemma SinceDropStep(h: History, o: Observation)
    ensures var kept := SinceDrop(h);
      SinceDrop(h + [o]) == (if Stale(kept, o.key, o.at) && |KeysOf(kept)| >= LIMIT then [] else kept) + [o]
  {
    assert (h + [o])[..|h|] == h;
  }

  /** What one more observation does to the fact of the key it is about. */
  lemma FactOfObserved(base: History, o: Observation)
    ensures FactOf(base + [o], o.key)
         == Some(Folded(if Stale(base, o.key, o.at) then Fact(0, 0, o.at) else FactOf(base, o.key).value, o))
  {
    assert (base + [o])[..|base|] == base;
    var prev := if Stale(base, o.key, o.at) then [] else SinceGap(base, o.key);
    var r := prev + [o];
    assert SinceGap(base + [o], o.key) == r;
    assert r[..|r| - 1] == prev && r[|r| - 1] == o;
    var f := if Stale(base, o.key, o.at) then Fact(0, 0, o.at) else FactOf(base, o.key).value;
    assert LastSeen(base + [o], o.key) == Some(o.at);
    assert f.emptyAt == Largest(prev) && f.okAt == Smallest(prev);
    assert Largest(r) == Folded(f, o).emptyAt;
    assert Smallest(r) == Folded(f, o).okAt;
  }

  lemma FactOfOther(base: History, o: Observation, k: Key)
    requires k != o.key
    ensures FactOf(base + [o], k) == FactOf(base, k)
  {
    assert (base + [o])[..|base|] == base;
  }

  lemma ObserveSummary(facts: map<Key, Fact>, h: History, o: Observation)
    requires Summarises(facts, h)
    ensures Summarises(Updated(facts, o), h + [o])
  {
    var kept := SinceDrop(h);
    KeysSummarised(facts, h);
    SinceDropStep(h, o);
    hide SinceDrop, KeysOf;
    forall k ensures Lookup(Updated(facts, o), k) == FactOf(SinceDrop(h + [o]), k) {
      assert Lookup(facts, k) == FactOf(kept, k) && Lookup(facts, o.key) == FactOf(kept, o.key);
      ObserveOne(facts, kept, o, k);
    }
  }

  lemma ObserveOne(facts: map<Key, Fact>, kept: History, o: Observation, k: Key)
    requires |facts| == |KeysOf(kept)|
    requires Lookup(facts, k) == FactOf(kept, k) && Lookup(facts, o.key) == FactOf(kept, o.key)
    ensures var base := if Stale(kept, o.key, o.at) && |KeysOf(kept)| >= LIMIT then [] else kept;
      Lookup(Updated(facts, o), k) == FactOf(base + [o], k)
  {
    var base := if Stale(kept, o.key, o.at) && |KeysOf(kept)| >= LIMIT then [] else kept;
    assert Stale(kept, o.key, o.at) <==> o.key !in facts || o.at - facts[o.key].seen > TTL;
    if k == o.key {
      FactOfObserved(base, o);
      assert Stale([], o.key, o.at);
      hide FactOf, LastSeen, KeysOf;
    } else {
      FactOfOther(base, o, k);
      assert FactOf([], k) == None;
      hide FactOf, LastSeen, KeysOf, Folded;
    }
  }

  lemma UpdatedWithinLimit(facts: map<Key, Fact>, o: Observation)
    requires |facts| <= LIMIT
    ensures |Updated(facts, o)| <= LIMIT
  {
    if o.key in facts {
      assert facts[o.key := Folded(facts[o.key], o)].Keys == facts.Keys;
      assert Updated(facts, o).Keys == facts.Keys || Updated(facts, o).Keys == {o.key};
    } else {
      assert Updated(facts, o).Keys == facts.Keys + {o.key} || Updated(facts, o).Keys == {o.key};
    }
  }

  lemma SkipDecides(facts: map<Key, Fact>, h: History, k: Key, budget: nat, now: Time)
    requires Summarises(facts, h) && budget > 0
    ensures ShouldSkip(h, k, budget, now) <==>
      && k in facts && !(now - facts[k].seen > TTL)
      && budget <= facts[k].emptyAt && (facts[k].okAt == 0 || budget < facts[k].okAt)
  {
    var kept := SinceDrop(h);
    assert Lookup(facts, k) == FactOf(kept, k);
    SummaryDecides(SinceGap(kept, k), budget);
    hide SinceDrop, SinceGap, LastSeen, KnownEmpty, Largest, Smallest, Summarises;
  }

  class BudgetTable {
    var facts: map<Key, Fact>
    ghost var history: History

    ghost predicate Valid()
      reads this
    {
      Summarises(facts, history) && |facts| <= LIMIT
    }

    constructor ()
      ensures Valid() && history == []
    {
      facts := map[];
      history := [];
    }

    /** Skips exactly when the whole history says this budget is known to produce nothing. */
    method Skip(provider: string, model: string, budget: nat, now: Time) returns (skip: bool)
      requires Valid() && budget > 0
      ensures skip == ShouldSkip(history, Key(provider, model), budget, now)
    {
      var k := Key(provider, model);
      SkipDecides(facts, history, k, budget, now);
      hide *;
      if k !in facts || now - facts[k].seen > TTL {
        return false;
      }
      var f := facts[k];
      if budget > f.emptyAt {
        return false;
      }
      return f.okAt == 0 || budget < f.okAt;
    }

    method Observe(provider: string, model: string, budget: int, text: bool, now: Time)
      requires Valid()
      modifies this
      ensures Valid()
      ensures history == if budget <= 0 then old(history)
                         else old(history) + [Observation(Key(provider, model), budget, text, now)]
    {
      if budget <= 0 {
        return;
      }
      var k := Key(provider, model);
      ghost var o := Observation(k, budget, text, now);
      ObserveSummary(facts, history, o);
      UpdatedWithinLimit(facts, o);
      var f := Fact(0, 0, now);
      if k !in facts || now - facts[k].seen > TTL {
        if |facts| >= LIMIT {
          facts := map[];
        }
      } else {
        f := facts[k];
      }
      if text {
        if f.okAt == 0 || budget < f.okAt {
          f := f.(okAt := budget);
        }
      } else if budget > f.emptyAt {
        f := f.(emptyAt := budget);
      }
      f := f.(seen := now);
      facts := facts[k := f];
      history := history + [o];
    }

    /** Records only what a larger budget could change: text, or nothing before the ceiling. */
    method ObserveOutcome(provider: string, model: string, budget: int, finish: string, text: string, now: Time)
      requires Valid()
      modifies this
      ensures Valid()
      ensures var says := text != "" || finish == "length";
        history == if budget <= 0 || !says then old(history)
                   else old(history) + [Observation(Key(provider, model), budget, text != "", now)]
    {
      if text != "" {
        Observe(provider, model, budget, true, now);
      } else if finish == "length" {
        Observe(provider, model, budget, false, now);
      }
    }
  }

  /** Whatever has been observed, the skipped budgets are downward closed. */
  lemma SkipDownwardClosed(h: History, k: Key, budget: nat, lower: nat, now: Time)
    requires ShouldSkip(h, k, budget, now) && 0 < lower <= budget
    ensures ShouldSkip(h, k, lower, now)
  {}

  /** One success at or below a budget lifts the skip at once, whatever failed before it. */
  lemma SuccessLiftsSkip(h: History, o: Observation, budget: nat)
    requires o.text && o.budget <= budget
    ensures !ShouldSkip(h + [o], o.key, budget, o.at)
  {
    SinceDropStep(h, o);
    var r := SinceGap(SinceDrop(h + [o]), o.key);
    assert r[|r| - 1] == o;
    assert o in r;
  }
}

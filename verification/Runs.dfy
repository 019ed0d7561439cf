/** What holds over every run of the interleaved gateway, restarts included. */
module Runs {
  import opened Common
  import opened Routing
  import opened Interleaving
  import B = Breakers
  import S = Streams
  import T = TokenBuckets

  // ----- runs -----

  ghost predicate ValidRun(cfg: Config, rate: nat, s: Sys, acts: seq<Action>)
    decreases |acts|, 0
  {
    acts == [] ||
    (ValidRun(cfg, rate, s, acts[..|acts| - 1]) && Valid(After(cfg, rate, s, acts[..|acts| - 1]), acts[|acts| - 1]))
  }

  ghost function After(cfg: Config, rate: nat, s: Sys, acts: seq<Action>): Sys
    requires ValidRun(cfg, rate, s, acts)
    decreases |acts|, 1
  {
    if acts == [] then s else Next(cfg, rate, After(cfg, rate, s, acts[..|acts| - 1]), acts[|acts| - 1])
  }

  lemma {:induction false} RunKeepsInv(cfg: Config, rate: nat, s: Sys, acts: seq<Action>)
    requires SysInv(cfg, rate, s) && ValidRun(cfg, rate, s, acts)
    ensures SysInv(cfg, rate, After(cfg, rate, s, acts))
  {
    if acts == [] {
    } else {
      RunKeepsInv(cfg, rate, s, acts[..|acts| - 1]);
      NextKeepsInv(cfg, rate, After(cfg, rate, s, acts[..|acts| - 1]), acts[|acts| - 1]);
    }
  }

  ghost predicate Reachable(cfg: Config, rate: nat, s: Sys) {
    exists store, now, acts ::
      ValidRun(cfg, rate, Booted(rate, store, now), acts) && s == After(cfg, rate, Booted(rate, store, now), acts)
  }

  lemma ReachableInv(cfg: Config, rate: nat, s: Sys)
    requires Reachable(cfg, rate, s)
    ensures SysInv(cfg, rate, s)
  {
    var store, now, acts :|
      ValidRun(cfg, rate, Booted(rate, store, now), acts) && s == After(cfg, rate, Booted(rate, store, now), acts);
    BootedInv(cfg, rate, store, now);
    RunKeepsInv(cfg, rate, Booted(rate, store, now), acts);
  }

  // ----- replays and bounds -----

  /** In every reachable state, no request has sent anything after a reply that might have been kept. */
  lemma EveryReplayIsSafe(cfg: Config, rate: nat, s: Sys, id: nat, k: nat)
    requires Reachable(cfg, rate, s) && id in s.reqs && k + 1 < |s.reqs[id].log|
    ensures Replayable(s.reqs[id].log[k])
  {
    ReachableInv(cfg, rate, s);
    assert Inv(cfg, s.reqs[id]);
  }

  /** Attempts, attempts per route and sends stay within their bounds despite the repeats. */
  lemma EveryRequestIsBounded(cfg: Config, rate: nat, s: Sys, id: nat, route: nat)
    requires Reachable(cfg, rate, s) && id in s.reqs
    ensures s.reqs[id].attempts <= cfg.maxAttempts
    ensures |s.reqs[id].log| <= 2 * cfg.maxAttempts
    ensures Firsts(s.reqs[id].log, route) <= 2
  {
    ReachableInv(cfg, rate, s);
    assert Inv(cfg, s.reqs[id]);
    assert Firsts(s.reqs[id].log, route) <= RouteCap(s.reqs[id], route);
  }

  // ----- routes and responses -----

  ghost predicate AllSteered(cfg: Config, s: Sys) { forall id :: id in s.reqs ==> Steered(cfg, s.reqs[id]) }

  lemma NextKeepsSteered(cfg: Config, rate: nat, s: Sys, a: Action)
    requires AllSteered(cfg, s) && Valid(s, a)
    ensures AllSteered(cfg, Next(cfg, rate, s, a))
  {
    assert forall key, hash, temperature :: Steered(cfg, Fresh(key, hash, temperature));
    if a.Act? { StepKeepsSteered(cfg, s.reqs[a.id], s.sh, a.input); }
    hide Steered, Step;
  }

  lemma {:induction false} RunKeepsSteered(cfg: Config, rate: nat, s: Sys, acts: seq<Action>)
    requires AllSteered(cfg, s) && ValidRun(cfg, rate, s, acts)
    ensures AllSteered(cfg, After(cfg, rate, s, acts))
  {
    if acts == [] {
    } else {
      RunKeepsSteered(cfg, rate, s, acts[..|acts| - 1]);
      NextKeepsSteered(cfg, rate, After(cfg, rate, s, acts[..|acts| - 1]), acts[|acts| - 1]);
      hide Next, AllSteered;
    }
  }

  /**
   In every reachable state, a request has asked only configured routes that were not
   passed over, in the policy's order; and if it has ended, its response is the one its
   last reply calls for, or a 500, 503 or 504 when that reply would have let it go on.
   */
  lemma EveryRequestIsSteered(cfg: Config, rate: nat, s: Sys, id: nat)
    requires Reachable(cfg, rate, s) && id in s.reqs
    ensures InOrder(cfg, s.reqs[id])
    ensures s.reqs[id].phase.Finished? ==> EndsWith(s.reqs[id].log, s.reqs[id].phase.response)
  {
    var store, now, acts :|
      ValidRun(cfg, rate, Booted(rate, store, now), acts) && s == After(cfg, rate, Booted(rate, store, now), acts);
    RunKeepsSteered(cfg, rate, Booted(rate, store, now), acts);
    assert Steered(cfg, s.reqs[id]);
  }

  // ----- probes -----

  /** A provider whose check failed is left alone for a minute, and for no less than it was already to be. */
  lemma WithheldIsLeftAlone(cfg: Config, rate: nat, s: Sys, p: Provider, now: Time, later: Time)
    requires Valid(s, Withhold(p, now))
    ensures var c := CircuitOf(Next(cfg, rate, s, Withhold(p, now)).sh, p);
      B.WouldAllow(c, later) <==>
        later >= now + 60.0 && (CircuitOf(s.sh, p).until.Some? ==> later >= CircuitOf(s.sh, p).until.value)
  {}

  /** A circuit is withheld by a probe only while the request that claimed it is still answering for it. */
  lemma ProbeHasLiveOwner(cfg: Config, rate: nat, s: Sys, p: Provider)
    requires Reachable(cfg, rate, s) && CircuitOf(s.sh, p).probe
    ensures p in s.owner && s.owner[p] in s.reqs && Holds(s.reqs[s.owner[p]], p) && !s.reqs[s.owner[p]].phase.Finished?
  {
    ReachableInv(cfg, rate, s);
  }

  /** With no request answering for a provider, its circuit is available as soon as its wait is over. */
  lemma IdleCircuitIsNotStuck(cfg: Config, rate: nat, s: Sys, p: Provider, now: Time)
    requires Reachable(cfg, rate, s) && (forall id :: id in s.reqs ==> !Holds(s.reqs[id], p))
    ensures B.WouldAllow(CircuitOf(s.sh, p), now) <==>
      CircuitOf(s.sh, p).until.None? || CircuitOf(s.sh, p).until.value <= now
  {
    ReachableInv(cfg, rate, s);
  }

  // ----- keys -----

  /** Every begin for this key along the run is admitted and unexpired; other keys may be refused or expire. */
  ghost predicate ProtectedRun(cfg: Config, rate: nat, s: Sys, acts: seq<Action>, key: string) {
    && ValidRun(cfg, rate, s, acts)
    && (acts == [] ||
         (ProtectedRun(cfg, rate, s, acts[..|acts| - 1], key)
          && Protects(After(cfg, rate, s, acts[..|acts| - 1]), acts[|acts| - 1], key)))
  }

  /** Reached from some start, with any store, by a run that protects the key. */
  ghost predicate KeyReachable(cfg: Config, rate: nat, s: Sys, key: string) {
    exists store, now, acts ::
      ProtectedRun(cfg, rate, Booted(rate, store, now), acts, key) && s == After(cfg, rate, Booted(rate, store, now), acts)
  }

  lemma {:induction false} RunKeepsKey(cfg: Config, rate: nat, s: Sys, acts: seq<Action>, key: string)
    requires SysInv(cfg, rate, s) && KeyInv(s, key) && SettledInv(s, key) && ProtectedRun(cfg, rate, s, acts, key)
    ensures KeyInv(After(cfg, rate, s, acts), key) && SettledInv(After(cfg, rate, s, acts), key)
  {
    if acts == [] {
    } else {
      var prev := acts[..|acts| - 1];
      RunKeepsKey(cfg, rate, s, prev, key);
      RunKeepsInv(cfg, rate, s, prev);
      NextKeepsKey(cfg, rate, After(cfg, rate, s, prev), acts[|acts| - 1], key);
      hide KeyInv, SettledInv, Next;
    }
  }

  lemma KeyReachableInv(cfg: Config, rate: nat, s: Sys, key: string)
    requires KeyReachable(cfg, rate, s, key)
    ensures SysInv(cfg, rate, s) && KeyInv(s, key) && SettledInv(s, key)
  {
    var store, now, acts :|
      ProtectedRun(cfg, rate, Booted(rate, store, now), acts, key) && s == After(cfg, rate, Booted(rate, store, now), acts);
    BootedInv(cfg, rate, store, now);
    RunKeepsInv(cfg, rate, Booted(rate, store, now), acts);
    RunKeepsKey(cfg, rate, Booted(rate, store, now), acts, key);
  }

  /** The action puts a request with this key on the wire. */
  predicate SendsFor(s: Sys, a: Action, key: string) {
    a.Act? && a.id in s.reqs && s.reqs[a.id].phase.Build? && a.input.BuildIn? && a.input.ok && s.reqs[a.id].key == Some(key)
  }

  predicate SettledKey(s: Sys, key: string) { key in s.sh.store && !s.sh.store[key].Running? }

  /** A key is sent for by one request at a time, while its entry says Running. */
  lemma SenderHoldsKey(cfg: Config, rate: nat, s: Sys, a: Action, key: string)
    requires KeyReachable(cfg, rate, s, key) && Valid(s, a) && SendsFor(s, a, key)
    ensures key in s.sh.store && s.sh.store[key] == Running(s.reqs[a.id].hash)
    ensures forall other :: other in s.reqs && Claims(s.reqs[other], key) ==> other == a.id
  {
    KeyReachableInv(cfg, rate, s, key);
    assert Claims(s.reqs[a.id], key);
  }

  lemma SettledStays(cfg: Config, rate: nat, s: Sys, a: Action, key: string)
    requires KeyInv(s, key) && Valid(s, a) && Protects(s, a, key) && SettledKey(s, key)
    ensures !SendsFor(s, a, key)
    ensures var s' := Next(cfg, rate, s, a); key in s'.sh.store && s'.sh.store[key] == s.sh.store[key]
  {
    if a.Act? {
      StepStore(cfg, s.reqs[a.id], s.sh, a.input);
      assert !Claims(s.reqs[a.id], key);
      hide Step;
    }
  }

  lemma {:induction false} SettledRun(cfg: Config, rate: nat, s: Sys, acts: seq<Action>, key: string)
    requires SysInv(cfg, rate, s) && KeyInv(s, key) && SettledInv(s, key) && SettledKey(s, key)
    requires ProtectedRun(cfg, rate, s, acts, key)
    ensures var s' := After(cfg, rate, s, acts); key in s'.sh.store && s'.sh.store[key] == s.sh.store[key]
    ensures forall n :: 0 <= n < |acts| ==>
      ValidRun(cfg, rate, s, acts[..n]) && !SendsFor(After(cfg, rate, s, acts[..n]), acts[n], key)
  {
    if acts == [] {
    } else {
      var prev := acts[..|acts| - 1];
      SettledRun(cfg, rate, s, prev, key);
      RunKeepsKey(cfg, rate, s, prev, key);
      SettledStays(cfg, rate, After(cfg, rate, s, prev), acts[|acts| - 1], key);
      forall n | 0 <= n < |acts|
        ensures ValidRun(cfg, rate, s, acts[..n]) && !SendsFor(After(cfg, rate, s, acts[..n]), acts[n], key)
      {
        if n < |prev| { assert prev[..n] == acts[..n]; }
      }
    }
  }

  /**
   Once a key is Done or Unknown it stays so through every later run, restarts
   included, and no step of that run sends for it.
   */
  lemma SettledKeyIsFinal(cfg: Config, rate: nat, s: Sys, acts: seq<Action>, key: string)
    requires KeyReachable(cfg, rate, s, key) && SettledKey(s, key) && ProtectedRun(cfg, rate, s, acts, key)
    ensures var s' := After(cfg, rate, s, acts); key in s'.sh.store && s'.sh.store[key] == s.sh.store[key]
    ensures forall n :: 0 <= n < |acts| ==>
      ValidRun(cfg, rate, s, acts[..n]) && !SendsFor(After(cfg, rate, s, acts[..n]), acts[n], key)
  {
    KeyReachableInv(cfg, rate, s, key);
    SettledRun(cfg, rate, s, acts, key);
  }

  /**
   Whatever interleaves between a reply and the end of its request, an ambiguous
   ending leaves the key Unknown and an answer leaves it Done with what the client
   was given.
   */
  lemma EndingIsRecorded(cfg: Config, rate: nat, s: Sys, id: nat, key: string)
    requires KeyReachable(cfg, rate, s, key) && id in s.reqs
    requires s.reqs[id].phase.Finished? && s.reqs[id].key == Some(key)
    ensures var r := s.reqs[id];
      match Due(r.log)
      case SettleUnknown => key in s.sh.store && s.sh.store[key] == Unknown(r.hash)
      case SettleDone(stored) =>
        key in s.sh.store && s.sh.store[key] == Done(r.hash, stored) && Given(r.phase.response, SettleDone(stored))
      case Leave => true
  {
    KeyReachableInv(cfg, rate, s, key);
    assert Inv(cfg, s.reqs[id]);
  }

  /**
   A request whose last reply leaves the outcome open gives its key back as it ends: the
   next request with that key claims it and goes to its routes.
   */
  lemma GivenBackKeyIsFree(cfg: Config, rate: nat, s: Sys, id: nat, later: nat, key: string, admit: bool)
    requires Reachable(cfg, rate, s) && id in s.reqs && later in s.reqs
    requires s.reqs[id].phase.Closing? && s.reqs[id].key == Some(key) && Due(s.reqs[id].log) == Leave
    requires s.reqs[later].phase.Begin? && s.reqs[later].key == Some(key)
    ensures var close, begin := Act(id, CloseIn(admit)), Act(later, BeginIn(true, false));
      && Valid(s, close)
      && var t := Next(cfg, rate, s, close);
         && t.sh.store == s.sh.store - {key} && Valid(t, begin)
         && var u := Next(cfg, rate, t, begin);
            u.reqs[later].phase == Scan && u.sh.store == t.sh.store[key := Running(s.reqs[later].hash)]
  {
    ReachableInv(cfg, rate, s);
    assert Inv(cfg, s.reqs[id]);
    hide Due;
  }

  /** What a replay of the stored answer writes or sends is what the first client was given. */
  ghost predicate SameAnswer(first: Response, stored: Stored) {
    match stored
    case WholeBody(body) => first == Answer(body)
    case StreamText(text, finish) =>
      && first.StreamAnswer? && first.out.finish == finish
      && S.Delivered(first.out.sent, text) && S.Delivered(S.ReplayWrites(text, finish), text)
      && S.ChunkTexts(S.ReplayWrites(text, finish)) == S.ChunkTexts(first.out.sent)
  }

  /**
   End to end: after a request with a key has ended, and after any run that follows,
   a later request with that key and body sends nothing and is given what the first
   client was given; it is refused if the first one's outcome is unknown, and a
   different body is refused as such.
   */
  lemma LaterRequestIsReplayed(cfg: Config, rate: nat, s: Sys, id: nat, acts: seq<Action>, a: Action, key: string)
    requires KeyReachable(cfg, rate, s, key) && id in s.reqs
    requires s.reqs[id].phase.Finished? && s.reqs[id].key == Some(key) && Due(s.reqs[id].log) != Leave
    requires ProtectedRun(cfg, rate, s, acts, key)
    requires var t := After(cfg, rate, s, acts);
      Valid(t, a) && Protects(t, a, key) && a.Act? && t.reqs[a.id].phase.Begin? && t.reqs[a.id].key == Some(key)
    ensures var t := After(cfg, rate, s, acts); var first, later := s.reqs[id], Next(cfg, rate, t, a).reqs[a.id];
      && later.log == []
      && (later.hash != first.hash ==> later.phase == Finished(Problem(422)))
      && (later.hash == first.hash ==>
           match Due(first.log)
           case SettleDone(stored) => later.phase == Finished(Replayed(stored)) && SameAnswer(first.phase.response, stored)
           case _ => later.phase == Finished(Problem(409)))
  {
    var t, first := After(cfg, rate, s, acts), s.reqs[id];
    EndingIsRecorded(cfg, rate, s, id, key);
    SettledKeyIsFinal(cfg, rate, s, acts, key);
    KeyReachableInv(cfg, rate, s, key);
    RunKeepsInv(cfg, rate, s, acts);
    assert Inv(cfg, t.reqs[a.id]) && t.reqs[a.id].log == [];
    if Due(first.log).SettleDone? { StoredIsSame(first.phase.response, Due(first.log).stored); }
    hide SameAnswer, Due, SysInv, KeyInv, SettledInv, After;
  }

  lemma StoredIsSame(first: Response, stored: Stored)
    requires Given(first, SettleDone(stored))
    ensures SameAnswer(first, stored)
  {
    if stored.StreamText? {
      S.ReplayDelivers(stored.text, stored.finish);
    }
  }

  // ----- when a key is shared -----

  /** No begin for this key along the run is refused for room or finds the entry of a request in flight expired. */
  ghost predicate GuardedRun(cfg: Config, rate: nat, s: Sys, acts: seq<Action>, key: string) {
    && ValidRun(cfg, rate, s, acts)
    && (acts == [] ||
         (GuardedRun(cfg, rate, s, acts[..|acts| - 1], key)
          && Guards(After(cfg, rate, s, acts[..|acts| - 1]), acts[|acts| - 1], key)))
  }

  lemma {:induction false} RunKeepsHolder(cfg: Config, rate: nat, s: Sys, acts: seq<Action>, key: string)
    requires KeyInv(s, key) && GuardedRun(cfg, rate, s, acts, key)
    ensures KeyInv(After(cfg, rate, s, acts), key)
  {
    if acts == [] {
    } else {
      RunKeepsHolder(cfg, rate, s, acts[..|acts| - 1], key);
      NextKeepsHolder(cfg, rate, After(cfg, rate, s, acts[..|acts| - 1]), acts[|acts| - 1], key);
      hide KeyInv, Next;
    }
  }

  lemma {:induction false} UnguardedStep(cfg: Config, rate: nat, s: Sys, acts: seq<Action>, key: string) returns (n: nat)
    requires ValidRun(cfg, rate, s, acts) && !GuardedRun(cfg, rate, s, acts, key)
    ensures n < |acts| && ValidRun(cfg, rate, s, acts[..n]) && !Guards(After(cfg, rate, s, acts[..n]), acts[n], key)
  {
    var prev := acts[..|acts| - 1];
    if GuardedRun(cfg, rate, s, prev, key) {
      n := |prev|;
    } else {
      n := UnguardedStep(cfg, rate, s, prev, key);
      assert prev[..n] == acts[..n];
    }
  }

  /**
   Over every interleaving, two requests hold one key at once only if some begin for
   that very key was refused for room, or found the entry of a request still in flight
   expired.
   */
  lemma TwoHoldersMeanUnguarded(cfg: Config, rate: nat, store: map<string, Entry>, now: Time, acts: seq<Action>,
                                i: nat, j: nat, key: string) returns (n: nat)
    requires ValidRun(cfg, rate, Booted(rate, store, now), acts)
    requires var s := After(cfg, rate, Booted(rate, store, now), acts);
      i != j && i in s.reqs && j in s.reqs && Claims(s.reqs[i], key) && Claims(s.reqs[j], key)
    ensures var s0 := Booted(rate, store, now);
      n < |acts| && ValidRun(cfg, rate, s0, acts[..n]) && !Guards(After(cfg, rate, s0, acts[..n]), acts[n], key)
  {
    var s0 := Booted(rate, store, now);
    if GuardedRun(cfg, rate, s0, acts, key) {
      BootedInv(cfg, rate, store, now);
      RunKeepsHolder(cfg, rate, s0, acts, key);
    }
    n := UnguardedStep(cfg, rate, s0, acts, key);
  }

  lemma RunSnoc(cfg: Config, rate: nat, s: Sys, acts: seq<Action>, a: Action)
    requires ValidRun(cfg, rate, s, acts) && Valid(After(cfg, rate, s, acts), a)
    ensures ValidRun(cfg, rate, s, acts + [a]) && After(cfg, rate, s, acts + [a]) == Next(cfg, rate, After(cfg, rate, s, acts), a)
  {
    assert (acts + [a])[..|acts|] == acts;
  }

  lemma {:induction false} RunAppend(cfg: Config, rate: nat, s: Sys, xs: seq<Action>, ys: seq<Action>)
    requires ValidRun(cfg, rate, s, xs) && ValidRun(cfg, rate, After(cfg, rate, s, xs), ys)
    ensures ValidRun(cfg, rate, s, xs + ys) && After(cfg, rate, s, xs + ys) == After(cfg, rate, After(cfg, rate, s, xs), ys)
  {
    if ys == [] {
      assert xs + ys == xs;
    } else {
      var init, last := ys[..|ys| - 1], ys[|ys| - 1];
      RunAppend(cfg, rate, s, xs, init);
      RunSnoc(cfg, rate, s, xs + init, last);
      assert xs + init + [last] == xs + ys;
      hide Next, Valid;
    }
  }

  predicate Closed(sh: Shared, p: Provider) { CircuitOf(sh, p).until.None? && !CircuitOf(sh, p).probe }

  /** A request past its begin, taken to its first send on one route. */
  function LaunchActs(s: Sys, id: nat, p: Provider): seq<Action> {
    [Act(id, ScanIn(Some([Route(p, "")]), {})), Act(id, HeadIn(s.clock)), Act(id, BuildIn(true, false))]
  }

  lemma Launch(cfg: Config, rate: nat, s: Sys, id: nat, p: Provider)
    requires id in s.reqs && s.reqs[id].phase.Scan? && s.reqs[id].i == 0 && s.reqs[id].attempts == 0
    requires p in cfg.configured && cfg.maxAttempts > 0 && Closed(s.sh, p)
    ensures ValidRun(cfg, rate, s, LaunchActs(s, id, p))
    ensures var t := After(cfg, rate, s, LaunchActs(s, id, p));
      && t.reqs == s.reqs[id := t.reqs[id]] && t.reqs[id].phase.Sent? && t.reqs[id].key == s.reqs[id].key
      && t.sh.store == s.sh.store && Closed(t.sh, p) && t.clock == s.clock
  {
    var a, b, c := Act(id, ScanIn(Some([Route(p, "")]), {})), Act(id, HeadIn(s.clock)), Act(id, BuildIn(true, false));
    var s1 := Next(cfg, rate, s, a);
    assert s1.reqs[id] == s.reqs[id].(phase := Head, routes := [Route(p, "")], skip := {}) && s1.sh == s.sh;
    var s2 := Next(cfg, rate, s1, b);
    LaunchHead(cfg, s1.reqs[id], s1.sh, p, s.clock);
    var s3 := Next(cfg, rate, s2, c);
    assert s3.reqs == s.reqs[id := s3.reqs[id]] && s3.sh == s2.sh;
    TwoSteps(cfg, rate, s, a, b);
    hide Next, Valid, Closed;
    RunSnoc(cfg, rate, s, [a, b], c);
    assert [a, b] + [c] == LaunchActs(s, id, p);
  }

  /** A closed circuit lets the first route through and is closed afterwards. */
  lemma LaunchHead(cfg: Config, r: Request, sh: Shared, p: Provider, now: Time)
    requires r.phase.Head? && r.i == 0 && r.attempts == 0 && r.routes == [Route(p, "")] && r.skip == {}
    requires p in cfg.configured && cfg.maxAttempts > 0 && Closed(sh, p)
    ensures var (r', sh') := StepHead(cfg, r, sh, now);
      r' == At(r, Build(false)) && sh'.store == sh.store && Closed(sh', p)
  {}

  /** Two requests with one key are both waiting for a provider. */
  predicate BothSent(s: Sys, i: nat, j: nat, key: string) {
    && i != j && i in s.reqs && j in s.reqs && s.reqs[i].phase.Sent? && s.reqs[j].phase.Sent?
    && s.reqs[i].key == Some(key) && s.reqs[j].key == Some(key)
  }

  lemma TwoSteps(cfg: Config, rate: nat, s: Sys, a: Action, b: Action)
    requires Valid(s, a) && Valid(Next(cfg, rate, s, a), b)
    ensures ValidRun(cfg, rate, s, [a, b]) && After(cfg, rate, s, [a, b]) == Next(cfg, rate, Next(cfg, rate, s, a), b)
  {
    hide Next, Valid;
    RunSnoc(cfg, rate, s, [], a);
    assert [] + [a] == [a];
    RunSnoc(cfg, rate, s, [a], b);
    assert [a] + [b] == [a, b];
  }

  /** A new request whose key is not in the store can be sent, whatever else is in flight. */
  lemma NewcomerIsSent(cfg: Config, rate: nat, s: Sys, id: nat, hash: string, p: Provider, key: string) returns (acts: seq<Action>)
    requires id !in s.reqs && key !in s.sh.store
    requires p in cfg.configured && cfg.maxAttempts > 0 && Closed(s.sh, p)
    ensures ValidRun(cfg, rate, s, acts)
    ensures var t := After(cfg, rate, s, acts);
      id in t.reqs && t.reqs == s.reqs[id := t.reqs[id]] && t.reqs[id].phase.Sent? && t.reqs[id].key == Some(key)
  {
    var arrive, begin := Arrive(id, Some(key), hash, false), Act(id, BeginIn(false, false));
    var s1 := Next(cfg, rate, s, arrive);
    var s2 := Next(cfg, rate, s1, begin);
    assert s2.reqs == s.reqs[id := At(Fresh(Some(key), hash, false), Scan)] && s2.sh == s.sh;
    TwoSteps(cfg, rate, s, arrive, begin);
    hide Next, After, Valid, ValidRun, LaunchActs, Closed;
    Launch(cfg, rate, s2, id, p);
    RunAppend(cfg, rate, s, [arrive, begin], LaunchActs(s2, id, p));
    acts := [arrive, begin] + LaunchActs(s2, id, p);
  }

  /**
   And a refusal is enough: from any state in which a begin for a key is refused for
   room, with any number of other requests in flight and some provider's circuit
   closed, a run leads to two requests with that key at the provider together.
   */
  lemma RefusedKeyIsSentTwice(cfg: Config, rate: nat, s: Sys, id: nat, other: nat, p: Provider, key: string)
    requires SysInv(cfg, rate, s) && id in s.reqs && s.reqs[id].phase.Begin? && s.reqs[id].key == Some(key)
    requires key !in s.sh.store && other !in s.reqs
    requires p in cfg.configured && cfg.maxAttempts > 0 && Closed(s.sh, p)
    ensures var refused := Act(id, BeginIn(false, false));
      && Valid(s, refused) && !Guards(s, refused, key)
      && exists acts :: ValidRun(cfg, rate, Next(cfg, rate, s, refused), acts)
           && BothSent(After(cfg, rate, Next(cfg, rate, s, refused), acts), id, other, key)
  {
    var r := s.reqs[id];
    assert Inv(cfg, r) && r.i == 0 && r.attempts == 0;
    var s1 := Next(cfg, rate, s, Act(id, BeginIn(false, false)));
    assert s1.sh == s.sh && s1.reqs == s.reqs[id := At(r, Scan)];
    hide SysInv, Inv, Next, After, ValidRun, LaunchActs, Closed;
    Launch(cfg, rate, s1, id, p);
    var first := LaunchActs(s1, id, p);
    var s2 := After(cfg, rate, s1, first);
    var second := NewcomerIsSent(cfg, rate, s2, other, r.hash, p, key);
    RunAppend(cfg, rate, s1, first, second);
    assert BothSent(After(cfg, rate, s1, first + second), id, other, key);
  }

  /**
   So is expiry: from any state in which a request is at a provider and a begin finds its
   entry expired, a run leads to both at the provider together.
   */
  lemma ExpiredKeyIsSentTwice(cfg: Config, rate: nat, s: Sys, holder: nat, id: nat, admit: bool, p: Provider, key: string)
    requires SysInv(cfg, rate, s) && key in s.sh.store
    requires holder in s.reqs && s.reqs[holder].phase.Sent? && s.reqs[holder].key == Some(key)
    requires id in s.reqs && s.reqs[id].phase.Begin? && s.reqs[id].key == Some(key)
    requires p in cfg.configured && cfg.maxAttempts > 0 && Closed(s.sh, p)
    ensures var expired := Act(id, BeginIn(admit, true));
      && Valid(s, expired) && !Guards(s, expired, key)
      && exists acts :: ValidRun(cfg, rate, Next(cfg, rate, s, expired), acts)
           && BothSent(After(cfg, rate, Next(cfg, rate, s, expired), acts), holder, id, key)
  {
    var r := s.reqs[id];
    assert Inv(cfg, r) && r.i == 0 && r.attempts == 0;
    assert Claims(s.reqs[holder], key);
    var s1 := Next(cfg, rate, s, Act(id, BeginIn(admit, true)));
    assert s1.sh.circuits == s.sh.circuits && s1.reqs == s.reqs[id := At(r, Scan)];
    hide SysInv, Inv, Next, After, ValidRun, LaunchActs;
    Launch(cfg, rate, s1, id, p);
    assert BothSent(After(cfg, rate, s1, LaunchActs(s1, id, p)), holder, id, key);
  }

  // ----- the retry budget -----

  function Extra(r: Request): nat { if r.attempts > 0 then r.attempts - 1 else 0 }

  ghost function Extras(reqs: map<nat, Request>): map<nat, nat> { map id | id in reqs :: Extra(reqs[id]) }

  lemma StepExtra(cfg: Config, r: Request, sh: Shared, input: Input)
    requires Enabled(r, input)
    ensures Extra(Step(cfg, r, sh, input).0) == Extra(r) + if r.phase.Build? && !r.phase.resend && r.attempts > 0 then 1 else 0
  {}

  /** The counter of attempts beyond the first is the total over the requests of this process. */
  lemma BeyondIsTotal(cfg: Config, rate: nat, s: Sys, a: Action)
    requires Valid(s, a) && s.acct.beyond == Sum(Extras(s.reqs))
    ensures Next(cfg, rate, s, a).acct.beyond == Sum(Extras(Next(cfg, rate, s, a).reqs))
  {
    var s' := Next(cfg, rate, s, a);
    match a
    case Tick(_) =>
    case Withhold(_, _) =>
    case Restart(_) => assert Extras(s'.reqs) == map[];
    case Arrive(id, _, _, _) =>
      assert Extras(s'.reqs) == Extras(s.reqs)[id := 0];
      SumUpdate(Extras(s.reqs), id, 0);
    case Act(id, input) =>
      StepExtra(cfg, s.reqs[id], s.sh, input);
      hide Step;
      assert Extras(s'.reqs) == Extras(s.reqs)[id := Extra(s'.reqs[id])];
      SumUpdate(Extras(s.reqs), id, Extra(s'.reqs[id]));
  }

  lemma {:induction false} RunBeyondIsTotal(cfg: Config, rate: nat, s: Sys, acts: seq<Action>)
    requires s.acct.beyond == Sum(Extras(s.reqs)) && ValidRun(cfg, rate, s, acts)
    ensures After(cfg, rate, s, acts).acct.beyond == Sum(Extras(After(cfg, rate, s, acts).reqs))
  {
    if acts == [] {
    } else {
      RunBeyondIsTotal(cfg, rate, s, acts[..|acts| - 1]);
      BeyondIsTotal(cfg, rate, After(cfg, rate, s, acts[..|acts| - 1]), acts[|acts| - 1]);
    }
  }

  /**
   Since an earlier state of the process: either no token was taken, or the tokens taken
   and left are within burst + rate x elapsed; and no more attempts were made beyond the
   first than tokens were taken or already held.
   */
  ghost predicate MeteredSince(s: Sys, t: Sys) {
    && s.clock <= t.clock && s.acct.grants <= t.acct.grants
    && TakenSince(s.sh.retry, s.clock, t.sh.retry, t.acct.grants - s.acct.grants)
    && t.acct.beyond + |t.acct.held| - t.acct.grants <= s.acct.beyond + |s.acct.held| - s.acct.grants
  }

  /** `n` tokens were taken since an instant, at which the bucket was `b0`. */
  ghost predicate TakenSince(b0: T.Bucket, since: Time, b: T.Bucket, n: nat) {
    && b.rate == b0.rate && b.burst == b0.burst
    && (|| (b == b0 && n == 0)
        || (since <= b.last && n as real + b.tokens <= b.burst + T.Accrued(b.rate, b.last) - T.Accrued(b.rate, since)))
  }

  lemma TakeSince(b0: T.Bucket, since: Time, b: T.Bucket, n: nat, now: Time)
    requires TakenSince(b0, since, b, n) && T.Valid(b) && b.last <= now && since <= now
    ensures var (b', ok) := T.Take(b, now); TakenSince(b0, since, b', n + if ok then 1 else 0)
  {
    TakeAccrues(b, now);
    TakeWithinBurst(b, now);
    T.AccruedMonotone(b.rate, since, now);
    hide T.Take, T.Accrued;
  }

  lemma TakeWithinBurst(b: T.Bucket, now: Time)
    requires T.Valid(b) && b.last <= now
    ensures var (b', ok) := T.Take(b, now); b'.tokens + (if ok then 1.0 else 0.0) <= b.burst
  {}

  lemma HeldSince(a: Account, reqs: map<nat, Request>, id: nat, r': Request)
    requires id in reqs && (forall i :: i in a.held <==> i in reqs && HoldsToken(reqs[i]))
    ensures var a' := Accounted(a, id, reqs[id], r');
      a'.beyond + |a'.held| - a'.grants <= a.beyond + |a.held| - a.grants
  {}

  lemma StepMeters(cfg: Config, rate: nat, s: Sys, t: Sys, id: nat, input: Input)
    requires SysInv(cfg, rate, t) && MeteredSince(s, t) && Valid(t, Act(id, input))
    ensures MeteredSince(s, Next(cfg, rate, t, Act(id, input)))
  {
    var r, t' := t.reqs[id], Next(cfg, rate, t, Act(id, input));
    assert Inv(cfg, r) && InvPhase(cfg, r);
    StepRetry(cfg, r, t.sh, input);
    hide Step, T.Take, T.Accrued, Inv, InvPhase, RequestsInv, ProbeInv, TakenSince;
    HeldSince(t.acct, t.reqs, id, t'.reqs[id]);
    if r.phase.Token? {
      TakeSince(s.sh.retry, s.clock, t.sh.retry, t.acct.grants - s.acct.grants, input.now);
    }
    hide HoldsToken;
  }

  lemma {:induction false} RunMeters(cfg: Config, rate: nat, s: Sys, acts: seq<Action>)
    requires SysInv(cfg, rate, s) && ValidRun(cfg, rate, s, acts) && (forall a :: a in acts ==> !a.Restart?)
    ensures MeteredSince(s, After(cfg, rate, s, acts))
  {
    if acts == [] {
    } else {
      var prev, a := acts[..|acts| - 1], acts[|acts| - 1];
      RunMeters(cfg, rate, s, prev);
      RunKeepsInv(cfg, rate, s, prev);
      assert a in acts;
      if a.Act? {
        StepMeters(cfg, rate, s, After(cfg, rate, s, prev), a.id, a.input);
      }
      hide SysInv, T.Accrued;
    }
  }

  /**
   In any window between two states of one process, attempts beyond each request's first
   stay within rate x (1 + elapsed), and one for each token already held at its start.
   */
  lemma RetriesMeteredInWindow(cfg: Config, rate: nat, s: Sys, acts: seq<Action>)
    requires Reachable(cfg, rate, s) && ValidRun(cfg, rate, s, acts) && (forall a :: a in acts ==> !a.Restart?)
    ensures var t := After(cfg, rate, s, acts);
      Sum(Extras(t.reqs)) as real - Sum(Extras(s.reqs)) as real
        <= rate as real * (1.0 + (t.clock - s.clock)) + |s.acct.held| as real
  {
    hide After, ValidRun, Reachable, Sum, Extras, MeteredSince, RateInv, ProbeInv, RequestsInv;
    ReachableInv(cfg, rate, s);
    ReachableBeyond(cfg, rate, s);
    RunBeyondIsTotal(cfg, rate, s, acts);
    RunMeters(cfg, rate, s, acts);
    RunKeepsInv(cfg, rate, s, acts);
    WindowMeters(rate, s, After(cfg, rate, s, acts));
  }

  ghost function Allowance(rate: real, elapsed: Time): real { rate * (1.0 + elapsed) }

  lemma TakenInWindow(b0: T.Bucket, since: Time, b: T.Bucket, n: nat, rate: nat, now: Time)
    requires TakenSince(b0, since, b, n) && T.Valid(b) && b.rate == b.burst == rate as real
    requires b.last <= now && since <= now
    ensures n as real <= Allowance(rate as real, now - since)
  {
    if n == 0 {
      T.MulNonNegative(rate as real, 1.0 + (now - since));
    } else {
      hide T.Accrued;
      MeterArithmetic(rate as real, n as real, b.tokens, since, b.last, now);
    }
  }

  lemma WindowMeters(rate: nat, s: Sys, t: Sys)
    requires RateInv(rate, s) && RateInv(rate, t) && MeteredSince(s, t)
    ensures t.acct.beyond as real - s.acct.beyond as real
      <= rate as real * (1.0 + (t.clock - s.clock)) + |s.acct.held| as real
  {
    TakenInWindow(s.sh.retry, s.clock, t.sh.retry, t.acct.grants - s.acct.grants, rate, t.clock);
    assert Allowance(rate as real, t.clock - s.clock) == rate as real * (1.0 + (t.clock - s.clock));
    hide T.Accrued, TakenSince, Allowance;
    var grants: nat := t.acct.grants - s.acct.grants;
    assert t.acct.beyond - s.acct.beyond <= grants + |s.acct.held|;
  }

  lemma ReachableBeyond(cfg: Config, rate: nat, s: Sys)
    requires Reachable(cfg, rate, s)
    ensures s.acct.beyond == Sum(Extras(s.reqs))
  {
    var store, now, acts :|
      ValidRun(cfg, rate, Booted(rate, store, now), acts) && s == After(cfg, rate, Booted(rate, store, now), acts);
    assert Extras(Booted(rate, store, now).reqs) == map[];
    RunBeyondIsTotal(cfg, rate, Booted(rate, store, now), acts);
  }

  /** Across all requests of a process, attempts beyond each one's first stay within rate x (1 + elapsed). */
  lemma RetriesAreMetered(cfg: Config, rate: nat, s: Sys)
    requires Reachable(cfg, rate, s)
    ensures Sum(Extras(s.reqs)) as real <= rate as real * (1.0 + (s.clock - s.acct.born))
  {
    ReachableInv(cfg, rate, s);
    ReachableBeyond(cfg, rate, s);
    InvMeters(rate, s);
  }

  lemma InvMeters(rate: nat, s: Sys)
    requires RateInv(rate, s)
    ensures s.acct.beyond as real <= rate as real * (1.0 + (s.clock - s.acct.born))
  {
    MeterArithmetic(rate as real, s.acct.grants as real, s.sh.retry.tokens, s.acct.born, s.sh.retry.last, s.clock);
  }

  lemma MeterArithmetic(rate: real, grants: real, tokens: real, born: Time, last: Time, clock: Time)
    requires rate >= 0.0 && tokens >= 0.0 && last <= clock
    requires grants + tokens <= rate + T.Accrued(rate, last) - T.Accrued(rate, born)
    ensures grants <= rate * (1.0 + (clock - born))
  {
    T.AccruedMonotone(rate, last, clock);
    T.AccruedDifference(rate, born, clock);
    assert rate * (1.0 + (clock - born)) == rate + rate * (clock - born);
  }
}

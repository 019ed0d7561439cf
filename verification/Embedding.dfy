/**
 A request that the loop of `Chats.Gateway.Chat` carries through on its own is a run of
 the interleaved gateway: its trace is a list of that machine's steps.
 */
module Embedding {
  import opened Common
  import opened Routing
  import opened Interleaving
  import opened Runs
  import opened Chats
  import B = Breakers
  import C = Circuits
  import I = Idempotency
  import T = TokenBuckets

  function Acts(id: nat, trace: seq<Input>): seq<Action> {
    if trace == [] then [] else Acts(id, trace[..|trace| - 1]) + [Act(id, trace[|trace| - 1])]
  }

  lemma {:induction false} PlayIsRun(cfg: Config, rate: nat, sys: Sys, id: nat, from: Time, trace: seq<Input>)
    requires id in sys.reqs && sys.clock <= from
    requires Play(cfg, sys.reqs[id], sys.sh, trace).Some? && Timed(from, trace)
    ensures ValidRun(cfg, rate, sys, Acts(id, trace))
    ensures var t := After(cfg, rate, sys, Acts(id, trace)); var end := Play(cfg, sys.reqs[id], sys.sh, trace).value;
      t.reqs == sys.reqs[id := end.0] && t.sh == end.1 && t.clock <= LastTime(from, trace)
  {
    if trace == [] {
      assert sys.reqs[id := sys.reqs[id]] == sys.reqs;
    } else {
      var init, last := trace[..|trace| - 1], trace[|trace| - 1];
      PlayIsRun(cfg, rate, sys, id, from, init);
      var t := After(cfg, rate, sys, Acts(id, init));
      assert Valid(t, Act(id, last));
      RunSnoc(cfg, rate, sys, Acts(id, init), Act(id, last));
      hide Step, ValidRun, After;
      var end := Play(cfg, sys.reqs[id], sys.sh, trace).value;
      assert sys.reqs[id := t.reqs[id]][id := end.0] == sys.reqs[id := end.0];
    }
  }

  /**
   Whatever else is in flight, a request the loop carries through leads from a reachable
   state to a reachable one, in which it stands where the loop left it.
   */
  lemma LoopIsARun(cfg: Config, rate: nat, sys: Sys, id: nat, start: Solo, s: Solo)
    requires Reachable(cfg, rate, sys) && id !in sys.reqs && sys.sh == start.sh && sys.clock <= start.clock
    requires start.r == Fresh(start.r.key, start.r.hash, start.r.temperature)
    requires Play(cfg, start.r, start.sh, s.trace) == Some((s.r, s.sh)) && Timed(start.clock, s.trace)
    ensures var arrive := Arrive(id, start.r.key, start.r.hash, start.r.temperature);
      && ValidRun(cfg, rate, sys, [arrive] + Acts(id, s.trace))
      && var t := After(cfg, rate, sys, [arrive] + Acts(id, s.trace));
         t.reqs == sys.reqs[id := s.r] && t.sh == s.sh && t.clock <= LastTime(start.clock, s.trace) && Reachable(cfg, rate, t)
  {
    var arrive := Arrive(id, start.r.key, start.r.hash, start.r.temperature);
    var arrived := Next(cfg, rate, sys, arrive);
    RunSnoc(cfg, rate, sys, [], arrive);
    assert [] + [arrive] == [arrive];
    assert arrived.reqs == sys.reqs[id := start.r] && arrived.sh == sys.sh;
    hide Step, Next, Valid;
    PlayIsRun(cfg, rate, arrived, id, start.clock, s.trace);
    RunAppend(cfg, rate, sys, [arrive], Acts(id, s.trace));
    assert sys.reqs[id := start.r][id := s.r] == sys.reqs[id := s.r];
    ReachableExtends(cfg, rate, sys, [arrive] + Acts(id, s.trace));
  }

  lemma ReachableExtends(cfg: Config, rate: nat, sys: Sys, acts: seq<Action>)
    requires Reachable(cfg, rate, sys) && ValidRun(cfg, rate, sys, acts)
    ensures Reachable(cfg, rate, After(cfg, rate, sys, acts))
  {
    var store, now, before :|
      ValidRun(cfg, rate, Booted(rate, store, now), before) && sys == After(cfg, rate, Booted(rate, store, now), before);
    RunAppend(cfg, rate, Booted(rate, store, now), before, acts);
  }

  // ----- a process from its start -----

  lemma BootIsReachable(cfg: Config, rate: nat, store: map<string, Entry>, now: Time)
    ensures Reachable(cfg, rate, Booted(rate, store, now))
  {
    assert ValidRun(cfg, rate, Booted(rate, store, now), []);
  }

  /** One closed breaker for each provider. */
  method NewCircuits() returns (m: map<Provider, C.Circuit>)
    ensures m.Keys == PROVIDERS
    ensures forall p :: p in m ==> fresh(m[p]) && m[p].Valid() && m[p].State() == B.CLOSED
    ensures forall p, q :: p in m && q in m && p != q ==> m[p] != m[q]
  {
    hide C.Binary, B.Trailing;
    var todo := PROVIDERS;
    m := map[];
    while todo != {}
      invariant m.Keys == PROVIDERS - todo && todo <= PROVIDERS
      invariant forall p :: p in m ==> fresh(m[p]) && m[p].Valid() && m[p].State() == B.CLOSED
      invariant forall p, q :: p in m && q in m && p != q ==> m[p] != m[q]
      decreases todo
    {
      var p :| p in todo;
      var c := new C.Circuit();
      m, todo := m[p := c], todo - {p};
    }
  }

  /** A new gateway over whatever store it finds is where the interleaved gateway starts. */
  method NewGateway(cfg: Config, rate: nat, idem: I.IdemStore, now: Time) returns (g: Gateway)
    requires idem.Valid() && cfg.maxAttempts >= 1
    ensures g.Valid() && g.cfg == cfg && g.idem == idem && g.circuits.Keys == PROVIDERS && g.retry.last == now
    ensures fresh(g) && fresh(g.Objects() - {idem})
    ensures g.State() == Booted(rate, idem.Entries(), now).sh
    ensures Reachable(cfg, rate, Booted(rate, idem.Entries(), now))
  {
    var circuits := NewCircuits();
    var retry := new T.TokenBucket(rate, rate, now);
    g := new Gateway(cfg, circuits, retry, idem);
    BootIsReachable(cfg, rate, idem.Entries(), now);
    hide Reachable, C.Binary, B.Trailing, B.Failures;
    assert g.State().circuits == map p | p in PROVIDERS :: B.CLOSED;
  }

  datatype Call = Call(w: World, key: Option<string>, hash: string, temperature: bool, routes: Option<seq<Route>>)

  /** Each call's world is lawful and its policy routes to known providers. */
  ghost predicate Acceptable(c: Call) {
    Lawful(c.w) && (c.routes.Some? ==> forall k :: 0 <= k < |c.routes.value| ==> c.routes.value[k].provider in PROVIDERS)
  }

  /** One call comes after the other has ended. */
  ghost predicate Follows(c: Call, d: Call) { forall n :: c.w.clock(n) <= d.w.clock(0) }

  /** One call of the loop, as a run of the interleaved gateway. */
  method ServeOne(g: Gateway, c: Call, rate: nat, ghost sys: Sys, ghost id: nat)
    returns (response: Response, ghost last: nat, ghost sys': Sys)
    requires g.Valid() && g.circuits.Keys == PROVIDERS && Acceptable(c)
    requires Reachable(g.cfg, rate, sys) && sys.sh == g.State() && id !in sys.reqs
    requires sys.clock <= c.w.clock(0) && g.retry.last <= c.w.clock(0)
    modifies g.Objects()
    ensures g.Valid() && Reachable(g.cfg, rate, sys') && sys'.sh == g.State()
    ensures sys'.clock <= c.w.clock(last) && g.retry.last <= c.w.clock(last)
    ensures sys'.reqs.Keys == sys.reqs.Keys + {id} && sys'.reqs[id].phase == Finished(response)
    ensures forall i :: i in sys.reqs ==> sys'.reqs[i] == sys.reqs[i]
  {
    hide Gateway.Valid, Gateway.State, Gateway.Live, Reachable, Play, Timed, LastTime, ValidRun, After, Next;
    hide NoUnsafeReplay, Due, SettledStore, Counted, Lawful;
    var log;
    ghost var start, s;
    response, log, last, start, s := g.Chat(c.w, c.key, c.hash, c.temperature, c.routes);
    LoopIsARun(g.cfg, rate, sys, id, start, s);
    sys' := After(g.cfg, rate, sys, [Arrive(id, c.key, c.hash, c.temperature)] + Acts(id, s.trace));
  }

  /** Calls that come one after the other, none before an instant. */
  ghost predicate InOrder(from: Time, calls: seq<Call>) {
    && (forall i :: 0 <= i < |calls| ==> Acceptable(calls[i]) && from <= calls[i].w.clock(0))
    && (forall i, j :: 0 <= i < j < |calls| ==> Follows(calls[i], calls[j]))
  }

  /** The instant is not after any of the calls from the n-th on. */
  ghost predicate Before(now: Time, calls: seq<Call>, n: nat) {
    forall j :: n <= j < |calls| ==> now <= calls[j].w.clock(0)
  }

  /** The first calls are the requests so far, each ended with its response. */
  ghost predicate Ended(reqs: map<nat, Request>, responses: seq<Response>) {
    (forall i :: i in reqs <==> 0 <= i < |responses|) &&
    (forall i :: 0 <= i < |responses| ==> reqs[i].phase == Finished(responses[i]))
  }

  lemma NextInOrder(from: Time, calls: seq<Call>, n: nat, last: nat, now: Time)
    requires InOrder(from, calls) && n < |calls| && now <= calls[n].w.clock(last)
    ensures Before(now, calls, n + 1)
  {
    forall j | n < j < |calls| ensures now <= calls[j].w.clock(0) { assert Follows(calls[n], calls[j]); }
  }

  lemma OneMoreEnded(before: map<nat, Request>, after: map<nat, Request>, responses: seq<Response>, response: Response)
    requires Ended(before, responses) && after.Keys == before.Keys + {|responses|}
    requires forall i :: i in before ==> after[i] == before[i]
    requires after[|responses|].phase == Finished(response)
    ensures Ended(after, responses + [response])
  {}

  /**
   Any sequence of calls served by a gateway from its start leads through reachable states,
   so what holds of every reachable state holds of the process after each of them.
   */
  method Serve(g: Gateway, calls: seq<Call>, rate: nat, ghost from: Time) returns (responses: seq<Response>, ghost sys: Sys)
    requires g.Valid() && g.circuits.Keys == PROVIDERS && g.retry.last == from
    requires g.State() == Booted(rate, g.idem.Entries(), from).sh && InOrder(from, calls)
    modifies g.Objects()
    ensures g.Valid() && Reachable(g.cfg, rate, sys) && sys.sh == g.State()
    ensures |responses| == |calls| && Ended(sys.reqs, responses)
  {
    responses, sys := [], Booted(rate, g.idem.Entries(), from);
    BootIsReachable(g.cfg, rate, g.idem.Entries(), from);
    assert Ended(sys.reqs, responses) && Before(from, calls, 0) && sys.clock == from;
    hide Reachable, Acceptable, Follows, Ended, Gateway.Valid, Gateway.State, Booted;
    for n := 0 to |calls|
      invariant g.Valid() && Reachable(g.cfg, rate, sys) && sys.sh == g.State() && |responses| == n
      invariant Ended(sys.reqs, responses) && Before(sys.clock, calls, n) && Before(g.retry.last, calls, n)
    {
      ghost var before := sys.reqs;
      assert n !in before by { NotYet(before, responses); }
      var response;
      ghost var last;
      response, last, sys := ServeOne(g, calls[n], rate, sys, n);
      OneMoreEnded(before, sys.reqs, responses, response);
      NextInOrder(from, calls, n, last, sys.clock);
      NextInOrder(from, calls, n, last, g.retry.last);
      responses := responses + [response];
    }
  }

  lemma NotYet(reqs: map<nat, Request>, responses: seq<Response>)
    requires Ended(reqs, responses)
    ensures |responses| !in reqs
  {}
}

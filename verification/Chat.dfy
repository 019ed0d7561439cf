/**
 The request loop itself (`chat` in internal/gateway/server.go): imperative code
 over the real breakers, bucket and store, proved to be a run of the routing
 machine in order of time.  `Embedding` makes that a run of the interleaved gateway.
 */
module Chats {
  import opened Common
  import opened Routing
  import B = Breakers
  import C = Circuits
  import T = TokenBuckets
  import I = Idempotency
  import F = Faults
  import K = Bedrock
  import N = Normalizing
  import P = Pipelines
  import S = Streams

  // ----- runs of one request -----

  /** A request on its own: where it stands, what it shares, the inputs that led there and the last instant among them. */
  datatype Solo = Solo(r: Request, sh: Shared, trace: seq<Input>, clock: Time)

  /** The machine's steps for a list of inputs, if each is enabled when it comes. */
  ghost function Play(cfg: Config, r: Request, sh: Shared, inputs: seq<Input>): Option<(Request, Shared)> {
    if inputs == [] then Some((r, sh))
    else
      var before := Play(cfg, r, sh, inputs[..|inputs| - 1]);
      if before.None? || !Enabled(before.value.0, inputs[|inputs| - 1]) then None
      else Some(Step(cfg, before.value.0, before.value.1, inputs[|inputs| - 1]))
  }

  ghost function Advance(cfg: Config, s: Solo, input: Input): Solo
    requires Enabled(s.r, input)
  {
    var (r, sh) := Step(cfg, s.r, s.sh, input);
    Solo(r, sh, s.trace + [input], TimeOf(input, s.clock))
  }

  /** The last instant among a list of inputs that follow an instant. */
  ghost function LastTime(from: Time, inputs: seq<Input>): Time {
    if inputs == [] then from else TimeOf(inputs[|inputs| - 1], LastTime(from, inputs[..|inputs| - 1]))
  }

  /** The instants among the inputs are in order, and none is before the given one. */
  ghost predicate Timed(from: Time, inputs: seq<Input>) {
    inputs == [] ||
    (var init, last := inputs[..|inputs| - 1], inputs[|inputs| - 1];
     Timed(from, init) && LastTime(from, init) <= TimeOf(last, LastTime(from, init)))
  }

  /** Reached from the start by the machine, in order of time, with the request invariant. */
  ghost predicate Good(cfg: Config, start: Solo, s: Solo) {
    && Play(cfg, start.r, start.sh, s.trace) == Some((s.r, s.sh)) && Inv(cfg, s.r)
    && Timed(start.clock, s.trace) && s.clock == LastTime(start.clock, s.trace)
  }

  lemma AdvanceGood(cfg: Config, start: Solo, s: Solo, input: Input)
    requires Good(cfg, start, s) && Enabled(s.r, input) && s.clock <= TimeOf(input, s.clock)
    ensures Good(cfg, start, Advance(cfg, s, input))
  {
    StepKeepsInv(cfg, s.r, s.sh, input);
    assert (s.trace + [input])[..|s.trace|] == s.trace;
    hide Inv, Step;
  }

  /** The request after one owed breaker call. */
  ghost function Paid(r: Request): Request
    requires r.phase.Owing? && r.phase.owed != []
  {
    if |r.phase.owed| == 1 then AfterOwed(r, r.phase.next) else At(r, Owing(r.phase.owed[1..], r.phase.next))
  }

  /** One owed breaker call as a step. */
  lemma OweMeans(cfg: Config, s: Solo, now: Time)
    requires s.r.phase.Owing? && s.r.phase.owed != []
    ensures var s', p := Advance(cfg, s, OweIn(now)), ProviderOf(s.r);
      && s'.r == Paid(s.r) && s'.clock == now
      && s'.sh == SetCircuit(s.sh, p, ApplyOwed(CircuitOf(s.sh, p), s.r.phase.owed[0], now))
  {}

  /** The part of a request that a verdict looks at. */
  ghost function Seen(i: nat, attempts: nat, retried: set<nat>): Request {
    Fresh(None, "", false).(i := i, attempts := attempts, retried := retried)
  }

  predicate SameKey(a: Request, b: Request) {
    a.key == b.key && a.hash == b.hash && a.temperature == b.temperature && a.routes == b.routes && a.skip == b.skip
  }

  /** Where a course leaves the request. */
  predicate Landed(course: Course, i: nat, retried: set<nat>, r: Request) {
    match course
    case Onward => r.phase == Head && r.i == i + 1 && r.retried == retried
    case Again => i !in retried && r.phase == Pause && r.i == i && r.retried == retried + {i}
    case Stop(response, settle) => r.phase == Closing(response, settle)
  }

  predicate SameRequest(a: Request, b: Request) { SameKey(a, b) && a.i == b.i }

  lemma JudgeSees(cfg: Config, r: Request, reply: Reply)
    ensures Judge(cfg, r, reply) == Judge(cfg, Seen(r.i, r.attempts, r.retried), reply)
  {}

  lemma BuildMeans(cfg: Config, s: Solo, resend: bool, omit: bool)
    requires s.r.phase == Build(resend)
    ensures var sent := Advance(cfg, s, BuildIn(true, omit)); var temp := !resend && s.r.temperature && !omit;
      && sent.r == StepBuild(s.r, resend, true, omit) && sent.sh == s.sh && sent.clock == s.clock
      && sent.r.phase == Sent(temp) && sent.r.log == s.r.log + [Send(s.r.i, temp, resend, None)]
  {}

  lemma ReplyMeans(cfg: Config, sent: Solo, temp: bool, reply: Reply, log: seq<Send>, send: Send)
    requires sent.r.phase == Sent(temp) && WellFormed(reply) && sent.r.log == log + [send]
    ensures var s' := Advance(cfg, sent, ReplyIn(reply));
      && s'.r == StepReply(cfg, sent.r, temp, reply) && s'.sh == sent.sh && s'.clock == sent.clock
      && s'.r.log == log + [send.(reply := Some(reply))]
  {
    assert sent.r.log[..|sent.r.log| - 1] == log;
    hide Judge;
  }

  /** A send and its reply as two steps. */
  lemma SendMeans(cfg: Config, start: Solo, s: Solo, resend: bool, omit: bool, temp: bool, reply: Reply)
    requires Good(cfg, start, s) && s.r.phase == Build(resend) && WellFormed(reply)
    requires temp == (!resend && s.r.temperature && !omit)
    ensures var sent := Advance(cfg, s, BuildIn(true, omit));
      && Enabled(sent.r, ReplyIn(reply))
      && var s' := Advance(cfg, sent, ReplyIn(reply));
         && Good(cfg, start, s') && s'.sh == s.sh && s'.clock == s.clock
         && s'.r == StepReply(cfg, StepBuild(s.r, resend, true, omit), temp, reply)
         && s'.r.log == s.r.log + [Send(s.r.i, temp, resend, Some(reply))]
  {
    hide Good, Advance, StepReply, StepBuild;
    var sent := Advance(cfg, s, BuildIn(true, omit));
    AdvanceGood(cfg, start, s, BuildIn(true, omit));
    BuildMeans(cfg, s, resend, omit);
    AdvanceGood(cfg, start, sent, ReplyIn(reply));
    ReplyMeans(cfg, sent, temp, reply, s.r.log, Send(s.r.i, temp, resend, None));
  }

  /** Where a send and its reply leave the request. */
  lemma SentMeans(cfg: Config, r: Request, resend: bool, omit: bool, temp: bool, reply: Reply)
    ensures var r' := StepReply(cfg, StepBuild(r, resend, true, omit), temp, reply);
      && SameRequest(r, r') && r'.attempts == r.attempts + (if resend then 0 else 1)
      && if temp && reply.Status? && F.RejectsTemperature(reply.code, reply.temperature) then
           r'.phase == Build(true) && r'.retried == r.retried
         else
           var v := Judge(cfg, Seen(r.i, r'.attempts, r.retried), reply);
           r'.phase == Owing(v.owed, v.next) && r'.retried == if v.next.Again? then r.retried + {r.i} else r.retried
  {
    JudgeSees(cfg, Answered(StepBuild(r, resend, true, omit), reply), reply);
    hide Judge;
  }

  // ----- the outside world -----

  /**
   What a provider put on the wire: a complete reply, the bytes of an event stream, or the
   decoded events of one re-framed by the Bedrock adapter; with the client's room for writes.
   */
  datatype Wire =
    | Plain(reply: Reply)
    | Bytes(openai: bool, input: string, cut: bool, room: nat)
    | Events(events: seq<K.Event>, room: nat)

  /** The most text the Bedrock adapter passes on, in bytes. */
  const BEDROCK_LIMIT: nat := 8388608

  /** Clock readings, provider replies and the rest, numbered in the order they are asked for. */
  datatype World = World(clock: nat -> Time, wire: nat -> Wire, cancelled: nat -> bool, built: nat -> bool, omit: nat -> bool,
                         hinted: Route -> bool, size: Entry -> nat, decode: string -> N.Event)

  ghost predicate Lawful(w: World) {
    && (forall i, j :: 0 <= i <= j ==> w.clock(i) <= w.clock(j))
    && (forall n :: w.wire(n).Plain? ==> WellFormed(w.wire(n).reply))
    && (forall e :: w.size(e) > 0)
  }

  /** The loop's tests at a route, read off the machine. */
  lemma HeadStep(cfg: Config, s: Solo, now: Time)
    requires s.r.phase == Head && s.r.i < |s.r.routes|
    ensures var p := s.r.routes[s.r.i].provider; var (c, ok) := B.Allow(CircuitOf(s.sh, p), now);
      var s' := Advance(cfg, s, HeadIn(now));
      && ok == B.WouldAllow(CircuitOf(s.sh, p), now) && (!ok ==> c == CircuitOf(s.sh, p))
      && (p !in cfg.configured || s.r.i in s.r.skip ==> s'.r == s.r.(i := s.r.i + 1) && s'.sh == s.sh)
      && (p in cfg.configured && s.r.i !in s.r.skip ==>
           if s.r.attempts >= cfg.maxAttempts then s'.r == At(s.r, Closing(Problem(503), Leave)) && s'.sh == s.sh
           else if !ok then s'.r == s.r.(i := s.r.i + 1) && s'.sh == s.sh
           else s'.r == At(s.r, if s.r.attempts > 0 then Token else Build(false)) && s'.sh == SetCircuit(s.sh, p, c))
  {}

  lemma ScanMeans(cfg: Config, s: Solo, routes: Option<seq<Route>>, skip: set<nat>)
    requires s.r.phase == Scan
    ensures var s' := Advance(cfg, s, ScanIn(routes, skip));
      && s'.sh == s.sh && s'.clock == s.clock
      && s'.r == if routes.None? then At(s.r, Closing(Problem(503), Leave))
                 else s.r.(phase := Head, routes := routes.value, skip := skip)
  {}

  lemma TokenMeans(cfg: Config, s: Solo, now: Time)
    requires s.r.phase == Token
    ensures var s' := Advance(cfg, s, TokenIn(now)); var (b, ok) := T.Take(s.sh.retry, now);
      && s'.sh == s.sh.(retry := b) && s'.clock == now && (!ok ==> b.tokens < 1.0)
      && s'.r == At(s.r, if ok then Jitter else Owing([OweRelease], Stop(Problem(503), Leave)))
  {}

  lemma CloseMeans(cfg: Config, s: Solo, response: Response, settle: Settlement, admit: bool)
    requires s.r.phase == Closing(response, settle)
    ensures var s' := Advance(cfg, s, CloseIn(admit));
      (s'.r, s'.sh) == StepClosing(s.r, s.sh, response, settle, admit) && s'.clock == s.clock
  {}

  lemma ClockForward(w: World, i: nat, j: nat)
    requires Lawful(w) && i <= j
    ensures w.clock(i) <= w.clock(j)
  {}

  lemma RepeatIsFirst(cfg: Config, i: nat, attempts: nat, retried: set<nat>, reply: Reply)
    ensures Judge(cfg, Seen(i, attempts, retried), reply).next.Again? ==> i !in retried
  {}

  /** A route that could be attempted at an instant: configured, and its breaker would allow it. */
  ghost predicate Routable(cfg: Config, sh: Shared, routes: seq<Route>, k: nat, now: Time) {
    k < |routes| && routes[k].provider in cfg.configured && B.WouldAllow(CircuitOf(sh, routes[k].provider), now)
  }

  /** The same, at the clock reading the counting pass takes for that route. */
  ghost predicate Counted(cfg: Config, sh: Shared, routes: seq<Route>, w: World, n: nat, k: nat) {
    Routable(cfg, sh, routes, k, w.clock(n + k))
  }

  /** A route the counting pass decides to pass over: hinted, while another that could be asked is not. */
  ghost predicate PassedOver(cfg: Config, sh: Shared, routes: seq<Route>, w: World, n: nat, k: nat) {
    && Counted(cfg, sh, routes, w, n, k) && w.hinted(routes[k])
    && exists j: nat :: Counted(cfg, sh, routes, w, n, j) && !w.hinted(routes[j])
  }

  // ----- which routes are asked -----

  ghost predicate SentFor(log: seq<Send>, k: nat) { exists s :: s in log && s.route == k }

  /** More sends, all for the one route. */
  ghost predicate Extends(log: seq<Send>, log': seq<Send>, i: nat) {
    log <= log' && forall k :: |log| <= k < |log'| ==> log'[k].route == i
  }

  /** Nothing happened to any provider's breaker but this one's. */
  ghost predicate OnlyProvider(a: Shared, b: Shared, p: Provider) {
    forall q :: q != p ==> CircuitOf(b, q) == CircuitOf(a, q)
  }

  ghost predicate DistinctProviders(routes: seq<Route>) {
    forall i, j :: 0 <= i < j < |routes| ==> routes[i].provider != routes[j].provider
  }

  /** Why a request that was not answered stopped where it did. */
  ghost predicate Excused(cfg: Config, w: World, sh: Shared, attempts: nat, response: Response) {
    && (response == Problem(500) ==> exists m :: !w.built(m))
    && (response == Problem(504) ==> exists m :: w.cancelled(m))
    && (response == Problem(503) ==> attempts >= cfg.maxAttempts || sh.retry.tokens < 1.0)
  }

  lemma UnbuiltExcuses(cfg: Config, w: World, sh: Shared, attempts: nat)
    requires exists m :: !w.built(m)
    ensures Excused(cfg, w, sh, attempts, Problem(500))
  {}

  /** A reply the loop stops at is answered by none of these. */
  lemma FinalReplyExcuses(cfg: Config, w: World, sh: Shared, r: Request, reply: Reply)
    requires !GoesOn(reply)
    ensures Judge(cfg, r, reply).next.Stop? && Excused(cfg, w, sh, r.attempts, Judge(cfg, r, reply).next.response)
  {
    JudgeGoesOnIff(cfg, r, reply);
    JudgeAnswers(cfg, r, reply);
    hide Judge, GoesOn;
  }

  /** The routes before `i` that could be asked at the start were, and nobody else's breaker has moved since. */
  ghost predicate Going(cfg: Config, sh: Shared, cur: Shared, routes: seq<Route>, skip: set<nat>, log: seq<Send>,
                        i: nat, stopped: bool, now: Time)
  {
    && i <= |routes| && (forall s :: s in log ==> s.route <= i)
    && (forall k: nat :: k < i && k !in skip && Routable(cfg, sh, routes, k, now) ==> SentFor(log, k))
    && (!stopped ==> forall k: nat :: i <= k < |routes| && !SentFor(log, k) ==>
          CircuitOf(cur, routes[k].provider) == CircuitOf(sh, routes[k].provider))
  }

  lemma SentForMore(log: seq<Send>, log': seq<Send>, i: nat)
    requires Extends(log, log', i)
    ensures forall k: nat :: SentFor(log, k) ==> SentFor(log', k)
    ensures |log'| > |log| ==> SentFor(log', i)
    ensures forall s :: s in log' ==> s in log || s.route == i
  {
    if |log'| > |log| { assert log'[|log|] in log' && log'[|log|].route == i; }
    forall k: nat | SentFor(log, k) ensures SentFor(log', k) {
      var s :| s in log && s.route == k;
      assert s in log';
    }
  }

  /** One turn of the loop at route `i`. */
  lemma GoingOn(cfg: Config, sh: Shared, a: Shared, b: Shared, routes: seq<Route>, skip: set<nat>, log: seq<Send>, log': seq<Send>,
                i: nat, i': nat, stopped: bool, start: Time, now: Time)
    requires DistinctProviders(routes) && Going(cfg, sh, a, routes, skip, log, i, false, start) && i < |routes| && start <= now
    requires OnlyProvider(a, b, routes[i].provider) && Extends(log, log', i) && (i' == i || i' == i + 1)
    requires i' == i + 1 && i !in skip && Routable(cfg, a, routes, i, now) ==> |log'| > |log|
    requires i' == i && !stopped ==> |log'| > |log|
    ensures Going(cfg, sh, b, routes, skip, log', i', stopped, start)
  {
    SentForMore(log, log', i);
    if i' == i + 1 && i !in skip && Routable(cfg, sh, routes, i, start) && !SentFor(log, i) {
      assert CircuitOf(a, routes[i].provider) == CircuitOf(sh, routes[i].provider);
    }
    hide SentFor, Extends, CircuitOf;
  }

  lemma GoingStarts(cfg: Config, sh: Shared, routes: seq<Route>, skip: set<nat>, now: Time)
    ensures Going(cfg, sh, sh, routes, skip, [], 0, false, now)
  {}

  /**
   No route that could be asked at the start is left behind by one that was; and a request
   that ends unanswered ran out of attempts or tokens, was given up by the caller, could not
   be built, or asked every route there was to ask.
   */
  ghost predicate AskedInTurn(cfg: Config, w: World, sh: Shared, sh': Shared, routes: seq<Route>, skip: set<nat>, now: Time,
                              log: seq<Send>, attempts: nat, response: Response)
  {
    && (forall j: nat, k: nat :: j < k && SentFor(log, k) && j !in skip && Routable(cfg, sh, routes, j, now) ==> SentFor(log, j))
    && (response == Problem(500) ==> exists m :: !w.built(m))
    && (response == Problem(504) ==> exists m :: w.cancelled(m))
    && (response == Problem(503) && attempts < cfg.maxAttempts && sh'.retry.tokens >= 1.0 ==>
          forall k: nat :: k !in skip && Routable(cfg, sh, routes, k, now) ==> SentFor(log, k))
  }

  /** A route that could be asked when the request came in, and was not to be passed over. */
  ghost predicate Wanted(cfg: Config, sh: Shared, routes: seq<Route>, w: World, k: nat) {
    Counted(cfg, sh, routes, w, 1, k) && !PassedOver(cfg, sh, routes, w, 1, k)
  }

  /** The same of a whole request, in terms of the state it found: `sh` before it, `sh'` after it. */
  ghost predicate FailsOver(cfg: Config, w: World, sh: Shared, sh': Shared, routes: seq<Route>,
                            log: seq<Send>, attempts: nat, response: Response)
  {
    && (forall j: nat, k: nat :: j < k && SentFor(log, k) && Wanted(cfg, sh, routes, w, j) ==> SentFor(log, j))
    && (response == Problem(500) ==> exists m :: !w.built(m))
    && (response == Problem(504) ==> exists m :: w.cancelled(m))
    && (response == Problem(503) && attempts < cfg.maxAttempts && sh'.retry.tokens >= 1.0 ==>
          forall k: nat :: Wanted(cfg, sh, routes, w, k) ==> SentFor(log, k))
  }

  lemma AskedInTurnFailsOver(cfg: Config, w: World, sh: Shared, sh': Shared, routes: seq<Route>, skip: set<nat>, now: Time,
                             log: seq<Send>, attempts: nat, response: Response)
    requires AskedInTurn(cfg, w, sh, sh', routes, skip, now, log, attempts, response)
    requires forall k: nat :: k in skip <==> PassedOver(cfg, sh, routes, w, 1, k)
    requires forall k: nat :: Counted(cfg, sh, routes, w, 1, k) ==> Routable(cfg, sh, routes, k, now)
    ensures FailsOver(cfg, w, sh, sh', routes, log, attempts, response)
  {
    hide Counted, Routable, PassedOver, SentFor;
  }

  lemma FailsOverByCircuits(cfg: Config, w: World, a: Shared, b: Shared, sh': Shared, routes: seq<Route>,
                            log: seq<Send>, attempts: nat, response: Response)
    requires a.circuits == b.circuits && FailsOver(cfg, w, a, sh', routes, log, attempts, response)
    ensures FailsOver(cfg, w, b, sh', routes, log, attempts, response)
  {
    CountedByCircuits(cfg, a, b, routes, w, 1);
    PassedOverByCircuits(cfg, a, b, routes, w);
    hide Counted, PassedOver, SentFor;
  }

  lemma FailsOverStill(cfg: Config, w: World, sh: Shared, a: Shared, b: Shared, routes: seq<Route>,
                       log: seq<Send>, attempts: nat, response: Response)
    requires a.retry == b.retry && FailsOver(cfg, w, sh, a, routes, log, attempts, response)
    ensures FailsOver(cfg, w, sh, b, routes, log, attempts, response)
  {
    hide Wanted, SentFor;
  }

  lemma PassedOverByCircuits(cfg: Config, a: Shared, b: Shared, routes: seq<Route>, w: World)
    requires a.circuits == b.circuits
    ensures forall k: nat :: PassedOver(cfg, a, routes, w, 1, k) == PassedOver(cfg, b, routes, w, 1, k)
  {
    CountedByCircuits(cfg, a, b, routes, w, 1);
    assert forall k: nat :: Counted(cfg, a, routes, w, 1, k) ==> k < |routes|;
    hide Counted;
  }

  /**
   So, with attempts and a token left, no caller giving up and every request buildable, a
   request is answered or ends at a reply that must not be tried again, or it has asked
   every route there was to ask.
   */
  lemma UnansweredAskedEveryone(cfg: Config, w: World, sh: Shared, sh': Shared, routes: seq<Route>,
                                log: seq<Send>, attempts: nat, response: Response, k: nat)
    requires FailsOver(cfg, w, sh, sh', routes, log, attempts, response) && EndsWith(log, response)
    requires attempts < cfg.maxAttempts && sh'.retry.tokens >= 1.0
    requires (forall m :: !w.cancelled(m)) && (forall m :: w.built(m)) && Wanted(cfg, sh, routes, w, k)
    requires log != [] && GoesOn(log[|log| - 1].reply.value)
    ensures SentFor(log, k)
  {}

  lemma GoingEnds(cfg: Config, w: World, sh: Shared, sh': Shared, routes: seq<Route>, skip: set<nat>, now: Time,
                  log: seq<Send>, i: nat, attempts: nat, stop: Option<Course>)
    requires Going(cfg, sh, sh', routes, skip, log, i, stop.Some?, now) && (stop.None? ==> i == |routes|)
    requires stop.Some? ==> stop.value.Stop? && Excused(cfg, w, sh', attempts, stop.value.response)
    ensures AskedInTurn(cfg, w, sh, sh', routes, skip, now, log, attempts,
      if stop.Some? then stop.value.response else Problem(503))
  {
    assert forall k: nat :: Routable(cfg, sh, routes, k, now) ==> k < |routes|;
    assert forall k: nat :: SentFor(log, k) ==> k <= i;
    hide Routable, SentFor, CircuitOf;
  }

  // ----- the gateway -----

  class Gateway {
    const cfg: Config
    const circuits: map<Provider, C.Circuit>
    const retry: T.TokenBucket
    const idem: I.IdemStore

    ghost function Objects(): set<object> {
      {retry, idem} + set p | p in circuits :: circuits[p]
    }

    ghost predicate Valid()
      reads this, Objects()
    {
      && (forall p :: p in circuits ==> circuits[p].Valid())
      && (forall p, q :: p in circuits && q in circuits && p != q ==> circuits[p] != circuits[q])
      && T.Valid(retry.State()) && idem.Valid() && cfg.maxAttempts >= 1
    }

    ghost function State(): Shared
      reads this, Objects()
    {
      Shared(map p | p in circuits :: circuits[p].State(), retry.State(), idem.Entries())
    }

    /** The store holds an entry for the key that still counts. */
    ghost predicate Live(key: Option<string>, now: Time)
      reads idem
    {
      key.Some? && key.value in idem.files && idem.Unexpired(key.value, now)
    }

    constructor (cfg: Config, circuits: map<Provider, C.Circuit>, retry: T.TokenBucket, idem: I.IdemStore)
      requires forall p :: p in circuits ==> circuits[p].Valid()
      requires forall p, q :: p in circuits && q in circuits && p != q ==> circuits[p] != circuits[q]
      requires T.Valid(retry.State()) && idem.Valid() && cfg.maxAttempts >= 1
      ensures Valid() && this.cfg == cfg && this.circuits == circuits && this.retry == retry && this.idem == idem
    {
      this.cfg, this.circuits, this.retry, this.idem := cfg, circuits, retry, idem;
    }

    // ----- the breaker calls -----

    method AllowRoute(p: Provider, now: Time) returns (ok: bool)
      requires Valid() && p in circuits
      modifies circuits[p]
      ensures Valid()
      ensures var (c, granted) := B.Allow(CircuitOf(old(State()), p), now);
        ok == granted && State() == SetCircuit(old(State()), p, c)
    {
      hide B.Allow, C.Binary, B.Trailing;
      ok := circuits[p].Allow(now);
    }

    method ReleaseRoute(p: Provider)
      requires Valid() && p in circuits
      modifies circuits[p]
      ensures Valid() && State() == SetCircuit(old(State()), p, B.Release(CircuitOf(old(State()), p)))
    {
      hide C.Binary, B.Trailing;
      circuits[p].Release();
    }

    method ReportRoute(p: Provider, failed: bool, now: Time)
      requires Valid() && p in circuits
      modifies circuits[p]
      ensures Valid() && State() == SetCircuit(old(State()), p, B.Result(CircuitOf(old(State()), p), failed, now))
    {
      hide B.Result, C.Binary, B.Trailing;
      circuits[p].Result(failed, now);
    }

    method CoolRoute(p: Provider, wait: Time, now: Time)
      requires Valid() && p in circuits
      modifies circuits[p]
      ensures Valid() && State() == SetCircuit(old(State()), p, B.Cooldown(CircuitOf(old(State()), p), wait, now))
    {
      hide C.Binary, B.Trailing, B.Cooldown;
      circuits[p].Cooldown(wait, now);
    }

    // ----- paying what a verdict owes, one machine step each -----

    method PayRelease(p: Provider, now: Time, ghost start: Solo, ghost s: Solo) returns (ghost s': Solo)
      requires Valid() && p in circuits && Good(cfg, start, s) && s.sh == State() && ProviderOf(s.r) == p && s.clock <= now
      requires s.r.phase.Owing? && s.r.phase.owed != [] && s.r.phase.owed[0] == OweRelease
      modifies circuits[p]
      ensures Valid() && Good(cfg, start, s') && s'.sh == State() && s'.r == Paid(s.r) && s'.clock == now
      ensures State() == SetCircuit(old(State()), p, B.Release(CircuitOf(old(State()), p)))
    {
      AdvanceGood(cfg, start, s, OweIn(now));
      OweMeans(cfg, s, now);
      s' := Advance(cfg, s, OweIn(now));
      hide Good, Advance, B.Result, B.Cooldown, B.Release;
      ReleaseRoute(p);
    }

    method PayResult(p: Provider, failed: bool, now: Time, ghost start: Solo, ghost s: Solo) returns (ghost s': Solo)
      requires Valid() && p in circuits && Good(cfg, start, s) && s.sh == State() && ProviderOf(s.r) == p && s.clock <= now
      requires s.r.phase.Owing? && s.r.phase.owed != [] && s.r.phase.owed[0] == OweResult(failed)
      modifies circuits[p]
      ensures Valid() && Good(cfg, start, s') && s'.sh == State() && s'.r == Paid(s.r) && s'.clock == now
      ensures State() == SetCircuit(old(State()), p, B.Result(CircuitOf(old(State()), p), failed, now))
    {
      AdvanceGood(cfg, start, s, OweIn(now));
      OweMeans(cfg, s, now);
      s' := Advance(cfg, s, OweIn(now));
      hide Good, Advance, B.Result, B.Cooldown, B.Release;
      ReportRoute(p, failed, now);
    }

    method PayCooldown(p: Provider, wait: Time, now: Time, ghost start: Solo, ghost s: Solo) returns (ghost s': Solo)
      requires Valid() && p in circuits && Good(cfg, start, s) && s.sh == State() && ProviderOf(s.r) == p && s.clock <= now
      requires s.r.phase.Owing? && s.r.phase.owed != [] && s.r.phase.owed[0] == OweCooldown(wait)
      modifies circuits[p]
      ensures Valid() && Good(cfg, start, s') && s'.sh == State() && s'.r == Paid(s.r) && s'.clock == now
      ensures State() == SetCircuit(old(State()), p, B.Cooldown(CircuitOf(old(State()), p), wait, now))
    {
      AdvanceGood(cfg, start, s, OweIn(now));
      OweMeans(cfg, s, now);
      s' := Advance(cfg, s, OweIn(now));
      hide Good, Advance, B.Result, B.Cooldown, B.Release;
      CoolRoute(p, wait, now);
    }

    /** The switch on a refusal's class. */
    method SettleStatus(p: Provider, i: nat, attempts: nat, retried: set<nat>, code: int, exhausted: bool, wait: Time, now: Time,
                        ghost start: Solo, ghost s: Solo) returns (course: Course, ghost s': Solo)
      requires Valid() && p in circuits && Good(cfg, start, s) && s.sh == State() && ProviderOf(s.r) == p && s.clock <= now
      requires var v := JudgeStatus(cfg, Seen(i, attempts, retried), code, exhausted, wait); s.r.phase == Owing(v.owed, v.next)
      modifies circuits[p]
      ensures Valid() && Good(cfg, start, s') && s'.sh == State()
      ensures course == s.r.phase.next && s'.r == AfterOwed(s.r, course) && s'.clock == now
      ensures course.Stop? <==> !(code in {429, 503, 401, 403, 404} || (code in {400, 422} && exhausted))
      ensures course.Stop? ==> course.response == Problem(if code == 400 || code == 422 then 400 else 502)
      ensures course.Again? <==>
        code == 429 && !exhausted && 0.0 < wait <= cfg.repeatLimit && i !in retried && attempts < cfg.maxAttempts
      ensures CircuitOf(State(), p) ==
        AfterReply(CircuitOf(old(State()), p), Status(code, exhausted, false, wait), course.Again?, now, now)
    {
      hide Good, B.Result, B.Cooldown, B.Release, Valid;
      match F.Classify(code, exhausted) {
        case Account =>
          s' := PayCooldown(p, Max(wait, ACCOUNT_COOLDOWN), now, start, s);
          course := Onward;
        case RateLimit =>
          if cfg.repeatLimit > 0.0 && wait > 0.0 && wait <= cfg.repeatLimit && i !in retried && attempts < cfg.maxAttempts {
            s' := PayRelease(p, now, start, s);
            course := Again;
          } else {
            if wait > 0.0 {
              s' := PayCooldown(p, wait, now, start, s);
            } else {
              s' := PayRelease(p, now, start, s);
            }
            course := Onward;
          }
        case Degraded =>
          s' := PayResult(p, true, now, start, s);
          if wait > 0.0 {
            s' := PayCooldown(p, wait, now, start, s');
          }
          course := Onward;
        case Refused =>
          s' := PayCooldown(p, Max(wait, ACCOUNT_COOLDOWN), now, start, s);
          course := Onward;
        case Terminal =>
          if code == 400 || code == 422 {
            s' := PayRelease(p, now, start, s);
            course := Stop(Problem(400), Leave);
          } else {
            s' := PayResult(p, true, now, start, s);
            course := Stop(Problem(502), Leave);
          }
      }
    }

    /** What is done about a reply: the breaker is answered and the course decided. */
    method SettleReply(p: Provider, i: nat, attempts: nat, retried: set<nat>, reply: Reply, now: Time,
                       ghost start: Solo, ghost s: Solo) returns (course: Course, ghost s': Solo)
      requires Valid() && p in circuits && Good(cfg, start, s) && s.sh == State() && ProviderOf(s.r) == p && s.clock <= now
      requires var v := Judge(cfg, Seen(i, attempts, retried), reply); s.r.phase == Owing(v.owed, v.next)
      modifies circuits[p]
      ensures Valid() && Good(cfg, start, s') && s'.sh == State()
      ensures course == s.r.phase.next && s'.r == AfterOwed(s.r, course) && s'.clock == now
      ensures course.Stop? <==> !GoesOn(reply)
      ensures CircuitOf(State(), p) == AfterReply(CircuitOf(old(State()), p), reply, course.Again?, now, now)
    {
      hide Good, B.Result, B.Cooldown, B.Release, Valid;
      match reply {
        case Lost(callerGone) =>
          if callerGone {
            s' := PayRelease(p, now, start, s);
          } else {
            s' := PayResult(p, true, now, start, s);
          }
          course := Stop(Problem(502), SettleUnknown);
        case Status(code, exhausted, _, wait) =>
          course, s' := SettleStatus(p, i, attempts, retried, code, exhausted, wait, now, start, s);
        case Streamed(out) =>
          match out.ending {
            case Empty =>
              s' := PayResult(p, false, now, start, s);
              course := Onward;
            case Complete =>
              s' := PayResult(p, false, now, start, s);
              course := Stop(StreamAnswer(out), SettleDone(StreamText(out.text, out.finish)));
            case Broken =>
              s' := PayResult(p, true, now, start, s);
              course := Stop(StreamAnswer(out), SettleUnknown);
          }
        case Whole(text, finish, body) =>
          s' := PayResult(p, false, now, start, s);
          if finish == "length" && text == "" {
            course := Onward;
          } else {
            course := Stop(Answer(body), SettleDone(WholeBody(body)));
          }
        case _ =>
          s' := PayResult(p, true, now, start, s);
          course := Stop(Problem(502), SettleUnknown);
      }
    }

    /** Reads what the provider put on the wire; a stream is passed on to the client as it is read. */
    method Receive(w: World, n: nat) returns (reply: Reply)
      requires Lawful(w)
      ensures WellFormed(reply)
      ensures match w.wire(n)
        case Plain(r) => reply == r
        case Bytes(openai, input, cut, room) =>
          && reply.Streamed? && S.AsPromised(openai, P.FramesOf(w.decode, P.Payloads(input, cut)), room, reply.out)
          && P.ReadAsSaid(openai, w.decode, P.Payloads(input, cut), reply.out)
        case Events(events, room) => reply.Streamed? && K.AsEventsSay(events, BEDROCK_LIMIT, room, reply.out)
    {
      match w.wire(n)
      case Plain(r) => reply := r;
      case Bytes(openai, input, cut, room) =>
        var out := P.StreamBytes(openai, w.decode, input, cut, room);
        reply := Streamed(out);
      case Events(events, room) =>
        var out := K.StreamEvents(events, BEDROCK_LIMIT, room);
        reply := Streamed(out);
    }

    /** One send and its reply. */
    method SendOnce(w: World, n: nat, i: nat, resend: bool, temperature: bool, log: seq<Send>,
                    ghost start: Solo, ghost s: Solo) returns (temp: bool, reply: Reply, log': seq<Send>, ghost s': Solo)
      requires Lawful(w) && Good(cfg, start, s) && s.r.phase == Build(resend) && w.built(n)
      requires s.r.i == i && s.r.temperature == temperature && s.r.log == log
      ensures WellFormed(reply) && Good(cfg, start, s') && s'.sh == s.sh && s'.clock == s.clock && log' == s'.r.log
      ensures temp == (!resend && temperature && !w.omit(n)) && log' == log + [Send(i, temp, resend, Some(reply))]
      ensures s'.r == StepReply(cfg, StepBuild(s.r, resend, true, w.omit(n)), temp, reply)
    {
      hide Good, Lawful, Judge;
      temp := !resend && temperature && !w.omit(n);
      reply := Receive(w, n);
      log' := log + [Send(i, temp, resend, Some(reply))];
      SendMeans(cfg, start, s, resend, w.omit(n), temp, reply);
      s' := Advance(cfg, Advance(cfg, s, BuildIn(true, w.omit(n))), ReplyIn(reply));
      hide Advance, StepReply, StepBuild;
    }

    /** A request that could not be built ends the loop, with the breaker's claim still to be given back. */
    ghost method NotBuilt(start: Solo, s: Solo) returns (s': Solo)
      requires Good(cfg, start, s) && s.r.phase.Build?
      ensures Good(cfg, start, s') && s'.sh == s.sh && s'.clock == s.clock && s'.r.log == s.r.log
      ensures SameRequest(s.r, s'.r) && s'.r.attempts == s.r.attempts + (if s.r.phase.resend then 0 else 1)
      ensures s'.r.phase == Owing([OweRelease], Stop(Problem(500), Leave)) && s'.r.retried == s.r.retried
    {
      AdvanceGood(cfg, start, s, BuildIn(false, false));
      s' := Advance(cfg, s, BuildIn(false, false));
      hide Good;
    }

    /** One attempt on the current route, with the immediate resend when the provider names the temperature. */
    method Attempt(w: World, n: nat, i: nat, temperature: bool, log: seq<Send>, ghost start: Solo, ghost s: Solo)
      returns (n': nat, reply: Option<Reply>, log': seq<Send>, ghost s': Solo)
      requires Lawful(w) && Good(cfg, start, s) && s.r.phase == Build(false)
      requires s.r.i == i && s.r.temperature == temperature && s.r.log == log
      ensures Good(cfg, start, s') && s'.sh == s.sh && s'.clock == s.clock && log' == s'.r.log && n' > n
      ensures SameRequest(s.r, s'.r) && s'.r.attempts == s.r.attempts + 1
      ensures Extends(log, log', i) && (reply.Some? ==> |log'| > |log|) && (reply.None? ==> exists m :: !w.built(m))
      ensures reply.None? ==> s'.r.phase == Owing([OweRelease], Stop(Problem(500), Leave)) && s'.r.retried == s.r.retried
      ensures reply.Some? ==>
        var v := Judge(cfg, Seen(i, s.r.attempts + 1, s.r.retried), reply.value);
        s'.r.phase == Owing(v.owed, v.next) && s'.r.retried == if v.next.Again? then s.r.retried + {i} else s.r.retried
    {
      hide Good, Lawful, Judge, StepReply, StepBuild, F.RejectsTemperature;
      n', log', reply := n + 1, log, None;
      if !w.built(n) {
        s' := NotBuilt(start, s);
        return;
      }
      var temp, first;
      temp, first, log', s' := SendOnce(w, n, i, false, temperature, log, start, s);
      SentMeans(cfg, s.r, false, w.omit(n), temp, first);
      if temp && first.Status? && F.RejectsTemperature(first.code, first.temperature) {
        if !w.built(n') {
          s' := NotBuilt(start, s');
          n' := n' + 1;
          return;
        }
        var resent, second;
        ghost var mid := s'.r;
        resent, second, log', s' := SendOnce(w, n', i, true, temperature, log', start, s');
        SentMeans(cfg, mid, true, w.omit(n'), resent, second);
        n' := n' + 1;
        return n', Some(second), log', s';
      }
      return n', Some(first), log', s';
    }

    /** An attempt and what is done about its reply. */
    method AttemptAndSettle(w: World, n: nat, p: Provider, i: nat, attempts: nat, retried: set<nat>,
                            temperature: bool, log: seq<Send>, ghost start: Solo, ghost s: Solo)
      returns (n': nat, log': seq<Send>, course: Course, ghost s': Solo)
      requires Valid() && Lawful(w) && p in circuits && s.clock <= w.clock(n)
      requires Good(cfg, start, s) && s.sh == State() && ProviderOf(s.r) == p && s.r.phase == Build(false)
      requires s.r.i == i && s.r.attempts == attempts && s.r.retried == retried && s.r.temperature == temperature && s.r.log == log
      modifies circuits[p]
      ensures Valid() && Good(cfg, start, s') && s'.sh == State() && n' > n && s'.clock == w.clock(n')
      ensures SameKey(s.r, s'.r) && s'.r.attempts == attempts + 1 && s'.r.log == log'
      ensures Landed(course, i, retried, s'.r)
      ensures Extends(log, log', i) && (!course.Stop? ==> |log'| > |log|)
      ensures course.Stop? ==> Excused(cfg, w, State(), attempts + 1, course.response)
    {
      hide Good, Judge, GoesOn, Excused, Extends, B.Result, B.Cooldown, B.Release, C.Binary, B.Trailing;
      var reply;
      n', reply, log', s' := Attempt(w, n, i, temperature, log, start, s);
      ClockForward(w, n, n');
      if reply.None? {
        s' := PayRelease(p, w.clock(n'), start, s');
        course := Stop(Problem(500), Leave);
        UnbuiltExcuses(cfg, w, State(), attempts + 1);
        return;
      }
      course, s' := SettleReply(p, i, attempts + 1, retried, reply.value, w.clock(n'), start, s');
      RepeatIsFirst(cfg, i, attempts + 1, retried, reply.value);
      JudgeGoesOnIff(cfg, Seen(i, attempts + 1, retried), reply.value);
      if course.Stop? { FinalReplyExcuses(cfg, w, State(), Seen(i, attempts + 1, retried), reply.value); }
    }

    /** From a granted breaker claim to the end of the loop body. */
    method Admitted(w: World, n: nat, p: Provider, i: nat, attempts: nat, retried: set<nat>,
                    temperature: bool, log: seq<Send>, ghost start: Solo, ghost s: Solo)
      returns (n': nat, attempts': nat, log': seq<Send>, course: Course, ghost s': Solo)
      requires Valid() && Lawful(w) && p in circuits && retry.last <= w.clock(n) && s.clock <= w.clock(n)
      requires Good(cfg, start, s) && s.sh == State() && ProviderOf(s.r) == p
      requires s.r.phase == (if attempts > 0 then Token else Build(false))
      requires s.r.i == i && s.r.attempts == attempts && s.r.retried == retried && s.r.temperature == temperature && s.r.log == log
      modifies circuits[p], retry
      ensures Valid() && Good(cfg, start, s') && s'.sh == State() && n' >= n && retry.last <= w.clock(n') && s'.clock <= w.clock(n')
      ensures SameKey(s.r, s'.r) && s'.r.attempts == attempts' && s'.r.log == log' && attempts' > 0 && attempts <= attempts'
      ensures Landed(course, i, retried, s'.r)
      ensures Extends(log, log', i) && (!course.Stop? ==> |log'| > |log|)
      ensures course.Stop? ==> Excused(cfg, w, State(), attempts', course.response)
    {
      hide Good, Valid;
      n', attempts', log', s' := n, attempts, log, s;
      if attempts > 0 {
        var granted, stop;
        granted, stop, s' := TakeToken(w, n, p, start, s);
        if !granted {
          return n, attempts, log, stop, s';
        }
      }
      attempts' := attempts + 1;
      n', log', course, s' := AttemptAndSettle(w, n, p, i, attempts, retried, temperature, log, start, s');
      ClockForward(w, n, n');
    }

    /** The loop's tests before a route is attempted, ending with the breaker's claim. */
    method Gate(w: World, n: nat, routes: seq<Route>, skip: set<nat>, i: nat, attempts: nat, ghost start: Solo, ghost s: Solo)
      returns (course: Option<Course>, ghost s': Solo)
      requires Valid() && Good(cfg, start, s) && s.sh == State() && s.r.phase == Head && s.clock <= w.clock(n)
      requires i < |routes| && routes[i].provider in circuits
      requires s.r.routes == routes && s.r.skip == skip && s.r.i == i && s.r.attempts == attempts
      modifies circuits[routes[i].provider]
      ensures Valid() && Good(cfg, start, s') && s'.sh == State() && s'.clock == w.clock(n)
      ensures course == Some(Onward) ==> s'.r == s.r.(i := i + 1) && State() == old(State())
      ensures course.Some? && course != Some(Onward) ==>
        && attempts > 0 && course.value.Stop? && s'.r == At(s.r, Closing(course.value.response, course.value.settle))
        && course.value.response == Problem(503) && attempts >= cfg.maxAttempts
      ensures course.None? ==> s'.r == At(s.r, if attempts > 0 then Token else Build(false))
      ensures course == Some(Onward) && routes[i].provider in cfg.configured && i !in skip ==>
        !B.WouldAllow(CircuitOf(old(State()), routes[i].provider), w.clock(n))
    {
      var p := routes[i].provider;
      AdvanceGood(cfg, start, s, HeadIn(w.clock(n)));
      s' := Advance(cfg, s, HeadIn(w.clock(n)));
      HeadStep(cfg, s, w.clock(n));
      assert cfg.maxAttempts >= 1;
      hide Good, Advance, B.Allow, B.WouldAllow, C.Binary, B.Trailing;
      if p !in cfg.configured {
        return Some(Onward), s';
      }
      if i in skip {
        return Some(Onward), s';
      }
      if attempts >= cfg.maxAttempts {
        return Some(Stop(Problem(503), Leave)), s';
      }
      hide Valid;
      var ok := AllowRoute(p, w.clock(n));
      if !ok {
        assert State() == old(State());
        return Some(Onward), s';
      }
      return None, s';
    }

    /** One pass of the loop body at a route. */
    method Visit(w: World, n: nat, routes: seq<Route>, skip: set<nat>, i: nat, attempts: nat, retried: set<nat>,
                 temperature: bool, log: seq<Send>, ghost start: Solo, ghost s: Solo)
      returns (n': nat, attempts': nat, log': seq<Send>, course: Course, ghost s': Solo)
      requires Valid() && Lawful(w) && retry.last <= w.clock(n) && s.clock <= w.clock(n)
      requires Good(cfg, start, s) && s.sh == State() && s.r.phase == Head
      requires i < |routes| && routes[i].provider in circuits
      requires s.r.routes == routes && s.r.skip == skip && s.r.i == i && s.r.attempts == attempts && s.r.retried == retried
      requires s.r.temperature == temperature && s.r.log == log
      modifies circuits[routes[i].provider], retry
      ensures Valid() && Good(cfg, start, s') && s'.sh == State() && n' > n && retry.last <= w.clock(n') && s'.clock <= w.clock(n')
      ensures SameKey(s.r, s'.r) && s'.r.attempts == attempts' && s'.r.log == log' && attempts <= attempts'
      ensures Landed(course, i, retried, s'.r)
      ensures Extends(log, log', i) && (course.Again? ==> |log'| > |log|)
      ensures course.Onward? && i !in skip && Routable(cfg, old(State()), routes, i, w.clock(n)) ==> |log'| > |log|
      ensures course.Stop? ==> Excused(cfg, w, State(), attempts', course.response)
      ensures attempts' == 0 ==> course.Onward? && State() == old(State())
      ensures attempts' == 0 && routes[i].provider in cfg.configured && i !in skip ==>
        !B.WouldAllow(CircuitOf(old(State()), routes[i].provider), w.clock(n))
    {
      hide Good, Valid, B.WouldAllow;
      n', attempts', log' := n + 1, attempts, log;
      ClockForward(w, n, n + 1);
      var passed;
      passed, s' := Gate(w, n, routes, skip, i, attempts, start, s);
      if passed.Some? {
        course := passed.value;
        return;
      }
      n', attempts', log', course, s' := Admitted(w, n + 1, routes[i].provider, i, attempts, retried, temperature, log, start, s');
    }

    /** The retry budget and the short jittered wait before an attempt beyond the first. */
    method TakeToken(w: World, n: nat, p: Provider, ghost start: Solo, ghost s: Solo)
      returns (granted: bool, stop: Course, ghost s': Solo)
      requires Valid() && Lawful(w) && p in circuits && retry.last <= w.clock(n) && s.clock <= w.clock(n)
      requires Good(cfg, start, s) && s.sh == State() && s.r.phase == Token && ProviderOf(s.r) == p
      modifies circuits[p], retry
      ensures Valid() && Good(cfg, start, s') && s'.sh == State() && retry.last <= w.clock(n) && s'.clock == w.clock(n)
      ensures granted ==> s'.r == At(s.r, Build(false))
      ensures !granted ==> stop.Stop? && s'.r == At(s.r, Closing(stop.response, stop.settle))
      ensures !granted ==> forall attempts: nat :: Excused(cfg, w, State(), attempts, stop.response)
    {
      hide Good, Valid, Lawful, B.Release, T.Take;
      TokenMeans(cfg, s, w.clock(n));
      AdvanceGood(cfg, start, s, TokenIn(w.clock(n)));
      s' := Advance(cfg, s, TokenIn(w.clock(n)));
      stop := Stop(Problem(503), Leave);
      granted := TakeRetry(w.clock(n));
      if !granted {
        s' := PayRelease(p, w.clock(n), start, s');
        return;
      }
      AdvanceGood(cfg, start, s', JitterIn(w.cancelled(n)));
      s' := Advance(cfg, s', JitterIn(w.cancelled(n)));
      if w.cancelled(n) {
        s' := PayRelease(p, w.clock(n), start, s');
        granted, stop := false, Stop(Problem(504), Leave);
      }
    }

    method TakeRetry(now: Time) returns (ok: bool)
      requires Valid() && retry.last <= now
      modifies retry
      ensures Valid() && retry.last == now
      ensures var (b, granted) := T.Take(old(State()).retry, now); ok == granted && State() == old(State()).(retry := b)
    {
      hide C.Binary, B.Trailing;
      ok := retry.Allow(now);
    }

    // ----- the request -----

    method WouldRoute(w: World, n: nat, routes: seq<Route>, i: nat) returns (would: bool)
      requires Valid() && i < |routes| && routes[i].provider in circuits
      ensures Valid() && (would <==> Counted(cfg, State(), routes, w, n, i))
    {
      if routes[i].provider !in cfg.configured {
        return false;
      }
      would := circuits[routes[i].provider].WouldAllow(w.clock(n + i));
    }

    /** The counting pass: passes hinted routes over unless that would leave nobody to ask. */
    method PrePass(w: World, n: nat, routes: seq<Route>) returns (skip: set<nat>)
      requires Valid() && forall k :: 0 <= k < |routes| ==> routes[k].provider in circuits
      ensures forall k: nat :: k in skip <==> PassedOver(cfg, State(), routes, w, n, k)
      ensures (exists k :: Counted(cfg, State(), routes, w, n, k)) ==>
        exists k :: Counted(cfg, State(), routes, w, n, k) && k !in skip
    {
      hide Eligible, Passed, PassedOver, Counted, Valid;
      EligibleNone(cfg, State(), routes, w, n);
      skip := {};
      var eligible := 0;
      ghost var sh := State();
      for i := 0 to |routes|
        invariant Valid() && sh == State()
        invariant eligible == |Eligible(cfg, sh, routes, w, n, i)| && skip == Passed(cfg, sh, routes, w, n, i)
      {
        EligibleStep(cfg, sh, routes, w, n, i);
        var would := WouldRoute(w, n, routes, i);
        if would {
          eligible := eligible + 1;
          if w.hinted(routes[i]) {
            skip := skip + {i};
          }
        }
      }
      SomeoneLeft(cfg, sh, routes, w, n);
      PassedIsExact(cfg, sh, routes, w, n);
      if |skip| == eligible {
        skip := {};
      }
    }

    method FinishKey(key: string, e: Entry, size: nat, now: Time)
      requires Valid() && size > 0
      modifies idem
      ensures Valid()
      ensures State() == if old(idem.Admits(key, size)) then old(State()).(store := old(State()).store[key := e]) else old(State())
      ensures old(idem.Admits(key, size)) ==> key in idem.files && idem.files[key].stored == now.Floor
    {
      hide C.Binary, B.Trailing;
      idem.Finish(key, e, size, now);
      assert State() == old(State()).(store := idem.Entries());
      hide Valid;
    }

    method ReleaseKey(key: string)
      requires Valid()
      modifies idem
      ensures Valid() && State() == old(State()).(store := old(State()).store - {key})
    {
      hide C.Binary, B.Trailing;
      idem.Release(key);
    }

    method ClaimKey(key: string, hash: string, size: nat, now: Time) returns (begun: I.Begun)
      requires Valid() && size > 0
      modifies idem
      ensures Valid() && (begun == I.NotStored <==> !old(idem.Admits(key, size)))
      ensures forall r: Request :: r.key == Some(key) && r.hash == hash ==>
        StepBegin(r, old(State()), begun != I.NotStored, !old(idem.Unexpired(key, now))) == (At(r, I.PhaseAfter(begun)), State())
    {
      hide C.Binary, B.Trailing;
      begun := idem.Begin(key, hash, size, now);
      assert State() == old(State()).(store := idem.Entries());
      hide Valid;
    }

    /** Records the outcome under the key, or gives the key back. */
    method CloseKey(w: World, now: Time, key: Option<string>, hash: string, response: Response, settle: Settlement,
                    ghost start: Solo, ghost s: Solo) returns (ghost s': Solo)
      requires Valid() && Lawful(w) && Good(cfg, start, s) && s.sh == State()
      requires s.r.phase == Closing(response, settle) && s.r.key == key && s.r.hash == hash
      modifies idem
      ensures Valid() && Good(cfg, start, s') && s'.sh == State() && s'.r == At(s.r, Finished(response)) && s'.clock == s.clock
      ensures key.Some? && key.value in old(State()).store ==>
        State().store == SettledStore(old(State()).store - {key.value}, key.value, hash, settle)
      ensures key.Some? ==> State().store - {key.value} == old(State()).store - {key.value}
      ensures key.None? ==> State().store == old(State()).store
      ensures key.Some? && settle != Leave && key.value in old(State()).store ==>
        key.value in idem.files && idem.files[key.value].stored == now.Floor
    {
      var e := EntryFor(hash, settle);
      ghost var close := CloseIn(key.None? || e.None? || idem.Admits(key.value, w.size(e.value)));
      CloseMeans(cfg, s, response, settle, close.admit);
      hide Good, Valid, Advance;
      AdvanceGood(cfg, start, s, close);
      s' := Advance(cfg, s, close);
      if key.Some? {
        OnlyThisKey(s.sh.store, key.value, hash, settle);
        if e.None? {
          ReleaseKey(key.value);
        } else {
          FinishKey(key.value, e.value, w.size(e.value), now);
        }
        hide State, SettledStore, EntryFor;
      }
    }

    lemma OtherCircuits(p: Provider)
      requires Valid() && p in circuits
      ensures forall q :: q in circuits && q != p ==> circuits[q] != circuits[p]
    {}

    /** One turn of the loop: on to the next route, the same one again after its wait, or an end. */
    method Round(w: World, n: nat, routes: seq<Route>, skip: set<nat>, i: nat, attempts: nat, retried: set<nat>,
                 temperature: bool, log: seq<Send>, ghost start: Solo, ghost s: Solo)
      returns (n': nat, i': nat, attempts': nat, retried': set<nat>, log': seq<Send>, stop: Option<Course>, ghost s': Solo)
      requires Valid() && Lawful(w) && retry.last <= w.clock(n) && s.clock <= w.clock(n)
      requires Good(cfg, start, s) && s.sh == State() && s.r.phase == Head
      requires i < |routes| && routes[i].provider in circuits
      requires s.r.routes == routes && s.r.skip == skip && s.r.i == i && s.r.attempts == attempts && s.r.retried == retried
      requires s.r.temperature == temperature && s.r.log == log
      modifies circuits[routes[i].provider], retry
      ensures Valid() && Good(cfg, start, s') && s'.sh == State() && n' > n && retry.last <= w.clock(n') && s'.clock <= w.clock(n')
      ensures SameKey(s.r, s'.r) && s'.r.attempts == attempts' && s'.r.log == log' && attempts <= attempts'
      ensures stop.None? ==> s'.r.phase == Head && s'.r.i == i' && s'.r.retried == retried'
      ensures stop.Some? ==> stop.value.Stop? && s'.r.phase == Closing(stop.value.response, stop.value.settle)
      ensures i' <= |routes|
      ensures stop.None? ==> (i' == i + 1 && retried' == retried) || (i' == i && i !in retried && retried' == retried + {i})
      ensures Extends(log, log', i) && (i' == i || i' == i + 1) && (stop.None? && i' == i ==> |log'| > |log|)
      ensures i' == i + 1 && i !in skip && Routable(cfg, old(State()), routes, i, w.clock(n)) ==> |log'| > |log|
      ensures OnlyProvider(old(State()), State(), routes[i].provider)
      ensures stop.Some? ==> i' == i && Excused(cfg, w, State(), attempts', stop.value.response)
      ensures attempts' == 0 ==> stop.None? && i' == i + 1 && State() == old(State())
      ensures attempts' == 0 && routes[i].provider in cfg.configured && i !in skip ==>
        !B.WouldAllow(CircuitOf(old(State()), routes[i].provider), w.clock(n))
    {
      OtherCircuits(routes[i].provider);
      hide Good, Valid, B.WouldAllow;
      var course;
      i', retried', stop := i, retried, None;
      n', attempts', log', course, s' := Visit(w, n, routes, skip, i, attempts, retried, temperature, log, start, s);
      if course.Again? {
        retried' := retried + {i};
        AdvanceGood(cfg, start, s', PauseIn(w.cancelled(n')));
        s' := Advance(cfg, s', PauseIn(w.cancelled(n')));
        if w.cancelled(n') {
          stop := Some(Stop(Problem(504), Leave));
        }
      } else if course.Stop? {
        stop := Some(course);
      } else {
        i' := i + 1;
      }
    }

    /** The routing loop, from the first route to the response it decides on. */
    method RouteLoop(w: World, n: nat, routes: seq<Route>, skip: set<nat>, temperature: bool, ghost start: Solo, ghost s: Solo)
      returns (n': nat, response: Response, settle: Settlement, log: seq<Send>, ghost s': Solo)
      requires Valid() && Lawful(w) && retry.last <= w.clock(n) && s.clock <= w.clock(n)
      requires forall k :: 0 <= k < |routes| ==> routes[k].provider in circuits
      requires Good(cfg, start, s) && s.sh == State() && s.r.phase == Head && s.r.i == 0 && s.r.attempts == 0
      requires s.r.routes == routes && s.r.skip == skip && s.r.retried == {} && s.r.temperature == temperature && s.r.log == []
      modifies Objects() - {idem}
      ensures Valid() && Good(cfg, start, s') && s'.sh == State() && SameKey(s.r, s'.r) && n <= n'
      ensures s'.clock <= w.clock(n') && retry.last <= w.clock(n')
      ensures s'.r.phase == Closing(response, settle) && s'.r.log == log
      ensures (exists k :: k !in skip && Routable(cfg, old(State()), routes, k, w.clock(n))) ==> s'.r.attempts > 0
      ensures DistinctProviders(routes) ==>
        AskedInTurn(cfg, w, old(State()), State(), routes, skip, w.clock(n), log, s'.r.attempts, response)
    {
      hide Good, Valid, B.WouldAllow, OnlyProvider, Extends, Going, Excused, DistinctProviders, AskedInTurn;
      ghost var sh := State();
      GoingStarts(cfg, sh, routes, skip, w.clock(n));
      var i: nat, attempts: nat, retried: set<nat> := 0, 0, {};
      var stop: Option<Course> := None;
      n', log, s' := n, [], s;
      while i < |routes| && stop.None?
        invariant Valid() && n <= n' && retry.last <= w.clock(n') && s'.clock <= w.clock(n') && i <= |routes|
        invariant Good(cfg, start, s') && s'.sh == State() && SameKey(s.r, s'.r)
        invariant s'.r.attempts == attempts && s'.r.log == log
        invariant stop.None? ==> s'.r.phase == Head && s'.r.i == i && s'.r.retried == retried
        invariant stop.Some? ==> stop.value.Stop? && s'.r.phase == Closing(stop.value.response, stop.value.settle)
        invariant stop.Some? ==> Excused(cfg, w, State(), attempts, stop.value.response)
        invariant DistinctProviders(routes) ==> Going(cfg, sh, State(), routes, skip, log, i, stop.Some?, w.clock(n))
        invariant attempts == 0 ==> State() == sh && stop.None?
        invariant attempts == 0 ==> forall k :: 0 <= k < i && k !in skip ==> !Routable(cfg, sh, routes, k, w.clock(n))
        decreases stop.None?, set k: nat | k < |routes| && k !in retried, |routes| - i
      {
        ghost var m := n';
        ghost var untried := set k: nat | k < |routes| && k !in retried;
        assert i !in retried ==> i in untried;
        ghost var before, sofar, here := State(), log, i;
        ClockForward(w, n, m);
        n', i, attempts, retried, log, stop, s' :=
          Round(w, n', routes, skip, i, attempts, retried, temperature, log, start, s');
        RoutableLater(cfg, sh, routes, if attempts == 0 then i - 1 else 0, w, n, m);
        if DistinctProviders(routes) {
          GoingOn(cfg, sh, before, State(), routes, skip, sofar, log, here, i, stop.Some?, w.clock(n), w.clock(m));
        }
      }
      if DistinctProviders(routes) {
        GoingEnds(cfg, w, sh, State(), routes, skip, w.clock(n), log, i, attempts, stop);
      }
      if stop.None? {
        AdvanceGood(cfg, start, s', HeadIn(w.clock(n')));
        s' := Advance(cfg, s', HeadIn(w.clock(n')));
        stop := Some(Stop(Problem(503), Leave));
      }
      response, settle := stop.value.response, stop.value.settle;
    }

    /** A whole request.  Policy providers are the four the gateway has circuits for. */
    method Chat(w: World, key: Option<string>, hash: string, temperature: bool, routes: Option<seq<Route>>)
      returns (response: Response, log: seq<Send>, ghost last: nat, ghost start: Solo, ghost s: Solo)
      requires Valid() && Lawful(w) && retry.last <= w.clock(0)
      requires routes.Some? ==> forall k :: 0 <= k < |routes.value| ==> routes.value[k].provider in circuits
      modifies Objects()
      ensures Valid() && s.clock <= w.clock(last) && retry.last <= w.clock(last)
      // The loop is a run of the routing machine, from a fresh request to its end.
      ensures start == Solo(Fresh(key, hash, temperature), old(State()), [], w.clock(0)) && s.sh == State()
      ensures Play(cfg, start.r, start.sh, s.trace) == Some((s.r, s.sh))
      ensures Timed(start.clock, s.trace) && s.clock == LastTime(start.clock, s.trace)
      ensures s.r.phase == Finished(response) && s.r.log == log
      // So every send after the first was safe, and there were few of them.
      ensures NoUnsafeReplay(log) && s.r.attempts <= cfg.maxAttempts && |log| <= 2 * s.r.attempts
      // A key that was already settled or in use, and has not expired, sends nothing.
      ensures old(Live(key, w.clock(0))) ==> log == [] && s.sh == start.sh && response == Recalled(start.sh.store[key.value], hash)
      ensures !old(Live(key, w.clock(0))) && routes.None? ==> log == [] && response == Problem(503)
      // Whatever the hints say, someone is asked if anyone can be.
      ensures !old(Live(key, w.clock(0))) && routes.Some? && (exists k :: Counted(cfg, start.sh, routes.value, w, 1, k)) ==>
        s.r.attempts > 0
      // Hinted routes are passed over exactly while another can be asked; only configured routes not passed over are
      // sent to, in order; and the response is the one the last reply calls for.
      ensures InOrder(cfg, s.r) && EndsWith(log, response)
      ensures !old(Live(key, w.clock(0))) && routes.Some? ==>
        s.r.routes == routes.value && forall k: nat :: k in s.r.skip <==> PassedOver(cfg, start.sh, routes.value, w, 1, k)
      // It fails over: no route that could be asked is left out while there are attempts and tokens.
      ensures !old(Live(key, w.clock(0))) && routes.Some? && DistinctProviders(routes.value) ==>
        FailsOver(cfg, w, start.sh, s.sh, routes.value, log, s.r.attempts, response)
      // And the key is settled as the last reply demands, if the store had room for it; no other key is touched.
      ensures key.Some? && !old(Live(key, w.clock(0))) && old(idem.Admits(key.value, w.size(Running(hash)))) ==>
        s.sh.store == SettledStore(start.sh.store - {key.value}, key.value, hash, Due(log))
      ensures key.Some? && !old(Live(key, w.clock(0))) && old(idem.Admits(key.value, w.size(Running(hash)))) && Due(log) != Leave ==>
        key.value in idem.files && s.clock.Floor <= idem.files[key.value].stored
      ensures key.Some? ==> s.sh.store - {key.value} == start.sh.store - {key.value}
      ensures key.None? ==> s.sh.store == start.sh.store
    {
      start := Solo(Fresh(key, hash, temperature), State(), [], w.clock(0));
      FreshGood(cfg, start);
      FreshSteered(cfg, key, hash, temperature);
      hide Good, Valid, Counted, NoUnsafeReplay, Due, SettledStore, Play, Lawful, Timed, LastTime;
      hide Steered, InOrder, EndsWith, PassedOver, FailsOver, DistinctProviders;
      s := start;
      var early;
      early, s := BeginKey(w, key, hash, start, s);
      GoodSays(cfg, start, s);
      if early.Some? {
        PlaySteered(cfg, start.r, start.sh, s.trace);
        return early.value, [], 0, start, s;
      }
      if routes.Some? {
        CountedByCircuits(cfg, start.sh, State(), routes.value, w, 1);
        PassedOverByCircuits(cfg, start.sh, State(), routes.value, w);
      }
      if key.Some? { ClaimedThenSettled(start.sh.store, key.value, hash); }
      ghost var begun := State();
      response, log, last, s := Fulfil(w, key, hash, temperature, routes, start, s);
      GoodSays(cfg, start, s);
      PlaySteered(cfg, start.r, start.sh, s.trace);
      if routes.Some? && DistinctProviders(routes.value) {
        FailsOverByCircuits(cfg, w, begun, start.sh, s.sh, routes.value, log, s.r.attempts, response);
      }
    }

    /** From the claimed key to the response and the settlement. */
    method Fulfil(w: World, key: Option<string>, hash: string, temperature: bool, routes: Option<seq<Route>>,
                  ghost start: Solo, ghost s: Solo) returns (response: Response, log: seq<Send>, ghost last: nat, ghost s': Solo)
      requires Valid() && Lawful(w) && retry.last <= w.clock(0) && s.clock <= w.clock(0)
      requires routes.Some? ==> forall k :: 0 <= k < |routes.value| ==> routes.value[k].provider in circuits
      requires Good(cfg, start, s) && s.sh == State() && s.r.phase == Scan
      requires s.r.key == key && s.r.hash == hash && s.r.temperature == temperature
      modifies Objects()
      ensures Valid() && Good(cfg, start, s') && s'.sh == State()
      ensures s'.r.phase == Finished(response) && s'.r.log == log
      ensures s'.clock <= w.clock(last) && retry.last <= w.clock(last)
      ensures routes.Some? && (exists k :: Counted(cfg, old(State()), routes.value, w, 1, k)) ==> s'.r.attempts > 0
      ensures routes.None? ==> log == [] && response == Problem(503)
      ensures routes.Some? ==>
        s'.r.routes == routes.value && forall k: nat :: k in s'.r.skip <==> PassedOver(cfg, old(State()), routes.value, w, 1, k)
      ensures routes.Some? && DistinctProviders(routes.value) ==>
        FailsOver(cfg, w, old(State()), State(), routes.value, log, s'.r.attempts, response)
      ensures key.Some? && key.value in old(State()).store ==>
        State().store == SettledStore(old(State()).store - {key.value}, key.value, hash, Due(log))
      ensures key.Some? && key.value in old(State()).store && Due(log) != Leave ==>
        key.value in idem.files && s'.clock.Floor <= idem.files[key.value].stored
      ensures key.Some? ==> State().store - {key.value} == old(State()).store - {key.value}
      ensures key.None? ==> State().store == old(State()).store
    {
      hide Good, Valid, Counted, Due, SettledStore, Lawful, PassedOver, DistinctProviders, FailsOver;
      var n, settle;
      n, response, settle, log, s' := Plan(w, temperature, routes, start, s);
      ghost var planned := State();
      last := n;
      GoodSays(cfg, start, s');
      hide Play, Timed, LastTime, NoUnsafeReplay;
      s' := CloseKey(w, w.clock(n), key, hash, response, settle, start, s');
      if routes.Some? && DistinctProviders(routes.value) {
        FailsOverStill(cfg, w, old(State()), planned, State(), routes.value, log, s'.r.attempts, response);
      }
    }

    /** Plans the routes and runs the loop over them; without a live policy there are none. */
    method Plan(w: World, temperature: bool, routes: Option<seq<Route>>, ghost start: Solo, ghost s: Solo)
      returns (n: nat, response: Response, settle: Settlement, log: seq<Send>, ghost s': Solo)
      requires Valid() && Lawful(w) && retry.last <= w.clock(0) && s.clock <= w.clock(0)
      requires routes.Some? ==> forall k :: 0 <= k < |routes.value| ==> routes.value[k].provider in circuits
      requires Good(cfg, start, s) && s.sh == State() && s.r.phase == Scan && s.r.temperature == temperature
      modifies Objects() - {idem}
      ensures Valid() && Good(cfg, start, s') && s'.sh == State() && s'.r.key == s.r.key && s'.r.hash == s.r.hash
      ensures s'.clock <= w.clock(n) && retry.last <= w.clock(n)
      ensures s'.r.phase == Closing(response, settle) && s'.r.log == log && State().store == old(State()).store
      ensures (routes.Some? && exists k :: Counted(cfg, old(State()), routes.value, w, 1, k)) ==> s'.r.attempts > 0
      ensures routes.None? ==> log == [] && response == Problem(503)
      ensures routes.Some? ==>
        s'.r.routes == routes.value && forall k: nat :: k in s'.r.skip <==> PassedOver(cfg, old(State()), routes.value, w, 1, k)
      ensures routes.Some? && DistinctProviders(routes.value) ==>
        FailsOver(cfg, w, old(State()), State(), routes.value, log, s'.r.attempts, response)
    {
      hide Good, Valid, Advance, Counted, Routable, FailsOver, AskedInTurn, PassedOver, DistinctProviders;
      ScanFresh(cfg, start, s);
      if routes.None? {
        ScanMeans(cfg, s, None, {});
        AdvanceGood(cfg, start, s, ScanIn(None, {}));
        s' := Advance(cfg, s, ScanIn(None, {}));
        return 0, Problem(503), Leave, [], s';
      }
      var rs := routes.value;
      var skip := PrePass(w, 1, rs);
      ScanMeans(cfg, s, routes, skip);
      AdvanceGood(cfg, start, s, ScanIn(routes, skip));
      s' := Advance(cfg, s, ScanIn(routes, skip));
      n := 1 + |rs|;
      ghost var sh := State();
      CountedIsRoutable(cfg, sh, rs, w);
      ClockForward(w, 0, n);
      ghost var begun := w.clock(n);
      n, response, settle, log, s' := RouteLoop(w, n, rs, skip, temperature, start, s');
      if DistinctProviders(rs) {
        AskedInTurnFailsOver(cfg, w, sh, State(), rs, skip, begun, log, s'.r.attempts, response);
      }
    }

    /** Claims the key, or ends the request with what the store says about it. */
    method BeginKey(w: World, key: Option<string>, hash: string, ghost start: Solo, ghost s: Solo)
      returns (early: Option<Response>, ghost s': Solo)
      requires Valid() && Lawful(w) && Good(cfg, start, s) && s.sh == State()
      requires s.r.phase == Begin && s.r.key == key && s.r.hash == hash
      modifies idem
      ensures Valid() && Good(cfg, start, s') && s'.sh == State() && s'.clock == s.clock
      ensures early.Some? <==> old(Live(key, w.clock(0)))
      ensures early.Some? ==> s'.r == At(s.r, Finished(early.value)) && State() == old(State())
      ensures early.Some? ==> early.value == Recalled(old(State()).store[key.value], hash)
      ensures early.None? ==> s'.r == At(s.r, Scan)
      ensures early.None? && key.Some? && old(idem.Admits(key.value, w.size(Running(hash)))) ==>
        State() == old(State()).(store := old(State()).store[key.value := Running(hash)])
      ensures early.None? && !(key.Some? && old(idem.Admits(key.value, w.size(Running(hash))))) ==> State() == old(State())
    {
      ghost var begin := if key.None? then BeginIn(true, false)
        else BeginIn(idem.Admits(key.value, w.size(Running(hash))), !idem.Unexpired(key.value, w.clock(0)));
      AdvanceGood(cfg, start, s, begin);
      s' := Advance(cfg, s, begin);
      assert (s'.r, s'.sh) == StepBegin(s.r, s.sh, begin.admit, begin.expired);
      hide Good, Valid, Advance;
      early := None;
      if key.Some? {
        BeginMeans(s.r, s.sh, begin.admit, begin.expired);
        var begun := ClaimKey(key.value, hash, w.size(Running(hash)), w.clock(0));
        assert StepBegin(s.r, s.sh, begin.admit, begin.expired) == (At(s.r, I.PhaseAfter(begun)), State());
        hide StepBegin;
        match begun
        case Conflict => early := Some(Problem(409));
        case Mismatch => early := Some(Problem(422));
        case Prior(stored) => early := Some(Replayed(stored));
        case _ =>
      }
    }
  }

  /** What a request is told about a key that is taken: another body's, answered, or not known to be. */
  function Recalled(e: Entry, hash: string): Response {
    if e.hash != hash then Problem(422)
    else
      match e
      case Running(_) => Problem(409)
      case Unknown(_) => Problem(409)
      case Done(_, stored) => Replayed(stored)
  }

  /** A begin ends the request exactly on an entry that counts, and otherwise claims the key if it may. */
  lemma BeginMeans(r: Request, sh: Shared, admit: bool, expired: bool)
    requires r.key.Some?
    ensures var (r', sh') := StepBegin(r, sh, admit, expired); var k := r.key.value;
      && (r'.phase.Finished? <==> k in sh.store && !expired)
      && (r'.phase.Finished? ==> sh' == sh && r'.phase.response == Recalled(sh.store[k], r.hash))
      && (!r'.phase.Finished? ==>
           && r' == At(r, Scan)
           && sh' == if k in sh.store || admit then sh.(store := sh.store[k := Running(r.hash)]) else sh)
  {}

  function SettledStore(store: map<string, Entry>, key: string, hash: string, settle: Settlement): map<string, Entry> {
    var e := EntryFor(hash, settle);
    if e.None? then store else store[key := e.value]
  }

  lemma OnlyThisKey(store: map<string, Entry>, key: string, hash: string, settle: Settlement)
    ensures var e := EntryFor(hash, settle);
      if e.None? then SettledStore(store - {key}, key, hash, settle) == store - {key}
      else SettledStore(store - {key}, key, hash, settle) == store[key := e.value] && store[key := e.value] - {key} == store - {key}
  {
    var e := EntryFor(hash, settle);
    if e.Some? { assert (store - {key})[key := e.value] == store[key := e.value]; }
  }

  /** Claiming a key leaves the rest of the store as it was. */
  lemma ClaimedThenSettled(store: map<string, Entry>, key: string, hash: string)
    ensures store[key := Running(hash)] - {key} == store - {key}
  {}

  lemma FreshSteered(cfg: Config, key: Option<string>, hash: string, temperature: bool)
    ensures Steered(cfg, Fresh(key, hash, temperature))
  {}

  /** What the machine keeps at every step, kept over all of them. */
  lemma {:induction false} PlaySteered(cfg: Config, r: Request, sh: Shared, inputs: seq<Input>)
    requires Steered(cfg, r) && Play(cfg, r, sh, inputs).Some?
    ensures var r' := Play(cfg, r, sh, inputs).value.0;
      Steered(cfg, r') && InOrder(cfg, r') && (r'.phase.Finished? ==> EndsWith(r'.log, r'.phase.response))
  {
    if inputs == [] {
    } else {
      var init, last := inputs[..|inputs| - 1], inputs[|inputs| - 1];
      PlaySteered(cfg, r, sh, init);
      var before := Play(cfg, r, sh, init).value;
      StepKeepsSteered(cfg, before.0, before.1, last);
      hide Step, InOrder, EndsWith;
    }
  }

  lemma FreshGood(cfg: Config, start: Solo)
    requires start.trace == [] && start.r == Fresh(start.r.key, start.r.hash, start.r.temperature)
    ensures Good(cfg, start, start)
  {}

  /** What the invariant says of a request at its scan and at its end. */
  lemma ScanFresh(cfg: Config, start: Solo, s: Solo)
    requires Good(cfg, start, s) && s.r.phase == Scan
    ensures s.r.log == [] && s.r.attempts == 0 && s.r.i == 0 && s.r.retried == {}
  {}

  lemma GoodSays(cfg: Config, start: Solo, s: Solo)
    requires Good(cfg, start, s)
    ensures Play(cfg, start.r, start.sh, s.trace) == Some((s.r, s.sh))
    ensures Timed(start.clock, s.trace) && s.clock == LastTime(start.clock, s.trace)
    ensures NoUnsafeReplay(s.r.log) && s.r.attempts <= cfg.maxAttempts && |s.r.log| <= 2 * s.r.attempts
    ensures s.r.phase.Closing? ==> s.r.phase.settle == Due(s.r.log)
  {}

  ghost function Eligible(cfg: Config, sh: Shared, routes: seq<Route>, w: World, n: nat, i: nat): set<nat> {
    set k: nat | k < i && Counted(cfg, sh, routes, w, n, k)
  }

  ghost function Passed(cfg: Config, sh: Shared, routes: seq<Route>, w: World, n: nat, i: nat): set<nat> {
    set k: nat | k < i && k < |routes| && Counted(cfg, sh, routes, w, n, k) && w.hinted(routes[k])
  }

  lemma EligibleNone(cfg: Config, sh: Shared, routes: seq<Route>, w: World, n: nat)
    ensures Eligible(cfg, sh, routes, w, n, 0) == {} && Passed(cfg, sh, routes, w, n, 0) == {}
  {}

  lemma EligibleStep(cfg: Config, sh: Shared, routes: seq<Route>, w: World, n: nat, i: nat)
    requires i < |routes|
    ensures var c := Counted(cfg, sh, routes, w, n, i);
      && |Eligible(cfg, sh, routes, w, n, i + 1)| == |Eligible(cfg, sh, routes, w, n, i)| + (if c then 1 else 0)
      && Passed(cfg, sh, routes, w, n, i + 1) == Passed(cfg, sh, routes, w, n, i) + if c && w.hinted(routes[i]) then {i} else {}
  {
    EligibleGrows(cfg, sh, routes, w, n, i);
    PassedGrows(cfg, sh, routes, w, n, i);
  }

  lemma EligibleGrows(cfg: Config, sh: Shared, routes: seq<Route>, w: World, n: nat, i: nat)
    ensures |Eligible(cfg, sh, routes, w, n, i + 1)|
         == |Eligible(cfg, sh, routes, w, n, i)| + if Counted(cfg, sh, routes, w, n, i) then 1 else 0
  {
    hide Counted;
    var e := Eligible(cfg, sh, routes, w, n, i);
    assert Eligible(cfg, sh, routes, w, n, i + 1) == if Counted(cfg, sh, routes, w, n, i) then e + {i} else e;
  }

  lemma PassedGrows(cfg: Config, sh: Shared, routes: seq<Route>, w: World, n: nat, i: nat)
    requires i < |routes|
    ensures Passed(cfg, sh, routes, w, n, i + 1)
         == Passed(cfg, sh, routes, w, n, i) + if Counted(cfg, sh, routes, w, n, i) && w.hinted(routes[i]) then {i} else {}
  {
    hide Counted;
  }

  /** Passing over fewer routes than are eligible leaves one; passing over none leaves all of them. */
  lemma SomeoneLeft(cfg: Config, sh: Shared, routes: seq<Route>, w: World, n: nat)
    ensures var e, p := Eligible(cfg, sh, routes, w, n, |routes|), Passed(cfg, sh, routes, w, n, |routes|);
      |p| != |e| <==> exists k :: Counted(cfg, sh, routes, w, n, k) && k !in p
  {
    var e, p := Eligible(cfg, sh, routes, w, n, |routes|), Passed(cfg, sh, routes, w, n, |routes|);
    assert p <= e && e == p + (e - p);
    if |p| != |e| {
      var k :| k in e - p;
    }
    if k: nat :| Counted(cfg, sh, routes, w, n, k) && k !in p {
      assert k in e - p;
    }
  }

  /** The routes passed over are the hinted ones that could be asked, unless there is no other. */
  lemma PassedIsExact(cfg: Config, sh: Shared, routes: seq<Route>, w: World, n: nat)
    ensures var e, p := Eligible(cfg, sh, routes, w, n, |routes|), Passed(cfg, sh, routes, w, n, |routes|);
      forall k: nat :: PassedOver(cfg, sh, routes, w, n, k) <==> |p| != |e| && k in p
  {
    var e, p := Eligible(cfg, sh, routes, w, n, |routes|), Passed(cfg, sh, routes, w, n, |routes|);
    SomeoneLeft(cfg, sh, routes, w, n);
    assert forall k: nat :: Counted(cfg, sh, routes, w, n, k) ==> k < |routes|;
    hide Counted;
    if |p| != |e| {
      var j: nat :| Counted(cfg, sh, routes, w, n, j) && j !in p;
      assert !w.hinted(routes[j]);
    }
    if j: nat :| Counted(cfg, sh, routes, w, n, j) && !w.hinted(routes[j]) {
      assert j !in p;
    }
  }

  /** The store plays no part in whether a route can be taken. */
  lemma CountedByCircuits(cfg: Config, a: Shared, b: Shared, routes: seq<Route>, w: World, n: nat)
    requires a.circuits == b.circuits
    ensures forall k: nat :: Counted(cfg, a, routes, w, n, k) == Counted(cfg, b, routes, w, n, k)
  {}

  /** What could be asked as the routes were counted can be asked when the loop starts. */
  lemma CountedIsRoutable(cfg: Config, sh: Shared, routes: seq<Route>, w: World)
    requires Lawful(w)
    ensures forall k: nat :: Counted(cfg, sh, routes, w, 1, k) ==> Routable(cfg, sh, routes, k, w.clock(1 + |routes|))
  {
    forall k: nat | Counted(cfg, sh, routes, w, 1, k) ensures Routable(cfg, sh, routes, k, w.clock(1 + |routes|)) {
      RoutableLater(cfg, sh, routes, k, w, 1 + k, 1 + |routes|);
    }
  }

  lemma RoutableLater(cfg: Config, sh: Shared, routes: seq<Route>, i: nat, w: World, n: nat, m: nat)
    requires Lawful(w) && n <= m && i < |routes|
    ensures B.WouldAllow(CircuitOf(sh, routes[i].provider), w.clock(n)) ==> B.WouldAllow(CircuitOf(sh, routes[i].provider), w.clock(m))
  {
    ClockForward(w, n, m);
  }
}

/**
 One request through the routing loop (`chat` in internal/gateway/server.go), as a
 machine whose steps are the atomic operations it makes on state shared with other
 requests: breaker calls, retry tokens, the idempotency store, provider sends.
 */
module Routing {
  import opened Common
  import B = Breakers
  import T = TokenBuckets
  import F = Faults
  import S = Streams

  type Provider = string

  /** The gateway has a breaker for each of these, and a policy routes to no others. */
  const PROVIDERS: set<Provider> := {"openai", "anthropic", "gemini", "bedrock"}

  datatype Route = Route(provider: Provider, model: string)

  const ACCOUNT_COOLDOWN: Time := 60.0

  /** `repeatLimit` is the longest stated wait that is waited out on the same route; 0 never does. */
  datatype Config = Config(configured: set<Provider>, maxAttempts: nat, repeatLimit: Time)

  // ----- what comes back from a send -----

  datatype Reply =
    | Lost(callerGone: bool)
    | Status(code: int, exhausted: bool, temperature: bool, wait: Time)
    | Unreadable
    | Unusable
    | Whole(text: string, finish: string, body: string)
    | Streamed(out: S.StreamOut)

  /** Status never stands for 200, and a stream reply keeps the streaming path's promise. */
  predicate WellFormed(reply: Reply) {
    && (reply.Status? ==> reply.code != 200)
    && (reply.Streamed? ==> S.Sound(reply.out))
  }

  /** One request put on the wire; `resend` is the immediate second send without the temperature. */
  datatype Send = Send(route: nat, temp: bool, resend: bool, reply: Option<Reply>)

  /** The replies after which nothing can have been generated and kept, so another send is safe. */
  predicate Replayable(s: Send) {
    s.reply.Some? &&
    match s.reply.value
    case Status(code, exhausted, temperature, _) =>
      || code in {429, 503, 401, 403, 404}
      || (code in {400, 422} && (exhausted || (s.temp && temperature)))
    case Whole(text, finish, _) => text == "" && finish == "length"
    case Streamed(out) => out.ending == S.Empty && out.sent == []
    case _ => false
  }

  ghost predicate NoUnsafeReplay(log: seq<Send>) {
    forall k :: 0 <= k < |log| - 1 ==> Replayable(log[k])
  }

  // ----- idempotency entries and responses -----

  datatype Stored = WholeBody(body: string) | StreamText(text: string, finish: string)

  datatype Entry = Running(hash: string) | Done(hash: string, stored: Stored) | Unknown(hash: string)

  datatype Response =
    | Answer(body: string)
    | StreamAnswer(out: S.StreamOut)
    | Problem(status: int)
    | Replayed(stored: Stored)

  /** What is recorded for the key when the request ends; Leave gives the key back. */
  datatype Settlement = Leave | SettleUnknown | SettleDone(stored: Stored)

  // ----- the decision after each reply -----

  datatype Owed = OweRelease | OweResult(failed: bool) | OweCooldown(wait: Time)

  datatype Course = Onward | Again | Stop(response: Response, settle: Settlement)

  datatype Verdict = Verdict(owed: seq<Owed>, next: Course)

  predicate MayRepeat(cfg: Config, r: Request, wait: Time) {
    0.0 < wait <= cfg.repeatLimit && r.i !in r.retried && r.attempts < cfg.maxAttempts
  }

  function JudgeStatus(cfg: Config, r: Request, code: int, exhausted: bool, wait: Time): Verdict {
    match F.Classify(code, exhausted)
    case Account => Verdict([OweCooldown(Max(wait, ACCOUNT_COOLDOWN))], Onward)
    case RateLimit =>
      if MayRepeat(cfg, r, wait) then Verdict([OweRelease], Again)
      else Verdict([if wait > 0.0 then OweCooldown(wait) else OweRelease], Onward)
    case Degraded => Verdict([OweResult(true)] + (if wait > 0.0 then [OweCooldown(wait)] else []), Onward)
    case Refused => Verdict([OweCooldown(Max(wait, ACCOUNT_COOLDOWN))], Onward)
    case Terminal =>
      if code == 400 || code == 422 then Verdict([OweRelease], Stop(Problem(400), Leave))
      else Verdict([OweResult(true)], Stop(Problem(502), Leave))
  }

  function Judge(cfg: Config, r: Request, reply: Reply): Verdict {
    match reply
    case Lost(gone) => Verdict([if gone then OweRelease else OweResult(true)], Stop(Problem(502), SettleUnknown))
    case Status(code, exhausted, _, wait) => JudgeStatus(cfg, r, code, exhausted, wait)
    case Unreadable => Verdict([OweResult(true)], Stop(Problem(502), SettleUnknown))
    case Unusable => Verdict([OweResult(true)], Stop(Problem(502), SettleUnknown))
    case Whole(text, finish, body) =>
      if finish == "length" && text == "" then Verdict([OweResult(false)], Onward)
      else Verdict([OweResult(false)], Stop(Answer(body), SettleDone(WholeBody(body))))
    case Streamed(out) =>
      match out.ending
      case Empty => Verdict([OweResult(false)], Onward)
      case Complete => Verdict([OweResult(false)], Stop(StreamAnswer(out), SettleDone(StreamText(out.text, out.finish))))
      case Broken => Verdict([OweResult(true)], Stop(StreamAnswer(out), SettleUnknown))
  }

  // ----- the machine -----

  datatype Phase =
    | Begin
    | Scan
    | Head
    | Token
    | Jitter
    | Build(resend: bool)
    | Sent(temp: bool)
    | Owing(owed: seq<Owed>, next: Course)
    | Pause
    | Closing(response: Response, settle: Settlement)
    | Finished(response: Response)

  datatype Request = Request(
    key: Option<string>, hash: string, temperature: bool,
    routes: seq<Route>, skip: set<nat>, i: nat, attempts: nat, retried: set<nat>,
    phase: Phase, log: seq<Send>)

  function Fresh(key: Option<string>, hash: string, temperature: bool): Request {
    Request(key, hash, temperature, [], {}, 0, 0, {}, Begin, [])
  }

  datatype Shared = Shared(circuits: map<Provider, B.Breaker>, retry: T.Bucket, store: map<string, Entry>)

  function CircuitOf(sh: Shared, p: Provider): B.Breaker {
    if p in sh.circuits then sh.circuits[p] else B.CLOSED
  }

  function SetCircuit(sh: Shared, p: Provider, c: B.Breaker): Shared {
    sh.(circuits := sh.circuits[p := c])
  }

  /**
   What the environment supplies to a step: time, replies, cancellation, whether a
   request could be built, whether the store has room for a new key (`admit`) and
   whether the entry it holds is too old to count (`expired`).
   */
  datatype Input =
    | BeginIn(admit: bool, expired: bool)
    | ScanIn(routes: Option<seq<Route>>, skip: set<nat>)
    | HeadIn(now: Time)
    | TokenIn(now: Time)
    | JitterIn(cancelled: bool)
    | BuildIn(ok: bool, omit: bool)
    | ReplyIn(reply: Reply)
    | OweIn(now: Time)
    | PauseIn(cancelled: bool)
    | CloseIn(admit: bool)

  /** The instant a step takes place at, which is the last known one when it does not read the clock. */
  function TimeOf(input: Input, clock: Time): Time {
    if input.HeadIn? || input.TokenIn? || input.OweIn? then input.now else clock
  }

  predicate Enabled(r: Request, input: Input) {
    match r.phase
    case Begin => input.BeginIn?
    case Scan => input.ScanIn?
    case Head => input.HeadIn?
    case Token => input.TokenIn?
    case Jitter => input.JitterIn?
    case Build(_) => input.BuildIn?
    case Sent(_) => input.ReplyIn? && WellFormed(input.reply)
    case Owing(_, _) => input.OweIn?
    case Pause => input.PauseIn?
    case Closing(_, _) => input.CloseIn?
    case Finished(_) => false
  }

  function At(r: Request, phase: Phase): Request { r.(phase := phase) }

  function ProviderOf(r: Request): Provider { if r.i < |r.routes| then r.routes[r.i].provider else "" }

  function AfterOwed(r: Request, next: Course): Request {
    match next
    case Onward => r.(phase := Head, i := r.i + 1)
    case Again => At(r, Pause)
    case Stop(response, settle) => At(r, Closing(response, settle))
  }

  function StepBegin(r: Request, sh: Shared, admit: bool, expired: bool): (Request, Shared) {
    if r.key.None? then (At(r, Scan), sh)
    else if r.key.value in sh.store && !expired then
      var e := sh.store[r.key.value];
      if e.hash != r.hash then (At(r, Finished(Problem(422))), sh)
      else if e.Done? then (At(r, Finished(Replayed(e.stored))), sh)
      else (At(r, Finished(Problem(409))), sh)
    else if r.key.value in sh.store || admit then (At(r, Scan), sh.(store := sh.store[r.key.value := Running(r.hash)]))
    else (At(r, Scan), sh)
  }

  function StepScan(r: Request, routes: Option<seq<Route>>, skip: set<nat>): Request {
    if routes.None? then At(r, Closing(Problem(503), Leave))
    else r.(phase := Head, routes := routes.value, skip := skip)
  }

  function StepHead(cfg: Config, r: Request, sh: Shared, now: Time): (Request, Shared) {
    if r.i >= |r.routes| then (At(r, Closing(Problem(503), Leave)), sh)
    else
      var p := r.routes[r.i].provider;
      if p !in cfg.configured || r.i in r.skip then (r.(i := r.i + 1), sh)
      else if r.attempts >= cfg.maxAttempts then (At(r, Closing(Problem(503), Leave)), sh)
      else
        var (c, ok) := B.Allow(CircuitOf(sh, p), now);
        if !ok then (r.(i := r.i + 1), sh)
        else (At(r, if r.attempts > 0 then Token else Build(false)), SetCircuit(sh, p, c))
  }

  function StepToken(r: Request, sh: Shared, now: Time): (Request, Shared) {
    var (b, ok) := T.Take(sh.retry, now);
    (At(r, if ok then Jitter else Owing([OweRelease], Stop(Problem(503), Leave))), sh.(retry := b))
  }

  function StepJitter(r: Request, cancelled: bool): Request {
    At(r, if cancelled then Owing([OweRelease], Stop(Problem(504), Leave)) else Build(false))
  }

  function StepBuild(r: Request, resend: bool, ok: bool, omit: bool): Request {
    var counted := if resend then r else r.(attempts := r.attempts + 1);
    if !ok then At(counted, Owing([OweRelease], Stop(Problem(500), Leave)))
    else
      var temp := !resend && r.temperature && !omit;
      counted.(phase := Sent(temp), log := r.log + [Send(r.i, temp, resend, None)])
  }

  function Answered(r: Request, reply: Reply): Request {
    if r.log == [] then r else r.(log := r.log[..|r.log| - 1] + [r.log[|r.log| - 1].(reply := Some(reply))])
  }

  function StepReply(cfg: Config, r: Request, temp: bool, reply: Reply): Request {
    var r' := Answered(r, reply);
    if temp && reply.Status? && F.RejectsTemperature(reply.code, reply.temperature) then At(r', Build(true))
    else
      var v := Judge(cfg, r', reply);
      r'.(phase := Owing(v.owed, v.next), retried := if v.next.Again? then r.retried + {r.i} else r.retried)
  }

  function ApplyOwed(c: B.Breaker, o: Owed, now: Time): B.Breaker {
    match o
    case OweRelease => B.Release(c)
    case OweResult(failed) => B.Result(c, failed, now)
    case OweCooldown(wait) => B.Cooldown(c, wait, now)
  }

  function StepOwing(r: Request, sh: Shared, owed: seq<Owed>, next: Course, now: Time): (Request, Shared) {
    if owed == [] then (AfterOwed(r, next), sh)
    else
      var p := ProviderOf(r);
      (if |owed| == 1 then AfterOwed(r, next) else At(r, Owing(owed[1..], next)),
       SetCircuit(sh, p, ApplyOwed(CircuitOf(sh, p), owed[0], now)))
  }

  /** The entry a settlement leaves under the key. */
  function EntryFor(hash: string, settle: Settlement): Option<Entry> {
    match settle
    case Leave => None
    case SettleUnknown => Some(Unknown(hash))
    case SettleDone(stored) => Some(Done(hash, stored))
  }

  /** A settlement replaces the key's own entry; one that was never stored needs room. */
  function StepClosing(r: Request, sh: Shared, response: Response, settle: Settlement, admit: bool): (Request, Shared) {
    (At(r, Finished(response)),
     if r.key.None? then sh
     else
       var k, e := r.key.value, EntryFor(r.hash, settle);
       if e.None? then sh.(store := sh.store - {k})
       else if k in sh.store || admit then sh.(store := sh.store[k := e.value])
       else sh)
  }

  function Step(cfg: Config, r: Request, sh: Shared, input: Input): (Request, Shared)
    requires Enabled(r, input)
  {
    match r.phase
    case Begin => StepBegin(r, sh, input.admit, input.expired)
    case Scan => (StepScan(r, input.routes, input.skip), sh)
    case Head => StepHead(cfg, r, sh, input.now)
    case Token => StepToken(r, sh, input.now)
    case Jitter => (StepJitter(r, input.cancelled), sh)
    case Build(resend) => (StepBuild(r, resend, input.ok, input.omit), sh)
    case Sent(temp) => (StepReply(cfg, r, temp, input.reply), sh)
    case Owing(owed, next) => StepOwing(r, sh, owed, next, input.now)
    case Pause => (At(r, if input.cancelled then Closing(Problem(504), Leave) else Head), sh)
    case Closing(response, settle) => StepClosing(r, sh, response, settle, input.admit)
  }

  /** Between a granted `allow` and the breaker call that answers it, the request answers for the provider. */
  predicate Holds(r: Request, p: Provider) {
    && r.i < |r.routes| && r.routes[r.i].provider == p
    && (r.phase.Token? || r.phase.Jitter? || r.phase.Build? || r.phase.Sent? || (r.phase.Owing? && r.phase.owed != []))
  }

  // ----- what every step keeps -----

  /** What the key must be settled as, read off the last reply: the four ambiguous endings, the answers, or nothing. */
  function Due(log: seq<Send>): Settlement {
    if log == [] || log[|log| - 1].reply.None? then Leave
    else
      match log[|log| - 1].reply.value
      case Lost(_) => SettleUnknown
      case Unreadable => SettleUnknown
      case Unusable => SettleUnknown
      case Whole(text, finish, body) => if text == "" && finish == "length" then Leave else SettleDone(WholeBody(body))
      case Streamed(out) =>
        if out.ending == S.Broken then SettleUnknown
        else if out.ending == S.Empty then Leave
        else SettleDone(StreamText(out.text, out.finish))
      case Status(_, _, _, _) => Leave
  }

  /** The client was given exactly what is stored for its key. */
  predicate Given(response: Response, settle: Settlement) {
    settle.SettleDone? ==>
      match settle.stored
      case WholeBody(body) => response == Answer(body)
      case StreamText(text, finish) =>
        response.StreamAnswer? && S.Delivered(response.out.sent, text) && response.out.finish == finish
  }

  predicate ReadyToSend(log: seq<Send>) { log == [] || Replayable(log[|log| - 1]) }

  function Firsts(log: seq<Send>, route: nat): nat {
    if log == [] then 0
    else Firsts(log[..|log| - 1], route) + (var s := log[|log| - 1]; if !s.resend && s.route == route then 1 else 0)
  }

  /** How often each route may have been tried by now: once, and once more when a stated wait was taken. */
  function RouteCap(r: Request, j: nat): nat {
    if j > r.i then 0
    else if j < r.i then 2
    else
      (if r.i in r.retried then 1 else 0) +
      (if r.phase.Sent? || (r.phase.Build? && r.phase.resend) || (r.phase.Owing? && !r.phase.next.Again?)
          || r.phase.Closing? || r.phase.Finished? then 1 else 0)
  }

  /** Replays stay safe, attempts stay within bounds, and the phase agrees with the log. */
  ghost predicate Inv(cfg: Config, r: Request) {
    && NoUnsafeReplay(r.log)
    && r.attempts <= cfg.maxAttempts
    && |r.log| <= 2 * r.attempts
    && (forall j: nat :: Firsts(r.log, j) <= RouteCap(r, j))
    && InvPhase(cfg, r)
  }

  ghost predicate InvPhase(cfg: Config, r: Request) {
    match r.phase
    case Begin => r.log == [] && r.attempts == 0 && r.i == 0 && r.routes == [] && r.retried == {}
    case Scan => r.log == [] && r.attempts == 0 && r.i == 0 && r.routes == [] && r.retried == {}
    case Head => ReadyToSend(r.log)
    case Token => ReadyToSend(r.log) && 0 < r.attempts < cfg.maxAttempts && r.i < |r.routes|
    case Jitter => ReadyToSend(r.log) && 0 < r.attempts < cfg.maxAttempts && r.i < |r.routes|
    case Build(resend) =>
      && ReadyToSend(r.log) && r.i < |r.routes|
      && (if resend then r.log != [] && |r.log| < 2 * r.attempts else r.attempts < cfg.maxAttempts)
    case Sent(temp) =>
      && r.i < |r.routes| && r.log != [] && r.log[|r.log| - 1].reply.None? && r.log[|r.log| - 1].temp == temp
      && (temp ==> |r.log| < 2 * r.attempts)
    case Owing(owed, next) =>
      && r.i < |r.routes| && owed != [] && (!next.Stop? ==> ReadyToSend(r.log)) && (next.Again? ==> r.i in r.retried)
      && (next.Stop? ==> next.settle == Due(r.log) && Given(next.response, next.settle))
    case Pause => ReadyToSend(r.log) && r.i < |r.routes| && r.i in r.retried
    case Closing(response, settle) => settle == Due(r.log) && Given(response, settle)
    case Finished(response) => Given(response, Due(r.log))
  }

  lemma {:induction false} FirstsSnoc(log: seq<Send>, s: Send, j: nat)
    ensures Firsts(log + [s], j) == Firsts(log, j) + if !s.resend && s.route == j then 1 else 0
  {
    assert (log + [s])[..|log|] == log;
  }

  lemma FirstsAnswered(r: Request, reply: Reply, j: nat)
    requires r.log != []
    ensures Firsts(Answered(r, reply).log, j) == Firsts(r.log, j)
  {
    var n := |r.log| - 1;
    FirstsSnoc(r.log[..n], r.log[n].(reply := Some(reply)), j);
  }

  /** A reply that lets the loop go on is one after which a send is safe. */
  lemma JudgeOnwardIsReplayable(cfg: Config, r: Request, s: Send, reply: Reply)
    requires WellFormed(reply) && s.reply == Some(reply)
    ensures !Judge(cfg, r, reply).next.Stop? ==> Replayable(s)
    ensures Judge(cfg, r, reply).owed != []
    ensures Judge(cfg, r, reply).next.Again? ==> r.i !in r.retried
  {}

  lemma JudgeSettlesAsDue(cfg: Config, r: Request, reply: Reply)
    requires WellFormed(reply) && r.log != [] && r.log[|r.log| - 1].reply == Some(reply)
    ensures var v := Judge(cfg, r, reply); v.next.Stop? ==> v.next.settle == Due(r.log) && Given(v.next.response, v.next.settle)
  {}

  lemma ReadyIsLeave(log: seq<Send>)
    requires ReadyToSend(log)
    ensures Due(log) == Leave
  {}

  lemma BuildCap(r: Request, input: Input, j: nat)
    requires r.phase.Build? && input.BuildIn? && Firsts(r.log, j) <= RouteCap(r, j)
    ensures var r' := StepBuild(r, r.phase.resend, input.ok, input.omit); Firsts(r'.log, j) <= RouteCap(r', j)
  {
    if input.ok {
      FirstsSnoc(r.log, StepBuild(r, r.phase.resend, input.ok, input.omit).log[|r.log|], j);
    }
  }

  lemma InvBuild(cfg: Config, r: Request, input: Input)
    requires Inv(cfg, r) && r.phase.Build? && input.BuildIn?
    ensures Inv(cfg, StepBuild(r, r.phase.resend, input.ok, input.omit))
  {
    var r' := StepBuild(r, r.phase.resend, input.ok, input.omit);
    ReadyIsLeave(r.log);
    forall j: nat ensures Firsts(r'.log, j) <= RouteCap(r', j) {
      assert Firsts(r.log, j) <= RouteCap(r, j);
      BuildCap(r, input, j);
    }
    hide Due, Replayable, Firsts, RouteCap;
  }

  lemma InvReply(cfg: Config, r: Request, reply: Reply)
    requires Inv(cfg, r) && r.phase.Sent? && WellFormed(reply)
    ensures Inv(cfg, StepReply(cfg, r, r.phase.temp, reply))
  {
    var r' := StepReply(cfg, r, r.phase.temp, reply);
    JudgeSettlesAsDue(cfg, Answered(r, reply), reply);
    JudgeOnwardIsReplayable(cfg, Answered(r, reply), r'.log[|r.log| - 1], reply);
    forall j: nat ensures Firsts(r'.log, j) <= RouteCap(r', j) {
      FirstsAnswered(r, reply, j);
      assert Firsts(r.log, j) <= RouteCap(r, j);
    }
  }

  /** A step without a send or a reply leaves the log alone and never lowers a route's allowance. */
  lemma OtherKeepsLog(cfg: Config, r: Request, sh: Shared, input: Input)
    requires InvPhase(cfg, r) && Enabled(r, input) && !r.phase.Build? && !r.phase.Sent?
    ensures var r' := Step(cfg, r, sh, input).0; r'.log == r.log && r'.retried == r.retried && r'.attempts == r.attempts
    ensures forall j: nat :: RouteCap(r, j) <= RouteCap(Step(cfg, r, sh, input).0, j)
  {
    hide Due, Given, ReadyToSend;
  }

  lemma OtherKeepsPhase(cfg: Config, r: Request, sh: Shared, input: Input)
    requires InvPhase(cfg, r) && Enabled(r, input) && !r.phase.Build? && !r.phase.Sent?
    ensures InvPhase(cfg, Step(cfg, r, sh, input).0)
  {
    if ReadyToSend(r.log) { ReadyIsLeave(r.log); }
    assert ReadyToSend([]) && Due([]) == Leave;
    assert forall response :: Given(response, Leave);
    hide Due, Given, ReadyToSend;
    if r.phase.Head? || r.phase.Token? || r.phase.Jitter? {
      GatePhase(cfg, r, sh, input);
    } else {
      hide StepHead, StepToken, StepJitter;
    }
  }

  lemma GatePhase(cfg: Config, r: Request, sh: Shared, input: Input)
    requires InvPhase(cfg, r) && Enabled(r, input) && (r.phase.Head? || r.phase.Token? || r.phase.Jitter?)
    requires Due(r.log) == Leave && forall response :: Given(response, Leave)
    ensures InvPhase(cfg, Step(cfg, r, sh, input).0)
  {
    hide Due, Given, ReadyToSend, B.Allow, T.Take;
  }

  /** Every step of a request keeps the invariant, whatever the shared state holds. */
  lemma StepKeepsInv(cfg: Config, r: Request, sh: Shared, input: Input)
    requires Inv(cfg, r) && Enabled(r, input)
    ensures Inv(cfg, Step(cfg, r, sh, input).0)
  {
    if r.phase.Build? {
      InvBuild(cfg, r, input);
    } else if r.phase.Sent? {
      InvReply(cfg, r, input.reply);
    } else {
      OtherKeepsLog(cfg, r, sh, input);
      OtherKeepsPhase(cfg, r, sh, input);
      var r' := Step(cfg, r, sh, input).0;
      forall j: nat ensures Firsts(r'.log, j) <= RouteCap(r', j) {
        assert Firsts(r.log, j) <= RouteCap(r, j) <= RouteCap(r', j);
      }
    }
  }

  // ----- what each reply leads to, by its code -----

  /** The replies after which the loop asks again: here once more after a short stated wait, or the next route. */
  predicate GoesOn(reply: Reply) {
    match reply
    case Status(code, exhausted, _, _) => code in {429, 503, 401, 403, 404} || (code in {400, 422} && exhausted)
    case Whole(text, finish, _) => text == "" && finish == "length"
    case Streamed(out) => out.ending == S.Empty
    case _ => false
  }

  /** The reply counts against the provider. */
  predicate CountsAgainst(reply: Reply) {
    match reply
    case Lost(callerGone) => !callerGone
    case Status(code, _, _, _) => code !in {429, 401, 403, 404, 400, 422}
    case Whole(_, _, _) => false
    case Streamed(out) => out.ending == S.Broken
    case _ => true
  }

  /** The reply counts for the provider. */
  predicate CountsFor(reply: Reply) { reply.Whole? || (reply.Streamed? && reply.out.ending != S.Broken) }

  /** How long the provider is left alone for the reply's own sake, if at all, `repeated` being a repeat of a 429. */
  function WaitFor(reply: Reply, repeated: bool): Option<Time> {
    if !reply.Status? then None
    else if reply.code in {401, 403, 404} || (reply.code in {429, 400, 422} && reply.exhausted) then
      Some(if reply.wait < 60.0 then 60.0 else reply.wait)
    else if reply.wait > 0.0 && (reply.code == 503 || (reply.code == 429 && !repeated)) then Some(reply.wait)
    else None
  }

  /** The loop stops at exactly the replies that do not go on, and repeats a route at exactly a short first stated wait. */
  lemma JudgeGoesOnIff(cfg: Config, r: Request, reply: Reply)
    ensures Judge(cfg, r, reply).next.Stop? <==> !GoesOn(reply)
    ensures Judge(cfg, r, reply).next.Again? <==>
      && reply.Status? && reply.code == 429 && !reply.exhausted
      && 0.0 < reply.wait <= cfg.repeatLimit && r.i !in r.retried && r.attempts < cfg.maxAttempts
  {}

  /** What the client is told when the loop stops at a reply. */
  lemma JudgeAnswers(cfg: Config, r: Request, reply: Reply)
    requires !GoesOn(reply)
    ensures Judge(cfg, r, reply).next.response ==
      match reply
      case Whole(_, _, body) => Answer(body)
      case Streamed(out) => StreamAnswer(out)
      case Status(code, _, _, _) => Problem(if code == 400 || code == 422 then 400 else 502)
      case _ => Problem(502)
  {}

  /**
   What the breaker is told of a reply, in order: the outcome, if the reply counts for or
   against the provider; then the wait; and a bare release if there is neither.
   */
  lemma JudgeTellsBreaker(cfg: Config, r: Request, reply: Reply)
    ensures var v := Judge(cfg, r, reply); var wait := WaitFor(reply, v.next.Again?);
      v.owed == (if CountsAgainst(reply) then [OweResult(true)] else if CountsFor(reply) then [OweResult(false)] else [])
              + (if wait.Some? then [OweCooldown(wait.value)] else [])
              + (if !CountsAgainst(reply) && !CountsFor(reply) && wait.None? then [OweRelease] else [])
  {}

  /** All that is owed, paid at one instant after another. */
  function PayAll(c: B.Breaker, owed: seq<Owed>, now: nat -> Time): B.Breaker {
    if owed == [] then c else ApplyOwed(PayAll(c, owed[..|owed| - 1], now), owed[|owed| - 1], now(|owed| - 1))
  }

  /** The breaker after a reply: told the outcome at one instant and the wait at another, or the claim given back. */
  function AfterReply(c: B.Breaker, reply: Reply, repeated: bool, told: Time, cooled: Time): B.Breaker {
    var counted :=
      if CountsAgainst(reply) then B.Result(c, true, told) else if CountsFor(reply) then B.Result(c, false, told) else c;
    var wait := WaitFor(reply, repeated);
    if wait.Some? then B.Cooldown(counted, wait.value, cooled)
    else if CountsAgainst(reply) || CountsFor(reply) then counted
    else B.Release(c)
  }

  /** So the breaker sees a failure, a success, a wait or a release, as the reply's code says and nothing else. */
  lemma ReplyMovesBreaker(cfg: Config, r: Request, reply: Reply, c: B.Breaker, now: nat -> Time)
    ensures var v := Judge(cfg, r, reply);
      PayAll(c, v.owed, now) == AfterReply(c, reply, v.next.Again?, now(0), now(if |v.owed| == 2 then 1 else 0))
  {
    JudgeTellsBreaker(cfg, r, reply);
    var owed := Judge(cfg, r, reply).owed;
    hide Judge, B.Result, B.Cooldown, B.Release, CountsAgainst, CountsFor, WaitFor;
    assert 1 <= |owed| <= 2;
    assert owed[..|owed| - 1] == if |owed| == 2 then [owed[0]] else [];
    assert PayAll(c, [], now) == c;
    if |owed| == 2 { assert [owed[0]][..0] == []; }
  }

  // ----- where a request goes -----

  /** The provider named the temperature it was sent, so the send is made once more without it. */
  predicate NamedTemperature(s: Send) {
    s.temp && s.reply.Some? && s.reply.value.Status? && s.reply.value.code in {400, 422} && s.reply.value.temperature
  }

  /** The next route may be asked: nothing was sent yet, or the last reply goes on. */
  predicate MayGoOn(log: seq<Send>) {
    log == [] || (var s := log[|log| - 1]; s.reply.Some? && GoesOn(s.reply.value) && !NamedTemperature(s))
  }

  /** The response a request that has made these sends may end with. */
  predicate EndsWith(log: seq<Send>, response: Response) {
    if log == [] then response.Replayed? || (response.Problem? && response.status in {409, 422, 500, 503, 504})
    else
      var s := log[|log| - 1];
      if NamedTemperature(s) then response == Problem(500)
      else if MayGoOn(log) then response.Problem? && response.status in {500, 503, 504}
      else
        s.reply.Some? &&
        match s.reply.value
        case Whole(_, _, body) => response == Answer(body)
        case Streamed(out) => response == StreamAnswer(out)
        case Status(code, _, _, _) => response == Problem(if code == 400 || code == 422 then 400 else 502)
        case _ => response == Problem(502)
  }

  /** Only configured routes that are not passed over are asked, and in the policy's order. */
  ghost predicate InOrder(cfg: Config, r: Request) {
    && (forall s :: s in r.log ==>
          s.route <= r.i && s.route < |r.routes| && r.routes[s.route].provider in cfg.configured && s.route !in r.skip)
    && (forall k, l :: 0 <= k <= l < |r.log| ==> r.log[k].route <= r.log[l].route)
  }

  ghost predicate PhaseFits(cfg: Config, r: Request) {
    && (r.phase.Token? || r.phase.Jitter? || r.phase.Build? || r.phase.Sent? || r.phase.Owing? || r.phase.Pause? ==>
          r.i < |r.routes| && r.routes[r.i].provider in cfg.configured && r.i !in r.skip)
    && match r.phase
       case Begin => r.log == [] && r.routes == []
       case Scan => r.log == [] && r.routes == []
       case Build(resend) => if resend then r.log != [] && NamedTemperature(r.log[|r.log| - 1]) else MayGoOn(r.log)
       case Sent(temp) => r.log != [] && r.log[|r.log| - 1].temp == temp
       case Owing(_, next) => if next.Stop? then EndsWith(r.log, next.response) else MayGoOn(r.log)
       case Closing(response, _) => EndsWith(r.log, response)
       case Finished(response) => EndsWith(r.log, response)
       case _ => MayGoOn(r.log)
  }

  ghost predicate Steered(cfg: Config, r: Request) { InOrder(cfg, r) && PhaseFits(cfg, r) }

  lemma SteeredBuild(cfg: Config, r: Request, ok: bool, omit: bool)
    requires Steered(cfg, r) && r.phase.Build?
    ensures Steered(cfg, StepBuild(r, r.phase.resend, ok, omit))
  {}

  lemma AnsweredInOrder(cfg: Config, r: Request, reply: Reply)
    requires InOrder(cfg, r) && r.log != []
    ensures InOrder(cfg, Answered(r, reply))
  {
    var r', n := Answered(r, reply), |r.log| - 1;
    assert forall k :: 0 <= k < |r.log| ==> r'.log[k].route == r.log[k].route;
    forall s | s in r'.log ensures exists t :: t in r.log && t.route == s.route {
      var k :| 0 <= k < |r'.log| && r'.log[k] == s;
      assert r.log[k] in r.log;
    }
  }

  /** What the reply of the last send makes of the log. */
  lemma LastReplyDecides(cfg: Config, r: Request, reply: Reply)
    requires r.log != [] && r.log[|r.log| - 1].reply == Some(reply) && !NamedTemperature(r.log[|r.log| - 1])
    ensures var next := Judge(cfg, r, reply).next; if next.Stop? then EndsWith(r.log, next.response) else MayGoOn(r.log)
  {
    JudgeGoesOnIff(cfg, r, reply);
    if !GoesOn(reply) { JudgeAnswers(cfg, r, reply); }
    hide Judge, GoesOn, NamedTemperature;
  }

  lemma SteeredReply(cfg: Config, r: Request, reply: Reply)
    requires Steered(cfg, r) && r.phase.Sent?
    ensures Steered(cfg, StepReply(cfg, r, r.phase.temp, reply))
  {
    AnsweredInOrder(cfg, r, reply);
    var r' := Answered(r, reply);
    var s := r'.log[|r.log| - 1];
    assert NamedTemperature(s) <==> r.phase.temp && reply.Status? && F.RejectsTemperature(reply.code, reply.temperature);
    if !NamedTemperature(s) { LastReplyDecides(cfg, r', reply); }
    hide Judge, NamedTemperature, F.RejectsTemperature, MayGoOn, EndsWith;
  }

  /** A step without a send or a reply leaves the log and the plan alone and never turns back. */
  lemma OtherInOrder(cfg: Config, r: Request, sh: Shared, input: Input)
    requires InOrder(cfg, r) && Enabled(r, input) && !r.phase.Build? && !r.phase.Sent? && (r.phase.Scan? ==> r.log == [])
    ensures InOrder(cfg, Step(cfg, r, sh, input).0)
  {
    var r' := Step(cfg, r, sh, input).0;
    assert r'.log == r.log && r'.i >= r.i && (!r.phase.Scan? ==> r'.routes == r.routes && r'.skip == r.skip);
    hide Step;
  }

  lemma GoingOnMayEnd(log: seq<Send>)
    requires MayGoOn(log)
    ensures forall status :: status in {500, 503, 504} ==> EndsWith(log, Problem(status))
  {}

  lemma OtherFits(cfg: Config, r: Request, sh: Shared, input: Input)
    requires PhaseFits(cfg, r) && Enabled(r, input) && !r.phase.Build? && !r.phase.Sent?
    ensures PhaseFits(cfg, Step(cfg, r, sh, input).0)
  {
    assert MayGoOn([]) && forall stored :: EndsWith([], Replayed(stored));
    assert EndsWith([], Problem(409)) && EndsWith([], Problem(422)) && EndsWith([], Problem(503));
    if MayGoOn(r.log) { GoingOnMayEnd(r.log); }
    hide MayGoOn, EndsWith, NamedTemperature;
    if r.phase.Head? || r.phase.Token? || r.phase.Jitter? {
      GateFits(cfg, r, sh, input);
    } else {
      hide StepHead, StepToken, StepJitter;
    }
  }

  lemma GateFits(cfg: Config, r: Request, sh: Shared, input: Input)
    requires PhaseFits(cfg, r) && Enabled(r, input) && (r.phase.Head? || r.phase.Token? || r.phase.Jitter?)
    requires EndsWith(r.log, Problem(503)) && EndsWith(r.log, Problem(504))
    ensures PhaseFits(cfg, Step(cfg, r, sh, input).0)
  {
    hide MayGoOn, EndsWith, NamedTemperature, B.Allow, T.Take;
  }

  lemma SteeredOther(cfg: Config, r: Request, sh: Shared, input: Input)
    requires Steered(cfg, r) && Enabled(r, input) && !r.phase.Build? && !r.phase.Sent?
    ensures Steered(cfg, Step(cfg, r, sh, input).0)
  {
    OtherFits(cfg, r, sh, input);
    hide Step, InOrder;
    OtherInOrder(cfg, r, sh, input);
  }

  /** Whatever the shared state holds, a request keeps to its routes, and ends as its last reply says it must. */
  lemma StepKeepsSteered(cfg: Config, r: Request, sh: Shared, input: Input)
    requires Steered(cfg, r) && Enabled(r, input)
    ensures Steered(cfg, Step(cfg, r, sh, input).0)
  {
    hide Steered;
    if r.phase.Build? {
      SteeredBuild(cfg, r, input.ok, input.omit);
    } else if r.phase.Sent? {
      SteeredReply(cfg, r, input.reply);
    } else {
      SteeredOther(cfg, r, sh, input);
    }
  }

  // ----- termination -----

  /** The routes on which a stated wait has not been taken yet. */
  ghost function Unrepeated(r: Request): nat { |set j: nat | j < |r.routes| && j !in r.retried| }

  function PhaseRank(p: Phase): nat {
    match p
    case Owing(owed, next) => if next.Again? then 20 + |owed| else 3 + |owed|
    case Pause => 20
    case Head => 19
    case Token => 18
    case Jitter => 17
    case Build(resend) => if resend then 12 else 16
    case Sent(temp) => if temp then 14 else 10
    case Closing(_, _) => 1
    case _ => 0
  }

  /** Stage, unrepeated routes, routes left, phase: compared lexicographically. */
  ghost predicate Below(a: Request, b: Request) {
    var stageA := if a.phase.Begin? then 2 else if a.phase.Scan? then 1 else 0;
    var stageB := if b.phase.Begin? then 2 else if b.phase.Scan? then 1 else 0;
    var leftA := if a.i < |a.routes| then |a.routes| - a.i else 0;
    var leftB := if b.i < |b.routes| then |b.routes| - b.i else 0;
    || stageA < stageB
    || (stageA == stageB && (
         || Unrepeated(a) < Unrepeated(b)
         || (Unrepeated(a) == Unrepeated(b) && (
              || leftA < leftB
              || (leftA == leftB && PhaseRank(a.phase) < PhaseRank(b.phase))))))
  }

  lemma UnrepeatedDrops(r: Request)
    requires r.i < |r.routes| && r.i !in r.retried
    ensures Unrepeated(r.(retried := r.retried + {r.i})) < Unrepeated(r)
  {
    var before := set j: nat | j < |r.routes| && j !in r.retried;
    var after := set j: nat | j < |r.routes| && j !in r.retried + {r.i};
    assert before == after + {r.i} && r.i !in after;
  }

  /** A request that repeats a route still ends: every step goes down in a well-founded order. */
  lemma StepGoesDown(cfg: Config, r: Request, sh: Shared, input: Input)
    requires Inv(cfg, r) && Enabled(r, input)
    ensures Below(Step(cfg, r, sh, input).0, r)
  {
    if r.phase.Sent? {
      ReplyGoesDown(cfg, r, input.reply);
      hide StepReply, Below, Inv;
    } else if !r.phase.Begin? && !r.phase.Scan? {
      OtherGoesDown(cfg, r, sh, input);
      hide Step, Below, Inv;
    }
  }

  lemma OtherGoesDown(cfg: Config, r: Request, sh: Shared, input: Input)
    requires InvPhase(cfg, r) && Enabled(r, input) && !r.phase.Begin? && !r.phase.Scan? && !r.phase.Sent?
    ensures Below(Step(cfg, r, sh, input).0, r)
  {
    var r' := Step(cfg, r, sh, input).0;
    hide Due, Given, ReadyToSend, B.Allow, T.Take;
    assert r'.retried == r.retried && r'.routes == r.routes;
    assert Unrepeated(r') == Unrepeated(r);
    hide Unrepeated, InvPhase;
  }

  lemma ReplyGoesDown(cfg: Config, r: Request, reply: Reply)
    requires Inv(cfg, r) && r.phase.Sent? && WellFormed(reply)
    ensures Below(StepReply(cfg, r, r.phase.temp, reply), r)
  {
    var r' := StepReply(cfg, r, r.phase.temp, reply);
    var v := Judge(cfg, Answered(r, reply), reply);
    JudgeOnwardIsReplayable(cfg, Answered(r, reply), r'.log[|r.log| - 1], reply);
    assert |v.owed| <= 2;
    if r'.retried != r.retried {
      UnrepeatedDrops(r);
      assert Unrepeated(r') == Unrepeated(r.(retried := r.retried + {r.i}));
    } else {
      assert Unrepeated(r') == Unrepeated(r);
    }
  }
}

/**
 Many requests over one set of breakers, one retry bucket and one idempotency
 store, interleaved step by step, with time passing between steps, failed provider
 checks, and restarts that keep only the store.

 `owner` and `Account` are bookkeeping: who claimed each half-open probe, and how
 many retry tokens were granted and spent since the process started.
 */
module Interleaving {
  import opened Common
  import opened Routing
  import B = Breakers
  import T = TokenBuckets

  /** `held`: requests that took a retry token and have not attempted with it yet. */
  datatype Account = Account(born: Time, grants: nat, beyond: nat, held: set<nat>)

  datatype Sys = Sys(sh: Shared, reqs: map<nat, Request>, owner: map<Provider, nat>, clock: Time, acct: Account)

  datatype Action =
    | Arrive(id: nat, key: Option<string>, hash: string, temperature: bool)
    | Act(id: nat, input: Input)
    | Tick(now: Time)
    | Withhold(p: Provider, now: Time)
    | Restart(now: Time)

  /** A new process: every breaker closed, the bucket full, and the store as it was left. */
  function Booted(rate: nat, store: map<string, Entry>, now: Time): Sys {
    Sys(Shared(map p | p in PROVIDERS :: B.CLOSED, T.Full(rate, rate, now), store), map[], map[], now, Account(now, 0, 0, {}))
  }

  /** Time never runs backwards.  The store may refuse a new key, and an entry may have expired. */
  predicate Valid(s: Sys, a: Action) {
    match a
    case Arrive(id, _, _, _) => id !in s.reqs
    case Act(id, input) =>
      id in s.reqs && Enabled(s.reqs[id], input) && s.clock <= TimeOf(input, s.clock)
    case Tick(now) => s.clock <= now
    case Withhold(p, now) => p in PROVIDERS && s.clock <= now
    case Restart(now) => s.clock <= now
  }

  function Accounted(a: Account, id: nat, r: Request, r': Request): Account {
    if r.phase.Token? && r'.phase.Jitter? then a.(grants := a.grants + 1, held := a.held + {id})
    else if r.phase.Jitter? && !r'.phase.Build? then a.(held := a.held - {id})
    else if r.phase.Build? && !r.phase.resend && r.attempts > 0 then a.(beyond := a.beyond + 1, held := a.held - {id})
    else a
  }

  function Next(cfg: Config, rate: nat, s: Sys, a: Action): Sys
    requires Valid(s, a)
  {
    match a
    case Arrive(id, key, hash, temperature) => s.(reqs := s.reqs[id := Fresh(key, hash, temperature)])
    case Tick(now) => s.(clock := now)
    case Withhold(p, now) => s.(sh := SetCircuit(s.sh, p, B.Cooldown(CircuitOf(s.sh, p), ACCOUNT_COOLDOWN, now)), clock := now)
    case Restart(now) => Booted(rate, s.sh.store, now)
    case Act(id, input) =>
      var r := s.reqs[id];
      var (r', sh') := Step(cfg, r, s.sh, input);
      Sys(sh', s.reqs[id := r'],
          if r.phase.Head? && Holds(r', ProviderOf(r)) then s.owner[ProviderOf(r) := id] else s.owner,
          TimeOf(input, s.clock),
          Accounted(s.acct, id, r, r'))
  }

  // ----- the invariant -----

  /** A request that has its key and has not ended. */
  predicate Claims(r: Request, key: string) {
    r.key == Some(key) && !r.phase.Begin? && !r.phase.Finished?
  }

  predicate HoldsToken(r: Request) {
    r.phase.Jitter? || (r.phase.Build? && !r.phase.resend && r.attempts > 0)
  }

  function SettledEntry(r: Request): Option<Entry> { EntryFor(r.hash, Due(r.log)) }

  ghost predicate RequestsInv(cfg: Config, s: Sys) { forall id :: id in s.reqs ==> Inv(cfg, s.reqs[id]) }

  /** A claimed probe belongs to a request that still answers for that provider. */
  ghost predicate ProbeInv(s: Sys) {
    forall p :: CircuitOf(s.sh, p).probe ==> p in s.owner && s.owner[p] in s.reqs && Holds(s.reqs[s.owner[p]], p)
  }

  /** One holder of a key, and its entry is Running with its body hash. */
  ghost predicate KeyInv(s: Sys, k: string) {
    && (forall id :: id in s.reqs && Claims(s.reqs[id], k) ==> k in s.sh.store && s.sh.store[k] == Running(s.reqs[id].hash))
    && (forall i, j :: i in s.reqs && j in s.reqs && Claims(s.reqs[i], k) && Claims(s.reqs[j], k) ==> i == j)
  }

  /** A request that ended with an answer or an ambiguity has left exactly that under its key. */
  ghost predicate SettledInv(s: Sys, k: string) {
    forall id :: id in s.reqs && s.reqs[id].phase.Finished? && s.reqs[id].key == Some(k) && SettledEntry(s.reqs[id]).Some? ==>
      k in s.sh.store && s.sh.store[k] == SettledEntry(s.reqs[id]).value
  }

  /** A begin for this key finds an entry that counts, or room for its own; begins for other keys may fare as they will. */
  predicate Protects(s: Sys, a: Action, k: string) {
    a.Act? && a.id in s.reqs && a.input.BeginIn? && s.reqs[a.id].key == Some(k) ==>
      !a.input.expired && (k in s.sh.store || a.input.admit)
  }

  /** Less: the entry may have expired, as long as no request that holds the key is still in flight. */
  ghost predicate Guards(s: Sys, a: Action, k: string) {
    a.Act? && a.id in s.reqs && a.input.BeginIn? && s.reqs[a.id].key == Some(k) ==>
      && (k in s.sh.store || a.input.admit)
      && (a.input.expired ==> forall id :: id in s.reqs ==> !Claims(s.reqs[id], k))
  }

  ghost predicate RateInv(rate: nat, s: Sys) {
    var b := s.sh.retry;
    && b.rate == rate as real && b.burst == rate as real && T.Valid(b)
    && s.acct.born <= b.last <= s.clock
    && s.acct.grants as real + b.tokens <= b.burst + T.Accrued(b.rate, b.last) - T.Accrued(b.rate, s.acct.born)
    && (forall id :: id in s.acct.held <==> id in s.reqs && HoldsToken(s.reqs[id]))
    && s.acct.beyond + |s.acct.held| <= s.acct.grants
  }

  ghost predicate SysInv(cfg: Config, rate: nat, s: Sys) {
    RequestsInv(cfg, s) && ProbeInv(s) && RateInv(rate, s)
  }

  lemma BootedInv(cfg: Config, rate: nat, store: map<string, Entry>, now: Time)
    ensures SysInv(cfg, rate, Booted(rate, store, now))
    ensures forall k :: KeyInv(Booted(rate, store, now), k) && SettledInv(Booted(rate, store, now), k)
  {}

  // ----- one step -----

  /** A step never leaves a probe behind: a probe it finds or sets is still answered for afterwards. */
  lemma StepProbes(cfg: Config, r: Request, sh: Shared, input: Input, q: Provider)
    requires Inv(cfg, r) && Enabled(r, input)
    ensures var (r', sh') := Step(cfg, r, sh, input);
      CircuitOf(sh', q).probe ==>
        || (CircuitOf(sh, q).probe && (Holds(r, q) ==> Holds(r', q)))
        || (r.phase.Head? && Holds(r', q) && q == ProviderOf(r))
  {
    hide Due, Given, ReadyToSend, NoUnsafeReplay, Firsts, RouteCap;
    if r.phase.Sent? { JudgeOwes(cfg, Answered(r, input.reply), input.reply); }
  }

  lemma JudgeOwes(cfg: Config, r: Request, reply: Reply)
    ensures Judge(cfg, r, reply).owed != []
  {}

  lemma ProbeStep(cfg: Config, rate: nat, s: Sys, id: nat, input: Input)
    requires RequestsInv(cfg, s) && ProbeInv(s) && Valid(s, Act(id, input))
    ensures ProbeInv(Next(cfg, rate, s, Act(id, input)))
  {
    var r := s.reqs[id];
    var s' := Next(cfg, rate, s, Act(id, input));
    forall p | CircuitOf(s'.sh, p).probe
      ensures p in s'.owner && s'.owner[p] in s'.reqs && Holds(s'.reqs[s'.owner[p]], p)
    {
      StepProbes(cfg, r, s.sh, input, p);
      hide Step, Inv;
    }
  }

  /** Only a first claim and an ending touch the store, and only under the request's own key. */
  lemma StepStore(cfg: Config, r: Request, sh: Shared, input: Input)
    requires Enabled(r, input)
    ensures var (r', sh') := Step(cfg, r, sh, input);
      && r'.key == r.key && r'.hash == r.hash
      && (sh'.store == sh.store || r.key.Some?)
      && (forall k :: r.key != Some(k) ==> (k in sh'.store <==> k in sh.store) && (k in sh.store ==> sh'.store[k] == sh.store[k]))
      && (!r.phase.Begin? && !r.phase.Closing? ==> sh'.store == sh.store && !r'.phase.Begin? && !r'.phase.Finished?)
      && (r.phase.Closing? ==> r'.phase.Finished? && r'.log == r.log)
      && (r.phase.Begin? && r.key.Some? && r.key.value in sh.store && !input.expired ==>
           sh'.store == sh.store && r'.phase.Finished? && r'.log == r.log)
      && (r.phase.Begin? && r.key.Some? && (if r.key.value in sh.store then input.expired else input.admit) ==>
           sh'.store == sh.store[r.key.value := Running(r.hash)] && r'.phase.Scan?)
      && (r.phase.Begin? && r.key.None? ==> sh'.store == sh.store && r'.phase.Scan?)
  {}

  lemma KeyStep(cfg: Config, rate: nat, s: Sys, id: nat, input: Input, k: string)
    requires KeyInv(s, k) && Valid(s, Act(id, input)) && Guards(s, Act(id, input), k)
    ensures KeyInv(Next(cfg, rate, s, Act(id, input)), k)
  {
    var r := s.reqs[id];
    var s' := Next(cfg, rate, s, Act(id, input));
    StepStore(cfg, r, s.sh, input);
    hide Step, Enabled;
    forall i | i in s'.reqs && Claims(s'.reqs[i], k)
      ensures k in s'.sh.store && s'.sh.store[k] == Running(s'.reqs[i].hash)
      ensures i != id ==> !Claims(s'.reqs[id], k)
    {
      if i != id {
        assert Claims(s.reqs[i], k) && !Claims(r, k);
      } else {
        assert !r.phase.Begin? ==> Claims(r, k);
      }
    }
  }

  lemma ClosingSettles(cfg: Config, r: Request, sh: Shared, input: Input)
    requires Inv(cfg, r) && Enabled(r, input) && r.phase.Closing? && r.key.Some? && r.key.value in sh.store
    ensures var (r', sh') := Step(cfg, r, sh, input); var k := r.key.value;
      SettledEntry(r').Some? ==> k in sh'.store && sh'.store[k] == SettledEntry(r').value
  {}

  lemma SettledStep(cfg: Config, rate: nat, s: Sys, id: nat, input: Input, k: string)
    requires RequestsInv(cfg, s) && KeyInv(s, k) && SettledInv(s, k)
    requires Valid(s, Act(id, input)) && Protects(s, Act(id, input), k)
    ensures SettledInv(Next(cfg, rate, s, Act(id, input)), k)
  {
    var r := s.reqs[id];
    var s' := Next(cfg, rate, s, Act(id, input));
    StepStore(cfg, r, s.sh, input);
    if r.phase.Closing? && r.key == Some(k) {
      assert Claims(r, k);
      ClosingSettles(cfg, r, s.sh, input);
    }
    assert r.phase.Begin? ==> Due(r.log) == Leave;
    hide Step, Due, EntryFor, Enabled;
  }

  /** Every step keeps a key's protection, as long as that key's own begins are admitted and unexpired. */
  lemma NextKeepsKey(cfg: Config, rate: nat, s: Sys, a: Action, k: string)
    requires RequestsInv(cfg, s) && KeyInv(s, k) && SettledInv(s, k) && Valid(s, a) && Protects(s, a, k)
    ensures KeyInv(Next(cfg, rate, s, a), k) && SettledInv(Next(cfg, rate, s, a), k)
  {
    NextKeepsHolder(cfg, rate, s, a, k);
    match a
    case Arrive(id, key, hash, temperature) => ArriveKeepsKeys(s, id, Fresh(key, hash, temperature), k);
    case Tick(now) =>
    case Withhold(p, now) =>
    case Restart(now) =>
    case Act(id, input) =>
      SettledStep(cfg, rate, s, id, input, k);
      hide Step, KeyInv, SettledInv;
  }

  /** A key keeps having one holder at most even where its entries expire, if none expires under its holder. */
  lemma NextKeepsHolder(cfg: Config, rate: nat, s: Sys, a: Action, k: string)
    requires KeyInv(s, k) && Valid(s, a) && Guards(s, a, k)
    ensures KeyInv(Next(cfg, rate, s, a), k)
  {
    if a.Act? {
      KeyStep(cfg, rate, s, a.id, a.input, k);
      hide Step, KeyInv;
    }
  }

  lemma TakeAccrues(b: T.Bucket, now: Time)
    requires T.Valid(b) && b.last <= now
    ensures var (b', ok) := T.Take(b, now);
      && T.Valid(b') && b'.rate == b.rate && b'.burst == b.burst && b'.last == now
      && b'.tokens + (if ok then 1.0 else 0.0) <= b.tokens + T.Accrued(b.rate, now) - T.Accrued(b.rate, b.last)
  {
    T.TakeValid(b, now);
    T.RefilledAccrues(b, now);
    hide T.Accrued;
  }

  lemma StepRetry(cfg: Config, r: Request, sh: Shared, input: Input)
    requires InvPhase(cfg, r) && Enabled(r, input)
    ensures var (r', sh') := Step(cfg, r, sh, input);
      && (if r.phase.Token? then sh'.retry == T.Take(sh.retry, input.now).0 && r'.phase.Jitter? == T.Take(sh.retry, input.now).1
          else sh'.retry == sh.retry)
      && (HoldsToken(r') <==> (r.phase.Token? && r'.phase.Jitter?) || (HoldsToken(r) && r.phase.Jitter? && r'.phase.Build?))
  {}

  lemma RateStep(cfg: Config, rate: nat, s: Sys, id: nat, input: Input)
    requires RequestsInv(cfg, s) && RateInv(rate, s) && Valid(s, Act(id, input))
    ensures RateInv(rate, Next(cfg, rate, s, Act(id, input)))
  {
    var r := s.reqs[id];
    var s' := Next(cfg, rate, s, Act(id, input));
    assert InvPhase(cfg, r);
    StepRetry(cfg, r, s.sh, input);
    if r.phase.Token? { TakeAccrues(s.sh.retry, input.now); }
    hide Step, T.Take, T.Accrued, Inv, InvPhase, RequestsInv;
    HeldStep(s.acct, s.reqs, id, s'.reqs[id]);
  }

  /** The set of token holders follows the requests, and no more tokens are out than were granted. */
  lemma HeldStep(a: Account, reqs: map<nat, Request>, id: nat, r': Request)
    requires id in reqs && (forall i :: i in a.held <==> i in reqs && HoldsToken(reqs[i]))
    requires a.beyond + |a.held| <= a.grants
    requires HoldsToken(r') <==>
      (reqs[id].phase.Token? && r'.phase.Jitter?) || (HoldsToken(reqs[id]) && reqs[id].phase.Jitter? && r'.phase.Build?)
    ensures var a', reqs' := Accounted(a, id, reqs[id], r'), reqs[id := r'];
      && (forall i :: i in a'.held <==> i in reqs' && HoldsToken(reqs'[i]))
      && a'.beyond + |a'.held| <= a'.grants
      && a'.grants == a.grants + (if reqs[id].phase.Token? && r'.phase.Jitter? then 1 else 0) && a'.born == a.born
  {}

  /** Every step of every interleaving keeps the invariant. */
  lemma NextKeepsInv(cfg: Config, rate: nat, s: Sys, a: Action)
    requires SysInv(cfg, rate, s) && Valid(s, a)
    ensures SysInv(cfg, rate, Next(cfg, rate, s, a))
  {
    match a
    case Arrive(id, key, hash, temperature) => ArriveKeepsInv(cfg, rate, s, a);
    case Tick(now) =>
    case Withhold(p, now) =>
    case Restart(now) => BootedInv(cfg, rate, s.sh.store, now);
    case Act(id, input) =>
      StepKeepsInv(cfg, s.reqs[id], s.sh, input);
      ProbeStep(cfg, rate, s, id, input);
      RateStep(cfg, rate, s, id, input);
      hide Step, ProbeInv, RateInv;
  }

  lemma ArriveKeepsInv(cfg: Config, rate: nat, s: Sys, a: Action)
    requires SysInv(cfg, rate, s) && a.Arrive? && Valid(s, a)
    ensures SysInv(cfg, rate, Next(cfg, rate, s, a))
  {
    var s' := Next(cfg, rate, s, a);
    var r := Fresh(a.key, a.hash, a.temperature);
    FreshInv(cfg, a.key, a.hash, a.temperature);
    ArriveKeepsRate(rate, s, a.id, r);
    ArriveKeepsProbes(s, a.id, r);
    hide Inv, ProbeInv, RateInv;
  }

  lemma ArriveKeepsProbes(s: Sys, id: nat, r: Request)
    requires ProbeInv(s) && id !in s.reqs
    ensures ProbeInv(s.(reqs := s.reqs[id := r]))
  {
    hide Holds;
  }

  lemma ArriveKeepsKeys(s: Sys, id: nat, r: Request, k: string)
    requires KeyInv(s, k) && SettledInv(s, k) && id !in s.reqs && r.phase.Begin?
    ensures KeyInv(s.(reqs := s.reqs[id := r]), k) && SettledInv(s.(reqs := s.reqs[id := r]), k)
  {
    hide Due, SettledEntry;
  }

  lemma ArriveKeepsRate(rate: nat, s: Sys, id: nat, r: Request)
    requires RateInv(rate, s) && id !in s.reqs && !HoldsToken(r)
    ensures RateInv(rate, s.(reqs := s.reqs[id := r]))
  {
    hide T.Accrued;
  }

  lemma FreshInv(cfg: Config, key: Option<string>, hash: string, temperature: bool)
    ensures Inv(cfg, Fresh(key, hash, temperature))
  {}
}

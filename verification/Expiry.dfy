/**
 When the expiry of entries can make two requests share an idempotency key (`read`,
 `begin` and `write` in internal/gateway/idempotency.go).  An entry is stamped in whole
 seconds when it is written, and counts until the stamp is older than the time to live.
 */
module Expiry {
  import opened Common
  import opened Routing
  import opened Interleaving

  /** The gateway with the stamp of each entry and the instant each request claimed its key. */
  datatype Stamped = Stamped(sys: Sys, stamps: map<string, int>, began: map<nat, Time>)

  function Boot(rate: nat, store: map<string, Entry>, stamps: map<string, int>, now: Time): Stamped {
    Stamped(Booted(rate, store, now), stamps, map[])
  }

  /** The step writes the entry of the request's key: a claim that is stored, or a settlement. */
  predicate Writes(r: Request, r': Request, store': map<string, Entry>) {
    r.key.Some? && r.key.value in store' && ((r.phase.Begin? && r'.phase.Scan?) || r.phase.Closing?)
  }

  function Next(cfg: Config, rate: nat, s: Stamped, a: Action): Stamped
    requires Valid(s.sys, a)
  {
    var sys := Interleaving.Next(cfg, rate, s.sys, a);
    if a.Restart? then Stamped(sys, s.stamps, map[])
    else if !a.Act? then s.(sys := sys)
    else
      var r, r' := s.sys.reqs[a.id], sys.reqs[a.id];
      Stamped(sys,
        if Writes(r, r', sys.sh.store) then s.stamps[r.key.value := s.sys.clock.Floor] else s.stamps,
        if r.phase.Begin? then s.began[a.id := s.sys.clock] else s.began)
  }

  predicate BeginsFor(s: Sys, a: Action, key: string) {
    a.Act? && a.id in s.reqs && a.input.BeginIn? && s.reqs[a.id].key == Some(key)
  }

  /** A begin for the key has room for a new entry, and counts an entry as expired by its stamp alone. */
  predicate Honest(s: Stamped, a: Action, key: string, ttl: Time) {
    BeginsFor(s.sys, a, key) ==>
      && (key in s.sys.sh.store || a.input.admit)
      && (a.input.expired <==> key in s.stamps && s.sys.clock - s.stamps[key] as real > ttl)
  }

  /** No request outlives its claim by more than `life`. */
  ghost predicate Lively(s: Stamped, key: string, life: Time) {
    forall id :: id in s.sys.reqs && Claims(s.sys.reqs[id], key) && id in s.began ==> s.sys.clock - s.began[id] <= life
  }

  ghost predicate TimedRun(cfg: Config, rate: nat, s: Stamped, acts: seq<Action>, key: string, ttl: Time, life: Time)
    decreases |acts|, 0
  {
    acts == [] ||
    (var prev, a := acts[..|acts| - 1], acts[|acts| - 1];
     && TimedRun(cfg, rate, s, prev, key, ttl, life)
     && var t := After(cfg, rate, s, prev, key, ttl, life);
        Valid(t.sys, a) && Honest(t, a, key, ttl) && Lively(t, key, life))
  }

  ghost function After(cfg: Config, rate: nat, s: Stamped, acts: seq<Action>, key: string, ttl: Time, life: Time): Stamped
    requires TimedRun(cfg, rate, s, acts, key, ttl, life)
    decreases |acts|, 1
  {
    if acts == [] then s else Next(cfg, rate, After(cfg, rate, s, acts[..|acts| - 1], key, ttl, life), acts[|acts| - 1])
  }

  // ----- while requests are shorter than entries -----

  /** The entry of a key in use is stamped with the second its holder claimed it in. */
  ghost predicate StampInv(s: Stamped, key: string) {
    forall id :: id in s.sys.reqs && Claims(s.sys.reqs[id], key) ==>
      id in s.began && key in s.stamps && s.stamps[key] == s.began[id].Floor
  }

  lemma FloorWithin(t: Time)
    ensures t - 1.0 < t.Floor as real <= t
  {}

  /** An entry does not expire under its holder. */
  lemma HonestGuards(s: Stamped, a: Action, key: string, ttl: Time, life: Time)
    requires StampInv(s, key) && Honest(s, a, key, ttl) && Lively(s, key, life) && life + 1.0 <= ttl
    ensures Guards(s.sys, a, key)
  {
    if BeginsFor(s.sys, a, key) && a.input.expired {
      forall id | id in s.sys.reqs ensures !Claims(s.sys.reqs[id], key) {
        if Claims(s.sys.reqs[id], key) { FloorWithin(s.began[id]); }
      }
    }
  }

  lemma NextKeepsStamps(cfg: Config, rate: nat, s: Stamped, a: Action, key: string)
    requires StampInv(s, key) && KeyInv(s.sys, key) && Valid(s.sys, a) && Guards(s.sys, a, key)
    ensures StampInv(Next(cfg, rate, s, a), key)
  {
    if a.Act? {
      var r := s.sys.reqs[a.id];
      StepStore(cfg, r, s.sys.sh, a.input);
      NextKeepsHolder(cfg, rate, s.sys, a, key);
      if r.key == Some(key) && r.phase.Closing? { assert Claims(r, key); }
      hide Step, Enabled;
    }
  }

  lemma {:induction false} RunKeepsStamps(cfg: Config, rate: nat, s: Stamped, acts: seq<Action>, key: string, ttl: Time, life: Time)
    requires StampInv(s, key) && KeyInv(s.sys, key) && life + 1.0 <= ttl
    requires TimedRun(cfg, rate, s, acts, key, ttl, life)
    ensures var t := After(cfg, rate, s, acts, key, ttl, life); StampInv(t, key) && KeyInv(t.sys, key)
  {
    if acts == [] {
    } else {
      var prev, a := acts[..|acts| - 1], acts[|acts| - 1];
      RunKeepsStamps(cfg, rate, s, prev, key, ttl, life);
      var t := After(cfg, rate, s, prev, key, ttl, life);
      HonestGuards(t, a, key, ttl, life);
      NextKeepsStamps(cfg, rate, t, a, key);
      NextKeepsHolder(cfg, rate, t.sys, a, key);
      hide StampInv, KeyInv, Guards, Honest, Lively;
    }
  }

  // ----- when they are not -----

  lemma RunSnoc(cfg: Config, rate: nat, s: Stamped, acts: seq<Action>, a: Action, key: string, ttl: Time, life: Time)
    requires TimedRun(cfg, rate, s, acts, key, ttl, life)
    requires var t := After(cfg, rate, s, acts, key, ttl, life); Valid(t.sys, a) && Honest(t, a, key, ttl) && Lively(t, key, life)
    ensures TimedRun(cfg, rate, s, acts + [a], key, ttl, life)
    ensures After(cfg, rate, s, acts + [a], key, ttl, life) == Next(cfg, rate, After(cfg, rate, s, acts, key, ttl, life), a)
  {
    assert (acts + [a])[..|acts|] == acts;
  }

  /** Late in a second, so that the stamp is almost a second old when it is written. */
  function Late(ttl: Time, life: Time): Time { if ttl < life then 0.0 else (ttl - life + 1.0) / 2.0 }

  lemma LateFraction(ttl: Time, life: Time)
    requires life + 1.0 > ttl
    ensures var f := Late(ttl, life); 0.0 <= f < 1.0 && f.Floor == 0 && f + life > ttl
  {}

  ghost predicate TwoHolders(s: Sys, key: string) {
    exists i, j :: i != j && i in s.reqs && j in s.reqs && Claims(s.reqs[i], key) && Claims(s.reqs[j], key)
  }

  /** The request `id` in the store's eyes: arrived and begun. */
  function Claimed(key: string): Request { At(Fresh(Some(key), "", false), Scan) }

  lemma FirstClaim(cfg: Config, rate: nat, s0: Stamped, key: string, ttl: Time, life: Time) returns (acts: seq<Action>)
    requires s0 == Boot(rate, map[], map[], s0.sys.clock) && life >= 0.0
    ensures TimedRun(cfg, rate, s0, acts, key, ttl, life)
    ensures var t := After(cfg, rate, s0, acts, key, ttl, life);
      && t.sys.reqs == map[0 := Claimed(key)] && t.sys.clock == s0.sys.clock && key in t.sys.sh.store
      && t.stamps == map[key := s0.sys.clock.Floor] && t.began == map[0 := s0.sys.clock]
  {
    var arrive, begin := Arrive(0, Some(key), "", false), Act(0, BeginIn(true, false));
    RunSnoc(cfg, rate, s0, [], arrive, key, ttl, life);
    RunSnoc(cfg, rate, s0, [] + [arrive], begin, key, ttl, life);
    acts := [] + [arrive] + [begin];
  }

  lemma SecondClaim(cfg: Config, rate: nat, s: Stamped, now: Time, key: string, ttl: Time) returns (s1: Stamped, s2: Stamped)
    requires s.sys.reqs == map[0 := Claimed(key)] && key in s.sys.sh.store && key in s.stamps
    requires s.sys.clock <= now && now - s.stamps[key] as real > ttl
    ensures Valid(s.sys, Tick(now)) && s1 == Next(cfg, rate, s, Tick(now))
    ensures s1.sys.reqs == s.sys.reqs && s1.sys.clock == now && s1.began == s.began
    ensures var arrive := Arrive(1, Some(key), "", false); Valid(s1.sys, arrive) && s2 == Next(cfg, rate, s1, arrive)
    ensures s2.sys.reqs == s.sys.reqs[1 := Fresh(Some(key), "", false)] && s2.sys.clock == now && s2.began == s.began
    ensures var begin := Act(1, BeginIn(false, true));
      Valid(s2.sys, begin) && Honest(s2, begin, key, ttl) && TwoHolders(Next(cfg, rate, s2, begin).sys, key)
  {
    s1 := Next(cfg, rate, s, Tick(now));
    s2 := Next(cfg, rate, s1, Arrive(1, Some(key), "", false));
    var s3 := Next(cfg, rate, s2, Act(1, BeginIn(false, true)));
    assert s3.sys.reqs[1] == Claimed(key) && s3.sys.reqs[0] == Claimed(key);
  }

  lemma Shared(cfg: Config, rate: nat, key: string, ttl: Time, life: Time) returns (now: Time, acts: seq<Action>)
    requires 0.0 <= life && life + 1.0 > ttl
    ensures var s0 := Boot(rate, map[], map[], now);
      TimedRun(cfg, rate, s0, acts, key, ttl, life) && TwoHolders(After(cfg, rate, s0, acts, key, ttl, life).sys, key)
  {
    now := Late(ttl, life);
    LateFraction(ttl, life);
    var s0 := Boot(rate, map[], map[], now);
    var first := FirstClaim(cfg, rate, s0, key, ttl, life);
    var s1 := After(cfg, rate, s0, first, key, ttl, life);
    var a, b, c := Tick(now + life), Arrive(1, Some(key), "", false), Act(1, BeginIn(false, true));
    var s2, s3 := SecondClaim(cfg, rate, s1, now + life, key, ttl);
    hide Next, TimedRun, After, Late, Valid;
    RunSnoc(cfg, rate, s0, first, a, key, ttl, life);
    RunSnoc(cfg, rate, s0, first + [a], b, key, ttl, life);
    RunSnoc(cfg, rate, s0, first + [a] + [b], c, key, ttl, life);
    acts := first + [a] + [b] + [c];
  }

  /**
   Entries that expire by their stamps never make two requests share a key, whatever
   interleaves and from whatever store the process starts, exactly if every request ends
   at least a second before its entry may expire.
   */
  lemma ExpiryNeverSharesIff(cfg: Config, rate: nat, key: string, ttl: Time, life: Time)
    requires 0.0 <= life
    ensures
      (forall store, stamps, now, acts :: TimedRun(cfg, rate, Boot(rate, store, stamps, now), acts, key, ttl, life) ==>
         !TwoHolders(After(cfg, rate, Boot(rate, store, stamps, now), acts, key, ttl, life).sys, key))
      <==> life + 1.0 <= ttl
  {
    if life + 1.0 <= ttl {
      forall store, stamps, now, acts | TimedRun(cfg, rate, Boot(rate, store, stamps, now), acts, key, ttl, life)
        ensures !TwoHolders(After(cfg, rate, Boot(rate, store, stamps, now), acts, key, ttl, life).sys, key)
      {
        BootedInv(cfg, rate, store, now);
        RunKeepsStamps(cfg, rate, Boot(rate, store, stamps, now), acts, key, ttl, life);
      }
    } else {
      var now, acts := Shared(cfg, rate, key, ttl, life);
    }
  }
}

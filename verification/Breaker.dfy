/**
 The circuit breaker (`circuit` in internal/gateway/server.go) in its simple form:
 it remembers the whole list of outcomes since the last successful probe.
 */
module Breakers {
  import opened Common

  const FLAP_WINDOW: nat := 20
  const FLAP_FAILURES: nat := 8
  const TRIP_FAILURES: nat := 3
  const OPEN_SECONDS: Time := 15.0

  // ----- outcome lists -----

  /** Outcomes oldest first; true is a failure. */
  type Outcomes = seq<bool>

  function Trailing(h: Outcomes): (n: nat)
    ensures n <= |h|
  {
    if h != [] && h[|h| - 1] then Trailing(h[..|h| - 1]) + 1 else 0
  }

  predicate Failed(outcome: bool) { outcome }

  function Failures(h: Outcomes): (n: nat)
    ensures n <= |h|
  {
    CountBound(h, Failed);
    Count(h, Failed)
  }

  /** The newest `n` outcomes, or all of them when there are fewer. */
  function Last(h: Outcomes, n: nat): (r: Outcomes) {
    if |h| <= n then h else h[|h| - n..]
  }

  /** Down: three failures in a row.  Flapping: eight of a full window of twenty. */
  predicate Tripped(h: Outcomes) {
    || Trailing(h) >= TRIP_FAILURES
    || (|h| >= FLAP_WINDOW && Failures(Last(h, FLAP_WINDOW)) >= FLAP_FAILURES)
  }

  // ----- the simple form -----

  /** `until` is None while the circuit is closed. */
  datatype Breaker = Breaker(history: Outcomes, until: Option<Time>, probe: bool)

  const CLOSED := Breaker([], None, false)

  predicate WouldAllow(c: Breaker, now: Time) {
    c.until.None? || (c.until.value <= now && !c.probe)
  }

  function Allow(c: Breaker, now: Time): (Breaker, bool) {
    if c.until.None? then (c, true)
    else if WouldAllow(c, now) then (c.(probe := true), true)
    else (c, false)
  }

  function Result(c: Breaker, failed: bool, now: Time): Breaker {
    if !failed then
      Breaker(if c.probe then [] else c.history + [false], None, false)
    else
      var h := c.history + [true];
      Breaker(h, if Tripped(h) then Some(now + OPEN_SECONDS) else c.until, false)
  }

  function Release(c: Breaker): Breaker { c.(probe := false) }

  function Cooldown(c: Breaker, d: Time, now: Time): Breaker {
    c.(probe := false, until := if c.until.None? || c.until.value < now + d then Some(now + d) else c.until)
  }

  // ----- runs -----

  datatype Op =
    | OpAllow(now: Time)
    | OpResult(failed: bool, now: Time)
    | OpRelease
    | OpCooldown(wait: Time, now: Time)

  function Apply(c: Breaker, op: Op): Breaker {
    match op
    case OpAllow(now) => Allow(c, now).0
    case OpResult(failed, now) => Result(c, failed, now)
    case OpRelease => Release(c)
    case OpCooldown(d, now) => Cooldown(c, d, now)
  }

  function Run(c: Breaker, ops: seq<Op>): Breaker {
    if ops == [] then c else Apply(Run(c, ops[..|ops| - 1]), ops[|ops| - 1])
  }

  lemma {:induction false} LastShifts(h: Outcomes, b: bool, n: nat)
    requires n >= 1 && |h| >= n
    ensures Last(h + [b], n) == Last(h, n)[1..] + [b]
  {}

  lemma FailuresSplit(a: Outcomes, b: Outcomes)
    ensures Failures(a + b) == Failures(a) + Failures(b)
  {
    CountAppend(a, b, Failed);
  }

  /** One more failure never untrips either rule, even as it pushes the oldest outcome out. */
  lemma TrippedStaysTripped(h: Outcomes)
    requires Tripped(h)
    ensures Tripped(h + [true])
  {
    var h' := h + [true];
    assert h'[..|h|] == h;
    if Trailing(h) < TRIP_FAILURES {
      var w := Last(h, FLAP_WINDOW);
      LastShifts(h, true, FLAP_WINDOW);
      assert w == w[..1] + w[1..];
      FailuresSplit(w[..1], w[1..]);
      FailuresSplit(w[1..], [true]);
      assert Failures([true]) == 1;
    }
  }

  lemma {:induction false} TrailingFail(h: Outcomes)
    ensures Trailing(h) <= Failures(h)
  {
    if h != [] && h[|h| - 1] { TrailingFail(h[..|h| - 1]); }
  }

  lemma TrippedNeedsThree(h: Outcomes)
    requires Tripped(h)
    ensures Failures(h) >= TRIP_FAILURES
  {
    TrailingFail(h);
    if |h| >= FLAP_WINDOW {
      assert h == h[..|h| - FLAP_WINDOW] + Last(h, FLAP_WINDOW);
      FailuresSplit(h[..|h| - FLAP_WINDOW], Last(h, FLAP_WINDOW));
    }
  }

  /** The circuit is open, and a failure rather than a requested wait is what opened it. */
  ghost predicate OpenedByResult(c: Breaker, ops: seq<Op>) {
    if ops == [] then false
    else
      var before := Run(c, ops[..|ops| - 1]);
      match ops[|ops| - 1]
      case OpResult(failed, _) =>
        failed && (Tripped(before.history + [true]) || OpenedByResult(c, ops[..|ops| - 1]))
      case _ => OpenedByResult(c, ops[..|ops| - 1])
  }

  lemma {:induction false} OpenedByResultIsTripped(c: Breaker, ops: seq<Op>)
    requires OpenedByResult(c, ops)
    ensures Run(c, ops).until.Some? && Tripped(Run(c, ops).history)
  {
    var prev := ops[..|ops| - 1];
    if OpenedByResult(c, prev) {
      OpenedByResultIsTripped(c, prev);
      TrippedStaysTripped(Run(c, prev).history);
    }
  }

  /**
   In any run, a failure reported to a circuit that failures opened arms a fresh
   full wait: no sequence of waits, releases and late outcomes loses the evidence.
   */
  lemma FailedProbeRearms(c: Breaker, ops: seq<Op>, now: Time)
    requires OpenedByResult(c, ops)
    ensures Run(c, ops + [OpResult(true, now)]).until == Some(now + OPEN_SECONDS)
    ensures OpenedByResult(c, ops + [OpResult(true, now)])
  {
    OpenedByResultIsTripped(c, ops);
    TrippedStaysTripped(Run(c, ops).history);
    assert (ops + [OpResult(true, now)])[..|ops|] == ops;
  }

  predicate IsFailure(op: Op) { op.OpResult? && op.failed }

  /** After a successful probe, a run reopens the circuit only by a requested wait or three failures. */
  lemma {:induction false} RecoveryNeedsThreeFailures(c: Breaker, now: Time, ops: seq<Op>)
    requires c.probe
    requires forall op :: op in ops ==> !op.OpCooldown?
    requires Count(ops, IsFailure) < TRIP_FAILURES
    ensures var d := Run(Result(c, false, now), ops);
      d.until.None? && !d.probe && Failures(d.history) <= Count(ops, IsFailure)
  {
    if ops == [] {
    } else {
      var prev, op := ops[..|ops| - 1], ops[|ops| - 1];
      RecoveryNeedsThreeFailures(c, now, prev);
      var d := Run(Result(c, false, now), prev);
      assert op in ops;
      if op.OpResult? {
        FailuresSplit(d.history, [op.failed]);
        assert Failures([op.failed]) == (if op.failed then 1 else 0);
        if op.failed && Tripped(d.history + [true]) { TrippedNeedsThree(d.history + [true]); }
      }
    }
  }

  // ----- the same, read off the calls made -----

  /** The outcomes among some calls, in order. */
  function Flags(ops: seq<Op>): Outcomes {
    if ops == [] then []
    else
      var op := ops[|ops| - 1];
      Flags(ops[..|ops| - 1]) + if op.OpResult? then [op.failed] else []
  }

  /** A call that claimed the probe: an allow on an open circuit, once its wait was over. */
  ghost predicate Claims(ops: seq<Op>, g: nat) {
    && g < |ops| && ops[g].OpAllow?
    && var until := Run(CLOSED, ops[..g]).until; until.Some? && until.value <= ops[g].now
  }

  /** Someone claimed the probe, and nothing but further allows came after. */
  ghost predicate ProbeOut(ops: seq<Op>) {
    exists g: nat :: Claims(ops, g) && forall n :: g < n < |ops| ==> ops[n].OpAllow?
  }

  /** A success reported while a probe was out. */
  ghost predicate Recovers(ops: seq<Op>, n: nat) {
    n < |ops| && ops[n].OpResult? && !ops[n].failed && ProbeOut(ops[..n])
  }

  /** The calls since the last recovery begin at `s`. */
  ghost predicate Since(ops: seq<Op>, s: nat) {
    && s <= |ops| && (s == 0 || Recovers(ops, s - 1))
    && forall n :: s <= n < |ops| ==> !Recovers(ops, n)
  }

  /** The last three failed, or eight of the last twenty did. */
  predicate Down(h: Outcomes) {
    || (|h| >= 3 && h[|h| - 1] && h[|h| - 2] && h[|h| - 3])
    || (|h| >= 20 && multiset(h[|h| - 20..])[true] >= 8)
  }

  lemma {:induction false} FailuresAreTrues(h: Outcomes)
    ensures Failures(h) == multiset(h)[true]
  {
    if h == [] {
    } else {
      FailuresAreTrues(h[..|h| - 1]);
      assert h == h[..|h| - 1] + [h[|h| - 1]];
    }
  }

  lemma TrippedIsDown(h: Outcomes)
    ensures Tripped(h) <==> Down(h)
  {
    if |h| >= 20 { FailuresAreTrues(h[|h| - 20..]); }
    TrailingThree(h);
  }

  lemma TrailingThree(h: Outcomes)
    ensures Trailing(h) >= 3 <==> |h| >= 3 && h[|h| - 1] && h[|h| - 2] && h[|h| - 3]
  {
    if h != [] && h[|h| - 1] {
      var a := h[..|h| - 1];
      if a != [] && a[|a| - 1] {
        assert Trailing(a) == Trailing(a[..|a| - 1]) + 1;
      }
    }
  }

  /** A claim, and a call that is not an allow, seen from one call later. */
  lemma ClaimsEarlier(ops: seq<Op>, op: Op)
    ensures forall g :: 0 <= g < |ops| ==> Claims(ops + [op], g) == Claims(ops, g)
  {
    forall g: nat | g < |ops| ensures Claims(ops + [op], g) == Claims(ops, g) {
      assert (ops + [op])[..g] == ops[..g];
    }
  }

  lemma ProbeOutGrows(ops: seq<Op>, op: Op)
    ensures ProbeOut(ops + [op]) <==> op.OpAllow? && (ProbeOut(ops) || Claims(ops + [op], |ops|))
  {
    var more := ops + [op];
    hide Claims;
    ClaimsEarlier(ops, op);
    if ProbeOut(more) {
      var g: nat :| Claims(more, g) && forall n :: g < n < |more| ==> more[n].OpAllow?;
      ClaimIsAllow(more, g);
      if g < |ops| {
        assert forall n :: g < n < |ops| ==> more[n] == ops[n];
        assert more[|ops|].OpAllow?;
      }
    }
    if op.OpAllow? && ProbeOut(ops) {
      var g: nat :| Claims(ops, g) && forall n :: g < n < |ops| ==> ops[n].OpAllow?;
      ClaimIsAllow(ops, g);
      assert forall n :: g < n < |more| ==> more[n].OpAllow?;
    }
  }

  lemma ClaimIsAllow(ops: seq<Op>, g: nat)
    requires Claims(ops, g)
    ensures g < |ops| && ops[g].OpAllow?
  {}

  /** The probe is out after exactly the runs that end in a claim and nothing but allows. */
  lemma {:induction false} ProbeIsOut(ops: seq<Op>)
    ensures Run(CLOSED, ops).probe <==> ProbeOut(ops)
  {
    if ops == [] {
    } else {
      var prev, op := ops[..|ops| - 1], ops[|ops| - 1];
      assert ops == prev + [op];
      ProbeIsOut(prev);
      ProbeOutGrows(prev, op);
      hide ProbeOut;
    }
  }

  /** Every run has a last recovery, or none and then the whole of it counts. */
  lemma {:induction false} SinceExists(ops: seq<Op>)
    ensures exists s: nat :: Since(ops, s)
  {
    if ops == [] {
      assert Since(ops, 0);
    } else if Recovers(ops, |ops| - 1) {
      assert Since(ops, |ops|);
    } else {
      var prev := ops[..|ops| - 1];
      SinceExists(prev);
      var s: nat :| Since(prev, s);
      forall n: nat | n < |prev| ensures Recovers(prev, n) == Recovers(ops, n) {
        assert prev[..n] == ops[..n];
      }
      assert Since(ops, s);
    }
  }

  lemma HistoryGrows(ops: seq<Op>, op: Op)
    ensures Run(CLOSED, ops + [op]).history
         == if Recovers(ops + [op], |ops|) then []
            else Run(CLOSED, ops).history + if op.OpResult? then [op.failed] else []
  {
    ProbeIsOut(ops);
    assert (ops + [op])[..|ops|] == ops;
    hide ProbeOut, Tripped;
  }

  /** What a breaker remembers after any run: every outcome since the last recovery, and no other. */
  lemma {:induction false} HistoryIsSinceRecovery(ops: seq<Op>, s: nat)
    requires Since(ops, s)
    ensures Run(CLOSED, ops).history == Flags(ops[s..])
  {
    if ops == [] {
    } else {
      var prev, op := ops[..|ops| - 1], ops[|ops| - 1];
      assert ops == prev + [op];
      HistoryGrows(prev, op);
      hide Run, Recovers;
      if s < |ops| {
        SinceEarlier(ops, s);
        HistoryIsSinceRecovery(prev, s);
        assert ops[s..][..|ops| - s - 1] == prev[s..];
      }
    }
  }

  lemma SinceEarlier(ops: seq<Op>, s: nat)
    requires Since(ops, s) && s < |ops|
    ensures Since(ops[..|ops| - 1], s)
  {
    var prev := ops[..|ops| - 1];
    forall n: nat | n < |prev| ensures Recovers(prev, n) == Recovers(ops, n) {
      assert prev[..n] == ops[..n];
    }
  }

  /**
   After any run, a reported failure arms a fresh fifteen seconds exactly when, counting it,
   the outcomes since the last recovery end in three failures or hold eight in the last
   twenty; otherwise it leaves the wait alone.  A reported success closes the circuit.
   */
  lemma FailureArmsIff(ops: seq<Op>, s: nat, now: Time)
    requires Since(ops, s)
    ensures Run(CLOSED, ops + [OpResult(true, now)]).until
         == if Down(Flags(ops[s..]) + [true]) then Some(now + 15.0) else Run(CLOSED, ops).until
    ensures Run(CLOSED, ops + [OpResult(false, now)]).until == None
  {
    HistoryIsSinceRecovery(ops, s);
    TrippedIsDown(Flags(ops[s..]) + [true]);
    assert (ops + [OpResult(true, now)])[..|ops|] == ops;
    assert (ops + [OpResult(false, now)])[..|ops|] == ops;
    hide Tripped, Down, Since;
  }

  /** A call that puts a wait in force: one asked for, or a failure that leaves the circuit down. */
  ghost predicate Arms(ops: seq<Op>, n: nat) {
    && n < |ops|
    && (ops[n].OpCooldown? || (ops[n].OpResult? && ops[n].failed && Down(Run(CLOSED, ops[..n]).history + [true])))
  }

  /** A wait was put in force, and no success has been reported since. */
  ghost predicate Waiting(ops: seq<Op>) {
    exists a: nat :: Arms(ops, a) && forall n :: a < n < |ops| ==> !(ops[n].OpResult? && !ops[n].failed)
  }

  lemma WaitingGrows(ops: seq<Op>, op: Op)
    ensures Waiting(ops + [op]) <==> Arms(ops + [op], |ops|) || (Waiting(ops) && !(op.OpResult? && !op.failed))
  {
    var more := ops + [op];
    forall a: nat | a < |ops| ensures Arms(more, a) == Arms(ops, a) {
      assert more[..a] == ops[..a];
    }
    if Waiting(more) {
      var a: nat :| Arms(more, a) && forall n :: a < n < |more| ==> !(more[n].OpResult? && !more[n].failed);
      if a < |ops| {
        assert forall n :: a < n < |ops| ==> more[n] == ops[n];
        assert more[|ops|] == op;
      }
    }
    if Waiting(ops) && !(op.OpResult? && !op.failed) {
      var a: nat :| Arms(ops, a) && forall n :: a < n < |ops| ==> !(ops[n].OpResult? && !ops[n].failed);
      assert Arms(more, a) && forall n :: a < n < |more| ==> !(more[n].OpResult? && !more[n].failed);
    }
  }

  /** The circuit is open after exactly the runs in which a wait was put in force since the last success. */
  lemma {:induction false} OpenIffWaiting(ops: seq<Op>)
    ensures Run(CLOSED, ops).until.Some? <==> Waiting(ops)
  {
    if ops == [] {
    } else {
      var prev, op := ops[..|ops| - 1], ops[|ops| - 1];
      assert ops == prev + [op];
      OpenIffWaiting(prev);
      WaitingGrows(prev, op);
      TrippedIsDown(Run(CLOSED, prev).history + [true]);
      hide Waiting, Tripped, Down;
    }
  }

  /** A requested wait lengthens the one in force or changes nothing of it; it forgets no outcome and ends the claim. */
  lemma CooldownNeverShortens(c: Breaker, d: Time, now: Time)
    ensures var c' := Cooldown(c, d, now);
      && c'.history == c.history && !c'.probe && c'.until.Some?
      && c'.until.value >= now + d && (c.until.Some? ==> c'.until.value >= c.until.value)
      && (c'.until == Some(now + d) || c'.until == c.until)
  {}

  /** A half-open circuit stays available until someone claims it: time alone never withdraws it. */
  lemma WouldAllowThenAllow(c: Breaker, seen: Time, now: Time)
    requires WouldAllow(c, seen) && seen <= now
    ensures Allow(c, now).1
  {}

  /** The reverse: a granted claim was visible to the counting pass, and at most one probe is out. */
  lemma AllowClaimsTheProbe(c: Breaker, now: Time)
    ensures Allow(c, now).1 <==> WouldAllow(c, now)
    ensures Allow(c, now).1 && c.until.Some? ==>
      var d := Allow(c, now).0; d.probe && forall later :: !WouldAllow(d, later)
  {}
}

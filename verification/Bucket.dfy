/**
 The token bucket that meters requests and retries (`bucket` in
 internal/gateway/server.go).  `Bucket` is the value the mutex protects and
 `TokenBucket` is the object that updates it in place.
 */
module TokenBuckets {
  import opened Common

  datatype Bucket = Bucket(tokens: real, last: Time, rate: real, burst: real)

  function Full(rate: nat, burst: nat, now: Time): Bucket {
    Bucket(burst as real, now, rate as real, burst as real)
  }

  ghost predicate Valid(b: Bucket) {
    b.rate >= 0.0 && 0.0 <= b.tokens <= b.burst
  }

  function Refilled(b: Bucket, now: Time): real {
    var t := b.tokens + (now - b.last) * b.rate;
    if t < b.burst then t else b.burst
  }

  /** One call: refill for the time that passed, then spend a token if there is one. */
  function Take(b: Bucket, now: Time): (r: (Bucket, bool)) {
    var t := Refilled(b, now);
    if t < 1.0 then (b.(tokens := t, last := now), false)
    else (b.(tokens := t - 1.0, last := now), true)
  }

  lemma TakeValid(b: Bucket, now: Time)
    requires Valid(b) && b.last <= now
    ensures Valid(Take(b, now).0)
  {
    MulNonNegative(now - b.last, b.rate);
  }

  lemma MulNonNegative(x: real, y: real)
    requires x >= 0.0 && y >= 0.0
    ensures x * y >= 0.0
  {}

  class TokenBucket {
    var tokens: real
    var last: Time
    const rate: real
    const burst: real

    function State(): Bucket
      reads this
    {
      Bucket(tokens, last, rate, burst)
    }

    constructor (rate: nat, burst: nat, now: Time)
      ensures State() == Full(rate, burst, now) && Valid(State())
    {
      tokens, last, this.rate, this.burst := burst as real, now, rate as real, burst as real;
    }

    /** The clock is read under the lock, so it never runs backwards between calls. */
    method Allow(now: Time) returns (ok: bool)
      requires Valid(State()) && last <= now
      modifies this
      ensures Valid(State())
      ensures (State(), ok) == Take(old(State()), now)
    {
      TakeValid(State(), now);
      var refill := tokens + (now - last) * rate;
      assert (if refill < burst then refill else burst) == Refilled(State(), now);
      tokens := if refill < burst then refill else burst;
      last := now;
      hide Refilled;
      if tokens < 1.0 {
        return false;
      }
      tokens := tokens - 1.0;
      return true;
    }
  }

  // ----- runs of calls -----

  ghost predicate Ordered(start: Time, ts: seq<Time>) {
    && (forall i :: 0 <= i < |ts| ==> start <= ts[i])
    && (forall i, j :: 0 <= i < j < |ts| ==> ts[i] <= ts[j])
  }

  /** The bucket after calls at the given times. */
  function After(b: Bucket, ts: seq<Time>): (r: Bucket) {
    if ts == [] then b else Take(After(b, ts[..|ts| - 1]), ts[|ts| - 1]).0
  }

  /** Whether the call after those in `ts` would be granted at `now`. */
  predicate Granted(b: Bucket, ts: seq<Time>, now: Time) {
    Take(After(b, ts), now).1
  }

  /** How many of the calls numbered `i` and later are granted. */
  function Grants(b: Bucket, ts: seq<Time>, i: nat): (n: nat)
    requires i <= |ts|
    decreases |ts|
  {
    if i == |ts| then 0
    else Grants(b, ts[..|ts| - 1], i) + if Granted(b, ts[..|ts| - 1], ts[|ts| - 1]) then 1 else 0
  }

  /** What accrues at a rate by an instant: a window earns the difference of two of these. */
  ghost function Accrued(rate: real, t: Time): real { rate * t }

  lemma RefilledAccrues(b: Bucket, now: Time)
    ensures var t := b.tokens + Accrued(b.rate, now) - Accrued(b.rate, b.last);
      Refilled(b, now) == if t < b.burst then t else b.burst
  {
    assert (now - b.last) * b.rate == b.rate * now - b.rate * b.last;
  }

  lemma AccruedMonotone(rate: real, s: Time, t: Time)
    requires rate >= 0.0 && s <= t
    ensures Accrued(rate, s) <= Accrued(rate, t)
  {
    MulNonNegative(t - s, rate);
    assert (t - s) * rate == rate * t - rate * s;
  }

  /** When the window that covers call `i` and later opened. */
  function Opened(ts: seq<Time>, i: nat, now: Time): Time
    requires i <= |ts|
  {
    if i == |ts| then now else ts[i]
  }

  /** What the window opened by call `i` would still allow at `now`. */
  ghost function Room(b: Bucket, ts: seq<Time>, i: nat, now: Time): real
    requires i <= |ts|
  {
    b.burst + (Accrued(b.rate, now) - Accrued(b.rate, Opened(ts, i, now))) - Grants(b, ts, i) as real
  }

  lemma {:induction false} AfterFixed(b: Bucket, ts: seq<Time>)
    ensures After(b, ts).rate == b.rate && After(b, ts).burst == b.burst
    ensures After(b, ts).last == if ts == [] then b.last else ts[|ts| - 1]
  {
    if ts == [] {
    } else {
      AfterFixed(b, ts[..|ts| - 1]);
    }
  }

  lemma RoomStep(b: Bucket, prev: seq<Time>, t: Time, i: nat, now: Time)
    requires i <= |prev|
    ensures Room(b, prev + [t], i, now)
         == Room(b, prev, i, t) + Accrued(b.rate, now) - Accrued(b.rate, t) - if Granted(b, prev, t) then 1.0 else 0.0
  {
    assert (prev + [t])[..|prev|] == prev;
  }

  lemma LevelStep(b: Bucket, prev: seq<Time>, t: Time, now: Time)
    ensures var level := Refilled(After(b, prev), t)
                       + Accrued(b.rate, now) - Accrued(b.rate, t) - if Granted(b, prev, t) then 1.0 else 0.0;
      Refilled(After(b, prev + [t]), now) == if level < b.burst then level else b.burst
  {
    assert (prev + [t])[..|prev|] == prev;
    AfterFixed(b, prev);
    AfterFixed(b, prev + [t]);
    RefilledAccrues(After(b, prev + [t]), now);
  }

  lemma OrderedPrefix(start: Time, ts: seq<Time>, now: Time)
    requires Ordered(start, ts + [now]) && ts != []
    ensures Ordered(start, ts[..|ts| - 1] + [ts[|ts| - 1]]) && start <= ts[|ts| - 1] <= now
  {
    var all := ts + [now];
    assert ts[..|ts| - 1] + [ts[|ts| - 1]] == ts;
    assert all[|ts| - 1] <= all[|ts|];
    assert forall i :: 0 <= i < |ts| ==> ts[i] == all[i];
  }

  /** The window in which the level is the room left, and the level is below every other. */
  ghost predicate Tightest(b: Bucket, ts: seq<Time>, now: Time, w: nat) {
    && w <= |ts|
    && Refilled(After(b, ts), now) == Room(b, ts, w, now)
    && forall i :: 0 <= i <= |ts| ==> Refilled(After(b, ts), now) <= Room(b, ts, i, now)
  }

  /**
   The refilled level is exactly the least room left by any window that ends now:
   the two-number state loses nothing about the whole history of calls.
   */
  lemma {:induction false} LevelIsTightestWindow(b: Bucket, ts: seq<Time>, now: Time) returns (w: nat)
    requires Valid(b) && b.tokens == b.burst && Ordered(b.last, ts + [now])
    ensures Tightest(b, ts, now, w)
  {
    if ts == [] {
      w := 0;
      assert (ts + [now])[0] == now;
      AccruedMonotone(b.rate, b.last, now);
      RefilledAccrues(b, now);
    } else {
      var prev, t := ts[..|ts| - 1], ts[|ts| - 1];
      OrderedPrefix(b.last, ts, now);
      assert prev + [t] == ts;
      var v := LevelIsTightestWindow(b, prev, t);
      LevelStep(b, prev, t, now);
      forall i | 0 <= i <= |prev|
        ensures Room(b, ts, i, now)
             == Room(b, prev, i, t) + Accrued(b.rate, now) - Accrued(b.rate, t) - if Granted(b, prev, t) then 1.0 else 0.0
      {
        RoomStep(b, prev, t, i, now);
      }
      assert Room(b, ts, |ts|, now) == b.burst;
      w := if Refilled(After(b, ts), now) == b.burst then |ts| else v;
    }
  }

  /**
   A full bucket grants a call exactly when granting it keeps every window within
   its bound: it never exceeds burst + rate x elapsed and never refuses without need.
   */
  lemma GrantedIffNoWindowOverdrawn(b: Bucket, ts: seq<Time>, now: Time)
    requires Valid(b) && b.tokens == b.burst && Ordered(b.last, ts + [now])
    ensures Granted(b, ts, now) <==> forall i :: 0 <= i <= |ts| ==> 1.0 <= Room(b, ts, i, now)
  {
    var w := LevelIsTightestWindow(b, ts, now);
  }

  lemma WindowSpend(b: Bucket, prev: seq<Time>, t: Time, i: nat)
    requires i <= |prev| && 0.0 <= Refilled(After(b, prev), t) <= Room(b, prev, i, t)
    ensures Grants(b, prev + [t], i) as real <= b.burst + (Accrued(b.rate, t) - Accrued(b.rate, (prev + [t])[i]))
  {
    assert (prev + [t])[..|prev|] == prev;
    assert Opened(prev, i, t) == (prev + [t])[i];
  }

  lemma WindowAccrual(b: Bucket, prev: seq<Time>, t: Time, i: nat)
    requires Valid(b) && b.tokens == b.burst && Ordered(b.last, prev + [t]) && i <= |prev|
    ensures Grants(b, prev + [t], i) as real <= b.burst + (Accrued(b.rate, t) - Accrued(b.rate, (prev + [t])[i]))
  {
    var w := LevelIsTightestWindow(b, prev, t);
    AfterValid(b, prev, t);
    LevelNonNegative(After(b, prev), t);
    WindowSpend(b, prev, t, i);
  }

  lemma AccruedDifference(rate: real, s: Time, t: Time)
    ensures rate * (t - s) == Accrued(rate, t) - Accrued(rate, s)
  {}

  /** In any window of any run, at most burst + rate x elapsed calls are granted. */
  lemma WindowBound(b: Bucket, ts: seq<Time>, i: nat)
    requires Valid(b) && b.tokens == b.burst && Ordered(b.last, ts) && i < |ts|
    ensures Grants(b, ts, i) as real <= b.burst + b.rate * (ts[|ts| - 1] - ts[i])
  {
    hide Grants, Accrued, Ordered;
    var t := ts[|ts| - 1];
    assert ts[..|ts| - 1] + [t] == ts;
    WindowAccrual(b, ts[..|ts| - 1], t, i);
    EarnedBound(Grants(b, ts, i) as real, b.burst, b.rate, ts[i], t);
  }

  /** A bound by accruals is a bound by rate x elapsed. */
  lemma EarnedBound(n: real, burst: real, rate: real, s: Time, t: Time)
    requires n <= burst + (Accrued(rate, t) - Accrued(rate, s))
    ensures n <= burst + rate * (t - s)
  {
    AccruedDifference(rate, s, t);
    hide Accrued;
  }

  lemma LevelNonNegative(b: Bucket, now: Time)
    requires Valid(b) && b.last <= now
    ensures 0.0 <= Refilled(b, now)
  {
    MulNonNegative(now - b.last, b.rate);
  }

  lemma {:induction false} AfterValid(b: Bucket, ts: seq<Time>, now: Time)
    requires Valid(b) && Ordered(b.last, ts + [now])
    ensures Valid(After(b, ts)) && After(b, ts).last <= now
  {
    AfterFixed(b, ts);
    if ts == [] {
      assert (ts + [now])[0] == now;
    } else {
      OrderedPrefix(b.last, ts, now);
      AfterValid(b, ts[..|ts| - 1], ts[|ts| - 1]);
      TakeValid(After(b, ts[..|ts| - 1]), ts[|ts| - 1]);
    }
  }
}

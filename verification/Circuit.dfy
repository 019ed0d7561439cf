/**
 The circuit breaker in the form the gateway runs (`circuit` in
 internal/gateway/server.go): a consecutive count and a 32-bit word holding one
 bit per outcome.  Every method is proved against the operation of the same name
 on the outcome list.
 */
module Circuits {
  import opened Common
  import B = Breakers

  // ----- 32-bit words -----

  function Pow2(k: nat): (p: nat)
    ensures p >= 1
  {
    if k == 0 then 1 else 2 * Pow2(k - 1)
  }

  const WORD: nat := 0x1_0000_0000
  const WINDOW_MASK_MODULUS: nat := 0x10_0000

  /** `bits.OnesCount32`. */
  function OnesCount(w: nat): (n: nat) {
    if w == 0 then 0 else w % 2 + OnesCount(w / 2)
  }

  /** `(w << 1) | bit` on a uint32. */
  function ShiftIn(w: nat, bit: bool): (r: nat)
    ensures r < WORD
  {
    (2 * w) % WORD + if bit then 1 else 0
  }

  /** The outcomes as an unbounded binary number, newest in the low bit. */
  ghost function Binary(h: B.Outcomes): nat {
    if h == [] then 0 else 2 * Binary(h[..|h| - 1]) + if h[|h| - 1] then 1 else 0
  }

  lemma Pow2Constants()
    ensures Pow2(20) == WINDOW_MASK_MODULUS && Pow2(32) == WORD
  {
    assert Pow2(10) == 1024;
    assert Pow2(20) == 1024 * 1024;
    assert Pow2(30) == 1024 * 1024 * 1024;
  }

  lemma AtLeastOnce(d: int, m: nat)
    requires d >= 1
    ensures d * m >= m
  {}

  lemma QuotientUnique(m: nat, q: int, r: int, q': int, r': int)
    requires 0 <= r < m && 0 <= r' < m && q * m + r == q' * m + r'
    ensures r == r'
  {
    assert (q' - q) * m == r - r' && (q - q') * m == r' - r;
    if q < q' {
      AtLeastOnce(q' - q, m);
    } else if q' < q {
      AtLeastOnce(q - q', m);
    }
  }

  lemma Euclid(x: nat, m: nat)
    requires m >= 1
    ensures x == (x / m) * m + x % m && 0 <= x % m < m
  {}

  lemma Regroup(q: int, m: int, r: int, bit: int)
    ensures 2 * (q * m + r) + bit == q * (2 * m) + (2 * r + bit)
  {}

  lemma DoubleModulo(a: nat, m: nat, bit: nat)
    requires m >= 1 && bit <= 1
    ensures (2 * a + bit) % (2 * m) == 2 * (a % m) + bit
  {
    Euclid(a, m);
    Euclid(2 * a + bit, 2 * m);
    Regroup(a / m, m, a % m, bit);
    QuotientUnique(2 * m, a / m, 2 * (a % m) + bit, (2 * a + bit) / (2 * m), (2 * a + bit) % (2 * m));
  }

  lemma RegroupTwice(q: int, m: int, p: int, r: int)
    ensures q * (2 * m) + (p * m + r) == (2 * q + p) * m + r
  {}

  lemma ModuloTwice(x: nat, m: nat)
    requires m >= 1
    ensures (x % (2 * m)) % m == x % m
  {
    var q, y := x / (2 * m), x % (2 * m);
    Euclid(x, 2 * m);
    Euclid(y, m);
    Euclid(x, m);
    RegroupTwice(q, m, y / m, y % m);
    QuotientUnique(m, 2 * q + y / m, y % m, x / m, x % m);
  }

  lemma ShiftModulo(x: nat, m: nat, bit: nat)
    requires m >= 1 && bit <= 1
    ensures (2 * (x % (2 * m))) % (2 * m) + bit == (2 * x + bit) % (2 * m)
  {
    DoubleModulo(x % (2 * m), m, 0);
    DoubleModulo(x, m, bit);
    ModuloTwice(x, m);
  }

  /** Shifting an outcome into the word is appending it to the list. */
  lemma ShiftInBinary(h: B.Outcomes, bit: bool)
    ensures ShiftIn(Binary(h) % WORD, bit) == Binary(h + [bit]) % WORD
  {
    assert (h + [bit])[..|h|] == h;
    assert Binary(h + [bit]) == 2 * Binary(h) + if bit then 1 else 0;
    hide Binary;
    ShiftModulo(Binary(h), WORD / 2, if bit then 1 else 0);
  }

  lemma OnesCountDouble(low: nat, bit: nat)
    requires bit <= 1
    ensures OnesCount(2 * low + bit) == bit + OnesCount(low)
  {
    assert (2 * low + bit) / 2 == low && (2 * low + bit) % 2 == bit;
  }

  lemma LastStep(h: B.Outcomes, k: nat)
    requires h != [] && k >= 1
    ensures B.Failures(B.Last(h, k)) == B.Failures(B.Last(h[..|h| - 1], k - 1)) + if h[|h| - 1] then 1 else 0
  {
    var l := B.Last(h, k);
    assert l[..|l| - 1] == B.Last(h[..|h| - 1], k - 1);
  }

  /** The ones among the low bits, below a power of two. */
  function LowOnes(x: nat, m: nat): nat
    requires m >= 1
  {
    OnesCount(x % m)
  }

  lemma LowBitsDouble(a: nat, m: nat, bit: nat)
    requires m >= 1 && bit <= 1
    ensures LowOnes(2 * a + bit, 2 * m) == bit + LowOnes(a, m)
  {
    DoubleModulo(a, m, bit);
    OnesCountDouble(a % m, bit);
    hide OnesCount;
  }

  lemma NoBits(h: B.Outcomes, k: nat)
    requires k == 0 || h == []
    ensures LowOnes(Binary(h), Pow2(k)) == B.Failures(B.Last(h, k))
  {
    assert B.Last(h, k) == [];
    ModuloTrivial(Binary(h), Pow2(k));
  }

  lemma ModuloTrivial(x: nat, m: nat)
    requires m == 1 || (x == 0 && m >= 1)
    ensures x % m == 0
  {}

  /** The low `k` bits of the number count exactly the failures among the newest `k` outcomes. */
  lemma {:induction false} LowBitsCountFailures(h: B.Outcomes, k: nat)
    ensures LowOnes(Binary(h), Pow2(k)) == B.Failures(B.Last(h, k))
  {
    if k == 0 || h == [] {
      NoBits(h, k);
    } else {
      var prev, bit := h[..|h| - 1], if h[|h| - 1] then 1 else 0;
      assert Binary(h) == 2 * Binary(prev) + bit && Pow2(k) == 2 * Pow2(k - 1);
      hide *;
      LowBitsDouble(Binary(prev), Pow2(k - 1), bit);
      LowBitsCountFailures(prev, k - 1);
      LastStep(h, k);
    }
  }

  lemma ModuloOfModulo(x: nat)
    ensures (x % WORD) % WINDOW_MASK_MODULUS == x % WINDOW_MASK_MODULUS
  {}

  lemma EmptyHistory()
    ensures Binary([]) == 0 && B.Trailing([]) == 0
  {}

  // ----- the fast form -----

  class Circuit {
    var failures: nat
    var until: Option<Time>
    var probe: bool
    var recent: nat
    var seen: nat
    ghost var history: B.Outcomes

    ghost function State(): B.Breaker
      reads this
    {
      B.Breaker(history, until, probe)
    }

    /** The word, the count of real slots and the consecutive count all follow from the list. */
    ghost predicate Valid()
      reads this
    {
      && failures == B.Trailing(history)
      && recent == Binary(history) % WORD
      && seen == (if |history| < B.FLAP_WINDOW then |history| else B.FLAP_WINDOW)
    }

    constructor ()
      ensures Valid() && State() == B.CLOSED
    {
      failures, until, probe, recent, seen := 0, None, false, 0, 0;
      history := [];
    }

    method Allow(now: Time) returns (ok: bool)
      requires Valid()
      modifies this
      ensures Valid() && (State(), ok) == B.Allow(old(State()), now)
    {
      if until.None? {
        return true;
      }
      if now < until.value || probe {
        return false;
      }
      probe := true;
      return true;
    }

    method WouldAllow(now: Time) returns (ok: bool)
      requires Valid()
      ensures ok == B.WouldAllow(State(), now)
    {
      ok := until.None? || (!(now < until.value) && !probe);
    }

    method Flapping() returns (flapping: bool)
      requires Valid()
      ensures flapping <==> |history| >= B.FLAP_WINDOW && B.Failures(B.Last(history, B.FLAP_WINDOW)) >= B.FLAP_FAILURES
    {
      if seen < B.FLAP_WINDOW {
        return false;
      }
      Pow2Constants();
      ModuloOfModulo(Binary(history));
      LowBitsCountFailures(history, B.FLAP_WINDOW);
      flapping := OnesCount(recent % WINDOW_MASK_MODULUS) >= B.FLAP_FAILURES;
    }

    /** Shifts one outcome into the word, and says what the consecutive count becomes. */
    method Record(failed: bool, count: nat) returns (failures': nat)
      requires Valid() && count == if failed then failures + 1 else 0
      modifies `recent, `seen, `history
      ensures history == old(history) + [failed] && failures' == B.Trailing(history)
      ensures recent == Binary(history) % WORD
      ensures seen == if |history| < B.FLAP_WINDOW then |history| else B.FLAP_WINDOW
    {
      ShiftInBinary(history, failed);
      assert (history + [failed])[..|history|] == history;
      recent := ShiftIn(recent, failed);
      if seen < B.FLAP_WINDOW { seen := seen + 1; }
      history := history + [failed];
      failures' := count;
    }

    method Result(failed: bool, now: Time)
      requires Valid()
      modifies this
      ensures Valid() && State() == B.Result(old(State()), failed, now)
    {
      hide Binary, B.Trailing, B.Failures, B.Last;
      EmptyHistory();
      var recovered := probe;
      probe := false;
      if !failed {
        until := None;
        if recovered {
          failures, recent, seen := 0, 0, 0;
          history := [];
          return;
        }
        failures := Record(false, 0);
        return;
      }
      failures := Record(true, failures + 1);
      var flapping := Flapping();
      if failures >= B.TRIP_FAILURES || flapping {
        until := Some(now + B.OPEN_SECONDS);
      }
    }

    method Release()
      requires Valid()
      modifies this
      ensures Valid() && State() == B.Release(old(State()))
    {
      probe := false;
    }

    /** Extends an existing wait and never shortens it. */
    method Cooldown(d: Time, now: Time)
      requires Valid()
      modifies this
      ensures Valid() && State() == B.Cooldown(old(State()), d, now)
    {
      probe := false;
      if until.None? || until.value < now + d {
        until := Some(now + d);
      }
    }
  }
}

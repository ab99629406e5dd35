/** Exponential backoff with full jitter, over the reals. */
module Backoff {

  /** 2.0 ** 1023 is the last power of two a double holds; the next one raises OverflowError. */
  const MAX_FLOAT_EXPONENT: nat := 1023

  function Min(a: real, b: real): real { if b < a then b else a }

  function Pow2(k: nat): (p: real)
    ensures p >= 1.0
  {
    if k == 0 then 1.0 else 2.0 * Pow2(k - 1)
  }

  function Exponent(attempt: int): nat { if attempt > 1 then attempt - 1 else 0 }

  /** retry_ceiling raises exactly when the power overflows. */
  predicate CeilingRaises(attempt: int) { Exponent(attempt) > MAX_FLOAT_EXPONENT }

  /** 2.0 ** 1024 is out of range: the attempts that raise are those from 1025 on. */
  lemma RaisesFrom1025(attempt: int)
    ensures CeilingRaises(attempt) <==> attempt >= 1025
  {
  }

  function RetryCeiling(attempt: int, base: real, cap: real): real {
    Min(cap, base * Pow2(Exponent(attempt)))
  }

  /** random.uniform(0, ceiling), with the draw u in [0, 1] as a parameter. */
  function RetryDelay(attempt: int, base: real, cap: real, u: real): real {
    u * RetryCeiling(attempt, base, cap)
  }

  function NextAttemptAt(now: real, attempt: int, base: real, cap: real, u: real): real {
    now + RetryDelay(attempt, base, cap, u)
  }

  /** The schedule the tests spell out: start at the base, double, stop at the cap. */
  function CappedDoubling(steps: nat, base: real, cap: real): real {
    if steps == 0 then Min(cap, base) else Min(cap, 2.0 * CappedDoubling(steps - 1, base, cap))
  }

  lemma DoubledUnderCap(cap: real, x: real)
    requires 0.0 <= cap && 0.0 <= x
    ensures Min(cap, 2.0 * Min(cap, x)) == Min(cap, 2.0 * x)
  {
  }

  lemma DoubledScale(base: real, p: real)
    requires 0.0 <= base && 0.0 <= p
    ensures base * (2.0 * p) == 2.0 * (base * p) && 0.0 <= base * p
  {
  }

  lemma {:induction false} CeilingIsCappedDoubling(attempt: nat, base: real, cap: real)
    requires 1 <= attempt && 0.0 <= base && 0.0 <= cap
    ensures RetryCeiling(attempt, base, cap) == CappedDoubling(attempt - 1, base, cap)
  {
    if attempt > 1 {
      CeilingIsCappedDoubling(attempt - 1, base, cap);
      DoubledScale(base, Pow2(attempt - 2));
      DoubledUnderCap(cap, base * Pow2(attempt - 2));
    }
  }

  lemma CeilingBounds(attempt: int, base: real, cap: real)
    requires 0.0 <= base && 0.0 <= cap
    ensures 0.0 <= RetryCeiling(attempt, base, cap) <= cap
  {
    var p := Pow2(Exponent(attempt));
    assert base * p >= 0.0;
  }

  lemma ScaleMonotone(base: real, p: real, q: real)
    requires 0.0 <= base && p <= q
    ensures base * p <= base * q
  {
    assert base * (q - p) >= 0.0;
  }

  lemma {:induction false} CeilingMonotone(early: int, late: int, base: real, cap: real)
    requires early <= late && 0.0 <= base && 0.0 <= cap
    ensures RetryCeiling(early, base, cap) <= RetryCeiling(late, base, cap)
    decreases late - early
  {
    if early < late {
      CeilingMonotone(early, late - 1, base, cap);
      var p, q := Pow2(Exponent(late - 1)), Pow2(Exponent(late));
      assert q >= p;
      ScaleMonotone(base, p, q);
      assert RetryCeiling(late - 1, base, cap) == Min(cap, base * p);
      assert RetryCeiling(late, base, cap) == Min(cap, base * q);
    }
  }

  lemma {:induction false} Pow2Grows(k: nat)
    ensures Pow2(k) >= k as real
  {
    if k > 0 {
      Pow2Grows(k - 1);
    }
  }

  /** With a positive base the ceiling is the cap from some attempt on. */
  lemma CeilingReachesCap(base: real, cap: real) returns (attempt: nat)
    requires 0.0 < base && 0.0 <= cap
    ensures forall later :: later >= attempt ==> RetryCeiling(later, base, cap) == cap
  {
    var ratio := cap / base;
    var k: nat := ratio.Floor + 1;
    attempt := k + 1;
    Pow2Grows(k);
    assert Pow2(k) >= ratio;
    assert base * Pow2(k) >= base * ratio == cap;
    assert RetryCeiling(attempt, base, cap) == cap;
    forall later | later >= attempt
      ensures RetryCeiling(later, base, cap) == cap
    {
      CeilingMonotone(attempt, later, base, cap);
    }
  }

  /** Some attempt reaches the cap before the power of two overflows exactly when the cap is at most base * 2^1023. */
  lemma CapReachedInTimeIff(base: real, cap: real)
    requires 0.0 <= base && 0.0 <= cap
    ensures (exists attempt: int :: !CeilingRaises(attempt) && RetryCeiling(attempt, base, cap) == cap)
       <==> cap <= base * Pow2(MAX_FLOAT_EXPONENT)
  {
    var last := MAX_FLOAT_EXPONENT + 1;
    assert Exponent(last) == MAX_FLOAT_EXPONENT;
    if attempt: int :| !CeilingRaises(attempt) && RetryCeiling(attempt, base, cap) == cap {
      CeilingMonotone(attempt, last, base, cap);
    }
    if cap <= base * Pow2(MAX_FLOAT_EXPONENT) {
      assert !CeilingRaises(last) && RetryCeiling(last, base, cap) == cap;
    }
  }

  /** Every rescheduled row becomes available between now and now plus the ceiling. */
  lemma JitterWindow(now: real, attempt: int, base: real, cap: real, u: real)
    requires 0.0 <= base && 0.0 <= cap && 0.0 <= u <= 1.0
    ensures now <= NextAttemptAt(now, attempt, base, cap, u) <= now + RetryCeiling(attempt, base, cap)
  {
    CeilingBounds(attempt, base, cap);
    var c := RetryCeiling(attempt, base, cap);
    assert 0.0 <= u * c;
    assert (1.0 - u) * c >= 0.0;
    assert (1.0 - u) * c == c - u * c;
  }

  /** The jitter is full: every moment between now and now plus the ceiling is some draw's next attempt, and no other is. */
  lemma JitterIsFull(now: real, attempt: int, base: real, cap: real, at: real)
    requires 0.0 <= base && 0.0 <= cap
    ensures (exists u: real :: 0.0 <= u <= 1.0 && NextAttemptAt(now, attempt, base, cap, u) == at)
       <==> now <= at <= now + RetryCeiling(attempt, base, cap)
  {
    var c := RetryCeiling(attempt, base, cap);
    CeilingBounds(attempt, base, cap);
    if u: real :| 0.0 <= u <= 1.0 && NextAttemptAt(now, attempt, base, cap, u) == at {
      JitterWindow(now, attempt, base, cap, u);
    }
    if now <= at <= now + c {
      var u := if c == 0.0 then 0.0 else (at - now) / c;
      DrawFor(at - now, c);
      assert NextAttemptAt(now, attempt, base, cap, u) == at;
    }
  }

  lemma DrawFor(delay: real, ceiling: real)
    requires 0.0 <= delay <= ceiling
    ensures
      var u := if ceiling == 0.0 then 0.0 else delay / ceiling;
      0.0 <= u <= 1.0 && u * ceiling == delay
  {
    if ceiling > 0.0 {
      var u := delay / ceiling;
      assert u * ceiling == delay;
    }
  }

  /** The ceilings the repository's own unit test lists, for a base of 1 and a cap of 30 seconds. */
  lemma KnownCeilings()
    ensures RetryCeiling(1, 1.0, 30.0) == 1.0 && RetryCeiling(2, 1.0, 30.0) == 2.0 && RetryCeiling(3, 1.0, 30.0) == 4.0
    ensures RetryCeiling(4, 1.0, 30.0) == 8.0 && RetryCeiling(5, 1.0, 30.0) == 16.0
    ensures RetryCeiling(6, 1.0, 30.0) == 30.0 && RetryCeiling(10, 1.0, 30.0) == 30.0
  {
    assert Pow2(3) == 8.0;
    assert Pow2(6) == 64.0;
    assert Pow2(9) == 512.0;
  }
}

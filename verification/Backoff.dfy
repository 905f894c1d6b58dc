/** The exponential backoff between retries (worker/src/consumer.py, backoff_delay_ms). */
module Backoff {
  function Pow(base: real, n: nat): real {
    if n == 0 then 1.0 else base * Pow(base, n - 1)
  }

  function IntPow(base: int, n: nat): int {
    if n == 0 then 1 else base * IntPow(base, n - 1)
  }

  lemma {:induction false} PowAtLeastOne(base: real, n: nat)
    requires base >= 1.0
    ensures Pow(base, n) >= 1.0
  {
    if n > 0 {
      PowAtLeastOne(base, n - 1);
      assert base * Pow(base, n - 1) >= 1.0 * Pow(base, n - 1);
    }
  }

  lemma {:induction false} PowNonNegative(base: real, n: nat)
    requires base >= 0.0
    ensures Pow(base, n) >= 0.0
  {
    if n > 0 {
      PowNonNegative(base, n - 1);
    }
  }

  /** int(base ** attempt * 1000); int() of a non-negative number rounds down. */
  function DelayMs(base: real, attempt: nat): (d: nat)
    requires base >= 0.0
  {
    PowNonNegative(base, attempt);
    (Pow(base, attempt) * 1000.0).Floor
  }

  /** With base >= 1 the delay never shrinks as the attempts go up. */
  lemma {:induction false} DelayMonotone(base: real, a: nat, b: nat)
    requires base >= 1.0 && a <= b
    ensures DelayMs(base, a) <= DelayMs(base, b)
    decreases b - a
  {
    if a < b {
      DelayMonotone(base, a, b - 1);
      PowAtLeastOne(base, b - 1);
      assert base * Pow(base, b - 1) >= 1.0 * Pow(base, b - 1);
    }
  }

  lemma {:induction false} PowOfInt(base: int, n: nat)
    ensures Pow(base as real, n) == IntPow(base, n) as real
  {
    if n > 0 {
      PowOfInt(base, n - 1);
      assert base as real * IntPow(base, n - 1) as real == (base * IntPow(base, n - 1)) as real;
    }
  }

  /** The time a message spends waiting over attempts 1..n. */
  function TotalDelayMs(base: real, n: nat): nat
    requires base >= 0.0
  {
    if n == 0 then 0 else TotalDelayMs(base, n - 1) + DelayMs(base, n)
  }

  /** For an integer base the waits form a geometric series. */
  lemma {:induction false} TotalDelayGeometric(base: nat, n: nat)
    ensures (base - 1) * TotalDelayMs(base as real, n) == 1000 * (IntPow(base, n + 1) - base)
  {
    if n == 0 {
      assert IntPow(base, 1) == base * IntPow(base, 0) == base;
    } else {
      TotalDelayGeometric(base, n - 1);
      PowOfInt(base, n);
      NextTerm(base, TotalDelayMs(base as real, n - 1), IntPow(base, n));
    }
  }

  lemma NextTerm(base: int, total: int, power: int)
    requires (base - 1) * total == 1000 * (power - base)
    ensures (base - 1) * (total + 1000 * power) == 1000 * (base * power - base)
  {
    assert (base - 1) * (total + 1000 * power) == (base - 1) * total + 1000 * ((base - 1) * power);
  }

  /** The runbook's example: base 2 and three attempts wait 14 seconds in all. */
  lemma RunbookExample()
    ensures TotalDelayMs(2.0, 3) == 14_000
  {
    TotalDelayGeometric(2, 3);
    assert IntPow(2, 2) == 4 && IntPow(2, 4) == 16;
    assert 2 as real == 2.0;
  }

  /** For any base: the delay of an attempt is base^attempt seconds in whole milliseconds, rounded down. The powers
      are given one by one. */
  lemma DelayExact(base: real, powers: seq<real>)
    requires base >= 0.0 && powers != [] && powers[0] == 1.0
    requires forall k :: 0 < k < |powers| ==> powers[k] == powers[k - 1] * base
    ensures var d, power := DelayMs(base, |powers| - 1), powers[|powers| - 1];
            d as real <= power * 1000.0 < d as real + 1.0
  {
    PowerIs(base, powers, |powers| - 1);
    PowNonNegative(base, |powers| - 1);
  }

  lemma {:induction false} PowerIs(base: real, powers: seq<real>, n: nat)
    requires n < |powers| && powers[0] == 1.0
    requires forall k :: 0 < k < |powers| ==> powers[k] == powers[k - 1] * base
    ensures Pow(base, n) == powers[n]
  {
    if n > 0 {
      PowerIs(base, powers, n - 1);
      assert powers[n] == powers[n - 1] * base;
    }
  }

  /** A base that is no integer: 1.25 seconds cubed are 1953.125 ms, of which 1953 remain. */
  lemma FractionalExample()
    ensures DelayMs(1.25, 3) == 1953
  {
    DelayExact(1.25, [1.0, 1.25, 1.5625, 1.953125]);
  }
}

/** backoff in internal/pipeline: exponential with equal jitter, on the 64-bit
    shift the code performs. */
module Backoff {
  import opened Durations

  const BASE_BACKOFF: int := SECOND
  const MAX_BACKOFF: int := MINUTE

  function Pow2(n: nat): (p: nat)
    ensures p > 0
  {
    if n == 0 then 1 else 2 * Pow2(n - 1)
  }

  /** baseBackoff << (attempt - 1). */
  function Shifted(attempt: nat): int
    requires attempt >= 1
  {
    Wrap(BASE_BACKOFF * Pow2(attempt - 1))
  }

  /** The d that half-fixed, half-random jitter is drawn around. */
  function Spread(attempt: nat): int
    requires attempt >= 1
  {
    Min(Shifted(attempt), MAX_BACKOFF)
  }

  /** The documented spread: one second, doubling, at most a minute. */
  function Documented(attempt: nat): int
    requires attempt >= 1
  {
    Min(BASE_BACKOFF * Pow2(attempt - 1), MAX_BACKOFF)
  }

  /** rand.N panics on a non-positive bound, which a negative spread produces. */
  predicate Panics(attempt: nat)
    requires attempt >= 1
  {
    Spread(attempt) < 0
  }

  /** d/2 + rand.N(d/2+1), for a random value in [0, d/2]. */
  function Jittered(d: int, random: nat): (wait: int)
    requires d >= 0 && random <= d / 2
    ensures d / 2 <= wait <= d
  {
    d / 2 + random
  }

  /** The attempts past the 34th whose shift happens to stay positive: the bits of
      5^9 that are clear, counted from the top. */
  const LUCKY: set<nat> := {38, 42, 43, 46, 48, 51, 52, 54}

  /** The attempts after which the shift is negative. */
  predicate Overflows(attempt: nat) {
    35 <= attempt <= 55 && attempt !in LUCKY
  }

  /** One more bit: doubling in 64 bits. */
  function Double(x: int): int
    requires IsDuration(x)
  {
    if 2 * x > MAX_DURATION then 2 * x - TWO_64
    else if 2 * x < MIN_DURATION then 2 * x + TWO_64
    else 2 * x
  }

  lemma ShiftStep(attempt: nat)
    requires attempt >= 1
    ensures Shifted(attempt + 1) == Double(Shifted(attempt))
  {
    var x := BASE_BACKOFF * Pow2(attempt - 1);
    assert BASE_BACKOFF * Pow2(attempt) == 2 * x;
    var q := (x - Wrap(x)) / TWO_64;
    assert x == Wrap(x) + q * TWO_64;
    WrapAgain(2 * Wrap(x), 2 * q);
    WrapDouble(Wrap(x));
  }

  lemma WrapDouble(x: int)
    requires IsDuration(x)
    ensures Wrap(2 * x) == Double(x)
  {
    if 2 * x > MAX_DURATION {
      assert 2 * x % TWO_64 == 2 * x;
    } else if x < 0 {
      WrapAgain(2 * x, 1);
    }
  }

  lemma WrapAgain(x: int, q: int)
    ensures Wrap(x + q * TWO_64) == Wrap(x)
  {
    assert (x + q * TWO_64) % TWO_64 == x % TWO_64;
  }

  lemma {:induction false} Pow2Monotone(m: nat, n: nat)
    requires m <= n
    ensures Pow2(m) <= Pow2(n)
  {
    if m < n {
      Pow2Monotone(m, n - 1);
    }
  }

  lemma Pow2Bounds(n: nat)
    requires n <= 33
    ensures Pow2(n) <= 0x2_0000_0000
    ensures n >= 6 ==> Pow2(n) >= 64
  {
    Pow2Monotone(n, 33);
    Pow2Table();
    if n >= 6 {
      Pow2Monotone(6, n);
    }
  }

  lemma Pow2Table()
    ensures Pow2(6) == 64 && Pow2(33) == 0x2_0000_0000
  {
    assert Pow2(3) == 8;
    assert Pow2(6) == 64;
    assert Pow2(9) == 512;
    assert Pow2(12) == 4096;
    assert Pow2(15) == 0x8000;
    assert Pow2(18) == 0x4_0000;
    assert Pow2(21) == 0x20_0000;
    assert Pow2(24) == 0x100_0000;
    assert Pow2(27) == 0x800_0000;
    assert Pow2(30) == 0x4000_0000;
    assert Pow2(33) == 0x2_0000_0000;
  }

  /** The first 34 shifts are exact. */
  lemma ExactShifts(attempt: nat)
    requires 1 <= attempt <= 34
    ensures Shifted(attempt) == BASE_BACKOFF * Pow2(attempt - 1)
  {
    Pow2Bounds(attempt - 1);
  }

  /** The shifts of attempts 34 to 56. */
  const LATE: seq<int> := [
    0x7735940000000000, -0x1194D80000000000, -0x2329B00000000000, -0x4653600000000000,
    0x7359400000000000, -0x194D800000000000, -0x329B000000000000, -0x6536000000000000,
    0x3594000000000000, 0x6B28000000000000, -0x29B0000000000000, -0x5360000000000000,
    0x5940000000000000, -0x4D80000000000000, 0x6500000000000000, -0x3600000000000000,
    -0x6C00000000000000, 0x2800000000000000, 0x5000000000000000, -0x6000000000000000,
    0x4000000000000000, -0x8000000000000000, 0x0]

  lemma LateDoubles(i: nat)
    requires i < 22
    ensures IsDuration(LATE[i]) && LATE[i + 1] == Double(LATE[i])
  {
  }

  lemma {:induction false} LateTable(attempt: nat)
    requires 34 <= attempt <= 56
    ensures Shifted(attempt) == LATE[attempt - 34]
  {
    if attempt == 34 {
      ExactShifts(attempt);
      Pow2Table();
    } else {
      LateTable(attempt - 1);
      LateDoubles(attempt - 35);
      ShiftStep(attempt - 1);
    }
  }

  /** A late shift is negative, or long enough to be capped at a minute. */
  lemma LateShifts(attempt: nat)
    requires 35 <= attempt <= 55
    ensures if attempt in LUCKY then Shifted(attempt) >= MAX_BACKOFF else Shifted(attempt) < 0
  {
    LateTable(attempt);
  }

  /** From the 56th attempt on the shift has pushed every bit out. */
  lemma {:induction false} ShiftsVanish(attempt: nat)
    requires attempt >= 56
    ensures Shifted(attempt) == 0
  {
    if attempt == 56 {
      LateTable(attempt);
    } else {
      ShiftsVanish(attempt - 1);
      ShiftStep(attempt - 1);
    }
  }

  lemma LateDocumented(attempt: nat)
    requires attempt >= 34
    ensures Documented(attempt) == MAX_BACKOFF
  {
    Pow2Monotone(33, attempt - 1);
    Pow2Table();
  }

  /** Exactly when the backoff is the documented one, when computing it panics,
      and when it is no wait at all. */
  lemma BackoffExactly(attempt: nat)
    requires attempt >= 1
    ensures Spread(attempt) == Documented(attempt) <==> attempt <= 34 || attempt in LUCKY
    ensures Panics(attempt) <==> Overflows(attempt)
    ensures attempt >= 56 ==> Spread(attempt) == 0
  {
    if attempt <= 34 {
      ExactShifts(attempt);
    } else {
      LateDocumented(attempt);
      if attempt >= 56 {
        ShiftsVanish(attempt);
      } else {
        LateShifts(attempt);
      }
    }
  }
}

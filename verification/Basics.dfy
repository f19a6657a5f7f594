/** Shared vocabulary: optional values, sums over a sequence of counts, and the
    decimal rendering that rule labels and file cursors use. */
module Basics {

  datatype Option<+T> = None | Some(value: T)

  datatype Result<+T, +E> = Ok(value: T) | Err(error: E)

  /** The sum of a sequence of counts. */
  function Total(xs: seq<nat>): nat {
    if xs == [] then 0 else xs[0] + Total(xs[1..])
  }

  /** Replacing one count moves the sum by exactly the difference. */
  lemma {:induction false} TotalUpdate(xs: seq<nat>, i: nat, v: nat)
    requires i < |xs|
    ensures Total(xs[i := v]) + xs[i] == Total(xs) + v
  {
    var ys := xs[i := v];
    if i == 0 {
      assert ys[1..] == xs[1..];
    } else {
      assert ys[1..] == xs[1..][i - 1 := v];
      TotalUpdate(xs[1..], i - 1, v);
    }
  }

  lemma {:induction false} TotalZero(xs: seq<nat>)
    requires forall i :: 0 <= i < |xs| ==> xs[i] == 0
    ensures Total(xs) == 0
  {
    if xs == [] {
    } else {
      TotalZero(xs[1..]);
    }
  }

  lemma {:induction false} TotalAppend(xs: seq<nat>, ys: seq<nat>)
    ensures Total(xs + ys) == Total(xs) + Total(ys)
  {
    if xs == [] {
      assert xs + ys == ys;
    } else {
      assert (xs + ys)[1..] == xs[1..] + ys;
      TotalAppend(xs[1..], ys);
    }
  }

  /** A level that each step lowers by what it uses, and raises by cost for what it
      takes in, is bounded by what it started from and what came in. */
  lemma {:induction false} Telescope(level: seq<nat>, used: seq<nat>, taken: seq<nat>, cost: nat, m: nat, n: nat)
    requires |used| == |taken| && |level| == |used| + 1 && m <= n <= |used|
    requires forall k :: 0 <= k < |used| ==> level[k + 1] + used[k] <= level[k] + taken[k] * cost
    ensures level[n] + Total(used[m..n]) <= level[m] + Total(taken[m..n]) * cost
  {
    if m < n {
      Telescope(level, used, taken, cost, m, n - 1);
      assert used[m..n] == used[m..n - 1] + [used[n - 1]] && taken[m..n] == taken[m..n - 1] + [taken[n - 1]];
      TotalAppend(used[m..n - 1], [used[n - 1]]);
      TotalAppend(taken[m..n - 1], [taken[n - 1]]);
      assert (Total(taken[m..n - 1]) + taken[n - 1]) * cost == Total(taken[m..n - 1]) * cost + taken[n - 1] * cost;
    }
  }

  /** strconv.Itoa. */
  function Itoa(n: int): string {
    if n < 0 then "-" + Decimal(-n) else Decimal(n)
  }

  /** Decimal digits of a natural number, without leading zeros. */
  function Decimal(n: nat): (s: string)
    ensures |s| > 0
    ensures forall i :: 0 <= i < |s| ==> '0' <= s[i] <= '9'
  {
    if n < 10 then [DigitChar(n)] else Decimal(n / 10) + [DigitChar(n % 10)]
  }

  function DigitChar(d: nat): (c: char)
    requires d < 10
    ensures '0' <= c <= '9' && c as int - '0' as int == d
  {
    ('0' as int + d) as char
  }

  predicate IsDigit(c: char) {
    '0' <= c <= '9'
  }

  function DigitOf(c: char): nat
    requires IsDigit(c)
  {
    c as int - '0' as int
  }

  /** The value of a run of decimal digits; leading zeros are allowed. */
  function DigitsValue(s: string): nat
    requires forall i :: 0 <= i < |s| ==> IsDigit(s[i])
  {
    if s == [] then 0
    else 10 * DigitsValue(s[..|s| - 1]) + DigitOf(s[|s| - 1])
  }

  lemma {:induction false} DecimalValue(n: nat)
    ensures DigitsValue(Decimal(n)) == n
  {
    if n >= 10 {
      DecimalValue(n / 10);
      assert Decimal(n)[..|Decimal(n)| - 1] == Decimal(n / 10);
    }
  }

  /** The order strings compare in, byte by byte, in Go and in SQLite. */
  predicate Less(a: string, b: string) {
    b != [] && (a == [] || a[0] < b[0] || (a[0] == b[0] && Less(a[1..], b[1..])))
  }
}

/**
 * Amounts are JavaScript doubles in the screens; here they are exact reals, so the
 * identities below hold without rounding.
 */
module Money {

  /** `xs.reduce((sum, x) => sum + amount(x), 0)`: a left fold, last element added last. */
  function SumOf<T>(xs: seq<T>, amount: T -> real): real {
    if xs == [] then 0.0 else SumOf(xs[..|xs| - 1], amount) + amount(xs[|xs| - 1])
  }

  /** The total of a concatenation is the sum of the totals. */
  lemma {:induction false} SumOfAppend<T>(a: seq<T>, b: seq<T>, amount: T -> real)
    ensures SumOf(a + b, amount) == SumOf(a, amount) + SumOf(b, amount)
    decreases |b|
  {
    if b != [] {
      assert (a + b)[..|a + b| - 1] == a + b[..|b| - 1];
      assert (a + b)[|a + b| - 1] == b[|b| - 1];
      SumOfAppend(a, b[..|b| - 1], amount);
    } else {
      assert a + b == a;
    }
  }

  /** Adding one more entry adds its amount: the step of a running total. */
  lemma SumOfSnoc<T>(xs: seq<T>, x: T, amount: T -> real)
    ensures SumOf(xs + [x], amount) == SumOf(xs, amount) + amount(x)
  {
    assert (xs + [x])[..|xs|] == xs;
  }

  /** A total of non-negative amounts is non-negative. */
  lemma {:induction false} SumOfNonNegative<T>(xs: seq<T>, amount: T -> real)
    requires forall k :: 0 <= k < |xs| ==> amount(xs[k]) >= 0.0
    ensures SumOf(xs, amount) >= 0.0
    decreases |xs|
  {
    if xs != [] {
      SumOfNonNegative(xs[..|xs| - 1], amount);
    }
  }

  /** Entries that contribute zero do not change the total. */
  lemma {:induction false} SumOfZeros<T>(xs: seq<T>, amount: T -> real)
    requires forall k :: 0 <= k < |xs| ==> amount(xs[k]) == 0.0
    ensures SumOf(xs, amount) == 0.0
    decreases |xs|
  {
    if xs != [] {
      SumOfZeros(xs[..|xs| - 1], amount);
    }
  }

  function Abs(x: real): (r: real)
    ensures r >= 0.0 && (r == x || r == -x)
  {
    if x < 0.0 then -x else x
  }
}

/** Money as integer cents and `BigDecimal.divide(divisor, 2, RoundingMode.HALF_UP)`.

    An amount of `a` cents divided by a whole number `n`, kept to 2 decimals,
    is `RoundHalfUp(a, n)` cents. A percentage is kept in hundredths of a
    percent (33.33% is 3333), so `amount * pct / 100` to 2 decimals is
    `RoundHalfUp(a * p, 10000)` cents. */
module Money {

  /** Hundredths of a percent in a whole: 100.00% is 10000. */
  const WholePercent: int := 10000

  /** `n / d` rounded to the nearest integer, ties away from zero (HALF_UP).
      The result is the unique `r` within half of `d` of `n / d`, ties going
      up for a non-negative `n` and down for a negative one. */
  function RoundHalfUp(n: int, d: int): (r: int)
    requires d > 0
    ensures n >= 0 ==> -d <= 2 * (n - d * r) < d
    ensures n < 0 ==> -d < 2 * (n - d * r) <= d
    ensures n >= 0 ==> r >= 0
    ensures n <= 0 ==> r <= 0
  {
    if n >= 0 then (2 * n + d) / (2 * d) else -((-2 * n + d) / (2 * d))
  }

  /** A share of an EQUAL split: the amount over the member count. */
  function EqualShare(amount: int, members: int): (share: int)
    requires members > 0
    ensures -members <= 2 * (amount - members * share) <= members
  {
    RoundHalfUp(amount, members)
  }

  /** A share of a PERCENTAGE split: amount * pct / 100, kept to cents. */
  function PercentageShare(amount: int, pct: int): (share: int)
    ensures -WholePercent <= 2 * (amount * pct - WholePercent * share) <= WholePercent
  {
    RoundHalfUp(amount * pct, WholePercent)
  }

  function Sum(xs: seq<int>): int {
    if |xs| == 0 then 0 else xs[0] + Sum(xs[1..])
  }

  /** The shares of a PERCENTAGE split, one per requested percentage. */
  function PercentageShares(amount: int, pcts: seq<int>): (shares: seq<int>)
    ensures |shares| == |pcts|
    ensures forall i | 0 <= i < |pcts| :: shares[i] == PercentageShare(amount, pcts[i])
  {
    seq(|pcts|, i requires 0 <= i < |pcts| => PercentageShare(amount, pcts[i]))
  }

  /** A share computed to the cent is exact when nothing is lost: `members`
      times the share is the amount whenever the amount divides evenly. */
  lemma EqualShareExact(amount: int, members: int)
    requires members > 0 && amount % members == 0
    ensures EqualShare(amount, members) == amount / members
  {
    var q := amount / members;
    var s := EqualShare(amount, members);
    assert amount - members * s == members * (q - s);
    WithinHalfIsZero(members, q - s);
  }

  /** A multiple of a positive `d` that lies within half of `d` of zero is zero. */
  lemma WithinHalfIsZero(d: int, k: int)
    requires d > 0 && -d <= 2 * (d * k) <= d
    ensures k == 0
  {
  }

  lemma MulDistributes(a: int, x: int, y: int)
    ensures a * (x + y) == a * x + a * y
  {
  }

  /** The EQUAL shares need not add up to the amount: with `n` members the total
      of the `n` equal shares is off by at most half a cent per member. */
  lemma EqualSplitTotalBound(amount: int, members: int)
    requires members > 0
    ensures -members <= 2 * (members * EqualShare(amount, members) - amount) <= members
  {
  }

  /** 100.00 split three ways gives 33.33 each, 99.99 in total: the cent
      lost to rounding is not given to anyone. */
  lemma EqualSplitLosesACent()
    ensures EqualShare(10000, 3) == 3333
    ensures 3 * EqualShare(10000, 3) == 10000 - 1
  {
  }

  /** 100.00 split six ways gives 16.67 each, 100.02 in total: rounding can
      also overshoot the amount. */
  lemma EqualSplitGainsCents()
    ensures EqualShare(10000, 6) == 1667
    ensures 6 * EqualShare(10000, 6) == 10000 + 2
  {
  }

  /** 100% of an amount is the amount itself. */
  lemma PercentageShareWhole(amount: int)
    ensures PercentageShare(amount, WholePercent) == amount
  {
    var s := PercentageShare(amount, WholePercent);
    assert amount * WholePercent - WholePercent * s == WholePercent * (amount - s);
    WithinHalfIsZero(WholePercent, amount - s);
  }

  /** Over any list of percentages, the total of the rounded shares differs from
      the exact `amount * (sum of percentages)` by at most half a cent per share
      (all scaled by 10000). */
  lemma {:induction false} PercentageSplitTotalBound(amount: int, pcts: seq<int>)
    ensures -5000 * |pcts| <= WholePercent * Sum(PercentageShares(amount, pcts)) - amount * Sum(pcts)
                           <= 5000 * |pcts|
  {
    if |pcts| > 0 {
      var shares := PercentageShares(amount, pcts);
      PercentageSplitTotalBound(amount, pcts[1..]);
      assert shares[1..] == PercentageShares(amount, pcts[1..]);
      var s0, p0 := shares[0], pcts[0];
      var restS, restP := Sum(shares[1..]), Sum(pcts[1..]);
      assert Sum(shares) == s0 + restS;
      assert Sum(pcts) == p0 + restP;
      var head := WholePercent * s0 - amount * p0;
      var tail := WholePercent * restS - amount * restP;
      assert -5000 <= head <= 5000;
      assert -5000 * (|pcts| - 1) <= tail <= 5000 * (|pcts| - 1);
      MulDistributes(amount, p0, restP);
      assert amount * Sum(pcts) == amount * p0 + amount * restP;
    }
  }

  /** When the percentages add up to 100%, the shares add up to the amount to
      within half a cent per share; the code never checks that they do. */
  lemma PercentageSplitOfWhole(amount: int, pcts: seq<int>)
    requires Sum(pcts) == WholePercent
    ensures -|pcts| <= 2 * (Sum(PercentageShares(amount, pcts)) - amount) <= |pcts|
  {
    PercentageSplitTotalBound(amount, pcts);
  }
}

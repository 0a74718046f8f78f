/** The high water mark and the cap on its daily growth (comptoken/src/global_data/daily_distribution_data.rs). */
module Growth {
  import opened Bytes
  import opened Rounding

  const DISTRIBUTION_MULTIPLIER: nat := 146_000
  const MIN_SUPPLY_LIMIT_AMT: nat := 1_000_000
  const END_GOAL_PERCENT_INCREASE: real := 0.00061

  /** What f64::powf(x, -0.3) returns for each whole x; a library routine, so a parameter. */
  type PowerLaw = nat -> real

  function Power(x: real, n: nat): real {
    if n == 0 then 1.0 else x * Power(x, n - 1)
  }

  /** pow(x) is x to the power -0.3: the positive r whose tenth power times the cube of x is one. */
  ghost predicate IsPowerLaw(pow: PowerLaw) {
    forall x: nat {:trigger pow(x)} :: x >= 1 ==> pow(x) > 0.0 && Power(pow(x), 10) * Power(x as real, 3) == 1.0
  }

  function Max(a: nat, b: nat): nat {
    if a >= b then a else b
  }

  function Min(a: nat, b: nat): nat {
    if a <= b then a else b
  }

  /** Rust's `as u64` on a whole f64: out-of-range values go to the nearest end of the range. */
  function CastU64(r: int): nat {
    if r < 0 then 0 else Min(r, U64_RANGE - 1)
  }

  function DistributionLimiter(supply: nat, pow: PowerLaw): real
    requires supply > MIN_SUPPLY_LIMIT_AMT
  {
    pow(supply - MIN_SUPPLY_LIMIT_AMT) + END_GOAL_PERCENT_INCREASE
  }

  /** What the cap lets an event mint, in whole coins. */
  function CappedCoins(supply: nat, pow: PowerLaw): nat
    requires supply >= MIN_SUPPLY_LIMIT_AMT
  {
    if supply == MIN_SUPPLY_LIMIT_AMT then
      // powf(0, -0.3) is infinite, and so is the product; the cast makes it the largest u64
      U64_RANGE - 1
    else
      CastU64(RoundEven(supply as real * DistributionLimiter(supply, pow)))
  }

  function MaxAllowableIncrease(supply: nat, pow: PowerLaw): nat
    requires supply >= MIN_SUPPLY_LIMIT_AMT
  {
    Max(CappedCoins(supply, pow) / DISTRIBUTION_MULTIPLIER, 1)
  }

  function HighWaterMarkIncrease(yesterdaySupply: nat, highWaterMark: nat, mined: nat, pow: PowerLaw): nat {
    var uncapped := Max(highWaterMark, mined) - highWaterMark;
    if yesterdaySupply < MIN_SUPPLY_LIMIT_AMT then uncapped
    else Min(uncapped, MaxAllowableIncrease(yesterdaySupply, pow))
  }

  // ----- the power law

  lemma {:induction false} PowerGrows(a: real, b: real, n: nat)
    requires 0.0 < a <= b
    ensures 0.0 < Power(a, n) <= Power(b, n)
    ensures a < b && n > 0 ==> Power(a, n) < Power(b, n)
  {
    if n > 0 {
      PowerGrows(a, b, n - 1);
      var p, q := Power(a, n - 1), Power(b, n - 1);
      assert a * p <= b * p <= b * q;
      assert a < b ==> a * p < b * p;
    }
  }

  /** A larger supply allows a strictly smaller share. */
  lemma {:induction false} LimiterIsAntitone(smaller: nat, larger: nat, pow: PowerLaw)
    requires IsPowerLaw(pow)
    requires MIN_SUPPLY_LIMIT_AMT < smaller < larger
    ensures END_GOAL_PERCENT_INCREASE < DistributionLimiter(larger, pow) < DistributionLimiter(smaller, pow)
  {
    var x, y := smaller - MIN_SUPPLY_LIMIT_AMT, larger - MIN_SUPPLY_LIMIT_AMT;
    PowerOrder(pow(x), x as real, pow(y), y as real);
  }

  /** Two points on the curve r^10 * x^3 == 1: the larger x has the smaller r. */
  lemma {:induction false} PowerOrder(r: real, x: real, s: real, y: real)
    requires r > 0.0 && s > 0.0 && 0.0 < x <= y
    requires Power(r, 10) * Power(x, 3) == 1.0
    requires Power(s, 10) * Power(y, 3) == 1.0
    ensures s <= r && (x < y ==> s < r)
  {
    PowerGrows(x, y, 3);
    if r < s || (r == s && x < y) {
      PowerGrows(r, s, 10);
      ProductGrows(Power(r, 10), Power(s, 10), Power(x, 3), Power(y, 3));
    }
  }

  lemma {:induction false} ProductGrows(a: real, b: real, c: real, d: real)
    requires 0.0 < a <= b && 0.0 < c <= d && (a < b || c < d)
    ensures a * c < b * d
  {
    assert a * c <= a * d <= b * d;
    assert c < d ==> a * c < a * d;
    assert a < b ==> a * d < b * d;
  }

  lemma {:induction false} ScaleGrows(s: real, a: real, b: real)
    requires s >= 0.0 && a <= b
    ensures s * a <= s * b && a * s <= b * s
  {
  }

  /** At ten thousand million above the threshold the power law has come down to one thousandth. */
  lemma {:induction false} MatureLimiter(supply: nat, pow: PowerLaw)
    requires IsPowerLaw(pow)
    requires supply >= MIN_SUPPLY_LIMIT_AMT + 10_000_000_000
    ensures DistributionLimiter(supply, pow) <= 0.00161
  {
    var x := supply - MIN_SUPPLY_LIMIT_AMT;
    OneThousandthIsOnTheCurve();
    PowerOrder(0.001, 10000000000.0, pow(x), x as real);
  }

  lemma {:induction false} OneThousandthIsOnTheCurve()
    ensures Power(0.001, 10) * Power(10000000000.0, 3) == 1.0
  {
    assert Power(0.001, 5) == 0.000000000000001;
  }

  lemma {:induction false} LimiterAtMostOne(supply: nat, pow: PowerLaw)
    requires IsPowerLaw(pow)
    requires supply > MIN_SUPPLY_LIMIT_AMT
    ensures 0.0 < DistributionLimiter(supply, pow) <= 1.00061
  {
    var x := supply - MIN_SUPPLY_LIMIT_AMT;
    assert Power(1.0, 10) * Power(1.0, 3) == 1.0;
    PowerOrder(1.0, 1.0, pow(x), x as real);
  }

  /** The share of yesterday's supply the cap leaves, before it is rounded. */
  function CappedShare(supply: nat, pow: PowerLaw): real
    requires supply > MIN_SUPPLY_LIMIT_AMT
  {
    supply as real * DistributionLimiter(supply, pow)
  }

  lemma {:induction false} CappedShareBelow(supply: nat, pow: PowerLaw, bound: real)
    requires supply > MIN_SUPPLY_LIMIT_AMT
    requires 0.0 <= DistributionLimiter(supply, pow) <= bound
    ensures 0.0 <= CappedShare(supply, pow) <= bound * supply as real
  {
    var s, limiter := supply as real, DistributionLimiter(supply, pow);
    ScaleGrows(s, 0.0, limiter);
    ScaleGrows(s, limiter, bound);
  }

  lemma {:induction false} CappedShareBounds(supply: nat, pow: PowerLaw)
    requires IsPowerLaw(pow)
    requires supply > MIN_SUPPLY_LIMIT_AMT
    ensures 0.0 <= CappedShare(supply, pow) <= 1.00061 * supply as real
    ensures supply >= MIN_SUPPLY_LIMIT_AMT + 10_000_000_000 ==> CappedShare(supply, pow) <= 0.00161 * supply as real
  {
    LimiterAtMostOne(supply, pow);
    CappedShareBelow(supply, pow, 1.00061);
    if supply >= MIN_SUPPLY_LIMIT_AMT + 10_000_000_000 {
      MatureLimiter(supply, pow);
      CappedShareBelow(supply, pow, 0.00161);
    }
  }

  /** What one event may mint is bounded by the larger of one step and the capped share of yesterday's supply. */
  lemma {:induction false} GrowthCap(yesterdaySupply: nat, highWaterMark: nat, mined: nat, pow: PowerLaw)
    requires IsPowerLaw(pow)
    requires yesterdaySupply > MIN_SUPPLY_LIMIT_AMT
    ensures DISTRIBUTION_MULTIPLIER * HighWaterMarkIncrease(yesterdaySupply, highWaterMark, mined, pow)
            <= Max(DISTRIBUTION_MULTIPLIER, RoundEven(CappedShare(yesterdaySupply, pow)))
  {
    CappedShareBounds(yesterdaySupply, pow);
    var rounded := CastU64(RoundEven(CappedShare(yesterdaySupply, pow)));
    assert rounded <= RoundEven(CappedShare(yesterdaySupply, pow));
    assert DISTRIBUTION_MULTIPLIER * (rounded / DISTRIBUTION_MULTIPLIER) <= rounded;
  }

  /** A number of coins times a rate. */
  function Times(coins: nat, rate: real): real {
    coins as real * rate
  }

  /**
   * The increase is the largest that takes the mark no further than the day's mining and, from a supply of 1000000 on,
   * mints no more than one step of 146000 coins or the rounded share of the supply that the cap allows, within 64 bits.
   */
  lemma {:induction false} IncreaseIsLargestAllowed(
    yesterdaySupply: nat, highWaterMark: nat, mined: nat, pow: PowerLaw, k: nat)
    ensures k <= HighWaterMarkIncrease(yesterdaySupply, highWaterMark, mined, pow)
            <==> && (k == 0 || highWaterMark + k <= mined)
                 && (yesterdaySupply >= 1_000_000 ==> k <= 1 || 146_000 * k < 0x1_0000_0000_0000_0000)
                 && (yesterdaySupply > 1_000_000 ==>
                       var share := Times(yesterdaySupply, pow(yesterdaySupply - 1_000_000) + 0.00061);
                       k <= 1 || 146_000 * k <= RoundEven(share))
  {
    if yesterdaySupply >= MIN_SUPPLY_LIMIT_AMT {
      WholeSteps(k, CappedCoins(yesterdaySupply, pow));
      if k > 0 {
        CappedCoinsCover(yesterdaySupply, pow, 146_000 * k);
      }
    }
  }

  lemma {:induction false} CappedCoinsAre(supply: nat, pow: PowerLaw)
    requires supply > 1_000_000
    ensures CappedCoins(supply, pow) == CastU64(RoundEven(Times(supply, pow(supply - 1_000_000) + 0.00061)))
  {
    assert pow(supply - 1_000_000) + 0.00061 == DistributionLimiter(supply, pow);
    assert Times(supply, DistributionLimiter(supply, pow)) == supply as real * DistributionLimiter(supply, pow);
  }

  lemma {:induction false} CappedCoinsCover(supply: nat, pow: PowerLaw, coins: nat)
    requires supply >= 1_000_000 && coins > 0
    ensures coins <= CappedCoins(supply, pow)
            <==> && coins < 0x1_0000_0000_0000_0000
                 && (supply > 1_000_000 ==>
                       coins <= RoundEven(Times(supply, pow(supply - 1_000_000) + 0.00061)))
  {
    if supply > 1_000_000 {
      CappedCoinsAre(supply, pow);
    }
  }

  /** The curve has one point for each x. */
  lemma {:induction false} PowerLawIs(pow: PowerLaw, x: nat, r: real)
    requires IsPowerLaw(pow) && x >= 1
    requires r > 0.0 && Power(r, 10) * Power(x as real, 3) == 1.0
    ensures pow(x) == r
  {
    PowerOrder(r, x as real, pow(x), x as real);
    PowerOrder(pow(x), x as real, r, x as real);
  }

  /**
   * The same past the threshold, without the library routine: the share is 0.061 percent and the power -0.3 of how far
   * the supply is past 1000000, which is the positive r with r^10 * (supply - 1000000)^3 = 1.
   */
  lemma {:induction false} IncreaseByPowerLaw(
    yesterdaySupply: nat, highWaterMark: nat, mined: nat, pow: PowerLaw, r: real, k: nat)
    requires IsPowerLaw(pow) && yesterdaySupply > 1_000_000
    requires r > 0.0 && Power(r, 10) * Power((yesterdaySupply - 1_000_000) as real, 3) == 1.0
    ensures k <= HighWaterMarkIncrease(yesterdaySupply, highWaterMark, mined, pow)
            <==> && (k == 0 || highWaterMark + k <= mined)
                 && (|| k <= 1
                     || (146_000 * k <= RoundEven(Times(yesterdaySupply, r + 0.00061))
                         && 146_000 * k < 0x1_0000_0000_0000_0000))
  {
    assert pow(yesterdaySupply - 1_000_000) == r by {
      PowerLawIs(pow, yesterdaySupply - 1_000_000, r);
    }
    IncreaseIsLargestAllowed(yesterdaySupply, highWaterMark, mined, pow, k);
  }

  /** How r^10 is ordered is how r is ordered. */
  lemma {:induction false} PowerBetween(low: real, r: real, high: real, a: real, p: real, b: real)
    requires low > 0.0 && r > 0.0 && high > 0.0
    requires a == Power(low, 10) && p == Power(r, 10) && b == Power(high, 10)
    requires a < p < b
    ensures low < r < high
  {
    if r <= low {
      PowerGrows(r, low, 10);
    }
    if high <= r {
      PowerGrows(high, r, 10);
    }
  }

  lemma {:induction false} FactorBetween(a: real, p: real, b: real, cube: real)
    requires cube > 0.0 && a * cube < p * cube < b * cube
    ensures a < p < b
  {
  }

  /** The second day of a program that began with 10000 coins, with 20000 mined: the cap lets the mark rise by 23. */
  lemma {:induction false} SecondDayIsCapped(pow: PowerLaw)
    requires IsPowerLaw(pow)
    ensures HighWaterMarkIncrease(1_460_010_000, 10_000, 20_000, pow) == 23
  {
    var r := pow(1_459_010_000);
    SecondDayRate(r);
    var share := Times(1_460_010_000, r + 0.00061);
    assert share == 1460010000.0 * (r + 0.00061);
    RoundEvenAbove(share, 3_358_000);
    RoundEvenBelow(share, 3_503_999);
    IncreaseIsLargestAllowed(1_460_010_000, 10_000, 20_000, pow, 23);
    IncreaseIsLargestAllowed(1_460_010_000, 10_000, 20_000, pow, 24);
  }

  lemma {:induction false} SecondDayRate(r: real)
    requires r > 0.0 && Power(r, 10) * Power(1459010000.0, 3) == 1.0
    ensures 0.0017 < r < 0.001789
  {
    RateBounds();
    var a, p, b := Power(0.0017, 10), Power(r, 10), Power(0.001789, 10);
    FactorBetween(a, p, b, Power(1459010000.0, 3));
    PowerBetween(0.0017, r, 0.001789, a, p, b);
  }

  lemma {:induction false} RateBounds()
    ensures Power(0.0017, 10) * Power(1459010000.0, 3) < 1.0 < Power(0.001789, 10) * Power(1459010000.0, 3)
    ensures Power(1459010000.0, 3) > 0.0
  {
  }

  lemma {:induction false} WholeSteps(k: nat, coins: nat)
    ensures k <= coins / DISTRIBUTION_MULTIPLIER <==> DISTRIBUTION_MULTIPLIER * k <= coins
  {
  }

  /** Once the supply is mature, one event mints one step or at most 0.161 percent of yesterday's supply. */
  lemma {:induction false} MatureGrowthCap(yesterdaySupply: nat, highWaterMark: nat, mined: nat, pow: PowerLaw)
    requires IsPowerLaw(pow)
    requires yesterdaySupply >= MIN_SUPPLY_LIMIT_AMT + 10_000_000_000
    ensures var minted := DISTRIBUTION_MULTIPLIER * HighWaterMarkIncrease(yesterdaySupply, highWaterMark, mined, pow);
            minted <= DISTRIBUTION_MULTIPLIER || minted as real <= 0.00161 * yesterdaySupply as real + 0.5
  {
    GrowthCap(yesterdaySupply, highWaterMark, mined, pow);
    CappedShareBounds(yesterdaySupply, pow);
    RoundEvenIsClose(CappedShare(yesterdaySupply, pow));
  }

  // ----- the high water mark over many days

  /** What an event reads: the supply the day before and what was mined since. */
  datatype MiningDay = MiningDay(yesterdaySupply: nat, mined: nat)

  function HighWaterMarkAfter(start: nat, days: seq<MiningDay>, pow: PowerLaw): nat {
    if |days| == 0 then start
    else
      var before := HighWaterMarkAfter(start, days[..|days| - 1], pow);
      var day := days[|days| - 1];
      before + HighWaterMarkIncrease(day.yesterdaySupply, before, day.mined, pow)
  }

  function LargestMined(start: nat, days: seq<MiningDay>): nat {
    if |days| == 0 then start
    else Max(LargestMined(start, days[..|days| - 1]), days[|days| - 1].mined)
  }

  /** The mark only rises, never past the best day, and is the best day as long as no event was capped. */
  lemma {:induction false} HighWaterMarkBounds(start: nat, days: seq<MiningDay>, pow: PowerLaw)
    ensures start <= HighWaterMarkAfter(start, days, pow) <= LargestMined(start, days)
    ensures (forall d :: d in days ==> d.yesterdaySupply < MIN_SUPPLY_LIMIT_AMT) ==>
              HighWaterMarkAfter(start, days, pow) == LargestMined(start, days)
  {
    if |days| > 0 {
      HighWaterMarkBounds(start, days[..|days| - 1], pow);
      assert days[|days| - 1] in days;
    }
  }

  /** However tight the cap, a constant daily output is reached within as many events as it is above the mark. */
  lemma {:induction false} ConstantMiningIsReached(start: nat, days: seq<MiningDay>, mined: nat, pow: PowerLaw)
    requires forall d :: d in days ==> d.mined == mined
    ensures start + |days| >= mined ==> HighWaterMarkAfter(start, days, pow) == Max(start, mined)
    ensures start + |days| <= mined ==> start + |days| <= HighWaterMarkAfter(start, days, pow) <= mined
  {
    if |days| > 0 {
      var init := days[..|days| - 1];
      assert forall d :: d in init ==> d in days;
      assert days[|days| - 1] in days;
      ConstantMiningIsReached(start, init, mined, pow);
    }
  }
}

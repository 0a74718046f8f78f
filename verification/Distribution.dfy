/** What a daily distribution event computes, and what a claim reads out of the recorded days. */
module Distribution {
  import opened Bytes
  import opened Clock
  import opened Growth
  import opened Rounding

  const HISTORY_SIZE: nat := 365
  const FUTURE_UBI_VERIFIED_HUMANS: nat := 1_000_000_000

  type Rate = r: real | r >= 0.0 witness 0.0

  /** One recorded day: the factor a balance grows by and the UBI of one verified human. */
  datatype Entry = Entry(rate: Rate, ubi: nat)

  /** A slot of a fresh, zero-filled account. */
  const UNFILLED: Entry := Entry(0.0, 0)

  /** The 365 recorded days, oldest first. */
  type History = h: seq<Entry> | |h| == HISTORY_SIZE witness seq(HISTORY_SIZE, _ => UNFILLED)

  datatype DailyData = DailyData(
    yesterdaySupply: nat,
    highWaterMark: nat,
    lastEventTime: int,
    verifiedHumans: nat,
    history: History)

  /** The slots of a zero-filled account. */
  function FreshHistory(): History {
    seq(HISTORY_SIZE, _ => UNFILLED)
  }

  /** The amounts an event mints to the three banks. */
  datatype Values = Values(interest: nat, verifiedUbi: nat, futureUbi: nat) {
    function Total(): nat {
      interest + verifiedUbi + futureUbi
    }
  }

  function SaturatingSub(a: nat, b: nat): nat {
    if a >= b then a - b else 0
  }

  /** amount * rate in f64, rounded. */
  function Scaled(amount: nat, rate: Rate): nat {
    RoundEven(Product(amount, rate))
  }

  function Product(amount: nat, rate: Rate): (p: real)
    ensures p >= 0.0
  {
    amount as real * rate
  }

  lemma {:induction false} ProductIsMonotone(less: nat, more: nat, lower: Rate, higher: Rate)
    requires less <= more && lower <= higher
    ensures Product(less, lower) <= Product(more, higher)
  {
    ScaleGrows(less as real, lower, higher);
    ScaleGrows(higher, less as real, more as real);
  }

  function HumansShare(humans: nat): (share: real)
    ensures share >= 0.0
  {
    humans as real * 2.0 / (FUTURE_UBI_VERIFIED_HUMANS + humans) as real
  }

  function VerifiedHumanRatio(humans: nat): (r: real)
    ensures 0.0 <= r <= 1.0
  {
    if HumansShare(humans) <= 1.0 then HumansShare(humans) else 1.0
  }

  /** The UBI half of what is distributed, before the part of it that goes to verified humans is taken out. */
  function VerifiedUbi(half: nat, humans: nat): (ubi: nat)
    ensures ubi <= half
    ensures humans == 0 ==> ubi == 0
  {
    var ratio := VerifiedHumanRatio(humans);
    ProductIsMonotone(half, half, ratio, 1.0);
    RoundEvenBelow(Product(half, ratio), half);
    RoundEvenFixesIntegers(0);
    Scaled(half, ratio)
  }

  /** Half of what the event distributes: the interest share, and as much again for UBI. */
  function Half(increase: nat): (half: nat)
    ensures half + half == DISTRIBUTION_MULTIPLIER * increase
  {
    increase * DISTRIBUTION_MULTIPLIER / 2
  }

  function InterestRate(increase: nat, supply: nat): (r: real)
    requires supply > 0
    ensures r >= 0.0
  {
    Half(increase) as real / supply as real
  }

  /** checked_div, or 0 when nobody is verified. */
  function PerHuman(ubi: nat, humans: nat): (each: nat)
    ensures each * humans <= ubi
  {
    if humans == 0 then 0
    else
      assert ubi == ubi / humans * humans + ubi % humans;
      ubi / humans
  }

  /** Interest that the coins waiting in the future UBI bank earn. */
  function FutureUbiInterest(increase: nat, futureBank: nat, supply: nat): nat
    requires supply > 0
  {
    Scaled(futureBank, InterestRate(increase, supply))
  }

  function Split(increase: nat, humans: nat, futureBank: nat, supply: nat): Values
    requires supply > 0
  {
    var half := Half(increase);
    var verifiedUbi := VerifiedUbi(half, humans);
    var futureInterest := FutureUbiInterest(increase, futureBank, supply);
    Values(SaturatingSub(half, futureInterest), verifiedUbi, half - verifiedUbi + futureInterest)
  }

  /** The day an event records. */
  function RecordedDay(increase: nat, humans: nat, supply: nat): Entry
    requires supply > 0
  {
    Entry(1.0 + InterestRate(increase, supply), PerHuman(VerifiedUbi(Half(increase), humans), humans))
  }

  function LastDays<T>(days: seq<T>, n: nat): (r: seq<T>)
    requires n <= |days|
    ensures |r| == n
  {
    days[|days| - n..]
  }

  function Record(history: History, day: Entry): History {
    history[1..] + [day]
  }

  function Distribute(d: DailyData, supply: nat, futureBank: nat, now: int, pow: PowerLaw): (DailyData, Values)
    requires d.yesterdaySupply <= supply
  {
    var stamped := d.(lastEventTime := NormalizeTime(now));
    var mined := supply - d.yesterdaySupply;
    if mined == 0 then
      (stamped.(history := Record(d.history, Entry(1.0, 0))), Values(0, 0, 0))
    else
      var increase := HighWaterMarkIncrease(d.yesterdaySupply, d.highWaterMark, mined, pow);
      var values := Split(increase, d.verifiedHumans, futureBank, supply);
      (stamped.(highWaterMark := d.highWaterMark + increase,
                history := Record(d.history, RecordedDay(increase, d.verifiedHumans, supply)),
                yesterdaySupply := supply + values.Total()),
       values)
  }

  // ----- the three-way split

  /** The bank's interest is never more than the interest half as long as the bank is part of the supply. */
  lemma {:induction false} FutureUbiInterestFits(increase: nat, futureBank: nat, supply: nat)
    requires supply > 0 && futureBank <= supply
    ensures FutureUbiInterest(increase, futureBank, supply) <= Half(increase)
  {
    var half := Half(increase);
    var rate := InterestRate(increase, supply);
    assert Product(supply, rate) == half as real;
    ProductIsMonotone(futureBank, supply, rate, rate);
    RoundEvenBelow(Product(futureBank, rate), half);
  }

  /** Exactly 146000 coins are minted for each coin the mark rises, for any number of verified humans. */
  lemma {:induction false} SplitIsExact(increase: nat, humans: nat, futureBank: nat, supply: nat)
    requires supply > 0 && futureBank <= supply
    ensures var v := Split(increase, humans, futureBank, supply);
            && v.Total() == 146_000 * increase
            && v.interest + FutureUbiInterest(increase, futureBank, supply) == 73_000 * increase
  {
    FutureUbiInterestFits(increase, futureBank, supply);
  }

  /** each is the largest equal part for that many. */
  predicate EqualPart(each: nat, all: nat, humans: nat) {
    each * humans <= all < (each + 1) * humans
  }

  lemma {:induction false} QuotientIsEqualPart(all: nat, humans: nat)
    requires humans > 0
    ensures EqualPart(all / humans, all, humans)
  {
    var each := all / humans;
    assert all == each * humans + all % humans;
    assert (each + 1) * humans == each * humans + humans;
  }

  /** Each verified human gets the largest equal part of what the event sets aside for them. */
  lemma {:induction false} DailyUbiIsEqualPart(increase: nat, humans: nat, futureBank: nat, supply: nat)
    requires supply > 0 && humans > 0
    ensures EqualPart(RecordedDay(increase, humans, supply).ubi,
                      Split(increase, humans, futureBank, supply).verifiedUbi, humans)
  {
    QuotientIsEqualPart(VerifiedUbi(Half(increase), humans), humans);
  }

  /** The recorded factor is 1 and the share of the supply that the interest half is. */
  lemma {:induction false} RecordedRateIs(increase: nat, humans: nat, supply: nat)
    requires supply > 0
    ensures (RecordedDay(increase, humans, supply).rate - 1.0) * supply as real == (73_000 * increase) as real
  {
    assert Half(increase) == 73_000 * increase;
    QuotientTimes((73_000 * increase) as real, supply as real);
  }

  lemma {:induction false} QuotientTimes(a: real, b: real)
    requires b > 0.0
    ensures (1.0 + a / b - 1.0) * b == a
  {
  }

  /**
   * A day as an event must record it when the mark rises by k: the factor is 1 and the interest half's share of the
   * supply, and the UBI the equal part of what goes to the verified humans.
   */
  ghost predicate RecordsEvent(day: Entry, k: nat, humans: nat, supply: nat, verifiedUbi: nat) {
    && (day.rate - 1.0) * supply as real == (73_000 * k) as real
    && (if humans == 0 then day.ubi == 0 else EqualPart(day.ubi, verifiedUbi, humans))
  }

  lemma {:induction false} RecordedDayFits(k: nat, humans: nat, futureBank: nat, supply: nat)
    requires supply > 0
    ensures RecordsEvent(RecordedDay(k, humans, supply), k, humans, supply,
                         Split(k, humans, futureBank, supply).verifiedUbi)
  {
    RecordedRateIs(k, humans, supply);
    if humans > 0 {
      DailyUbiIsEqualPart(k, humans, futureBank, supply);
    }
  }

  /** What the future UBI bank earns is its coins' part of the interest half, by the supply, rounded. */
  lemma {:induction false} FutureUbiInterestIsRounded(increase: nat, futureBank: nat, supply: nat)
    requires supply > 0
    ensures var exact := Times(futureBank, (73_000 * increase) as real / supply as real);
            var earned := FutureUbiInterest(increase, futureBank, supply);
            && exact - ROUND_ERROR <= earned as real <= exact + 0.5
            && (IsTiesToEven(exact, earned) <==> !JustPastEvenTie(exact))
  {
    var rate := InterestRate(increase, supply);
    assert Half(increase) == 73_000 * increase;
    assert Product(futureBank, rate) == Times(futureBank, rate);
    RoundEvenIsClose(Product(futureBank, rate));
    RoundEvenIsTiesToEvenIff(Product(futureBank, rate));
  }

  /** A larger share of the UBI half is no fewer coins, the whole is all, and any share is met to within rounding. */
  lemma {:induction false} ScaledShare(half: nat, share: Rate, larger: Rate)
    requires share <= larger
    ensures Scaled(half, share) <= Scaled(half, larger)
    ensures share == 1.0 ==> Scaled(half, share) == half
    ensures Product(half, share) - ROUND_ERROR <= Scaled(half, share) as real <= Product(half, share) + 0.5
  {
    ProductIsMonotone(half, half, share, larger);
    RoundEvenIsMonotone(Product(half, share), Product(half, larger));
    RoundEvenFixesIntegers(half);
    RoundEvenIsClose(Product(half, share));
  }

  /**
   * More verified humans never get less UBI in all. From a thousand million on they get the whole UBI half; before
   * that, rounded, the part of it that twice their number is of a thousand million and their number.
   */
  lemma {:induction false} VerifiedShare(half: nat, humans: nat, more: nat, ratio: real)
    requires humans <= more
    requires ratio * (1_000_000_000 + humans) as real == (2 * humans) as real
    ensures VerifiedUbi(half, humans) <= VerifiedUbi(half, more)
    ensures humans >= 1_000_000_000 ==> VerifiedUbi(half, humans) == half
    ensures humans < 1_000_000_000 ==>
              var exact, ubi := Times(half, ratio), VerifiedUbi(half, humans);
              && exact - ROUND_ERROR <= ubi as real <= exact + 0.5
              && (IsTiesToEven(exact, ubi) <==> !JustPastEvenTie(exact))
  {
    RatioGrows(humans, more);
    HumansShareIs(humans, ratio);
    ScaledShare(half, VerifiedHumanRatio(humans), VerifiedHumanRatio(more));
    RoundEvenIsTiesToEvenIff(Product(half, VerifiedHumanRatio(humans)));
    assert Product(half, VerifiedHumanRatio(humans)) == Times(half, VerifiedHumanRatio(humans));
  }

  lemma {:induction false} HumansShareIs(humans: nat, ratio: real)
    requires ratio * (1_000_000_000 + humans) as real == (2 * humans) as real
    ensures HumansShare(humans) == ratio
  {
    SameQuotient(ratio, (2 * humans) as real, (1_000_000_000 + humans) as real);
  }

  lemma {:induction false} SameQuotient(q: real, a: real, b: real)
    requires b > 0.0 && q * b == a
    ensures a / b == q
  {
  }

  lemma {:induction false} RatioGrows(humans: nat, more: nat)
    requires humans <= more
    ensures VerifiedHumanRatio(humans) <= VerifiedHumanRatio(more)
    ensures VerifiedHumanRatio(humans) == 1.0 <==> humans >= FUTURE_UBI_VERIFIED_HUMANS
    ensures humans < FUTURE_UBI_VERIFIED_HUMANS ==>
              VerifiedHumanRatio(humans) == HumansShare(humans)
  {
    var goal := FUTURE_UBI_VERIFIED_HUMANS as real;
    ShareGrows(humans as real, more as real, goal);
    ShareGrows(humans as real, humans as real, goal);
  }

  lemma {:induction false} ShareGrows(x: real, y: real, goal: real)
    requires 0.0 <= x <= y && goal > 0.0
    ensures x * 2.0 / (goal + x) <= y * 2.0 / (goal + y)
    ensures x * 2.0 / (goal + x) >= 1.0 <==> x >= goal
    ensures x * 2.0 / (goal + x) == 1.0 ==> x == goal
  {
    QuotientOrder(x * 2.0, goal + x, y * 2.0, goal + y);
    QuotientOrder(1.0, 1.0, x * 2.0, goal + x);
    QuotientOrder(x * 2.0, goal + x, 1.0, 1.0);
    ScaleGrows(goal, x, y);
  }

  /** Comparing fractions by cross-multiplication. */
  lemma {:induction false} QuotientOrder(a: real, b: real, c: real, d: real)
    requires b > 0.0 && d > 0.0
    ensures a / b <= c / d <==> a * d <= c * b
  {
    var p, q := a / b, c / d;
    assert a * d == p * (b * d) by {
      assert p * b == a;
      assert (p * b) * d == p * (b * d);
    }
    assert c * b == q * (b * d) by {
      assert q * d == c;
      assert (q * d) * b == q * (b * d);
    }
    ProductOrder(p, q, b * d);
  }

  lemma {:induction false} ProductOrder(p: real, q: real, c: real)
    requires c > 0.0
    ensures p <= q <==> p * c <= q * c
  {
  }

  /** What an event mints when yesterday's supply is past the cap's threshold and the supply is within 2^61. */
  lemma {:induction false} CappedMintFits(yesterdaySupply: nat, highWaterMark: nat, mined: nat, pow: PowerLaw)
    requires IsPowerLaw(pow)
    requires MIN_SUPPLY_LIMIT_AMT < yesterdaySupply <= 0x2000_0000_0000_0000
    ensures DISTRIBUTION_MULTIPLIER * HighWaterMarkIncrease(yesterdaySupply, highWaterMark, mined, pow)
            <= 0x3000_0000_0000_0000
  {
    GrowthCap(yesterdaySupply, highWaterMark, mined, pow);
    CappedShareBounds(yesterdaySupply, pow);
    RoundEvenBelow(CappedShare(yesterdaySupply, pow), 0x3000_0000_0000_0000);
  }

  /**
   * No 64-bit value an event computes can overflow, as long as the supply is within 2^61 once yesterday's supply is
   * past the cap's threshold, and within the 146001st part of the range before that.
   */
  lemma {:induction false} EventStaysInU64(d: DailyData, supply: nat, futureBank: nat, now: int, pow: PowerLaw)
    requires d.yesterdaySupply <= supply && futureBank <= supply
    requires IsPowerLaw(pow)
    requires if d.yesterdaySupply > MIN_SUPPLY_LIMIT_AMT then supply <= 0x2000_0000_0000_0000
             else supply <= (U64_RANGE - 1) / (DISTRIBUTION_MULTIPLIER + 1)
    ensures var increase := HighWaterMarkIncrease(d.yesterdaySupply, d.highWaterMark, supply - d.yesterdaySupply, pow);
            && DISTRIBUTION_MULTIPLIER * increase < U64_RANGE
            && supply + Distribute(d, supply, futureBank, now, pow).1.Total() < U64_RANGE
            && (increase > 0 ==> d.highWaterMark + increase <= supply)
  {
    var mined := supply - d.yesterdaySupply;
    var increase := HighWaterMarkIncrease(d.yesterdaySupply, d.highWaterMark, mined, pow);
    if d.yesterdaySupply > MIN_SUPPLY_LIMIT_AMT {
      CappedMintFits(d.yesterdaySupply, d.highWaterMark, mined, pow);
    }
    if mined > 0 {
      SplitIsExact(increase, d.verifiedHumans, futureBank, supply);
    }
  }

  // ----- what claims read

  /**
   * The days a claim for n days reads: the last n. Off the range 0..365 the wrapping subtraction 365 - n is at least
   * 365, everything is skipped and no day is read.
   */
  function Window(history: History, n: int): seq<Entry> {
    if 0 <= n <= HISTORY_SIZE then LastDays(history, n) else []
  }

  /** A balance after the given days of interest, rounded every day. */
  function InterestFold(days: seq<Entry>, balance: nat): nat {
    if |days| == 0 then balance
    else InterestFold(days[1..], Scaled(balance, days[0].rate))
  }

  /** The same for a verified human, who also gets each day's UBI. */
  function UbiFold(days: seq<Entry>, balance: nat): nat {
    if |days| == 0 then balance
    else UbiFold(days[1..], Scaled(balance, days[0].rate) + days[0].ubi)
  }

  function UbiSum(days: seq<Entry>): nat {
    if |days| == 0 then 0 else days[0].ubi + UbiSum(days[1..])
  }

  function Interest(days: seq<Entry>, money: nat): nat {
    SaturatingSub(InterestFold(days, money), money)
  }

  /** (interest, ubi) of a verified human. */
  function Distributions(days: seq<Entry>, money: nat): (nat, nat) {
    var ubi := UbiSum(days);
    (SaturatingSub(UbiFold(days, money), money + ubi), ubi)
  }
}

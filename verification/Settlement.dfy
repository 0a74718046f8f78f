/** Laws of claiming: what a balance becomes does not depend on when, or in how many pieces, its days are claimed. */
module Settlement {
  import opened Growth
  import opened Distribution
  import opened Rounding

  /** Every factor an event records: exactly 1, or at least the next double above 1. */
  predicate GrowthRate(r: real) {
    r == 1.0 || r >= 1.0 + EPSILON
  }

  ghost predicate GrowthDays(days: seq<Entry>) {
    forall i :: 0 <= i < |days| ==> GrowthRate(days[i].rate)
  }

  /** Events record only growth factors, as long as the supply is a 64-bit number. */
  lemma {:induction false} RecordedDayGrows(increase: nat, humans: nat, supply: nat)
    requires 0 < supply < 0x1_0000_0000_0000_0000
    ensures GrowthRate(RecordedDay(increase, humans, supply).rate)
    ensures increase > 0 ==> RecordedDay(increase, humans, supply).rate > 1.0
  {
    if increase > 0 {
      assert Half(increase) >= 73_000;
      assert EPSILON * supply as real <= 4096.0;
      QuotientOrder(EPSILON, 1.0, Half(increase) as real, supply as real);
      assert InterestRate(increase, supply) >= EPSILON;
    }
  }

  lemma {:induction false} ScaledGrows(amount: nat, rate: Rate)
    requires GrowthRate(rate)
    ensures Scaled(amount, rate) >= amount
    ensures rate == 1.0 ==> Scaled(amount, rate) == amount
  {
    ProductIsMonotone(amount, amount, 1.0, rate);
    RoundEvenAbove(Product(amount, rate), amount);
    RoundEvenFixesIntegers(amount);
  }

  /** Money added before the day's interest is worth at least as much as money added after it. */
  lemma {:induction false} ScaledShifted(amount: nat, added: nat, rate: Rate)
    requires GrowthRate(rate)
    ensures Scaled(amount + added, rate) >= Scaled(amount, rate) + added
  {
    if rate == 1.0 {
      ScaledGrows(amount + added, rate);
      ScaledGrows(amount, rate);
    } else if added > 0 {
      var extra := added as real * rate;
      ScaleGrows(added as real, 1.0 + EPSILON, rate);
      assert added as real * (1.0 + EPSILON) == added as real + added as real * EPSILON;
      assert Product(amount + added, rate) == Product(amount, rate) + extra;
      RoundEvenShifted(Product(amount, rate), Product(amount + added, rate), added);
    }
  }

  /** No days, no change. */
  lemma {:induction false} FoldsOfNoDays(balance: nat)
    ensures InterestFold([], balance) == balance && UbiFold([], balance) == balance && UbiSum([]) == 0
  {
  }

  /**
   * Each day multiplies what the days before it left by its factor and rounds that, ties to even; a verified human's
   * UBI is added after the day's interest.
   */
  lemma {:induction false} LastDayOfFolds(days: seq<Entry>, day: Entry, balance: nat)
    ensures var before, after := InterestFold(days, balance), InterestFold(days + [day], balance);
            IsTiesToEven(Times(before, day.rate), after) <==> !JustPastEvenTie(Times(before, day.rate))
    ensures var before, after := UbiFold(days, balance), UbiFold(days + [day], balance);
            && after >= day.ubi
            && (IsTiesToEven(Times(before, day.rate), after - day.ubi) <==> !JustPastEvenTie(Times(before, day.rate)))
    ensures UbiSum(days + [day]) == UbiSum(days) + day.ubi
  {
    var interest, ubi := InterestFold(days, balance), UbiFold(days, balance);
    InterestFoldAppend(days, [day], balance);
    UbiFoldAppend(days, [day], balance);
    OneDay(day, interest);
    OneDay(day, ubi);
    ScaledIsTiesToEvenIff(interest, day.rate);
    ScaledIsTiesToEvenIff(ubi, day.rate);
  }

  lemma {:induction false} OneDay(day: Entry, balance: nat)
    ensures InterestFold([day], balance) == Scaled(balance, day.rate)
    ensures UbiFold([day], balance) == Scaled(balance, day.rate) + day.ubi
    ensures UbiSum([day]) == day.ubi
  {
    assert [day][1..] == [];
    FoldsOfNoDays(Scaled(balance, day.rate));
    FoldsOfNoDays(Scaled(balance, day.rate) + day.ubi);
  }

  lemma {:induction false} ScaledIsTiesToEvenIff(amount: nat, rate: Rate)
    ensures IsTiesToEven(Times(amount, rate), Scaled(amount, rate)) <==> !JustPastEvenTie(Times(amount, rate))
  {
    assert Product(amount, rate) == Times(amount, rate);
    RoundEvenIsTiesToEvenIff(Product(amount, rate));
  }

  lemma {:induction false} InterestFoldAppend(early: seq<Entry>, late: seq<Entry>, balance: nat)
    ensures InterestFold(early + late, balance) == InterestFold(late, InterestFold(early, balance))
  {
    if |early| == 0 {
      assert early + late == late;
    } else {
      assert (early + late)[1..] == early[1..] + late;
      InterestFoldAppend(early[1..], late, Scaled(balance, early[0].rate));
    }
  }

  lemma {:induction false} UbiFoldAppend(early: seq<Entry>, late: seq<Entry>, balance: nat)
    ensures UbiFold(early + late, balance) == UbiFold(late, UbiFold(early, balance))
    ensures UbiSum(early + late) == UbiSum(early) + UbiSum(late)
  {
    if |early| == 0 {
      assert early + late == late;
    } else {
      assert (early + late)[1..] == early[1..] + late;
      UbiFoldAppend(early[1..], late, Scaled(balance, early[0].rate) + early[0].ubi);
    }
  }

  /** With growth factors a fold never ends below where it began, so the saturating subtraction never clips. */
  lemma {:induction false} FoldsGrow(days: seq<Entry>, balance: nat)
    requires GrowthDays(days)
    ensures InterestFold(days, balance) >= balance
    ensures UbiFold(days, balance) >= balance + UbiSum(days)
  {
    if |days| > 0 {
      ScaledGrows(balance, days[0].rate);
      assert GrowthDays(days[1..]);
      FoldsGrow(days[1..], Scaled(balance, days[0].rate));
      FoldsGrow(days[1..], Scaled(balance, days[0].rate) + days[0].ubi);
    }
  }

  lemma {:induction false} InterestFoldShifted(days: seq<Entry>, balance: nat, added: nat)
    requires GrowthDays(days)
    ensures InterestFold(days, balance + added) >= InterestFold(days, balance) + added
  {
    if |days| > 0 {
      var rate := days[0].rate;
      ScaledShifted(balance, added, rate);
      assert GrowthDays(days[1..]);
      var grown := Scaled(balance, rate);
      InterestFoldShifted(days[1..], grown, Scaled(balance + added, rate) - grown);
    }
  }

  /** Interest itself, not just the balance, is monotone in the starting balance. */
  lemma {:induction false} InterestIsMonotone(days: seq<Entry>, smaller: nat, larger: nat)
    requires GrowthDays(days) && smaller <= larger
    ensures Interest(days, smaller) <= Interest(days, larger)
  {
    InterestFoldShifted(days, smaller, larger - smaller);
    FoldsGrow(days, smaller);
  }

  lemma {:induction false} UbiFoldDominates(days: seq<Entry>, balance: nat, added: nat)
    requires GrowthDays(days)
    ensures UbiFold(days, balance + added) >= InterestFold(days, balance) + added + UbiSum(days)
  {
    if |days| > 0 {
      var rate := days[0].rate;
      ScaledShifted(balance, added, rate);
      assert GrowthDays(days[1..]);
      var grown := Scaled(balance, rate);
      UbiFoldDominates(days[1..], grown, Scaled(balance + added, rate) - grown + days[0].ubi);
    }
  }

  lemma {:induction false} FoldsAgreeWithoutUbi(days: seq<Entry>, balance: nat)
    requires forall i :: 0 <= i < |days| ==> days[i].ubi == 0
    ensures UbiFold(days, balance) == InterestFold(days, balance) && UbiSum(days) == 0
  {
    if |days| > 0 {
      FoldsAgreeWithoutUbi(days[1..], Scaled(balance, days[0].rate));
    }
  }

  /** A verified human never gets less interest than others on the same balance, and the same where no UBI is paid. */
  lemma {:induction false} VerifiedInterestComparison(days: seq<Entry>, money: nat)
    requires GrowthDays(days)
    ensures Distributions(days, money).0 >= Interest(days, money)
    ensures (forall i :: 0 <= i < |days| ==> days[i].ubi == 0) ==>
              Distributions(days, money) == (Interest(days, money), 0)
  {
    UbiFoldDominates(days, money, 0);
    FoldsGrow(days, money);
    if forall i :: 0 <= i < |days| ==> days[i].ubi == 0 {
      FoldsAgreeWithoutUbi(days, money);
    }
  }

  // ----- claiming once or twice

  /** A balance after a claim that reads the given days. */
  function Claimed(days: seq<Entry>, money: nat, verified: bool): nat {
    if verified then
      var (interest, ubi) := Distributions(days, money);
      money + interest + ubi
    else money + Interest(days, money)
  }

  /** Whatever days are read, a claim leaves the larger of what they make of the money and the money with the UBI. */
  lemma {:induction false} ClaimedIsLarger(days: seq<Entry>, money: nat)
    ensures Claimed(days, money, false) == Max(money, InterestFold(days, money))
    ensures Claimed(days, money, true) == Max(money + UbiSum(days), UbiFold(days, money))
  {
  }

  lemma {:induction false} ClaimedIsFold(days: seq<Entry>, money: nat, verified: bool)
    requires GrowthDays(days)
    ensures Claimed(days, money, verified) == if verified then UbiFold(days, money) else InterestFold(days, money)
  {
    FoldsGrow(days, money);
  }

  /** Recording one day after another into the 365 slots. */
  function RecordAll(history: History, days: seq<Entry>): History {
    if |days| == 0 then history
    else Record(RecordAll(history, days[..|days| - 1]), days[|days| - 1])
  }

  /** However many days are recorded, the slots hold the last 365 of the initial slots and the recorded days. */
  lemma {:induction false} RecordAllKeepsLastDays(history: History, days: seq<Entry>)
    ensures RecordAll(history, days) == LastDays(history + days, 365)
  {
    if |days| == 0 {
      assert history + days == history;
    } else {
      var init, last := days[..|days| - 1], days[|days| - 1];
      RecordAllKeepsLastDays(history, init);
      assert history + days == (history + init) + [last];
    }
  }

  /** A window of n days is the last n of everything recorded so far, initial slots included. */
  lemma {:induction false} WindowIsLastDays(history: History, days: seq<Entry>, n: nat)
    requires n <= HISTORY_SIZE
    ensures Window(RecordAll(history, days), n) == LastDays(history + days, n)
  {
    RecordAllKeepsLastDays(history, days);
  }

  /** The last n days of the log, and of the empty slots before it, by how far they reach beyond a mark. */
  lemma {:induction false} WindowSplits(log: seq<Entry>, mark: nat, n: nat)
    requires mark <= |log| && n <= HISTORY_SIZE
    ensures var taken := Window(RecordAll(FreshHistory(), log), n);
            var unclaimed := log[mark..];
            && (n == |unclaimed| ==> taken == unclaimed)
            && (n > |unclaimed| ==> taken == LastDays(FreshHistory() + log[..mark], n - |unclaimed|) + unclaimed)
            && (n < |unclaimed| ==> unclaimed == unclaimed[..|unclaimed| - n] + taken)
  {
    WindowIsLastDays(FreshHistory(), log, n);
    var paid := FreshHistory() + log[..mark];
    assert log == log[..mark] + log[mark..];
    assert FreshHistory() + log == paid + log[mark..];
    LastDaysOfBoth(paid, log[mark..], n);
  }

  lemma {:induction false} LastDaysOfBoth(early: seq<Entry>, late: seq<Entry>, n: nat)
    requires n <= |early| + |late|
    ensures n >= |late| ==> LastDays(early + late, n) == LastDays(early, n - |late|) + late
    ensures n <= |late| ==> late == late[..|late| - n] + LastDays(early + late, n)
  {
  }

  /**
   * Claiming a days, then b more once b more events have been recorded, leaves the same balance as claiming all a + b
   * at the end: for interest, and for interest with UBI.
   */
  lemma {:induction false} LazyIsEager(history: History, a: nat, days: seq<Entry>, money: nat, verified: bool)
    requires a + |days| <= HISTORY_SIZE
    requires GrowthDays(Window(history, a)) && GrowthDays(days)
    ensures var later := RecordAll(history, days);
            Claimed(Window(later, |days|), Claimed(Window(history, a), money, verified), verified)
            == Claimed(Window(later, a + |days|), money, verified)
  {
    var later := RecordAll(history, days);
    var early := Window(history, a);
    WindowIsLastDays(history, days, |days|);
    WindowIsLastDays(history, days, a + |days|);
    assert Window(later, |days|) == days;
    assert Window(later, a + |days|) == early + days;
    assert GrowthDays(early + days);
    ClaimedIsFold(early, money, verified);
    ClaimedIsFold(days, Claimed(early, money, verified), verified);
    ClaimedIsFold(early + days, money, verified);
    InterestFoldAppend(early, days, money);
    UbiFoldAppend(early, days, money);
  }

  // ----- claims that reach back past the first event

  lemma {:induction false} RecordAllAppend(history: History, early: seq<Entry>, late: seq<Entry>)
    ensures RecordAll(RecordAll(history, early), late) == RecordAll(history, early + late)
  {
    if |late| == 0 {
      assert early + late == early;
    } else {
      RecordAllAppend(history, early, late[..|late| - 1]);
      assert (early + late)[..|early + late| - 1] == early + late[..|late| - 1];
    }
  }

  lemma {:induction false} NothingStaysNothing(rate: Rate)
    ensures Scaled(0, rate) == 0
  {
    ProductIsMonotone(0, 0, rate, rate);
    RoundEvenFixesIntegers(0);
  }

  lemma {:induction false} UnfilledWipes(money: nat)
    ensures Scaled(money, UNFILLED.rate) == 0
  {
    RoundEvenFixesIntegers(0);
  }

  lemma {:induction false} InterestOnNothing(days: seq<Entry>)
    ensures InterestFold(days, 0) == 0
  {
    if |days| > 0 {
      NothingStaysNothing(days[0].rate);
      InterestOnNothing(days[1..]);
    }
  }

  /** Any number of unfilled slots wipes the balance out. */
  lemma {:induction false} UnfilledFold(k: nat, log: seq<Entry>, money: nat)
    requires 0 < k <= HISTORY_SIZE
    ensures InterestFold(LastDays(FreshHistory(), k) + log, money) == InterestFold(log, 0) == 0
    ensures UbiFold(LastDays(FreshHistory(), k) + log, money) == UbiFold(log, 0)
    ensures UbiSum(LastDays(FreshHistory(), k) + log) == UbiSum(log)
  {
    var days := LastDays(FreshHistory(), k) + log;
    UnfilledWipes(money);
    InterestOnNothing(log);
    if k == 1 {
      assert days[1..] == log;
    } else {
      assert days[1..] == LastDays(FreshHistory(), k - 1) + log;
      UnfilledFold(k - 1, log, 0);
    }
  }

  /**
   * A claim of more days than have been recorded, which reads unfilled slots, pays no interest at all. A verified human
   * gets the UBI of the recorded days, and interest only if the UBI alone has outgrown UBI and money together.
   */
  lemma {:induction false} UnfilledWindowPaysNothing(log: seq<Entry>, n: nat, money: nat)
    requires |log| < n <= HISTORY_SIZE
    ensures var days := Window(RecordAll(FreshHistory(), log), n);
            && Interest(days, money) == 0
            && Distributions(days, money) == (SaturatingSub(UbiFold(log, 0), money + UbiSum(log)), UbiSum(log))
  {
    WindowSplits(log, 0, n);
    assert log[0..] == log;
    assert FreshHistory() + log[..0] == FreshHistory();
    UnfilledFold(n - |log|, log, money);
  }

  lemma {:induction false} UbiFoldShifted(days: seq<Entry>, balance: nat, added: nat)
    requires GrowthDays(days)
    ensures UbiFold(days, balance + added) >= UbiFold(days, balance) + added
  {
    if |days| > 0 {
      var rate := days[0].rate;
      ScaledShifted(balance, added, rate);
      assert GrowthDays(days[1..]);
      var grown := Scaled(balance, rate);
      UbiFoldShifted(days[1..], grown + days[0].ubi, Scaled(balance + added, rate) - grown);
    }
  }

  /** The balance after claiming a days, and then, when the days have been recorded on top of the log, those. */
  function ClaimedInTwo(log: seq<Entry>, a: nat, days: seq<Entry>, money: nat, verified: bool): nat
    requires a + |days| <= HISTORY_SIZE
  {
    var history := RecordAll(FreshHistory(), log);
    Claimed(Window(RecordAll(history, days), |days|), Claimed(Window(history, a), money, verified), verified)
  }

  /** The balance after claiming them all at the end. */
  function ClaimedInOne(log: seq<Entry>, a: nat, days: seq<Entry>, money: nat, verified: bool): nat
    requires a + |days| <= HISTORY_SIZE
  {
    Claimed(Window(RecordAll(RecordAll(FreshHistory(), log), days), a + |days|), money, verified)
  }

  /** Within the log a window holds recorded days only. */
  lemma {:induction false} WindowInLogGrows(log: seq<Entry>, a: nat)
    requires a <= |log| && a <= HISTORY_SIZE && GrowthDays(log)
    ensures GrowthDays(Window(RecordAll(FreshHistory(), log), a))
  {
    WindowSplits(log, 0, a);
    WindowSplits(log, |log| - a, a);
  }

  lemma {:induction false} LateWindowIsDays(log: seq<Entry>, days: seq<Entry>)
    requires |days| <= HISTORY_SIZE
    ensures Window(RecordAll(RecordAll(FreshHistory(), log), days), |days|) == days
  {
    WindowIsLastDays(RecordAll(FreshHistory(), log), days, |days|);
  }

  /** Claims that read recorded days only are worth the same in one part and in two. */
  lemma {:induction false} SettlementsAgreeInLog(
    log: seq<Entry>, a: nat, days: seq<Entry>, money: nat, verified: bool)
    requires a <= |log| && a + |days| <= HISTORY_SIZE
    requires GrowthDays(log) && GrowthDays(days)
    ensures ClaimedInTwo(log, a, days, money, verified) == ClaimedInOne(log, a, days, money, verified)
  {
    WindowInLogGrows(log, a);
    LazyIsEager(RecordAll(FreshHistory(), log), a, days, money, verified);
  }

  /** What a claim that reaches back past the log comes to. */
  lemma {:induction false} UnfilledClaim(log: seq<Entry>, n: nat, money: nat)
    requires |log| < n <= HISTORY_SIZE
    ensures var days := Window(RecordAll(FreshHistory(), log), n);
            && Claimed(days, money, false) == money
            && Claimed(days, money, true) == Max(money + UbiSum(log), UbiFold(log, 0))
  {
    UnfilledWindowPaysNothing(log, n, money);
  }

  lemma {:induction false} UnfilledClaims(log: seq<Entry>, a: nat, days: seq<Entry>, money: nat)
    requires |log| < a && a + |days| <= HISTORY_SIZE
    ensures ClaimedInTwo(log, a, days, money, false) == Claimed(days, money, false)
    ensures ClaimedInOne(log, a, days, money, false) == money
  {
    UnfilledClaim(log, a, money);
    LateWindowIsDays(log, days);
    RecordAllAppend(FreshHistory(), log, days);
    UnfilledClaim(log + days, a + |days|, money);
  }

  lemma {:induction false} UnfilledClaimInTwo(
    log: seq<Entry>, a: nat, days: seq<Entry>, money: nat, kept: nat, fromUbi: nat)
    requires |log| < a && a + |days| <= HISTORY_SIZE
    requires kept == money + UbiSum(log) && fromUbi == UbiFold(log, 0)
    ensures ClaimedInTwo(log, a, days, money, true) == Claimed(days, Max(kept, fromUbi), true)
  {
    UnfilledClaim(log, a, money);
    LateWindowIsDays(log, days);
  }

  lemma {:induction false} UnfilledClaimInOne(
    log: seq<Entry>, a: nat, days: seq<Entry>, money: nat, kept: nat, fromUbi: nat)
    requires |log| < a && a + |days| <= HISTORY_SIZE
    requires kept == money + UbiSum(log) && fromUbi == UbiFold(log, 0)
    ensures ClaimedInOne(log, a, days, money, true) == Max(kept + UbiSum(days), UbiFold(days, fromUbi))
  {
    RecordAllAppend(FreshHistory(), log, days);
    UnfilledClaim(log + days, a + |days|, money);
    UbiFoldAppend(log, days, 0);
  }

  /**
   * Exactly when it makes no difference to an unverified user whether the days are claimed in one part or in two: when
   * the first part does not reach back past the first event, or the second pays nothing anyway.
   */
  lemma {:induction false} SettlementAgreesIff(log: seq<Entry>, a: nat, days: seq<Entry>, money: nat)
    requires a + |days| <= HISTORY_SIZE
    requires GrowthDays(log) && GrowthDays(days)
    ensures ClaimedInTwo(log, a, days, money, false) == ClaimedInOne(log, a, days, money, false)
            <==> a <= |log| || Interest(days, money) == 0
  {
    if a <= |log| {
      SettlementsAgreeInLog(log, a, days, money, false);
    } else {
      UnfilledClaims(log, a, days, money);
    }
  }

  /**
   * For a verified human it makes no difference, besides, when the UBI alone has outgrown the money: both ways then pay
   * what the UBI has become.
   */
  lemma {:induction false} VerifiedSettlementAgreesIff(log: seq<Entry>, a: nat, days: seq<Entry>, money: nat)
    requires a + |days| <= HISTORY_SIZE
    requires GrowthDays(log) && GrowthDays(days)
    ensures ClaimedInTwo(log, a, days, money, true) == ClaimedInOne(log, a, days, money, true)
            <==> || a <= |log|
                 || money + UbiSum(log) <= UbiFold(log, 0)
                 || Distributions(days, money + UbiSum(log)).0 == 0
  {
    if a <= |log| {
      SettlementsAgreeInLog(log, a, days, money, true);
    } else {
      UnfilledSettlementAgreesIff(log, a, days, money, money + UbiSum(log), UbiFold(log, 0));
    }
  }

  lemma {:induction false} UnfilledSettlementAgreesIff(
    log: seq<Entry>, a: nat, days: seq<Entry>, money: nat, kept: nat, fromUbi: nat)
    requires |log| < a && a + |days| <= HISTORY_SIZE
    requires kept == money + UbiSum(log) && fromUbi == UbiFold(log, 0)
    requires GrowthDays(days)
    ensures ClaimedInTwo(log, a, days, money, true) == ClaimedInOne(log, a, days, money, true)
            <==> kept <= fromUbi || Distributions(days, kept).0 == 0
  {
    UnfilledClaimInTwo(log, a, days, money, kept, fromUbi);
    UnfilledClaimInOne(log, a, days, money, kept, fromUbi);
    UnfilledSettlements(days, fromUbi, kept);
  }

  /** Growing the larger of two balances, or growing one and keeping the other: when that is the same. */
  lemma {:induction false} UnfilledSettlements(days: seq<Entry>, fromUbi: nat, kept: nat)
    requires GrowthDays(days)
    ensures Claimed(days, Max(kept, fromUbi), true) == Max(kept + UbiSum(days), UbiFold(days, fromUbi))
            <==> kept <= fromUbi || Distributions(days, kept).0 == 0
  {
    FoldsGrow(days, kept);
    FoldsGrow(days, fromUbi);
    if fromUbi < kept {
      UbiFoldShifted(days, fromUbi, kept - fromUbi);
    }
  }
}

/**
 * What the interest bank can pay of what it owes, in every run in which each day has its event first: all but a
 * rounding allowance and the debt that users make who mine before they claim.
 */
module Solvency {
  import opened Bytes
  import opened Clock
  import opened Distribution
  import opened EventLog
  import opened Growth
  import opened Ledger
  import opened Options
  import opened Rounding
  import opened Runs
  import opened Settlement
  import opened Sums
  import opened SupplyLaw
  import opened TransferHook

  /** What a user's coins will be once every unclaimed event is paid. */
  ghost function Worth(w: World, u: Hash): nat
    requires u in w.marks && w.marks[u] <= |w.log|
  {
    InterestFold(Unclaimed(w, u), BalanceOf(w.state, Wallet(u)))
  }

  /** Marks fit the log, and the logged days only let balances grow. */
  ghost predicate Settled(w: World) {
    && w.marks.Keys == w.state.users.Keys
    && (forall u :: u in w.marks ==> w.marks[u] <= |w.log|)
    && GrowthDays(w.log)
  }

  lemma {:induction false} WorthIsAtLeastHeld(w: World, u: Hash)
    requires Settled(w) && u in w.marks
    ensures GrowthDays(Unclaimed(w, u))
    ensures Worth(w, u) >= BalanceOf(w.state, Wallet(u))
  {
    FoldsGrow(Unclaimed(w, u), BalanceOf(w.state, Wallet(u)));
  }

  /** The interest a user is due for the unclaimed events. */
  ghost function Due(w: World, u: Hash): nat
    requires Settled(w) && u in w.marks
  {
    WorthIsAtLeastHeld(w, u);
    Worth(w, u) - BalanceOf(w.state, Wallet(u))
  }

  ghost function Dues(w: World): (dues: map<Hash, nat>)
    requires Settled(w)
    ensures dues.Keys == w.marks.Keys
  {
    map u | u in w.marks :: Due(w, u)
  }

  ghost function Worths(w: World): (worths: map<Hash, nat>)
    requires Settled(w)
    ensures worths.Keys == w.marks.Keys && |worths| == |w.marks|
  {
    SameSize(map u | u in w.marks :: Worth(w, u), w.marks);
    map u | u in w.marks :: Worth(w, u)
  }

  lemma {:induction false} SameSize<V, W>(m: map<Hash, V>, other: map<Hash, W>)
    requires m.Keys == other.Keys
    ensures |m| == |other|
  {
    assert |m| == |m.Keys|;
    assert |other| == |other.Keys|;
  }

  ghost function Helds(w: World): (helds: map<Hash, nat>)
    ensures helds.Keys == w.marks.Keys
  {
    map u | u in w.marks :: BalanceOf(w.state, Wallet(u))
  }

  /** The bank and the slack together cover what all users are due. */
  ghost predicate Solvent(w: World)
    requires Settled(w)
  {
    w.slack >= 0.0 && w.state.interestBank as real + w.slack >= Sum(Dues(w)) as real
  }

  /** The bank, the slack and the debt of stale mining together cover it. */
  ghost predicate Covered(w: World)
    requires Settled(w)
  {
    && w.slack >= 0.0 && w.debt >= 0.0
    && w.state.interestBank as real + (w.slack + w.debt) >= Sum(Dues(w)) as real
  }

  // ----- the arithmetic of one event

  /**
   * Users grow by the day's factor and half a coin each at most; the bank gets the interest half less what the future
   * UBI bank earns, again up to half a coin.
   */
  lemma {:induction false} EventArithmetic(
    rate: real, bank: real, future: real, supply: real, due: real, held: real, n: real, slack: real,
    bank1: real, worth1: real)
    requires rate >= 0.0
    requires bank + slack >= due
    requires supply >= held + bank + future
    requires worth1 <= (1.0 + rate) * (due + held) + 0.5 * n
    requires bank1 >= bank + rate * supply - (future * rate + 0.5)
    ensures bank1 + ((1.0 + rate) * slack + (n + 1.0) / 2.0) >= worth1 - held
  {
    assert (1.0 + rate) * (due + held) == due + held + rate * due + rate * held;
    assert (1.0 + rate) * slack == slack + rate * slack;
    var spare := supply - held - bank - future;
    var cover := bank + slack - due;
    assert rate * supply == rate * spare + rate * held + rate * bank + rate * future;
    assert rate * cover == rate * bank + rate * slack - rate * due;
    assert rate * spare >= 0.0 && rate * cover >= 0.0;
    assert future * rate == rate * future;
  }

  lemma {:induction false} WorthAfterDay(days: seq<Entry>, day: Entry, balance: nat)
    ensures InterestFold(days + [day], balance) == Scaled(InterestFold(days, balance), day.rate)
  {
    InterestFoldAppend(days, [day], balance);
    assert [day][1..] == [];
  }

  lemma {:induction false} ScaledGrowsWithin(amount: nat, rate: Rate)
    ensures GrowsWithin(amount, Scaled(amount, rate), 1, rate, 0.5)
  {
    RoundEvenIsClose(Product(amount, rate));
  }

  // ----- an event

  /** What an event with new coins does to the interest bank, and the day it records. */
  lemma {:induction false} EventOutcome(s: State, env: Env, slotHash: Hash, now: int)
    requires s.supply > s.daily.yesterdaySupply
    requires EventStep(s, env, slotHash, now).Some?
    ensures var after := EventStep(s, env, slotHash, now).value;
            var increase := HighWaterMarkIncrease(s.daily.yesterdaySupply, s.daily.highWaterMark,
                                                  s.supply - s.daily.yesterdaySupply, env.pow);
            && after.daily.history[HISTORY_SIZE - 1] == RecordedDay(increase, s.daily.verifiedHumans, s.supply)
            && after.interestBank
               == s.interestBank + Split(increase, s.daily.verifiedHumans, s.futureBank, s.supply).interest
            && after.wallets == s.wallets && after.users == s.users
  {
  }

  lemma {:induction false} QuietEventRecordsOne(s: State, env: Env, slotHash: Hash, now: int)
    requires s.supply == s.daily.yesterdaySupply
    requires EventStep(s, env, slotHash, now).Some?
    ensures var after := EventStep(s, env, slotHash, now).value;
            && after.daily.history[HISTORY_SIZE - 1].rate == 1.0
            && after.interestBank == s.interestBank
            && after.wallets == s.wallets && after.users == s.users
  {
  }

  /** after is w with one more day in the log and the same coins in the wallets. */
  ghost predicate DayAdded(w: World, after: World, day: Entry) {
    after.log == w.log + [day] && after.marks == w.marks && after.state.wallets == w.state.wallets
  }

  lemma {:induction false} WorthAfterEvent(w: World, after: World, day: Entry, u: Hash)
    requires Settled(w) && DayAdded(w, after, day) && u in w.marks
    ensures Worth(after, u) == Scaled(Worth(w, u), day.rate)
  {
    assert Unclaimed(after, u) == Unclaimed(w, u) + [day];
    WorthAfterDay(Unclaimed(w, u), day, BalanceOf(w.state, Wallet(u)));
  }

  lemma {:induction false} EachWorthGrows(w: World, after: World, day: Entry, u: Hash)
    requires Settled(w) && Settled(after) && DayAdded(w, after, day) && u in w.marks
    ensures GrowsWithin(Worth(w, u), Worth(after, u), 1, day.rate, 0.5)
  {
    WorthAfterEvent(w, after, day, u);
    ScaledGrowsWithin(Worth(w, u), day.rate);
  }

  lemma {:induction false} WorthsAfterEvent(w: World, after: World, day: Entry)
    requires Settled(w) && Settled(after) && DayAdded(w, after, day)
    ensures GrowsWithin(Sum(Worths(w)), Sum(Worths(after)), |w.marks|, day.rate, 0.5)
  {
    forall u | u in w.marks
      ensures GrowsWithin(Worths(w)[u], Worths(after)[u], 1, day.rate, 0.5)
    {
      EachWorthGrows(w, after, day, u);
    }
    SumGrowsWithin(Worths(w), Worths(after), day.rate, 0.5);
  }

  lemma {:induction false} DuesAreWorthLessHeld(w: World)
    requires Settled(w)
    ensures Sum(Worths(w)) == Sum(Dues(w)) + Sum(Helds(w))
  {
    assert forall u :: u in w.marks ==> Worths(w)[u] == Dues(w)[u] + Helds(w)[u];
    SumsSplit(Worths(w), Dues(w), Helds(w));
  }

  lemma {:induction false} HeldFitsSupply(w: World, initial: nat)
    requires UsersMarked(w) && Conserved(w, initial)
    ensures w.state.supply >= Sum(Helds(w)) + w.state.interestBank + w.state.futureBank
  {
    SumOverSome(w.state.wallets, Helds(w));
  }

  lemma {:induction false} SameDues(w: World, after: World)
    requires Settled(w) && Settled(after)
    requires after.marks.Keys == w.marks.Keys
    requires forall u :: u in w.marks ==> Due(after, u) == Due(w, u)
    ensures Dues(after) == Dues(w)
  {
  }

  lemma {:induction false} QuietDue(w: World, after: World, day: Entry, u: Hash)
    requires Settled(w) && Settled(after) && DayAdded(w, after, day) && day.rate == 1.0 && u in w.marks
    ensures Due(after, u) == Due(w, u)
  {
    WorthAfterEvent(w, after, day, u);
    ScaledGrows(Worth(w, u), day.rate);
  }

  lemma {:induction false} QuietEventKeepsCovered(w: World, after: World, day: Entry)
    requires Settled(w) && Settled(after) && Covered(w)
    requires DayAdded(w, after, day) && day.rate == 1.0
    requires after.state.interestBank == w.state.interestBank && after.slack == w.slack && after.debt == w.debt
    ensures Covered(after)
  {
    forall u | u in w.marks
      ensures Due(after, u) == Due(w, u)
    {
      QuietDue(w, after, day, u);
    }
    SameDues(w, after);
  }

  lemma {:induction false} SameHeld(w: World, after: World, day: Entry)
    requires DayAdded(w, after, day)
    ensures Helds(after) == Helds(w)
  {
  }

  /** What the interest bank gains from an event, by the day's rate on the supply and on the future UBI bank. */
  ghost predicate BankShare(bank: nat, bank1: nat, rate: real, supply: nat, future: nat) {
    && rate >= 0.0
    && bank1 as real >= bank as real + rate * supply as real - (future as real * rate + 0.5)
  }

  /** The interest half covers the day's rate on the whole supply, less what the future UBI bank earns. */
  lemma {:induction false} InterestShare(bank: nat, increase: nat, humans: nat, futureBank: nat, supply: nat)
    requires supply > 0 && futureBank <= supply
    ensures BankShare(bank, bank + Split(increase, humans, futureBank, supply).interest,
                      InterestRate(increase, supply), supply, futureBank)
  {
    FutureUbiInterestFits(increase, futureBank, supply);
    FutureUbiInterestIsClose(increase, futureBank, supply);
    HalfIsRateOfSupply(increase, supply);
    ShareOfBank(bank, Half(increase), FutureUbiInterest(increase, futureBank, supply), InterestRate(increase, supply),
                supply, futureBank);
  }

  lemma {:induction false} ShareOfBank(bank: nat, half: nat, futureInterest: nat, rate: real, supply: nat, future: nat)
    requires futureInterest <= half && rate >= 0.0
    requires rate * supply as real == half as real
    requires futureInterest as real <= future as real * rate + 0.5
    ensures BankShare(bank, bank + (half - futureInterest), rate, supply, future)
  {
  }

  lemma {:induction false} FutureUbiInterestIsClose(increase: nat, futureBank: nat, supply: nat)
    requires supply > 0
    ensures FutureUbiInterest(increase, futureBank, supply) as real
            <= futureBank as real * InterestRate(increase, supply) + 0.5
  {
    RoundEvenIsClose(Product(futureBank, InterestRate(increase, supply)));
  }

  lemma {:induction false} HalfIsRateOfSupply(increase: nat, supply: nat)
    requires supply > 0
    ensures InterestRate(increase, supply) * supply as real == Half(increase) as real
  {
  }

  /** The sums that an event relates. */
  ghost predicate Books(w: World, after: World, day: Entry)
    requires Settled(w) && Settled(after)
  {
    && Sum(Worths(w)) == Sum(Dues(w)) + Sum(Helds(w))
    && Sum(Worths(after)) == Sum(Dues(after)) + Sum(Helds(w))
    && w.state.supply >= Sum(Helds(w)) + w.state.interestBank + w.state.futureBank
    && GrowsWithin(Sum(Worths(w)), Sum(Worths(after)), |w.state.users|, day.rate, 0.5)
  }

  lemma {:induction false} BooksAreKept(w: World, after: World, day: Entry, initial: nat)
    requires Settled(w) && Settled(after) && DayAdded(w, after, day)
    requires UsersMarked(w) && Conserved(w, initial)
    ensures Books(w, after, day)
  {
    WorthsAfterEvent(w, after, day);
    DuesAreWorthLessHeld(w);
    DuesAreWorthLessHeld(after);
    SameHeld(w, after, day);
    SameSize(w.marks, w.state.users);
    HeldFitsSupply(w, initial);
  }

  lemma {:induction false} ActiveEventKeepsCovered(w: World, after: World, day: Entry)
    requires Settled(w) && Settled(after) && Covered(w) && Books(w, after, day)
    requires BankShare(w.state.interestBank, after.state.interestBank, day.rate - 1.0, w.state.supply,
                       w.state.futureBank)
    requires after.slack == SlackAfter(w.slack, day.rate, |w.state.users|) && after.debt == Grown(w.debt, day.rate)
    ensures Covered(after)
  {
    EventNumbers(day.rate, w.state.interestBank, w.state.futureBank, w.state.supply, Sum(Dues(w)), Sum(Helds(w)),
                 |w.state.users|, w.slack, w.debt, after.state.interestBank, Sum(Worths(w)), Sum(Worths(after)));
  }

  lemma {:induction false} EventNumbers(
    rate: real, bank: nat, future: nat, supply: nat, due: nat, held: nat, n: nat, slack: real, debt: real,
    bank1: nat, worth: nat, worth1: nat)
    requires slack >= 0.0 && debt >= 0.0
    requires bank as real + (slack + debt) >= due as real
    requires supply >= held + bank + future
    requires worth == due + held
    requires GrowsWithin(worth, worth1, n, rate, 0.5)
    requires BankShare(bank, bank1, rate - 1.0, supply, future)
    ensures SlackAfter(slack, rate, n) >= 0.0 && Grown(debt, rate) >= 0.0
    ensures bank1 as real + (SlackAfter(slack, rate, n) + Grown(debt, rate)) >= worth1 as real - held as real
  {
    Distributes(rate, slack, debt);
    EventArithmetic(rate - 1.0, bank as real, future as real, supply as real, due as real, held as real, n as real,
                    slack + debt, bank1 as real, worth1 as real);
  }

  /** after is w after an event that recorded the day. */
  ghost predicate EventHappened(w: World, after: World, day: Entry) {
    && DayAdded(w, after, day)
    && if w.state.supply == w.state.daily.yesterdaySupply then
         && day.rate == 1.0 && after.state.interestBank == w.state.interestBank
         && after.slack == w.slack && after.debt == w.debt
       else
         && BankShare(w.state.interestBank, after.state.interestBank, day.rate - 1.0, w.state.supply,
                      w.state.futureBank)
         && after.slack == SlackAfter(w.slack, day.rate, |w.state.users|) && after.debt == Grown(w.debt, day.rate)
  }

  lemma {:induction false} EventExtendsWorld(w: World, env: Env, slotHash: Hash, now: int)
    requires EventStep(w.state, env, slotHash, now).Some?
    ensures var after := Next(w, env, TimedCall(now, Event(slotHash)));
            var day := after.state.daily.history[HISTORY_SIZE - 1];
            && Some(after.state) == EventStep(w.state, env, slotHash, now)
            && after.log == w.log + [day] && after.marks == w.marks
            && after.debt == Grown(w.debt, day.rate)
            && after.slack == if w.state.supply == w.state.daily.yesterdaySupply then w.slack
                              else SlackAfter(w.slack, day.rate, |w.state.users|)
  {
  }

  lemma {:induction false} EventHappens(w: World, env: Env, slotHash: Hash, now: int)
    requires EventStep(w.state, env, slotHash, now).Some? && w.state.futureBank <= w.state.supply
    ensures var after := Next(w, env, TimedCall(now, Event(slotHash)));
            EventHappened(w, after, after.state.daily.history[HISTORY_SIZE - 1])
  {
    var s := w.state;
    EventExtendsWorld(w, env, slotHash, now);
    if s.supply == s.daily.yesterdaySupply {
      QuietEventRecordsOne(s, env, slotHash, now);
    } else {
      var increase := HighWaterMarkIncrease(s.daily.yesterdaySupply, s.daily.highWaterMark,
                                            s.supply - s.daily.yesterdaySupply, env.pow);
      EventOutcome(s, env, slotHash, now);
      InterestShare(s.interestBank, increase, s.daily.verifiedHumans, s.futureBank, s.supply);
    }
  }

  lemma {:induction false} EventKeepsCovered(w: World, after: World, day: Entry, initial: nat)
    requires Settled(w) && Settled(after) && Covered(w) && UsersMarked(w) && Conserved(w, initial)
    requires EventHappened(w, after, day)
    ensures Covered(after)
  {
    if w.state.supply == w.state.daily.yesterdaySupply {
      QuietEventKeepsCovered(w, after, day);
    } else {
      BooksAreKept(w, after, day, initial);
      ActiveEventKeepsCovered(w, after, day);
    }
  }

  // ----- the other calls

  lemma {:induction false} DueDependsOn(w: World, after: World, u: Hash)
    requires Settled(w) && Settled(after) && u in w.marks && u in after.marks
    requires after.log == w.log && after.marks[u] == w.marks[u]
    requires BalanceOf(after.state, Wallet(u)) == BalanceOf(w.state, Wallet(u))
    ensures Due(after, u) == Due(w, u)
  {
  }

  lemma {:induction false} NothingIsDueAtTheEnd(w: World, u: Hash)
    requires Settled(w) && u in w.marks && w.marks[u] == |w.log|
    ensures Due(w, u) == 0
  {
    assert Unclaimed(w, u) == [];
  }

  /** If one user's due is settled and the others' stay, the sum falls by it. */
  lemma {:induction false} DuesWithoutOne(w: World, after: World, x: Hash)
    requires Settled(w) && Settled(after)
    requires after.marks.Keys == w.marks.Keys + {x}
    requires Due(after, x) == 0
    requires forall u :: u in w.marks && u != x ==> Due(after, u) == Due(w, u)
    ensures Sum(Dues(after)) == Sum(Dues(w)) - Lookup(Dues(w), x)
  {
    SumWithoutOne(Dues(w), Dues(after), x);
  }

  /** A user who is current has no unclaimed event. */
  lemma {:induction false} CurrentIsAtTheEnd(w: World, t: TimedCall, u: Hash)
    requires NothingSkipped(w) && EventFirst(w, t) && !t.call.Event? && t.now >= 0
    requires u in w.state.users && IsCurrent(w.state.users[u], t.now)
    ensures w.marks[u] == |w.log|
  {
    PayoutDateIsWholeDay(t.now);
  }

  lemma {:induction false} CoinsMovedEffect(s: State, source: Hash, destination: Account, amount: nat)
    requires amount <= BalanceOf(s, Wallet(source))
    ensures var after := CoinsMoved(s, Wallet(source), destination, amount);
            && after.interestBank >= s.interestBank
            && after.users == s.users
            && forall u: Hash :: u != source && Wallet(u) != destination ==>
                 BalanceOf(after, Wallet(u)) == BalanceOf(s, Wallet(u))
  {
  }

  lemma {:induction false} TransferKeepsCovered(w: World, env: Env, t: TimedCall)
    requires Settled(w) && Settled(Next(w, env, t)) && Covered(w)
    requires NothingSkipped(w) && EventFirst(w, t) && t.now >= 0
    requires t.call.Transfer? && Step(w.state, env, t.call, t.now).Some?
    ensures Covered(Next(w, env, t))
  {
    var after := Next(w, env, t);
    var source, destination := t.call.source, t.call.destination;
    CoinsMovedEffect(w.state, source, destination, t.call.amount);
    CurrentIsAtTheEnd(w, t, source);
    if destination.Wallet? {
      CurrentIsAtTheEnd(w, t, destination.key);
    }
    forall u | u in w.marks
      ensures Due(after, u) == Due(w, u)
    {
      if u == source || Wallet(u) == destination {
        NothingIsDueAtTheEnd(w, u);
        NothingIsDueAtTheEnd(after, u);
      } else {
        DueDependsOn(w, after, u);
      }
    }
    SameDues(w, after);
  }

  /** after is w with one user's mark at the end of the log and everyone else's coins and marks as before. */
  ghost predicate MarkMoved(w: World, after: World, x: Hash) {
    && after.log == w.log && after.marks == w.marks[x := |w.log|]
    && after.slack == w.slack && after.debt == w.debt
    && (forall v: Hash :: v != x ==> BalanceOf(after.state, Wallet(v)) == BalanceOf(w.state, Wallet(v)))
  }

  lemma {:induction false} MarkMovedSettlesOne(w: World, after: World, x: Hash)
    requires Settled(w) && Settled(after) && MarkMoved(w, after, x)
    ensures Sum(Dues(after)) == Sum(Dues(w)) - Lookup(Dues(w), x)
  {
    forall u | u in w.marks && u != x
      ensures Due(after, u) == Due(w, u)
    {
      DueDependsOn(w, after, u);
    }
    NothingIsDueAtTheEnd(after, x);
    DuesWithoutOne(w, after, x);
  }

  /** after is w with 10000 more coins for x, and the debt they make. */
  ghost predicate CoinsMined(w: World, after: World, x: Hash) {
    && after.log == w.log && after.marks == w.marks && x in w.marks
    && after.slack == w.slack && after.debt == w.debt + MiningDebt(w, x)
    && after.state.interestBank == w.state.interestBank
    && BalanceOf(after.state, Wallet(x)) == BalanceOf(w.state, Wallet(x)) + MINING_AMOUNT
    && (forall v: Hash :: v != x ==> BalanceOf(after.state, Wallet(v)) == BalanceOf(w.state, Wallet(v)))
  }

  lemma {:induction false} MineMoves(w: World, env: Env, t: TimedCall)
    requires w.marks.Keys == w.state.users.Keys
    requires t.call.Mine? && Step(w.state, env, t.call, t.now).Some?
    ensures CoinsMined(w, Next(w, env, t), t.call.wallet)
  {
  }

  lemma {:induction false} DueIsInterest(w: World, u: Hash)
    requires Settled(w) && u in w.marks
    ensures Due(w, u) == Interest(Unclaimed(w, u), BalanceOf(w.state, Wallet(u)))
  {
    WorthIsAtLeastHeld(w, u);
  }

  lemma {:induction false} MinedDebt(w: World, after: World, x: Hash)
    requires Settled(w) && Settled(after) && CoinsMined(w, after, x)
    ensures MiningDebt(w, x) == (Due(after, x) - Due(w, x)) as real
    ensures Due(after, x) >= Due(w, x)
  {
    DueIsInterest(w, x);
    DueIsInterest(after, x);
    WorthIsAtLeastHeld(w, x);
    InterestIsMonotone(Unclaimed(w, x), BalanceOf(w.state, Wallet(x)), BalanceOf(after.state, Wallet(x)));
  }

  /** If only one user's due changes, the sum changes by as much. */
  lemma {:induction false} DuesWithOneChanged(w: World, after: World, x: Hash)
    requires Settled(w) && Settled(after) && after.marks.Keys == w.marks.Keys && x in w.marks
    requires forall u :: u in w.marks && u != x ==> Due(after, u) == Due(w, u)
    ensures Sum(Dues(after)) == Sum(Dues(w)) - Due(w, x) + Due(after, x)
  {
    SumWithOneChanged(Dues(w), Dues(after), x);
  }

  lemma {:induction false} MinedDues(w: World, after: World, x: Hash)
    requires Settled(w) && Settled(after) && CoinsMined(w, after, x)
    ensures Sum(Dues(after)) == Sum(Dues(w)) - Due(w, x) + Due(after, x)
  {
    forall u | u in w.marks && u != x
      ensures Due(after, u) == Due(w, u)
    {
      DueDependsOn(w, after, u);
    }
    DuesWithOneChanged(w, after, x);
  }

  lemma {:induction false} MineKeepsCovered(w: World, env: Env, t: TimedCall)
    requires Settled(w) && Settled(Next(w, env, t)) && Covered(w)
    requires t.call.Mine? && Step(w.state, env, t.call, t.now).Some?
    ensures Covered(Next(w, env, t))
  {
    MineMoves(w, env, t);
    MinedDebt(w, Next(w, env, t), t.call.wallet);
    MinedDues(w, Next(w, env, t), t.call.wallet);
  }

  lemma {:induction false} MinedCoinsSolventIff(w: World, after: World, x: Hash)
    requires Settled(w) && Settled(after) && CoinsMined(w, after, x)
    ensures Solvent(after)
            <==> w.slack >= 0.0 && w.state.interestBank as real + w.slack >= Sum(Dues(w)) as real + MiningDebt(w, x)
  {
    MinedDebt(w, after, x);
    MinedDues(w, after, x);
  }

  /**
   * Exactly what mining does to solvency: bank and slack stay, and must now also cover what the new coins earn for the
   * days the miner has not claimed.
   */
  lemma {:induction false} MiningKeepsSolventIff(w: World, env: Env, t: TimedCall)
    requires Settled(w) && Settled(Next(w, env, t))
    requires t.call.Mine? && Step(w.state, env, t.call, t.now).Some?
    ensures t.call.wallet in w.marks
    ensures Solvent(Next(w, env, t))
            <==> && w.slack >= 0.0
                 && w.state.interestBank as real + w.slack >= Sum(Dues(w)) as real + MiningDebt(w, t.call.wallet)
  {
    MineMoves(w, env, t);
    MinedCoinsSolventIff(w, Next(w, env, t), t.call.wallet);
  }

  lemma {:induction false} CreateMoves(w: World, env: Env, t: TimedCall)
    requires t.call.CreateUser? && Step(w.state, env, t.call, t.now).Some?
    ensures MarkMoved(w, Next(w, env, t), t.call.wallet)
    ensures Next(w, env, t).state.interestBank == w.state.interestBank
    ensures t.call.wallet !in w.state.users
  {
  }

  lemma {:induction false} CreateKeepsCovered(w: World, env: Env, t: TimedCall)
    requires Settled(w) && Settled(Next(w, env, t)) && Covered(w)
    requires t.call.CreateUser? && Step(w.state, env, t.call, t.now).Some?
    ensures Covered(Next(w, env, t))
  {
    CreateMoves(w, env, t);
    MarkMovedSettlesOne(w, Next(w, env, t), t.call.wallet);
  }

  /** What the program pays a claim now is what is due, or nothing when the claim is too late. */
  lemma {:induction false} OwedIsDue(w: World, env: Env, t: TimedCall, u: Hash)
    requires Settled(w) && Logged(w, env) && NothingSkipped(w) && EventFirst(w, t) && !t.call.Event?
    requires t.now >= w.clock && u in w.state.users
    ensures Owed(w.state, u, t.now)
            == (if DaysSincePayout(w.state.users[u], t.now) <= HISTORY_SIZE then Due(w, u) else 0, 0)
  {
    if DaysSincePayout(w.state.users[u], t.now) <= HISTORY_SIZE {
      EachEventPaidOnce(w, env, t, u);
      WorthIsAtLeastHeld(w, u);
    } else {
      LateClaimsForfeit(w.state, u, t.now);
    }
  }

  lemma {:induction false} ClaimEffect(s: State, u: Hash, now: int)
    requires ClaimStep(s, u, now).Some? && !s.users[u].verified
    ensures var after := ClaimStep(s, u, now).value;
            var interest := Owed(s, u, now).0;
            && interest <= s.interestBank
            && after.interestBank == s.interestBank - interest
            && (forall v: Hash :: v != u ==> BalanceOf(after, Wallet(v)) == BalanceOf(s, Wallet(v)))
  {
  }

  lemma {:induction false} ClaimMarks(w: World, env: Env, t: TimedCall)
    requires UsersMarked(w)
    requires t.call.Claim? && Step(w.state, env, t.call, t.now).Some?
    ensures t.call.wallet in w.state.users && MarkMoved(w, Next(w, env, t), t.call.wallet)
    ensures var interest := Owed(w.state, t.call.wallet, t.now).0;
            interest <= w.state.interestBank && Next(w, env, t).state.interestBank == w.state.interestBank - interest
  {
    ClaimEffect(w.state, t.call.wallet, t.now);
  }

  lemma {:induction false} ClaimKeepsCovered(w: World, env: Env, t: TimedCall)
    requires Settled(w) && Settled(Next(w, env, t)) && Covered(w)
    requires Logged(w, env) && NothingSkipped(w) && EventFirst(w, t) && t.now >= w.clock
    requires t.call.Claim? && Step(w.state, env, t.call, t.now).Some?
    ensures Covered(Next(w, env, t))
  {
    ClaimMarks(w, env, t);
    OwedIsDue(w, env, t, t.call.wallet);
    MarkMovedSettlesOne(w, Next(w, env, t), t.call.wallet);
  }

  /** after is w as far as coins and marks go. */
  ghost predicate BooksUntouched(w: World, after: World) {
    && after.log == w.log && after.marks == w.marks && after.slack == w.slack && after.debt == w.debt
    && after.state.wallets == w.state.wallets && after.state.interestBank == w.state.interestBank
  }

  lemma {:induction false} OtherCallsLeaveBooks(w: World, env: Env, t: TimedCall)
    requires t.call.UpdateHashes? || t.call.GrowUser? || Step(w.state, env, t.call, t.now).None?
    ensures BooksUntouched(w, Next(w, env, t))
  {
  }

  lemma {:induction false} UntouchedStaysCovered(w: World, after: World)
    requires Settled(w) && Settled(after) && Covered(w) && BooksUntouched(w, after)
    ensures Covered(after)
  {
    forall u | u in w.marks
      ensures Due(after, u) == Due(w, u)
    {
      DueDependsOn(w, after, u);
    }
    SameDues(w, after);
  }

  // ----- all runs in which every day has its event first

  lemma {:induction false} LoggedIsSettled(w: World, env: Env)
    requires Logged(w, env) && w.state.supply < U64_RANGE
    ensures Settled(w)
  {
  }

  lemma {:induction false} NextKeepsCovered(w: World, env: Env, t: TimedCall, initial: nat)
    requires Conserved(w, initial) && Logged(w, env) && NothingSkipped(w)
    requires Settled(w) && Settled(Next(w, env, t)) && Covered(w)
    requires EventFirst(w, t) && t.now >= w.clock
    ensures Covered(Next(w, env, t))
  {
    if Step(w.state, env, t.call, t.now).None? {
      OtherCallsLeaveBooks(w, env, t);
      UntouchedStaysCovered(w, Next(w, env, t));
    } else {
      match t.call {
        case Mine(_, _) => MineKeepsCovered(w, env, t);
        case Event(slotHash) =>
          var after := Next(w, env, t);
          EventHappens(w, env, slotHash, t.now);
          EventKeepsCovered(w, after, after.state.daily.history[HISTORY_SIZE - 1], initial);
        case Claim(_) => ClaimKeepsCovered(w, env, t);
        case Transfer(_, _, _) => TransferKeepsCovered(w, env, t);
        case CreateUser(_, _) => CreateKeepsCovered(w, env, t);
        case UpdateHashes(_) =>
          OtherCallsLeaveBooks(w, env, t);
          UntouchedStaysCovered(w, Next(w, env, t));
        case GrowUser(_, _) =>
          OtherCallsLeaveBooks(w, env, t);
          UntouchedStaysCovered(w, Next(w, env, t));
      }
    }
  }

  /**
   * In every run whose days have their event first and whose supply is a 64-bit number, the interest bank lacks at most
   * the slack and the debt of what all users are due.
   */
  lemma {:induction false} RunIsCovered(
    now: int, slotHash: Hash, humans: nat, wallets: map<Hash, nat>, env: Env, calls: seq<TimedCall>)
    requires Runs.Clocked(now, calls) && EventsFirst(Start(now, slotHash, humans, wallets), env, calls)
    requires Run(Start(now, slotHash, humans, wallets), env, calls).state.supply < U64_RANGE
    ensures var w := Run(Start(now, slotHash, humans, wallets), env, calls);
            Logged(w, env) && NothingSkipped(w) && Settled(w) && Covered(w)
  {
    var start := Start(now, slotHash, humans, wallets);
    var w := Run(start, env, calls);
    RunIsLogged(now, slotHash, humans, wallets, env, calls);
    LoggedIsSettled(w, env);
    RunSkipsNothing(now, slotHash, humans, wallets, env, calls);
    if |calls| == 0 {
      assert Dues(w) == map[];
    } else {
      var init := calls[..|calls| - 1];
      ClockedPrefix(now, calls);
      EventsFirstPrefix(start, env, calls);
      SupplyLawHolds(now, slotHash, humans, wallets, env, init);
      NextConserves(Run(start, env, init), env, calls[|calls| - 1], Sum(wallets));
      RunIsCovered(now, slotHash, humans, wallets, env, init);
      ClockOfRun(start, env, init);
      NextKeepsCovered(Run(start, env, init), env, calls[|calls| - 1], Sum(wallets));
    }
  }

  // ----- runs without debt

  /** Every day has its event first, and a user mines only when current. */
  ghost predicate Careful(w: World, t: TimedCall) {
    && EventFirst(w, t)
    && (t.call.Mine? && t.call.wallet in w.state.users ==> IsCurrent(w.state.users[t.call.wallet], t.now))
  }

  ghost predicate CarefulRun(w: World, env: Env, calls: seq<TimedCall>) {
    forall i {:trigger calls[i]} :: 0 <= i < |calls| ==> Careful(Run(w, env, calls[..i]), calls[i])
  }

  lemma {:induction false} CarefulPrefix(w: World, env: Env, calls: seq<TimedCall>)
    requires CarefulRun(w, env, calls)
    ensures EventsFirst(w, env, calls)
    ensures |calls| > 0 ==> CarefulRun(w, env, calls[..|calls| - 1])
    ensures |calls| > 0 ==> Careful(Run(w, env, calls[..|calls| - 1]), calls[|calls| - 1])
  {
    if |calls| > 0 {
      var init := calls[..|calls| - 1];
      assert forall i :: 0 <= i < |init| ==> init[i] == calls[i] && init[..i] == calls[..i];
    }
  }

  /** Coins mined by a user who has claimed everything make no debt, and other calls make none at all. */
  lemma {:induction false} CarefulCallMakesNoDebt(w: World, env: Env, t: TimedCall)
    requires Logged(w, env) && NothingSkipped(w) && Careful(w, t) && t.now >= w.clock
    requires w.debt == 0.0
    ensures Next(w, env, t).debt == 0.0
  {
    if Step(w.state, env, t.call, t.now).Some? {
      if t.call.Mine? {
        CurrentIsAtTheEnd(w, t, t.call.wallet);
        assert Unclaimed(w, t.call.wallet) == [];
      } else if t.call.Event? {
        EventExtendsWorld(w, env, t.call.slotHash, t.now);
      }
    }
  }

  lemma {:induction false} CarefulRunHasNoDebt(
    now: int, slotHash: Hash, humans: nat, wallets: map<Hash, nat>, env: Env, calls: seq<TimedCall>)
    requires Runs.Clocked(now, calls) && CarefulRun(Start(now, slotHash, humans, wallets), env, calls)
    ensures Run(Start(now, slotHash, humans, wallets), env, calls).debt == 0.0
  {
    var start := Start(now, slotHash, humans, wallets);
    if |calls| > 0 {
      var init := calls[..|calls| - 1];
      ClockedPrefix(now, calls);
      CarefulPrefix(start, env, calls);
      CarefulPrefix(start, env, init);
      CarefulRunHasNoDebt(now, slotHash, humans, wallets, env, init);
      RunIsLogged(now, slotHash, humans, wallets, env, init);
      RunSkipsNothing(now, slotHash, humans, wallets, env, init);
      ClockOfRun(start, env, init);
      CarefulCallMakesNoDebt(Run(start, env, init), env, calls[|calls| - 1]);
    }
  }

  /** In every careful run the interest bank lacks at most the slack. */
  lemma {:induction false} RunIsSolvent(
    now: int, slotHash: Hash, humans: nat, wallets: map<Hash, nat>, env: Env, calls: seq<TimedCall>)
    requires Runs.Clocked(now, calls) && CarefulRun(Start(now, slotHash, humans, wallets), env, calls)
    requires Run(Start(now, slotHash, humans, wallets), env, calls).state.supply < U64_RANGE
    ensures var w := Run(Start(now, slotHash, humans, wallets), env, calls);
            Settled(w) && Solvent(w)
  {
    CarefulPrefix(Start(now, slotHash, humans, wallets), env, calls);
    RunIsCovered(now, slotHash, humans, wallets, env, calls);
    CarefulRunHasNoDebt(now, slotHash, humans, wallets, env, calls);
  }

  /** What the program would pay all users if they all claimed now. */
  ghost function AllOwed(w: World, now: int): map<Hash, nat> {
    map u | u in w.state.users :: Owed(w.state, u, now).0
  }

  /** At any call of such a run but an event, bank, slack and debt cover what the program owes all users together. */
  lemma {:induction false} TotalOwedIsCovered(
    now: int, slotHash: Hash, humans: nat, wallets: map<Hash, nat>, env: Env, calls: seq<TimedCall>, t: TimedCall)
    requires Runs.Clocked(now, calls) && EventsFirst(Start(now, slotHash, humans, wallets), env, calls)
    requires var w := Run(Start(now, slotHash, humans, wallets), env, calls);
             && w.state.supply < U64_RANGE
             && t.now >= w.clock && EventFirst(w, t) && !t.call.Event?
    ensures var w := Run(Start(now, slotHash, humans, wallets), env, calls);
            && w.state.interestBank as real + (w.slack + w.debt) >= Sum(AllOwed(w, t.now)) as real
            && (forall u :: u in w.state.users ==> Owed(w.state, u, t.now).1 == 0)
  {
    var w := Run(Start(now, slotHash, humans, wallets), env, calls);
    RunIsCovered(now, slotHash, humans, wallets, env, calls);
    forall u | u in w.state.users
      ensures Owed(w.state, u, t.now).1 == 0 && AllOwed(w, t.now)[u] <= Dues(w)[u]
    {
      OwedIsDue(w, env, t, u);
    }
    SumIsMonotone(AllOwed(w, t.now), Dues(w));
  }

  // ----- mining when stale

  /**
   * Coins mined before claiming earn interest for days before they existed: if one unclaimed day pays at least 0.02
   * percent, mining raises what the miner is owed, and nothing comes into the bank.
   */
  lemma {:induction false} StaleMiningCreatesDebt(
    s: State, env: Env, wallet: Hash, payload: seq<byte>, now: int, i: nat)
    requires MineStep(s, env, wallet, payload, now).Some?
    requires !s.users[wallet].verified
    requires var days := DaysClaimed(s, wallet, now);
             GrowthDays(days) && i < |days| && days[i].rate >= 1.0002
    ensures var after := MineStep(s, env, wallet, payload, now).value;
            && wallet in after.users
            && Owed(after, wallet, now).0 > Owed(s, wallet, now).0
            && after.interestBank == s.interestBank
  {
    var money, days := BalanceOf(s, Wallet(wallet)), DaysClaimed(s, wallet, now);
    FoldsGrow(days, money);
    InterestFoldRises(days, money, MINING_AMOUNT, i);
  }

  lemma {:induction false} InterestFoldRises(days: seq<Entry>, balance: nat, added: nat, i: nat)
    requires GrowthDays(days) && i < |days| && days[i].rate >= 1.0002
    requires added >= MINING_AMOUNT
    ensures InterestFold(days, balance + added) > InterestFold(days, balance) + added
  {
    var rate := days[0].rate;
    var grown, more := Scaled(balance, rate), Scaled(balance + added, rate);
    assert GrowthDays(days[1..]);
    ScaledShifted(balance, added, rate);
    if i == 0 {
      MinedCoinsEarn(balance, added, rate);
      InterestFoldShifted(days[1..], grown, more - grown);
    } else {
      InterestFoldRises(days[1..], grown, more - grown, i - 1);
    }
  }

  lemma {:induction false} ProductOfSum(money: nat, added: nat, rate: Rate)
    ensures Product(money + added, rate) == Product(money, rate) + Product(added, rate)
  {
    Distributes(rate, money as real, added as real);
  }

  lemma {:induction false} MinedCoinsEarn(money: nat, added: nat, rate: Rate)
    requires rate >= 1.0002 && added >= MINING_AMOUNT
    ensures Scaled(money + added, rate) > Scaled(money, rate) + added
  {
    ProductOfSum(money, added, rate);
    ProductIsMonotone(added, added, 1.0002, rate);
    assert Product(added, 1.0002) >= added as real + 2.0;
    RoundEvenIsClose(Product(money, rate));
    RoundEvenIsClose(Product(money + added, rate));
  }
}

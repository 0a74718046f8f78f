/** At most one event a day, and which recorded days a claim reads, in every run. */
module EventLog {
  import opened Bytes
  import opened Clock
  import opened Distribution
  import opened Growth
  import opened Ledger
  import opened Options
  import opened Runs
  import opened Settlement
  import opened SupplyLaw
  import opened TransferHook
  import Sums

  ghost function LastEventDay(w: World): int {
    if |w.eventDays| == 0 then w.startDay else w.eventDays[|w.eventDays| - 1]
  }

  /** The 365 slots hold the last days of the log, and the mark is what the logged days make of it. */
  ghost predicate SlotsHoldLog(w: World, env: Env) {
    && |w.log| == |w.eventDays| == |w.miningDays|
    && w.state.daily.history == RecordAll(FreshHistory(), w.log)
    && w.state.daily.highWaterMark == HighWaterMarkAfter(0, w.miningDays, env.pow)
    && (w.state.supply < U64_RANGE ==> GrowthDays(w.log))
  }

  /** Events fall on different days, one after the other. */
  ghost predicate OneEventADay(w: World) {
    && w.clock > SEC_PER_DAY
    && (forall i, j :: 0 <= i < j < |w.eventDays| ==> w.eventDays[i] < w.eventDays[j])
    && (forall i :: 0 <= i < |w.eventDays| ==> w.startDay < w.eventDays[i])
    && |w.eventDays| <= LastEventDay(w) - w.startDay
    && w.state.daily.lastEventTime == LastEventDay(w) * SEC_PER_DAY
    && 1 <= w.startDay && LastEventDay(w) * SEC_PER_DAY <= w.clock
  }

  /** Every user has a mark in the log and a whole-day payout date; nobody is a verified human. */
  ghost predicate UsersMarked(w: World) {
    && w.marks.Keys == w.state.users.Keys
    && (forall u :: u in w.state.users ==>
          && w.marks[u] <= |w.log|
          && !w.state.users[u].verified
          && w.startDay <= Day(w.state.users[u].lastPayout)
          && w.state.users[u].lastPayout == Day(w.state.users[u].lastPayout) * SEC_PER_DAY
          && w.state.users[u].lastPayout <= w.clock)
    && (forall u :: u in w.state.users ==> u in w.state.wallets)
  }

  ghost predicate Logged(w: World, env: Env) {
    SlotsHoldLog(w, env) && OneEventADay(w) && UsersMarked(w)
  }

  // ----- every step keeps it

  lemma {:induction false} EventAppends(w: World, env: Env, slotHash: Hash, now: int)
    requires EventStep(w.state, env, slotHash, now).Some?
    ensures var after := Next(w, env, TimedCall(now, Event(slotHash)));
            var day := after.state.daily.history[HISTORY_SIZE - 1];
            var s := w.state;
            var mined := s.supply - s.daily.yesterdaySupply;
            && mined >= 0
            && after.log == w.log + [day] && after.state.daily.history == Record(s.daily.history, day)
            && after.miningDays == w.miningDays + [MiningDay(s.daily.yesterdaySupply, mined)]
            && |after.eventDays| == |w.eventDays| + 1
  {
  }

  lemma {:induction false} EventRaisesMark(w: World, env: Env, slotHash: Hash, now: int)
    requires EventStep(w.state, env, slotHash, now).Some?
    ensures var after := Next(w, env, TimedCall(now, Event(slotHash))).state.daily;
            var s := w.state;
            var mined := s.supply - s.daily.yesterdaySupply;
            var increase := HighWaterMarkIncrease(s.daily.yesterdaySupply, s.daily.highWaterMark, mined, env.pow);
            && mined >= 0
            && after.highWaterMark == s.daily.highWaterMark + increase
            && after.history[HISTORY_SIZE - 1]
               == if mined == 0 then Entry(1.0, 0) else RecordedDay(increase, s.daily.verifiedHumans, s.supply)
  {
  }

  /** The recorded day has a growth factor, as long as the supply is a 64-bit number. */
  lemma {:induction false} EventRecordsGrowth(w: World, env: Env, slotHash: Hash, now: int)
    requires EventStep(w.state, env, slotHash, now).Some? && w.state.supply < U64_RANGE
    ensures GrowthRate(Next(w, env, TimedCall(now, Event(slotHash))).state.daily.history[HISTORY_SIZE - 1].rate)
  {
    var s := w.state;
    var mined := s.supply - s.daily.yesterdaySupply;
    EventRaisesMark(w, env, slotHash, now);
    if mined > 0 {
      var increase := HighWaterMarkIncrease(s.daily.yesterdaySupply, s.daily.highWaterMark, mined, env.pow);
      RecordedDayGrows(increase, s.daily.verifiedHumans, s.supply);
    }
  }

  /** after has one more day in the log, in the slots and in the mark. */
  ghost predicate OneMoreDay(w: World, after: World, env: Env, day: Entry, mining: MiningDay) {
    && after.log == w.log + [day] && after.miningDays == w.miningDays + [mining]
    && |after.eventDays| == |w.eventDays| + 1
    && after.state.daily.history == Distribution.Record(w.state.daily.history, day)
    && after.state.daily.highWaterMark
       == w.state.daily.highWaterMark
          + HighWaterMarkIncrease(mining.yesterdaySupply, w.state.daily.highWaterMark, mining.mined, env.pow)
    && (w.state.supply < U64_RANGE ==> GrowthRate(day.rate))
  }

  lemma {:induction false} EventAddsOneDay(w: World, env: Env, slotHash: Hash, now: int)
    requires EventStep(w.state, env, slotHash, now).Some?
    ensures var after := Next(w, env, TimedCall(now, Event(slotHash)));
            var mined := w.state.supply - w.state.daily.yesterdaySupply;
            mined >= 0
            && OneMoreDay(w, after, env, after.state.daily.history[HISTORY_SIZE - 1],
                          MiningDay(w.state.daily.yesterdaySupply, mined))
  {
    EventAppends(w, env, slotHash, now);
    EventRaisesMark(w, env, slotHash, now);
    if w.state.supply < U64_RANGE {
      EventRecordsGrowth(w, env, slotHash, now);
    }
  }

  lemma {:induction false} SlotsHoldOneMore(w: World, after: World, env: Env, day: Entry, mining: MiningDay)
    requires SlotsHoldLog(w, env) && OneMoreDay(w, after, env, day, mining)
    requires after.state.supply >= w.state.supply
    ensures SlotsHoldLog(after, env)
  {
    assert after.log[..|w.log|] == w.log;
    assert after.miningDays[..|w.miningDays|] == w.miningDays;
  }

  lemma {:induction false} EventRecords(w: World, env: Env, slotHash: Hash, now: int, initial: nat)
    requires Conserved(w, initial) && SlotsHoldLog(w, env)
    requires EventStep(w.state, env, slotHash, now).Some?
    ensures SlotsHoldLog(Next(w, env, TimedCall(now, Event(slotHash))), env)
  {
    var after := Next(w, env, TimedCall(now, Event(slotHash)));
    NextConserves(w, env, TimedCall(now, Event(slotHash)), initial);
    EventAddsOneDay(w, env, slotHash, now);
    SlotsHoldOneMore(w, after, env, after.state.daily.history[HISTORY_SIZE - 1],
                     MiningDay(w.state.daily.yesterdaySupply, w.state.supply - w.state.daily.yesterdaySupply));
  }

  lemma {:induction false} LaterDay(last: int, now: int)
    requires last >= 0 && now > last * SEC_PER_DAY + SEC_PER_DAY
    ensures Day(now) > last && NormalizeTime(now) == Day(now) * SEC_PER_DAY <= now
  {
    NormalizeBounds(now);
    MidnightsAreApart(Day(now), last + 1);
  }

  lemma {:induction false} EventSetsDay(w: World, env: Env, slotHash: Hash, now: int)
    requires EventStep(w.state, env, slotHash, now).Some?
    ensures var after := Next(w, env, TimedCall(now, Event(slotHash)));
            && after.eventDays == w.eventDays + [Day(now)]
            && after.state.daily.lastEventTime == NormalizeTime(now)
            && now > w.state.daily.lastEventTime + SEC_PER_DAY
  {
  }

  /** One more event, on a later day. */
  lemma {:induction false} OneEventMore(w: World, after: World, now: int)
    requires OneEventADay(w) && now >= w.clock && after.clock == now && after.startDay == w.startDay
    requires after.eventDays == w.eventDays + [Day(now)]
    requires after.state.daily.lastEventTime == NormalizeTime(now) && now > w.state.daily.lastEventTime + SEC_PER_DAY
    ensures OneEventADay(after)
  {
    LaterDay(LastEventDay(w), now);
    assert forall i :: 0 <= i < |w.eventDays| ==> w.eventDays[i] <= LastEventDay(w);
  }

  lemma {:induction false} NextKeepsOneEventADay(w: World, env: Env, t: TimedCall)
    requires OneEventADay(w) && t.now >= w.clock
    ensures OneEventADay(Next(w, env, t))
  {
    var after := Next(w, env, t);
    LogGrows(w, env, t);
    if t.call.Event? && Step(w.state, env, t.call, t.now).Some? {
      EventSetsDay(w, env, t.call.slotHash, t.now);
      OneEventMore(w, after, t.now);
    } else {
      OnlyEventsTouchDaily(w, env, t);
    }
  }

  lemma {:induction false} PayoutDateIsWholeDay(now: int)
    requires now >= 0
    ensures Day(NormalizeTime(now)) == Day(now)
    ensures NormalizeTime(now) == Day(now) * SEC_PER_DAY <= now
  {
    NormalizeBounds(now);
  }

  /** The call left the user's date, status and mark alone. */
  ghost predicate UserKept(w: World, after: World, u: Hash)
    requires w.marks.Keys == w.state.users.Keys && after.marks.Keys == after.state.users.Keys
  {
    && u in w.state.users && u in after.state.users
    && w.state.users[u].lastPayout == after.state.users[u].lastPayout
    && w.state.users[u].verified == after.state.users[u].verified
    && w.marks[u] == after.marks[u]
  }

  /** The call set the user's date to today and the mark to the end of the log. */
  ghost predicate UserDated(w: World, after: World, u: Hash, now: int)
    requires w.marks.Keys == w.state.users.Keys && after.marks.Keys == after.state.users.Keys
  {
    && u in after.state.users
    && after.state.users[u].lastPayout == NormalizeTime(now)
    && (u in w.state.users ==> after.state.users[u].verified == w.state.users[u].verified)
    && (u !in w.state.users ==> !after.state.users[u].verified)
    && after.marks[u] == |w.log| == |after.log|
  }

  /** Claims and new accounts date the caller; no other call dates anyone. */
  lemma {:induction false} NextDatesUsers(w: World, env: Env, t: TimedCall)
    requires w.marks.Keys == w.state.users.Keys
    ensures var after := Next(w, env, t);
            && after.marks.Keys == after.state.users.Keys
            && w.state.users.Keys <= after.state.users.Keys
            && (forall u :: u in after.state.users ==> UserKept(w, after, u) || UserDated(w, after, u, t.now))
            && (t.call.Event? ==> forall u :: u in after.state.users ==> UserKept(w, after, u))
  {
    StepUsers(w.state, env, t.call, t.now);
  }

  lemma {:induction false} NextKeepsWallets(w: World, env: Env, t: TimedCall)
    ensures var after := Next(w, env, t);
            && w.state.wallets.Keys <= after.state.wallets.Keys
            && forall u :: u in after.state.users ==> u in w.state.users || u in after.state.wallets
  {
    if Step(w.state, env, t.call, t.now).Some? {
      StepWallets(w.state, env, t.call, t.now);
    }
  }

  lemma {:induction false} NextKeepsUsersMarked(w: World, env: Env, t: TimedCall)
    requires UsersMarked(w) && OneEventADay(w) && t.now >= w.clock
    ensures UsersMarked(Next(w, env, t))
  {
    var after := Next(w, env, t);
    NextDatesUsers(w, env, t);
    NextKeepsWallets(w, env, t);
    PayoutDateIsWholeDay(t.now);
    DayIsMonotone(LastEventDay(w) * SEC_PER_DAY, t.now);
    LogGrows(w, env, t);
    forall u | u in after.state.users
      ensures after.marks[u] <= |after.log| && !after.state.users[u].verified
      ensures w.startDay <= Day(after.state.users[u].lastPayout)
      ensures after.state.users[u].lastPayout == Day(after.state.users[u].lastPayout) * SEC_PER_DAY
      ensures after.state.users[u].lastPayout <= after.clock && u in after.state.wallets
    {
      assert UserKept(w, after, u) || UserDated(w, after, u, t.now);
    }
  }

  lemma {:induction false} LogGrows(w: World, env: Env, t: TimedCall)
    ensures var after := Next(w, env, t);
            && after.startDay == w.startDay && after.clock == t.now
            && |after.log| == |w.log| + (if t.call.Event? && Step(w.state, env, t.call, t.now).Some? then 1 else 0)
  {
  }

  lemma {:induction false} NextKeepsLogged(w: World, env: Env, t: TimedCall, initial: nat)
    requires Conserved(w, initial) && Logged(w, env) && t.now >= w.clock
    ensures Logged(Next(w, env, t), env)
  {
    NextKeepsOneEventADay(w, env, t);
    NextKeepsUsersMarked(w, env, t);
    if t.call.Event? && Step(w.state, env, t.call, t.now).Some? {
      EventRecords(w, env, t.call.slotHash, t.now, initial);
    } else {
      NextConserves(w, env, t, initial);
      OnlyEventsTouchDaily(w, env, t);
    }
  }

  lemma {:induction false} OnlyEventsTouchDaily(w: World, env: Env, t: TimedCall)
    requires !(t.call.Event? && Step(w.state, env, t.call, t.now).Some?)
    ensures var after := Next(w, env, t);
            && after.state.daily == w.state.daily
            && after.log == w.log && after.eventDays == w.eventDays && after.miningDays == w.miningDays
  {
    if t.call.Claim? && Step(w.state, env, t.call, t.now).Some? {
      ClaimUsers(w.state, t.call.wallet, t.now);
    }
  }

  /** In every run the slots, the log, the dates and the marks agree. */
  lemma {:induction false} RunIsLogged(
    now: int, slotHash: Hash, humans: nat, wallets: map<Hash, nat>, env: Env, calls: seq<TimedCall>)
    requires Runs.Clocked(now, calls)
    ensures Logged(Run(Start(now, slotHash, humans, wallets), env, calls), env)
  {
    var start := Start(now, slotHash, humans, wallets);
    if |calls| == 0 {
      NormalizeBounds(now);
    } else {
      var init := calls[..|calls| - 1];
      ClockedPrefix(now, calls);
      RunIsLogged(now, slotHash, humans, wallets, env, init);
      SupplyLawHolds(now, slotHash, humans, wallets, env, init);
      ClockOfRun(start, env, init);
      NextKeepsLogged(Run(start, env, init), env, calls[|calls| - 1], Sums.Sum(wallets));
    }
  }

  // ----- when an event goes through

  /** In every run, an event goes through on exactly the days after the last event, save at the first midnight. */
  lemma {:induction false} EventSucceedsIff(w: World, env: Env, slotHash: Hash, now: int, initial: nat)
    requires Conserved(w, initial) && OneEventADay(w) && now >= w.clock
    ensures EventStep(w.state, env, slotHash, now).Some?
            <==> Day(now) > LastEventDay(w) && now != (LastEventDay(w) + 1) * SEC_PER_DAY
  {
    NormalizeBounds(now);
    MidnightsAreApart(Day(now), LastEventDay(w) + 1);
  }

  // ----- the high water mark

  /** In every run the mark is never past the best mining day, and is exactly that while no event is capped. */
  lemma {:induction false} HighWaterMarkOfRun(
    now: int, slotHash: Hash, humans: nat, wallets: map<Hash, nat>, env: Env, calls: seq<TimedCall>)
    requires Runs.Clocked(now, calls)
    ensures var w := Run(Start(now, slotHash, humans, wallets), env, calls);
            && w.state.daily.highWaterMark <= LargestMined(0, w.miningDays)
            && ((forall d :: d in w.miningDays ==> d.yesterdaySupply < MIN_SUPPLY_LIMIT_AMT) ==>
                  w.state.daily.highWaterMark == LargestMined(0, w.miningDays))
  {
    RunIsLogged(now, slotHash, humans, wallets, env, calls);
    HighWaterMarkBounds(0, Run(Start(now, slotHash, humans, wallets), env, calls).miningDays, env.pow);
  }

  // ----- what a claim reads

  /** The events a user has not been paid for. */
  ghost function Unclaimed(w: World, wallet: Hash): seq<Entry>
    requires wallet in w.marks && w.marks[wallet] <= |w.log|
  {
    w.log[w.marks[wallet]..]
  }

  /** How many days up to the given time have had no event so far. */
  ghost function DaysWithoutEvent(w: World, now: int): int {
    Day(now) - w.startDay - |w.log|
  }

  /** The same, counted when the user was last paid. */
  ghost function DaysWithoutEventAtPayout(w: World, wallet: Hash): int
    requires wallet in w.marks && wallet in w.state.users
  {
    Day(w.state.users[wallet].lastPayout) - w.startDay - w.marks[wallet]
  }

  lemma {:induction false} DaysSincePayoutAre(w: World, env: Env, wallet: Hash, now: int)
    requires Logged(w, env) && wallet in w.state.users && now >= w.clock
    ensures DaysSincePayout(w.state.users[wallet], now) == Day(now) - Day(w.state.users[wallet].lastPayout) >= 0
  {
    var last := w.state.users[wallet].lastPayout;
    PayoutDateIsWholeDay(now);
    DayIsMonotone(last, now);
  }

  /**
   * A claim reads exactly the unpaid events if and only if the calendar has moved on by as many days as there were
   * events: if as many days are without an event now as were at the last payout. With more days than events it goes
   * back to slots from before the last payout, whether they were paid, came before the account or are unfilled; with
   * fewer it leaves out the oldest unpaid events.
   */
  lemma {:induction false} ClaimReads(w: World, env: Env, wallet: Hash, now: int)
    requires Logged(w, env) && wallet in w.state.users && now >= w.clock
    requires DaysSincePayout(w.state.users[wallet], now) <= HISTORY_SIZE
    ensures var n := DaysSincePayout(w.state.users[wallet], now);
            var taken := Window(w.state.daily.history, n);
            var unclaimed := Unclaimed(w, wallet);
            && n - |unclaimed| == DaysWithoutEvent(w, now) - DaysWithoutEventAtPayout(w, wallet)
            && (taken == unclaimed <==> DaysWithoutEvent(w, now) == DaysWithoutEventAtPayout(w, wallet))
            && (n > |unclaimed| ==>
                  taken == LastDays(FreshHistory() + w.log[..w.marks[wallet]], n - |unclaimed|) + unclaimed)
            && (n < |unclaimed| ==> unclaimed == unclaimed[..|unclaimed| - n] + taken)
  {
    DaysSincePayoutAre(w, env, wallet, now);
    WindowSplits(w.log, w.marks[wallet], DaysSincePayout(w.state.users[wallet], now));
  }

  /** After more than 365 days nothing is read, and the claim forfeits what was due. */
  lemma {:induction false} LateClaimsForfeit(s: State, wallet: Hash, now: int)
    requires wallet in s.users && DaysSincePayout(s.users[wallet], now) > 365
    ensures Owed(s, wallet, now) == (0, 0)
    ensures ClaimStep(s, wallet, now) == Some(PayoutDated(s, wallet, now))
  {
  }

  /** A claim of more days than the program has had events pays nothing, whatever is due. */
  lemma {:induction false} ClaimsPastTheLogForfeit(w: World, env: Env, wallet: Hash, now: int)
    requires Logged(w, env) && wallet in w.state.users && now >= w.clock
    requires DaysSincePayout(w.state.users[wallet], now) > |w.log|
    ensures Owed(w.state, wallet, now) == (0, 0)
    ensures ClaimStep(w.state, wallet, now) == Some(PayoutDated(w.state, wallet, now))
  {
    if DaysSincePayout(w.state.users[wallet], now) <= HISTORY_SIZE {
      UnfilledWindowPaysNothing(w.log, DaysSincePayout(w.state.users[wallet], now), BalanceOf(w.state, Wallet(wallet)));
    } else {
      LateClaimsForfeit(w.state, wallet, now);
    }
  }

  /** No run has more events than days. */
  lemma {:induction false} EventsPerDay(
    now: int, slotHash: Hash, humans: nat, wallets: map<Hash, nat>, env: Env, calls: seq<TimedCall>)
    requires Runs.Clocked(now, calls)
    ensures var w := Run(Start(now, slotHash, humans, wallets), env, calls);
            && (forall i, j :: 0 <= i < j < |w.eventDays| ==> w.eventDays[i] < w.eventDays[j])
            && 0 <= DaysWithoutEvent(w, w.clock)
  {
    RunIsLogged(now, slotHash, humans, wallets, env, calls);
    var w := Run(Start(now, slotHash, humans, wallets), env, calls);
    DayIsMonotone(LastEventDay(w) * SEC_PER_DAY, w.clock);
  }

  // ----- runs in which every day has its event first

  /** Every day has its event, before anything else that day. */
  ghost predicate EventFirst(w: World, t: TimedCall) {
    if t.call.Event? then Day(t.now) == LastEventDay(w) + 1 else Day(t.now) == LastEventDay(w)
  }

  ghost predicate EventsFirst(w: World, env: Env, calls: seq<TimedCall>) {
    forall i {:trigger calls[i]} :: 0 <= i < |calls| ==> EventFirst(Run(w, env, calls[..i]), calls[i])
  }

  /** No day was skipped for anyone. */
  ghost predicate NothingSkipped(w: World) {
    && w.marks.Keys == w.state.users.Keys
    && forall u :: u in w.state.users ==>
         |w.log| - w.marks[u] == LastEventDay(w) - Day(w.state.users[u].lastPayout)
  }

  lemma {:induction false} NextSkipsNothing(w: World, env: Env, t: TimedCall)
    requires Logged(w, env) && NothingSkipped(w) && t.now >= w.clock && EventFirst(w, t)
    ensures NothingSkipped(Next(w, env, t))
  {
    var after := Next(w, env, t);
    PayoutDateIsWholeDay(t.now);
    NextDatesUsers(w, env, t);
    LogGrows(w, env, t);
    if t.call.Event? && Step(w.state, env, t.call, t.now).Some? {
      EventSetsDay(w, env, t.call.slotHash, t.now);
    } else {
      OnlyEventsTouchDaily(w, env, t);
    }
    forall u | u in after.state.users
      ensures |after.log| - after.marks[u] == LastEventDay(after) - Day(after.state.users[u].lastPayout)
    {
      assert UserKept(w, after, u) || UserDated(w, after, u, t.now);
    }
  }

  /** In a run where every day has its event first, a claim on any later call reads exactly the events not yet paid. */
  lemma {:induction false} EachEventPaidOnce(w: World, env: Env, t: TimedCall, wallet: Hash)
    requires Logged(w, env) && NothingSkipped(w) && t.now >= w.clock
    requires EventFirst(w, t) && !t.call.Event?
    requires wallet in w.state.users && DaysSincePayout(w.state.users[wallet], t.now) <= HISTORY_SIZE
    ensures Window(w.state.daily.history, DaysSincePayout(w.state.users[wallet], t.now)) == Unclaimed(w, wallet)
  {
    DaysSincePayoutAre(w, env, wallet, t.now);
    ClaimReads(w, env, wallet, t.now);
  }

  lemma {:induction false} EventsFirstExtends(w: World, env: Env, calls: seq<TimedCall>, t: TimedCall)
    requires EventsFirst(w, env, calls) && EventFirst(Run(w, env, calls), t)
    ensures EventsFirst(w, env, calls + [t])
  {
    var all := calls + [t];
    assert forall i :: 0 <= i < |calls| ==> all[i] == calls[i] && all[..i] == calls[..i];
    assert all[..|calls|] == calls;
  }

  lemma {:induction false} EventsFirstPrefix(w: World, env: Env, calls: seq<TimedCall>)
    requires EventsFirst(w, env, calls)
    ensures |calls| > 0 ==> EventsFirst(w, env, calls[..|calls| - 1])
    ensures |calls| > 0 ==> EventFirst(Run(w, env, calls[..|calls| - 1]), calls[|calls| - 1])
  {
    if |calls| > 0 {
      var init := calls[..|calls| - 1];
      assert forall i :: 0 <= i < |init| ==> init[i] == calls[i] && init[..i] == calls[..i];
    }
  }

  lemma {:induction false} RunSkipsNothing(
    now: int, slotHash: Hash, humans: nat, wallets: map<Hash, nat>, env: Env, calls: seq<TimedCall>)
    requires Runs.Clocked(now, calls)
    requires EventsFirst(Start(now, slotHash, humans, wallets), env, calls)
    ensures NothingSkipped(Run(Start(now, slotHash, humans, wallets), env, calls))
  {
    var start := Start(now, slotHash, humans, wallets);
    if |calls| > 0 {
      var init := calls[..|calls| - 1];
      ClockedPrefix(now, calls);
      EventsFirstPrefix(start, env, calls);
      RunSkipsNothing(now, slotHash, humans, wallets, env, init);
      RunIsLogged(now, slotHash, humans, wallets, env, init);
      ClockOfRun(start, env, init);
      NextSkipsNothing(Run(start, env, init), env, calls[|calls| - 1]);
    }
  }
}

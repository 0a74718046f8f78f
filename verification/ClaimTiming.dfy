/** Two runs that differ in one claim: what the earlier claim changes for the claimant, and what it does not. */
module ClaimTiming {
  import opened Blockhashes
  import opened Bytes
  import opened Clock
  import opened Distribution
  import opened EventLog
  import opened Growth
  import opened Ledger
  import opened Options
  import opened Proof
  import opened Runs
  import opened Settlement
  import opened Sums
  import opened SupplyLaw
  import opened TransferHook
  import UserData

  // ----- states that differ only in who holds what and when users were paid

  ghost predicate SameStore(a: UserData.Record, b: UserData.Record) {
    a.(lastPayout := 0) == b.(lastPayout := 0)
  }

  ghost predicate SameBooks(s: State, r: State) {
    && s.daily == r.daily && s.supply == r.supply && s.hashes == r.hashes
    && s.users.Keys == r.users.Keys
    && forall u :: u in s.users ==> SameStore(s.users[u], r.users[u])
  }

  /** If one call goes through, the other does, and the books stay the same. */
  ghost predicate StaySame(s: Option<State>, r: Option<State>) {
    s.Some? == r.Some? && (s.Some? ==> SameBooks(s.value, r.value))
  }

  lemma {:induction false} MineStaysSame(s: State, r: State, env: Env, wallet: Hash, payload: seq<byte>, now: int)
    requires SameBooks(s, r)
    ensures StaySame(MineStep(s, env, wallet, payload, now), MineStep(r, env, wallet, payload, now))
  {
    if wallet in s.users {
      assert SameStore(s.users[wallet], r.users[wallet]);
    }
  }

  /** What an event makes of the recorded data; the banks have no part in it. */
  function DailyAfter(d: DailyData, supply: nat, yesterdaySupply: nat, now: int, pow: PowerLaw): DailyData
    requires d.yesterdaySupply <= supply
  {
    var mined := supply - d.yesterdaySupply;
    var increase := HighWaterMarkIncrease(d.yesterdaySupply, d.highWaterMark, mined, pow);
    var day := if mined == 0 then Entry(1.0, 0) else RecordedDay(increase, d.verifiedHumans, supply);
    DailyData(yesterdaySupply, d.highWaterMark + increase, NormalizeTime(now), d.verifiedHumans,
              Distribution.Record(d.history, day))
  }

  lemma {:induction false} EventDaily(s: State, env: Env, slotHash: Hash, now: int)
    requires EventStep(s, env, slotHash, now).Some?
    ensures var after := EventStep(s, env, slotHash, now).value;
            && s.daily.yesterdaySupply <= s.supply
            && after.daily == DailyAfter(s.daily, s.supply, after.daily.yesterdaySupply, now, env.pow)
            && after.hashes == Update(s.hashes, now, slotHash)
            && after.users == s.users
  {
  }

  lemma {:induction false} EventStaysSame(s: State, r: State, env: Env, slotHash: Hash, now: int)
    requires SameBooks(s, r) && s.supply == Holdings(s) && r.supply == Holdings(r)
    ensures StaySame(EventStep(s, env, slotHash, now), EventStep(r, env, slotHash, now))
  {
    if EventStep(s, env, slotHash, now).Some? {
      assert EventStep(r, env, slotHash, now).Some?;
      EventsStaySame(s, r, env, slotHash, now, EventStep(s, env, slotHash, now).value,
                     EventStep(r, env, slotHash, now).value);
    }
  }

  lemma {:induction false} EventsStaySame(
    s: State, r: State, env: Env, slotHash: Hash, now: int, after: State, after': State)
    requires SameBooks(s, r) && s.supply == Holdings(s) && r.supply == Holdings(r)
    requires Some(after) == EventStep(s, env, slotHash, now) && Some(after') == EventStep(r, env, slotHash, now)
    ensures SameBooks(after, after')
  {
    EventMints(s, env, slotHash, now);
    EventMints(r, env, slotHash, now);
    EventDaily(s, env, slotHash, now);
    EventDaily(r, env, slotHash, now);
    assert after.daily.highWaterMark == after'.daily.highWaterMark;
  }

  /** Claims and transfers move coins and dates only. */
  lemma {:induction false} MovingKeepsBooks(s: State, env: Env, call: Call, now: int)
    requires call.Claim? || call.Transfer?
    requires Step(s, env, call, now).Some?
    ensures SameBooks(s, Step(s, env, call, now).value)
  {
    match call {
      case Claim(wallet) =>
        ClaimUsers(s, wallet, now);
        ClaimKeepsHoldings(s, wallet, now);
      case Transfer(source, destination, amount) =>
        TransferKeepsHoldings(s, Wallet(source), destination, amount);
    }
  }

  lemma {:induction false} AccountsStaySame(s: State, r: State, env: Env, call: Call, now: int)
    requires SameBooks(s, r)
    requires call.UpdateHashes? || call.CreateUser? || call.GrowUser?
    ensures StaySame(Step(s, env, call, now), Step(r, env, call, now))
  {
    if call.GrowUser? && call.wallet in s.users {
      assert SameStore(s.users[call.wallet], r.users[call.wallet]);
    }
  }

  // ----- worlds

  ghost predicate Alike(w: World, v: World) {
    SameBooks(w.state, v.state) && w.log == v.log
  }

  lemma {:induction false} NextKeepsAlike(w: World, v: World, env: Env, t: TimedCall, initial: nat)
    requires Alike(w, v) && Conserved(w, initial) && Conserved(v, initial)
    ensures Alike(Next(w, env, t), Next(v, env, t))
  {
    if t.call.Claim? || t.call.Transfer? {
      MovingKeepsAlike(w, env, t);
      MovingKeepsAlike(v, env, t);
    } else {
      match t.call {
        case Mine(wallet, payload) => MineStaysSame(w.state, v.state, env, wallet, payload, t.now);
        case Event(slotHash) => EventStaysSame(w.state, v.state, env, slotHash, t.now);
        case _ => AccountsStaySame(w.state, v.state, env, t.call, t.now);
      }
      SameStepsAlike(w, v, env, t);
    }
  }

  lemma {:induction false} MovingKeepsAlike(w: World, env: Env, t: TimedCall)
    requires t.call.Claim? || t.call.Transfer?
    ensures Alike(w, Next(w, env, t))
  {
    if Step(w.state, env, t.call, t.now).Some? {
      MovingKeepsBooks(w.state, env, t.call, t.now);
    }
  }

  lemma {:induction false} SameStepsAlike(w: World, v: World, env: Env, t: TimedCall)
    requires Alike(w, v)
    requires StaySame(Step(w.state, env, t.call, t.now), Step(v.state, env, t.call, t.now))
    ensures Alike(Next(w, env, t), Next(v, env, t))
  {
    NextLogs(w, env, t);
    NextLogs(v, env, t);
  }

  lemma {:induction false} NextLogs(w: World, env: Env, t: TimedCall)
    ensures var after := Next(w, env, t);
            && after.log == w.log + (if t.call.Event? && Step(w.state, env, t.call, t.now).Some?
                                     then [after.state.daily.history[HISTORY_SIZE - 1]] else [])
            && after.state == (if Step(w.state, env, t.call, t.now).Some? then Step(w.state, env, t.call, t.now).value
                               else w.state)
  {
  }

  // ----- one user's coins

  /** The call neither pays, dates nor moves coins of the user. */
  predicate LeavesAlone(call: Call, u: Hash) {
    && call != Claim(u)
    && !(call.Mine? && call.wallet == u)
    && !(call.Transfer? && (call.source == u || call.destination == Wallet(u)))
  }

  /** The user's date, status and coins are the same. */
  ghost predicate SameUser(w: World, v: World, u: Hash) {
    && u in w.state.users && u in v.state.users
    && w.state.users[u].lastPayout == v.state.users[u].lastPayout
    && w.state.users[u].verified == v.state.users[u].verified
    && BalanceOf(w.state, Wallet(u)) == BalanceOf(v.state, Wallet(u))
  }

  lemma {:induction false} NextLeavesUser(w: World, env: Env, t: TimedCall, u: Hash)
    requires u in w.state.users && LeavesAlone(t.call, u)
    ensures SameUser(w, Next(w, env, t), u)
  {
    if Step(w.state, env, t.call, t.now).Some? {
      StepLeavesUser(w.state, env, t.call, t.now, u);
      NextLogs(w, env, t);
    }
  }

  lemma {:induction false} StepLeavesUser(s: State, env: Env, call: Call, now: int, u: Hash)
    requires u in s.users && LeavesAlone(call, u) && Step(s, env, call, now).Some?
    ensures var after := Step(s, env, call, now).value;
            && u in after.users
            && after.users[u].lastPayout == s.users[u].lastPayout && after.users[u].verified == s.users[u].verified
            && BalanceOf(after, Wallet(u)) == BalanceOf(s, Wallet(u))
  {
    StepUsers(s, env, call, now);
    if call.Claim? {
      ClaimPays(s, call.wallet, now);
    }
  }

  // ----- runs

  lemma {:induction false} RunAppend(w: World, env: Env, early: seq<TimedCall>, late: seq<TimedCall>)
    ensures Run(w, env, early + late) == Run(Run(w, env, early), env, late)
  {
    if |late| == 0 {
      assert early + late == early;
    } else {
      RunAppend(w, env, early, late[..|late| - 1]);
      assert (early + late)[..|early + late| - 1] == early + late[..|late| - 1];
    }
  }

  ghost predicate AllLeaveAlone(calls: seq<TimedCall>, u: Hash) {
    forall i :: 0 <= i < |calls| ==> LeavesAlone(calls[i].call, u)
  }

  lemma {:induction false} RunLeavesUser(w: World, env: Env, calls: seq<TimedCall>, u: Hash)
    requires u in w.state.users && AllLeaveAlone(calls, u)
    ensures SameUser(w, Run(w, env, calls), u)
    ensures w.log <= Run(w, env, calls).log
  {
    if |calls| > 0 {
      var init := calls[..|calls| - 1];
      RunLeavesUser(w, env, init, u);
      NextLeavesUser(Run(w, env, init), env, calls[|calls| - 1], u);
      NextLogs(Run(w, env, init), env, calls[|calls| - 1]);
    }
  }

  lemma {:induction false} RunKeepsAlike(w: World, v: World, env: Env, calls: seq<TimedCall>, initial: nat)
    requires Alike(w, v) && Conserved(w, initial) && Conserved(v, initial)
    ensures Alike(Run(w, env, calls), Run(v, env, calls))
    ensures Conserved(Run(w, env, calls), initial) && Conserved(Run(v, env, calls), initial)
  {
    if |calls| > 0 {
      var init, last := calls[..|calls| - 1], calls[|calls| - 1];
      RunKeepsAlike(w, v, env, init, initial);
      NextKeepsAlike(Run(w, env, init), Run(v, env, init), env, last, initial);
      NextConserves(Run(w, env, init), env, last, initial);
      NextConserves(Run(v, env, init), env, last, initial);
    }
  }

  // ----- the two ways

  /** The run so far, the first claim and the second, and what happens in between. */
  datatype Story = Story(
    now: int, slotHash: Hash, humans: nat, wallets: map<Hash, nat>, env: Env,
    early: seq<TimedCall>, claim: TimedCall, between: seq<TimedCall>, last: TimedCall, user: Hash)
  {
    ghost function First(): World {
      Start(now, slotHash, humans, wallets)
    }

    ghost function Before(): World {
      Run(First(), env, early)
    }

    /** The world before the last claim if the first one is made. */
    ghost function Eager(): World {
      Run(First(), env, early + [claim] + between)
    }

    /** The same without the first claim. */
    ghost function Patient(): World {
      Run(First(), env, early + between)
    }

    /** The clock runs forward, and nothing but the two claims concerns the user's coins. */
    ghost predicate Proper() {
      && Runs.Clocked(now, early + [claim] + between + [last])
      && claim.call == last.call == Claim(user)
      && AllLeaveAlone(between, user)
      && user in Before().state.users
    }

    /** All claims go through. */
    ghost predicate Paid() {
      && Step(Before().state, env, claim.call, claim.now).Some?
      && Step(Eager().state, env, last.call, last.now).Some?
      && Step(Patient().state, env, last.call, last.now).Some?
    }

    /** The days recorded between the two claims. */
    ghost function Days(): seq<Entry> {
      if |Before().log| <= |Patient().log| then Patient().log[|Before().log|..] else []
    }
  }

  lemma {:induction false} ClockedTake(start: int, calls: seq<TimedCall>, n: nat)
    requires Runs.Clocked(start, calls) && n <= |calls|
    ensures Runs.Clocked(start, calls[..n])
  {
  }

  lemma {:induction false} ClockedWithout(start: int, early: seq<TimedCall>, t: TimedCall, late: seq<TimedCall>)
    requires Runs.Clocked(start, early + [t] + late)
    ensures Runs.Clocked(start, early + late)
  {
    var all, less := early + [t] + late, early + late;
    forall i | 0 <= i < |less|
      ensures less[i] == all[if i < |early| then i else i + 1]
    {
    }
  }

  lemma {:induction false} StoryClocks(s: Story)
    requires s.Proper()
    ensures Runs.Clocked(s.now, s.early) && Runs.Clocked(s.now, s.early + s.between)
    ensures Runs.Clocked(s.now, s.early + [s.claim] + s.between)
    ensures s.claim.now <= s.last.now
  {
    var eager := s.early + [s.claim] + s.between;
    var all := eager + [s.last];
    assert all[|s.early|] == s.claim && all[|eager|] == s.last;
    ClockedTake(s.now, all, |eager|);
    assert all[..|eager|] == eager;
    ClockedTake(s.now, eager, |s.early|);
    assert eager[..|s.early|] == s.early;
    ClockedWithout(s.now, s.early, s.claim, s.between);
  }

  /** The two worlds before the last claim have recorded the same days. */
  lemma {:induction false} StoryBooks(s: Story)
    requires s.Proper()
    ensures Alike(s.Eager(), s.Patient())
    ensures s.Before().log <= s.Patient().log
    ensures SameUser(s.Before(), s.Patient(), s.user)
    ensures SameUser(Next(s.Before(), s.env, s.claim), s.Eager(), s.user)
  {
    var start := s.First();
    var before := s.Before();
    var claimed := Next(before, s.env, s.claim);
    RunAppend(start, s.env, s.early, s.between);
    assert (s.early + [s.claim])[..|s.early|] == s.early;
    assert Run(start, s.env, s.early + [s.claim]) == claimed;
    RunAppend(start, s.env, s.early + [s.claim], s.between);
    SupplyLawHolds(s.now, s.slotHash, s.humans, s.wallets, s.env, s.early);
    SupplyLawHolds(s.now, s.slotHash, s.humans, s.wallets, s.env, s.early + [s.claim]);
    MovingKeepsAlike(before, s.env, s.claim);
    RunKeepsAlike(claimed, before, s.env, s.between, Sum(s.wallets));
    RunLeavesUser(before, s.env, s.between, s.user);
    ClaimDates(before, s.env, s.claim, s.user);
    RunLeavesUser(claimed, s.env, s.between, s.user);
  }

  lemma {:induction false} ClaimDates(w: World, env: Env, t: TimedCall, u: Hash)
    requires t.call == Claim(u) && u in w.state.users
    ensures u in Next(w, env, t).state.users
  {
    if Step(w.state, env, t.call, t.now).Some? {
      ClaimUsers(w.state, u, t.now);
    }
  }

  /** What a claim in a run leaves the user, by the log and the calendar. */
  lemma {:induction false} ClaimInWorld(w: World, env: Env, t: TimedCall, u: Hash, n: int)
    requires Logged(w, env) && t.call == Claim(u) && Step(w.state, env, t.call, t.now).Some?
    requires n == DaysSincePayout(w.state.users[u], t.now)
    ensures u in w.state.users && u in Next(w, env, t).state.users
    ensures Next(w, env, t).state.users[u] == w.state.users[u].(lastPayout := NormalizeTime(t.now))
    ensures BalanceOf(Next(w, env, t).state, Wallet(u))
            == Claimed(Window(RecordAll(FreshHistory(), w.log), n), BalanceOf(w.state, Wallet(u)), false)
  {
    ClaimPays(w.state, u, t.now);
    ClaimUsers(w.state, u, t.now);
  }

  lemma {:induction false} WholeDayPayout(w: World, env: Env, u: Hash)
    requires Logged(w, env) && u in w.state.users
    ensures w.state.users[u].lastPayout % SEC_PER_DAY == 0 && 0 <= w.state.users[u].lastPayout <= w.clock
  {
  }

  /** How the days of the two ways add up. */
  lemma {:induction false} StoryDays(s: Story, a: int)
    requires s.Proper() && s.Paid()
    requires a == DaysSincePayout(s.Before().state.users[s.user], s.claim.now)
    requires |s.Days()| == Day(s.last.now) - Day(s.claim.now)
    ensures a >= 0
    ensures s.user in s.Patient().state.users && s.user in s.Eager().state.users
    ensures DaysSincePayout(s.Patient().state.users[s.user], s.last.now) == a + |s.Days()|
    ensures DaysSincePayout(s.Eager().state.users[s.user], s.last.now) == |s.Days()|
  {
    StoryClocks(s);
    StoryBooks(s);
    ClockOfStory(s);
    RunIsLogged(s.now, s.slotHash, s.humans, s.wallets, s.env, s.early);
    WholeDayPayout(s.Before(), s.env, s.user);
    DaysAddUp(s.Before().state.users[s.user], s.claim.now, |s.Days()|, s.last.now);
    ClaimInWorld(s.Before(), s.env, s.claim, s.user, a);
  }

  /** One claim of all the days, in worlds. */
  lemma {:induction false} ClaimInOne(
    w: World, later: World, env: Env, t: TimedCall, u: Hash, a: nat, days: seq<Entry>)
    requires Logged(later, env) && t.call == Claim(u) && Step(later.state, env, t.call, t.now).Some?
    requires SameUser(w, later, u) && later.log == w.log + days && a + |days| <= HISTORY_SIZE
    requires DaysSincePayout(later.state.users[u], t.now) == a + |days|
    ensures BalanceOf(Next(later, env, t).state, Wallet(u))
            == ClaimedInOne(w.log, a, days, BalanceOf(w.state, Wallet(u)), false)
  {
    ClaimInWorld(later, env, t, u, a + |days|);
    RecordAllAppend(FreshHistory(), w.log, days);
  }

  /** The second of two claims, in worlds. */
  lemma {:induction false} ClaimInTwo(
    w: World, later: World, env: Env, t: TimedCall, u: Hash, a: nat, days: seq<Entry>, money: nat)
    requires Logged(later, env) && t.call == Claim(u) && Step(later.state, env, t.call, t.now).Some?
    requires SameUser(w, later, u) && later.log == w.log + days && a + |days| <= HISTORY_SIZE
    requires DaysSincePayout(later.state.users[u], t.now) == |days|
    requires BalanceOf(w.state, Wallet(u)) == Claimed(Window(RecordAll(FreshHistory(), w.log), a), money, false)
    ensures BalanceOf(Next(later, env, t).state, Wallet(u)) == ClaimedInTwo(w.log, a, days, money, false)
  {
    ClaimInWorld(later, env, t, u, |days|);
    RecordAllAppend(FreshHistory(), w.log, days);
  }

  lemma {:induction false} PatientClaim(s: Story, a: nat)
    requires s.Proper() && s.Paid()
    requires a == DaysSincePayout(s.Before().state.users[s.user], s.claim.now)
    requires |s.Days()| == Day(s.last.now) - Day(s.claim.now)
    requires a + |s.Days()| <= HISTORY_SIZE
    ensures BalanceOf(Next(s.Patient(), s.env, s.last).state, Wallet(s.user))
            == ClaimedInOne(s.Before().log, a, s.Days(), BalanceOf(s.Before().state, Wallet(s.user)), false)
  {
    StoryClocks(s);
    StoryBooks(s);
    StoryDays(s, a);
    RunIsLogged(s.now, s.slotHash, s.humans, s.wallets, s.env, s.early + s.between);
    ClaimInOne(s.Before(), s.Patient(), s.env, s.last, s.user, a, s.Days());
  }

  lemma {:induction false} FirstClaim(s: Story, a: nat)
    requires s.Proper() && s.Paid()
    requires a == DaysSincePayout(s.Before().state.users[s.user], s.claim.now)
    ensures var claimed := Next(s.Before(), s.env, s.claim);
            && claimed.log == s.Before().log
            && BalanceOf(claimed.state, Wallet(s.user))
               == Claimed(Window(RecordAll(FreshHistory(), s.Before().log), a),
                          BalanceOf(s.Before().state, Wallet(s.user)), false)
  {
    StoryClocks(s);
    RunIsLogged(s.now, s.slotHash, s.humans, s.wallets, s.env, s.early);
    ClaimInWorld(s.Before(), s.env, s.claim, s.user, a);
    NextLogs(s.Before(), s.env, s.claim);
  }

  lemma {:induction false} StoryLogs(s: Story)
    requires s.Proper()
    ensures s.Eager().log == s.Patient().log == s.Before().log + s.Days()
  {
    StoryBooks(s);
  }

  /** What the books say just before the eager user's last claim. */
  lemma {:induction false} EagerBooks(s: Story)
    requires s.Proper()
    ensures Logged(s.Eager(), s.env) && s.Eager().log == s.Before().log + s.Days()
    ensures SameUser(Next(s.Before(), s.env, s.claim), s.Eager(), s.user)
  {
    StoryClocks(s);
    StoryLogs(s);
    StoryBooks(s);
    RunIsLogged(s.now, s.slotHash, s.humans, s.wallets, s.env, s.early + [s.claim] + s.between);
  }

  lemma {:induction false} EagerClaim(s: Story, a: nat)
    requires s.Proper() && s.Paid()
    requires a == DaysSincePayout(s.Before().state.users[s.user], s.claim.now)
    requires |s.Days()| == Day(s.last.now) - Day(s.claim.now)
    requires a + |s.Days()| <= HISTORY_SIZE
    ensures BalanceOf(Next(s.Eager(), s.env, s.last).state, Wallet(s.user))
            == ClaimedInTwo(s.Before().log, a, s.Days(), BalanceOf(s.Before().state, Wallet(s.user)), false)
  {
    var before := s.Before();
    FirstClaim(s, a);
    EagerBooks(s);
    StoryDays(s, a);
    ClaimInTwo(Next(before, s.env, s.claim), s.Eager(), s.env, s.last, s.user, a, s.Days(),
               BalanceOf(before.state, Wallet(s.user)));
  }

  lemma {:induction false} ClockOfStory(s: Story)
    requires s.Proper()
    ensures s.Before().clock <= s.claim.now
  {
    StoryClocks(s);
    var claimed := s.early + [s.claim];
    assert (claimed + s.between)[..|claimed|] == claimed;
    ClockedTake(s.now, claimed + s.between, |claimed|);
    ClockAtTheEnd(s.First(), s.env, s.early, s.claim);
  }

  /**
   * In any run, with one event for every day between two claims of a user whose coins nothing else touches: leaving out
   * the first claim makes no difference to the user if and only if that claim reached back no further than the first
   * event, or the second part pays nothing.
   */
  lemma {:induction false} EarlierClaimMattersIff(s: Story)
    requires s.Proper() && s.Paid()
    requires s.Patient().state.supply < U64_RANGE
    requires DaysSincePayout(s.Patient().state.users[s.user], s.last.now) <= HISTORY_SIZE
    requires |s.Days()| == Day(s.last.now) - Day(s.claim.now)
    ensures BalanceOf(Next(s.Eager(), s.env, s.last).state, Wallet(s.user))
            == BalanceOf(Next(s.Patient(), s.env, s.last).state, Wallet(s.user))
            <==> || DaysSincePayout(s.Before().state.users[s.user], s.claim.now) <= |s.Before().log|
                 || Interest(s.Days(), BalanceOf(s.Before().state, Wallet(s.user))) == 0
  {
    StoryClocks(s);
    StoryBooks(s);
    RunIsLogged(s.now, s.slotHash, s.humans, s.wallets, s.env, s.early + s.between);
    var a := DaysSincePayout(s.Before().state.users[s.user], s.claim.now);
    var log, days := s.Before().log, s.Days();
    assert s.Patient().log == log + days;
    GrowthSplits(log, days);
    StoryDays(s, a);
    PatientClaim(s, a);
    EagerClaim(s, a);
    SettlementAgreesIff(log, a, days, BalanceOf(s.Before().state, Wallet(s.user)));
  }

  lemma {:induction false} NextLeavesMark(w: World, env: Env, t: TimedCall, u: Hash)
    requires u in w.state.users && u in w.marks && LeavesAlone(t.call, u)
    ensures u in Next(w, env, t).marks && Next(w, env, t).marks[u] == w.marks[u]
  {
  }

  lemma {:induction false} RunLeavesMark(w: World, env: Env, calls: seq<TimedCall>, u: Hash)
    requires u in w.state.users && u in w.marks && AllLeaveAlone(calls, u)
    ensures u in Run(w, env, calls).marks && Run(w, env, calls).marks[u] == w.marks[u]
  {
    if |calls| > 0 {
      var init := calls[..|calls| - 1];
      RunLeavesMark(w, env, init, u);
      RunLeavesUser(w, env, init, u);
      NextLeavesMark(Run(w, env, init), env, calls[|calls| - 1], u);
    }
  }

  lemma {:induction false} EventsFirstAt(w: World, env: Env, early: seq<TimedCall>, t: TimedCall, late: seq<TimedCall>)
    requires EventsFirst(w, env, early + [t] + late)
    ensures EventsFirst(w, env, early) && EventFirst(Run(w, env, early), t)
  {
    var all := early + [t] + late;
    assert all[|early|] == t && all[..|early|] == early;
    assert forall i :: 0 <= i < |early| ==> early[i] == all[i] && early[..i] == all[..i];
  }

  /** Where every day has its event first, the days since a payout are the events since then. */
  lemma {:induction false} DaysAreEvents(w: World, env: Env, t: TimedCall, u: Hash)
    requires Logged(w, env) && NothingSkipped(w) && EventFirst(w, t) && !t.call.Event? && t.now >= w.clock
    requires u in w.state.users
    ensures DaysSincePayout(w.state.users[u], t.now) == |w.log| - w.marks[u]
    ensures Day(t.now) - Day(w.state.users[u].lastPayout) == |w.log| - w.marks[u]
  {
    DaysSincePayoutAre(w, env, u, t.now);
  }

  lemma {:induction false} EventsBeforeClaim(s: Story)
    requires s.Proper()
    requires EventsFirst(s.First(), s.env, s.early + [s.claim] + s.between + [s.last])
    ensures var w := s.Before();
            && s.user in w.marks
            && DaysSincePayout(w.state.users[s.user], s.claim.now) == |w.log| - w.marks[s.user]
            && Day(s.claim.now) - Day(w.state.users[s.user].lastPayout) == |w.log| - w.marks[s.user]
  {
    assert s.early + [s.claim] + s.between + [s.last] == s.early + [s.claim] + (s.between + [s.last]);
    EventsFirstAt(s.First(), s.env, s.early, s.claim, s.between + [s.last]);
    StoryClocks(s);
    RunIsLogged(s.now, s.slotHash, s.humans, s.wallets, s.env, s.early);
    RunSkipsNothing(s.now, s.slotHash, s.humans, s.wallets, s.env, s.early);
    ClockOfStory(s);
    DaysAreEvents(s.Before(), s.env, s.claim, s.user);
  }

  lemma {:induction false} EventsBeforeLast(s: Story)
    requires s.Proper() && s.user in s.Patient().state.users
    requires EventsFirst(s.First(), s.env, s.early + s.between + [s.last])
    ensures var w := s.Patient();
            && s.user in w.marks
            && Day(s.last.now) - Day(w.state.users[s.user].lastPayout) == |w.log| - w.marks[s.user]
  {
    var both := s.early + s.between;
    assert both + [s.last] == both + [s.last] + [];
    EventsFirstAt(s.First(), s.env, both, s.last, []);
    StoryClocks(s);
    RunIsLogged(s.now, s.slotHash, s.humans, s.wallets, s.env, both);
    RunSkipsNothing(s.now, s.slotHash, s.humans, s.wallets, s.env, both);
    ClockOfLast(s);
    DaysAreEvents(s.Patient(), s.env, s.last, s.user);
  }

  lemma {:induction false} StoryEvents(s: Story)
    requires s.Proper()
    requires EventsFirst(s.First(), s.env, s.early + [s.claim] + s.between + [s.last])
    requires EventsFirst(s.First(), s.env, s.early + s.between + [s.last])
    ensures DaysSincePayout(s.Before().state.users[s.user], s.claim.now) <= |s.Before().log|
    ensures |s.Days()| == Day(s.last.now) - Day(s.claim.now)
  {
    StoryBooks(s);
    EventsBeforeClaim(s);
    EventsBeforeLast(s);
    RunAppend(s.First(), s.env, s.early, s.between);
    RunLeavesMark(s.Before(), s.env, s.between, s.user);
  }

  lemma {:induction false} ClockOfLast(s: Story)
    requires s.Proper()
    ensures s.Patient().clock <= s.last.now
  {
    var both := s.early + s.between;
    assert s.early + [s.claim] + s.between + [s.last] == s.early + [s.claim] + (s.between + [s.last]);
    ClockedWithout(s.now, s.early, s.claim, s.between + [s.last]);
    assert s.early + (s.between + [s.last]) == both + [s.last];
    ClockAtTheEnd(s.First(), s.env, both, s.last);
  }

  lemma {:induction false} ClockAtTheEnd(w: World, env: Env, calls: seq<TimedCall>, t: TimedCall)
    requires Runs.Clocked(w.clock, calls + [t])
    ensures Run(w, env, calls).clock <= t.now
  {
    var all := calls + [t];
    ClockedTake(w.clock, all, |calls|);
    assert all[..|calls|] == calls && all[|calls|] == t;
    ClockOfRun(w, env, calls);
    assert forall i :: 0 <= i < |calls| ==> calls[i] == all[i];
  }

  /** Where every day has its event first, an earlier claim makes no difference at all. */
  lemma {:induction false} EarlierClaimNeverMatters(s: Story)
    requires s.Proper() && s.Paid()
    requires EventsFirst(s.First(), s.env, s.early + [s.claim] + s.between + [s.last])
    requires EventsFirst(s.First(), s.env, s.early + s.between + [s.last])
    requires s.Patient().state.supply < U64_RANGE
    requires DaysSincePayout(s.Patient().state.users[s.user], s.last.now) <= HISTORY_SIZE
    ensures BalanceOf(Next(s.Eager(), s.env, s.last).state, Wallet(s.user))
            == BalanceOf(Next(s.Patient(), s.env, s.last).state, Wallet(s.user))
  {
    StoryEvents(s);
    EarlierClaimMattersIff(s);
  }

  lemma {:induction false} GrowthSplits(log: seq<Entry>, days: seq<Entry>)
    requires GrowthDays(log + days)
    ensures GrowthDays(log) && GrowthDays(days)
  {
    assert forall i :: 0 <= i < |log| ==> (log + days)[i] == log[i];
    assert forall i :: 0 <= i < |days| ==> (log + days)[|log| + i] == days[i];
  }
}

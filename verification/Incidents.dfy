/** Short runs, from a fresh program, in which a user loses or gains what the general results say there is to lose. */
module Incidents {
  import opened Blockhashes
  import opened Bytes
  import opened ClaimTiming
  import opened Clock
  import opened Distribution
  import opened EventLog
  import opened Growth
  import opened Ledger
  import opened Options
  import opened Proof
  import opened Rounding
  import opened Runs
  import opened Settlement
  import opened Solvency
  import opened Sums
  import opened SupplyLaw
  import opened TransferHook
  import UserData

  /** What the first event on 10000 coins records. */
  const FIRST_DAY: Entry := Entry(73001.0, 0)

  /** The program starts on day 1, with one wallet that holds 10000 coins. */
  ghost function Fresh(u: Hash, slotHash: Hash): World {
    Start(90_000, slotHash, 0, map[u := 10_000])
  }

  function Creation(u: Hash): TimedCall {
    TimedCall(90_000, CreateUser(u, 88))
  }

  const DAY_2: int := 172_801
  const DAY_3: int := 259_201

  function ClaimOn(now: int, u: Hash): TimedCall {
    TimedCall(now, Claim(u))
  }

  function EventOn(now: int, slotHash: Hash): TimedCall {
    TimedCall(now, Event(slotHash))
  }

  // ----- one step at a time

  lemma {:induction false} RunOne(w: World, env: Env, t: TimedCall)
    ensures Run(w, env, [t]) == Next(w, env, t)
  {
    assert [t][..0] == [];
  }

  lemma {:induction false} RunMore(w: World, env: Env, calls: seq<TimedCall>, t: TimedCall)
    ensures Run(w, env, calls + [t]) == Next(Run(w, env, calls), env, t)
  {
    assert (calls + [t])[..|calls|] == calls;
  }

  lemma {:induction false} SumOfOne(u: Hash, amount: nat)
    ensures Sum(map[u := amount]) == amount
  {
    SumTakesOut(map[u := amount], u);
    assert map[u := amount] - {u} == map[];
  }

  /** Nothing has been minted or recorded; the user exists, last paid on a day, with 10000 coins. */
  ghost predicate Waiting(w: World, u: Hash, day: int) {
    && w.state.supply == 10_000
    && w.state.interestBank == 0 && w.state.verifiedBank == 0 && w.state.futureBank == 0
    && w.state.wallets == map[u := 10_000]
    && w.state.users == map[u := UserData.Record(day * SEC_PER_DAY, false, ZERO_HASH, [], 1)]
    && w.state.daily == DailyData(0, 0, SEC_PER_DAY, 0, FreshHistory())
    && w.log == [] && w.marks == map[u := 0] && w.slack == 0.0 && w.startDay == 1 && w.eventDays == []
  }

  lemma {:induction false} CreationWaits(u: Hash, slotHash: Hash, env: Env)
    ensures Waiting(Run(Fresh(u, slotHash), env, [Creation(u)]), u, 1)
  {
    RunOne(Fresh(u, slotHash), env, Creation(u));
    SumOfOne(u, 10_000);
  }

  /** A claim before there was any event: goes through, pays nothing and moves the date. */
  lemma {:induction false} EarlyClaim(w: World, env: Env, u: Hash)
    requires Waiting(w, u, 1)
    ensures Step(w.state, env, Claim(u), DAY_2).Some?
    ensures Waiting(Next(w, env, ClaimOn(DAY_2, u)), u, 2)
  {
    UnfilledWindowPaysNothing([], 1, 10_000);
    assert DaysSincePayout(w.state.users[u], DAY_2) == 1;
    assert Owed(w.state, u, DAY_2) == (0, 0);
  }

  /** The user has one unclaimed event, or none, and the bank holds what it pays on 10000 coins. */
  ghost predicate Paying(w: World, u: Hash, day: int, log: seq<Entry>) {
    && w.state.supply == w.state.daily.yesterdaySupply == 1_460_010_000
    && w.state.interestBank == 730_000_000 && w.state.verifiedBank == 0 && w.state.futureBank == 730_000_000
    && w.state.wallets == map[u := 10_000]
    && w.state.users == map[u := UserData.Record(day * SEC_PER_DAY, false, ZERO_HASH, [], 1)]
    && w.state.daily.history == RecordAll(FreshHistory(), log)
    && w.log == log && w.marks == map[u := 0]
  }

  lemma {:induction false} FirstRate()
    ensures RecordedDay(10_000, 0, 10_000) == FIRST_DAY
    ensures Split(10_000, 0, 0, 10_000) == Values(730_000_000, 0, 730_000_000)
  {
    assert Half(10_000) == 730_000_000;
    assert InterestRate(10_000, 10_000) == 73000.0;
    NothingStaysNothing(InterestRate(10_000, 10_000));
  }

  lemma {:induction false} FirstEvent(w: World, env: Env, u: Hash, day: int, slotHash: Hash, now: int)
    requires Waiting(w, u, day) && now > 2 * SEC_PER_DAY
    ensures var after := Next(w, env, EventOn(now, slotHash));
            && Paying(after, u, day, [FIRST_DAY])
            && after.slack == 1.0 && after.clock == now && after.startDay == 1 && after.eventDays == [Day(now)]
            && after.state.hashes == Update(w.state.hashes, now, slotHash)
            && after.state.daily.lastEventTime == NormalizeTime(now)
  {
    FirstRate();
    assert HighWaterMarkIncrease(0, 0, 10_000, env.pow) == 10_000;
    var (daily, values) := Distribute(w.state.daily, 10_000, 0, now, env.pow);
    assert values == Values(730_000_000, 0, 730_000_000);
    assert daily.history == Distribution.Record(FreshHistory(), FIRST_DAY);
    RecordAllOne(FIRST_DAY);
    assert SlackAfter(0.0, 73001.0, 1) == 1.0;
  }

  lemma {:induction false} RecordAllOne(day: Entry)
    ensures RecordAll(FreshHistory(), [day]) == Distribution.Record(FreshHistory(), day)
  {
    assert [day][..0] == [];
    assert RecordAll(FreshHistory(), []) == FreshHistory();
  }

  /** The first event pays 73000 coins for each. */
  lemma {:induction false} FirstInterest(held: nat)
    ensures Interest([FIRST_DAY], held) == 73_000 * held
  {
    assert Product(held, 73001.0) == (73_001 * held) as real;
    RoundEvenFixesIntegers(73_001 * held);
    assert [FIRST_DAY][1..] == [];
    assert InterestFold([FIRST_DAY], held) == InterestFold([], Scaled(held, 73001.0));
  }

  // ----- a claim that reaches back past the first event

  /** A patient user: a day without an event, an event, and then the only claim. */
  function PatientCalls(u: Hash, slotHash: Hash): seq<TimedCall> {
    [Creation(u)] + [EventOn(DAY_3, slotHash)] + [ClaimOn(DAY_3, u)]
  }

  /** An eager one, who also claims on the day without an event. */
  function EagerCalls(u: Hash, slotHash: Hash): seq<TimedCall> {
    [Creation(u)] + [ClaimOn(DAY_2, u)] + [EventOn(DAY_3, slotHash)] + [ClaimOn(DAY_3, u)]
  }

  /** The patient user gets nothing where the eager one gets 730000000 coins. */
  lemma {:induction false} UnfilledSlotBreaksSettlement(u: Hash, slotHash: Hash, next: Hash, env: Env)
    ensures BalanceOf(Run(Fresh(u, slotHash), env, PatientCalls(u, next)).state, Wallet(u)) == 10_000
    ensures BalanceOf(Run(Fresh(u, slotHash), env, EagerCalls(u, next)).state, Wallet(u)) == 730_010_000
  {
    PatientGetsNothing(u, slotHash, next, env);
    EagerGetsAll(u, slotHash, next, env);
  }

  lemma {:induction false} PatientGetsNothing(u: Hash, slotHash: Hash, next: Hash, env: Env)
    ensures BalanceOf(Run(Fresh(u, slotHash), env, PatientCalls(u, next)).state, Wallet(u)) == 10_000
  {
    var start := Fresh(u, slotHash);
    var created := Run(start, env, [Creation(u)]);
    var paying := Next(created, env, EventOn(DAY_3, next));
    CreationWaits(u, slotHash, env);
    FirstEvent(created, env, u, 1, next, DAY_3);
    RunMore(start, env, [Creation(u)], EventOn(DAY_3, next));
    RunMore(start, env, [Creation(u)] + [EventOn(DAY_3, next)], ClaimOn(DAY_3, u));
    ClaimAfterFirstEvent(paying, env, u, 1);
  }

  lemma {:induction false} EagerGetsAll(u: Hash, slotHash: Hash, next: Hash, env: Env)
    ensures BalanceOf(Run(Fresh(u, slotHash), env, EagerCalls(u, next)).state, Wallet(u)) == 730_010_000
  {
    var start := Fresh(u, slotHash);
    var created := Run(start, env, [Creation(u)]);
    var claimed := Next(created, env, ClaimOn(DAY_2, u));
    var paying := Next(claimed, env, EventOn(DAY_3, next));
    CreationWaits(u, slotHash, env);
    EarlyClaim(created, env, u);
    FirstEvent(claimed, env, u, 2, next, DAY_3);
    RunMore(start, env, [Creation(u)], ClaimOn(DAY_2, u));
    RunMore(start, env, [Creation(u)] + [ClaimOn(DAY_2, u)], EventOn(DAY_3, next));
    RunMore(start, env, [Creation(u)] + [ClaimOn(DAY_2, u)] + [EventOn(DAY_3, next)], ClaimOn(DAY_3, u));
    ClaimAfterFirstEvent(paying, env, u, 2);
  }

  /** The claim on day 3: one day back it reads the event, two days back an unfilled slot, too. */
  lemma {:induction false} ClaimAfterFirstEvent(w: World, env: Env, u: Hash, day: int)
    requires Paying(w, u, day, [FIRST_DAY]) && 1 <= day <= 2
    ensures BalanceOf(Next(w, env, ClaimOn(DAY_3, u)).state, Wallet(u)) == if day == 2 then 730_010_000 else 10_000
  {
    assert DaysSincePayout(w.state.users[u], DAY_3) == 3 - day;
    if day == 2 {
      WindowSplits([FIRST_DAY], 0, 1);
      FirstInterest(10_000);
      assert Owed(w.state, u, DAY_3) == (730_000_000, 0);
    } else {
      UnfilledWindowPaysNothing([FIRST_DAY], 2, 10_000);
      assert Owed(w.state, u, DAY_3) == (0, 0);
    }
    ClaimSucceedsIff(w.state, u, DAY_3);
    ClaimPays(w.state, u, DAY_3);
  }

  // ----- a claim before the day's event

  /** Created on day 1, claimed on day 2 before the event of that day, then the events of days 2 and 3. */
  function HastyCalls(u: Hash, slotHash: Hash): seq<TimedCall> {
    [Creation(u)] + [ClaimOn(DAY_2, u)] + [EventOn(DAY_2, slotHash)] + [EventOn(DAY_3, slotHash)]
  }

  /**
   * No day lacked an event, and still the event of day 2 is never paid: on day 3 it is due, the claim reads the other
   * one only, and after the claim nothing is due any more.
   */
  lemma {:induction false} ClaimBeforeEventLosesIt(u: Hash, slotHash: Hash, next: Hash, env: Env)
    ensures var w := Run(Fresh(u, slotHash), env, HastyCalls(u, next));
            var after := Next(w, env, ClaimOn(DAY_3, u));
            && w.eventDays == [2, 3]
            && u in w.marks && w.marks[u] <= |w.log| && u in w.state.users
            && Interest(Unclaimed(w, u), BalanceOf(w.state, Wallet(u))) == 730_000_000
            && Owed(w.state, u, DAY_3) == (0, 0)
            && u in after.marks && after.marks[u] <= |after.log| && Unclaimed(after, u) == []
            && BalanceOf(after.state, Wallet(u)) == 10_000
  {
    var start := Fresh(u, slotHash);
    var created := Run(start, env, [Creation(u)]);
    var claimed := Next(created, env, ClaimOn(DAY_2, u));
    var first := Next(claimed, env, EventOn(DAY_2, next));
    var second := Next(first, env, EventOn(DAY_3, next));
    CreationWaits(u, slotHash, env);
    EarlyClaim(created, env, u);
    FirstEvent(claimed, env, u, 2, next, DAY_2);
    QuietEvent(first, env, u, next);
    RunMore(start, env, [Creation(u)], ClaimOn(DAY_2, u));
    RunMore(start, env, [Creation(u)] + [ClaimOn(DAY_2, u)], EventOn(DAY_2, next));
    RunMore(start, env, [Creation(u)] + [ClaimOn(DAY_2, u)] + [EventOn(DAY_2, next)], EventOn(DAY_3, next));
    LastClaimReadsQuietDay(second, env, u);
  }

  const QUIET_DAY: Entry := Entry(1.0, 0)

  lemma {:induction false} QuietEvent(w: World, env: Env, u: Hash, slotHash: Hash)
    requires Paying(w, u, 2, [FIRST_DAY]) && w.eventDays == [2]
    requires w.state.daily.lastEventTime == NormalizeTime(DAY_2)
    ensures var after := Next(w, env, EventOn(DAY_3, slotHash));
            Paying(after, u, 2, [FIRST_DAY, QUIET_DAY]) && after.eventDays == [2, 3]
  {
    assert [FIRST_DAY, QUIET_DAY] == [FIRST_DAY] + [QUIET_DAY];
    assert ([FIRST_DAY] + [QUIET_DAY])[..1] == [FIRST_DAY];
  }

  lemma {:induction false} QuietDayPays(days: seq<Entry>, held: nat)
    ensures InterestFold(days + [QUIET_DAY], held) == InterestFold(days, held)
  {
    WorthAfterDay(days, QUIET_DAY, held);
    ScaledGrows(InterestFold(days, held), 1.0);
  }

  lemma {:induction false} LastClaimReadsQuietDay(w: World, env: Env, u: Hash)
    requires Paying(w, u, 2, [FIRST_DAY, QUIET_DAY])
    ensures var after := Next(w, env, ClaimOn(DAY_3, u));
            && Interest(Unclaimed(w, u), BalanceOf(w.state, Wallet(u))) == 730_000_000
            && Owed(w.state, u, DAY_3) == (0, 0)
            && u in after.marks && after.marks[u] <= |after.log| && Unclaimed(after, u) == []
            && BalanceOf(after.state, Wallet(u)) == 10_000
  {
    var log := [FIRST_DAY, QUIET_DAY];
    assert log == [FIRST_DAY] + [QUIET_DAY];
    assert Unclaimed(w, u) == log;
    FirstInterest(10_000);
    QuietDayPays([FIRST_DAY], 10_000);
    assert DaysSincePayout(w.state.users[u], DAY_3) == 1;
    WindowSplits(log, 1, 1);
    assert log[1..] == [] + [QUIET_DAY];
    QuietDayPays([], 10_000);
    ClaimSucceedsIff(w.state, u, DAY_3);
    ClaimPays(w.state, u, DAY_3);
  }

  // ----- mining before claiming

  /** A hash function that makes every proof good. */
  function ZeroDigest(s: seq<byte>): Hash {
    ZERO_HASH
  }

  function ProofFrom(u: Hash): seq<byte> {
    u + Zeros(PAYLOAD_SIZE - 32)
  }

  function StaleCalls(u: Hash, slotHash: Hash): seq<TimedCall> {
    [Creation(u)] + [EventOn(DAY_2, slotHash)]
  }

  function StaleMine(u: Hash): TimedCall {
    TimedCall(DAY_2, Mine(u, ProofFrom(u)))
  }

  lemma {:induction false} GoodProof(s: State, env: Env, u: Hash)
    requires env.sha == ZeroDigest
    requires u in s.users && s.users[u].proofs == [] && s.users[u].capacity == 1
    requires DAY_2 <= s.hashes.validTime + SEC_PER_DAY
    ensures MineStep(s, env, u, ProofFrom(u), DAY_2).Some?
  {
    var digest := env.sha(env.sha(Header(ProofFrom(u), s.hashes.valid, env.sha)));
    assert digest == ZERO_HASH;
    UserData.ZeroValue(digest);
    assert UserData.UsedWith(s.users[u], s.hashes.valid) == {};
    MineSucceedsIff(s, env, u, ProofFrom(u), DAY_2);
  }

  /**
   * Each day has its event first, and after the event bank and slack cover all that is due. Then the user mines before
   * claiming, and they no longer do: 1460000000 are due, and bank and slack are 730000001.
   */
  lemma {:induction false} StaleMiningBreaksSolvency(u: Hash, slotHash: Hash, next: Hash, pow: PowerLaw)
    ensures var env := Env(ZeroDigest, pow);
            var w := Run(Fresh(u, slotHash), env, StaleCalls(u, next));
            var after := Run(Fresh(u, slotHash), env, StaleCalls(u, next) + [StaleMine(u)]);
            && EventsFirst(Fresh(u, slotHash), env, StaleCalls(u, next) + [StaleMine(u)])
            && Settled(w) && Solvent(w)
            && Settled(after) && !Solvent(after)
  {
    var env := Env(ZeroDigest, pow);
    var start := Fresh(u, slotHash);
    StaleRunIsEventsFirst(u, slotHash, next, env);
    StaleRun(u, slotHash, next, env);
    var w := Run(start, env, StaleCalls(u, next));
    RunMore(start, env, StaleCalls(u, next), StaleMine(u));
    StaleMineGoesThrough(w, env, u);
    RunIsSettled(u, slotHash, env, StaleCalls(u, next));
    RunIsSettled(u, slotHash, env, StaleCalls(u, next) + [StaleMine(u)]);
    StaleDues(w, env, u);
  }

  lemma {:induction false} RunIsSettled(u: Hash, slotHash: Hash, env: Env, calls: seq<TimedCall>)
    requires Runs.Clocked(90_000, calls) && Run(Fresh(u, slotHash), env, calls).state.supply < U64_RANGE
    ensures Settled(Run(Fresh(u, slotHash), env, calls))
  {
    RunIsLogged(90_000, slotHash, 0, map[u := 10_000], env, calls);
    LoggedIsSettled(Run(Fresh(u, slotHash), env, calls), env);
  }

  lemma {:induction false} StaleRun(u: Hash, slotHash: Hash, next: Hash, env: Env)
    ensures var w := Run(Fresh(u, slotHash), env, StaleCalls(u, next));
            && Paying(w, u, 1, [FIRST_DAY]) && w.slack == 1.0 && w.startDay == 1 && w.eventDays == [2]
            && DAY_2 <= w.state.hashes.validTime + SEC_PER_DAY
  {
    var start := Fresh(u, slotHash);
    var created := Run(start, env, [Creation(u)]);
    CreationWaits(u, slotHash, env);
    FirstEvent(created, env, u, 1, next, DAY_2);
    RunMore(start, env, [Creation(u)], EventOn(DAY_2, next));
  }

  lemma {:induction false} StaleRunIsEventsFirst(u: Hash, slotHash: Hash, next: Hash, env: Env)
    ensures EventsFirst(Fresh(u, slotHash), env, StaleCalls(u, next) + [StaleMine(u)])
  {
    var start := Fresh(u, slotHash);
    assert [Creation(u)] == [] + [Creation(u)];
    EventsFirstExtends(start, env, [], Creation(u));
    CreationWaits(u, slotHash, env);
    EventsFirstExtends(start, env, [Creation(u)], EventOn(DAY_2, next));
    StaleRun(u, slotHash, next, env);
    EventsFirstExtends(start, env, StaleCalls(u, next), StaleMine(u));
  }

  lemma {:induction false} StaleMineGoesThrough(w: World, env: Env, u: Hash)
    requires Paying(w, u, 1, [FIRST_DAY]) && env.sha == ZeroDigest
    requires DAY_2 <= w.state.hashes.validTime + SEC_PER_DAY
    ensures Step(w.state, env, StaleMine(u).call, DAY_2).Some?
    ensures Next(w, env, StaleMine(u)).state.supply == 1_460_020_000
  {
    GoodProof(w.state, env, u);
    MineMints(w.state, env, u, ProofFrom(u), DAY_2);
  }

  lemma {:induction false} FirstDue(w: World, u: Hash)
    requires Paying(w, u, 1, [FIRST_DAY]) && Settled(w)
    ensures Unclaimed(w, u) == [FIRST_DAY] && Sum(Dues(w)) == 730_000_000
  {
    assert Unclaimed(w, u) == [FIRST_DAY];
    FirstInterest(10_000);
    DueIsInterest(w, u);
    assert Dues(w) == map[u := 730_000_000];
    SumOfOne(u, 730_000_000);
  }

  lemma {:induction false} FirstDebt(w: World, u: Hash)
    requires u in w.marks && w.marks[u] <= |w.log|
    requires Unclaimed(w, u) == [FIRST_DAY] && BalanceOf(w.state, Wallet(u)) == 10_000
    ensures MiningDebt(w, u) == 730000000.0
  {
    FirstInterest(10_000);
    FirstInterest(20_000);
  }

  lemma {:induction false} InsolventAfterMine(w: World, after: World, u: Hash)
    requires Settled(w) && Settled(after) && CoinsMined(w, after, u)
    requires Unclaimed(w, u) == [FIRST_DAY] && BalanceOf(w.state, Wallet(u)) == 10_000
    requires Sum(Dues(w)) == 730_000_000 && w.state.interestBank == 730_000_000 && w.slack == 1.0
    ensures !Solvent(after)
  {
    MinedCoinsSolventIff(w, after, u);
    FirstDebt(w, u);
  }

  lemma {:induction false} StaleDues(w: World, env: Env, u: Hash)
    requires Paying(w, u, 1, [FIRST_DAY]) && w.slack == 1.0
    requires Step(w.state, env, StaleMine(u).call, DAY_2).Some?
    requires Settled(w) && Settled(Next(w, env, StaleMine(u)))
    ensures Solvent(w) && !Solvent(Next(w, env, StaleMine(u)))
  {
    FirstDue(w, u);
    MineMoves(w, env, StaleMine(u));
    InsolventAfterMine(w, Next(w, env, StaleMine(u)), u);
  }
}

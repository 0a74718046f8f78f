/** What each instruction of the program does to its accounts (comptoken/src/comptoken.rs), as values. */
module Ledger {
  import opened Blockhashes
  import opened Bytes
  import opened Clock
  import opened Distribution
  import opened Growth
  import opened Options
  import opened Proof
  import opened Settlement
  import opened Sums
  import opened TransferHook
  import opened UserData

  const MINING_AMOUNT: nat := 10_000

  /** The library routines the program calls. */
  datatype Env = Env(sha: Digest, pow: PowerLaw)

  datatype State = State(
    supply: nat,
    interestBank: nat,
    verifiedBank: nat,
    futureBank: nat,
    wallets: map<Hash, nat>,
    users: map<Hash, Record>,
    hashes: Hashes,
    daily: DailyData)

  function BalanceOf(s: State, a: Account): nat {
    match a
    case InterestBank => s.interestBank
    case VerifiedHumanUbiBank => s.verifiedBank
    case FutureUbiBank => s.futureBank
    case Wallet(key) => Lookup(s.wallets, key)
  }

  function WithBalance(s: State, a: Account, amount: nat): State {
    match a
    case InterestBank => s.(interestBank := amount)
    case VerifiedHumanUbiBank => s.(verifiedBank := amount)
    case FutureUbiBank => s.(futureBank := amount)
    case Wallet(key) => s.(wallets := s.wallets[key := amount])
  }

  function DataOf(s: State, a: Account): Option<Record> {
    if a.Wallet? && a.key in s.users then Some(s.users[a.key]) else None
  }

  /** A call of the token program: new coins. */
  function Minted(s: State, to: Account, amount: nat): State {
    WithBalance(s, to, BalanceOf(s, to) + amount).(supply := s.supply + amount)
  }

  function CoinsMoved(s: State, source: Account, destination: Account, amount: nat): State
    requires amount <= BalanceOf(s, source)
  {
    var s1 := WithBalance(s, source, BalanceOf(s, source) - amount);
    WithBalance(s1, destination, BalanceOf(s1, destination) + amount)
  }

  /** A call of the token program: coins move, unless the source lacks them or the hook objects. */
  function Transferred(s: State, source: Account, destination: Account, amount: nat, now: int): Option<State> {
    if amount > BalanceOf(s, source) then None
    else if !ExecuteAllowed(source, DataOf(s, source), destination, DataOf(s, destination), now) then None
    else Some(CoinsMoved(s, source, destination, amount))
  }

  // ----- the instructions; None is a transaction that aborts

  function MineStep(s: State, env: Env, wallet: Hash, payload: seq<byte>, now: int): Option<State> {
    if wallet !in s.users then None
    else
      var proof := ProofOf(payload, s.hashes.valid, env.sha);
      if proof.None? || !Verifies(proof.value, wallet, s.hashes, now) then None
      else
        var stored := Inserted(s.users[wallet], proof.value.hash, s.hashes.valid);
        if stored.None? then None
        else Some(Minted(s.(users := s.users[wallet := stored.value]), Wallet(wallet), MINING_AMOUNT))
  }

  function EventStep(s: State, env: Env, slotHash: Hash, now: int): Option<State> {
    if now <= s.daily.lastEventTime + SEC_PER_DAY then None
    // the subtraction of the two supplies would underflow; no run gets here
    else if s.supply < s.daily.yesterdaySupply then None
    else
      var (daily, values) := Distribute(s.daily, s.supply, s.futureBank, now, env.pow);
      var s1 := s.(hashes := Update(s.hashes, now, slotHash), daily := daily);
      var s2 := Minted(s1, InterestBank, values.interest);
      var s3 := Minted(s2, VerifiedHumanUbiBank, values.verifiedUbi);
      Some(Minted(s3, FutureUbiBank, values.futureUbi))
  }

  function DaysSincePayout(r: Record, now: int): int {
    TruncatedDiv(NormalizeTime(now) - r.lastPayout, SEC_PER_DAY)
  }

  /** (interest, ubi) that the program would pay a user now. */
  function Owed(s: State, wallet: Hash, now: int): (nat, nat)
    requires wallet in s.users
  {
    var r := s.users[wallet];
    var days := Window(s.daily.history, DaysSincePayout(r, now));
    var money := BalanceOf(s, Wallet(wallet));
    if r.verified then Distributions(days, money) else (Interest(days, money), 0)
  }

  function PayoutDated(s: State, wallet: Hash, now: int): State
    requires wallet in s.users
  {
    s.(users := s.users[wallet := s.users[wallet].(lastPayout := NormalizeTime(now))])
  }

  /** The source pays the UBI, too, out of the interest bank. */
  function PaidOut(s: State, wallet: Hash, interest: nat, ubi: nat, now: int): Option<State> {
    var paid := if interest > 0 then Transferred(s, InterestBank, Wallet(wallet), interest, now) else Some(s);
    if paid.Some? && ubi > 0 then Transferred(paid.value, InterestBank, Wallet(wallet), ubi, now) else paid
  }

  function ClaimStep(s: State, wallet: Hash, now: int): Option<State> {
    if wallet !in s.users then None
    else
      var (interest, ubi) := Owed(s, wallet, now);
      PaidOut(PayoutDated(s, wallet, now), wallet, interest, if s.users[wallet].verified then ubi else 0, now)
  }

  function UpdateStep(s: State, slotHash: Hash, now: int): Option<State> {
    Some(s.(hashes := Update(s.hashes, now, slotHash)))
  }

  function CreateStep(s: State, wallet: Hash, size: nat, now: int): Option<State> {
    if wallet in s.users || !ValidSize(size) then None
    else
      var r := Record(NormalizeTime(now), false, ZERO_HASH, [], Capacity(size));
      Some(s.(users := s.users[wallet := r], wallets := s.wallets[wallet := BalanceOf(s, Wallet(wallet))]))
  }

  function SizeOf(r: Record): nat {
    PROOFS_AT + HASH_BYTES * r.capacity
  }

  lemma {:induction false} SizeOfDecoded(b: seq<byte>)
    requires Accepted(b)
    ensures SizeOf(Decoded(b)) == |b|
  {
    CapacityFillsTheAccount(|b|);
  }

  function GrowStep(s: State, wallet: Hash, newSize: nat): Option<State> {
    if wallet !in s.users then None
    else
      var r := s.users[wallet];
      if newSize > SizeOf(r) + MAX_PERMITTED_DATA_INCREASE || newSize <= SizeOf(r) || !ValidSize(newSize) then None
      else Some(s.(users := s.users[wallet := r.(capacity := Capacity(newSize))]))
  }

  datatype Call =
    | Mine(wallet: Hash, payload: seq<byte>)
    | Event(slotHash: Hash)
    | Claim(wallet: Hash)
    | UpdateHashes(slotHash: Hash)
    | Transfer(source: Hash, destination: Account, amount: nat)
    | CreateUser(wallet: Hash, size: nat)
    | GrowUser(wallet: Hash, size: nat)

  function Step(s: State, env: Env, call: Call, now: int): Option<State> {
    match call
    case Mine(wallet, payload) => MineStep(s, env, wallet, payload, now)
    case Event(slotHash) => EventStep(s, env, slotHash, now)
    case Claim(wallet) => ClaimStep(s, wallet, now)
    case UpdateHashes(slotHash) => UpdateStep(s, slotHash, now)
    case Transfer(source, destination, amount) => Transferred(s, Wallet(source), destination, amount, now)
    case CreateUser(wallet, size) => CreateStep(s, wallet, size, now)
    case GrowUser(wallet, size) => GrowStep(s, wallet, size)
  }

  /** The program just initialised, over whatever coins the wallets hold. */
  ghost function Genesis(now: int, slotHash: Hash, humans: nat, wallets: map<Hash, nat>): State {
    State(Sum(wallets), 0, 0, 0, wallets, map[], Update(FRESH, now, slotHash),
          DailyData(0, 0, NormalizeTime(now), humans, FreshHistory()))
  }

  /** The date is the midnight that begins the day of the time. */
  predicate IsMidnightOf(date: int, now: int) {
    date % 86_400 == 0 && date <= now < date + 86_400
  }

  /** The program starts with empty banks, no users, today as the last event's day and one hash for both purposes. */
  lemma {:induction false} GenesisIs(now: int, slotHash: Hash, humans: nat, wallets: map<Hash, nat>)
    requires now > 86_400
    ensures var s := Genesis(now, slotHash, humans, wallets);
            && s.supply == Sum(wallets) && s.wallets == wallets && s.users == map[]
            && s.interestBank == s.verifiedBank == s.futureBank == 0
            && s.daily.yesterdaySupply == s.daily.highWaterMark == 0
            && IsMidnightOf(s.daily.lastEventTime, now)
            && |s.daily.history| == 365 && (forall i :: 0 <= i < 365 ==> s.daily.history[i] == Entry(0.0, 0))
            && s.hashes.announced == s.hashes.valid == slotHash
            && IsMidnightOf(s.hashes.validTime, now)
  {
    NormalizeIsMidnight(now, NormalizeTime(now));
    UpdateReplaces(FRESH, now, slotHash);
  }

  // ----- what a call does to the user accounts

  lemma {:induction false} PaidOutUsers(s: State, wallet: Hash, interest: nat, ubi: nat, now: int)
    requires PaidOut(s, wallet, interest, ubi, now).Some?
    ensures var after := PaidOut(s, wallet, interest, ubi, now).value;
            && after.users == s.users && after.hashes == s.hashes && after.daily == s.daily
            && s.wallets.Keys <= after.wallets.Keys
  {
  }

  lemma {:induction false} ClaimUsers(s: State, wallet: Hash, now: int)
    requires ClaimStep(s, wallet, now).Some?
    ensures wallet in s.users
    ensures var after := ClaimStep(s, wallet, now).value;
            && after.users == PayoutDated(s, wallet, now).users
            && after.hashes == s.hashes && after.daily == s.daily
            && s.wallets.Keys <= after.wallets.Keys
  {
    var (interest, ubi) := Owed(s, wallet, now);
    PaidOutUsers(PayoutDated(s, wallet, now), wallet, interest, if s.users[wallet].verified then ubi else 0, now);
  }

  /** Mining writes the miner's account, a claim the claimant's, and creating or growing the account itself. */
  lemma {:induction false} StepUsers(s: State, env: Env, call: Call, now: int)
    ensures var after := Step(s, env, call, now);
            after.Some? ==>
              && (call.Event? || call.UpdateHashes? || call.Transfer? ==> after.value.users == s.users)
              && (call.Claim? ==>
                    call.wallet in s.users && after.value.users == PayoutDated(s, call.wallet, now).users)
              && (call.CreateUser? ==>
                    && call.wallet !in s.users
                    && after.value.users
                       == s.users[call.wallet := Record(NormalizeTime(now), false, ZERO_HASH, [], Capacity(call.size))])
              && (call.GrowUser? ==>
                    && call.wallet in s.users && Capacity(call.size) >= s.users[call.wallet].capacity
                    && after.value.users
                       == s.users[call.wallet := s.users[call.wallet].(capacity := Capacity(call.size))])
  {
    if Step(s, env, call, now).Some? {
      match call {
        case Claim(wallet) => ClaimUsers(s, wallet, now);
        case _ =>
      }
    }
  }

  lemma {:induction false} StepWallets(s: State, env: Env, call: Call, now: int)
    requires Step(s, env, call, now).Some?
    ensures var after := Step(s, env, call, now).value;
            && s.wallets.Keys <= after.wallets.Keys
            && forall u :: u in after.users ==> u in s.users || u in after.wallets
  {
    match call {
      case Claim(wallet) => ClaimUsers(s, wallet, now);
      case _ =>
    }
  }

  // ----- when a call goes through

  /** A proof is paid for exactly when it is the sender's own, low enough, for a fresh hash, unused, and has room. */
  lemma {:induction false} MineSucceedsIff(s: State, env: Env, wallet: Hash, payload: seq<byte>, now: int)
    requires wallet in s.users ==> WellFormed(s.users[wallet])
    ensures MineStep(s, env, wallet, payload, now).Some?
            <==> && wallet in s.users
                 && |payload| == 76 && payload[0..32] == wallet
                 && now <= s.hashes.validTime + 86_400
                 && var digest := env.sha(env.sha(
                      payload[68..72] + Reversed(s.hashes.valid) + env.sha(env.sha(payload[32..64] + payload[0..32]))
                      + payload[72..76] + [0xd8, 0xad, 0x0e, 0x18] + payload[64..68]));
                    var used := UsedWith(s.users[wallet], s.hashes.valid);
                    && LittleEndianValue(digest) < 0x0eadd8 * Pow256(29)
                    && Reversed(digest) !in used && |used| < s.users[wallet].capacity
  {
    if wallet in s.users && |payload| == PAYLOAD_SIZE {
      var digest := env.sha(env.sha(Header(payload, s.hashes.valid, env.sha)));
      TargetIsIntegerBound(digest);
      InsertSucceedsIff(s.users[wallet], Reversed(digest), s.hashes.valid);
    }
  }

  /** A claim goes through exactly when the interest bank holds what is owed. */
  lemma {:induction false} ClaimSucceedsIff(s: State, wallet: Hash, now: int)
    ensures ClaimStep(s, wallet, now).Some?
            <==> wallet in s.users && Owed(s, wallet, now).0 + Owed(s, wallet, now).1 <= s.interestBank
  {
  }

  /**
   * A user's coins can be sent exactly when there are enough of them, the sender has been paid today, and so has the
   * receiver, unless that is one of the banks.
   */
  lemma {:induction false} TransferSucceedsIff(s: State, source: Hash, destination: Account, amount: nat, now: int)
    requires now >= 0
    ensures Transferred(s, Wallet(source), destination, amount, now).Some?
            <==> && amount <= BalanceOf(s, Wallet(source))
                 && source in s.users && IsMidnightOf(s.users[source].lastPayout, now)
                 && (|| destination == InterestBank || destination == VerifiedHumanUbiBank
                     || destination == FutureUbiBank
                     || (destination.key in s.users && IsMidnightOf(s.users[destination.key].lastPayout, now)))
  {
    forall u | u in s.users
      ensures IsMidnightOf(s.users[u].lastPayout, now) <==> IsCurrent(s.users[u], now)
    {
      NormalizeIsMidnight(now, s.users[u].lastPayout);
    }
  }

  /** The sender loses and the receiver gains the amount, and nothing else changes. */
  lemma {:induction false} TransferMoves(s: State, source: Hash, destination: Account, amount: nat, now: int)
    requires Transferred(s, Wallet(source), destination, amount, now).Some?
    ensures var after := Transferred(s, Wallet(source), destination, amount, now).value;
            && (forall a: Account :: BalanceOf(after, a) == BalanceOf(s, a)
                                       - (if a == Wallet(source) then amount else 0)
                                       + (if a == destination then amount else 0))
            && after.supply == s.supply && after.users == s.users && after.hashes == s.hashes && after.daily == s.daily
  {
  }

  /** An account is created when there is none yet and the size is 88 bytes and any number of further slots of 32. */
  lemma {:induction false} CreateSucceedsIff(s: State, wallet: Hash, size: nat, now: int)
    requires now >= 0
    ensures CreateStep(s, wallet, size, now).Some?
            <==> wallet !in s.users && size >= 88 && (size - 88) % 32 == 0
    ensures CreateStep(s, wallet, size, now).Some? ==>
              var after := CreateStep(s, wallet, size, now).value;
              && wallet in after.users && after.users.Keys == s.users.Keys + {wallet}
              && (forall u :: u in s.users ==> after.users[u] == s.users[u])
              && IsMidnightOf(after.users[wallet].lastPayout, now)
              && !after.users[wallet].verified && after.users[wallet].proofs == []
              && after.users[wallet].capacity == (size - 88) / 32 + 1
              && (forall a: Account :: BalanceOf(after, a) == BalanceOf(s, a))
  {
    NormalizeIsMidnight(now, NormalizeTime(now));
  }

  /** An account of 88 bytes and further slots of 32 can grow by whole slots, by at most 10240 bytes at a time. */
  lemma {:induction false} GrowSucceedsIff(s: State, wallet: Hash, newSize: nat, size: nat)
    requires size >= 88 && (size - 88) % 32 == 0
    requires wallet in s.users ==> s.users[wallet].capacity == (size - 88) / 32 + 1
    ensures GrowStep(s, wallet, newSize).Some?
            <==> wallet in s.users && size < newSize <= size + 10_240 && (newSize - 88) % 32 == 0
    ensures GrowStep(s, wallet, newSize).Some? ==>
              GrowStep(s, wallet, newSize).value
              == s.(users := s.users[wallet := s.users[wallet].(capacity := (newSize - 88) / 32 + 1)])
  {
  }

  /** The miner gets 10000 new coins and one stored proof; nobody else's coins and data change. */
  lemma {:induction false} MinePays(s: State, env: Env, wallet: Hash, payload: seq<byte>, now: int)
    requires MineStep(s, env, wallet, payload, now).Some? && WellFormed(s.users[wallet])
    ensures wallet in s.users && ProofOf(payload, s.hashes.valid, env.sha).Some?
    ensures var after := MineStep(s, env, wallet, payload, now).value;
            var proof := ProofOf(payload, s.hashes.valid, env.sha).value.hash;
            && (forall a: Account :: BalanceOf(after, a)
                                     == BalanceOf(s, a) + (if a == Wallet(wallet) then 10_000 else 0))
            && after.supply == s.supply + 10_000 && after.hashes == s.hashes && after.daily == s.daily
            && after.users.Keys == s.users.Keys
            && (forall u :: u in s.users && u != wallet ==> after.users[u] == s.users[u])
            && UsedWith(after.users[wallet], s.hashes.valid) == UsedWith(s.users[wallet], s.hashes.valid) + {proof}
            && after.users[wallet].capacity == s.users[wallet].capacity
            && after.users[wallet].lastPayout == s.users[wallet].lastPayout
            && after.users[wallet].verified == s.users[wallet].verified
  {
    InsertAddsOneProof(s.users[wallet], ProofOf(payload, s.hashes.valid, env.sha).value.hash, s.hashes.valid);
  }

  /**
   * An event pays each bank its own part, k being how far the mark rises: to the interest bank the interest half, 73000
   * k, less what the future UBI bank earns; to the verified humans' bank their share of as much again; to the future
   * UBI bank the rest of that and what it earns. On a day without new coins it pays nothing.
   */
  lemma {:induction false} EventPaysBanks(s: State, env: Env, slotHash: Hash, now: int)
    requires EventStep(s, env, slotHash, now).Some? && s.futureBank <= s.supply
    ensures s.supply >= s.daily.yesterdaySupply
    ensures var after := EventStep(s, env, slotHash, now).value;
            var k := after.daily.highWaterMark - s.daily.highWaterMark;
            && after.wallets == s.wallets && after.users == s.users
            && (s.supply == s.daily.yesterdaySupply ==>
                  && k == 0 && after.interestBank == s.interestBank
                  && after.verifiedBank == s.verifiedBank && after.futureBank == s.futureBank)
            && (s.supply > s.daily.yesterdaySupply ==>
                  && k == HighWaterMarkIncrease(s.daily.yesterdaySupply, s.daily.highWaterMark,
                                                s.supply - s.daily.yesterdaySupply, env.pow)
                  && var verified := VerifiedUbi(73_000 * k, s.daily.verifiedHumans);
                     var earned := FutureUbiInterest(k, s.futureBank, s.supply);
                     && after.interestBank == s.interestBank + 73_000 * k - earned
                     && after.verifiedBank == s.verifiedBank + verified
                     && after.futureBank == s.futureBank + (73_000 * k - verified) + earned)
  {
    if s.supply > s.daily.yesterdaySupply {
      var k := HighWaterMarkIncrease(s.daily.yesterdaySupply, s.daily.highWaterMark,
                                     s.supply - s.daily.yesterdaySupply, env.pow);
      assert Half(k) == 73_000 * k;
      FutureUbiInterestFits(k, s.futureBank, s.supply);
    }
  }

  /** With nobody verified, the verified humans' bank gets nothing and the future UBI bank the whole UBI half. */
  lemma {:induction false} EventWithoutHumans(s: State, env: Env, slotHash: Hash, now: int)
    requires EventStep(s, env, slotHash, now).Some? && s.futureBank <= s.supply
    requires s.daily.verifiedHumans == 0
    ensures var after := EventStep(s, env, slotHash, now).value;
            var k := after.daily.highWaterMark - s.daily.highWaterMark;
            && after.verifiedBank == s.verifiedBank
            && after.futureBank - s.futureBank >= 73_000 * k
            && (after.interestBank - s.interestBank) + (after.futureBank - s.futureBank) == 146_000 * k
  {
    EventPaysBanks(s, env, slotHash, now);
  }

  /** An event stamps today's midnight and pushes one day onto the history, which loses its oldest. */
  lemma {:induction false} EventRecordsDay(s: State, env: Env, slotHash: Hash, now: int)
    requires EventStep(s, env, slotHash, now).Some? && now >= 0
    ensures var after := EventStep(s, env, slotHash, now).value;
            && now > s.daily.lastEventTime + 86_400
            && IsMidnightOf(after.daily.lastEventTime, now)
            && after.daily.verifiedHumans == s.daily.verifiedHumans
            && after.daily.history[..364] == s.daily.history[1..]
            && after.hashes == Update(s.hashes, now, slotHash)
  {
    NormalizeIsMidnight(now, NormalizeTime(now));
  }

  /** The recorded day: factor 1 and no UBI without new coins, else what the mark and the verified humans' bank say. */
  lemma {:induction false} RecordedDayIs(s: State, env: Env, slotHash: Hash, now: int)
    requires EventStep(s, env, slotHash, now).Some?
    ensures var after := EventStep(s, env, slotHash, now).value;
            var day := after.daily.history[364];
            && after.daily.highWaterMark >= s.daily.highWaterMark && after.verifiedBank >= s.verifiedBank
            && (s.supply == s.daily.yesterdaySupply ==> day == Entry(1.0, 0))
            && (s.supply > s.daily.yesterdaySupply ==>
                  RecordsEvent(day, after.daily.highWaterMark - s.daily.highWaterMark, s.daily.verifiedHumans, s.supply,
                               after.verifiedBank - s.verifiedBank))
  {
    if s.supply > s.daily.yesterdaySupply {
      var k := HighWaterMarkIncrease(s.daily.yesterdaySupply, s.daily.highWaterMark,
                                     s.supply - s.daily.yesterdaySupply, env.pow);
      EventAppendsDay(s, env, slotHash, now, k);
      RecordedDayFits(k, s.daily.verifiedHumans, s.futureBank, s.supply);
    }
  }

  lemma {:induction false} EventAppendsDay(s: State, env: Env, slotHash: Hash, now: int, k: nat)
    requires EventStep(s, env, slotHash, now).Some?
    requires s.supply > s.daily.yesterdaySupply
    requires k == HighWaterMarkIncrease(s.daily.yesterdaySupply, s.daily.highWaterMark,
                                        s.supply - s.daily.yesterdaySupply, env.pow)
    ensures var after := EventStep(s, env, slotHash, now).value;
            && after.daily.highWaterMark == s.daily.highWaterMark + k
            && after.daily.history[364] == RecordedDay(k, s.daily.verifiedHumans, s.supply)
            && after.verifiedBank
               == s.verifiedBank + Split(k, s.daily.verifiedHumans, s.futureBank, s.supply).verifiedUbi
  {
  }

  /** The days a claim reads. */
  function DaysClaimed(s: State, wallet: Hash, now: int): seq<Entry>
    requires wallet in s.users
  {
    Window(s.daily.history, DaysSincePayout(s.users[wallet], now))
  }

  lemma {:induction false} PaidOutBalances(s: State, wallet: Hash, interest: nat, ubi: nat, now: int)
    requires PaidOut(s, wallet, interest, ubi, now).Some?
    ensures var after := PaidOut(s, wallet, interest, ubi, now).value;
            && BalanceOf(after, Wallet(wallet)) == BalanceOf(s, Wallet(wallet)) + interest + ubi
            && after.interestBank == s.interestBank - interest - ubi
            && (forall a: Account :: a != InterestBank && a != Wallet(wallet) ==>
                  BalanceOf(after, a) == BalanceOf(s, a))
  {
  }

  /** Exactly what the claimant gains leaves the interest bank, and nobody else's coins move. */
  lemma {:induction false} ClaimPays(s: State, wallet: Hash, now: int)
    requires ClaimStep(s, wallet, now).Some?
    ensures wallet in s.users
    ensures var after := ClaimStep(s, wallet, now).value;
            var held := BalanceOf(s, Wallet(wallet));
            && BalanceOf(after, Wallet(wallet)) == Claimed(DaysClaimed(s, wallet, now), held, s.users[wallet].verified)
            && BalanceOf(after, Wallet(wallet)) - held == s.interestBank - after.interestBank
            && (forall a: Account :: a != InterestBank && a != Wallet(wallet) ==>
                  BalanceOf(after, a) == BalanceOf(s, a))
            && after.users == s.users[wallet := s.users[wallet].(lastPayout := NormalizeTime(now))]
            && IsCurrent(after.users[wallet], now)
            && after.supply == s.supply && after.hashes == s.hashes && after.daily == s.daily
  {
    var (interest, ubi) := Owed(s, wallet, now);
    PaidOutBalances(PayoutDated(s, wallet, now), wallet, interest, if s.users[wallet].verified then ubi else 0, now);
    ClaimUsers(s, wallet, now);
  }

  /** A second claim on the same day goes through and changes nothing. */
  lemma {:induction false} SecondClaimChangesNothing(s: State, wallet: Hash, now: int, later: int)
    requires ClaimStep(s, wallet, now).Some? && NormalizeTime(later) == NormalizeTime(now)
    ensures ClaimStep(ClaimStep(s, wallet, now).value, wallet, later) == ClaimStep(s, wallet, now)
  {
    var after := ClaimStep(s, wallet, now).value;
    ClaimUsers(s, wallet, now);
    CurrentIsOwedNothing(after, wallet, later);
    assert after.users[wallet := after.users[wallet]] == after.users;
  }

  /** after has more recorded days than s, while the user's coins and data are the same. */
  ghost predicate OnlyDaysPassed(s: State, after: State, wallet: Hash, days: seq<Entry>)
    requires wallet in s.users
  {
    && after.daily.history == RecordAll(s.daily.history, days)
    && wallet in after.users && after.users[wallet] == s.users[wallet]
    && BalanceOf(after, Wallet(wallet)) == BalanceOf(s, Wallet(wallet))
  }

  /**
   * Two ways of going on from one state: an eager user claims now, and again when a day has been recorded for every day
   * since; a patient one claims only then. If that is not too late, both end up with the same coins.
   */
  lemma {:induction false} ClaimingInPartsPaysTheSame(
    s: State, wallet: Hash, now: int, days: seq<Entry>, patient: State, eager: State, later: int)
    requires wallet in s.users && s.users[wallet].lastPayout % SEC_PER_DAY == 0
    requires 0 <= s.users[wallet].lastPayout <= now <= later && Day(later) == Day(now) + |days|
    requires DaysSincePayout(s.users[wallet], later) <= HISTORY_SIZE
    requires GrowthDays(DaysClaimed(s, wallet, now)) && GrowthDays(days)
    requires ClaimStep(s, wallet, now).Some?
    requires OnlyDaysPassed(s, patient, wallet, days) && ClaimStep(patient, wallet, later).Some?
    requires OnlyDaysPassed(ClaimStep(s, wallet, now).value, eager, wallet, days)
    requires ClaimStep(eager, wallet, later).Some?
    ensures BalanceOf(ClaimStep(eager, wallet, later).value, Wallet(wallet))
            == BalanceOf(ClaimStep(patient, wallet, later).value, Wallet(wallet))
  {
    ClaimUsers(s, wallet, now);
    DaysAddUp(s.users[wallet], now, |days|, later);
    ClaimPays(s, wallet, now);
    ClaimPays(patient, wallet, later);
    ClaimPays(eager, wallet, later);
    LazyIsEager(s.daily.history, DaysSincePayout(s.users[wallet], now), days, BalanceOf(s, Wallet(wallet)),
                s.users[wallet].verified);
  }

  /** A claim in between splits the days since the last payout. */
  lemma {:induction false} DaysAddUp(r: Record, now: int, days: nat, later: int)
    requires r.lastPayout % SEC_PER_DAY == 0
    requires 0 <= r.lastPayout <= now <= later && Day(later) == Day(now) + days
    ensures DaysSincePayout(r, now) >= 0
    ensures DaysSincePayout(r, later) == DaysSincePayout(r, now) + days
    ensures DaysSincePayout(r.(lastPayout := NormalizeTime(now)), later) == days
  {
    DayIsMonotone(r.lastPayout, now);
    DayIsMonotone(now, later);
    DaysBetween(r.lastPayout, now);
    DaysBetween(r.lastPayout, later);
    DaysBetween(NormalizeTime(now), later);
  }

  lemma {:induction false} DaysBetween(midnight: int, now: int)
    requires midnight % SEC_PER_DAY == 0 && 0 <= midnight && NormalizeTime(midnight) <= NormalizeTime(now) && now >= 0
    ensures TruncatedDiv(NormalizeTime(now) - midnight, SEC_PER_DAY) == Day(now) - Day(midnight)
    ensures Day(NormalizeTime(now)) == Day(now) && NormalizeTime(now) % SEC_PER_DAY == 0
  {
    NormalizeBounds(now);
    assert midnight == Day(midnight) * SEC_PER_DAY;
  }

  // ----- owed amounts

  /** Today's claims are for no days at all. */
  lemma {:induction false} CurrentIsOwedNothing(s: State, wallet: Hash, now: int)
    requires wallet in s.users && IsCurrent(s.users[wallet], now)
    ensures Owed(s, wallet, now) == (0, 0)
  {
    assert Window(s.daily.history, 0) == [];
  }

  /** No transfer between users or to a bank that passes the hook changes what anyone is owed that day. */
  lemma {:induction false} TransfersLeaveOwedAmounts(
    s: State, source: Hash, destination: Account, amount: nat, now: int, wallet: Hash)
    requires Transferred(s, Wallet(source), destination, amount, now).Some?
    requires wallet in s.users
    ensures wallet in Transferred(s, Wallet(source), destination, amount, now).value.users
    ensures Owed(Transferred(s, Wallet(source), destination, amount, now).value, wallet, now) == Owed(s, wallet, now)
  {
    var after := Transferred(s, Wallet(source), destination, amount, now).value;
    if wallet == source || destination == Wallet(wallet) {
      CurrentIsOwedNothing(s, wallet, now);
      CurrentIsOwedNothing(after, wallet, now);
    }
  }

  /**
   * What a user is owed at a given time changes only by an event, by the user's own claim or mining, or by the creation
   * of the user's account.
   */
  lemma {:induction false} OwedAmountsMoveOnlyThrough(s: State, env: Env, call: Call, now: int, wallet: Hash)
    requires Step(s, env, call, now).Some?
    requires wallet in s.users
    requires !call.Event? && call != Claim(wallet) && !(call.Mine? && call.wallet == wallet)
    ensures wallet in Step(s, env, call, now).value.users
    ensures Owed(Step(s, env, call, now).value, wallet, now) == Owed(s, wallet, now)
  {
    if call.Transfer? {
      TransfersLeaveOwedAmounts(s, call.source, call.destination, call.amount, now, wallet);
    } else {
      var after := Step(s, env, call, now).value;
      assert call.Claim? ==> call.wallet != wallet;
      assert BalanceOf(after, Wallet(wallet)) == BalanceOf(s, Wallet(wallet));
      OwedDependsOn(s, after, wallet, now);
    }
  }

  lemma {:induction false} OwedDependsOn(s: State, after: State, wallet: Hash, now: int)
    requires wallet in s.users && wallet in after.users
    requires s.users[wallet].lastPayout == after.users[wallet].lastPayout
    requires s.users[wallet].verified == after.users[wallet].verified
    requires BalanceOf(s, Wallet(wallet)) == BalanceOf(after, Wallet(wallet))
    requires s.daily == after.daily
    ensures Owed(s, wallet, now) == Owed(after, wallet, now)
  {
  }
}

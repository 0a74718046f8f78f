/** Where every coin comes from, in every run. */
module SupplyLaw {
  import opened Bytes
  import opened Clock
  import opened Distribution
  import opened Growth
  import opened Ledger
  import opened Options
  import opened Runs
  import opened Sums
  import opened TransferHook

  /** All coins in all token accounts. */
  ghost function Holdings(s: State): nat {
    s.interestBank + s.verifiedBank + s.futureBank + Sum(s.wallets)
  }

  /**
   * The supply is what the accounts hold; beyond the initial supply it is 10000 for each accepted proof and 146000 for
   * each coin of the high water mark; and it has not shrunk since the last event.
   */
  ghost predicate Conserved(w: World, initial: nat) {
    && w.state.supply == Holdings(w.state)
    && w.state.supply
       == initial + 10_000 * |w.accepted| + 146_000 * w.state.daily.highWaterMark
    && w.state.daily.yesterdaySupply <= w.state.supply
  }

  lemma {:induction false} HoldingsAfterWrite(s: State, a: Account, amount: nat)
    ensures Holdings(WithBalance(s, a, amount)) == Holdings(s) - BalanceOf(s, a) + amount
    ensures BalanceOf(s, a) <= Holdings(s)
  {
    if a.Wallet? {
      SumAfterUpdate(s.wallets, a.key, amount);
    }
  }

  lemma {:induction false} MintAddsToHoldings(s: State, to: Account, amount: nat)
    ensures Holdings(Minted(s, to, amount)) == Holdings(s) + amount
    ensures Minted(s, to, amount).supply == s.supply + amount
  {
    HoldingsAfterWrite(s, to, BalanceOf(s, to) + amount);
  }

  /** A transfer moves coins and makes none. */
  lemma {:induction false} TransferKeepsHoldings(s: State, source: Account, destination: Account, amount: nat)
    requires amount <= BalanceOf(s, source)
    ensures var after := CoinsMoved(s, source, destination, amount);
            Holdings(after) == Holdings(s) && after.supply == s.supply && after.daily == s.daily
  {
    var s1 := WithBalance(s, source, BalanceOf(s, source) - amount);
    HoldingsAfterWrite(s, source, BalanceOf(s, source) - amount);
    HoldingsAfterWrite(s1, destination, BalanceOf(s1, destination) + amount);
  }

  lemma {:induction false} ClaimKeepsHoldings(s: State, wallet: Hash, now: int)
    requires ClaimStep(s, wallet, now).Some?
    ensures var after := ClaimStep(s, wallet, now).value;
            Holdings(after) == Holdings(s) && after.supply == s.supply && after.daily == s.daily
  {
    var (interest, ubi) := Owed(s, wallet, now);
    var s1 := PayoutDated(s, wallet, now);
    if interest > 0 {
      TransferKeepsHoldings(s1, InterestBank, Wallet(wallet), interest);
    }
    var paid := if interest > 0 then Transferred(s1, InterestBank, Wallet(wallet), interest, now) else Some(s1);
    if s.users[wallet].verified && ubi > 0 {
      TransferKeepsHoldings(paid.value, InterestBank, Wallet(wallet), ubi);
    }
  }

  /** An event mints 146000 for each coin the mark rises, and afterwards yesterday's supply is today's. */
  lemma {:induction false} EventMints(s: State, env: Env, slotHash: Hash, now: int)
    requires s.supply == Holdings(s)
    requires EventStep(s, env, slotHash, now).Some?
    ensures var after := EventStep(s, env, slotHash, now).value;
            && after.daily.highWaterMark >= s.daily.highWaterMark
            && after.supply - s.supply
               == 146_000 * (after.daily.highWaterMark - s.daily.highWaterMark)
            && Holdings(after) == after.supply
            && after.daily.yesterdaySupply == after.supply
  {
    var (daily, values) := Distribute(s.daily, s.supply, s.futureBank, now, env.pow);
    var mined := s.supply - s.daily.yesterdaySupply;
    if mined > 0 {
      var increase := HighWaterMarkIncrease(s.daily.yesterdaySupply, s.daily.highWaterMark, mined, env.pow);
      SplitIsExact(increase, s.daily.verifiedHumans, s.futureBank, s.supply);
    }
    var s1 := s.(hashes := EventStep(s, env, slotHash, now).value.hashes, daily := daily);
    var s2 := Minted(s1, InterestBank, values.interest);
    var s3 := Minted(s2, VerifiedHumanUbiBank, values.verifiedUbi);
    MintAddsToHoldings(s1, InterestBank, values.interest);
    MintAddsToHoldings(s2, VerifiedHumanUbiBank, values.verifiedUbi);
    MintAddsToHoldings(s3, FutureUbiBank, values.futureUbi);
  }

  lemma {:induction false} MineMints(s: State, env: Env, wallet: Hash, payload: seq<byte>, now: int)
    requires MineStep(s, env, wallet, payload, now).Some?
    ensures var after := MineStep(s, env, wallet, payload, now).value;
            && Holdings(after) == Holdings(s) + MINING_AMOUNT
            && after.supply == s.supply + MINING_AMOUNT
            && after.daily == s.daily
  {
    var stored := MineStep(s, env, wallet, payload, now).value.users;
    MintAddsToHoldings(s.(users := stored), Wallet(wallet), MINING_AMOUNT);
  }

  lemma {:induction false} CreateMovesNothing(s: State, wallet: Hash, size: nat, now: int)
    requires CreateStep(s, wallet, size, now).Some?
    ensures Holdings(CreateStep(s, wallet, size, now).value) == Holdings(s)
  {
    HoldingsAfterWrite(s, Wallet(wallet), BalanceOf(s, Wallet(wallet)));
  }

  lemma {:induction false} NextConserves(w: World, env: Env, t: TimedCall, initial: nat)
    requires Conserved(w, initial)
    ensures Conserved(Next(w, env, t), initial)
    ensures Next(w, env, t).state.supply >= w.state.supply
    ensures Next(w, env, t).state.daily.highWaterMark >= w.state.daily.highWaterMark
  {
    if Step(w.state, env, t.call, t.now).Some? {
      match t.call {
        case Mine(wallet, payload) => MineMints(w.state, env, wallet, payload, t.now);
        case Event(slotHash) => EventMints(w.state, env, slotHash, t.now);
        case Claim(wallet) => ClaimKeepsHoldings(w.state, wallet, t.now);
        case Transfer(source, destination, amount) =>
          TransferKeepsHoldings(w.state, Wallet(source), destination, amount);
        case CreateUser(wallet, size) => CreateMovesNothing(w.state, wallet, size, t.now);
        case UpdateHashes(_) =>
        case GrowUser(_, _) =>
      }
    }
  }

  /** The supply law holds after every run, whatever the calls and their times. */
  lemma {:induction false} SupplyLawHolds(
    now: int, slotHash: Hash, humans: nat, wallets: map<Hash, nat>, env: Env, calls: seq<TimedCall>)
    ensures Conserved(Run(Start(now, slotHash, humans, wallets), env, calls), Sum(wallets))
  {
    if |calls| > 0 {
      SupplyLawHolds(now, slotHash, humans, wallets, env, calls[..|calls| - 1]);
      NextConserves(Run(Start(now, slotHash, humans, wallets), env, calls[..|calls| - 1]), env, calls[|calls| - 1],
                    Sum(wallets));
    }
  }

  /** Along every run neither the supply nor the high water mark ever falls. */
  lemma {:induction false} NothingShrinks(
    now: int, slotHash: Hash, humans: nat, wallets: map<Hash, nat>, env: Env, calls: seq<TimedCall>, n: nat)
    requires n <= |calls|
    ensures var before := Run(Start(now, slotHash, humans, wallets), env, calls[..n]).state;
            var after := Run(Start(now, slotHash, humans, wallets), env, calls).state;
            before.supply <= after.supply && before.daily.highWaterMark <= after.daily.highWaterMark
  {
    if n == |calls| {
      assert calls[..n] == calls;
    } else {
      var init := calls[..|calls| - 1];
      assert init[..n] == calls[..n];
      NothingShrinks(now, slotHash, humans, wallets, env, init, n);
      SupplyLawHolds(now, slotHash, humans, wallets, env, init);
      NextConserves(Run(Start(now, slotHash, humans, wallets), env, init), env, calls[|calls| - 1], Sum(wallets));
    }
  }

  /** Right after every event of every run, the early return included, yesterday's supply is the supply. */
  lemma {:induction false} SuppliesAgreeAfterEvent(
    now: int, slotHash: Hash, humans: nat, wallets: map<Hash, nat>, env: Env, calls: seq<TimedCall>)
    requires |calls| > 0 && calls[|calls| - 1].call.Event?
    ensures var before := Run(Start(now, slotHash, humans, wallets), env, calls[..|calls| - 1]);
            var after := Run(Start(now, slotHash, humans, wallets), env, calls);
            |after.log| > |before.log| ==> after.state.daily.yesterdaySupply == after.state.supply
  {
    SupplyLawHolds(now, slotHash, humans, wallets, env, calls[..|calls| - 1]);
    var before := Run(Start(now, slotHash, humans, wallets), env, calls[..|calls| - 1]);
    var t := calls[|calls| - 1];
    if Step(before.state, env, t.call, t.now).Some? {
      EventMints(before.state, env, t.call.slotHash, t.now);
    }
  }
}

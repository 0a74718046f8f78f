/** The instruction handlers over the accounts they write (comptoken/src/comptoken.rs). */
module Comptoken {
  import opened Blockhashes
  import opened Bytes
  import opened Clock
  import opened DailyDistributionData
  import opened Distribution
  import opened GlobalData
  import opened Growth
  import opened Ledger
  import opened Options
  import opened Proof
  import opened Sums
  import opened TransferHook
  import opened UserData

  /** Clock::unix_timestamp after the epoch. */
  predicate IsTime(now: int) {
    0 <= now < 0x8000_0000_0000_0000
  }

  /** What the stored bytes of each user's account mean. */
  ghost predicate AllAccepted(data: map<Hash, seq<byte>>) {
    forall w :: w in data ==> Accepted(data[w]) && |data[w]| < U64_RANGE
  }

  ghost function Records(data: map<Hash, seq<byte>>): map<Hash, Record>
    requires AllAccepted(data)
  {
    map w | w in data :: Decoded(data[w])
  }

  lemma {:induction false} RecordsAfterWrite(data: map<Hash, seq<byte>>, wallet: Hash, bytes: seq<byte>)
    requires AllAccepted(data) && Accepted(bytes) && |bytes| < U64_RANGE
    ensures AllAccepted(data[wallet := bytes])
    ensures Records(data[wallet := bytes]) == Records(data)[wallet := Decoded(bytes)]
  {
  }

  /**
   * Every account the program works with; a user's account is kept as the bytes the runtime stores. A handler that
   * returns false stands for an aborted transaction: the runtime discards what it wrote.
   */
  class Accounts {
    const env: Env
    const global: GlobalDataAccount
    var supply: nat
    var interestBank: nat
    var verifiedBank: nat
    var futureBank: nat
    var wallets: map<Hash, nat>
    var userData: map<Hash, seq<byte>>

    ghost predicate Valid()
      reads this, global.dailyDistributionData
    {
      && global.Valid()
      && AllAccepted(userData)
    }

    ghost function View(): State
      requires Valid()
      reads this, global.validBlockhashes
      reads global.dailyDistributionData, global.dailyDistributionData.historicDistributions
    {
      State(supply, interestBank, verifiedBank, futureBank, wallets, Records(userData),
            global.validBlockhashes.View(), global.dailyDistributionData.View())
    }

    constructor Initialize(env: Env, now: int, slotHash: Hash, humans: nat, supply: nat, wallets: map<Hash, nat>)
      requires supply == Sum(wallets)
      ensures Valid() && this.env == env
      ensures View() == Genesis(now, slotHash, humans, wallets)
    {
      this.env := env;
      this.supply, this.wallets, this.userData := supply, wallets, map[];
      interestBank, verifiedBank, futureBank := 0, 0, 0;
      global := new GlobalDataAccount.Initialize(now, slotHash, humans);
    }

    // ----- the token program

    method Mint(to: Account, amount: nat)
      requires Valid()
      modifies this`supply, this`interestBank, this`verifiedBank, this`futureBank, this`wallets
      ensures Valid() && View() == Minted(old(View()), to, amount)
    {
      AddTo(to, amount);
      supply := supply + amount;
    }

    method AddTo(to: Account, amount: nat)
      requires Valid()
      modifies this`interestBank, this`verifiedBank, this`futureBank, this`wallets
      ensures Valid() && View() == WithBalance(old(View()), to, BalanceOf(old(View()), to) + amount)
    {
      match to {
        case InterestBank => interestBank := interestBank + amount;
        case VerifiedHumanUbiBank => verifiedBank := verifiedBank + amount;
        case FutureUbiBank => futureBank := futureBank + amount;
        case Wallet(key) => wallets := wallets[key := Lookup(wallets, key) + amount];
      }
    }

    method TakeFrom(source: Account, amount: nat)
      requires Valid() && amount <= BalanceOf(View(), source)
      modifies this`interestBank, this`verifiedBank, this`futureBank, this`wallets
      ensures Valid() && View() == WithBalance(old(View()), source, BalanceOf(old(View()), source) - amount)
    {
      match source {
        case InterestBank => interestBank := interestBank - amount;
        case VerifiedHumanUbiBank => verifiedBank := verifiedBank - amount;
        case FutureUbiBank => futureBank := futureBank - amount;
        case Wallet(key) => wallets := wallets[key := Lookup(wallets, key) - amount];
      }
    }

    method Balance(a: Account) returns (amount: nat)
      requires Valid()
      ensures amount == BalanceOf(View(), a)
    {
      match a {
        case InterestBank => amount := interestBank;
        case VerifiedHumanUbiBank => amount := verifiedBank;
        case FutureUbiBank => amount := futureBank;
        case Wallet(key) => amount := Lookup(wallets, key);
      }
    }

    method UserRecord(a: Account) returns (data: Option<Record>)
      requires Valid()
      ensures data == DataOf(View(), a)
    {
      if a.Wallet? && a.key in userData {
        return Some(Decoded(userData[a.key]));
      }
      return None;
    }

    /** A transfer by the token program, which runs the transfer hook. */
    method TransferTokens(source: Account, destination: Account, amount: nat, now: int) returns (ok: bool)
      requires Valid()
      modifies this`interestBank, this`verifiedBank, this`futureBank, this`wallets
      ensures Valid()
      ensures ok <==> Transferred(old(View()), source, destination, amount, now).Some?
      ensures View() == if ok then Transferred(old(View()), source, destination, amount, now).value else old(View())
    {
      var available := Balance(source);
      if amount > available {
        return false;
      }
      var sourceData := UserRecord(source);
      var destinationData := UserRecord(destination);
      if !ExecuteAllowed(source, sourceData, destination, destinationData, now) {
        return false;
      }
      Move(source, destination, amount);
      return true;
    }

    method Move(source: Account, destination: Account, amount: nat)
      requires Valid() && amount <= BalanceOf(View(), source)
      modifies this`interestBank, this`verifiedBank, this`futureBank, this`wallets
      ensures Valid() && View() == CoinsMoved(old(View()), source, destination, amount)
    {
      TakeFrom(source, amount);
      AddTo(destination, amount);
    }

    /** What a handler wrote to a user's account. */
    method Save(wallet: Hash, bytes: seq<byte>)
      requires Valid() && Accepted(bytes) && |bytes| < U64_RANGE
      modifies this`userData
      ensures Valid() && userData == old(userData)[wallet := bytes]
      ensures View() == old(View()).(users := old(View()).users[wallet := Decoded(bytes)])
    {
      RecordsAfterWrite(userData, wallet, bytes);
      userData := userData[wallet := bytes];
    }

    // ----- the instructions

    method StoreHash(wallet: Hash, proof: Hash) returns (ok: bool)
      requires Valid() && wallet in userData
      modifies this`userData
      ensures Valid()
      ensures var stored := Inserted(old(View()).users[wallet], proof, old(View()).hashes.valid);
              && (ok <==> stored.Some?)
              && View() == if ok then old(View()).(users := old(View()).users[wallet := stored.value]) else old(View())
    {
      var account := new UserDataAccount.FromBytes(userData[wallet]);
      ok := account.Insert(proof, global.validBlockhashes.validBlockhash);
      if ok {
        Save(wallet, account.buf[..]);
      }
    }

    method MintComptokens(wallet: Hash, payload: seq<byte>, now: int) returns (ok: bool)
      requires Valid()
      modifies this`supply, this`interestBank, this`verifiedBank, this`futureBank, this`wallets, this`userData
      ensures Valid()
      ensures ok <==> MineStep(old(View()), env, wallet, payload, now).Some?
      ensures View() == if ok then MineStep(old(View()), env, wallet, payload, now).value else old(View())
    {
      if wallet !in userData {
        return false;
      }
      var proof := VerifySubmittedProof(wallet, payload, global.validBlockhashes.View(), env.sha, now);
      if proof.None? {
        return false;
      }
      ok := StoreHash(wallet, proof.value.hash);
      if ok {
        Mint(Wallet(wallet), MINING_AMOUNT);
      }
    }

    method MintToBanks(values: Values)
      requires Valid()
      modifies this`supply, this`interestBank, this`verifiedBank, this`futureBank, this`wallets
      ensures Valid()
      ensures View() == Minted(Minted(Minted(old(View()), InterestBank, values.interest),
                                      VerifiedHumanUbiBank, values.verifiedUbi), FutureUbiBank, values.futureUbi)
    {
      Mint(InterestBank, values.interest);
      Mint(VerifiedHumanUbiBank, values.verifiedUbi);
      Mint(FutureUbiBank, values.futureUbi);
    }

    /** As in every run: yesterday's supply has not shrunk. */
    method DailyDistributionEvent(slotHash: Hash, now: int) returns (ok: bool)
      requires Valid() && View().daily.yesterdaySupply <= View().supply
      modifies this`supply, this`interestBank, this`verifiedBank, this`futureBank, this`wallets
      modifies global.validBlockhashes, global.dailyDistributionData
      modifies global.dailyDistributionData.historicDistributions
      ensures Valid()
      ensures ok <==> EventStep(old(View()), env, slotHash, now).Some?
      ensures View() == if ok then EventStep(old(View()), env, slotHash, now).value else old(View())
    {
      if !(now > global.dailyDistributionData.lastDailyDistributionTime + SEC_PER_DAY) {
        return false;
      }
      var values := global.DailyDistributionEvent(supply, futureBank, slotHash, now, env.pow);
      MintToBanks(values);
      return true;
    }

    method GetValidBlockhashes(slotHash: Hash, now: int) returns (valid: Hash, announced: Hash)
      requires Valid()
      modifies global.validBlockhashes
      ensures Valid() && View() == UpdateStep(old(View()), slotHash, now).value
      ensures (valid, announced) == (View().hashes.valid, View().hashes.announced)
    {
      global.validBlockhashes.UpdateHashes(now, slotHash);
      return global.validBlockhashes.validBlockhash, global.validBlockhashes.announcedBlockhash;
    }

    /** The number of days as a usize; a negative one becomes huge. */
    method DaysAsUsize(days: int) returns (n: nat)
      requires -0x8000_0000_0000_0000 <= days < 0x8000_0000_0000_0000
      ensures n < U64_RANGE && (n == days || (n > HISTORY_SIZE && days < 0))
    {
      n := if days >= 0 then days else days + U64_RANGE;
    }

    method DaysOwed(wallet: Hash, now: int) returns (n: nat)
      requires Valid() && IsTime(now) && wallet in userData
      ensures n < U64_RANGE
      ensures Window(View().daily.history, n)
              == Window(View().daily.history, DaysSincePayout(View().users[wallet], now))
    {
      LastPayoutIsI64(userData[wallet]);
      NormalizeBounds(now);
      n := DaysAsUsize(DaysSincePayout(Decoded(userData[wallet]), now));
    }

    method ComputeOwed(wallet: Hash, now: int) returns (interest: nat, ubi: nat)
      requires Valid() && IsTime(now) && wallet in userData
      ensures (interest, ubi) == Owed(View(), wallet, now)
    {
      var days := DaysOwed(wallet, now);
      var money := Balance(Wallet(wallet));
      if Decoded(userData[wallet]).verified {
        interest, ubi := global.dailyDistributionData.GetDistributionsForNDays(days, money);
      } else {
        interest := global.dailyDistributionData.GetInterestForNDays(days, money);
        ubi := 0;
      }
    }

    method WritePayoutDate(wallet: Hash, now: int)
      requires Valid() && IsTime(now) && wallet in userData
      modifies this`userData
      ensures Valid()
      ensures View() == PayoutDated(old(View()), wallet, now)
    {
      NormalizeBounds(now);
      var account := new UserDataAccount.FromBytes(userData[wallet]);
      account.SetLastPayout(NormalizeTime(now));
      Save(wallet, account.buf[..]);
    }

    method PayOut(wallet: Hash, interest: nat, ubi: nat, now: int) returns (ok: bool)
      requires Valid()
      modifies this`interestBank, this`verifiedBank, this`futureBank, this`wallets
      ensures Valid()
      ensures ok <==> PaidOut(old(View()), wallet, interest, ubi, now).Some?
      ensures ok ==> View() == PaidOut(old(View()), wallet, interest, ubi, now).value
      ensures verifiedBank == old(verifiedBank) && futureBank == old(futureBank)
    {
      ok := true;
      if interest > 0 {
        ok := TransferTokens(InterestBank, Wallet(wallet), interest, now);
      }
      if ok && ubi > 0 {
        ok := TransferTokens(InterestBank, Wallet(wallet), ubi, now);
      }
    }

    /** Writes the date, then pays; what a failed payment wrote is rolled back. */
    method DateAndPay(wallet: Hash, interest: nat, ubi: nat, now: int) returns (ok: bool)
      requires Valid() && IsTime(now) && wallet in userData
      modifies this`interestBank, this`verifiedBank, this`futureBank, this`wallets, this`userData
      ensures Valid()
      ensures ok <==> PaidOut(PayoutDated(old(View()), wallet, now), wallet, interest, ubi, now).Some?
      ensures View() == if ok then PaidOut(PayoutDated(old(View()), wallet, now), wallet, interest, ubi, now).value
                        else old(View())
    {
      ghost var before := View();
      var userDataBefore, interestBefore, walletsBefore := userData, interestBank, wallets;
      WritePayoutDate(wallet, now);
      ok := PayOut(wallet, interest, ubi, now);
      if !ok {
        userData, interestBank, wallets := userDataBefore, interestBefore, walletsBefore;
        assert View() == before;
      }
    }

    method GetOwedComptokens(wallet: Hash, now: int) returns (ok: bool)
      requires Valid() && IsTime(now)
      modifies this`interestBank, this`verifiedBank, this`futureBank, this`wallets, this`userData
      ensures Valid()
      ensures ok <==> ClaimStep(old(View()), wallet, now).Some?
      ensures View() == if ok then ClaimStep(old(View()), wallet, now).value else old(View())
    {
      if wallet !in userData {
        return false;
      }
      var interest, ubi := ComputeOwed(wallet, now);
      var verified := Decoded(userData[wallet]).verified;
      ok := DateAndPay(wallet, interest, if verified then ubi else 0, now);
    }

    method CreateUserDataAccount(wallet: Hash, size: nat, now: int) returns (ok: bool)
      requires Valid() && IsTime(now) && size < U64_RANGE
      modifies this`userData, this`wallets
      ensures Valid()
      ensures ok <==> CreateStep(old(View()), wallet, size, now).Some?
      ensures View() == if ok then CreateStep(old(View()), wallet, size, now).value else old(View())
    {
      if wallet in userData || !ValidSize(size) {
        return false;
      }
      NormalizeBounds(now);
      var account := new UserDataAccount.Create(size, now);
      Save(wallet, account.buf[..]);
      wallets := wallets[wallet := Lookup(wallets, wallet)];
      return true;
    }

    /** tail stands for whatever the grown account holds past its old end. */
    method ReallocUserData(wallet: Hash, newSize: nat, tail: seq<byte>) returns (ok: bool)
      requires Valid() && newSize < U64_RANGE
      requires wallet in userData && newSize >= |userData[wallet]| ==> |tail| == newSize - |userData[wallet]|
      modifies this`userData
      ensures Valid()
      ensures ok <==> GrowStep(old(View()), wallet, newSize).Some?
      ensures View() == if ok then GrowStep(old(View()), wallet, newSize).value else old(View())
    {
      if wallet !in userData {
        return false;
      }
      var data := userData[wallet];
      SizeOfDecoded(data);
      if newSize > |data| + MAX_PERMITTED_DATA_INCREASE || newSize <= |data| || !ValidSize(newSize) {
        return false;
      }
      var account := new UserDataAccount.FromBytes(data);
      account.Grow(tail);
      Save(wallet, account.buf[..]);
      return true;
    }

    /** The instruction dispatcher, and the user transfers that reach the program only through its hook. */
    method Process(call: Call, now: int, tail: seq<byte>) returns (ok: bool)
      requires Valid() && IsTime(now) && View().daily.yesterdaySupply <= View().supply
      requires call.CreateUser? || call.GrowUser? ==> call.size < U64_RANGE
      requires call.GrowUser? && call.wallet in userData && call.size >= |userData[call.wallet]| ==>
                 |tail| == call.size - |userData[call.wallet]|
      modifies this`supply, this`interestBank, this`verifiedBank, this`futureBank, this`wallets, this`userData
      modifies global.validBlockhashes, global.dailyDistributionData
      modifies global.dailyDistributionData.historicDistributions
      ensures Valid()
      ensures ok <==> Step(old(View()), env, call, now).Some?
      ensures View() == if ok then Step(old(View()), env, call, now).value else old(View())
    {
      match call {
        case Mine(wallet, payload) => ok := MintComptokens(wallet, payload, now);
        case Event(slotHash) => ok := DailyDistributionEvent(slotHash, now);
        case Claim(wallet) => ok := GetOwedComptokens(wallet, now);
        case UpdateHashes(slotHash) =>
          var _, _ := GetValidBlockhashes(slotHash, now);
          ok := true;
        case Transfer(source, destination, amount) => ok := TransferTokens(Wallet(source), destination, amount, now);
        case CreateUser(wallet, size) => ok := CreateUserDataAccount(wallet, size, now);
        case GrowUser(wallet, size) => ok := ReallocUserData(wallet, size, tail);
      }
    }
  }
}

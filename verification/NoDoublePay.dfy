/** No proof of work is paid for twice, in every run. */
module NoDoublePay {
  import opened Blockhashes
  import opened Bytes
  import opened Clock
  import opened Ledger
  import opened Options
  import opened Proof
  import opened Runs
  import opened Sums
  import UserData

  /** The chronicle tells where the blockhashes come from. */
  ghost predicate Chronicled(w: World) {
    && w.clock > SEC_PER_DAY
    && w.chronicle.hashes == w.state.hashes
    && Consistent(w.chronicle)
    && Reached(w.state.hashes, w.clock)
  }

  /** Every store holds different proofs and no more than fit. */
  ghost predicate StoresAreSets(w: World) {
    forall u :: u in w.state.users ==> UserData.WellFormed(w.state.users[u])
  }

  /** The hash was valid at some time. */
  ghost predicate WasValid(c: Chronicle, blockhash: Hash) {
    |c.adopted| > 0 && exists i :: 0 <= i <= Last(c.adopted) < |c.announcements| && c.announcements[i].hash == blockhash
  }

  ghost predicate FromValidHashes(w: World) {
    forall k :: 0 <= k < |w.accepted| ==>
      w.accepted[k].wallet in w.state.users && WasValid(w.chronicle, w.accepted[k].blockhash)
  }

  /** A proof accepted with the hash that is still valid is still in its owner's store. */
  ghost predicate Remembered(w: World) {
    forall k :: 0 <= k < |w.accepted| && w.accepted[k].blockhash == w.state.hashes.valid ==>
      w.accepted[k].wallet in w.state.users
      && w.accepted[k].proof in UserData.UsedWith(w.state.users[w.accepted[k].wallet], w.state.hashes.valid)
  }

  ghost predicate NoDuplicates(accepted: seq<Acceptance>) {
    forall i, j :: 0 <= i < j < |accepted| ==> accepted[i] != accepted[j]
  }

  function AcceptedFrom(accepted: seq<Acceptance>, wallet: Hash): nat {
    if |accepted| == 0 then 0
    else AcceptedFrom(accepted[..|accepted| - 1], wallet) + (if accepted[|accepted| - 1].wallet == wallet then 1 else 0)
  }

  /** Every wallet has mined 10000 for each of its acceptances. */
  ghost predicate PaidPerAcceptance(w: World) {
    forall u: Hash :: Lookup(w.mined, u) == MINING_AMOUNT * AcceptedFrom(w.accepted, u)
  }

  ghost predicate Spent(w: World) {
    FromValidHashes(w) && Remembered(w) && NoDuplicates(w.accepted)
  }

  // ----- every step keeps it

  lemma {:induction false} UpdatesAdvance(w: World, env: Env, t: TimedCall)
    requires t.call.Event? || t.call.UpdateHashes?
    requires Step(w.state, env, t.call, t.now).Some?
    requires w.chronicle.hashes == w.state.hashes
    ensures var after := Next(w, env, t);
            && after.chronicle == Advance(w.chronicle, Tick(t.now, t.call.slotHash))
            && after.state.hashes == after.chronicle.hashes && after.clock == t.now
  {
  }

  lemma {:induction false} NextKeepsChronicled(w: World, env: Env, t: TimedCall)
    requires Chronicled(w) && t.now >= w.clock
    ensures Chronicled(Next(w, env, t))
    ensures w.chronicle.announcements <= Next(w, env, t).chronicle.announcements
    ensures Last(w.chronicle.adopted) <= Last(Next(w, env, t).chronicle.adopted)
  {
    if Step(w.state, env, t.call, t.now).Some? {
      if t.call.Event? || t.call.UpdateHashes? {
        UpdatesAdvance(w, env, t);
        AdvanceKeepsConsistent(w.chronicle, Tick(t.now, t.call.slotHash));
      } else {
        OnlyUpdatesTouchHashes(w, env, t);
      }
    }
  }

  lemma {:induction false} OnlyUpdatesTouchHashes(w: World, env: Env, t: TimedCall)
    requires !t.call.Event? && !t.call.UpdateHashes?
    ensures var after := Next(w, env, t);
            after.state.hashes == w.state.hashes && after.chronicle == w.chronicle && after.clock == t.now
  {
  }

  /** What is stored for a user changes only by the user's own mining. */
  lemma {:induction false} OnlyMiningTouchesStores(w: World, env: Env, t: TimedCall, u: Hash)
    requires u in w.state.users && !(t.call.Mine? && t.call.wallet == u)
    ensures var after := Next(w, env, t);
            && u in after.state.users
            && after.state.users[u].recentBlockhash == w.state.users[u].recentBlockhash
            && after.state.users[u].proofs == w.state.users[u].proofs
            && after.state.users[u].capacity >= w.state.users[u].capacity
  {
    StepUsers(w.state, env, t.call, t.now);
  }

  lemma {:induction false} MiningEffect(w: World, env: Env, t: TimedCall)
    requires t.call.Mine? && Step(w.state, env, t.call, t.now).Some?
    ensures t.call.wallet in w.state.users
    ensures var after := Next(w, env, t);
            var proof := ProofOf(t.call.payload, w.state.hashes.valid, env.sha).value.hash;
            var stored := UserData.Inserted(w.state.users[t.call.wallet], proof, w.state.hashes.valid);
            && after.accepted == w.accepted + [Acceptance(t.call.wallet, w.state.hashes.valid, proof)]
            && after.mined == w.mined[t.call.wallet := Lookup(w.mined, t.call.wallet) + MINING_AMOUNT]
            && stored.Some?
            && after.state.users == w.state.users[t.call.wallet := stored.value]
  {
  }

  lemma {:induction false} OnlyMiningAccepts(w: World, env: Env, t: TimedCall)
    requires !t.call.Mine? || Step(w.state, env, t.call, t.now).None?
    ensures Next(w, env, t).accepted == w.accepted && Next(w, env, t).mined == w.mined
    ensures w.state.users.Keys <= Next(w, env, t).state.users.Keys
  {
    StepUsers(w.state, env, t.call, t.now);
  }

  lemma {:induction false} NextKeepsStoresSets(w: World, env: Env, t: TimedCall)
    requires StoresAreSets(w)
    ensures StoresAreSets(Next(w, env, t))
  {
    var after := Next(w, env, t);
    forall u | u in after.state.users
      ensures UserData.WellFormed(after.state.users[u])
    {
      if u in w.state.users {
        if t.call.Mine? && t.call.wallet == u && Step(w.state, env, t.call, t.now).Some? {
          MiningEffect(w, env, t);
          UserData.InsertAddsOneProof(w.state.users[u], after.accepted[|w.accepted|].proof, w.state.hashes.valid);
        } else if !(t.call.Mine? && t.call.wallet == u) {
          OnlyMiningTouchesStores(w, env, t, u);
        }
      } else {
        NewStoreIsEmpty(w, env, t, u);
      }
    }
  }

  lemma {:induction false} NewStoreIsEmpty(w: World, env: Env, t: TimedCall, u: Hash)
    requires u in Next(w, env, t).state.users && u !in w.state.users
    ensures Next(w, env, t).state.users[u].proofs == []
  {
    StepUsers(w.state, env, t.call, t.now);
  }

  /** A newly valid hash has never been used, so that nobody has been paid with it. */
  lemma {:induction false} NewValidHashIsUnused(w: World, after: World)
    requires Chronicled(w) && Chronicled(after) && FromValidHashes(w)
    requires w.chronicle.announcements <= after.chronicle.announcements
    requires Last(w.chronicle.adopted) <= Last(after.chronicle.adopted)
    requires DistinctHashes(after.chronicle.announcements)
    ensures forall k :: 0 <= k < |w.accepted| && w.accepted[k].blockhash == after.state.hashes.valid ==>
              w.accepted[k].blockhash == w.state.hashes.valid
    ensures forall k :: 0 <= k < |w.accepted| ==> WasValid(after.chronicle, w.accepted[k].blockhash)
  {
    forall k | 0 <= k < |w.accepted|
      ensures WasValid(after.chronicle, w.accepted[k].blockhash)
      ensures w.accepted[k].blockhash == after.state.hashes.valid ==> w.accepted[k].blockhash == w.state.hashes.valid
    {
      var b := w.accepted[k].blockhash;
      var i :| 0 <= i <= Last(w.chronicle.adopted) < |w.chronicle.announcements|
               && w.chronicle.announcements[i].hash == b;
      assert after.chronicle.announcements[i].hash == b;
    }
  }

  lemma {:induction false} NextKeepsSpent(w: World, env: Env, t: TimedCall)
    requires Chronicled(w) && t.now >= w.clock
    requires Spent(w) && DistinctHashes(Next(w, env, t).chronicle.announcements)
    ensures Spent(Next(w, env, t))
  {
    var after := Next(w, env, t);
    NextKeepsChronicled(w, env, t);
    NewValidHashIsUnused(w, after);
    if t.call.Mine? && Step(w.state, env, t.call, t.now).Some? {
      MiningKeepsSpent(w, env, t);
    } else {
      OnlyMiningAccepts(w, env, t);
      forall k | 0 <= k < |w.accepted| && w.accepted[k].blockhash == after.state.hashes.valid
        ensures w.accepted[k].proof
                in UserData.UsedWith(after.state.users[w.accepted[k].wallet], after.state.hashes.valid)
      {
        if t.call.Mine? {
          assert after.state == w.state;
        } else {
          OnlyMiningTouchesStores(w, env, t, w.accepted[k].wallet);
        }
      }
    }
  }

  lemma {:induction false} MiningKeepsSpent(w: World, env: Env, t: TimedCall)
    requires Chronicled(w) && Spent(w)
    requires t.call.Mine? && Step(w.state, env, t.call, t.now).Some?
    ensures Spent(Next(w, env, t))
  {
    var after := Next(w, env, t);
    var valid := w.state.hashes.valid;
    MiningEffect(w, env, t);
    OnlyUpdatesTouchHashes(w, env, t);
    var a := after.accepted[|w.accepted|];
    assert WasValid(after.chronicle, valid) by {
      assert w.chronicle.announcements[Last(w.chronicle.adopted)].hash == valid;
    }
    forall k | 0 <= k < |after.accepted| && after.accepted[k].blockhash == valid
      ensures after.accepted[k].wallet in after.state.users
      ensures after.accepted[k].proof in UserData.UsedWith(after.state.users[after.accepted[k].wallet], valid)
    {
      if k < |w.accepted| {
        assert after.accepted[k] == w.accepted[k];
      }
    }
    assert a !in w.accepted;
  }

  // ----- all runs

  lemma {:induction false} RunIsChronicled(
    now: int, slotHash: Hash, humans: nat, wallets: map<Hash, nat>, env: Env, calls: seq<TimedCall>)
    requires Runs.Clocked(now, calls)
    ensures var w := Run(Start(now, slotHash, humans, wallets), env, calls);
            Chronicled(w) && StoresAreSets(w)
  {
    var start := Start(now, slotHash, humans, wallets);
    if |calls| == 0 {
      AdvanceKeepsConsistent(BLANK, Tick(now, slotHash));
    } else {
      var init := calls[..|calls| - 1];
      ClockedPrefix(now, calls);
      RunIsChronicled(now, slotHash, humans, wallets, env, init);
      ClockOfRun(start, env, init);
      NextKeepsChronicled(Run(start, env, init), env, calls[|calls| - 1]);
      NextKeepsStoresSets(Run(start, env, init), env, calls[|calls| - 1]);
    }
  }

  lemma {:induction false} DistinctPrefix(some: seq<Announcement>, all: seq<Announcement>)
    requires some <= all && DistinctHashes(all)
    ensures DistinctHashes(some)
  {
    assert forall i :: 0 <= i < |some| ==> some[i] == all[i];
  }

  lemma {:induction false} RunIsSpent(
    now: int, slotHash: Hash, humans: nat, wallets: map<Hash, nat>, env: Env, calls: seq<TimedCall>)
    requires Runs.Clocked(now, calls)
    requires DistinctHashes(Run(Start(now, slotHash, humans, wallets), env, calls).chronicle.announcements)
    ensures Spent(Run(Start(now, slotHash, humans, wallets), env, calls))
  {
    var start := Start(now, slotHash, humans, wallets);
    if |calls| > 0 {
      var init := calls[..|calls| - 1];
      ClockedPrefix(now, calls);
      RunIsChronicled(now, slotHash, humans, wallets, env, init);
      ClockOfRun(start, env, init);
      var w := Run(start, env, init);
      NextKeepsChronicled(w, env, calls[|calls| - 1]);
      DistinctPrefix(w.chronicle.announcements, Next(w, env, calls[|calls| - 1]).chronicle.announcements);
      RunIsSpent(now, slotHash, humans, wallets, env, init);
      NextKeepsSpent(w, env, calls[|calls| - 1]);
    }
  }

  lemma {:induction false} RunPaysPerAcceptance(
    now: int, slotHash: Hash, humans: nat, wallets: map<Hash, nat>, env: Env, calls: seq<TimedCall>)
    ensures PaidPerAcceptance(Run(Start(now, slotHash, humans, wallets), env, calls))
  {
    var start := Start(now, slotHash, humans, wallets);
    if |calls| > 0 {
      var init := calls[..|calls| - 1];
      RunPaysPerAcceptance(now, slotHash, humans, wallets, env, init);
      var w, t := Run(start, env, init), calls[|calls| - 1];
      if t.call.Mine? && Step(w.state, env, t.call, t.now).Some? {
        MiningEffect(w, env, t);
        assert Next(w, env, t).accepted[..|w.accepted|] == w.accepted;
      } else {
        OnlyMiningAccepts(w, env, t);
      }
    }
  }

  /** The different (blockhash, proof) pairs a wallet was paid for. */
  ghost function PairsOf(accepted: seq<Acceptance>, wallet: Hash): set<(Hash, Hash)> {
    set k | 0 <= k < |accepted| && accepted[k].wallet == wallet :: (accepted[k].blockhash, accepted[k].proof)
  }

  lemma {:induction false} PairsAreCounted(accepted: seq<Acceptance>, wallet: Hash)
    requires NoDuplicates(accepted)
    ensures |PairsOf(accepted, wallet)| == AcceptedFrom(accepted, wallet)
  {
    if |accepted| > 0 {
      var init, last := accepted[..|accepted| - 1], accepted[|accepted| - 1];
      PairsAreCounted(init, wallet);
      PairsGrow(init, last, wallet);
      assert init + [last] == accepted;
    }
  }

  lemma {:induction false} PairsGrow(init: seq<Acceptance>, last: Acceptance, wallet: Hash)
    requires last !in init
    ensures PairsOf(init + [last], wallet)
            == PairsOf(init, wallet) + (if last.wallet == wallet then {(last.blockhash, last.proof)} else {})
    ensures last.wallet == wallet ==> (last.blockhash, last.proof) !in PairsOf(init, wallet)
  {
    var all := init + [last];
    assert forall k :: 0 <= k < |init| ==> all[k] == init[k];
    assert all[|init|] == last;
    forall pair | pair in PairsOf(init, wallet)
      ensures pair in PairsOf(all, wallet)
    {
      var k :| 0 <= k < |init| && init[k].wallet == wallet && (init[k].blockhash, init[k].proof) == pair;
      assert all[k].wallet == wallet;
    }
  }

  /**
   * In every run in which no slot hash is announced twice, each (user, valid blockhash, proof) is accepted at most
   * once, and a user has mined exactly 10000 for each different pair of blockhash and proof.
   */
  lemma {:induction false} NoProofPaysTwice(
    now: int, slotHash: Hash, humans: nat, wallets: map<Hash, nat>, env: Env, calls: seq<TimedCall>, wallet: Hash)
    requires Runs.Clocked(now, calls)
    requires DistinctHashes(Run(Start(now, slotHash, humans, wallets), env, calls).chronicle.announcements)
    ensures var w := Run(Start(now, slotHash, humans, wallets), env, calls);
            && NoDuplicates(w.accepted)
            && Lookup(w.mined, wallet) == MINING_AMOUNT * |PairsOf(w.accepted, wallet)|
  {
    RunIsSpent(now, slotHash, humans, wallets, env, calls);
    RunPaysPerAcceptance(now, slotHash, humans, wallets, env, calls);
    PairsAreCounted(Run(Start(now, slotHash, humans, wallets), env, calls).accepted, wallet);
  }
}

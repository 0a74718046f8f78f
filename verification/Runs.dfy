/** Runs of the whole program: any calls in any order, under a clock that does not go back. */
module Runs {
  import opened Blockhashes
  import opened Bytes
  import opened Clock
  import opened Distribution
  import opened Growth
  import opened Ledger
  import opened Options
  import opened Proof
  import opened Settlement
  import opened Sums

  /** A proof that was paid for. */
  datatype Acceptance = Acceptance(wallet: Hash, blockhash: Hash, proof: Hash)

  datatype TimedCall = TimedCall(now: int, call: Call)

  /** The state, and what happened so far; the history has no influence on the state. */
  datatype World = World(
    state: State,
    clock: int,
    startDay: int,
    accepted: seq<Acceptance>,
    mined: map<Hash, nat>,
    log: seq<Entry>,
    eventDays: seq<int>,
    miningDays: seq<MiningDay>,
    marks: map<Hash, nat>,
    chronicle: Chronicle,
    slack: real,
    debt: real)

  ghost function Start(now: int, slotHash: Hash, humans: nat, wallets: map<Hash, nat>): World {
    World(Genesis(now, slotHash, humans, wallets), now, Day(now), [], map[], [], [], [], map[],
          Advance(BLANK, Tick(now, slotHash)), 0.0, 0.0)
  }

  /** An event lets the slack earn the day's interest, too, and adds half a coin for each user and for the bank. */
  function SlackAfter(slack: real, rate: real, users: nat): real {
    rate * slack + (users + 1) as real / 2.0
  }

  /** An amount after a day's interest, not rounded. */
  function Grown(amount: real, rate: real): real {
    rate * amount
  }

  /** The interest that newly mined coins earn for days recorded before they were mined. */
  function MiningDebt(w: World, wallet: Hash): real {
    if wallet in w.marks && w.marks[wallet] <= |w.log| then
      var days, held := w.log[w.marks[wallet]..], Lookup(w.state.wallets, wallet);
      (Interest(days, held + MINING_AMOUNT) - Interest(days, held)) as real
    else 0.0
  }

  /** One call; an aborted one changes nothing. */
  function Next(w: World, env: Env, t: TimedCall): World {
    var after := Step(w.state, env, t.call, t.now);
    if after.None? then w.(clock := t.now) else Recorded(w.(clock := t.now), after.value, env, t)
  }

  function Recorded(w: World, after: State, env: Env, t: TimedCall): World
    requires Step(w.state, env, t.call, t.now) == Some(after)
  {
    var w1 := w.(state := after);
    match t.call
    case Mine(wallet, payload) =>
      var proof := ProofOf(payload, w.state.hashes.valid, env.sha).value;
      w1.(accepted := w.accepted + [Acceptance(wallet, w.state.hashes.valid, proof.hash)],
          mined := w.mined[wallet := Lookup(w.mined, wallet) + MINING_AMOUNT],
          debt := w.debt + MiningDebt(w, wallet))
    case Event(slotHash) =>
      var day := after.daily.history[HISTORY_SIZE - 1];
      var mined := w.state.supply - w.state.daily.yesterdaySupply;
      w1.(log := w.log + [day],
          eventDays := w.eventDays + [Day(t.now)],
          miningDays := w.miningDays + [MiningDay(w.state.daily.yesterdaySupply, mined)],
          chronicle := Advance(w.chronicle, Tick(t.now, slotHash)),
          slack := if mined == 0 then w.slack else SlackAfter(w.slack, day.rate, |w.state.users|),
          debt := Grown(w.debt, day.rate))
    case Claim(wallet) => w1.(marks := w.marks[wallet := |w.log|])
    case UpdateHashes(slotHash) => w1.(chronicle := Advance(w.chronicle, Tick(t.now, slotHash)))
    case Transfer(_, _, _) => w1
    case CreateUser(wallet, _) => w1.(marks := w.marks[wallet := |w.log|])
    case GrowUser(_, _) => w1
  }

  function Run(w: World, env: Env, calls: seq<TimedCall>): World {
    if |calls| == 0 then w
    else Next(Run(w, env, calls[..|calls| - 1]), env, calls[|calls| - 1])
  }

  /** The clock of a run starting at a time: after the first day of the epoch, and never going back. */
  ghost predicate Clocked(start: int, calls: seq<TimedCall>) {
    && start > SEC_PER_DAY
    && (forall i :: 0 <= i < |calls| ==> start <= calls[i].now)
    && (forall i, j :: 0 <= i < j < |calls| ==> calls[i].now <= calls[j].now)
  }

  lemma {:induction false} ClockedPrefix(start: int, calls: seq<TimedCall>)
    requires Clocked(start, calls) && |calls| > 0
    ensures Clocked(start, calls[..|calls| - 1])
    ensures |calls| > 1 ==> calls[|calls| - 2].now <= calls[|calls| - 1].now
  {
  }

  lemma {:induction false} ClockOfRun(w: World, env: Env, calls: seq<TimedCall>)
    requires Clocked(w.clock, calls)
    ensures Run(w, env, calls).clock == if |calls| == 0 then w.clock else calls[|calls| - 1].now
    ensures Run(w, env, calls).clock >= w.clock
  {
  }
}

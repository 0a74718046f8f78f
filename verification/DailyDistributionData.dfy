/** The record of past days as it lies in the account: a ring of 365 slots (daily_distribution_data.rs). */
module DailyDistributionData {
  import opened Bytes
  import opened Clock
  import opened Distribution
  import opened Growth
  import opened Settlement
  import opened Options

  /** usize arithmetic wraps. */
  function Wrap(i: nat): nat {
    if i < U64_RANGE then i else i % U64_RANGE
  }

  // ----- walking the ring, as values

  /** Where an iterator stands: the next slot, and how many it has passed. */
  datatype Cursor = Cursor(index: nat, count: nat)

  function Peek(slots: seq<Entry>, c: Cursor): Option<Entry>
    requires |slots| == HISTORY_SIZE && c.index < HISTORY_SIZE
  {
    if c.count >= HISTORY_SIZE then None else Some(slots[c.index])
  }

  function Moved(c: Cursor, n: nat): (m: Cursor)
    ensures m.index < HISTORY_SIZE
  {
    Cursor(Wrap(c.index + n) % HISTORY_SIZE, Wrap(c.count + n))
  }

  /** The cursor after n calls of next. */
  function NextTimes(c: Cursor, n: nat): (m: Cursor)
    requires c.index < HISTORY_SIZE
    ensures m.index < HISTORY_SIZE
  {
    if n == 0 then c else Moved(NextTimes(c, n - 1), 1)
  }

  /** The overridden nth gives what n + 1 calls of next give, and leaves the iterator where they do. */
  lemma {:induction false} NthIsRepeatedNext(slots: seq<Entry>, c: Cursor, n: nat)
    requires |slots| == HISTORY_SIZE && c.index < HISTORY_SIZE
    requires c.index + n + 1 < U64_RANGE && c.count + n + 1 < U64_RANGE
    ensures Moved(c, n) == NextTimes(c, n)
    ensures Moved(Moved(c, n), 1) == NextTimes(c, n + 1)
    ensures Peek(slots, Moved(c, n)) == Peek(slots, NextTimes(c, n))
  {
    if n > 0 {
      NthIsRepeatedNext(slots, c, n - 1);
      MovedFrom(c, c.index, n - 1);
      MovedFrom(Moved(c, n - 1), c.index + n - 1, 1);
    }
    MovedFrom(c, c.index, n);
    MovedFrom(Moved(c, n), c.index + n, 1);
  }

  lemma {:induction false} MovedFrom(c: Cursor, base: nat, n: nat)
    requires c.index == base % HISTORY_SIZE
    requires base + n < U64_RANGE && c.count + n < U64_RANGE
    ensures Moved(c, n) == Cursor((base + n) % HISTORY_SIZE, c.count + n)
  {
    WholeTurns(base / HISTORY_SIZE, c.index + n);
  }

  lemma {:induction false} WholeTurns(turns: nat, steps: nat)
    ensures (turns * HISTORY_SIZE + steps) % HISTORY_SIZE == steps % HISTORY_SIZE
  {
  }

  /** The slot k places after the oldest one. */
  function SlotAt(oldest: nat, k: nat): (slot: nat)
    requires oldest < HISTORY_SIZE && k <= HISTORY_SIZE
    ensures slot < HISTORY_SIZE
  {
    if oldest + k < HISTORY_SIZE then oldest + k else oldest + k - HISTORY_SIZE
  }

  lemma {:induction false} MovedAlong(oldest: nat, k: nat, n: nat)
    requires oldest < HISTORY_SIZE && k + n <= HISTORY_SIZE
    ensures Moved(Cursor(SlotAt(oldest, k), k), n) == Cursor(SlotAt(oldest, k + n), k + n)
  {
    MovedFrom(Cursor(SlotAt(oldest, k), k), SlotAt(oldest, k), n);
  }

  /** skip(n), which is nth(n - 1) unless n is 0, passes n elements. */
  lemma {:induction false} SkipMoves(oldest: nat, n: nat)
    requires oldest < HISTORY_SIZE && 0 < n <= HISTORY_SIZE
    ensures var start := Cursor(oldest, 0);
            && Moved(start, n - 1).count < HISTORY_SIZE
            && Moved(Moved(start, n - 1), 1) == Cursor(SlotAt(oldest, n), n)
  {
    MovedAlong(oldest, 0, n - 1);
    MovedAlong(oldest, n - 1, 1);
  }

  lemma {:induction false} InterestFoldTakesOneDay(day: Entry, rest: seq<Entry>, balance: nat)
    ensures InterestFold([day] + rest, balance) == InterestFold(rest, Scaled(balance, day.rate))
  {
    assert ([day] + rest)[1..] == rest;
  }

  /** The fold of a verified human's claim, with its two accumulators. */
  ghost function UbiTotals(days: seq<Entry>, totals: (nat, nat)): (nat, nat) {
    if |days| == 0 then totals else UbiTotals(days[1..], DayAdded(totals, days[0]))
  }

  function DayAdded(totals: (nat, nat), day: Entry): (nat, nat) {
    (Scaled(totals.0, day.rate) + day.ubi, totals.1 + day.ubi)
  }

  lemma {:induction false} UbiTotalsAreFoldAndSum(days: seq<Entry>, totals: (nat, nat))
    ensures UbiTotals(days, totals) == (UbiFold(days, totals.0), totals.1 + UbiSum(days))
  {
    if |days| > 0 {
      UbiTotalsAreFoldAndSum(days[1..], DayAdded(totals, days[0]));
    }
  }

  lemma {:induction false} UbiTotalsTakeOneDay(day: Entry, rest: seq<Entry>, totals: (nat, nat))
    ensures UbiTotals([day] + rest, totals) == UbiTotals(rest, DayAdded(totals, day))
  {
    assert ([day] + rest)[1..] == rest;
  }

  // ----- the account data

  /** What an event leaves, field by field. */
  lemma {:induction false} DistributeIs(
    d: DailyData, supply: nat, futureBank: nat, now: int, pow: PowerLaw, after: DailyData, values: Values)
    requires d.yesterdaySupply < supply
    requires after.lastEventTime == NormalizeTime(now) && after.verifiedHumans == d.verifiedHumans
    requires var increase := HighWaterMarkIncrease(d.yesterdaySupply, d.highWaterMark, supply - d.yesterdaySupply, pow);
             && after.highWaterMark == d.highWaterMark + increase
             && values == Split(increase, d.verifiedHumans, futureBank, supply)
             && after.yesterdaySupply == supply + values.Total()
             && after.history == Record(d.history, RecordedDay(increase, d.verifiedHumans, supply))
    ensures (after, values) == Distribute(d, supply, futureBank, now, pow)
  {
  }

  class DistributionAccount {
    var yesterdaySupply: nat
    var highWaterMark: nat
    var lastDailyDistributionTime: int
    var verifiedHumans: nat
    var oldestHistoricIndex: nat
    const historicDistributions: array<Entry>

    ghost predicate Valid()
      reads this
    {
      historicDistributions.Length == HISTORY_SIZE && oldestHistoricIndex < HISTORY_SIZE
    }

    /** The recorded days, oldest first. */
    ghost function Ordered(): History
      requires Valid()
      reads this, historicDistributions
    {
      historicDistributions[oldestHistoricIndex..] + historicDistributions[..oldestHistoricIndex]
    }

    ghost function View(): DailyData
      requires Valid()
      reads this, historicDistributions
    {
      DailyData(yesterdaySupply, highWaterMark, lastDailyDistributionTime, verifiedHumans, Ordered())
    }

    /** A zero-filled account, stamped with the current day. */
    constructor Initialize(now: int, humans: nat)
      ensures Valid() && fresh(historicDistributions)
      ensures View() == DailyData(0, 0, NormalizeTime(now), humans, FreshHistory())
    {
      yesterdaySupply, highWaterMark, verifiedHumans, oldestHistoricIndex := 0, 0, humans, 0;
      historicDistributions := new Entry[HISTORY_SIZE](_ => UNFILLED);
      lastDailyDistributionTime := NormalizeTime(now);
    }

    method Insert(day: Entry)
      requires Valid()
      modifies this`oldestHistoricIndex, historicDistributions
      ensures Valid()
      ensures Ordered() == Record(old(Ordered()), day)
    {
      ghost var before := Ordered();
      historicDistributions[oldestHistoricIndex] := day;
      oldestHistoricIndex := oldestHistoricIndex + 1;
      oldestHistoricIndex := oldestHistoricIndex % HISTORY_SIZE;
      assert Ordered() == before[1..] + [day];
    }

    /** The part of the event after the early return for a day without new coins. */
    method DistributeNewCoins(supply: nat, futureBank: nat, pow: PowerLaw) returns (values: Values)
      requires Valid() && yesterdaySupply < supply
      modifies this`yesterdaySupply, this`highWaterMark, this`oldestHistoricIndex, historicDistributions
      ensures Valid()
      ensures var increase := HighWaterMarkIncrease(old(yesterdaySupply), old(highWaterMark),
                                                    supply - old(yesterdaySupply), pow);
              && highWaterMark == old(highWaterMark) + increase
              && values == Split(increase, verifiedHumans, futureBank, supply)
              && yesterdaySupply == supply + values.Total()
              && Ordered() == Record(old(Ordered()), RecordedDay(increase, verifiedHumans, supply))
    {
      var increase := HighWaterMarkIncrease(yesterdaySupply, highWaterMark, supply - yesterdaySupply, pow);
      highWaterMark := highWaterMark + increase;
      var half := Half(increase);
      var verifiedUbi := VerifiedUbi(half, verifiedHumans);
      values := Values(half, verifiedUbi, half - verifiedUbi);
      var rate := InterestRate(increase, supply);
      var futureInterest := FutureUbiInterest(increase, futureBank, supply);
      values := values.(interest := SaturatingSub(values.interest, futureInterest));
      values := values.(futureUbi := values.futureUbi + futureInterest);
      Insert(Entry(1.0 + rate, PerHuman(verifiedUbi, verifiedHumans)));
      yesterdaySupply := supply + values.Total();
    }

    method DailyDistribution(supply: nat, futureBank: nat, now: int, pow: PowerLaw) returns (values: Values)
      requires Valid() && yesterdaySupply <= supply
      modifies this, historicDistributions
      ensures Valid()
      ensures (View(), values) == Distribute(old(View()), supply, futureBank, now, pow)
    {
      ghost var before := View();
      lastDailyDistributionTime := NormalizeTime(now);
      if supply - yesterdaySupply == 0 {
        Insert(Entry(1.0, 0));
        return Values(0, 0, 0);
      }
      values := DistributeNewCoins(supply, futureBank, pow);
      DistributeIs(before, supply, futureBank, now, pow, View(), values);
    }

    lemma {:induction false} OrderedAt(j: nat)
      requires Valid() && j < HISTORY_SIZE
      ensures Ordered()[j] == historicDistributions[SlotAt(oldestHistoricIndex, j)]
    {
    }

    /** Interest on the money over the last n days; n is a usize, and 365 - n wraps. */
    method GetInterestForNDays(n: nat, money: nat) returns (interest: nat)
      requires Valid() && n < U64_RANGE
      ensures interest == Interest(Window(Ordered(), n), money)
    {
      ghost var window := Window(Ordered(), n);
      var iter := new Iter(this);
      var balance: nat := money;
      var next := iter.Skip(n);
      while next.Some?
        invariant iter.data == this && fresh(iter) && iter.Walking(next)
        invariant InterestFold(iter.Rest(next), balance) == InterestFold(window, money)
        decreases |iter.Rest(next)|
      {
        var day := next.value;
        next := iter.Step(next);
        InterestFoldTakesOneDay(day, iter.Rest(next), balance);
        balance := Scaled(balance, day.rate);
      }
      interest := SaturatingSub(balance, money);
    }

    /** Interest and UBI of a verified human over the last n days. */
    method GetDistributionsForNDays(n: nat, money: nat) returns (interest: nat, ubi: nat)
      requires Valid() && n < U64_RANGE
      ensures (interest, ubi) == Distributions(Window(Ordered(), n), money)
    {
      var totals := FoldDistributions(n, money);
      UbiTotalsAreFoldAndSum(Window(Ordered(), n), (money, 0));
      ubi := totals.1;
      interest := SaturatingSub(totals.0, money + ubi);
    }

    method FoldDistributions(n: nat, money: nat) returns (totals: (nat, nat))
      requires Valid() && n < U64_RANGE
      ensures totals == UbiTotals(Window(Ordered(), n), (money, 0))
    {
      ghost var final := UbiTotals(Window(Ordered(), n), (money, 0));
      var iter := new Iter(this);
      totals := (money, 0);
      var next := iter.Skip(n);
      while next.Some?
        invariant iter.data == this && fresh(iter) && iter.Walking(next)
        invariant UbiTotals(iter.Rest(next), totals) == final
        decreases |iter.Rest(next)|
      {
        var day := next.value;
        next := iter.Step(next);
        UbiTotalsTakeOneDay(day, iter.Rest(next), totals);
        totals := DayAdded(totals, day);
      }
    }
  }

  class Iter {
    var index: nat
    var count: nat
    const data: DistributionAccount

    constructor (data: DistributionAccount)
      requires data.Valid()
      ensures this.data == data
      ensures Position() == Cursor(data.oldestHistoricIndex, 0)
    {
      this.data := data;
      index := data.oldestHistoricIndex;
      count := 0;
    }

    function Position(): Cursor
      reads this
    {
      Cursor(index, count)
    }

    method Next() returns (result: Option<Entry>)
      requires data.Valid() && index < HISTORY_SIZE
      modifies this
      ensures result == Peek(data.historicDistributions[..], old(Position()))
      ensures Position() == Moved(old(Position()), 1)
    {
      result := if count >= HISTORY_SIZE then None else Some(data.historicDistributions[index]);
      count := Wrap(count + 1);
      index := Wrap(index + 1);
      index := index % HISTORY_SIZE;
    }

    method Nth(n: nat) returns (result: Option<Entry>)
      requires data.Valid() && index < HISTORY_SIZE
      modifies this
      ensures result == Peek(data.historicDistributions[..], Moved(old(Position()), n))
      ensures Position() == Moved(Moved(old(Position()), n), 1)
    {
      count := Wrap(count + n);
      index := Wrap(index + n);
      index := index % HISTORY_SIZE;
      result := Next();
    }

    /** The iterator has just returned this element. */
    ghost predicate Walking(element: Option<Entry>)
      reads this, data, data.historicDistributions
    {
      && data.Valid()
      && (element.Some? ==>
            && 1 <= count <= HISTORY_SIZE
            && index == SlotAt(data.oldestHistoricIndex, count)
            && element.value == data.Ordered()[count - 1])
    }

    /** The element just returned and all that follow it. */
    ghost function Rest(element: Option<Entry>): seq<Entry>
      requires Walking(element)
      reads this, data, data.historicDistributions
    {
      if element.None? then [] else data.Ordered()[count - 1..]
    }

    /** One round of a fold: the next element after one that was not the end. */
    method Step(element: Option<Entry>) returns (next: Option<Entry>)
      requires Walking(element) && element.Some?
      modifies this
      ensures Walking(next)
      ensures old(Rest(element)) == [element.value] + Rest(next)
    {
      next := NextElement();
      assert old(Rest(element))[1..] == Rest(next);
    }

    /** next, at a place that counts the elements passed. */
    method NextElement() returns (element: Option<Entry>)
      requires data.Valid() && count <= HISTORY_SIZE && index == SlotAt(data.oldestHistoricIndex, count)
      modifies this
      ensures Walking(element)
      ensures Rest(element) == data.Ordered()[old(count)..]
    {
      if count < HISTORY_SIZE {
        data.OrderedAt(count);
        MovedAlong(data.oldestHistoricIndex, count, 1);
      }
      element := Next();
    }

    /** skip(365 - n), with the subtraction wrapping, and then the first element a fold sees. */
    method Skip(n: nat) returns (first: Option<Entry>)
      requires data.Valid() && Position() == Cursor(data.oldestHistoricIndex, 0)
      requires n < U64_RANGE
      modifies this
      ensures Walking(first)
      ensures Rest(first) == Window(data.Ordered(), n)
    {
      var skip := if n <= HISTORY_SIZE then HISTORY_SIZE - n else U64_RANGE + HISTORY_SIZE - n;
      if skip > 0 {
        if skip <= HISTORY_SIZE {
          SkipMoves(data.oldestHistoricIndex, skip);
        }
        var skipped := Nth(skip - 1);
        if skipped.None? {
          return None;
        }
      }
      first := NextElement();
    }
  }
}

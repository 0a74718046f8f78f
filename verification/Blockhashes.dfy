/** The announced and the valid blockhash (comptoken/src/global_data/valid_blockhashes.rs). */
module Blockhashes {
  import opened Bytes
  import opened Clock

  /** Seconds between the earliest possible announcement and the switch-over at midnight. */
  const ANNOUNCEMENT_INTERVAL: int := 300

  datatype Hashes = Hashes(announced: Hash, announcedTime: int, valid: Hash, validTime: int)

  /** A zero-filled account. */
  const FRESH: Hashes := Hashes(ZERO_HASH, 0, ZERO_HASH, 0)

  predicate AnnouncedStale(h: Hashes, now: int) {
    now > h.announcedTime + SEC_PER_DAY
  }

  predicate ValidStale(h: Hashes, now: int) {
    now > h.validTime + SEC_PER_DAY
  }

  function AnnouncementStamp(now: int): int {
    NormalizeTime(now + ANNOUNCEMENT_INTERVAL) - ANNOUNCEMENT_INTERVAL
  }

  function Update(h: Hashes, now: int, slotHash: Hash): Hashes {
    var h1 := if AnnouncedStale(h, now) then h.(announced := slotHash, announcedTime := AnnouncementStamp(now)) else h;
    if ValidStale(h1, now) then h1.(valid := h1.announced, validTime := NormalizeTime(now)) else h1
  }

  class ValidBlockhashes {
    var announcedBlockhash: Hash
    var announcedBlockhashTime: int
    var validBlockhash: Hash
    var validBlockhashTime: int

    function View(): Hashes
      reads this
    {
      Hashes(announcedBlockhash, announcedBlockhashTime, validBlockhash, validBlockhashTime)
    }

    /** A zero-filled account, then the first update. */
    constructor Initialize(now: int, slotHash: Hash)
      ensures View() == Update(FRESH, now, slotHash)
    {
      announcedBlockhash, announcedBlockhashTime := ZERO_HASH, 0;
      validBlockhash, validBlockhashTime := ZERO_HASH, 0;
      new;
      UpdateHashes(now, slotHash);
    }

    method UpdateHashes(now: int, slotHash: Hash)
      modifies this
      ensures View() == Update(old(View()), now, slotHash)
    {
      if IsAnnouncedBlockhashStale(now) {
        announcedBlockhash := slotHash;
        announcedBlockhashTime := NormalizeTime(now + ANNOUNCEMENT_INTERVAL) - ANNOUNCEMENT_INTERVAL;
      }
      if IsValidBlockhashStale(now) {
        validBlockhash := announcedBlockhash;
        validBlockhashTime := NormalizeTime(now);
      }
    }

    predicate IsAnnouncedBlockhashStale(now: int)
      reads this
    {
      now > announcedBlockhashTime + SEC_PER_DAY
    }

    predicate IsValidBlockhashStale(now: int)
      reads this
    {
      now > validBlockhashTime + SEC_PER_DAY
    }
  }

  // ----- one update

  /** Just after a switch-over both hashes are the same; from five minutes before midnight the next one is announced. */
  predicate TwoPhase(h: Hashes) {
    && h.validTime % SEC_PER_DAY == 0
    && (|| (h.announcedTime == h.validTime - ANNOUNCEMENT_INTERVAL && h.announced == h.valid)
        || h.announcedTime == h.validTime + SEC_PER_DAY - ANNOUNCEMENT_INTERVAL)
  }

  predicate Current(h: Hashes, now: int) {
    !AnnouncedStale(h, now) && !ValidStale(h, now)
  }

  /** Where h comes from: a zero-filled account, or an earlier update. */
  predicate Reached(h: Hashes, now: int) {
    (h.announcedTime == 0 && h.validTime == 0) || (TwoPhase(h) && h.validTime <= now && h.announcedTime <= now)
  }

  lemma {:induction false} UpdateMakesTwoPhase(h: Hashes, now: int, slotHash: Hash)
    requires now > SEC_PER_DAY && Reached(h, now)
    ensures var after := Update(h, now, slotHash);
            && TwoPhase(after) && Reached(after, now) && Current(after, now)
            && h.announcedTime <= after.announcedTime && h.validTime <= after.validTime
  {
    NormalizeBounds(now);
    NormalizeBounds(now + ANNOUNCEMENT_INTERVAL);
    var day := h.validTime / SEC_PER_DAY;
    MidnightsAreApart(day + 1, Day(now));
    MidnightsAreApart(day + 2, Day(now));
    MidnightsAreApart(Day(now), Day(now + ANNOUNCEMENT_INTERVAL));
    MidnightsAreApart(day + 1, Day(now + ANNOUNCEMENT_INTERVAL));
  }

  /** A second update at the same time changes nothing. */
  lemma {:induction false} UpdateIsIdempotent(h: Hashes, now: int, slotHash: Hash, again: Hash)
    requires now > SEC_PER_DAY && Reached(h, now)
    ensures Update(Update(h, now, slotHash), now, again) == Update(h, now, slotHash)
  {
    UpdateMakesTwoPhase(h, now, slotHash);
  }

  /**
   * Exactly when an update replaces what, in seconds: the announced hash once its stamp is more than a day old, by the
   * slot hash, stamped five minutes before a midnight; the valid hash once its midnight is more than a day old, by the
   * hash then announced, stamped with today's midnight.
   */
  lemma {:induction false} UpdateReplaces(h: Hashes, now: int, slotHash: Hash)
    requires now >= 0
    ensures var after := Update(h, now, slotHash);
            && (now <= h.announcedTime + 86_400 ==>
                  after.announced == h.announced && after.announcedTime == h.announcedTime)
            && (now > h.announcedTime + 86_400 ==>
                  && after.announced == slotHash
                  && (after.announcedTime + 300) % 86_400 == 0
                  && after.announcedTime <= now < after.announcedTime + 86_400)
            && (now <= h.validTime + 86_400 ==> after.valid == h.valid && after.validTime == h.validTime)
            && (now > h.validTime + 86_400 ==>
                  && after.valid == after.announced
                  && after.validTime % 86_400 == 0
                  && after.validTime <= now < after.validTime + 86_400)
  {
    NormalizeIsMidnight(now, NormalizeTime(now));
    NormalizeIsMidnight(now + 300, NormalizeTime(now + 300));
  }

  /** After an update both times are at most a day old, so a second one finds nothing to do. */
  lemma {:induction false} UpdateCatchesUp(h: Hashes, now: int, slotHash: Hash)
    requires now >= 0
    ensures var after := Update(h, now, slotHash);
            now <= after.announcedTime + 86_400 && now <= after.validTime + 86_400
  {
    UpdateReplaces(h, now, slotHash);
  }

  /** In a day's last five minutes an update announces tomorrow's hash, and today's stays valid. */
  lemma {:induction false} LastFiveMinutesAnnounce(h: Hashes, now: int, slotHash: Hash)
    requires h.validTime >= 0 && h.validTime % 86_400 == 0
    requires h.announcedTime == h.validTime - 300
    requires h.validTime + 86_100 < now <= h.validTime + 86_400
    ensures Update(h, now, slotHash) == Hashes(slotHash, h.validTime + 86_100, h.valid, h.validTime)
  {
    UpdateReplaces(h, now, slotHash);
    NormalizeIsMidnight(now + 300, h.validTime + 86_400);
  }

  /** The next update, if it comes the next day and before its last five minutes, makes that hash valid and keeps it. */
  lemma {:induction false} NextDayAdopts(h: Hashes, now: int, slotHash: Hash)
    requires h.validTime >= 0 && h.validTime % 86_400 == 0
    requires h.announcedTime == h.validTime + 86_100
    requires h.validTime + 86_400 < now <= h.validTime + 172_500
    ensures Update(h, now, slotHash) == Hashes(h.announced, h.announcedTime, h.announced, h.validTime + 86_400)
  {
    UpdateReplaces(h, now, slotHash);
    NormalizeIsMidnight(now, h.validTime + 86_400);
  }

  // ----- runs of updates

  datatype Announcement = Announcement(stamp: int, hash: Hash)

  /** The hashes, all announcements in order, which of them each switch-over made valid, and for which midnight. */
  datatype Chronicle = Chronicle(
    hashes: Hashes,
    announcements: seq<Announcement>,
    adopted: seq<nat>,
    validTimes: seq<int>)

  datatype Tick = Tick(now: int, slotHash: Hash)

  const BLANK: Chronicle := Chronicle(FRESH, [], [], [])

  /** Nothing announced and nothing adopted yet. */
  predicate IsBlank(c: Chronicle) {
    && |c.announcements| == 0 && |c.adopted| == 0 && |c.validTimes| == 0
    && c.hashes.announcedTime == 0 && c.hashes.validTime == 0
  }

  function Advance(c: Chronicle, tick: Tick): Chronicle {
    var announcements :=
      if AnnouncedStale(c.hashes, tick.now) then
        c.announcements + [Announcement(AnnouncementStamp(tick.now), tick.slotHash)]
      else c.announcements;
    var after := Update(c.hashes, tick.now, tick.slotHash);
    if ValidStale(c.hashes, tick.now) && |announcements| > 0 then
      Chronicle(after, announcements, c.adopted + [|announcements| - 1], c.validTimes + [after.validTime])
    else Chronicle(after, announcements, c.adopted, c.validTimes)
  }

  function After(ticks: seq<Tick>): Chronicle {
    if |ticks| == 0 then BLANK else Advance(After(ticks[..|ticks| - 1]), ticks[|ticks| - 1])
  }

  ghost predicate Clocked(ticks: seq<Tick>) {
    && (forall i :: 0 <= i < |ticks| ==> ticks[i].now > SEC_PER_DAY)
    && (forall i, j :: 0 <= i < j < |ticks| ==> ticks[i].now <= ticks[j].now)
  }

  function Last<T>(s: seq<T>): T
    requires |s| > 0
  {
    s[|s| - 1]
  }

  /** Every announcement has its own stamp, five minutes before some midnight, and the stamps rise. */
  ghost predicate Stamped(announcements: seq<Announcement>) {
    && (forall i :: 0 <= i < |announcements| ==>
          (announcements[i].stamp + ANNOUNCEMENT_INTERVAL) % SEC_PER_DAY == 0)
    && (forall i, j :: 0 <= i < j < |announcements| ==> announcements[i].stamp < announcements[j].stamp)
  }

  /** Adoption never goes back to an earlier announcement. */
  ghost predicate InOrder(adopted: seq<nat>, announcements: seq<Announcement>) {
    && (forall i :: 0 <= i < |adopted| ==> adopted[i] < |announcements|)
    && (forall i, j :: 0 <= i < j < |adopted| ==> adopted[i] <= adopted[j])
  }

  /** The announcement for the next midnight is already valid today. */
  predicate Early(c: Chronicle, i: nat)
    requires i < |c.adopted| == |c.validTimes| && c.adopted[i] < |c.announcements|
  {
    c.announcements[c.adopted[i]].stamp == c.validTimes[i] + SEC_PER_DAY - ANNOUNCEMENT_INTERVAL
  }

  /** Each switch-over has its own midnight, later ones later, and takes the announcement for it or the one after. */
  ghost predicate InTime(c: Chronicle) {
    && |c.validTimes| == |c.adopted|
    && (forall i :: 0 <= i < |c.adopted| ==>
          && c.adopted[i] < |c.announcements|
          && (c.announcements[c.adopted[i]].stamp == c.validTimes[i] - ANNOUNCEMENT_INTERVAL || Early(c, i)))
    && (forall i, j :: 0 <= i < j < |c.validTimes| ==> c.validTimes[i] < c.validTimes[j])
    && (|c.validTimes| > 0 ==> Last(c.validTimes) == c.hashes.validTime)
  }

  ghost predicate Consistent(c: Chronicle) {
    && TwoPhase(c.hashes)
    && Stamped(c.announcements) && InOrder(c.adopted, c.announcements) && InTime(c)
    && |c.announcements| > 0 && |c.adopted| > 0
    && Last(c.announcements) == Announcement(c.hashes.announcedTime, c.hashes.announced)
    && AdoptedFrom(c.hashes, c.announcements[Last(c.adopted)])
  }

  /** The valid hash was announced for the midnight it became valid or, in a day's last five minutes, for the next. */
  predicate AdoptedFrom(h: Hashes, source: Announcement) {
    && h.valid == source.hash
    && (|| source.stamp == h.validTime - ANNOUNCEMENT_INTERVAL
        || source.stamp == h.validTime + SEC_PER_DAY - ANNOUNCEMENT_INTERVAL)
  }

  lemma {:induction false} NewStampIsLater(h: Hashes, now: int)
    requires now > SEC_PER_DAY && AnnouncedStale(h, now)
    ensures h.announcedTime < AnnouncementStamp(now)
    ensures (AnnouncementStamp(now) + ANNOUNCEMENT_INTERVAL) % SEC_PER_DAY == 0
  {
    NormalizeBounds(now + ANNOUNCEMENT_INTERVAL);
  }

  lemma {:induction false} StampedExtends(announcements: seq<Announcement>, next: Announcement)
    requires Stamped(announcements)
    requires |announcements| > 0 ==> Last(announcements).stamp < next.stamp
    requires (next.stamp + ANNOUNCEMENT_INTERVAL) % SEC_PER_DAY == 0
    ensures Stamped(announcements + [next])
  {
    var all := announcements + [next];
    forall i, j | 0 <= i < j < |all|
      ensures all[i].stamp < all[j].stamp
    {
      if j == |announcements| {
        assert all[i].stamp <= Last(announcements).stamp;
      }
    }
  }

  lemma {:induction false} AnnouncingKeepsStamped(c: Chronicle, tick: Tick)
    requires tick.now > SEC_PER_DAY
    requires Stamped(c.announcements)
    requires |c.announcements| > 0 ==> Last(c.announcements).stamp == c.hashes.announcedTime
    ensures Stamped(Advance(c, tick).announcements)
    ensures c.announcements <= Advance(c, tick).announcements
  {
    if AnnouncedStale(c.hashes, tick.now) {
      NewStampIsLater(c.hashes, tick.now);
      StampedExtends(c.announcements, Announcement(AnnouncementStamp(tick.now), tick.slotHash));
    }
  }

  lemma {:induction false} AdoptingKeepsOrder(c: Chronicle, tick: Tick)
    requires InOrder(c.adopted, c.announcements)
    ensures InOrder(Advance(c, tick).adopted, Advance(c, tick).announcements)
    ensures |c.adopted| > 0 ==> Last(c.adopted) <= Last(Advance(c, tick).adopted)
  {
    assert InOrder(c.adopted, Advance(c, tick).announcements);
  }

  /** Announcements after those adopted change nothing. */
  lemma {:induction false} AnnouncingKeepsInTime(c: Chronicle, after: Chronicle)
    requires InTime(c) && c.announcements <= after.announcements
    requires after.adopted == c.adopted && after.validTimes == c.validTimes
    requires after.hashes.validTime == c.hashes.validTime
    ensures InTime(after)
  {
    assert forall k :: 0 <= k < |c.announcements| ==> after.announcements[k] == c.announcements[k];
    assert forall i :: 0 <= i < |c.adopted| ==> Early(after, i) == Early(c, i);
  }

  /** One more switch-over. */
  lemma {:induction false} AdoptingKeepsInTime(c: Chronicle, after: Chronicle, last: nat, validTime: int)
    requires InTime(c) && after.announcements == c.announcements && last < |c.announcements|
    requires after.adopted == c.adopted + [last] && after.validTimes == c.validTimes + [validTime]
    requires after.hashes.validTime == validTime
    requires |c.validTimes| > 0 ==> c.hashes.validTime < validTime
    requires var stamp := c.announcements[last].stamp;
             stamp == validTime - ANNOUNCEMENT_INTERVAL || stamp == validTime + SEC_PER_DAY - ANNOUNCEMENT_INTERVAL
    ensures InTime(after)
  {
    assert forall i :: 0 <= i < |c.adopted| ==> Early(after, i) == Early(c, i);
    assert forall i :: 0 <= i < |c.validTimes| ==> c.validTimes[i] <= Last(c.validTimes);
  }

  lemma {:induction false} AdvanceKeepsInTime(c: Chronicle, tick: Tick)
    requires tick.now > SEC_PER_DAY && Reached(c.hashes, tick.now)
    requires InTime(c)
    requires var after := Advance(c, tick);
             && TwoPhase(after.hashes) && |after.announcements| > 0
             && Last(after.announcements).stamp == after.hashes.announcedTime
    ensures InTime(Advance(c, tick))
  {
    var after := Advance(c, tick);
    var announced := c.(announcements := after.announcements);
    AnnouncingKeepsInTime(c, announced);
    if ValidStale(c.hashes, tick.now) {
      NewValidTimeIsLater(c.hashes, tick.now);
      AdoptingKeepsInTime(announced, after, |after.announcements| - 1, after.hashes.validTime);
    } else {
      AnnouncingKeepsInTime(announced, after);
    }
  }

  lemma {:induction false} NewValidTimeIsLater(h: Hashes, now: int)
    requires now > SEC_PER_DAY && ValidStale(h, now)
    ensures NormalizeTime(now) > h.validTime
  {
    NormalizeBounds(now);
  }

  lemma {:induction false} AnnouncedLast(c: Chronicle, tick: Tick)
    requires tick.now > SEC_PER_DAY
    requires IsBlank(c) || Consistent(c)
    ensures var after := Advance(c, tick);
            |after.announcements| > 0
            && Last(after.announcements) == Announcement(after.hashes.announcedTime, after.hashes.announced)
  {
  }

  lemma {:induction false} BlankOrConsistent(c: Chronicle)
    requires IsBlank(c) || Consistent(c)
    ensures Stamped(c.announcements) && InOrder(c.adopted, c.announcements) && InTime(c)
    ensures |c.announcements| > 0 ==> Last(c.announcements).stamp == c.hashes.announcedTime
  {
  }

  /** What is valid after an update is what was adopted last. */
  lemma {:induction false} AdvanceKeepsSource(c: Chronicle, tick: Tick)
    requires tick.now > SEC_PER_DAY && Reached(c.hashes, tick.now)
    requires IsBlank(c) || Consistent(c)
    ensures var after := Advance(c, tick);
            && TwoPhase(after.hashes) && |after.announcements| > 0 && |after.adopted| > 0
            && Last(after.announcements) == Announcement(after.hashes.announcedTime, after.hashes.announced)
            && Last(after.adopted) < |after.announcements|
            && AdoptedFrom(after.hashes, after.announcements[Last(after.adopted)])
  {
    UpdateMakesTwoPhase(c.hashes, tick.now, tick.slotHash);
    AnnouncedLast(c, tick);
  }

  lemma {:induction false} AdvanceIsCurrent(c: Chronicle, tick: Tick)
    requires tick.now > SEC_PER_DAY && Reached(c.hashes, tick.now)
    ensures var h := Advance(c, tick).hashes;
            TwoPhase(h) && Reached(h, tick.now) && Current(h, tick.now)
  {
    UpdateMakesTwoPhase(c.hashes, tick.now, tick.slotHash);
  }

  lemma {:induction false} AdvanceExtends(c: Chronicle, tick: Tick)
    requires tick.now > SEC_PER_DAY
    requires IsBlank(c) || Consistent(c)
    ensures var after := Advance(c, tick);
            && Stamped(after.announcements) && InOrder(after.adopted, after.announcements)
            && c.announcements <= after.announcements
            && (|c.adopted| > 0 ==> Last(c.adopted) <= Last(after.adopted))
  {
    BlankOrConsistent(c);
    AnnouncingKeepsStamped(c, tick);
    AdoptingKeepsOrder(c, tick);
  }

  lemma {:induction false} AdvanceStaysInTime(c: Chronicle, tick: Tick)
    requires tick.now > SEC_PER_DAY && Reached(c.hashes, tick.now)
    requires IsBlank(c) || Consistent(c)
    ensures InTime(Advance(c, tick))
  {
    BlankOrConsistent(c);
    AdvanceKeepsSource(c, tick);
    AdvanceKeepsInTime(c, tick);
  }

  lemma {:induction false} AdvanceKeepsConsistent(c: Chronicle, tick: Tick)
    requires tick.now > SEC_PER_DAY && Reached(c.hashes, tick.now)
    requires IsBlank(c) || Consistent(c)
    ensures Consistent(Advance(c, tick)) && Current(Advance(c, tick).hashes, tick.now)
    ensures Reached(Advance(c, tick).hashes, tick.now)
    ensures c.announcements <= Advance(c, tick).announcements
    ensures |c.adopted| > 0 ==> Last(c.adopted) <= Last(Advance(c, tick).adopted)
  {
    AdvanceIsCurrent(c, tick);
    AdvanceExtends(c, tick);
    AdvanceKeepsSource(c, tick);
    AdvanceStaysInTime(c, tick);
  }

  /** In every run of updates the two hashes stay in step, and every announcement and adoption is in order. */
  lemma {:induction false} RunIsConsistent(ticks: seq<Tick>)
    requires |ticks| > 0 && Clocked(ticks)
    ensures Consistent(After(ticks)) && Reached(After(ticks).hashes, Last(ticks).now)
    ensures Current(After(ticks).hashes, Last(ticks).now)
  {
    var init := ticks[..|ticks| - 1];
    if |init| > 0 {
      assert Clocked(init);
      RunIsConsistent(init);
      assert Last(init).now <= Last(ticks).now;
    }
    AdvanceKeepsConsistent(After(init), Last(ticks));
  }

  lemma {:induction false} RunExtends(ticks: seq<Tick>, n: nat)
    requires Clocked(ticks) && 0 < n <= |ticks|
    ensures After(ticks[..n]).announcements <= After(ticks).announcements
    ensures |After(ticks[..n]).adopted| > 0 && |After(ticks).adopted| > 0
    ensures Last(After(ticks[..n]).adopted) <= Last(After(ticks).adopted)
  {
    if n == |ticks| {
      assert ticks[..n] == ticks;
      RunIsConsistent(ticks);
    } else {
      var init := ticks[..|ticks| - 1];
      assert Clocked(init) && init[..n] == ticks[..n];
      RunExtends(init, n);
      RunIsConsistent(init);
      assert Last(init).now <= Last(ticks).now;
      AdvanceKeepsConsistent(After(init), Last(ticks));
    }
  }

  /**
   * Exactly when two switch-overs take the same announcement: they are on consecutive days, and the first took early
   * what the second took in time.
   */
  lemma {:induction false} AdoptedTwiceIff(c: Chronicle, i: nat, j: nat)
    requires Consistent(c) && i < j < |c.adopted|
    ensures c.adopted[i] == c.adopted[j]
            <==> && Early(c, i) && !Early(c, j)
                 && c.validTimes[j] == c.validTimes[i] + SEC_PER_DAY
  {
    var first, second := c.adopted[i], c.adopted[j];
    assert first <= second;
    assert first < second ==> c.announcements[first].stamp < c.announcements[second].stamp;
  }

  /** No announcement is adopted three times. */
  lemma {:induction false} AdoptedAtMostTwice(c: Chronicle, i: nat, j: nat, k: nat)
    requires Consistent(c) && i < j < k < |c.adopted|
    ensures !(c.adopted[i] == c.adopted[j] == c.adopted[k])
  {
    AdoptedTwiceIff(c, i, j);
    AdoptedTwiceIff(c, j, k);
  }

  /** A switch-over is early exactly when it announces, too, and in the last five minutes of a day. */
  lemma {:induction false} AdoptsEarlyIff(h: Hashes, now: int, slotHash: Hash)
    requires now > SEC_PER_DAY && Reached(h, now) && ValidStale(h, now)
    ensures var after := Update(h, now, slotHash);
            after.announcedTime == after.validTime + SEC_PER_DAY - ANNOUNCEMENT_INTERVAL
            <==> && AnnouncedStale(h, now)
                 && now >= NormalizeTime(now) + SEC_PER_DAY - ANNOUNCEMENT_INTERVAL
  {
    NormalizeBounds(now);
    NormalizeBounds(now + ANNOUNCEMENT_INTERVAL);
    var day := h.validTime / SEC_PER_DAY;
    MidnightsAreApart(day + 1, Day(now));
    MidnightsAreApart(day + 2, Day(now));
    MidnightsAreApart(Day(now), Day(now + ANNOUNCEMENT_INTERVAL));
    MidnightsAreApart(Day(now) + 1, Day(now + ANNOUNCEMENT_INTERVAL));
  }

  ghost predicate DistinctHashes(announcements: seq<Announcement>) {
    forall i, j :: 0 <= i < j < |announcements| ==> announcements[i].hash != announcements[j].hash
  }

  /** As long as no slot hash is announced twice, a valid hash that was replaced never comes back. */
  lemma {:induction false} ValidHashNeverReturns(ticks: seq<Tick>, i: nat, j: nat)
    requires Clocked(ticks) && 0 < i <= j <= |ticks|
    requires DistinctHashes(After(ticks).announcements)
    requires After(ticks[..i]).hashes.valid == After(ticks).hashes.valid
    ensures After(ticks[..j]).hashes.valid == After(ticks).hashes.valid
  {
    var early, middle := ticks[..i], ticks[..j];
    assert Clocked(early) && Clocked(middle) && middle[..i] == early;
    RunExtends(ticks, i);
    RunExtends(ticks, j);
    RunExtends(middle, i);
    ValidIsAdopted(early);
    ValidIsAdopted(middle);
    ValidIsAdopted(ticks);
    var all := After(ticks).announcements;
    assert all[Last(After(early).adopted)].hash == all[Last(After(ticks).adopted)].hash;
  }

  lemma {:induction false} ValidIsAdopted(ticks: seq<Tick>)
    requires |ticks| > 0 && Clocked(ticks)
    ensures var c := After(ticks);
            && |c.adopted| > 0 && Last(c.adopted) < |c.announcements|
            && c.hashes.valid == c.announcements[Last(c.adopted)].hash
  {
    RunIsConsistent(ticks);
  }
}

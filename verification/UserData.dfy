/** A user's data account as raw bytes (comptoken-utils/src/user_data.rs). */
module UserData {
  import opened Bytes
  import opened Clock
  import opened Options

  const HASH_BYTES: nat := 32
  const USER_DATA_MIN_SIZE: nat := 88
  const MAX_PERMITTED_DATA_INCREASE: nat := 10_240

  // The fields of the C layout.
  const DATE_AT: nat := 0
  const VERIFIED_AT: nat := 8
  const LENGTH_AT: nat := 16
  const RECENT_AT: nat := 24
  const PROOFS_AT: nat := 56

  /** What the bytes mean; the proofs are the first `length` slots. */
  datatype Record = Record(
    lastPayout: int,
    verified: bool,
    recentBlockhash: Hash,
    proofs: seq<Hash>,
    capacity: nat)

  // ----- the operations on what the bytes mean

  /** update: a new blockhash empties the store. */
  function Refreshed(r: Record, blockhash: Hash): Record {
    if r.recentBlockhash != blockhash then r.(recentBlockhash := blockhash, proofs := []) else r
  }

  /** insert: None when the proof is already stored or no slot is free. */
  function Inserted(r: Record, proof: Hash, blockhash: Hash): Option<Record> {
    var r1 := Refreshed(r, blockhash);
    if proof in r1.proofs || |r1.proofs| >= r1.capacity then None
    else Some(r1.(proofs := r1.proofs + [proof]))
  }

  predicate ValidSize(size: nat) {
    size >= USER_DATA_MIN_SIZE && (size - USER_DATA_MIN_SIZE) % HASH_BYTES == 0
  }

  function Capacity(size: nat): nat
    requires size >= USER_DATA_MIN_SIZE
  {
    (size - USER_DATA_MIN_SIZE) / HASH_BYTES + 1
  }

  /** The slots fill the account to its last byte. */
  lemma {:induction false} CapacityFillsTheAccount(size: nat)
    requires ValidSize(size)
    ensures PROOFS_AT + HASH_BYTES * Capacity(size) == size
  {
  }

  // ----- reading the bytes

  function SignedI64(v: nat): int {
    if v < 0x8000_0000_0000_0000 then v else v - U64_RANGE
  }

  /** The stored length, a usize. */
  function StoredLength(b: seq<byte>): nat
    requires |b| >= USER_DATA_MIN_SIZE
  {
    LittleEndianValue(b[LENGTH_AT..RECENT_AT])
  }

  function Slot(b: seq<byte>, i: nat): Hash
    requires PROOFS_AT + HASH_BYTES * (i + 1) <= |b|
  {
    b[PROOFS_AT + HASH_BYTES * i..PROOFS_AT + HASH_BYTES * (i + 1)]
  }

  /** try_from accepts the bytes: the size fits the layout and the length fits the slots. */
  predicate Accepted(b: seq<byte>) {
    ValidSize(|b|) && StoredLength(b) <= Capacity(|b|)
  }

  function Decoded(b: seq<byte>): Record
    requires Accepted(b)
  {
    Record(SignedI64(LittleEndianValue(b[DATE_AT..VERIFIED_AT])), b[VERIFIED_AT] == 1, b[RECENT_AT..PROOFS_AT],
           Slots(b, StoredLength(b)), Capacity(|b|))
  }

  function Slots(b: seq<byte>, n: nat): (slots: seq<Hash>)
    requires ValidSize(|b|) && n <= Capacity(|b|)
    ensures |slots| == n
    ensures forall i {:trigger slots[i]} :: 0 <= i < n ==>
              PROOFS_AT + HASH_BYTES * (i + 1) <= |b| && slots[i] == Slot(b, i)
  {
    CapacityFillsTheAccount(|b|);
    if n == 0 then [] else Slots(b, n - 1) + [Slot(b, n - 1)]
  }

  lemma {:induction false} LastPayoutIsI64(b: seq<byte>)
    requires Accepted(b)
    ensures IsI64(Decoded(b).lastPayout)
  {
    U64Bytes();
    LittleEndianBound(b[DATE_AT..VERIFIED_AT]);
  }

  /** The layout in bytes: which sizes and lengths are accepted, and where each field lies. */
  lemma {:induction false} LayoutIs(b: seq<byte>)
    ensures Accepted(b)
            <==> && |b| >= 88 && (|b| - 88) % 32 == 0
                 && LittleEndianValue(b[16..24]) <= (|b| - 88) / 32 + 1
    ensures Accepted(b) ==>
              var r := Decoded(b);
              && r.lastPayout % 0x1_0000_0000_0000_0000 == LittleEndianValue(b[0..8])
              && -0x8000_0000_0000_0000 <= r.lastPayout < 0x8000_0000_0000_0000
              && (r.verified <==> b[8] == 1)
              && r.recentBlockhash == b[24..56]
              && r.capacity == (|b| - 88) / 32 + 1
              && |r.proofs| == LittleEndianValue(b[16..24])
              && forall i :: 0 <= i < |r.proofs| ==>
                   56 + 32 * i + 32 <= |b| && r.proofs[i] == b[56 + 32 * i..56 + 32 * i + 32]
  {
    if Accepted(b) {
      LastPayoutIsI64(b);
      U64Bytes();
      LittleEndianBound(b[DATE_AT..VERIFIED_AT]);
      forall i | 0 <= i < |Decoded(b).proofs|
        ensures 56 + 32 * i + 32 <= |b| && Decoded(b).proofs[i] == b[56 + 32 * i..56 + 32 * i + 32]
      {
        assert Decoded(b).proofs[i] == Slot(b, i);
      }
    }
  }

  // ----- writing the bytes

  /** Bytes outside x keep their place, so any field the write does not touch reads the same. */
  lemma {:induction false} SpliceLeaves(b: seq<byte>, at: nat, x: seq<byte>, from: nat, to: nat)
    requires at + |x| <= |b| && from <= to <= |b|
    requires to <= at || at + |x| <= from
    ensures Splice(b, at, x)[from..to] == b[from..to]
  {
  }

  /** A write below the proof slots leaves every slot. */
  lemma {:induction false} HeaderWriteLeavesSlots(b: seq<byte>, at: nat, x: seq<byte>, n: nat)
    requires ValidSize(|b|) && n <= Capacity(|b|)
    requires at + |x| <= PROOFS_AT
    ensures Slots(Splice(b, at, x), n) == Slots(b, n)
  {
    CapacityFillsTheAccount(|b|);
    var s := Splice(b, at, x);
    forall i | 0 <= i < n
      ensures Slots(s, n)[i] == Slots(b, n)[i]
    {
      assert Slot(s, i) == Slot(b, i);
    }
  }

  lemma {:induction false} SlotWrite(b: seq<byte>, n: nat, x: Hash)
    requires ValidSize(|b|) && n < Capacity(|b|)
    ensures PROOFS_AT + HASH_BYTES * (n + 1) <= |b|
    ensures Slots(Splice(b, PROOFS_AT + HASH_BYTES * n, x), n + 1) == Slots(b, n) + [x]
  {
    CapacityFillsTheAccount(|b|);
    var s := Splice(b, PROOFS_AT + HASH_BYTES * n, x);
    forall i | 0 <= i < n
      ensures Slots(s, n)[i] == Slots(b, n)[i]
    {
      assert Slot(s, i) == Slot(b, i);
    }
    assert Slot(s, n) == x;
  }

  function WithLength(b: seq<byte>, n: nat): seq<byte>
    requires |b| >= USER_DATA_MIN_SIZE
  {
    Splice(b, LENGTH_AT, LittleEndian(n, 8))
  }

  lemma {:induction false} WithLengthMeans(b: seq<byte>, n: nat)
    requires Accepted(b) && n <= Capacity(|b|) < U64_RANGE
    ensures var b1 := WithLength(b, n);
            Accepted(b1) && Decoded(b1) == Decoded(b).(proofs := Slots(b, n))
  {
    U64Bytes();
    LittleEndianRoundTrip(n, 8);
    var b1 := WithLength(b, n);
    SpliceLeaves(b, LENGTH_AT, LittleEndian(n, 8), DATE_AT, VERIFIED_AT);
    SpliceLeaves(b, LENGTH_AT, LittleEndian(n, 8), RECENT_AT, PROOFS_AT);
    HeaderWriteLeavesSlots(b, LENGTH_AT, LittleEndian(n, 8), n);
    assert b1[LENGTH_AT..RECENT_AT] == LittleEndian(n, 8);
  }

  lemma {:induction false} WithRecentMeans(b: seq<byte>, blockhash: Hash)
    requires Accepted(b)
    ensures var b1 := Splice(b, RECENT_AT, blockhash);
            Accepted(b1) && Decoded(b1) == Decoded(b).(recentBlockhash := blockhash)
  {
    var b1 := Splice(b, RECENT_AT, blockhash);
    SpliceLeaves(b, RECENT_AT, blockhash, DATE_AT, VERIFIED_AT);
    SpliceLeaves(b, RECENT_AT, blockhash, LENGTH_AT, RECENT_AT);
    HeaderWriteLeavesSlots(b, RECENT_AT, blockhash, StoredLength(b));
    assert b1[RECENT_AT..PROOFS_AT] == blockhash;
  }

  lemma {:induction false} WithSlotMeans(b: seq<byte>, i: nat, x: Hash)
    requires Accepted(b) && StoredLength(b) <= i < Capacity(|b|)
    ensures PROOFS_AT + HASH_BYTES * (i + 1) <= |b|
    ensures var b1 := Splice(b, PROOFS_AT + HASH_BYTES * i, x);
            Accepted(b1) && Decoded(b1) == Decoded(b)
  {
    CapacityFillsTheAccount(|b|);
    var at := PROOFS_AT + HASH_BYTES * i;
    var b1 := Splice(b, at, x);
    SpliceLeaves(b, at, x, DATE_AT, VERIFIED_AT);
    SpliceLeaves(b, at, x, LENGTH_AT, RECENT_AT);
    SpliceLeaves(b, at, x, RECENT_AT, PROOFS_AT);
    forall j | 0 <= j < StoredLength(b)
      ensures Slots(b1, StoredLength(b))[j] == Slots(b, StoredLength(b))[j]
    {
      assert Slot(b1, j) == Slot(b, j);
    }
  }

  /** Slot n written, then the slots up to it counted. */
  function WithSlotAndLength(b: seq<byte>, n: nat, proof: Hash): (r: seq<byte>)
    requires USER_DATA_MIN_SIZE <= |b| && PROOFS_AT + HASH_BYTES * (n + 1) <= |b|
    ensures |r| == |b|
  {
    WithLength(Splice(b, PROOFS_AT + HASH_BYTES * n, proof), n + 1)
  }

  /** The next slot written, then counted. */
  function PushedBytes(b: seq<byte>, proof: Hash): (r: seq<byte>)
    requires Accepted(b) && StoredLength(b) < Capacity(|b|)
    ensures |r| == |b|
  {
    CapacityFillsTheAccount(|b|);
    WithSlotAndLength(b, StoredLength(b), proof)
  }

  lemma {:induction false} PushedMeans(b: seq<byte>, proof: Hash)
    requires Accepted(b) && StoredLength(b) < Capacity(|b|) && |b| < U64_RANGE
    ensures Accepted(PushedBytes(b, proof))
    ensures Decoded(PushedBytes(b, proof)) == Decoded(b).(proofs := Decoded(b).proofs + [proof])
  {
    var n := StoredLength(b);
    WithSlotMeans(b, n, proof);
    SlotWrite(b, n, proof);
    WithLengthMeans(Splice(b, PROOFS_AT + HASH_BYTES * n, proof), n + 1);
  }

  /** Only the length and the 32 bytes of the slot change. */
  lemma {:induction false} PushedFrame(b: seq<byte>, proof: Hash)
    requires Accepted(b) && StoredLength(b) < Capacity(|b|)
    ensures var at := PROOFS_AT + HASH_BYTES * StoredLength(b);
            forall i :: 0 <= i < |b| && !(LENGTH_AT <= i < RECENT_AT) && !(at <= i < at + HASH_BYTES)
                        ==> PushedBytes(b, proof)[i] == b[i]
  {
    CapacityFillsTheAccount(|b|);
    var written := Splice(b, PROOFS_AT + HASH_BYTES * StoredLength(b), proof);
    assert forall i :: 0 <= i < |b| && !(LENGTH_AT <= i < RECENT_AT) ==> PushedBytes(b, proof)[i] == written[i];
  }

  /** The bytes of a date: a normalised time is within the range of an i64. */
  predicate IsI64(t: int) {
    -0x8000_0000_0000_0000 <= t < 0x8000_0000_0000_0000
  }

  function DateBytes(t: int): seq<byte>
    requires IsI64(t)
    ensures |DateBytes(t)| == 8
  {
    LittleEndian(if t >= 0 then t else t + U64_RANGE, 8)
  }

  lemma {:induction false} WithDateMeans(b: seq<byte>, t: int)
    requires Accepted(b) && IsI64(t)
    ensures var b1 := Splice(b, DATE_AT, DateBytes(t));
            Accepted(b1) && Decoded(b1) == Decoded(b).(lastPayout := t)
  {
    U64Bytes();
    LittleEndianRoundTrip(if t >= 0 then t else t + U64_RANGE, 8);
    var b1 := Splice(b, DATE_AT, DateBytes(t));
    SpliceLeaves(b, DATE_AT, DateBytes(t), LENGTH_AT, RECENT_AT);
    SpliceLeaves(b, DATE_AT, DateBytes(t), RECENT_AT, PROOFS_AT);
    HeaderWriteLeavesSlots(b, DATE_AT, DateBytes(t), StoredLength(b));
    assert b1[DATE_AT..VERIFIED_AT] == DateBytes(t);
  }

  lemma {:induction false} WithVerifiedMeans(b: seq<byte>, flag: byte)
    requires Accepted(b)
    ensures var b1 := Splice(b, VERIFIED_AT, [flag]);
            Accepted(b1) && Decoded(b1) == Decoded(b).(verified := flag == 1)
  {
    SpliceLeaves(b, VERIFIED_AT, [flag], DATE_AT, VERIFIED_AT);
    SpliceLeaves(b, VERIFIED_AT, [flag], LENGTH_AT, RECENT_AT);
    SpliceLeaves(b, VERIFIED_AT, [flag], RECENT_AT, PROOFS_AT);
    HeaderWriteLeavesSlots(b, VERIFIED_AT, [flag], StoredLength(b));
  }

  /** Growing the account by whole slots keeps every stored proof, whatever the new bytes hold. */
  lemma {:induction false} GrowthMeans(b: seq<byte>, tail: seq<byte>)
    requires Accepted(b) && ValidSize(|b + tail|)
    ensures Accepted(b + tail)
    ensures Decoded(b + tail) == Decoded(b).(capacity := Capacity(|b + tail|))
    ensures Capacity(|b|) <= Capacity(|b + tail|)
  {
    CapacityFillsTheAccount(|b|);
    CapacityFillsTheAccount(|b + tail|);
    var all := b + tail;
    assert all[DATE_AT..VERIFIED_AT] == b[DATE_AT..VERIFIED_AT];
    assert all[LENGTH_AT..RECENT_AT] == b[LENGTH_AT..RECENT_AT];
    assert all[RECENT_AT..PROOFS_AT] == b[RECENT_AT..PROOFS_AT];
    forall j | 0 <= j < StoredLength(b)
      ensures Slots(all, StoredLength(b))[j] == Slots(b, StoredLength(b))[j]
    {
      assert Slot(all, j) == Slot(b, j);
    }
  }

  // ----- the store is a set

  ghost predicate WellFormed(r: Record) {
    && |r.proofs| <= r.capacity
    && forall i, j :: 0 <= i < j < |r.proofs| ==> r.proofs[i] != r.proofs[j]
  }

  /** The set a record stands for: the proofs already used with a blockhash. */
  function UsedWith(r: Record, blockhash: Hash): set<Hash> {
    if r.recentBlockhash == blockhash then set p | p in r.proofs else {}
  }

  lemma {:induction false} UsedAfterRefresh(r: Record, blockhash: Hash)
    requires WellFormed(r)
    ensures var r1 := Refreshed(r, blockhash);
            WellFormed(r1) && UsedWith(r, blockhash) == UsedWith(r1, blockhash)
            && |UsedWith(r, blockhash)| == |r1.proofs|
  {
    DistinctCount(Refreshed(r, blockhash).proofs);
  }

  /**
   * insert is set insertion, after a reset when the blockhash is new: it succeeds exactly when the proof is not used
   * with the blockhash and a slot is free once the proofs of other blockhashes are dropped.
   */
  lemma {:induction false} InsertSucceedsIff(r: Record, proof: Hash, blockhash: Hash)
    requires WellFormed(r)
    ensures Inserted(r, proof, blockhash).Some?
            <==> proof !in UsedWith(r, blockhash) && |UsedWith(r, blockhash)| < r.capacity
  {
    UsedAfterRefresh(r, blockhash);
  }

  lemma {:induction false} InsertAddsOneProof(r: Record, proof: Hash, blockhash: Hash)
    requires WellFormed(r) && Inserted(r, proof, blockhash).Some?
    ensures var after := Inserted(r, proof, blockhash).value;
            && WellFormed(after)
            && UsedWith(after, blockhash) == UsedWith(r, blockhash) + {proof}
            && after.capacity == r.capacity && after.lastPayout == r.lastPayout && after.verified == r.verified
    ensures forall other: Hash :: other != blockhash ==> UsedWith(Inserted(r, proof, blockhash).value, other) == {}
  {
    UsedAfterRefresh(r, blockhash);
    var before := Refreshed(r, blockhash).proofs;
    var after := Inserted(r, proof, blockhash).value.proofs;
    assert forall p :: p in after <==> p in before || p == proof;
  }

  lemma {:induction false} DistinctCount(s: seq<Hash>)
    requires forall i, j :: 0 <= i < j < |s| ==> s[i] != s[j]
    ensures |set p | p in s| == |s|
  {
    if |s| > 0 {
      var init, last := s[..|s| - 1], s[|s| - 1];
      DistinctCount(init);
      assert (set p | p in s) == (set p | p in init) + {last};
    }
  }

  // ----- the account

  class UserDataAccount {
    var buf: array<byte>

    ghost predicate Valid()
      reads this, buf
    {
      Accepted(buf[..]) && buf.Length < U64_RANGE
    }

    ghost function View(): Record
      requires Valid()
      reads this, buf
    {
      Decoded(buf[..])
    }

    /** A zero-filled account of the given size, then initialize. */
    constructor Create(size: nat, now: int)
      requires ValidSize(size) && size < U64_RANGE && IsI64(NormalizeTime(now))
      ensures Valid() && fresh(buf)
      ensures View() == Record(NormalizeTime(now), false, ZERO_HASH, [], Capacity(size))
    {
      buf := new byte[size](_ => 0);
      new;
      ZeroBytesMean(buf[..]);
      Initialize(now);
    }

    /** The account data as the runtime hands them over. */
    constructor FromBytes(data: seq<byte>)
      requires Accepted(data) && |data| < U64_RANGE
      ensures Valid() && fresh(buf) && buf[..] == data
    {
      buf := new byte[|data|](i requires 0 <= i < |data| => data[i]);
      new;
      assert buf[..] == data;
    }

    /** try_from: an account only from bytes that fit the layout, with a length that fits the slots. */
    static method TryFrom(data: seq<byte>) returns (account: Option<UserDataAccount>)
      requires |data| < U64_RANGE
      ensures account.Some? <==> Accepted(data)
      ensures account.Some? ==>
                && account.value.Valid() && account.value.buf[..] == data
                && fresh(account.value) && fresh(account.value.buf)
    {
      if |data| < USER_DATA_MIN_SIZE || (|data| - USER_DATA_MIN_SIZE) % HASH_BYTES != 0 {
        return None;
      }
      var capacity := (|data| - USER_DATA_MIN_SIZE) / HASH_BYTES + 1;
      if StoredLength(data) > capacity {
        return None;
      }
      var result := new UserDataAccount.FromBytes(data);
      return Some(result);
    }

    method WriteAt(at: nat, x: seq<byte>)
      requires at + |x| <= buf.Length
      modifies buf
      ensures buf[..] == Splice(old(buf[..]), at, x)
    {
      for i := 0 to |x|
        invariant buf[at..at + i] == x[..i]
        invariant forall j :: 0 <= j < buf.Length && !(at <= j < at + i) ==> buf[j] == old(buf[j])
      {
        buf[at + i] := x[i];
        assert buf[at..at + i] == x[..i];
      }
      SpliceIs(old(buf[..]), at, x, buf[..]);
    }

    function Length(): nat
      requires buf.Length >= USER_DATA_MIN_SIZE
      reads this, buf
    {
      LittleEndianValue(buf[LENGTH_AT..RECENT_AT])
    }

    method Initialize(now: int)
      requires Valid() && IsI64(NormalizeTime(now))
      modifies buf
      ensures Valid()
      ensures View() == old(View()).(lastPayout := NormalizeTime(now), verified := false)
    {
      WithDateMeans(buf[..], NormalizeTime(now));
      WriteAt(DATE_AT, DateBytes(NormalizeTime(now)));
      WithVerifiedMeans(buf[..], 0);
      WriteAt(VERIFIED_AT, [0]);
    }

    method SetLastPayout(date: int)
      requires Valid() && IsI64(date)
      modifies buf
      ensures Valid()
      ensures View() == old(View()).(lastPayout := date)
    {
      WithDateMeans(buf[..], date);
      WriteAt(DATE_AT, DateBytes(date));
    }

    method Update(blockhash: Hash)
      requires Valid()
      modifies buf
      ensures Valid() && View() == Refreshed(old(View()), blockhash)
      ensures old(View()).recentBlockhash == blockhash ==> buf[..] == old(buf[..])
      ensures forall i :: 0 <= i < buf.Length && !(LENGTH_AT <= i < PROOFS_AT) ==> buf[i] == old(buf[i])
    {
      if buf[RECENT_AT..PROOFS_AT] != blockhash {
        WithRecentMeans(buf[..], blockhash);
        WriteAt(RECENT_AT, blockhash);
        WithLengthMeans(buf[..], 0);
        WriteAt(LENGTH_AT, LittleEndian(0, 8));
      }
    }

    method Contains(proof: Hash) returns (found: bool)
      requires Valid()
      ensures found <==> proof in View().proofs
    {
      var n := Length();
      assert n == |View().proofs|;
      var i := 0;
      while i < n
        invariant 0 <= i <= n
        invariant proof !in View().proofs[..i]
      {
        assert View().proofs[i] == Slot(buf[..], i);
        if Slot(buf[..], i) == proof {
          return true;
        }
        i := i + 1;
      }
      return false;
    }

    method WriteSlotAndLength(n: nat, proof: Hash)
      requires USER_DATA_MIN_SIZE <= buf.Length && PROOFS_AT + HASH_BYTES * (n + 1) <= buf.Length
      modifies buf
      ensures buf[..] == WithSlotAndLength(old(buf[..]), n, proof)
    {
      WriteAt(PROOFS_AT + HASH_BYTES * n, proof);
      WriteAt(LENGTH_AT, LittleEndian(n + 1, 8));
    }

    /** Writes the next slot, then counts it. */
    method Push(proof: Hash)
      requires Valid() && StoredLength(buf[..]) < Capacity(buf.Length)
      modifies buf
      ensures Valid() && buf[..] == PushedBytes(old(buf[..]), proof)
    {
      var n := Length();
      CapacityFillsTheAccount(buf.Length);
      PushedMeans(buf[..], proof);
      WriteSlotAndLength(n, proof);
    }

    /** In the order of the source: reset, check, write the slot, count it. A refused proof leaves the bytes alone. */
    method Insert(proof: Hash, blockhash: Hash) returns (ok: bool)
      requires Valid()
      modifies buf
      ensures Valid()
      ensures ok <==> Inserted(old(View()), proof, blockhash).Some?
      ensures ok ==> View() == Inserted(old(View()), proof, blockhash).value
      ensures !ok ==> buf[..] == old(buf[..])
      ensures ok ==> |View().proofs| > 0
                     && var at := PROOFS_AT + HASH_BYTES * (|View().proofs| - 1);
                        forall i :: 0 <= i < buf.Length && !(LENGTH_AT <= i < PROOFS_AT) && !(at <= i < at + HASH_BYTES)
                                    ==> buf[i] == old(buf[i])
    {
      Update(blockhash);
      var found := Contains(proof);
      var n := Length();
      if found || n >= Capacity(buf.Length) {
        return false;
      }
      PushedMeans(buf[..], proof);
      PushedFrame(buf[..], proof);
      Push(proof);
      return true;
    }

    predicate IsCurrent(now: int)
      requires buf.Length >= USER_DATA_MIN_SIZE
      reads this, buf
    {
      SignedI64(LittleEndianValue(buf[DATE_AT..VERIFIED_AT])) == NormalizeTime(now)
    }

    /** realloc without zeroing: the new tail holds arbitrary bytes. */
    method Grow(tail: seq<byte>)
      requires Valid() && ValidSize(buf.Length + |tail|) && buf.Length + |tail| < U64_RANGE
      modifies this
      ensures Valid() && fresh(buf)
      ensures buf[..] == old(buf[..]) + tail
      ensures View() == old(View()).(capacity := Capacity(buf.Length))
    {
      var old', size := buf, buf.Length;
      var grown := new byte[size + |tail|](i requires 0 <= i < size + |tail| reads old' =>
        if i < size then old'[i] else tail[i - size]);
      assert grown[..] == buf[..] + tail;
      GrowthMeans(buf[..], tail);
      buf := grown;
    }
  }

  lemma {:induction false} SpliceIs(b: seq<byte>, at: nat, x: seq<byte>, r: seq<byte>)
    requires at + |x| <= |b| == |r|
    requires r[at..at + |x|] == x
    requires forall j :: 0 <= j < |b| && !(at <= j < at + |x|) ==> r[j] == b[j]
    ensures r == Splice(b, at, x)
  {
    assert r == r[..at] + r[at..at + |x|] + r[at + |x|..];
  }

  lemma {:induction false} ZeroBytesMean(b: seq<byte>)
    requires ValidSize(|b|) && forall i :: 0 <= i < |b| ==> b[i] == 0
    ensures Accepted(b)
    ensures Decoded(b) == Record(0, false, ZERO_HASH, [], Capacity(|b|))
  {
    ZeroValue(b[LENGTH_AT..RECENT_AT]);
    ZeroValue(b[DATE_AT..VERIFIED_AT]);
    assert b[RECENT_AT..PROOFS_AT] == ZERO_HASH;
  }

  lemma {:induction false} ZeroValue(s: seq<byte>)
    requires forall i :: 0 <= i < |s| ==> s[i] == 0
    ensures LittleEndianValue(s) == 0
  {
    if |s| > 0 {
      ZeroValue(s[1..]);
    }
  }
}

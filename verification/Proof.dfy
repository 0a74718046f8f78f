/** Checking a submitted proof of work (comptoken/src/comptoken_proof.rs). */
module Proof {
  import opened Bytes
  import opened Blockhashes
  import opened Options

  /** SHA-256; the model needs only that it gives 32 bytes. */
  type Digest = seq<byte> -> Hash

  datatype ComptokenProof = ComptokenProof(pubkey: Hash, hash: Hash)

  const PAYLOAD_SIZE: nat := 76
  const HEADER_SIZE: nat := 80
  const NBITS: seq<byte> := [0xd8, 0xad, 0x0e, 0x18]

  // ----- the specification

  /** Hash of the hash of the unspecified data followed by the public key. */
  function MerkleRoot(data: seq<byte>, sha: Digest): Hash
    requires |data| == PAYLOAD_SIZE
  {
    sha(sha(data[32..64] + data[0..32]))
  }

  /** version, reversed blockhash, merkle root, timestamp, bits, nonce */
  function Header(data: seq<byte>, blockhash: Hash, sha: Digest): (header: seq<byte>)
    requires |data| == PAYLOAD_SIZE
    ensures |header| == HEADER_SIZE
  {
    data[68..72] + Reversed(blockhash) + MerkleRoot(data, sha) + data[72..76] + NBITS + data[64..68]
  }

  function ProofOf(data: seq<byte>, blockhash: Hash, sha: Digest): Option<ComptokenProof> {
    if |data| != PAYLOAD_SIZE then None
    else Some(ComptokenProof(data[0..32], Reversed(sha(sha(Header(data, blockhash, sha))))))
  }

  /** Three bytes and 29 zeros. */
  const TARGET: Hash := [0x0e, 0xad, 0xd8] + Zeros(29)

  predicate IsHashLowerThanTarget(hash: Hash) {
    LexLess(hash, TARGET)
  }

  predicate Verifies(proof: ComptokenProof, wallet: Hash, hashes: Hashes, now: int) {
    IsHashLowerThanTarget(proof.hash) && !ValidStale(hashes, now) && wallet == proof.pubkey
  }

  // ----- the program

  method CopyFromSlice(target: array<byte>, at: nat, slice: seq<byte>)
    requires at + |slice| <= target.Length
    modifies target
    ensures target[at..at + |slice|] == slice
    ensures forall i :: 0 <= i < target.Length && !(at <= i < at + |slice|) ==> target[i] == old(target[i])
  {
    for k := 0 to |slice|
      invariant forall i :: 0 <= i < k ==> target[at + i] == slice[i]
      invariant forall i :: 0 <= i < target.Length && !(at <= i < at + k) ==> target[i] == old(target[i])
    {
      target[at + k] := slice[k];
    }
  }

  method ReverseBytes(a: array<byte>)
    modifies a
    ensures a[..] == Reversed(old(a[..]))
  {
    var n := a.Length;
    for i := 0 to n / 2
      invariant forall k :: 0 <= k < i ==> a[k] == old(a[n - 1 - k]) && a[n - 1 - k] == old(a[k])
      invariant forall k :: i <= k < n - i ==> a[k] == old(a[k])
    {
      a[i], a[n - 1 - i] := a[n - 1 - i], a[i];
    }
  }

  method ReversedCopy(s: seq<byte>) returns (r: seq<byte>)
    ensures r == Reversed(s)
  {
    var a := new byte[|s|](i requires 0 <= i < |s| => s[i]);
    assert a[..] == s;
    ReverseBytes(a);
    r := a[..];
  }

  method FromBytes(data: seq<byte>, blockhash: Hash, sha: Digest) returns (result: Option<ComptokenProof>)
    ensures result == ProofOf(data, blockhash, sha)
    ensures |data| != 76 ==> result == None
    ensures |data| == 76 ==>
              result == Some(ComptokenProof(data[0..32], Reversed(sha(sha(
                data[68..72] + Reversed(blockhash) + sha(sha(data[32..64] + data[0..32]))
                + data[72..76] + [0xd8, 0xad, 0x0e, 0x18] + data[64..68])))))
  {
    if |data| != PAYLOAD_SIZE {
      return None;
    }
    var pubkey, extra := data[0..32], data[32..64];
    var nonce, version, timestamp := data[64..68], data[68..72], data[72..76];
    var reversedBlockhash := ReversedCopy(blockhash);
    var merkleRoot := sha(sha(extra + pubkey));

    var header := new byte[HEADER_SIZE](_ => 0);
    CopyFromSlice(header, 0, version);
    CopyFromSlice(header, 4, reversedBlockhash);
    CopyFromSlice(header, 36, merkleRoot);
    CopyFromSlice(header, 68, timestamp);
    CopyFromSlice(header, 72, NBITS);
    CopyFromSlice(header, 76, nonce);
    HeaderIs(data, blockhash, sha, header[..]);

    var finalHash := ReversedCopy(sha(sha(header[..])));
    return Some(ComptokenProof(pubkey, finalHash));
  }

  /** Parsing, then the three assertions. */
  method VerifySubmittedProof(wallet: Hash, data: seq<byte>, hashes: Hashes, sha: Digest, now: int)
    returns (result: Option<ComptokenProof>)
    ensures var proof := ProofOf(data, hashes.valid, sha);
            result == if proof.Some? && Verifies(proof.value, wallet, hashes, now) then proof else None
  {
    result := FromBytes(data, hashes.valid, sha);
    if result.None? {
      return;
    }
    if !IsHashLowerThanTarget(result.value.hash) || ValidStale(hashes, now) || wallet != result.value.pubkey {
      result := None;
    }
  }

  // ----- what the header determines

  /** The six fields cover the header exactly once. */
  lemma {:induction false} HeaderIs(data: seq<byte>, blockhash: Hash, sha: Digest, header: seq<byte>)
    requires |data| == PAYLOAD_SIZE && |header| == HEADER_SIZE
    ensures header == Header(data, blockhash, sha)
            <==> && header[0..4] == data[68..72]
                 && header[4..36] == Reversed(blockhash)
                 && header[36..68] == sha(sha(data[32..64] + data[0..32]))
                 && header[68..72] == data[72..76]
                 && header[72..76] == [0xd8, 0xad, 0x0e, 0x18]
                 && header[76..80] == data[64..68]
  {
    assert header == header[0..4] + header[4..36] + header[36..68] + header[68..72] + header[72..76] + header[76..80];
  }

  lemma {:induction false} ReversedIsInjective(a: seq<byte>, b: seq<byte>)
    requires Reversed(a) == Reversed(b)
    ensures a == b
  {
    forall i | 0 <= i < |a|
      ensures a[i] == b[i]
    {
      assert Reversed(a)[|a| - 1 - i] == Reversed(b)[|b| - 1 - i];
    }
  }

  ghost predicate Collides(sha: Digest, a: seq<byte>, b: seq<byte>) {
    a != b && sha(a) == sha(b)
  }

  /**
   * Two different submissions, in any byte of the payload or in the blockhash, can only have the same proof hash
   * through a collision of the hash function, on one of four pairs of inputs that the submissions show.
   */
  lemma {:induction false} SameProofNeedsCollision(
    data: seq<byte>, blockhash: Hash, other: seq<byte>, otherBlockhash: Hash, sha: Digest)
    requires |data| == PAYLOAD_SIZE && |other| == PAYLOAD_SIZE
    requires data != other || blockhash != otherBlockhash
    requires ProofOf(data, blockhash, sha).value.hash == ProofOf(other, otherBlockhash, sha).value.hash
    ensures var header, otherHeader := Header(data, blockhash, sha), Header(other, otherBlockhash, sha);
            var leaf, otherLeaf := data[32..64] + data[0..32], other[32..64] + other[0..32];
            || Collides(sha, header, otherHeader) || Collides(sha, sha(header), sha(otherHeader))
            || Collides(sha, leaf, otherLeaf) || Collides(sha, sha(leaf), sha(otherLeaf))
  {
    var header, otherHeader := Header(data, blockhash, sha), Header(other, otherBlockhash, sha);
    ReversedIsInjective(sha(sha(header)), sha(sha(otherHeader)));
    if header == otherHeader {
      HeaderIs(data, blockhash, sha, header);
      HeaderIs(other, otherBlockhash, sha, header);
      ReversedIsInjective(blockhash, otherBlockhash);
      if data[32..64] + data[0..32] == other[32..64] + other[0..32] {
        PayloadIsDetermined(data, other);
      }
    }
  }

  lemma {:induction false} PayloadIsDetermined(data: seq<byte>, other: seq<byte>)
    requires |data| == PAYLOAD_SIZE && |other| == PAYLOAD_SIZE
    requires data[32..64] + data[0..32] == other[32..64] + other[0..32]
    requires data[64..68] == other[64..68] && data[68..72] == other[68..72] && data[72..76] == other[72..76]
    ensures data == other
  {
    assert data[32..64] == (data[32..64] + data[0..32])[..32];
    assert other[32..64] == (other[32..64] + other[0..32])[..32];
    assert data[0..32] == (data[32..64] + data[0..32])[32..];
    assert other[0..32] == (other[32..64] + other[0..32])[32..];
    assert data == data[0..32] + data[32..64] + data[64..68] + data[68..72] + data[72..76];
    assert other == other[0..32] + other[32..64] + other[64..68] + other[68..72] + other[72..76];
  }

  // ----- the target

  lemma {:induction false} BigEndianPadded(s: seq<byte>, n: nat)
    ensures BigEndianValue(s + Zeros(n)) == BigEndianValue(s) * Pow256(n)
  {
    if n == 0 {
      assert s + Zeros(n) == s;
    } else {
      BigEndianPadded(s, n - 1);
      BigEndianAppend(s + Zeros(n - 1), 0);
      assert s + Zeros(n) == (s + Zeros(n - 1)) + [0];
      Regroup(BigEndianValue(s), Pow256(n - 1));
    }
  }

  lemma {:induction false} Regroup(a: nat, p: nat)
    ensures 256 * (a * p) == a * (256 * p)
  {
  }

  /** A digest is accepted exactly when its little-endian value is below 0x0eadd8 * 256^29. */
  lemma {:induction false} TargetIsIntegerBound(digest: Hash)
    ensures IsHashLowerThanTarget(Reversed(digest)) <==> LittleEndianValue(digest) < 0x0eadd8 * Pow256(29)
  {
    BelowIsIntegerBelow(digest, TARGET);
    TargetValue();
  }

  lemma {:induction false} BelowIsIntegerBelow(digest: Hash, target: Hash)
    ensures LexLess(Reversed(digest), target) <==> LittleEndianValue(digest) < BigEndianValue(target)
  {
    LexLessIsIntegerLess(Reversed(digest), target);
    ReversedValue(digest);
  }

  lemma {:induction false} TargetValue()
    ensures BigEndianValue(TARGET) == 0x0eadd8 * Pow256(|TARGET| - 3)
  {
    var top := TARGET[..3];
    TopValue(top);
    TargetIsPadded();
    BigEndianPadded(top, |TARGET| - 3);
  }

  lemma {:induction false} TargetIsPadded()
    ensures TARGET == TARGET[..3] + Zeros(|TARGET| - 3)
  {
  }

  lemma {:induction false} TopValue(top: seq<byte>)
    requires |top| == 3 && top[0] == 0x0e && top[1] == 0xad && top[2] == 0xd8
    ensures BigEndianValue(top) == 0x0eadd8
  {
    BigEndianAppend([], top[0]);
    BigEndianAppend([] + [top[0]], top[1]);
    BigEndianAppend([] + [top[0]] + [top[1]], top[2]);
    assert top == [] + [top[0]] + [top[1]] + [top[2]];
  }
}

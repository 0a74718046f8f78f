/** Byte strings and the integers they stand for in either byte order. */
module Bytes {

  type byte = x: int | 0 <= x < 256

  /** 32 bytes: block hashes, proof hashes and public keys. */
  type Hash = s: seq<byte> | |s| == 32 witness
    [0, 0, 0, 0, 0, 0, 0, 0, 0, 0, 0, 0, 0, 0, 0, 0,
     0, 0, 0, 0, 0, 0, 0, 0, 0, 0, 0, 0, 0, 0, 0, 0]

  function Zeros(n: nat): (s: seq<byte>)
    ensures |s| == n
  {
    seq(n, _ => 0)
  }

  const ZERO_HASH: Hash := Zeros(32)

  const U64_RANGE: nat := 0x1_0000_0000_0000_0000

  function Pow256(n: nat): (r: nat)
    ensures r > 0
  {
    if n == 0 then 1 else 256 * Pow256(n - 1)
  }

  function LittleEndianValue(s: seq<byte>): nat {
    if |s| == 0 then 0 else s[0] + 256 * LittleEndianValue(s[1..])
  }

  function BigEndianValue(s: seq<byte>): nat {
    if |s| == 0 then 0 else s[0] * Pow256(|s| - 1) + BigEndianValue(s[1..])
  }

  /** The n low-order bytes of v, least significant first. */
  function LittleEndian(v: nat, n: nat): (s: seq<byte>)
    ensures |s| == n
  {
    if n == 0 then [] else [v % 256] + LittleEndian(v / 256, n - 1)
  }

  function Reversed(s: seq<byte>): (r: seq<byte>)
    ensures |r| == |s|
    ensures forall i :: 0 <= i < |s| ==> r[i] == s[|s| - 1 - i]
  {
    seq(|s|, i requires 0 <= i < |s| => s[|s| - 1 - i])
  }

  /** The order Rust's array comparison uses: first difference decides. */
  predicate LexLess(a: seq<byte>, b: seq<byte>) {
    && |b| > 0
    && (|a| == 0 || a[0] < b[0] || (a[0] == b[0] && LexLess(a[1..], b[1..])))
  }

  /** s with x written over the bytes at offset at. */
  function Splice(s: seq<byte>, at: nat, x: seq<byte>): (r: seq<byte>)
    requires at + |x| <= |s|
    ensures |r| == |s|
    ensures r[at..at + |x|] == x
    ensures forall i :: 0 <= i < |s| && !(at <= i < at + |x|) ==> r[i] == s[i]
  {
    s[..at] + x + s[at + |x|..]
  }

  lemma {:induction false} BigEndianBound(s: seq<byte>)
    ensures BigEndianValue(s) < Pow256(|s|)
  {
    if |s| > 0 {
      BigEndianBound(s[1..]);
      DigitBelow(s[0], Pow256(|s| - 1));
    }
  }

  lemma {:induction false} DigitBelow(digit: byte, p: nat)
    ensures digit * p + p <= 256 * p
  {
    assert (255 - digit) * p >= 0;
  }

  /** Comparing equally long byte strings byte by byte is comparing big-endian integers. */
  lemma {:induction false} LexLessIsIntegerLess(a: seq<byte>, b: seq<byte>)
    requires |a| == |b|
    ensures LexLess(a, b) <==> BigEndianValue(a) < BigEndianValue(b)
  {
    if |a| > 0 {
      LexLessIsIntegerLess(a[1..], b[1..]);
      BigEndianBound(a[1..]);
      BigEndianBound(b[1..]);
      var p := Pow256(|a| - 1);
      if a[0] < b[0] {
        LeadingDigitDecides(a[0], BigEndianValue(a[1..]), b[0] - a[0] - 1, BigEndianValue(b[1..]), p);
      } else if b[0] < a[0] {
        LeadingDigitDecides(b[0], BigEndianValue(b[1..]), a[0] - b[0] - 1, BigEndianValue(a[1..]), p);
      }
    }
  }

  /** The larger leading digit wins, whatever the lower digits are. */
  lemma {:induction false} LeadingDigitDecides(a: nat, x: nat, gap: nat, y: nat, p: nat)
    requires x < p
    ensures a * p + x < (a + gap + 1) * p + y
  {
    assert (a + gap + 1) * p == a * p + gap * p + p;
    assert gap * p >= 0;
  }

  lemma {:induction false} BigEndianAppend(s: seq<byte>, last: byte)
    ensures BigEndianValue(s + [last]) == 256 * BigEndianValue(s) + last
  {
    if |s| > 0 {
      assert (s + [last])[1..] == s[1..] + [last];
      BigEndianAppend(s[1..], last);
      var p := Pow256(|s| - 1);
      assert s[0] * (256 * p) == 256 * (s[0] * p);
    } else {
      assert s + [last] == [last];
    }
  }

  /** Reversing a byte string turns its little-endian value into its big-endian one. */
  lemma {:induction false} ReversedValue(s: seq<byte>)
    ensures BigEndianValue(Reversed(s)) == LittleEndianValue(s)
  {
    if |s| > 0 {
      ReversedValue(s[1..]);
      BigEndianAppend(Reversed(s[1..]), s[0]);
      assert Reversed(s) == Reversed(s[1..]) + [s[0]];
    }
  }

  lemma {:induction false} LittleEndianBound(s: seq<byte>)
    ensures LittleEndianValue(s) < Pow256(|s|)
  {
    if |s| > 0 {
      LittleEndianBound(s[1..]);
    }
  }

  lemma {:induction false} LittleEndianRoundTrip(v: nat, n: nat)
    requires v < Pow256(n)
    ensures LittleEndianValue(LittleEndian(v, n)) == v
  {
    if n > 0 {
      LittleEndianRoundTrip(v / 256, n - 1);
      assert LittleEndian(v, n)[1..] == LittleEndian(v / 256, n - 1);
    }
  }

  lemma {:induction false} U64Bytes()
    ensures Pow256(8) == U64_RANGE
  {
    assert Pow256(4) == 0x1_0000_0000;
  }
}

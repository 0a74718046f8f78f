/** The program's own round_ties_even (comptoken/src/global_data/daily_distribution_data.rs), over the reals. */
module Rounding {

  /** f64::EPSILON, two to the power -52. */
  const EPSILON: real := 1.0 / 4503599627370496.0

  /** How far a rounded value can be from the value it rounds. */
  const ROUND_ERROR: real := 0.5 + EPSILON

  function Abs(x: real): real {
    if x >= 0.0 then x else -x
  }

  /** f64::round: halves go away from zero. */
  function RoundHalfAway(x: real): int {
    if x >= 0.0 then (x + 0.5).Floor else -((-x + 0.5).Floor)
  }

  /** f64::trunc: towards zero. */
  function Trunc(x: real): int {
    if x >= 0.0 then x.Floor else -((-x).Floor)
  }

  predicate AboutEqual(left: real, right: real) {
    Abs(left - right) < EPSILON
  }

  function RoundEven(x: real): (r: int)
    ensures x >= 0.0 ==> r >= 0
  {
    var res := RoundHalfAway(x);
    if AboutEqual(Abs(x - res as real), 0.5) && res % 2 != 0 then Trunc(x) else res
  }

  /** roundTiesToEven, section 4.3.1 of IEEE 754-2019: the nearest integer, the even one at a tie. */
  predicate IsTiesToEven(x: real, r: int) {
    && Abs(x - r as real) <= 0.5
    && (Abs(x - r as real) == 0.5 ==> r % 2 == 0)
  }

  /** The values that the epsilon test takes for a tie and rounds the wrong way. */
  predicate JustPastEvenTie(x: real) {
    var m := Abs(x);
    m.Floor % 2 == 0 && 0.5 < m - m.Floor as real < 0.5 + EPSILON
  }

  lemma {:induction false} FloorUnique(x: real, k: int)
    requires k as real <= x < k as real + 1.0
    ensures x.Floor == k
  {
  }

  /** RoundEven of a non-negative value, by its whole and fractional part. */
  lemma {:induction false} RoundEvenCases(x: real)
    requires x >= 0.0
    ensures var k := x.Floor; var f := x - k as real;
            RoundEven(x) == if f < 0.5 || (f < ROUND_ERROR && k % 2 == 0) then k else k + 1
  {
    var k := x.Floor;
    var f := x - k as real;
    assert 0.0 <= f < 1.0;
    if f < 0.5 {
      FloorUnique(x + 0.5, k);
    } else {
      FloorUnique(x + 0.5, k + 1);
      assert Abs(x - (k + 1) as real) == 1.0 - f;
      assert AboutEqual(1.0 - f, 0.5) <==> f < ROUND_ERROR;
    }
  }

  lemma {:induction false} RoundEvenIsOdd(x: real)
    ensures RoundEven(-x) == -RoundEven(x)
  {
    if x != 0.0 {
      assert RoundHalfAway(-x) == -RoundHalfAway(x);
      assert Abs(-x - (-RoundHalfAway(x)) as real) == Abs(x - RoundHalfAway(x) as real);
      assert Trunc(-x) == -Trunc(x);
    }
  }

  lemma {:induction false} TiesToEvenIsUnique(x: real, r: int, s: int)
    requires IsTiesToEven(x, r) && IsTiesToEven(x, s)
    ensures r == s
  {
    assert Abs((r - s) as real) <= 1.0;
  }

  /** Over all reals: the program's rounding is IEEE rounding exactly off the window behind each even tie. */
  lemma {:induction false} RoundEvenIsTiesToEvenIff(x: real)
    ensures IsTiesToEven(x, RoundEven(x)) <==> !JustPastEvenTie(x)
  {
    RoundEvenIsOdd(x);
    var m := Abs(x);
    RoundEvenCases(m);
    var k := m.Floor;
    assert IsTiesToEven(x, RoundEven(x)) <==> IsTiesToEven(m, RoundEven(m));
  }

  /** Every multiple of two to the power -52, and so every double of magnitude at least 1, is rounded as IEEE says. */
  lemma {:induction false} RoundEvenOnGrid(x: real, multiple: int)
    requires x * 4503599627370496.0 == multiple as real
    ensures IsTiesToEven(x, RoundEven(x))
  {
    var m := Abs(x);
    var n := if multiple >= 0 then multiple else -multiple;
    var past := n - m.Floor * 4503599627370496;
    assert m - m.Floor as real == past as real * EPSILON;
    assert past <= 2251799813685248 || past >= 2251799813685249;
    RoundEvenIsTiesToEvenIff(x);
  }

  /** The double just above one half rounds to 0, where IEEE rounding gives 1. */
  lemma {:induction false} RoundEvenBelowOneIsNotIeee()
    ensures var x := 0.5 + 1.0 / 9007199254740992.0;
            RoundEven(x) == 0 && IsTiesToEven(x, 1)
  {
    FloorUnique(0.5 + 1.0 / 9007199254740992.0, 0);
    RoundEvenCases(0.5 + 1.0 / 9007199254740992.0);
  }

  lemma {:induction false} RoundEvenFixesIntegers(k: int)
    ensures RoundEven(k as real) == k
  {
    var m := if k >= 0 then k else -k;
    FloorUnique(m as real, m);
    RoundEvenCases(m as real);
    RoundEvenIsOdd(m as real);
  }

  lemma {:induction false} RoundEvenIsMonotone(x: real, y: real)
    requires x <= y
    ensures RoundEven(x) <= RoundEven(y)
  {
    RoundEvenIsOdd(x);
    RoundEvenIsOdd(y);
    if x >= 0.0 {
      MagnitudeIsMonotone(x, y);
    } else if y < 0.0 {
      MagnitudeIsMonotone(-y, -x);
    }
  }

  lemma {:induction false} MagnitudeIsMonotone(x: real, y: real)
    requires 0.0 <= x <= y
    ensures RoundEven(x) <= RoundEven(y)
  {
    RoundEvenCases(x);
    RoundEvenCases(y);
    assert x.Floor <= y.Floor;
  }

  /** A magnitude gains at most one half, and loses at most one half and an epsilon. */
  lemma {:induction false} RoundEvenIsClose(x: real)
    ensures x >= 0.0 ==> x - ROUND_ERROR <= RoundEven(x) as real <= x + 0.5
    ensures x <= 0.0 ==> x - 0.5 <= RoundEven(x) as real <= x + ROUND_ERROR
  {
    RoundEvenIsOdd(x);
    RoundEvenCases(Abs(x));
  }

  /** A value that an integer bounds is still bounded by it after rounding. */
  lemma {:induction false} RoundEvenBelow(x: real, k: nat)
    requires 0.0 <= x <= k as real
    ensures 0 <= RoundEven(x) <= k
  {
    RoundEvenIsMonotone(x, k as real);
    RoundEvenFixesIntegers(k);
  }

  lemma {:induction false} RoundEvenAbove(x: real, k: nat)
    requires k as real <= x
    ensures k <= RoundEven(x)
  {
    RoundEvenIsMonotone(k as real, x);
    RoundEvenFixesIntegers(k);
  }

  /** Rounding is not invariant under integer shifts at ties: behind every odd number, a shift by one is lost. */
  lemma {:induction false} ShiftAtTieIsLost(k: nat)
    requires k % 2 == 1
    ensures RoundEven(k as real + 0.5) == RoundEven(k as real + 0.5 + 1.0) == k + 1
  {
    FloorUnique(k as real + 0.5, k);
    FloorUnique(k as real + 0.5 + 1.0, k + 1);
    RoundEvenCases(k as real + 0.5);
    RoundEvenCases(k as real + 0.5 + 1.0);
  }

  /** A shift by an integer and an epsilon more is never lost. */
  lemma {:induction false} RoundEvenShifted(x: real, y: real, c: nat)
    requires x >= 0.0
    requires y >= x + c as real + EPSILON
    ensures RoundEven(y) >= RoundEven(x) + c
  {
    RoundEvenCases(x);
    RoundEvenCases(y);
    var k := x.Floor;
    assert y.Floor >= k + c;
    if RoundEven(x) == k + 1 && y.Floor == k + c {
      assert y - (k + c) as real >= ROUND_ERROR;
    }
  }
}

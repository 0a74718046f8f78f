/** Unix time cut to UTC days (comptoken-utils/src/comptoken_utils.rs). */
module Clock {

  const SEC_PER_DAY: int := 86_400

  /** Rust's `/` on signed integers: rounds towards zero. */
  function TruncatedDiv(a: int, b: int): int
    requires b > 0
  {
    if a >= 0 then a / b else -((-a) / b)
  }

  /** Rust's `%` on signed integers: takes the sign of the dividend. */
  function TruncatedRem(a: int, b: int): int
    requires b > 0
  {
    a - TruncatedDiv(a, b) * b
  }

  function NormalizeTime(time: int): int {
    time - TruncatedRem(time, SEC_PER_DAY)
  }

  /** The number of whole days in a time stamp. */
  function Day(time: int): int {
    TruncatedDiv(time, SEC_PER_DAY)
  }

  lemma {:induction false} NormalizeBounds(time: int)
    requires time >= 0
    ensures NormalizeTime(time) == Day(time) * SEC_PER_DAY
    ensures NormalizeTime(time) <= time < NormalizeTime(time) + SEC_PER_DAY
  {
  }

  /** For every time since the epoch, normalising finds the one midnight in (time - 86400, time]. */
  lemma {:induction false} NormalizeIsMidnight(time: int, midnight: int)
    requires time >= 0
    ensures midnight % 86_400 == 0 && midnight <= time < midnight + 86_400
            <==> midnight == NormalizeTime(time)
  {
    NormalizeBounds(time);
    MidnightsAreApart(midnight / SEC_PER_DAY, Day(time));
  }

  lemma {:induction false} MidnightsAreApart(day: int, other: int)
    ensures day < other ==> day * SEC_PER_DAY + SEC_PER_DAY <= other * SEC_PER_DAY
    ensures other < day ==> other * SEC_PER_DAY + SEC_PER_DAY <= day * SEC_PER_DAY
  {
  }

  lemma {:induction false} DayIsMonotone(earlier: int, later: int)
    requires 0 <= earlier <= later
    ensures Day(earlier) <= Day(later)
    ensures NormalizeTime(earlier) <= NormalizeTime(later)
  {
  }
}

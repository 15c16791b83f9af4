/** Rounding an elapsed time to whole billed minutes, shared by both ways of ending a call. */
module Billing {

  const MsPerMinute: int := 1000 * 60

  /**
   * `Math.ceil(ms / (1000 * 60))` for an integer number of milliseconds. Dafny's `/` with a
   * positive divisor rounds down, so adding `MsPerMinute - 1` first rounds up, also for negative `ms`.
   */
  function CeilMinutes(ms: int): (m: int)
    ensures (m - 1) * MsPerMinute < ms <= m * MsPerMinute
  {
    (ms + MsPerMinute - 1) / MsPerMinute
  }

  /** The two bounds pin the minute count down: no other integer satisfies them. */
  lemma CeilMinutesUnique(ms: int, m: int)
    requires (m - 1) * MsPerMinute < ms <= m * MsPerMinute
    ensures m == CeilMinutes(ms)
  {
  }

  /** A zero interval bills nothing; any part of a minute bills the whole minute. */
  lemma CeilMinutesPartialMinute(ms: int, k: nat)
    requires k * MsPerMinute < ms <= (k + 1) * MsPerMinute
    ensures CeilMinutes(ms) == k + 1
  {
    CeilMinutesUnique(ms, k + 1);
  }

  lemma CeilMinutesZero()
    ensures CeilMinutes(0) == 0
  {
    CeilMinutesUnique(0, 0);
  }

  /** A non-negative interval never yields a negative minute count. */
  lemma CeilMinutesNonNegative(ms: int)
    requires ms >= 0
    ensures CeilMinutes(ms) >= 0
  {
  }

  /** The amount owed: whole minutes times the per-minute rate. */
  function BillAmount(minutes: int, ratePerMinute: int): (amount: int)
    ensures minutes == 0 ==> amount == 0
    ensures minutes >= 0 && ratePerMinute >= 0 ==> amount >= 0
  {
    minutes * ratePerMinute
  }
}

/**
 Arithmetic of the countdown display: the remaining grace period in whole
 seconds, truncated toward zero, capped at nine, and stored in an unsigned
 machine word (so that a negative remainder wraps around).
 */
module Countdown {
  import opened AppTypes

  /** Whole seconds in `ms` milliseconds, rounded toward zero as a C++ duration cast does. */
  function TruncSeconds(ms: int): (s: int)
    ensures 0 <= ms ==> 0 <= s * MsPerSecond <= ms < s * MsPerSecond + MsPerSecond
    ensures ms < 0 ==> ms <= s * MsPerSecond <= 0 && s * MsPerSecond - MsPerSecond < ms
  {
    if ms >= 0 then ms / MsPerSecond else -((-ms) / MsPerSecond)
  }

  /** Conversion of a signed count to the unsigned machine word: reduction modulo the word size. */
  function ToWord(x: int): (w: nat)
    ensures w < WordModulus
    ensures 0 <= x < WordModulus ==> w == x
    ensures -WordModulus <= x < 0 ==> w == x + WordModulus
  {
    x % WordModulus
  }

  function Min(a: int, b: int): int {
    if a <= b then a else b
  }

  /**
   The value the frame callback publishes as the seconds left, given the time
   `elapsed` since the countdown started. Before the deadline it is the whole
   number of seconds still to go, at most nine; within the first second after
   the deadline it is zero; later the negative remainder wraps around to a
   huge word.
   */
  function TimeLeft(elapsed: int): (r: nat)
    ensures r < WordModulus
    ensures elapsed <= 0 ==> r == CountdownSeconds - 1
    ensures 0 < elapsed < CountdownMs ==>
      r * MsPerSecond <= CountdownMs - elapsed < r * MsPerSecond + MsPerSecond
    ensures CountdownMs <= elapsed < CountdownMs + MsPerSecond ==> r == 0
    ensures CountdownMs + MsPerSecond <= elapsed < CountdownMs + WordModulus * MsPerSecond ==>
      r == WordModulus - (elapsed - CountdownMs) / MsPerSecond
    ensures elapsed < WordModulus ==>
      (r < CountdownSeconds <==> elapsed < CountdownMs + MsPerSecond)
  {
    ToWord(Min(CountdownSeconds - 1, TruncSeconds(CountdownMs - elapsed)))
  }
}

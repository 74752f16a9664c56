/** The abs-send-time header extension: a 24-bit clock of 2^-18 second ticks that wraps every 64
    seconds, its conversion to microseconds, and signed differences between two readings. */
module AbsSendTime {
  const FIELD := 0x100_0000
  const HALF := 0x80_0000
  const WORD := 0x1_0000_0000
  const TICKS_PER_SECOND := 0x4_0000
  const MICROS_PER_SECOND := 1_000_000

  /** Division as the source's language has it, towards zero. */
  function TruncDiv(a: int, b: int): (r: int)
    requires b > 0
    ensures a >= 0 ==> b * r <= a < b * r + b
    ensures a <= 0 ==> b * r - b < a <= b * r
  {
    if a >= 0 then a / b else -(-a / b)
  }

  /** `GetAbsoluteSendTimestamp`, in microseconds. */
  function Timestamp(t: nat): int
    requires t < FIELD
  {
    TruncDiv(t * MICROS_PER_SECOND, TICKS_PER_SECOND)
  }

  /** The timestamp is the time of the reading, rounded down to a microsecond. */
  lemma {:induction false} TimestampRounds(t: nat)
    requires t < FIELD
    ensures Timestamp(t) * TICKS_PER_SECOND <= t * MICROS_PER_SECOND < (Timestamp(t) + 1) * TICKS_PER_SECOND
  {
  }

  /** `static_cast<int32_t>((now - previous) << 8) >> 8` on 32-bit words. */
  function DeltaTicks(now: nat, previous: nat): int
    requires now < FIELD && previous < FIELD
  {
    var difference := (now - previous) % WORD;
    var shifted := (difference * 0x100) % WORD;
    var signed := if shifted >= WORD / 2 then shifted - WORD else shifted;
    signed / 0x100
  }

  /** `GetAbsoluteSendTimeDelta`, in microseconds. */
  function DeltaMicros(now: nat, previous: nat): int
    requires now < FIELD && previous < FIELD
  {
    TruncDiv(DeltaTicks(now, previous) * MICROS_PER_SECOND, TICKS_PER_SECOND)
  }

  /** The two shifts reduce the difference to its low 24 bits and extend their sign. */
  lemma {:induction false} ShiftsExtendSign(now: nat, previous: nat)
    requires now < FIELD && previous < FIELD
    ensures var d := (now - previous) % FIELD;
            DeltaTicks(now, previous) == if d >= HALF then d - FIELD else d
  {
    var difference := (now - previous) % WORD;
    assert difference % FIELD == (now - previous) % FIELD;
    assert difference * 0x100 == (difference / FIELD) * WORD + (difference % FIELD) * 0x100;
  }

  /** For two true times of an unwrapped clock, the difference of their 24-bit readings is the true
      difference if and only if that is in [-2^23, 2^23) ticks. */
  lemma {:induction false} DeltaIsExactIffInRange(now: int, previous: int)
    ensures DeltaTicks(now % FIELD, previous % FIELD) == now - previous <==> -HALF <= now - previous < HALF
  {
    ShiftsExtendSign(now % FIELD, previous % FIELD);
    assert (now % FIELD - previous % FIELD) % FIELD == (now - previous) % FIELD;
  }

  /** Rounding is towards zero: exchanging the two readings changes the sign and nothing else, if and only
      if they are not exactly half the clock's range apart, where both differences are negative. */
  lemma {:induction false} ExchangeNegates(now: nat, previous: nat)
    requires now < FIELD && previous < FIELD
    ensures DeltaMicros(previous, now) == -DeltaMicros(now, previous) <==> (now - previous) % FIELD != HALF
  {
    TicksExchanged(now, previous);
    var d, e := DeltaTicks(now, previous), DeltaTicks(previous, now);
    if (now - previous) % FIELD != HALF {
      assert e * MICROS_PER_SECOND == -(d * MICROS_PER_SECOND);
      TruncNegated(d * MICROS_PER_SECOND, TICKS_PER_SECOND);
    } else {
      assert TruncDiv(-HALF * MICROS_PER_SECOND, TICKS_PER_SECOND) < 0;
    }
  }

  lemma {:induction false} TicksExchanged(now: nat, previous: nat)
    requires now < FIELD && previous < FIELD
    ensures var d, e := DeltaTicks(now, previous), DeltaTicks(previous, now);
            if (now - previous) % FIELD != HALF then e == -d else d == e == -HALF
  {
    ShiftsExtendSign(now, previous);
    ShiftsExtendSign(previous, now);
  }

  lemma {:induction false} TruncNegated(a: int, b: int)
    requires b > 0
    ensures TruncDiv(-a, b) == -TruncDiv(a, b)
  {
  }

  // ---------- Sums over a stream of packets ----------

  ghost predicate SmallGaps(times: seq<int>) {
    forall i :: 0 < i < |times| ==> -HALF <= times[i] - times[i - 1] < HALF
  }

  function TickSum(times: seq<int>): int {
    if |times| < 2 then 0
    else
      var n := |times| - 1;
      TickSum(times[..n]) + DeltaTicks(times[n] % FIELD, times[n - 1] % FIELD)
  }

  function MicroSum(times: seq<int>): int {
    if |times| < 2 then 0
    else
      var n := |times| - 1;
      MicroSum(times[..n]) + DeltaMicros(times[n] % FIELD, times[n - 1] % FIELD)
  }

  /** However often the clock wraps along the way, the tick differences add up exactly. */
  lemma {:induction false} TicksAddUp(times: seq<int>)
    requires |times| > 0 && SmallGaps(times)
    ensures TickSum(times) == times[|times| - 1] - times[0]
  {
    if |times| > 1 {
      var n := |times| - 1;
      TicksAddUp(times[..n]);
      DeltaIsExactIffInRange(times[n], times[n - 1]);
    }
  }

  /** The microsecond differences add up to the true time to within one microsecond per step. */
  lemma {:induction false} MicrosAddUp(times: seq<int>)
    requires |times| > 0 && SmallGaps(times)
    ensures var n, elapsed := |times| - 1, (times[|times| - 1] - times[0]) * MICROS_PER_SECOND;
            && elapsed - n * TICKS_PER_SECOND <= MicroSum(times) * TICKS_PER_SECOND <= elapsed + n * TICKS_PER_SECOND
            && (n > 0 ==>
                  elapsed - n * TICKS_PER_SECOND < MicroSum(times) * TICKS_PER_SECOND < elapsed + n * TICKS_PER_SECOND)
  {
    if |times| > 1 {
      var n := |times| - 1;
      MicrosAddUp(times[..n]);
      DeltaIsExactIffInRange(times[n], times[n - 1]);
    }
  }

  /** Without a wrap between two readings, the difference agrees with that of their timestamps to
      within one microsecond. */
  lemma {:induction false} DeltaMatchesTimestamps(now: nat, previous: nat)
    requires now < FIELD && previous < FIELD && -HALF <= now - previous < HALF
    ensures -1 <= DeltaMicros(now, previous) - (Timestamp(now) - Timestamp(previous)) <= 1
  {
    DeltaIsExactIffInRange(now, previous);
  }
}

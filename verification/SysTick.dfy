/**
 * wk_system.c: delays measured by polling a 24-bit down counter. When the
 * polls happen is the environment's choice.
 */
module SysTick {
  const TICK_COUNT_MAX: nat := 0xFFFFFF
  const RESOLUTION: nat := 0x1000000
  const WORD: nat := 0x1_0000_0000
  const STEP_DELAY_MS: nat := 50

  /** The ticks between two readings, from the readings alone. */
  function Delta(pre: nat, cur: nat): nat
    requires cur <= TICK_COUNT_MAX
  {
    if cur <= pre then pre - cur else (TICK_COUNT_MAX - cur) + pre + 1
  }

  /** The ticks a call of delay_us waits for, in 32-bit arithmetic. */
  function Target(delay: nat, ticksPerUs: nat): nat { delay * ticksPerUs % WORD }

  /** The ticks the chunks of a millisecond delay wait for together. */
  function Total(ms: nat, ticksPerUs: nat): nat {
    if ms > STEP_DELAY_MS then Target(STEP_DELAY_MS * 1000, ticksPerUs) + Total(ms - STEP_DELAY_MS, ticksPerUs)
    else Target(ms * 1000, ticksPerUs)
  }

  /** The most a millisecond delay can overrun: two poll gaps for every chunk. */
  function Late(ms: nat, gap: nat): nat { (ms + STEP_DELAY_MS - 1) / STEP_DELAY_MS * (2 * gap) }

  /** ticks_count_us: a 32-bit clock frequency in whole megahertz. */
  const MAX_TICKS_PER_US: nat := 4294

  type TickRate = t: nat | t <= MAX_TICKS_PER_US

  /** The counter with its clock: the i-th read comes `gaps(i)` ticks after the one before. */
  class Timebase {
    const start: nat
    const gaps: nat -> nat
    const ticksPerUs: TickRate
    var now: nat
    var polled: nat

    constructor (start: nat, gaps: nat -> nat, frequency: nat)
      requires frequency < 0x1_0000_0000
      ensures this.start == start && this.gaps == gaps && now == 0 && polled == 0
      ensures ticksPerUs * 1000000 <= frequency < (ticksPerUs + 1) * 1000000
    {
      this.start, this.gaps, now, polled := start, gaps, 0, 0;
      ticksPerUs := frequency / 1000000;
    }

    /** The counter's value after `t` ticks: down from `start`, reloading at zero. */
    function Value(t: nat): (v: nat)
      ensures v <= TICK_COUNT_MAX
    {
      (start - t) % RESOLUTION
    }

    /** Polls are never more than `gap` ticks apart, and never in the same tick. */
    ghost predicate Prompt(gap: nat) {
      forall i: nat :: 1 <= gaps(i) <= gap
    }

    method Read() returns (v: nat)
      modifies this
      ensures polled == old(polled) + 1 && now == old(now) + gaps(old(polled)) && v == Value(now)
    {
      now := now + gaps(polled);
      polled := polled + 1;
      v := Value(now);
    }

    /** Subtraction with one borrow recovers the elapsed time modulo the counter's period. */
    lemma DeltaIsElapsed(t0: nat, t1: nat)
      requires t0 <= t1
      ensures Delta(Value(t0), Value(t1)) == (t1 - t0) % RESOLUTION
    {
    }

    /**
     * delay_us, cut off after `polls` polls. Whenever it returns, the time
     * has passed; it cannot return if the target exceeds the counter; and it
     * does return, at most two gaps late, if no poll can miss the window
     * between the target and the counter's wrap.
     */
    method DelayUs(delay: nat, polls: nat, ghost gap: nat) returns (finished: bool)
      modifies this
      ensures old(now) <= now
      ensures finished ==> now - old(now) >= Target(delay, ticksPerUs) && Target(delay, ticksPerUs) <= TICK_COUNT_MAX
      ensures Prompt(gap) && Target(delay, ticksPerUs) + gap <= RESOLUTION && polls > Target(delay, ticksPerUs)
        ==> finished && now - old(now) <= Target(delay, ticksPerUs) + 2 * gap
    {
      var delayTicks := Target(delay, ticksPerUs);
      hide Target;
      var pre := Read();
      ghost var t0 := now;
      finished := false;
      var n := 0;
      while !finished && n < polls
        invariant t0 <= now && n <= polls
        invariant finished ==> now - t0 >= delayTicks && delayTicks <= TICK_COUNT_MAX
        invariant Prompt(gap) && delayTicks + gap <= RESOLUTION ==>
          (now - t0 >= n && if finished then now - t0 <= delayTicks + gap else now == t0 || now - t0 < delayTicks)
      {
        var cur := Read();
        DeltaIsElapsed(t0, now);
        ModBounds(now - t0);
        finished := Delta(pre, cur) >= delayTicks;
        n := n + 1;
      }
    }

    /**
     * wk_delay_ms: chunks of at most 50 ms, each a call of delay_us. It never
     * returns before the whole time has passed, and returns at all only if
     * its longest chunk fits the counter.
     */
    method DelayMs(ms: nat, polls: nat, ghost gap: nat) returns (finished: bool)
      modifies this
      ensures old(now) <= now
      ensures finished ==> now - old(now) >= ms * 1000 * ticksPerUs
      ensures finished ==> LongestChunk(ms) * ticksPerUs <= TICK_COUNT_MAX
      ensures Prompt(gap) && LongestChunk(ms) * ticksPerUs + gap <= RESOLUTION && polls > LongestChunk(ms) * ticksPerUs
        ==> finished && now - old(now) <= ms * 1000 * ticksPerUs + Late(ms, gap)
    {
      hide Target, Total, Late, LongestChunk;
      var delay: nat := ms;
      finished := true;
      NothingLeft(ticksPerUs, gap);
      TotalIsWhole(ms, ticksPerUs);
      ghost var longest := LongestChunk(ms) * ticksPerUs;
      ghost var prompt := Prompt(gap) && longest + gap <= RESOLUTION && polls > longest;
      while delay > 0 && finished
        invariant old(now) <= now && delay <= ms
        invariant finished ==> now - old(now) + Total(delay, ticksPerUs) >= Total(ms, ticksPerUs)
        invariant finished ==> delay == ms || longest <= TICK_COUNT_MAX
        invariant prompt ==>
          (finished
           && now - old(now) + Total(delay, ticksPerUs) + Late(delay, gap) <= Total(ms, ticksPerUs) + Late(ms, gap))
      {
        ChunkTarget(delay, ms, ticksPerUs);
        TotalStep(delay, ticksPerUs);
        LateStep(delay, gap);
        if delay > STEP_DELAY_MS {
          finished := DelayUs(STEP_DELAY_MS * 1000, polls, gap);
          delay := delay - STEP_DELAY_MS;
        } else {
          finished := DelayUs(delay * 1000, polls, gap);
          delay := 0;
        }
      }
    }
  }

  lemma ModBounds(e: nat)
    ensures 0 <= e % RESOLUTION <= e && e % RESOLUTION <= TICK_COUNT_MAX
    ensures e < RESOLUTION ==> e % RESOLUTION == e
  {
  }

  lemma TotalStep(ms: nat, ticksPerUs: nat)
    ensures ms > STEP_DELAY_MS ==>
      Total(ms, ticksPerUs) == Target(STEP_DELAY_MS * 1000, ticksPerUs) + Total(ms - STEP_DELAY_MS, ticksPerUs)
    ensures ms <= STEP_DELAY_MS ==> Total(ms, ticksPerUs) == Target(ms * 1000, ticksPerUs)
  {
  }

  lemma NothingLeft(ticksPerUs: nat, gap: nat)
    ensures Total(0, ticksPerUs) == 0 && Late(0, gap) == 0 && LongestChunk(0) == 0
  {
  }

  lemma LateStep(ms: nat, gap: nat)
    requires ms > 0
    ensures Late(ms, gap) == Late(if ms > STEP_DELAY_MS then ms - STEP_DELAY_MS else 0, gap) + 2 * gap
  {
    var rest := if ms > STEP_DELAY_MS then ms - STEP_DELAY_MS else 0;
    var c, d := (ms + STEP_DELAY_MS - 1) / STEP_DELAY_MS, (rest + STEP_DELAY_MS - 1) / STEP_DELAY_MS;
    assert c == d + 1;
    assert (d + 1) * (2 * gap) == d * (2 * gap) + 2 * gap;
  }

  /** A chunk's target does not wrap, and no later chunk is longer than the first. */
  lemma ChunkTarget(delay: nat, ms: nat, ticksPerUs: TickRate)
    requires delay <= ms
    ensures var chunk := if delay > STEP_DELAY_MS then STEP_DELAY_MS * 1000 else delay * 1000;
      Target(chunk, ticksPerUs) <= LongestChunk(ms) * ticksPerUs
      && (delay == ms ==> Target(chunk, ticksPerUs) == LongestChunk(ms) * ticksPerUs)
  {
    var chunk := if delay > STEP_DELAY_MS then STEP_DELAY_MS * 1000 else delay * 1000;
    Grow(chunk, LongestChunk(ms), ticksPerUs);
    RateFits(chunk, ticksPerUs);
    Reduced(chunk * ticksPerUs);
  }

  lemma RateFits(chunk: nat, ticksPerUs: TickRate)
    requires chunk <= 50000
    ensures chunk * ticksPerUs <= 50000 * MAX_TICKS_PER_US < WORD
  {
    Grow(chunk, 50000, ticksPerUs);
  }

  lemma Grow(a: nat, b: nat, t: nat)
    requires a <= b
    ensures a * t <= b * t
  {
  }

  lemma Reduced(x: nat)
    ensures x % WORD <= x && (x < WORD <==> x % WORD == x)
  {
  }

  /** The longest chunk of a delay, in microseconds. */
  function LongestChunk(ms: nat): nat { if ms > STEP_DELAY_MS then STEP_DELAY_MS * 1000 else ms * 1000 }

  /**
   * The chunks of a delay sum to the delay exactly if the tick count of the
   * longest one fits 32 bits, which it does at every rate a clock can have.
   */
  lemma {:induction false} TotalIsWhole(ms: nat, ticksPerUs: nat)
    ensures Total(ms, ticksPerUs) <= ms * 1000 * ticksPerUs
    ensures Total(ms, ticksPerUs) == ms * 1000 * ticksPerUs <==> LongestChunk(ms) * ticksPerUs < 0x1_0000_0000
    ensures ticksPerUs <= 4294 ==> Total(ms, ticksPerUs) == ms * 1000 * ticksPerUs
  {
    if ms > STEP_DELAY_MS {
      TotalIsWhole(ms - STEP_DELAY_MS, ticksPerUs);
      Reduced(50000 * ticksPerUs);
      Grow(LongestChunk(ms - STEP_DELAY_MS), 50000, ticksPerUs);
      Split(ms, ticksPerUs);
    } else {
      Reduced(ms * 1000 * ticksPerUs);
    }
    if ticksPerUs <= MAX_TICKS_PER_US {
      RateFits(LongestChunk(ms), ticksPerUs);
    }
  }

  lemma Split(ms: nat, t: nat)
    requires ms >= 50
    ensures (ms - 50) * 1000 * t + 50000 * t == ms * 1000 * t
  {
  }

  /** A full chunk fits the counter exactly below 336 ticks per microsecond; the firmware configures 240 MHz. */
  lemma ChunkFits(ticksPerUs: TickRate)
    ensures Target(STEP_DELAY_MS * 1000, ticksPerUs) <= TICK_COUNT_MAX <==> 50000 * ticksPerUs <= TICK_COUNT_MAX
    ensures 50000 * ticksPerUs <= TICK_COUNT_MAX <==> ticksPerUs < 336
    ensures Target(STEP_DELAY_MS * 1000, 240) <= TICK_COUNT_MAX
  {
    Reduced(50000 * ticksPerUs);
  }
}

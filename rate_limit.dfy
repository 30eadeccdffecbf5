/** The process-wide rate limiter of `rate_limited_delay`: one "last call"
    stamp, checked and re-stamped before every outbound request, on a clock
    that counts milliseconds. */
module RateLimit {
  import opened Numbers

  /** RATE_LIMIT_DELAY, 0.35 s: at most about 2.8 calls per second. */
  const Delay: int := 350

  /** How long `rate_limited_delay` sleeps when it is entered at `now`
      and the last stamp is `last`. */
  function Wait(last: int, now: int): (w: nat)
    ensures now + w == Max(now, last + Delay)
    ensures w == 0 <==> now - last >= Delay
  {
    if now - last < Delay then Delay - (now - last) else 0
  }

  /** The stamp left behind: the time after the sleep. */
  function Stamp(last: int, now: int): int {
    now + Wait(last, now)
  }

  /** The new stamp is never earlier than the call, never closer than Delay to
      the previous stamp, and is the earliest time with both properties. */
  lemma StampIsEarliestAllowed(last: int, now: int)
    ensures Stamp(last, now) >= now && Stamp(last, now) >= last + Delay
    ensures Stamp(last, now) == now || Stamp(last, now) == last + Delay
  {
  }

  /** The stamps left by consecutive acquisitions when the i-th one is entered
      gaps[i] ms after the previous stamp (the first one, after `last`). */
  function Schedule(last: int, gaps: seq<nat>): (s: seq<int>)
    ensures |s| == |gaps|
    decreases |gaps|
  {
    if gaps == [] then []
    else
      var prev := Schedule(last, gaps[..|gaps| - 1]);
      var from := if prev == [] then last else prev[|prev| - 1];
      prev + [Stamp(from, from + gaps[|gaps| - 1])]
  }

  /** Sequential callers are spaced: each stamp lies exactly max(gap, Delay)
      after the previous one, so never less than Delay. */
  lemma {:induction false} ScheduleSpaced(last: int, gaps: seq<nat>)
    requires gaps != []
    ensures Schedule(last, gaps)[0] == last + Max(gaps[0], Delay)
    ensures forall i :: 0 < i < |gaps| ==>
      Schedule(last, gaps)[i] == Schedule(last, gaps)[i - 1] + Max(gaps[i], Delay)
    decreases |gaps|
  {
    var s := Schedule(last, gaps);
    var n := |gaps| - 1;
    var prev := Schedule(last, gaps[..n]);
    assert s == prev + [s[n]];
    if n == 0 {
      assert s[0] == Stamp(last, last + gaps[0]);
    } else {
      ScheduleSpaced(last, gaps[..n]);
      assert s[n] == Stamp(prev[n - 1], prev[n - 1] + gaps[n]);
      forall i | 0 < i < |gaps| ensures s[i] == s[i - 1] + Max(gaps[i], Delay) {
        if i < n {
          assert s[i] == prev[i] && s[i - 1] == prev[i - 1] && gaps[..n][i] == gaps[i];
        }
      }
    }
  }

  /** The process clock, in milliseconds since the epoch; `time.time()`
      reads `now`, `asyncio.sleep` and the passing of time advance it. */
  class Clock {
    var now: int

    constructor (start: int)
      ensures now == start
    {
      now := start;
    }

    method Advance(d: nat)
      modifies this
      ensures now == old(now) + d
    {
      now := now + d;
    }
  }

  class RateLimiter {
    /** `last_api_call_time`: 0 until the first call. */
    var lastCall: int
    const clock: Clock

    constructor (clock: Clock)
      ensures this.clock == clock && lastCall == 0
    {
      this.clock := clock;
      lastCall := 0;
    }

    /** `rate_limited_delay`: sleep for the rest of the delay, if any, then stamp. */
    method Acquire()
      modifies this, clock
      ensures clock.now == Stamp(old(lastCall), old(clock.now))
      ensures lastCall == clock.now
    {
      var current := clock.now;
      var sinceLast := current - lastCall;
      if sinceLast < Delay {
        clock.Advance(Delay - sinceLast);
      }
      lastCall := clock.now;
    }
  }
}

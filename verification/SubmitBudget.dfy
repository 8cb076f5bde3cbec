/**
 A connection's submit budget: a token bucket over real time. Instants are
 seconds and the arithmetic is exact.
 */
module SubmitBudget {
  const BURST := 64.0
  const REFILL := 32.0
  const REFILL_WHEN_EVERY_SHARE_IS_A_BLOCK := 256.0

  datatype Call = Call(now: real, refill: real)

  // ---------------------------------------------------------------------------
  // The bucket
  // ---------------------------------------------------------------------------

  datatype Level = Level(tokens: real, last: real)

  function Elapsed(last: real, now: real): real {
    if now > last then now - last else 0.0
  }

  function Refilled(b: Level, call: Call): real {
    var tokens := b.tokens + Elapsed(b.last, call.now) * call.refill;
    if tokens < BURST then tokens else BURST
  }

  function After(b: Level, call: Call): Level {
    var tokens := Refilled(b, call);
    Level(if tokens < 1.0 then tokens else tokens - 1.0, call.now)
  }

  class Bucket {
    var tokens: real
    var last: real

    constructor (now: real)
      ensures Now() == Level(BURST, now)
    {
      tokens, last := BURST, now;
    }

    function Now(): Level
      reads this
    {
      Level(tokens, last)
    }

    method TakeAt(now: real, refill: real) returns (granted: bool)
      modifies this
      ensures Now() == After(old(Now()), Call(now, refill))
      ensures granted <==> Refilled(old(Now()), Call(now, refill)) >= 1.0
    {
      var elapsed := if now > last then now - last else 0.0;
      last := now;
      tokens := tokens + elapsed * refill;
      if tokens >= BURST {
        tokens := BURST;
      }
      if tokens < 1.0 {
        return false;
      }
      tokens := tokens - 1.0;
      return true;
    }
  }

  // ---------------------------------------------------------------------------
  // Whole runs
  // ---------------------------------------------------------------------------

  function Run(b: Level, calls: seq<Call>): Level
    decreases calls
  {
    if calls == [] then b else Run(After(b, calls[0]), calls[1..])
  }

  function Granted(b: Level, calls: seq<Call>): nat
    decreases calls
  {
    if calls == [] then 0
    else (if Refilled(b, calls[0]) >= 1.0 then 1 else 0) + Granted(After(b, calls[0]), calls[1..])
  }

  // The clock does not run backwards, and no call refills faster than `rate`.
  predicate Paced(from: real, calls: seq<Call>, rate: real)
    decreases calls
  {
    calls == [] || (from <= calls[0].now && 0.0 <= calls[0].refill <= rate && Paced(calls[0].now, calls[1..], rate))
  }

  function End(from: real, calls: seq<Call>): real {
    if calls == [] then from else calls[|calls| - 1].now
  }

  lemma {:induction false} LevelStays(b: Level, calls: seq<Call>, rate: real)
    requires 0.0 <= b.tokens <= BURST && Paced(b.last, calls, rate)
    ensures 0.0 <= Run(b, calls).tokens <= BURST
    ensures Run(b, calls).last == End(b.last, calls)
    decreases calls
  {
    if calls != [] {
      Gain(Elapsed(b.last, calls[0].now), calls[0].refill, rate);
      LevelStays(After(b, calls[0]), calls[1..], rate);
    }
  }

  lemma Gain(elapsed: real, refill: real, rate: real)
    requires 0.0 <= elapsed && 0.0 <= refill <= rate
    ensures 0.0 <= elapsed * refill <= elapsed * rate
  {
    assert elapsed * rate - elapsed * refill == elapsed * (rate - refill);
  }

  // What the clock brings over a run of calls.
  function Inflow(from: real, calls: seq<Call>): real
    decreases calls
  {
    if calls == [] then 0.0
    else Elapsed(from, calls[0].now) * calls[0].refill + Inflow(calls[0].now, calls[1..])
  }

  // What is granted was there at the start or was refilled since.
  lemma {:induction false} GrantsArePaidFor(b: Level, calls: seq<Call>)
    ensures Granted(b, calls) as real + Run(b, calls).tokens <= b.tokens + Inflow(b.last, calls)
    decreases calls
  {
    if calls != [] {
      var next := After(b, calls[0]);
      GrantsArePaidFor(next, calls[1..]);
      Total(if Refilled(b, calls[0]) >= 1.0 then 1 else 0, Granted(next, calls[1..]), Run(b, calls).tokens, next.tokens,
            b.tokens, Elapsed(b.last, calls[0].now) * calls[0].refill, Inflow(calls[0].now, calls[1..]));
    }
  }

  lemma Total(first: nat, others: nat, left: real, between: real, tokens: real, now: real, later: real)
    requires first as real + between <= tokens + now && others as real + left <= between + later
    ensures (first + others) as real + left <= tokens + (now + later)
  {
  }

  // What runs over the brim.
  function Over(b: Level, came: real): real {
    if b.tokens + came > BURST then b.tokens + came - BURST else 0.0
  }

  function Spilled(b: Level, calls: seq<Call>): real
    decreases calls
  {
    if calls == [] then 0.0
    else Over(b, Elapsed(b.last, calls[0].now) * calls[0].refill) + Spilled(After(b, calls[0]), calls[1..])
  }

  // One call: what came is granted, kept or runs over.
  lemma OneCall(b: Level, call: Call, came: real)
    requires came == Elapsed(b.last, call.now) * call.refill
    ensures (if Refilled(b, call) >= 1.0 then 1.0 else 0.0) + After(b, call).tokens + Over(b, came) == b.tokens + came
  {
  }

  // And nothing is lost on the way but what runs over: for any calls, what was
  // granted, what is left and what ran over are exactly what was there and what
  // came, refusals included.
  lemma {:induction false} NothingIsLost(b: Level, calls: seq<Call>)
    ensures Granted(b, calls) as real + Run(b, calls).tokens + Spilled(b, calls) == b.tokens + Inflow(b.last, calls)
    decreases calls
  {
    if calls != [] {
      var call, next, rest := calls[0], After(b, calls[0]), calls[1..];
      var came := Elapsed(b.last, call.now) * call.refill;
      NothingIsLost(next, rest);
      OneCall(b, call, came);
      var first := if Refilled(b, call) >= 1.0 then 1 else 0;
      assert Spilled(b, calls) == Over(b, came) + Spilled(next, rest);
      assert Granted(b, calls) == first + Granted(next, rest) && Run(b, calls) == Run(next, rest);
      Sums(first, Granted(next, rest), next.tokens, Over(b, came), b.tokens, came, Run(next, rest).tokens,
           Spilled(next, rest), Inflow(next.last, rest));
    }
  }

  lemma Sums(first: nat, others: nat, between: real, over: real, here: real, came: real, left: real, later: real,
             inflow: real)
    requires first as real + between + over == here + came && others as real + left + later == between + inflow
    ensures (first + others) as real + left + (over + later) == here + (came + inflow)
  {
  }

  // Nothing runs over where what was there and what came fit in the burst.
  lemma {:induction false} SpillsOnlyOver(b: Level, calls: seq<Call>, rate: real)
    requires 0.0 <= b.tokens && b.tokens + Inflow(b.last, calls) <= BURST && Paced(b.last, calls, rate)
    ensures Spilled(b, calls) == 0.0
    decreases calls
  {
    if calls != [] {
      var came := Elapsed(b.last, calls[0].now) * calls[0].refill;
      Gain(Elapsed(b.last, calls[0].now), calls[0].refill, rate);
      InflowIsPositive(calls[0].now, calls[1..], rate);
      Kept(b, calls[0], came);
      SpillsOnlyOver(After(b, calls[0]), calls[1..], rate);
    }
  }

  lemma Kept(b: Level, call: Call, came: real)
    requires came == Elapsed(b.last, call.now) * call.refill && 0.0 <= b.tokens && 0.0 <= came
    ensures 0.0 <= After(b, call).tokens <= b.tokens + came && After(b, call).last == call.now
  {
  }

  lemma {:induction false} InflowIsPositive(from: real, calls: seq<Call>, rate: real)
    requires Paced(from, calls, rate)
    ensures Inflow(from, calls) >= 0.0
    decreases calls
  {
    if calls != [] {
      Gain(Elapsed(from, calls[0].now), calls[0].refill, rate);
      InflowIsPositive(calls[0].now, calls[1..], rate);
    }
  }

  // So a peer is refused only what it has not paid for: of any calls that leave
  // less than a token, all but less than one token's worth was granted.
  lemma RefusedOnlyShort(b: Level, calls: seq<Call>, rate: real)
    requires 0.0 <= b.tokens && b.tokens + Inflow(b.last, calls) <= BURST && Paced(b.last, calls, rate)
    requires Run(b, calls).tokens < 1.0
    ensures b.tokens + Inflow(b.last, calls) - 1.0 < Granted(b, calls) as real <= b.tokens + Inflow(b.last, calls)
  {
    NothingIsLost(b, calls);
    SpillsOnlyOver(b, calls, rate);
    InflowIsPositive(b.last, calls, rate);
    LevelStays(b, calls, rate);
  }

  // A clock that has not moved, or has moved back, brings nothing.
  lemma NoTimeNoTokens(b: Level, call: Call)
    requires b.tokens <= BURST && call.now <= b.last
    ensures Refilled(b, call) == b.tokens
  {
  }

  lemma {:induction false} InflowIsBounded(from: real, calls: seq<Call>, rate: real)
    requires Paced(from, calls, rate)
    ensures Inflow(from, calls) <= (End(from, calls) - from) * rate
    decreases calls
  {
    if calls == [] {
      assert End(from, calls) - from == 0.0;
    } else {
      var call := calls[0];
      InflowIsBounded(call.now, calls[1..], rate);
      Gain(call.now - from, call.refill, rate);
      Adds(call.now - from, End(call.now, calls[1..]) - call.now, rate);
    }
  }

  lemma Adds(x: real, y: real, rate: real)
    ensures x * rate + y * rate == (x + y) * rate
  {
  }

  // Any stretch of any run of calls, however the peer spaces them, is granted at
  // most a burst and what its own length refills at the fastest rate in it.
  lemma {:induction false} GrantsInAnyWindow(start: real, before: seq<Call>, window: seq<Call>, rate: real)
    requires Paced(start, before, REFILL_WHEN_EVERY_SHARE_IS_A_BLOCK)
    requires window != [] && Paced(End(start, before), window, rate)
    ensures Granted(Run(Level(BURST, start), before), window) as real
      <= BURST + (window[|window| - 1].now - window[0].now) * rate
  {
    LevelStays(Level(BURST, start), before, REFILL_WHEN_EVERY_SHARE_IS_A_BLOCK);
    GrantsFromFirst(Run(Level(BURST, start), before), window, rate);
    WindowInflow(End(start, before), window, rate);
  }

  // With the endpoint's two rates: 256 a second, or 32 where every call of the
  // stretch refills at the ordinary one.
  lemma GrantsAtBothRates(start: real, before: seq<Call>, window: seq<Call>)
    requires Paced(start, before, REFILL_WHEN_EVERY_SHARE_IS_A_BLOCK)
    requires window != [] && Paced(End(start, before), window, REFILL_WHEN_EVERY_SHARE_IS_A_BLOCK)
    ensures
      var granted := Granted(Run(Level(BURST, start), before), window) as real;
      var length := window[|window| - 1].now - window[0].now;
      && granted <= 64.0 + 256.0 * length
      && ((forall i :: 0 <= i < |window| ==> window[i].refill == REFILL) ==> granted <= 64.0 + 32.0 * length)
  {
    GrantsInAnyWindow(start, before, window, REFILL_WHEN_EVERY_SHARE_IS_A_BLOCK);
    if forall i :: 0 <= i < |window| ==> window[i].refill == REFILL {
      AtOrdinaryRate(End(start, before), window);
      GrantsInAnyWindow(start, before, window, REFILL);
    }
  }

  lemma {:induction false} AtOrdinaryRate(from: real, calls: seq<Call>)
    requires Paced(from, calls, REFILL_WHEN_EVERY_SHARE_IS_A_BLOCK)
    requires forall i :: 0 <= i < |calls| ==> calls[i].refill == REFILL
    ensures Paced(from, calls, REFILL)
    decreases calls
  {
    if calls != [] {
      AtOrdinaryRate(calls[0].now, calls[1..]);
    }
  }

  lemma WindowInflow(from: real, window: seq<Call>, rate: real)
    requires window != [] && Paced(from, window, rate)
    ensures Inflow(window[0].now, window[1..]) <= (window[|window| - 1].now - window[0].now) * rate
  {
    InflowIsBounded(window[0].now, window[1..], rate);
    var end := window[|window| - 1].now;
    assert End(window[0].now, window[1..]) == end;
  }

  lemma GrantsFromFirst(b: Level, window: seq<Call>, rate: real)
    requires 0.0 <= b.tokens <= BURST && window != [] && Paced(b.last, window, rate)
    ensures Granted(b, window) as real <= BURST + Inflow(window[0].now, window[1..])
  {
    var next := After(b, window[0]);
    Gain(Elapsed(b.last, window[0].now), window[0].refill, rate);
    GrantsArePaidFor(next, window[1..]);
    LevelStays(next, window[1..], rate);
  }

  // A peer that waits for one token between calls is never refused.
  predicate Spaced(from: real, calls: seq<Call>)
    decreases calls
  {
    calls == [] || (
      && from <= calls[0].now
      && 0.0 <= calls[0].refill
      && (calls[0].now - from) * calls[0].refill >= 1.0
      && Spaced(calls[0].now, calls[1..]))
  }

  lemma {:induction false} SpacedCallsAreGranted(b: Level, calls: seq<Call>)
    requires 0.0 <= b.tokens && Spaced(b.last, calls)
    ensures Granted(b, calls) == |calls|
    decreases calls
  {
    if calls != [] {
      assert Elapsed(b.last, calls[0].now) == calls[0].now - b.last;
      SpacedCallsAreGranted(After(b, calls[0]), calls[1..]);
    }
  }

  // And a burst is granted whole, however fast it comes.
  lemma {:induction false} BurstIsGranted(b: Level, calls: seq<Call>, rate: real)
    requires |calls| as real <= b.tokens <= BURST && Paced(b.last, calls, rate)
    ensures Granted(b, calls) == |calls|
    decreases calls
  {
    if calls != [] {
      Gain(Elapsed(b.last, calls[0].now), calls[0].refill, rate);
      BurstIsGranted(After(b, calls[0]), calls[1..], rate);
    }
  }
}

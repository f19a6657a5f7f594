/** limiter in internal/adapter/geotab/client.go: reserved slots at least every
    apart, so any window of n intervals holds at most n of them. */
module Limiter {
  import opened Durations

  /** The wait one call reserves, and where the next slot then starts. */
  function Delay(next: int, now: int): int {
    Max(Sub(next, now), 0)
  }

  function Slot(next: int, now: int): int {
    now + Delay(next, now)
  }

  function Following(next: int, now: int, every: int): int {
    now + Wrap(Delay(next, now) + every)
  }

  /** The clock has not jumped back so far that the delay no longer fits a Duration.
      A clock with a monotonic reading never does: see SteadyClockIsInRange. */
  predicate InRange(next: int, now: int, every: int) {
    next - now <= MAX_DURATION - every
  }

  class Limiter {
    const every: int
    var next: int

    constructor (every: int, start: int)
      requires 0 < every <= MAX_DURATION
      ensures this.every == every && next == start
    {
      this.every := every;
      next := start;
    }

    /** Reserves a slot at the clock reading now. The slot stays reserved whether
        or not the caller waits for it. */
    method Wait(now: int) returns (delay: int)
      requires 0 < every <= MAX_DURATION
      modifies this
      ensures delay == Delay(old(next), now) && next == Following(old(next), now, every)
      ensures InRange(old(next), now, every) ==>
        now + delay >= old(next) && next == now + delay + every
    {
      delay := Sub(next, now);
      if delay < 0 {
        delay := 0;
      }
      next := now + Wrap(delay + every);
    }
  }

  /** One reservation keeps the spacing exactly when the clock is in range: its slot
      is not before the one it was promised, and the next is a full interval later. */
  lemma SpacingExactly(next: int, now: int, every: int)
    requires 0 < every <= MAX_DURATION
    ensures Slot(next, now) >= next && Following(next, now, every) == Slot(next, now) + every
      <==> InRange(next, now, every)
  {
  }

  /** The slots a series of waits reserves, for whatever the clock read at each. */
  function Reserved(start: int, clock: seq<int>, every: int): (slots: seq<int>)
    ensures |slots| == |clock|
    decreases clock
  {
    if clock == [] then [] else [Slot(start, clock[0])] + Reserved(Following(start, clock[0], every), clock[1..], every)
  }

  predicate ClockInRange(start: int, clock: seq<int>, every: int)
    decreases clock
  {
    clock == []
    || (InRange(start, clock[0], every) && ClockInRange(Following(start, clock[0], every), clock[1..], every))
  }

  predicate Steady(clock: seq<int>) {
    forall m, n :: 0 <= m < n < |clock| ==> clock[m] <= clock[n]
  }

  /** How many reserved slots have not come up yet: the calls still waiting. */
  function Ahead(slots: seq<int>, now: int): nat {
    if slots == [] then 0
    else Ahead(slots[..|slots| - 1], now) + (if slots[|slots| - 1] >= now then 1 else 0)
  }

  /** At no reading of the clock are more than most calls still waiting. */
  predicate FewAhead(past: seq<int>, start: int, clock: seq<int>, every: int, most: nat)
    decreases clock
  {
    clock == []
    || (Ahead(past, clock[0]) <= most
        && FewAhead(past + [Slot(start, clock[0])], Following(start, clock[0], every), clock[1..], every, most))
  }

  /** From now on the promised slot is only as far off as the waiting calls put it. */
  ghost predicate Backed(past: seq<int>, next: int, every: int, now: int) {
    forall t :: t >= now ==> next - t <= (Ahead(past, t) + 1) * every
  }

  lemma StaysBacked(past: seq<int>, next: int, every: int, now: int)
    requires 0 < every && Backed(past, next, every, now)
    ensures Backed(past + [Max(next, now)], Max(next, now) + every, every, now)
  {
    var slot := Max(next, now);
    forall t | t >= now ensures slot + every - t <= (Ahead(past + [slot], t) + 1) * every {
      assert (past + [slot])[..|past|] == past;
      if t <= slot {
        assert next - t <= (Ahead(past, t) + 1) * every;
        assert (Ahead(past, t) + 2) * every == (Ahead(past, t) + 1) * every + every;
        TimesOrder(0, Ahead(past, t) + 1, every);
      } else {
        TimesOrder(1, Ahead(past, t) + 1, every);
      }
    }
  }

  /** A clock that never steps back is in range, whatever it reads, until the calls
      waiting at one moment fill 292 years. */
  lemma {:induction false} SteadyClockIsInRange(past: seq<int>, start: int, clock: seq<int>, every: int, most: nat)
    requires 0 < every && Steady(clock) && (most + 2) * every <= MAX_DURATION
    requires clock != [] ==> Backed(past, start, every, clock[0])
    requires FewAhead(past, start, clock, every, most)
    ensures ClockInRange(start, clock, every)
    decreases clock
  {
    if clock == [] {
    } else {
      var now, rest := clock[0], clock[1..];
      assert start - now <= (Ahead(past, now) + 1) * every;
      TimesOrder(Ahead(past, now) + 1, most + 1, every);
      assert (most + 2) * every == (most + 1) * every + every;
      TimesOrder(0, most + 1, every);
      SpacingExactly(start, now, every);
      StaysBacked(past, start, every, now);
      assert rest != [] ==> rest[0] == clock[1] >= now;
      SteadyClockIsInRange(past + [Slot(start, now)], Following(start, now, every), rest, every, most);
    }
  }

  predicate Spaced(slots: seq<int>, every: int) {
    forall n :: 0 < n < |slots| ==> slots[n] >= slots[n - 1] + every
  }

  /** Reserved slots are at least every apart, whatever the clock does. */
  lemma {:induction false} SlotsAreSpaced(start: int, clock: seq<int>, every: int)
    requires 0 < every <= MAX_DURATION && ClockInRange(start, clock, every)
    ensures Spaced(Reserved(start, clock, every), every)
    ensures clock != [] ==> Reserved(start, clock, every)[0] >= start
    decreases clock
  {
    if clock == [] {
    } else {
      SpacingExactly(start, clock[0], every);
      SlotsAreSpaced(Following(start, clock[0], every), clock[1..], every);
    }
  }

  /** How many slots fall in [from, from + length). */
  function InWindow(slots: seq<int>, from: int, length: int): nat {
    if slots == [] then 0
    else
      var last := slots[|slots| - 1];
      InWindow(slots[..|slots| - 1], from, length) + (if from <= last < from + length then 1 else 0)
  }

  /** The count in a window grows by one at most per interval it has crossed. */
  lemma {:induction false} WindowFills(slots: seq<int>, every: int, from: int, length: int)
    requires every > 0 && Spaced(slots, every) && slots != []
    ensures InWindow(slots, from, length) == 0
      || (slots[|slots| - 1] >= from && (InWindow(slots, from, length) - 1) * every <= slots[|slots| - 1] - from)
    ensures InWindow(slots, from, length) == 0
      || (InWindow(slots, from, length) - 1) * every < length
  {
    var n := |slots| - 1;
    var init, last := slots[..n], slots[n];
    if n == 0 {
    } else {
      WindowFills(init, every, from, length);
      var before := InWindow(init, from, length);
      assert last >= init[n - 1] + every;
      assert before * every == (before - 1) * every + every;
    }
  }

  lemma TimesOrder(a: int, b: int, every: int)
    requires a <= b && every > 0
    ensures a * every <= b * every
  {
    assert b * every == a * every + (b - a) * every;
  }

  /** Any window of k intervals holds at most k slots, cancelled waits included. */
  lemma WindowBound(slots: seq<int>, every: int, from: int, k: nat)
    requires every > 0 && Spaced(slots, every)
    ensures InWindow(slots, from, k * every) <= k
  {
    if slots != [] {
      WindowFills(slots, every, from, k * every);
      var count := InWindow(slots, from, k * every);
      if count > k {
        TimesOrder(k, count - 1, every);
      }
    }
  }

  const FEED_CALLS_PER_MINUTE: int := 60
  const GET_CALLS_PER_MINUTE: int := 500

  /** The two documented budgets, over any half-open minute. */
  lemma MinuteBudgets(start: int, clock: seq<int>, from: int)
    ensures ClockInRange(start, clock, MINUTE / FEED_CALLS_PER_MINUTE) ==>
      InWindow(Reserved(start, clock, MINUTE / FEED_CALLS_PER_MINUTE), from, MINUTE) <= 60
    ensures ClockInRange(start, clock, MINUTE / GET_CALLS_PER_MINUTE) ==>
      InWindow(Reserved(start, clock, MINUTE / GET_CALLS_PER_MINUTE), from, MINUTE) <= 500
  {
    var feed, get := MINUTE / FEED_CALLS_PER_MINUTE, MINUTE / GET_CALLS_PER_MINUTE;
    if ClockInRange(start, clock, feed) {
      SlotsAreSpaced(start, clock, feed);
      WindowBound(Reserved(start, clock, feed), feed, from, 60);
    }
    if ClockInRange(start, clock, get) {
      SlotsAreSpaced(start, clock, get);
      WindowBound(Reserved(start, clock, get), get, from, 500);
    }
  }

  /** Nine billion calls, a second apart, are less than a Duration. */
  const MOST_WAITING: nat := 9_000_000_000

  /** So a limiter that starts free keeps its budget in every minute of a clock that
      never steps back, as long as no more than nine billion calls wait at once. */
  lemma SteadyBudgets(start: int, clock: seq<int>, from: int)
    requires Steady(clock) && (clock != [] ==> start <= clock[0])
    ensures FewAhead([], start, clock, MINUTE / FEED_CALLS_PER_MINUTE, MOST_WAITING) ==>
      InWindow(Reserved(start, clock, MINUTE / FEED_CALLS_PER_MINUTE), from, MINUTE) <= 60
    ensures FewAhead([], start, clock, MINUTE / GET_CALLS_PER_MINUTE, MOST_WAITING) ==>
      InWindow(Reserved(start, clock, MINUTE / GET_CALLS_PER_MINUTE), from, MINUTE) <= 500
  {
    var feed, get := MINUTE / FEED_CALLS_PER_MINUTE, MINUTE / GET_CALLS_PER_MINUTE;
    if FewAhead([], start, clock, feed, MOST_WAITING) {
      SteadyClockIsInRange([], start, clock, feed, MOST_WAITING);
    }
    if FewAhead([], start, clock, get, MOST_WAITING) {
      SteadyClockIsInRange([], start, clock, get, MOST_WAITING);
    }
    MinuteBudgets(start, clock, from);
  }
}

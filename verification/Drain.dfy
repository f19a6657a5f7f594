/** pollOnce and drain in internal/pipeline: polling again while the adapter
    reports a backlog. */
module Drain {
  import opened Durations

  const MAX_EAGER_PAGES: nat := 500

  /** What the adapter answers to one Poll. */
  datatype Reply<C> = Fails | Page(next: C, count: nat, backlog: bool)

  /** reply(n, cursor) answers the n-th poll of this round; slept(n) says the eager
      pause before it ran to its end. */
  datatype World<!C> = World(reply: (nat, C) -> Reply<C>, slept: nat -> bool)

  datatype PollResult<C> = PollResult(cursor: C, ok: bool, backlog: bool, events: nat)

  function PollOnce<C>(w: World<C>, n: nat, cursor: C): PollResult<C> {
    match w.reply(n, cursor)
    case Fails => PollResult(cursor, false, false, 0)
    case Page(next, count, backlog) => PollResult(next, true, backlog, count)
  }

  /** The drain goes on from result k only if it was a successful page with more
      behind it that moved the cursor, under the cap, and the pause was not cut short. */
  predicate GoesOn<C(==)>(w: World<C>, trace: seq<PollResult<C>>, k: nat)
    requires k < |trace|
  {
    && trace[k].ok && trace[k].backlog && k + 1 < MAX_EAGER_PAGES && w.slept(k + 1)
    && (k > 0 ==> trace[k].cursor != trace[k - 1].cursor)
  }

  /** The polls of one round, in order, ending where the code ends it. */
  predicate IsRound<C(==)>(w: World<C>, start: C, trace: seq<PollResult<C>>) {
    && trace != [] && trace[0] == PollOnce(w, 0, start)
    && (forall k :: 0 <= k < |trace| - 1 ==> GoesOn(w, trace, k) && trace[k + 1] == PollOnce(w, k + 1, trace[k].cursor))
    && !GoesOn(w, trace, |trace| - 1)
  }

  /** A round from its results so far to its end. */
  ghost function Finished<C>(w: World<C>, trace: seq<PollResult<C>>): (full: seq<PollResult<C>>)
    requires trace != []
    ensures full != []
    decreases MAX_EAGER_PAGES - |trace|
  {
    var n := |trace| - 1;
    if GoesOn(w, trace, n) then Finished(w, trace + [PollOnce(w, n + 1, trace[n].cursor)]) else trace
  }

  /** The polls one turn of the loop makes. */
  ghost function Round<C>(w: World<C>, start: C): seq<PollResult<C>> {
    Finished(w, [PollOnce(w, 0, start)])
  }

  ghost function Last<C>(trace: seq<PollResult<C>>): PollResult<C>
    requires trace != []
  {
    trace[|trace| - 1]
  }

  predicate Underway<C(==)>(w: World<C>, start: C, trace: seq<PollResult<C>>) {
    && trace != [] && trace[0] == PollOnce(w, 0, start)
    && forall k :: 0 <= k < |trace| - 1 ==> GoesOn(w, trace, k) && trace[k + 1] == PollOnce(w, k + 1, trace[k].cursor)
  }

  lemma {:induction false} FinishedIsRound<C>(w: World<C>, start: C, trace: seq<PollResult<C>>)
    requires Underway(w, start, trace)
    ensures IsRound(w, start, Finished(w, trace))
    decreases MAX_EAGER_PAGES - |trace|
  {
    var n := |trace| - 1;
    if GoesOn(w, trace, n) {
      var next := trace + [PollOnce(w, n + 1, trace[n].cursor)];
      forall k | 0 <= k < |next| - 1
        ensures GoesOn(w, next, k) && next[k + 1] == PollOnce(w, k + 1, next[k].cursor)
      {
        assert GoesOn(w, trace, k);
      }
      FinishedIsRound(w, start, next);
    }
  }

  /** The eager loop makes the polls of the round, and ends with its last result.
      trace is every result it got, the live poll's first. */
  method DrainFrom<C(==)>(w: World<C>, start: C, first: PollResult<C>)
    returns (r: PollResult<C>, ghost trace: seq<PollResult<C>>)
    requires first == PollOnce(w, 0, start) && first.ok && first.backlog
    ensures trace == Round(w, start) && r == Last(Round(w, start))
  {
    var pages := 1;
    r, trace := first, [first];
    while r.backlog && pages < MAX_EAGER_PAGES
      invariant 1 <= pages <= MAX_EAGER_PAGES && |trace| == pages && r == Last(trace)
      invariant r.ok && (pages > 1 ==> r.cursor != trace[pages - 2].cursor)
      invariant Finished(w, trace) == Round(w, start)
      decreases MAX_EAGER_PAGES - pages
    {
      if !w.slept(pages) {
        break;
      }
      var prev := r.cursor;
      r := PollOnce(w, pages, prev);
      assert GoesOn(w, trace, pages - 1);
      trace := trace + [r];
      if !r.ok {
        break;
      }
      pages := pages + 1;
      if r.cursor == prev {
        break;
      }
    }
  }

  /** One turn of the poll loop: a live poll, then a drain if it reports a backlog. */
  method PollRound<C(==)>(w: World<C>, start: C) returns (r: PollResult<C>, ghost trace: seq<PollResult<C>>)
    ensures trace == Round(w, start) && r == Last(Round(w, start))
    ensures |trace| <= MAX_EAGER_PAGES
  {
    RoundIsGuarded(w, start);
    r := PollOnce(w, 0, start);
    trace := [r];
    if r.ok && r.backlog {
      r, trace := DrainFrom(w, start, r);
    }
  }

  /** Under any failures: at most 500 polls, and the cursor handed back is the one
      the last successful page returned, or the one the round started from. */
  lemma RoundIsGuarded<C>(w: World<C>, start: C)
    ensures IsRound(w, start, Round(w, start)) && |Round(w, start)| <= MAX_EAGER_PAGES
    ensures forall k :: 0 <= k < |Round(w, start)| - 1 ==> Round(w, start)[k].ok
    ensures !Last(Round(w, start)).ok ==> Last(Round(w, start)).events == 0 && !Last(Round(w, start)).backlog
    ensures
      var trace := Round(w, start);
      var n := |trace| - 1;
      if trace[n].ok then trace[n] == PollOnce(w, n, if n == 0 then start else trace[n - 1].cursor)
      else trace[n].cursor == if n == 0 then start else trace[n - 1].cursor
  {
    FinishedIsRound(w, start, [PollOnce(w, 0, start)]);
    var trace := Round(w, start);
    var n := |trace| - 1;
    if n > 0 {
      assert GoesOn(w, trace, n - 1);
    }
    forall k | 0 <= k < n ensures trace[k].ok {
      assert GoesOn(w, trace, k);
    }
  }

  /** Why a round goes on and why it ends, of its results alone: after a failure, after
      a page with nothing behind it, at the cap, when the pause is cut short, and after
      an eager page that left the cursor where it was. */
  lemma RoundEndsExactly<C>(w: World<C>, start: C, k: nat)
    requires k < |Round(w, start)|
    ensures
      var trace := Round(w, start);
      k == |trace| - 1
      <==> !trace[k].ok || !trace[k].backlog || k + 1 == MAX_EAGER_PAGES || !w.slept(k + 1)
           || (k > 0 && trace[k].cursor == trace[k - 1].cursor)
  {
    RoundIsGuarded(w, start);
    var trace := Round(w, start);
    assert k < |trace| - 1 ==> GoesOn(w, trace, k);
    assert !GoesOn(w, trace, |trace| - 1);
  }

  // ---- a paged feed with nothing going wrong ----

  /** total records behind the cursor base, limit to a page; the cursor counts what
      has been read, and a page is reported as a backlog when it is full. */
  function FeedReply(base: nat, total: nat, limit: nat, cursor: nat): Reply<nat> {
    if !(base <= cursor <= base + total) then Fails
    else
      var count := Min(base + total - cursor, limit);
      Page(cursor + count, count, count >= limit)
  }

  ghost predicate IsFeed(w: World<nat>, base: nat, total: nat, limit: nat) {
    (forall n, c :: w.reply(n, c) == FeedReply(base, total, limit, c)) && (forall n :: w.slept(n))
  }

  function Consumed<C>(trace: seq<PollResult<C>>): nat {
    if trace == [] then 0 else Consumed(trace[..|trace| - 1]) + trace[|trace| - 1].events
  }

  /** After k + 1 pages: k + 1 full ones, or everything. */
  lemma {:induction false} FeedProgress(w: World<nat>, base: nat, total: nat, limit: nat, trace: seq<PollResult<nat>>, k: nat)
    requires limit > 0 && IsFeed(w, base, total, limit) && IsRound(w, base, trace) && k < |trace|
    ensures k * limit <= total
    ensures trace[k].ok && trace[k].cursor == base + Min((k + 1) * limit, total)
    ensures trace[k].backlog <==> (k + 1) * limit <= total
    ensures base + Consumed(trace[..k + 1]) == trace[k].cursor
  {
    assert trace[..k + 1][..k] == trace[..k];
    if k == 0 {
      assert trace[..1] == [trace[0]];
    } else {
      FeedProgress(w, base, total, limit, trace, k - 1);
      assert GoesOn(w, trace, k - 1);
      assert (k + 1) * limit == k * limit + limit;
    }
  }

  lemma FeedRound(w: World<nat>, base: nat, total: nat, limit: nat, trace: seq<PollResult<nat>>)
    requires limit > 0 && IsFeed(w, base, total, limit) && IsRound(w, base, trace) && |trace| <= MAX_EAGER_PAGES
    ensures |trace| == Min(total / limit + 1, MAX_EAGER_PAGES)
    ensures Consumed(trace) == Min(total, MAX_EAGER_PAGES * limit)
    ensures Last(trace).cursor == base + Consumed(trace)
  {
    var n := |trace| - 1;
    FeedProgress(w, base, total, limit, trace, n);
    assert trace[..n + 1] == trace;
    assert n + 1 < MAX_EAGER_PAGES ==> !trace[n].backlog;
    PagesNeeded(n, total, limit);
  }

  /** The round stops after page n + 1 because everything is read or the cap is met. */
  lemma PagesNeeded(n: nat, total: nat, limit: nat)
    requires limit > 0 && n + 1 <= MAX_EAGER_PAGES && n * limit <= total
    requires n + 1 < MAX_EAGER_PAGES ==> total < (n + 1) * limit
    ensures n + 1 == Min(total / limit + 1, MAX_EAGER_PAGES)
    ensures Min((n + 1) * limit, total) == Min(total, MAX_EAGER_PAGES * limit)
  {
    assert (n + 1) * limit == n * limit + limit;
    if n + 1 < MAX_EAGER_PAGES {
      QuotientIs(total, limit, n);
      PagesUnderCap(n + 1, limit);
    } else {
      QuotientAtLeast(total, limit, n);
    }
  }

  /** N records after the cursor, pages of L: exactly min(N / L + 1, 500) polls,
      consuming exactly min(N, 500 L) records. */
  lemma EagerDrainClosedForm(w: World<nat>, base: nat, total: nat, limit: nat)
    requires limit > 0 && IsFeed(w, base, total, limit)
    ensures |Round(w, base)| == Min(total / limit + 1, MAX_EAGER_PAGES)
    ensures Consumed(Round(w, base)) == Min(total, MAX_EAGER_PAGES * limit)
    ensures Last(Round(w, base)).cursor == base + Consumed(Round(w, base))
  {
    RoundIsGuarded(w, base);
    FeedRound(w, base, total, limit, Round(w, base));
  }

  lemma PagesUnderCap(pages: nat, limit: nat)
    requires pages <= MAX_EAGER_PAGES
    ensures pages * limit <= MAX_EAGER_PAGES * limit
  {
    assert MAX_EAGER_PAGES * limit == pages * limit + (MAX_EAGER_PAGES - pages) * limit;
  }

  lemma QuotientIs(total: nat, limit: nat, n: nat)
    requires limit > 0 && n * limit <= total < n * limit + limit
    ensures total / limit == n
  {
    var q, r := total / limit, total % limit;
    assert total == q * limit + r;
    if q < n {
      assert (q + 1) * limit <= n * limit by { PagesOrder(q + 1, n, limit); }
    } else if q > n {
      assert (n + 1) * limit <= q * limit by { PagesOrder(n + 1, q, limit); }
    }
  }

  lemma QuotientAtLeast(total: nat, limit: nat, n: nat)
    requires limit > 0 && n * limit <= total
    ensures total / limit >= n
  {
    var q, r := total / limit, total % limit;
    assert total == q * limit + r;
    if q < n {
      PagesOrder(q + 1, n, limit);
    }
  }

  lemma PagesOrder(a: nat, b: nat, limit: nat)
    requires a <= b
    ensures a * limit <= b * limit
  {
    assert b * limit == a * limit + (b - a) * limit;
  }
}

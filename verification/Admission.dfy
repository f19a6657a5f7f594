/** What a source dispatches, told from its own steps alone: the pages its polls
    returned and the answers deduplication gave. */
module Admission {
  import opened Events
  import opened Protocol

  /** One event of a page, and whether the page waits for room in full queues. */
  datatype Arrival = Arrival(event: Event, waits: bool)

  // ---- what the steps of one source say ----

  /** The source polls eagerly: it went on from a page and has not slept since. */
  predicate Draining(acts: seq<Action>, i: nat) {
    if acts == [] then false
    else
      var last := acts[|acts| - 1];
      if last == ByPoller(i, PollAgain) then true
      else if last == ByPoller(i, Tick) then false
      else Draining(acts[..|acts| - 1], i)
  }

  lemma {:induction false} DrainingExactly(acts: seq<Action>, i: nat)
    ensures Draining(acts, i)
      <==> exists x :: 0 <= x < |acts| && acts[x] == ByPoller(i, PollAgain)
             && forall y :: x < y < |acts| ==> acts[y] != ByPoller(i, Tick)
  {
    if acts == [] {
    } else {
      var n := |acts| - 1;
      DrainingExactly(acts[..n], i);
      if Draining(acts[..n], i) && acts[n] != ByPoller(i, Tick) {
        var x :| 0 <= x < n && acts[x] == ByPoller(i, PollAgain)
          && forall y :: x < y < n ==> acts[..n][y] != ByPoller(i, Tick);
        assert forall y :: x < y < n ==> acts[y] == acts[..n][y];
      }
      if x :| 0 <= x < n && acts[x] == ByPoller(i, PollAgain) && forall y :: x < y <= n ==> acts[y] != ByPoller(i, Tick) {
        assert acts[..n][x] == acts[x] && forall y :: x < y < n ==> acts[..n][y] == acts[y];
      }
    }
  }

  /** The last page the source read was reported to have more behind it. */
  predicate Backlogged(acts: seq<Action>, i: nat) {
    if acts == [] then false
    else
      var last := acts[|acts| - 1];
      if last.ByPoller? && last.i == i && last.pa.PollReturns? then last.pa.backlog
      else Backlogged(acts[..|acts| - 1], i)
  }

  /** It is the source's turn to poll: it has started, slept or gone on from a page, and
      no poll has ended since. */
  predicate MayPoll(acts: seq<Action>, i: nat) {
    if acts == [] then true
    else
      var last := acts[|acts| - 1];
      if last.ByPoller? && last.i == i && (last.pa.PollFails? || last.pa.PollReturns?) then false
      else if last == ByPoller(i, Tick) || last == ByPoller(i, PollAgain) then true
      else MayPoll(acts[..|acts| - 1], i)
  }

  /** What one more step brings in. */
  function Arriving(a: Action, i: nat, draining: bool): seq<Arrival> {
    if a.ByPoller? && a.i == i && a.pa.PollReturns?
    then seq(|a.pa.page|, k requires 0 <= k < |a.pa.page| => Arrival(a.pa.page[k], a.pa.backlog || draining))
    else []
  }

  /** Every event the source's polls returned, in order. */
  function Fetched(acts: seq<Action>, i: nat): seq<Arrival> {
    if acts == [] then []
    else
      var front := acts[..|acts| - 1];
      Fetched(front, i) + Arriving(acts[|acts| - 1], i, Draining(front, i))
  }

  function Answered(a: Action, i: nat): seq<Answer> {
    if a.ByPoller? && a.i == i && a.pa.Mark? then [a.pa.answer] else []
  }

  /** Every answer deduplication gave the source, in order. */
  function Answers(acts: seq<Action>, i: nat): seq<Answer> {
    if acts == [] then [] else Answers(acts[..|acts| - 1], i) + Answered(acts[|acts| - 1], i)
  }

  /** The arrivals that were not answered to be duplicates. An error lets one through. */
  function Dispatched(arrivals: seq<Arrival>, answers: seq<Answer>): seq<Arrival>
    requires |answers| <= |arrivals|
  {
    if answers == [] then []
    else
      var n := |answers| - 1;
      Dispatched(arrivals, answers[..n]) + (if answers[n].IsDuplicate? then [] else [arrivals[n]])
  }

  function AsLog(i: nat, xs: seq<Arrival>): seq<Dispatch> {
    seq(|xs|, n requires 0 <= n < |xs| => Dispatch(i, n, xs[n].event, xs[n].waits))
  }

  lemma OneMoreStep(acts: seq<Action>, a: Action, i: nat)
    ensures Fetched(acts + [a], i) == Fetched(acts, i) + Arriving(a, i, Draining(acts, i))
    ensures Answers(acts + [a], i) == Answers(acts, i) + Answered(a, i)
    ensures Draining(acts + [a], i)
      <==> a == ByPoller(i, PollAgain) || (Draining(acts, i) && a != ByPoller(i, Tick))
    ensures Backlogged(acts + [a], i)
      <==> if a.ByPoller? && a.i == i && a.pa.PollReturns? then a.pa.backlog else Backlogged(acts, i)
    ensures MayPoll(acts + [a], i)
      <==> if a.ByPoller? && a.i == i && (a.pa.PollFails? || a.pa.PollReturns?) then false
           else a == ByPoller(i, Tick) || a == ByPoller(i, PollAgain) || MayPoll(acts, i)
  {
    assert (acts + [a])[..|acts|] == acts;
  }

  /** Most steps neither read nor answer. */
  lemma QuietStep(acts: seq<Action>, a: Action, i: nat)
    requires !(a.ByPoller? && a.i == i && (a.pa.PollReturns? || a.pa.Mark?))
    ensures Fetched(acts + [a], i) == Fetched(acts, i) && Answers(acts + [a], i) == Answers(acts, i)
  {
    OneMoreStep(acts, a, i);
    assert Fetched(acts, i) + [] == Fetched(acts, i) && Answers(acts, i) + [] == Answers(acts, i);
  }

  lemma {:induction false} MoreArrivals(arrivals: seq<Arrival>, more: seq<Arrival>, answers: seq<Answer>)
    requires |answers| <= |arrivals|
    ensures Dispatched(arrivals + more, answers) == Dispatched(arrivals, answers)
  {
    if answers == [] {
    } else {
      MoreArrivals(arrivals, more, answers[..|answers| - 1]);
    }
  }

  lemma OneMoreAnswer(arrivals: seq<Arrival>, answers: seq<Answer>, answer: Answer)
    requires |answers| < |arrivals|
    ensures Dispatched(arrivals, answers + [answer])
      == Dispatched(arrivals, answers) + (if answer.IsDuplicate? then [] else [arrivals[|answers|]])
  {
    assert (answers + [answer])[..|answers|] == answers;
  }

  // ---- a poller follows them ----

  /** The events of the page that are still to be looked at. */
  function Ahead(p: Poller): seq<Arrival> {
    if InPage(p)
    then seq(|p.phase.rest|, k requires 0 <= k < |p.phase.rest| => Arrival(p.phase.rest[k], p.phase.block))
    else []
  }

  /** The log is what was let through, and the page in hand is what is not looked at yet. */
  predicate Agrees(p: Poller, i: nat, arrivals: seq<Arrival>, answers: seq<Answer>) {
    && |answers| <= |arrivals| && arrivals[|answers|..] == Ahead(p)
    && p.log == AsLog(i, Dispatched(arrivals, answers))
  }

  predicate Follows(p: Poller, i: nat, acts: seq<Action>) {
    && Agrees(p, i, Fetched(acts, i), Answers(acts, i))
    && (p.phase.Polling? ==> (p.phase.eager <==> Draining(acts, i)))
    && (InPage(p) ==> (p.phase.backlog <==> Backlogged(acts, i)))
    && (p.phase.Polling? <==> MayPoll(acts, i))
  }

  predicate InPage(p: Poller) {
    p.phase.Working? || p.phase.Dispatching?
  }

  lemma PageAgrees(c: Setup, s: State, i: nat, a: PollerAct, arrivals: seq<Arrival>, answers: seq<Answer>)
    requires PollerEnabled(c, s, i, a) && a.PollReturns? && Agrees(s.pollers[i], i, arrivals, answers)
    ensures Agrees(Moved(c, s, i, a), i, arrivals + Arriving(ByPoller(i, a), i, s.pollers[i].phase.eager), answers)
  {
    var more := Arriving(ByPoller(i, a), i, s.pollers[i].phase.eager);
    MoreArrivals(arrivals, more, answers);
    assert |arrivals[|answers|..]| == 0;
    assert (arrivals + more)[|answers|..] == more == Ahead(Moved(c, s, i, a));
  }

  /** Letting an event through puts exactly it at the end of the log. */
  lemma MarkMoves(c: Setup, s: State, i: nat, a: PollerAct)
    requires PollerEnabled(c, s, i, a) && a.Mark?
    ensures Ahead(s.pollers[i]) != []
    ensures
      var p, p' := s.pollers[i], Moved(c, s, i, a);
      && Ahead(p') == Ahead(p)[1..]
      && p'.log == if a.answer.IsDuplicate? then p.log
                   else p.log + [Dispatch(i, |p.log|, Ahead(p)[0].event, Ahead(p)[0].waits)]
  {
  }

  lemma MarkAgrees(c: Setup, s: State, i: nat, a: PollerAct, arrivals: seq<Arrival>, answers: seq<Answer>)
    requires PollerEnabled(c, s, i, a) && a.Mark? && Agrees(s.pollers[i], i, arrivals, answers)
    ensures Agrees(Moved(c, s, i, a), i, arrivals, answers + [a.answer])
  {
    var n := |answers|;
    MarkMoves(c, s, i, a);
    assert arrivals[n] == arrivals[n..][0] && arrivals[n + 1..] == arrivals[n..][1..];
    OneMoreAnswer(arrivals, answers, a.answer);
  }

  lemma QuietAgrees(c: Setup, s: State, i: nat, a: PollerAct)
    requires PollerEnabled(c, s, i, a) && !a.PollReturns? && !a.Mark?
    ensures Moved(c, s, i, a).log == s.pollers[i].log && Ahead(Moved(c, s, i, a)) == Ahead(s.pollers[i])
  {
  }

  /** Only going on from a page makes the next poll an eager one. */
  lemma EagerStep(c: Setup, s: State, i: nat, a: PollerAct)
    requires PollerEnabled(c, s, i, a) && Moved(c, s, i, a).phase.Polling?
    ensures Moved(c, s, i, a).phase.eager
      <==> a.PollAgain? || (s.pollers[i].phase.Polling? && s.pollers[i].phase.eager && !a.Tick?)
    ensures a.PollAgain? || a.Tick? || s.pollers[i].phase.Polling?
  {
  }

  /** Nothing changes a page's backlog flag while the page is in hand. */
  lemma BacklogStep(c: Setup, s: State, i: nat, a: PollerAct)
    requires PollerEnabled(c, s, i, a) && InPage(Moved(c, s, i, a))
    ensures a.PollReturns? || InPage(s.pollers[i])
    ensures Moved(c, s, i, a).phase.backlog <==> if a.PollReturns? then a.backlog else s.pollers[i].phase.backlog
  {
  }

  /** A poll, failed or not, ends the turn; a tick or going on from a page begins one. */
  lemma TurnStep(c: Setup, s: State, i: nat, a: PollerAct)
    requires PollerEnabled(c, s, i, a)
    ensures Moved(c, s, i, a).phase.Polling?
      <==> if a.PollFails? || a.PollReturns? then false
           else a.Tick? || a.PollAgain? || s.pollers[i].phase.Polling?
  {
  }

  lemma PollerFollows(c: Setup, s: State, i: nat, a: PollerAct, acts: seq<Action>)
    requires PollerEnabled(c, s, i, a) && Follows(s.pollers[i], i, acts)
    ensures Follows(Moved(c, s, i, a), i, acts + [ByPoller(i, a)])
  {
    OneMoreStep(acts, ByPoller(i, a), i);
    TurnStep(c, s, i, a);
    if a.PollReturns? {
      PageAgrees(c, s, i, a, Fetched(acts, i), Answers(acts, i));
      assert Answers(acts, i) + [] == Answers(acts, i);
    } else if a.Mark? {
      MarkAgrees(c, s, i, a, Fetched(acts, i), Answers(acts, i));
      assert Fetched(acts, i) + [] == Fetched(acts, i);
    } else {
      QuietStep(acts, ByPoller(i, a), i);
      QuietAgrees(c, s, i, a);
    }
    if Moved(c, s, i, a).phase.Polling? {
      EagerStep(c, s, i, a);
    }
    if InPage(Moved(c, s, i, a)) {
      BacklogStep(c, s, i, a);
    }
  }

  lemma StepFollows(c: Setup, s: State, a: Action, i: nat, acts: seq<Action>)
    requires Enabled(c, s, a) && i < |s.pollers| && Follows(s.pollers[i], i, acts)
    ensures i < |Next(c, s, a).pollers| && Follows(Next(c, s, a).pollers[i], i, acts + [a])
  {
    if a.ByPoller? && a.i == i {
      PollerFollows(c, s, i, a.pa, acts);
    } else {
      OneMoreStep(acts, a, i);
      QuietStep(acts, a, i);
    }
  }

  lemma InitFollows(c: Setup, seen: set<(string, string)>, i: nat)
    requires i < |c.sources|
    ensures i < |Init(c, seen).pollers| && Follows(Init(c, seen).pollers[i], i, [])
  {
  }

  lemma RunStepFollows(c: Setup, states: seq<State>, acts: seq<Action>, n: nat, i: nat)
    requires IsRun(c, states, acts) && n < |acts| && i < |states[n].pollers| && Follows(states[n].pollers[i], i, acts[..n])
    ensures i < |states[n + 1].pollers| && Follows(states[n + 1].pollers[i], i, acts[..n + 1])
  {
    StepFollows(c, states[n], acts[n], i, acts[..n]);
    assert acts[..n] + [acts[n]] == acts[..n + 1];
  }

  lemma {:induction false} RunFollows(c: Setup, states: seq<State>, acts: seq<Action>, n: nat, i: nat)
    requires IsRun(c, states, acts) && n < |states| && i < |c.sources|
    ensures i < |states[n].pollers| && Follows(states[n].pollers[i], i, acts[..n])
  {
    if n == 0 {
      var seen :| states[0] == Init(c, seen);
      InitFollows(c, seen, i);
    } else {
      RunFollows(c, states, acts, n - 1, i);
      RunStepFollows(c, states, acts, n - 1, i);
    }
  }

  /** A source ends a poll only in its turn: after a failed one, too, it sleeps first. */
  lemma PollsInTurn(c: Setup, states: seq<State>, acts: seq<Action>, n: nat, i: nat)
    requires IsRun(c, states, acts) && n < |acts| && acts[n].ByPoller? && acts[n].i == i
    requires acts[n].pa.PollFails? || acts[n].pa.PollReturns?
    ensures MayPoll(acts[..n], i)
  {
    assert Enabled(c, states[n], acts[n]);
    RunFollows(c, states, acts, n, i);
  }

  /** A source polls again without waiting only behind a page reported as a backlog. */
  lemma GoesOnFromBacklog(c: Setup, states: seq<State>, acts: seq<Action>, n: nat, i: nat)
    requires IsRun(c, states, acts) && n < |acts| && acts[n] == ByPoller(i, PollAgain)
    ensures exists m :: (
      && 0 <= m < n && acts[m].ByPoller? && acts[m].i == i && acts[m].pa.PollReturns? && acts[m].pa.backlog
      && forall x :: m < x < n ==> !(acts[x].ByPoller? && acts[x].i == i && acts[x].pa.PollReturns?))
  {
    assert Enabled(c, states[n], acts[n]);
    RunFollows(c, states, acts, n, i);
    var m := BackloggedFrom(acts[..n], i);
    assert acts[..n][m] == acts[m] && forall x :: m < x < n ==> acts[..n][x] == acts[x];
  }

  lemma {:induction false} BackloggedFrom(acts: seq<Action>, i: nat) returns (m: nat)
    requires Backlogged(acts, i)
    ensures m < |acts| && acts[m].ByPoller? && acts[m].i == i && acts[m].pa.PollReturns? && acts[m].pa.backlog
    ensures forall x :: m < x < |acts| ==> !(acts[x].ByPoller? && acts[x].i == i && acts[x].pa.PollReturns?)
  {
    var n := |acts| - 1;
    if acts[n].ByPoller? && acts[n].i == i && acts[n].pa.PollReturns? {
      m := n;
    } else {
      m := BackloggedFrom(acts[..n], i);
      assert acts[..n][m] == acts[m] && forall x :: m < x < n ==> acts[..n][x] == acts[x];
    }
  }

  // ---- positions in what was read ----

  /** How many answers let their event through. */
  function LetThrough(answers: seq<Answer>): nat {
    if answers == [] then 0
    else LetThrough(answers[..|answers| - 1]) + (if answers[|answers| - 1].IsDuplicate? then 0 else 1)
  }

  lemma {:induction false} DispatchedCount(arrivals: seq<Arrival>, answers: seq<Answer>)
    requires |answers| <= |arrivals|
    ensures |Dispatched(arrivals, answers)| == LetThrough(answers)
  {
    if answers == [] {
    } else {
      DispatchedCount(arrivals, answers[..|answers| - 1]);
    }
  }

  /** An arrival that was let through is dispatched at the place the answers before it leave it. */
  lemma {:induction false} DispatchedAt(arrivals: seq<Arrival>, answers: seq<Answer>, k: nat)
    requires k < |answers| <= |arrivals| && !answers[k].IsDuplicate?
    ensures LetThrough(answers[..k]) < |Dispatched(arrivals, answers)|
    ensures Dispatched(arrivals, answers)[LetThrough(answers[..k])] == arrivals[k]
  {
    var n := |answers| - 1;
    if k == n {
      DispatchedCount(arrivals, answers[..n]);
    } else {
      DispatchedAt(arrivals, answers[..n], k);
      assert answers[..n][..k] == answers[..k];
    }
  }

  lemma {:induction false} DispatchedFrom(arrivals: seq<Arrival>, answers: seq<Answer>, x: nat) returns (k: nat)
    requires |answers| <= |arrivals| && x < |Dispatched(arrivals, answers)|
    ensures k < |answers| && !answers[k].IsDuplicate? && x == LetThrough(answers[..k])
    ensures Dispatched(arrivals, answers)[x] == arrivals[k]
  {
    var n := |answers| - 1;
    if x < |Dispatched(arrivals, answers[..n])| {
      k := DispatchedFrom(arrivals, answers[..n], x);
      assert answers[..n][..k] == answers[..k];
    } else {
      k := n;
      DispatchedCount(arrivals, answers[..n]);
    }
  }

  /** The k-th event its source read was let through, and took this item's place. */
  predicate Placed(acts: seq<Action>, item: Dispatch, k: nat) {
    var answers := Answers(acts, item.source);
    k < |answers| && !answers[k].IsDuplicate? && item.serial == LetThrough(answers[..k])
  }

  /** And this is it. */
  predicate CameFrom(acts: seq<Action>, item: Dispatch, k: nat) {
    && Placed(acts, item, k) && k < |Fetched(acts, item.source)|
    && item.event == Fetched(acts, item.source)[k].event && item.block == Fetched(acts, item.source)[k].waits
  }

  /** The k-th event was read by the poll that returned at step m. */
  predicate ReadBy(acts: seq<Action>, i: nat, m: nat, k: nat) {
    && m < |acts| && acts[m].ByPoller? && acts[m].i == i && acts[m].pa.PollReturns?
    && |Fetched(acts[..m], i)| <= k < |Fetched(acts[..m], i)| + |acts[m].pa.page|
  }

  /** The poll that returned at step m was made behind a page, not after a tick. */
  ghost predicate Eager(acts: seq<Action>, i: nat, m: nat)
    requires m <= |acts|
  {
    exists x :: 0 <= x < m && acts[x] == ByPoller(i, PollAgain) && forall y :: x < y < m ==> acts[y] != ByPoller(i, Tick)
  }

  lemma {:induction false} FetchedGrows(acts: seq<Action>, i: nat, m: nat)
    requires m <= |acts|
    ensures Fetched(acts[..m], i) <= Fetched(acts, i)
  {
    if m == |acts| {
      assert acts[..m] == acts;
    } else {
      var front := acts[..|acts| - 1];
      FetchedGrows(front, i, m);
      assert front[..m] == acts[..m];
    }
  }

  lemma EagerIsDraining(acts: seq<Action>, i: nat, m: nat)
    requires m <= |acts|
    ensures Draining(acts[..m], i) <==> Eager(acts, i, m)
  {
    DrainingExactly(acts[..m], i);
    if Eager(acts, i, m) {
      var x :| 0 <= x < m && acts[x] == ByPoller(i, PollAgain) && forall y :: x < y < m ==> acts[y] != ByPoller(i, Tick);
      assert acts[..m][x] == acts[x];
    }
    if Draining(acts[..m], i) {
      var x :| 0 <= x < m && acts[..m][x] == ByPoller(i, PollAgain)
        && forall y :: x < y < m ==> acts[..m][y] != ByPoller(i, Tick);
      assert forall y :: x < y < m ==> acts[..m][y] == acts[y];
    }
  }

  /** A page waits exactly if its poll reported a backlog or was an eager one. */
  lemma ReadWaits(acts: seq<Action>, i: nat, m: nat, k: nat)
    requires ReadBy(acts, i, m, k)
    ensures k < |Fetched(acts, i)|
    ensures Fetched(acts, i)[k].event == acts[m].pa.page[k - |Fetched(acts[..m], i)|]
    ensures Fetched(acts, i)[k].waits <==> acts[m].pa.backlog || Eager(acts, i, m)
  {
    OneMoreStep(acts[..m], acts[m], i);
    assert acts[..m + 1] == acts[..m] + [acts[m]];
    FetchedGrows(acts, i, m + 1);
    EagerIsDraining(acts, i, m);
  }

  /** What is logged at a place is the event that took it. */
  lemma PlacedCameFrom(c: Setup, states: seq<State>, acts: seq<Action>, n: nat, item: Dispatch, k: nat)
    requires IsRun(c, states, acts) && n < |states| && item.source < |c.sources| && item.source < |states[n].pollers|
    requires item.serial < |states[n].pollers[item.source].log| && states[n].pollers[item.source].log[item.serial] == item
    requires Placed(acts[..n], item, k)
    ensures CameFrom(acts[..n], item, k)
  {
    RunFollows(c, states, acts, n, item.source);
    DispatchedAt(Fetched(acts[..n], item.source), Answers(acts[..n], item.source), k);
  }

  /** Everything in a log came from an event its source read and was not told to be a duplicate. */
  lemma LoggedCameFrom(c: Setup, states: seq<State>, acts: seq<Action>, n: nat, i: nat, x: nat) returns (k: nat)
    requires IsRun(c, states, acts) && n < |states| && i < |c.sources|
    requires i < |states[n].pollers| && x < |states[n].pollers[i].log|
    ensures CameFrom(acts[..n], states[n].pollers[i].log[x], k) && states[n].pollers[i].log[x].source == i
  {
    RunFollows(c, states, acts, n, i);
    k := DispatchedFrom(Fetched(acts[..n], i), Answers(acts[..n], i), x);
  }
}

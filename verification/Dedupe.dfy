/** Deduplication over whole runs: what each answer does, and that while the store
    answers and nothing is swept no source dispatches an id twice. */
module Dedupe {
  import opened Protocol
  import opened Admission

  /** The event a source would be asked about next. */
  function NextArrival(acts: seq<Action>, i: nat): (x: Arrival)
    requires |Answers(acts, i)| < |Fetched(acts, i)|
  {
    Fetched(acts, i)[|Answers(acts, i)|]
  }

  function KeyAt(c: Setup, i: nat, x: Arrival): (string, string)
    requires i < |c.sources|
  {
    (c.sources[i], x.event.id)
  }

  /** A duplicate leaves its source's log alone; any other answer, an error included,
      puts the next event read at the end of it. The answer is true of the store. */
  lemma AnswerDispatches(c: Setup, states: seq<State>, acts: seq<Action>, n: nat, i: nat)
    requires IsRun(c, states, acts) && n < |acts| && acts[n].ByPoller? && acts[n].i == i && acts[n].pa.Mark?
    ensures i < |c.sources| && i < |states[n].pollers| && i < |states[n + 1].pollers|
    ensures |Answers(acts[..n], i)| < |Fetched(acts[..n], i)|
    ensures
      var log, x := states[n].pollers[i].log, NextArrival(acts[..n], i);
      states[n + 1].pollers[i].log
      == if acts[n].pa.answer.IsDuplicate? then log else log + [Dispatch(i, |log|, x.event, x.waits)]
    ensures acts[n].pa.answer.IsDuplicate? ==> KeyAt(c, i, NextArrival(acts[..n], i)) in states[n].seen
    ensures acts[n].pa.answer.IsNew? ==> KeyAt(c, i, NextArrival(acts[..n], i)) !in states[n].seen
    ensures states[n + 1].seen
      == if acts[n].pa.answer.IsNew? || acts[n].pa.answer == Trouble(true)
         then states[n].seen + {KeyAt(c, i, NextArrival(acts[..n], i))} else states[n].seen
  {
    assert Enabled(c, states[n], acts[n]);
    RunFollows(c, states, acts, n, i);
    MarkMoves(c, states[n], i, acts[n].pa);
    assert Ahead(states[n].pollers[i])[0] == NextArrival(acts[..n], i);
  }

  /** And nothing else dispatches. */
  lemma OnlyAnswersDispatch(c: Setup, s: State, a: Action, i: nat)
    requires Enabled(c, s, a) && i < |s.pollers| && !(a.ByPoller? && a.i == i && a.pa.Mark?)
    ensures i < |Next(c, s, a).pollers| && Next(c, s, a).pollers[i].log == s.pollers[i].log
  {
    if a.ByPoller? && a.i == i && !a.pa.PollReturns? {
      QuietAgrees(c, s, i, a.pa);
    }
  }

  /** The store failed to answer for an event with this key. */
  predicate TroubledAt(c: Setup, acts: seq<Action>, n: nat, key: (string, string)) {
    && n < |acts| && acts[n].ByPoller? && acts[n].pa.Mark? && acts[n].pa.answer.Trouble? && acts[n].i < |c.sources|
    && |Answers(acts[..n], acts[n].i)| < |Fetched(acts[..n], acts[n].i)|
    && KeyAt(c, acts[n].i, NextArrival(acts[..n], acts[n].i)) == key
  }

  /** The store always answered for this key, and it was never swept. */
  predicate Kept(c: Setup, acts: seq<Action>, key: (string, string)) {
    forall n :: 0 <= n < |acts| ==> !(acts[n].Sweep? && key in acts[n].gone) && !TroubledAt(c, acts, n, key)
  }

  predicate Logs(c: Setup, i: nat, item: Dispatch, key: (string, string)) {
    i < |c.sources| && (c.sources[i], item.event.id) == key
  }

  /** Once in the log the key is in the set for good, and what was in the set from the
      start is in no log. */
  predicate OnceOnly(c: Setup, s: State, i: nat, key: (string, string), start: set<(string, string)>)
    requires i < |s.pollers|
  {
    var log := s.pollers[i].log;
    && (key in start ==> key in s.seen)
    && (forall a :: 0 <= a < |log| && Logs(c, i, log[a], key) ==> key in s.seen && key !in start)
    && forall a, b :: 0 <= a < b < |log| && Logs(c, i, log[a], key) ==> !Logs(c, i, log[b], key)
  }

  lemma KeyStays(c: Setup, s: State, a: Action, key: (string, string))
    requires Enabled(c, s, a) && !(a.Sweep? && key in a.gone) && key in s.seen
    ensures key in Next(c, s, a).seen
  {
  }

  lemma AnswerOnce(c: Setup, states: seq<State>, acts: seq<Action>, n: nat, i: nat, key: (string, string), start: set<(string, string)>)
    requires IsRun(c, states, acts) && n < |acts| && !TroubledAt(c, acts, n, key) && i < |c.sources|
    requires acts[n].ByPoller? && acts[n].i == i && acts[n].pa.Mark?
    requires i < |states[n].pollers| && OnceOnly(c, states[n], i, key, start)
    ensures i < |states[n + 1].pollers| && OnceOnly(c, states[n + 1], i, key, start)
  {
    AnswerDispatches(c, states, acts, n, i);
  }

  lemma StepOnce(c: Setup, states: seq<State>, acts: seq<Action>, n: nat, i: nat, key: (string, string), start: set<(string, string)>)
    requires IsRun(c, states, acts) && n < |acts| && Kept(c, acts, key) && i < |c.sources|
    requires i < |states[n].pollers| && OnceOnly(c, states[n], i, key, start)
    ensures i < |states[n + 1].pollers| && OnceOnly(c, states[n + 1], i, key, start)
  {
    if key in states[n].seen {
      KeyStays(c, states[n], acts[n], key);
    }
    if acts[n].ByPoller? && acts[n].i == i && acts[n].pa.Mark? {
      AnswerOnce(c, states, acts, n, i, key, start);
    } else {
      OnlyAnswersDispatch(c, states[n], acts[n], i);
    }
  }

  /** As long as the store answers for an id and does not forget it, its source
      dispatches it at most once, and never if it was in the dedupe set to begin with. */
  lemma {:induction false} NoIdTwice(c: Setup, states: seq<State>, acts: seq<Action>, n: nat, i: nat, id: string)
    requires IsRun(c, states, acts) && n < |states| && i < |c.sources| && Kept(c, acts, (c.sources[i], id))
    ensures i < |states[n].pollers| && OnceOnly(c, states[n], i, (c.sources[i], id), states[0].seen)
    ensures
      var log := states[n].pollers[i].log;
      && (forall a, b :: 0 <= a < b < |log| && log[a].event.id == id ==> log[b].event.id != id)
      && ((c.sources[i], id) in states[0].seen ==> forall a :: 0 <= a < |log| ==> log[a].event.id != id)
  {
    var key := (c.sources[i], id);
    if n == 0 {
      var seen :| states[0] == Init(c, seen);
    } else {
      NoIdTwice(c, states, acts, n - 1, i, id);
      StepOnce(c, states, acts, n - 1, i, key, states[0].seen);
    }
    assert forall a :: 0 <= a < |states[n].pollers[i].log| ==>
      (Logs(c, i, states[n].pollers[i].log[a], key) <==> states[n].pollers[i].log[a].event.id == id);
  }

  /** In particular, in a run whose answers are all new or duplicate and which sweeps
      nothing, the ids of a log are all different and none was in the set at the start. */
  lemma NoDuplicates(c: Setup, states: seq<State>, acts: seq<Action>, n: nat, i: nat)
    requires IsRun(c, states, acts) && n < |states| && i < |c.sources|
    requires forall m :: 0 <= m < |acts| ==>
      !acts[m].Sweep? && !(acts[m].ByPoller? && acts[m].pa.Mark? && acts[m].pa.answer.Trouble?)
    ensures i < |states[n].pollers|
    ensures
      var log := states[n].pollers[i].log;
      && (forall a, b :: 0 <= a < b < |log| ==> log[a].event.id != log[b].event.id)
      && (forall a :: 0 <= a < |log| ==> (c.sources[i], log[a].event.id) !in states[0].seen)
  {
    RunFollows(c, states, acts, n, i);
    forall a | 0 <= a < |states[n].pollers[i].log|
      ensures (c.sources[i], states[n].pollers[i].log[a].event.id) !in states[0].seen
      ensures forall b :: a < b < |states[n].pollers[i].log| ==> states[n].pollers[i].log[a].event.id != states[n].pollers[i].log[b].event.id
    {
      NoIdTwice(c, states, acts, n, i, states[n].pollers[i].log[a].event.id);
    }
  }

  /** Step m stored this key: an event that was let through put it there. */
  predicate StoredAt(c: Setup, acts: seq<Action>, m: nat, key: (string, string)) {
    && m < |acts| && acts[m].ByPoller? && acts[m].pa.Mark? && acts[m].i < |c.sources|
    && (acts[m].pa.answer.IsNew? || acts[m].pa.answer == Trouble(true))
    && |Answers(acts[..m], acts[m].i)| < |Fetched(acts[..m], acts[m].i)|
    && key == KeyAt(c, acts[m].i, NextArrival(acts[..m], acts[m].i))
  }

  /** Whatever is swept, an id in the set was there at the start, or some event with it was
      dispatched by a source of that name. So only such ids are ever taken for duplicates. */
  lemma {:induction false} SeenWasDispatched(c: Setup, states: seq<State>, acts: seq<Action>, n: nat, key: (string, string))
    requires IsRun(c, states, acts) && n < |states| && key in states[n].seen
    ensures key in states[0].seen || exists m :: 0 <= m < n && StoredAt(c, acts, m, key)
  {
    if n > 0 {
      var a := acts[n - 1];
      if key in states[n - 1].seen {
        SeenWasDispatched(c, states, acts, n - 1, key);
      } else {
        assert a.ByPoller? && a.pa.Mark?;
        AnswerDispatches(c, states, acts, n - 1, a.i);
        assert StoredAt(c, acts, n - 1, key);
      }
    }
  }
}

/** Drains cannot drop: a full queue drops only an event that was classified
    live at a moment when its output owed no backlog event. */
module Backpressure {
  import opened Basics
  import opened Protocol
  import opened Shape
  import opened Ledger

  /** The output at which a poller is making, or has just lost, a live attempt. */
  function LiveAt(c: Setup, p: Poller): Option<nat> {
    if !p.phase.Dispatching? then None
    else match p.phase.stage
      case Offer(d, tracked) => if tracked then None else Some(d)
      case Tally(row) => if row.cause.QueueFull? then Lookup(c.outputs, row.output) else None
      case Record(row) => if row.cause.QueueFull? then Lookup(c.outputs, row.output) else None
      case _ => None
  }

  /** Only three steps can leave a poller in a live attempt, and none of them moves it
      off its target or touches an output. */
  lemma LiveStage(c: Setup, s: State, i: nat, a: PollerAct) returns (stage: Stage)
    requires PollerEnabled(c, s, i, a) && LiveAt(c, Moved(c, s, i, a)).Some?
    ensures AtUnit(c, s.pollers[i]) && Moved(c, s, i, a) == InStage(s.pollers[i], stage)
    ensures a.Classify? || (a.TrySend? && !HasRoom(c, s, s.pollers[i].phase.stage.d)) || a.CountDrop?
    ensures Touched(c, s, i, a) == s.dests
  {
    stage := Moved(c, s, i, a).phase.stage;
  }

  /** A live attempt starts only where behind() said no, and stays on its target. */
  lemma LiveStarts(c: Setup, s: State, i: nat, a: PollerAct, d: nat)
    requires PollerEnabled(c, s, i, a) && PollerOk(c, i, s.pollers[i]) && d < |s.dests|
    requires LiveAt(c, Moved(c, s, i, a)) == Some(d)
    ensures AtUnit(c, s.pollers[i]) && AtUnit(c, Moved(c, s, i, a))
    ensures Unit(c, Moved(c, s, i, a)) == Unit(c, s.pollers[i])
    ensures Lookup(c.outputs, Unit(c, s.pollers[i]).output) == Some(d)
    ensures LiveAt(c, s.pollers[i]) == Some(d) || (a.Classify? && s.dests[d].outstanding <= 0)
    ensures Touched(c, s, i, a) == s.dests
  {
    var stage := LiveStage(c, s, i, a);
    InStageKeepsUnit(c, s.pollers[i], stage);
    assert StageOk(c, s.pollers[i]);
  }

  predicate TrackedLast(queue: seq<Queued>) {
    forall a, b :: 0 <= a < b < |queue| && queue[a].tracked ==> queue[b].tracked
  }

  /** With one source: live attempts meet no backlog, and each queue is a run of
      live events followed by a run of tracked ones. */
  predicate OneSource(c: Setup, s: State) {
    |s.pollers| == 1 ==>
      && (forall d :: 0 <= d < |s.dests| ==> TrackedLast(s.dests[d].queue))
      && (forall d :: 0 <= d < |s.dests| && LiveAt(c, s.pollers[0]) == Some(d) ==> s.dests[d].outstanding == 0)
  }

  lemma {:induction false} NoneTracked(queue: seq<Queued>)
    requires TrackedIn(queue) == 0
    ensures forall n :: 0 <= n < |queue| ==> !queue[n].tracked
  {
    if queue == [] {
    } else {
      NoneTracked(queue[..|queue| - 1]);
    }
  }

  lemma PollerQueues(c: Setup, s: State, i: nat, a: PollerAct, d: nat)
    requires PollerEnabled(c, s, i, a) && d < |s.dests| && Balanced(s, d) && TrackedLast(s.dests[d].queue)
    requires LiveAt(c, s.pollers[i]) == Some(d) ==> s.dests[d].outstanding == 0
    ensures |Touched(c, s, i, a)| == |s.dests| && TrackedLast(Touched(c, s, i, a)[d].queue)
  {
    if LiveAt(c, s.pollers[i]) == Some(d) {
      NoneTracked(s.dests[d].queue);
    }
  }

  lemma PollerLive(c: Setup, s: State, i: nat, a: PollerAct, d: nat)
    requires PollerEnabled(c, s, i, a) && PollerOk(c, i, s.pollers[i]) && d < |s.dests| && Balanced(s, d)
    requires LiveAt(c, s.pollers[i]) == Some(d) ==> s.dests[d].outstanding == 0
    ensures |Touched(c, s, i, a)| == |s.dests|
    ensures LiveAt(c, Moved(c, s, i, a)) == Some(d) ==> Touched(c, s, i, a)[d].outstanding == 0
  {
    TouchedFrame(c, s, i, a);
    if LiveAt(c, Moved(c, s, i, a)) == Some(d) {
      LiveStarts(c, s, i, a, d);
    }
  }

  lemma PollerOneSource(c: Setup, s: State, i: nat, a: PollerAct)
    requires PollerEnabled(c, s, i, a) && Shaped(c, s) && AllBalanced(s) && OneSource(c, s)
    ensures OneSource(c, PollerNext(c, s, i, a))
  {
    if |s.pollers| == 1 {
      assert i == 0;
      TouchedFrame(c, s, i, a);
      forall d | 0 <= d < |s.dests| ensures TrackedLast(Touched(c, s, i, a)[d].queue) {
        PollerQueues(c, s, i, a, d);
      }
      forall d | 0 <= d < |s.dests| && LiveAt(c, Moved(c, s, i, a)) == Some(d)
        ensures Touched(c, s, i, a)[d].outstanding == 0
      {
        PollerLive(c, s, i, a, d);
      }
    }
  }

  lemma WorkerOneSource(c: Setup, s: State, x: nat, a: WorkerAct)
    requires WorkerEnabled(c, s, x, a) && AllBalanced(s) && OneSource(c, s)
    ensures OneSource(c, WorkerNext(c, s, x, a))
  {
    assert Balanced(s, x);
  }

  lemma StepOneSource(c: Setup, s: State, a: Action)
    requires Enabled(c, s, a) && Shaped(c, s) && AllBalanced(s) && OneSource(c, s)
    ensures OneSource(c, Next(c, s, a))
  {
    match a
    case ByPoller(i, pa) => PollerOneSource(c, s, i, pa);
    case ByWorker(x, wa) => WorkerOneSource(c, s, x, wa);
    case _ =>
  }

  // ---- any number of sources: the moment the drop was decided ----

  /** Step m classified this target as live while its output's counter was zero. */
  predicate DecidedAt(c: Setup, s: State, a: Action, k: Key) {
    && a == ByPoller(k.item.source, Classify)
    && k.item.source < |s.pollers| && AtUnit(c, s.pollers[k.item.source]) && Unit(c, s.pollers[k.item.source]) == k
    && var d := Lookup(c.outputs, k.output);
       d.Some? && d.value < |s.dests| && s.dests[d.value].outstanding == 0
  }

  ghost predicate Decided(c: Setup, states: seq<State>, acts: seq<Action>, k: Key)
    requires |states| == |acts| + 1
  {
    exists m :: 0 <= m < |acts| && DecidedAt(c, states[m], acts[m], k)
  }

  predicate IsFullQueue(e: AuditEntry) {
    e.Outcome? && e.row.cause.QueueFull?
  }

  ghost predicate DropsDecided(c: Setup, states: seq<State>, acts: seq<Action>)
    requires |states| == |acts| + 1
  {
    var s := states[|acts|];
    && (forall i :: 0 <= i < |s.pollers| && AtUnit(c, s.pollers[i]) && LiveAt(c, s.pollers[i]).Some?
          ==> Decided(c, states, acts, Unit(c, s.pollers[i])))
    && (forall n :: 0 <= n < |s.audit| && IsFullQueue(s.audit[n]) ==> Decided(c, states, acts, KeyOf(s.audit[n].row)))
  }

  lemma DecidedStays(c: Setup, states: seq<State>, acts: seq<Action>, s': State, a: Action, k: Key)
    requires |states| == |acts| + 1 && Decided(c, states, acts, k)
    ensures Decided(c, states + [s'], acts + [a], k)
  {
    var m :| 0 <= m < |acts| && DecidedAt(c, states[m], acts[m], k);
    assert DecidedAt(c, (states + [s'])[m], (acts + [a])[m], k);
  }

  /** A live attempt after the step was decided by it, or was live before. */
  lemma LiveDecided(c: Setup, states: seq<State>, acts: seq<Action>, s: State, i: nat, pa: PollerAct)
    requires |states| == |acts| + 1 && s == states[|acts|]
    requires |s.dests| == |c.outputs|
    requires PollerEnabled(c, s, i, pa) && PollerOk(c, i, s.pollers[i]) && AllBalanced(s)
    requires AtUnit(c, s.pollers[i]) && LiveAt(c, s.pollers[i]).Some? ==> Decided(c, states, acts, Unit(c, s.pollers[i]))
    requires AtUnit(c, Moved(c, s, i, pa)) && LiveAt(c, Moved(c, s, i, pa)).Some?
    ensures
      Decided(c, states + [PollerNext(c, s, i, pa)], acts + [ByPoller(i, pa)], Unit(c, Moved(c, s, i, pa)))
  {
    var p, p', s', a := s.pollers[i], Moved(c, s, i, pa), PollerNext(c, s, i, pa), ByPoller(i, pa);
    assert PollerOk(c, i, p);
    PollerShape(c, s, i, pa);
    var d := LiveAt(c, p').value;
    LiveStarts(c, s, i, pa, d);
    if LiveAt(c, p) == Some(d) {
      DecidedStays(c, states, acts, s', a, Unit(c, p));
    } else {
      assert Balanced(s, d);
      assert Unit(c, p).item.source == i;
      assert DecidedAt(c, (states + [s'])[|acts|], (acts + [a])[|acts|], Unit(c, p));
    }
  }

  lemma DroppedWasLive(c: Setup, i: nat, p: Poller)
    requires PollerOk(c, i, p) && p.phase.Dispatching? && p.phase.stage.Record? && p.phase.stage.row.cause.QueueFull?
    ensures AtUnit(c, p) && KeyOf(p.phase.stage.row) == Unit(c, p) && LiveAt(c, p).Some?
  {
    assert StageOk(c, p);
  }

  /** Every full-queue row in the log after the step was decided at some step. */
  lemma RowDecided(c: Setup, states: seq<State>, acts: seq<Action>, s: State, a: Action, n: nat)
    requires |states| == |acts| + 1 && s == states[|acts|] && DropsDecided(c, states, acts)
    requires Enabled(c, s, a) && Shaped(c, s)
    requires n < |Next(c, s, a).audit| && IsFullQueue(Next(c, s, a).audit[n])
    ensures Decided(c, states + [Next(c, s, a)], acts + [a], KeyOf(Next(c, s, a).audit[n].row))
  {
    if n < |s.audit| {
      DecidedStays(c, states, acts, Next(c, s, a), a, KeyOf(s.audit[n].row));
    } else if a.ByPoller? {
      assert PollerOk(c, a.i, s.pollers[a.i]);
      DroppedWasLive(c, a.i, s.pollers[a.i]);
      DecidedStays(c, states, acts, Next(c, s, a), a, Unit(c, s.pollers[a.i]));
    } else {
      assert false;
    }
  }

  lemma StepDecided(c: Setup, states: seq<State>, acts: seq<Action>, a: Action)
    requires |states| == |acts| + 1 && DropsDecided(c, states, acts)
    requires Enabled(c, states[|acts|], a) && Shaped(c, states[|acts|]) && AllBalanced(states[|acts|])
    ensures DropsDecided(c, states + [Next(c, states[|acts|], a)], acts + [a])
  {
    var s := states[|acts|];
    var s' := Next(c, s, a);
    assert (states + [s'])[|acts + [a]|] == s';
    forall n | 0 <= n < |s'.audit| && IsFullQueue(s'.audit[n])
      ensures Decided(c, states + [s'], acts + [a], KeyOf(s'.audit[n].row))
    {
      RowDecided(c, states, acts, s, a, n);
    }
    forall i | 0 <= i < |s'.pollers| && AtUnit(c, s'.pollers[i]) && LiveAt(c, s'.pollers[i]).Some?
      ensures Decided(c, states + [s'], acts + [a], Unit(c, s'.pollers[i]))
    {
      if a.ByPoller? && a.i == i {
        LiveDecided(c, states, acts, s, i, a.pa);
      } else {
        assert s'.pollers[i] == s.pollers[i];
        DecidedStays(c, states, acts, s', a, Unit(c, s.pollers[i]));
      }
    }
  }

  // ---- what full means ----

  /** No queue ever holds more than its buffer. */
  predicate QueuesFit(c: Setup, s: State) {
    |s.dests| == |c.outputs| && forall d :: 0 <= d < |s.dests| ==> |s.dests[d].queue| <= c.outputs[d].buffer
  }

  lemma PollerFits(c: Setup, s: State, i: nat, a: PollerAct)
    requires PollerEnabled(c, s, i, a) && QueuesFit(c, s) && !SendsOnClosed(s, i, a)
    ensures QueuesFit(c, PollerNext(c, s, i, a))
  {
  }

  lemma StepFits(c: Setup, s: State, a: Action)
    requires Enabled(c, s, a) && QueuesFit(c, s) && (a.ByPoller? ==> !SendsOnClosed(s, a.i, a.pa))
    ensures QueuesFit(c, Next(c, s, a))
  {
    if a.ByPoller? {
      PollerFits(c, s, a.i, a.pa);
    }
  }

  /** Step m offered this target, untracked, to a queue that was full. */
  predicate RefusedAt(c: Setup, s: State, a: Action, k: Key) {
    && a == ByPoller(k.item.source, TrySend)
    && k.item.source < |s.pollers| && AtUnit(c, s.pollers[k.item.source]) && Unit(c, s.pollers[k.item.source]) == k
    && var d := Lookup(c.outputs, k.output);
       d.Some? && d.value < |s.dests| && |s.dests[d.value].queue| >= c.outputs[d.value].buffer
  }

  predicate Losing(stage: Stage) {
    (stage.Tally? || stage.Record?) && stage.row.cause.QueueFull?
  }

  /** Other steps leave a poller somewhere else. */
  lemma OthersDoNotLose(c: Setup, s: State, i: nat, a: PollerAct)
    requires PollerEnabled(c, s, i, a) && !a.TrySend? && !a.CountDrop?
    ensures !(Moved(c, s, i, a).phase.Dispatching? && Losing(Moved(c, s, i, a).phase.stage))
  {
    var p := s.pollers[i];
    match a
    case Mark(answer) => if !answer.IsDuplicate? { assert !Losing(Admit(c, i, p).phase.stage); }
    case Classify => assert !Losing(Classified(c, s, p).phase.stage);
    case SendBlocked => assert Advance(c, p).phase.Dispatching? ==> Advance(c, p).phase.stage.Choose?;
    case AuditDrop => assert Advance(c, p).phase.Dispatching? ==> Advance(c, p).phase.stage.Choose?;
    case _ =>
  }

  lemma LosingStage(c: Setup, s: State, i: nat, a: PollerAct) returns (stage: Stage)
    requires PollerEnabled(c, s, i, a) && AtUnit(c, Moved(c, s, i, a)) && Losing(Moved(c, s, i, a).phase.stage)
    ensures AtUnit(c, s.pollers[i]) && Moved(c, s, i, a) == InStage(s.pollers[i], stage)
    ensures (a.TrySend? && !HasRoom(c, s, s.pollers[i].phase.stage.d)) || (a.CountDrop? && Losing(s.pollers[i].phase.stage))
  {
    if a.TrySend? || a.CountDrop? {
      stage := Moved(c, s, i, a).phase.stage;
    } else {
      OthersDoNotLose(c, s, i, a);
    }
  }

  /** A poller comes to lose a target only by such a step, and stays at it. */
  lemma LosingFrom(c: Setup, s: State, i: nat, a: PollerAct)
    requires PollerEnabled(c, s, i, a) && PollerOk(c, i, s.pollers[i]) && |s.dests| == |c.outputs|
    requires AtUnit(c, Moved(c, s, i, a)) && Losing(Moved(c, s, i, a).phase.stage)
    ensures AtUnit(c, s.pollers[i]) && Unit(c, Moved(c, s, i, a)) == Unit(c, s.pollers[i])
    ensures Losing(s.pollers[i].phase.stage) || RefusedAt(c, s, ByPoller(i, a), Unit(c, s.pollers[i]))
  {
    var stage := LosingStage(c, s, i, a);
    InStageKeepsUnit(c, s.pollers[i], stage);
    assert StageOk(c, s.pollers[i]) && Unit(c, s.pollers[i]).item == Last(s.pollers[i]);
  }

  lemma StepLosing(c: Setup, s: State, a: Action, i: nat)
    requires Enabled(c, s, a) && Shaped(c, s) && i < |s.pollers| && i < |Next(c, s, a).pollers|
    requires AtUnit(c, Next(c, s, a).pollers[i]) && Losing(Next(c, s, a).pollers[i].phase.stage)
    ensures AtUnit(c, s.pollers[i]) && Unit(c, Next(c, s, a).pollers[i]) == Unit(c, s.pollers[i])
    ensures Losing(s.pollers[i].phase.stage) || RefusedAt(c, s, a, Unit(c, s.pollers[i]))
  {
    if a.ByPoller? && a.i == i {
      LosingFrom(c, s, i, a.pa);
    }
  }

  /** A new full-queue row is what its poller was losing. */
  lemma StepLoses(c: Setup, s: State, a: Action, x: nat)
    requires Enabled(c, s, a) && Shaped(c, s)
    requires |s.audit| <= x < |Next(c, s, a).audit| && IsFullQueue(Next(c, s, a).audit[x])
    ensures a.ByPoller? && AtUnit(c, s.pollers[a.i]) && Losing(s.pollers[a.i].phase.stage)
    ensures KeyOf(Next(c, s, a).audit[x].row) == Unit(c, s.pollers[a.i])
  {
    if a.ByPoller? {
      assert PollerOk(c, a.i, s.pollers[a.i]);
      DroppedWasLive(c, a.i, s.pollers[a.i]);
    } else {
      assert false;
    }
  }
}

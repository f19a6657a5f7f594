/** Nothing waits for something that cannot happen, no send meets a closed
    channel, and once the pollers are done the rest of Run is finite. */
module Progress {
  import Basics
  import opened Protocol
  import opened Shape

  predicate WorkerPanicked(s: State) {
    exists d :: 0 <= d < |s.dests| && s.dests[d].worker.Panicked?
  }

  /** The order Run imposes: pollers first, then closing, then the workers. */
  predicate Lifecycle(s: State) {
    && (s.panicked <==> WorkerPanicked(s))
    && (forall i :: 0 <= i < |s.pollers| && s.pollers[i].phase.Stopped? ==> s.cancelled)
    && (forall d :: 0 <= d < |s.dests| && s.dests[d].closed ==> AllStopped(s))
    && (forall d :: 0 <= d < |s.dests| && s.dests[d].worker.Exited? ==> s.dests[d].closed && s.dests[d].queue == [])
    && (s.drainStopped ==> AllClosed(s) && AllStopped(s))
    && (s.returned ==> AllStopped(s) && AllClosed(s) && AllExited(s))
  }

  lemma PollerLifecycle(c: Setup, s: State, i: nat, a: PollerAct)
    requires PollerEnabled(c, s, i, a) && Lifecycle(s)
    ensures !SendsOnClosed(s, i, a)
    ensures !AllStopped(s)
    ensures a.StopPolling? || !Moved(c, s, i, a).phase.Stopped?
  {
  }

  lemma WorkerPanics(c: Setup, s: State, d: nat, a: WorkerAct)
    requires WorkerEnabled(c, s, d, a) && !WorkerPanicked(s)
    ensures WorkerPanicked(WorkerNext(c, s, d, a)) <==> a.Panic?
  {
    var s' := WorkerNext(c, s, d, a);
    if a.Panic? {
      assert s'.dests[d].worker.Panicked?;
    }
  }

  lemma StepLifecycle(c: Setup, s: State, a: Action)
    requires Enabled(c, s, a) && Lifecycle(s)
    ensures Lifecycle(Next(c, s, a))
  {
    var s' := Next(c, s, a);
    match a
    case ByPoller(i, pa) =>
      PollerLifecycle(c, s, i, pa);
      TouchedFrame(c, s, i, pa);
      assert forall d :: 0 <= d < |s.dests| ==> !s.dests[d].closed;
    case ByWorker(d, wa) =>
      WorkerPanics(c, s, d, wa);
      assert AllStopped(s) ==> AllStopped(s');
    case _ =>
      assert AllStopped(s) ==> AllStopped(s');
  }

  // ---- nobody is stuck ----

  ghost predicate WorkerCanMove(c: Setup, s: State, d: nat) {
    exists wa :: WorkerEnabled(c, s, d, wa)
  }

  ghost predicate PollerCanMove(c: Setup, s: State, i: nat) {
    exists pa :: PollerEnabled(c, s, i, pa)
  }

  /** A worker rests only on an open empty queue, or for good. */
  lemma WorkerNotStuck(c: Setup, s: State, d: nat)
    requires Shaped(c, s) && d < |s.dests|
    requires !s.dests[d].worker.Exited? && !s.dests[d].worker.Panicked?
    requires s.dests[d].worker.Idle? ==> s.dests[d].queue != [] || s.dests[d].closed
    ensures WorkerCanMove(c, s, d)
  {
    var wa := match s.dests[d].worker
      case Idle => if s.dests[d].queue != [] then Receive else Exit
      case Got(_) => Begin
      case Sending(_, _) => Send(Accepted)
      case Refused(_, _) => AfterFailure
      case Sleeping(_, _) => Wake
      case Counting(_, _) => CountOutcome
      case Writing(_, _) => AuditOutcome
      case _ => Settle;
    assert WorkerEnabled(c, s, d, wa);
  }

  /** A poller that cannot move waits on a full, open queue, and that queue's
      worker can move. */
  lemma PollerNotStuck(c: Setup, s: State, i: nat)
    requires ValidSetup(c) && Shaped(c, s) && Lifecycle(s) && i < |s.pollers|
    requires !s.panicked && !s.pollers[i].phase.Stopped? && !PollerCanMove(c, s, i)
    ensures
      var ph := s.pollers[i].phase;
      && ph.Dispatching? && ph.stage.Blocked? && !s.cancelled && ph.stage.d < |s.dests|
      && !s.dests[ph.stage.d].closed && |s.dests[ph.stage.d].queue| >= c.outputs[ph.stage.d].buffer
      && WorkerCanMove(c, s, ph.stage.d)
  {
    var p := s.pollers[i];
    assert PollerOk(c, i, p);
    if p.phase.Working? && p.phase.rest != [] {
      var k := SeenKey(c, i, p.phase.rest[0]);
      assert PollerEnabled(c, s, i, Mark(if k in s.seen then IsDuplicate else IsNew));
    } else {
      var pa := match p.phase
        case Polling(_, _) => PollReturns([], false)
        case Working(_, _, _) => EndPage
        case Waiting => Tick
        case Stopped => StopPolling
        case Dispatching(_, _, _, _, stage) =>
          match stage
          case Choose => Classify
          case Raise(_) => Track
          case Offer(_, _) => TrySend
          case Blocked(_) => if s.cancelled then GiveUp else SendBlocked
          case Tally(_) => CountDrop
          case Record(_) => AuditDrop;
      assert !PollerEnabled(c, s, i, pa);
      WorkerNotStuck(c, s, p.phase.stage.d);
    }
  }

  /** Before Run returns, some step other than a cancellation or a sweep is always possible. */
  lemma SomeoneMoves(c: Setup, s: State)
    requires ValidSetup(c) && Shaped(c, s) && Lifecycle(s) && !s.returned && !s.panicked
    ensures
      || (exists i :: 0 <= i < |s.pollers| && PollerCanMove(c, s, i))
      || (exists d :: 0 <= d < |s.dests| && WorkerCanMove(c, s, d))
      || Enabled(c, s, StopSweeping) || Enabled(c, s, Return)
      || (exists d :: 0 <= d < |s.dests| && Enabled(c, s, Close(d)))
  {
    if i :| 0 <= i < |s.pollers| && !s.pollers[i].phase.Stopped? {
      if !PollerCanMove(c, s, i) {
        PollerNotStuck(c, s, i);
      }
    } else if s.sweeping {
      assert s.pollers[0].phase.Stopped?;
      assert Enabled(c, s, StopSweeping);
    } else if d :| 0 <= d < |s.dests| && !s.dests[d].closed {
      assert Enabled(c, s, Close(d));
    } else if d :| 0 <= d < |s.dests| && !s.dests[d].worker.Exited? {
      WorkerNotStuck(c, s, d);
    }
  }

  // ---- shutdown is finite ----

  /** How many more steps one worker can take on the event in hand. */
  function Rank(o: OutputConfig, w: Worker): nat {
    match w
    case Exited => 0
    case Panicked(_, _) => 0
    case Idle => 1
    case Settling(_) => 2
    case Writing(_, _) => 3
    case Counting(_, _) => 4
    case Sleeping(_, n) => if n <= o.maxAttempts then 5 + 3 * (o.maxAttempts - n) else 0
    case Refused(_, n) => if n <= o.maxAttempts then 6 + 3 * (o.maxAttempts - n) else 0
    case Sending(_, n) => if n <= o.maxAttempts then 7 + 3 * (o.maxAttempts - n) else 0
    case Got(_) => 7 + 3 * o.maxAttempts
  }

  /** A worker's remaining steps: those for the event in hand and for each one queued. */
  function WorkLeft(o: OutputConfig, t: Dest): nat {
    Rank(o, t.worker) + |t.queue| * (7 + 3 * o.maxAttempts)
  }

  lemma WorkerWorks(o: OutputConfig, t: Dest, a: WorkerAct, drainStopped: bool)
    requires WorkerOk(o, t.worker) && Worked.requires(o, t, a, drainStopped) && ((a.Receive? || a.Exit?) ==> t.worker.Idle?)
    requires o.maxAttempts > 0
    ensures WorkLeft(o, Worked(o, t, a, drainStopped)) < WorkLeft(o, t)
  {
    if a.Receive? {
      assert |t.queue| * (7 + 3 * o.maxAttempts) == |t.queue[1..]| * (7 + 3 * o.maxAttempts) + (7 + 3 * o.maxAttempts);
    }
  }

  function Efforts(c: Setup, dests: seq<Dest>): (xs: seq<nat>)
    requires |dests| == |c.outputs|
    ensures |xs| == |dests|
    ensures forall d :: 0 <= d < |dests| ==>
      xs[d] == WorkLeft(c.outputs[d], dests[d]) + (if dests[d].closed then 0 else 1)
  {
    seq(|dests|, d requires 0 <= d < |dests| =>
      WorkLeft(c.outputs[d], dests[d]) + (if dests[d].closed then 0 else 1))
  }

  /** Everything Run still has to do once the pollers are done. */
  function Effort(c: Setup, s: State): nat
    requires |s.dests| == |c.outputs|
  {
    Basics.Total(Efforts(c, s.dests)) + (if s.drainStopped then 0 else 1) + (if s.returned then 0 else 1)
  }

  lemma EffortPut(c: Setup, dests: seq<Dest>, d: nat, t: Dest)
    requires |dests| == |c.outputs| && d < |dests|
    requires WorkLeft(c.outputs[d], t) + (if t.closed then 0 else 1)
           < WorkLeft(c.outputs[d], dests[d]) + (if dests[d].closed then 0 else 1)
    ensures Basics.Total(Efforts(c, dests[d := t])) < Basics.Total(Efforts(c, dests))
  {
    var v := WorkLeft(c.outputs[d], t) + (if t.closed then 0 else 1);
    assert Efforts(c, dests[d := t]) == Efforts(c, dests)[d := v];
    Basics.TotalUpdate(Efforts(c, dests), d, v);
  }

  /** After the last poller stops, every step that can still happen uses up effort,
      so Run cannot go on for more than Effort steps. */
  lemma ShutdownDescends(c: Setup, s: State, a: Action)
    requires ValidSetup(c) && Shaped(c, s) && Lifecycle(s) && AllStopped(s) && Enabled(c, s, a)
    ensures |Next(c, s, a).dests| == |c.outputs|
    ensures AllStopped(Next(c, s, a))
    ensures Effort(c, Next(c, s, a)) < Effort(c, s)
  {
    assert s.pollers[0].phase.Stopped?;
    match a
    case ByPoller(i, pa) => PollerLifecycle(c, s, i, pa);
    case ByWorker(d, wa) =>
      WorkerWorks(c.outputs[d], s.dests[d], wa, s.drainStopped);
      EffortPut(c, s.dests, d, Worked(c.outputs[d], s.dests[d], wa, s.drainStopped));
    case Close(d) => EffortPut(c, s.dests, d, s.dests[d].(closed := true));
    case _ =>
  }

  // ---- a backlog is worked off ----

  function StepOf(a: Action, d: nat): nat {
    if a.ByWorker? && a.d == d then 1 else 0
  }

  /** 1 for each step one output's worker takes. */
  function WorkerSteps(acts: seq<Action>, d: nat): (xs: seq<nat>)
    ensures |xs| == |acts| && forall k :: 0 <= k < |acts| ==> xs[k] == StepOf(acts[k], d)
  {
    seq(|acts|, k requires 0 <= k < |acts| => StepOf(acts[k], d))
  }

  predicate Arrives(s: State, s': State, d: nat) {
    d < |s.dests| && d < |s'.dests| && |s'.dests[d].queue| > |s.dests[d].queue|
  }

  function ArrivalOf(s: State, s': State, d: nat): nat {
    if Arrives(s, s', d) then 1 else 0
  }

  /** 1 for each step that puts something in one output's queue. */
  function Arrivals(states: seq<State>, d: nat): (xs: seq<nat>)
    requires states != []
    ensures |xs| == |states| - 1 && forall k :: 0 <= k < |xs| ==> xs[k] == ArrivalOf(states[k], states[k + 1], d)
  {
    seq(|states| - 1, k requires 0 <= k < |states| - 1 => ArrivalOf(states[k], states[k + 1], d))
  }

  function WorkAt(c: Setup, s: State, d: nat): nat {
    if d < |c.outputs| && d < |s.dests| then WorkLeft(c.outputs[d], s.dests[d]) else 0
  }

  function Levels(c: Setup, states: seq<State>, d: nat): (xs: seq<nat>)
    ensures |xs| == |states| && forall k :: 0 <= k < |xs| ==> xs[k] == WorkAt(c, states[k], d)
  {
    seq(|states|, k requires 0 <= k < |states| => WorkAt(c, states[k], d))
  }

  /** The steps one event can cost a worker. */
  function Cost(o: OutputConfig): nat {
    7 + 3 * o.maxAttempts
  }

  lemma OneMoreCosts(o: OutputConfig, t: Dest, t': Dest)
    requires t'.worker == t.worker && |t.queue| <= |t'.queue| <= |t.queue| + 1
    ensures WorkLeft(o, t') == WorkLeft(o, t) + (if |t'.queue| > |t.queue| then Cost(o) else 0)
  {
    assert (|t.queue| + 1) * Cost(o) == |t.queue| * Cost(o) + Cost(o);
  }

  /** A step by anyone else leaves this worker alone and adds at most one entry. */
  lemma OthersLeaveWorker(c: Setup, s: State, a: Action, d: nat)
    requires Enabled(c, s, a) && d < |s.dests| && !(a.ByWorker? && a.d == d)
    ensures |Next(c, s, a).dests| == |s.dests|
    ensures
      var t, t' := s.dests[d], Next(c, s, a).dests[d];
      t'.worker == t.worker && |t.queue| <= |t'.queue| <= |t.queue| + 1
  {
    if a.ByPoller? {
      TouchedFrame(c, s, a.i, a.pa);
      QueueGrowsByOne(c, s, a.i, a.pa, d);
    }
  }

  lemma OwnStepWorks(c: Setup, s: State, a: Action, d: nat)
    requires ValidSetup(c) && Shaped(c, s) && Enabled(c, s, a) && d < |c.outputs| && a.ByWorker? && a.d == d
    ensures WorkAt(c, Next(c, s, a), d) + 1 <= WorkAt(c, s, d)
  {
    WorkerWorks(c.outputs[d], s.dests[d], a.wa, s.drainStopped);
  }

  lemma OtherStepWorks(c: Setup, s: State, a: Action, d: nat)
    requires ValidSetup(c) && Shaped(c, s) && Enabled(c, s, a) && d < |c.outputs| && !(a.ByWorker? && a.d == d)
    ensures WorkAt(c, Next(c, s, a), d) <= WorkAt(c, s, d) + (if Arrives(s, Next(c, s, a), d) then Cost(c.outputs[d]) else 0)
  {
    OthersLeaveWorker(c, s, a, d);
    OneMoreCosts(c.outputs[d], s.dests[d], Next(c, s, a).dests[d]);
  }

  /** One step: the worker's own uses up work, an arrival adds one event's cost,
      and nothing else touches the account. */
  lemma StepWorks(c: Setup, s: State, a: Action, d: nat)
    requires ValidSetup(c) && Shaped(c, s) && Enabled(c, s, a) && d < |c.outputs|
    ensures WorkAt(c, Next(c, s, a), d) + StepOf(a, d)
      <= WorkAt(c, s, d) + (if Arrives(s, Next(c, s, a), d) then Cost(c.outputs[d]) else 0)
  {
    if a.ByWorker? && a.d == d {
      OwnStepWorks(c, s, a, d);
    } else {
      OtherStepWorks(c, s, a, d);
    }
  }

  lemma QueueGrowsByOne(c: Setup, s: State, i: nat, a: PollerAct, d: nat)
    requires PollerEnabled(c, s, i, a) && d < |s.dests|
    ensures |Touched(c, s, i, a)| == |s.dests|
    ensures |s.dests[d].queue| <= |Touched(c, s, i, a)[d].queue| <= |s.dests[d].queue| + 1
  {
  }
}

/** The local facts every reachable pipeline state has: what a poller's or a
    worker's position says about what it holds. */
module Shape {
  import opened Basics
  import opened Protocol
  import Backoff

  predicate StageOk(c: Setup, p: Poller)
    requires AtUnit(c, p)
  {
    var unit := Unit(c, p);
    match p.phase.stage
    case Choose => !Unrouted(c, Last(p))
    case Raise(d) => !Unrouted(c, Last(p)) && Lookup(c.outputs, unit.output) == Some(d)
    case Offer(d, tracked) =>
      !Unrouted(c, Last(p)) && Lookup(c.outputs, unit.output) == Some(d) && (p.phase.block ==> tracked)
    case Blocked(d) => !Unrouted(c, Last(p)) && Lookup(c.outputs, unit.output) == Some(d)
    case Tally(row) =>
      !Unrouted(c, Last(p)) && Lookup(c.outputs, unit.output).Some? && PollerDrop(p, unit, row)
    case Record(row) =>
      || (Unrouted(c, Last(p)) && row == DropRow(unit, NoMatchingRule))
      || (!Unrouted(c, Last(p)) && Lookup(c.outputs, unit.output).None? && row == DropRow(unit, NoSuchOutput))
      || (!Unrouted(c, Last(p)) && Lookup(c.outputs, unit.output).Some? && PollerDrop(p, unit, row))
  }

  /** The two drops a poller counts: a full queue, live pages only, and shutdown. */
  predicate PollerDrop(p: Poller, unit: Key, row: Row)
    requires p.phase.Dispatching?
  {
    || (row == DropRow(unit, QueueFull) && !p.phase.block)
    || row == DropRow(unit, ShutDownBeforeDelivery)
  }

  predicate LogOk(i: nat, log: seq<Dispatch>) {
    forall n :: 0 <= n < |log| ==> log[n].source == i && log[n].serial == n
  }

  predicate PollerOk(c: Setup, i: nat, p: Poller) {
    && LogOk(i, p.log)
    && (p.phase.Dispatching? ==> AtUnit(c, p) && Last(p).block == p.phase.block && StageOk(c, p))
    && (p.phase.Working? ==> (p.phase.backlog ==> p.phase.block))
    && (p.phase.Dispatching? ==> (p.phase.backlog ==> p.phase.block))
  }

  predicate WorkerOk(o: OutputConfig, w: Worker) {
    match w
    case Sending(q, n) => 1 <= n <= o.maxAttempts
    case Refused(q, n) => 1 <= n <= o.maxAttempts
    case Sleeping(q, n) => 1 <= n < o.maxAttempts
    case Panicked(q, n) => 1 <= n < o.maxAttempts && Backoff.Overflows(n)
    case Counting(q, row) => WorkerRow(o, q, row)
    case Writing(q, row) => WorkerRow(o, q, row)
    case _ => true
  }

  /** The outcomes a worker records, with the attempts each one can carry. */
  predicate WorkerRow(o: OutputConfig, q: Queued, row: Row) {
    && row.item == q.item && row.output == o.name && row.rule == q.rule
    && match row.cause
       case NoCause => row.status == Delivered && 1 <= row.attempts <= o.maxAttempts
       case Rejection => row.status == Failed && 1 <= row.attempts <= o.maxAttempts
       case AttemptsExhausted => row.status == Failed && row.attempts == o.maxAttempts
       case ShutDownBeforeDelivery => row.status == Dropped && row.attempts == 0
       case ShutDownMidDelivery => row.status == Dropped && 1 <= row.attempts <= o.maxAttempts
       case ShutDownBetweenAttempts => row.status == Dropped && 1 <= row.attempts < o.maxAttempts
       case _ => false
  }

  predicate Shaped(c: Setup, s: State) {
    && |s.pollers| == |c.sources| && |s.dests| == |c.outputs|
    && (forall i :: 0 <= i < |s.pollers| ==> PollerOk(c, i, s.pollers[i]))
    && (forall d :: 0 <= d < |s.dests| ==> WorkerOk(c.outputs[d], s.dests[d].worker))
  }

  lemma AdvanceOk(c: Setup, i: nat, p: Poller)
    requires PollerOk(c, i, p) && AtUnit(c, p)
    ensures PollerOk(c, i, Advance(c, p))
  {
    var u := Units(c, Last(p));
    if p.phase.j + 1 < |u| {
      assert !Unrouted(c, Last(p));
    }
  }

  lemma AdmitOk(c: Setup, i: nat, p: Poller)
    requires PollerOk(c, i, p) && p.phase.Working? && p.phase.rest != []
    ensures PollerOk(c, i, Admit(c, i, p))
  {
    var p' := Admit(c, i, p);
    assert Last(p') == Dispatch(i, |p.log|, p.phase.rest[0], p.phase.block);
  }

  lemma ClassifiedOk(c: Setup, s: State, i: nat, p: Poller)
    requires PollerOk(c, i, p) && AtUnit(c, p) && p.phase.stage.Choose?
    ensures PollerOk(c, i, Classified(c, s, p))
  {
    assert StageOk(c, p);
    var p' := Classified(c, s, p);
    assert Unit(c, p') == Unit(c, p);
  }

  lemma InStageKeepsUnit(c: Setup, p: Poller, stage: Stage)
    requires AtUnit(c, p)
    ensures AtUnit(c, InStage(p, stage)) && Unit(c, InStage(p, stage)) == Unit(c, p)
  {
  }

  /** Moving to another stage of the same unit needs only the new stage checked. */
  lemma InStageOk(c: Setup, i: nat, p: Poller, stage: Stage)
    requires PollerOk(c, i, p) && AtUnit(c, p) && StageOk(c, InStage(p, stage))
    ensures PollerOk(c, i, InStage(p, stage))
  {
  }

  lemma PollerShape(c: Setup, s: State, i: nat, a: PollerAct)
    requires PollerEnabled(c, s, i, a) && PollerOk(c, i, s.pollers[i])
    ensures PollerOk(c, i, Moved(c, s, i, a))
  {
    var p := s.pollers[i];
    match a
    case Mark(answer) => if !answer.IsDuplicate? { AdmitOk(c, i, p); }
    case Classify => ClassifiedOk(c, s, i, p);
    case Track => InStageOk(c, i, p, Offer(p.phase.stage.d, true));
    case TrySend =>
      AdvanceOk(c, i, p);
      if p.phase.stage.tracked {
        InStageOk(c, i, p, Blocked(p.phase.stage.d));
      } else {
        InStageOk(c, i, p, Tally(DropRow(Unit(c, p), QueueFull)));
      }
    case SendBlocked => AdvanceOk(c, i, p);
    case GiveUp => InStageOk(c, i, p, Tally(DropRow(Unit(c, p), ShutDownBeforeDelivery)));
    case CountDrop => InStageOk(c, i, p, Record(p.phase.stage.row));
    case AuditDrop => AdvanceOk(c, i, p);
    case _ =>
  }

  /** A poller's step leaves every worker where it was. */
  lemma TouchedFrame(c: Setup, s: State, i: nat, a: PollerAct)
    requires PollerEnabled(c, s, i, a)
    ensures |Touched(c, s, i, a)| == |s.dests|
    ensures forall d :: 0 <= d < |s.dests| ==>
      var t, t' := s.dests[d], Touched(c, s, i, a)[d];
      t'.worker == t.worker && t'.sends == t.sends && t'.closed == t.closed
  {
  }

  lemma WorkerShape(o: OutputConfig, t: Dest, a: WorkerAct, drainStopped: bool)
    requires WorkerOk(o, t.worker) && o.maxAttempts > 0 && Worked.requires(o, t, a, drainStopped)
    requires a.Panic? ==> BackoffPanics(o, t.worker, drainStopped)
    ensures WorkerOk(o, Worked(o, t, a, drainStopped).worker)
  {
  }

  lemma StepShape(c: Setup, s: State, a: Action)
    requires ValidSetup(c) && Enabled(c, s, a) && Shaped(c, s)
    ensures Shaped(c, Next(c, s, a))
  {
    match a
    case ByPoller(i, pa) =>
      PollerShape(c, s, i, pa);
      TouchedFrame(c, s, i, pa);
    case ByWorker(d, wa) =>
      WorkerShape(c.outputs[d], s.dests[d], wa, s.drainStopped);
    case _ =>
  }
}

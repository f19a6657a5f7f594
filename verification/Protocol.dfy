/** internal/pipeline as a transition system: any number of pollers and one
    worker per output, interleaved one critical section, channel operation, store
    call or send at a time. An Action names who moves and what the environment
    answered; Enabled says when it may happen and Next what it does. */
module Protocol {
  import opened Basics
  import opened Events
  import opened Routing
  import Backoff

  // ---- what New was given ----

  datatype OutputConfig = OutputConfig(name: string, buffer: nat, maxAttempts: nat)

  datatype Setup = Setup(sources: seq<string>, outputs: seq<OutputConfig>, rules: seq<Rule>)

  /** What New enforces: something to read, somewhere to send, distinct names,
      positive buffers and attempts. */
  predicate ValidSetup(c: Setup) {
    && c.sources != [] && c.outputs != []
    && (forall d :: 0 <= d < |c.outputs| ==> c.outputs[d].buffer > 0 && c.outputs[d].maxAttempts > 0)
    && (forall a, b :: 0 <= a < b < |c.outputs| ==> c.outputs[a].name != c.outputs[b].name)
  }

  /** The map lookup p.dests[name], on the list the map was built from. */
  function Lookup(outputs: seq<OutputConfig>, name: string): (r: Option<nat>)
    ensures r.Some? ==> r.value < |outputs| && outputs[r.value].name == name
    ensures r.None? ==> forall d :: 0 <= d < |outputs| ==> outputs[d].name != name
  {
    if outputs == [] then None
    else if outputs[|outputs| - 1].name == name then Some(|outputs| - 1)
    else Lookup(outputs[..|outputs| - 1], name)
  }

  // ---- state ----

  /** One event that passed deduplication: the serial-th admitted by its source.
      block says whether its page was delivered with backpressure. */
  datatype Dispatch = Dispatch(source: nat, serial: nat, event: Event, block: bool)

  datatype Queued = Queued(item: Dispatch, rule: string, tracked: bool)

  datatype Status = Delivered | Failed | Dropped

  datatype Cause =
    | NoCause
    | NoMatchingRule
    | NoSuchOutput
    | QueueFull
    | ShutDownBeforeDelivery
    | ShutDownMidDelivery
    | ShutDownBetweenAttempts
    | Rejection
    | AttemptsExhausted

  datatype Row = Row(item: Dispatch, output: string, rule: string, status: Status, attempts: nat, cause: Cause)

  /** What the audit log holds: outcomes of admitted events, and records a source
      could not turn into an event at all, which SkipAuditor files as dropped under
      a made-up id, with no output and no rule. */
  datatype AuditEntry = Outcome(row: Row) | SkippedRecord(source: nat, id: string)

  /** Where a poller is inside the loop over one event's targets. */
  datatype Stage =
    | Choose                              // about to look up the output and read behind()
    | Raise(d: nat)                       // tracked; track() is next
    | Offer(d: nat, tracked: bool)        // the non-blocking send is next
    | Blocked(d: nat)                     // waiting for room or for cancellation
    | Tally(row: Row)                     // the delivery counter is next
    | Record(row: Row)                    // the audit write is next

  datatype Phase =
    | Polling(eager: bool, reporting: bool)   // reporting: skips are being audited, so this poll succeeds
    | Working(rest: seq<Event>, block: bool, backlog: bool)
    | Dispatching(rest: seq<Event>, block: bool, backlog: bool, j: nat, stage: Stage)
    | Waiting
    | Stopped

  /** log is what passed deduplication, in the order it was dispatched. */
  datatype Poller = Poller(phase: Phase, log: seq<Dispatch>)

  datatype Worker =
    | Idle
    | Got(q: Queued)
    | Sending(q: Queued, attempt: nat)
    | Refused(q: Queued, attempt: nat)
    | Sleeping(q: Queued, attempt: nat)
    | Counting(q: Queued, row: Row)
    | Writing(q: Queued, row: Row)
    | Settling(q: Queued)
    | Panicked(q: Queued, attempt: nat)   // its backoff did, which ends the process
    | Exited

  datatype Dest = Dest(outstanding: int, queue: seq<Queued>, closed: bool, worker: Worker, sends: seq<Dispatch>)

  datatype Sample = Sample(output: string, status: Status)

  datatype State = State(
    pollers: seq<Poller>,
    dests: seq<Dest>,
    seen: set<(string, string)>,
    audit: seq<AuditEntry>,
    counters: map<Sample, nat>,
    cancelled: bool,
    sweeping: bool,
    drainStopped: bool,
    returned: bool,
    panicked: bool)

  function Init(c: Setup, seen: set<(string, string)>): State {
    State(
      seq(|c.sources|, _ => Poller(Polling(false, false), [])),
      seq(|c.outputs|, _ => Dest(0, [], false, Idle, [])),
      seen, [], map[], false, true, false, false, false)
  }

  // ---- what an event owes the audit log ----

  datatype Key = Key(item: Dispatch, output: string, rule: string)

  function KeyOf(r: Row): Key {
    Key(r.item, r.output, r.rule)
  }

  /** One audit row per target, or a single unrouted one when nothing matched. */
  function Units(c: Setup, item: Dispatch): (ks: seq<Key>)
    ensures |ks| > 0
    ensures forall j :: 0 <= j < |ks| ==> ks[j].item == item
  {
    var ts := Route(c.rules, item.event);
    if ts == [] then [Key(item, "", "")]
    else seq(|ts|, j requires 0 <= j < |ts| => Key(item, ts[j].output, ts[j].rule))
  }

  function DropRow(k: Key, cause: Cause): Row {
    Row(k.item, k.output, k.rule, Dropped, 0, cause)
  }

  predicate Unrouted(c: Setup, item: Dispatch) {
    Route(c.rules, item.event) == []
  }

  // ---- actions ----

  datatype Answer = IsNew | IsDuplicate | Trouble(stored: bool)

  datatype Reply = Accepted | Rejected | Unavailable

  datatype PollerAct =
    | PollFails
    | ReportSkip(id: string)
    | PollReturns(page: seq<Event>, backlog: bool)
    | Mark(answer: Answer)
    | Classify
    | Track
    | TrySend
    | SendBlocked
    | GiveUp
    | CountDrop
    | AuditDrop
    | PollAgain
    | EndPage
    | Tick
    | StopPolling

  datatype WorkerAct =
    | Receive
    | Exit
    | Begin
    | Send(reply: Reply)
    | AfterFailure
    | Wake
    | Interrupt
    | Panic
    | CountOutcome
    | AuditOutcome
    | Settle

  datatype Action =
    | ByPoller(i: nat, pa: PollerAct)
    | ByWorker(d: nat, wa: WorkerAct)
    | Sweep(gone: set<(string, string)>)
    | StopSweeping
    | Cancel
    | Close(out: nat)
    | DrainTimeout
    | Return

  function Last(p: Poller): Dispatch
    requires p.log != []
  {
    p.log[|p.log| - 1]
  }

  /** A poller inside the target loop, at a target that exists. */
  predicate AtUnit(c: Setup, p: Poller) {
    p.phase.Dispatching? && p.log != [] && p.phase.j < |Units(c, Last(p))|
  }

  function Unit(c: Setup, p: Poller): Key
    requires AtUnit(c, p)
  {
    Units(c, Last(p))[p.phase.j]
  }

  function SeenKey(c: Setup, i: nat, e: Event): (string, string)
    requires i < |c.sources|
  {
    (c.sources[i], e.id)
  }

  predicate HasRoom(c: Setup, s: State, d: nat) {
    d < |s.dests| && d < |c.outputs| && |s.dests[d].queue| < c.outputs[d].buffer
  }

  /** A send on a closed channel never waits: it panics. */
  predicate SendReady(c: Setup, s: State, d: nat) {
    d < |s.dests| && (s.dests[d].closed || HasRoom(c, s, d))
  }

  predicate PollerEnabled(c: Setup, s: State, i: nat, a: PollerAct) {
    && i < |s.pollers| && i < |c.sources|
    && var p := s.pollers[i];
       match a
       case PollFails => p.phase.Polling? && !p.phase.reporting
       case ReportSkip(_) => p.phase.Polling?
       case PollReturns(_, _) => p.phase.Polling?
       case Mark(answer) =>
         && p.phase.Working? && p.phase.rest != []
         && (answer.IsNew? ==> SeenKey(c, i, p.phase.rest[0]) !in s.seen)
         && (answer.IsDuplicate? ==> SeenKey(c, i, p.phase.rest[0]) in s.seen)
       case Classify => AtUnit(c, p) && p.phase.stage.Choose?
       case Track => AtUnit(c, p) && p.phase.stage.Raise? && p.phase.stage.d < |s.dests|
       case TrySend => AtUnit(c, p) && p.phase.stage.Offer? && p.phase.stage.d < |s.dests|
       case SendBlocked => AtUnit(c, p) && p.phase.stage.Blocked? && SendReady(c, s, p.phase.stage.d)
       case GiveUp => AtUnit(c, p) && p.phase.stage.Blocked? && p.phase.stage.d < |s.dests| && s.cancelled
       case CountDrop => AtUnit(c, p) && p.phase.stage.Tally?
       case AuditDrop => AtUnit(c, p) && p.phase.stage.Record?
       case PollAgain => p.phase.Working? && p.phase.rest == [] && p.phase.backlog
       case EndPage => p.phase.Working? && p.phase.rest == []
       case Tick => p.phase.Waiting?
       case StopPolling => p.phase.Waiting? && s.cancelled
  }

  /** Another attempt is due, no Retry-After came with the failure, and the backoff
      that would precede it overflows. */
  predicate BackoffPanics(o: OutputConfig, w: Worker, drainStopped: bool) {
    w.Refused? && !drainStopped && w.attempt != o.maxAttempts && Backoff.Overflows(w.attempt)
  }

  predicate WorkerEnabled(c: Setup, s: State, d: nat, a: WorkerAct) {
    && d < |s.dests| && d < |c.outputs|
    && var t := s.dests[d];
       match a
       case Receive => t.worker.Idle? && t.queue != []
       case Exit => t.worker.Idle? && t.queue == [] && t.closed
       case Begin => t.worker.Got?
       case Send(_) => t.worker.Sending?
       case AfterFailure => t.worker.Refused?
       case Wake => t.worker.Sleeping?
       case Interrupt => t.worker.Sleeping? && s.drainStopped
       case Panic => BackoffPanics(c.outputs[d], t.worker, s.drainStopped)
       case CountOutcome => t.worker.Counting?
       case AuditOutcome => t.worker.Writing?
       case Settle => t.worker.Settling?
  }

  /** What pollers.Wait() waits for: every poller and the sweeper. */
  predicate AllStopped(s: State) {
    && (forall i :: 0 <= i < |s.pollers| ==> s.pollers[i].phase.Stopped?)
    && !s.sweeping
  }

  predicate AllClosed(s: State) {
    forall d :: 0 <= d < |s.dests| ==> s.dests[d].closed
  }

  predicate AllExited(s: State) {
    forall d :: 0 <= d < |s.dests| ==> s.dests[d].worker.Exited?
  }

  predicate Enabled(c: Setup, s: State, a: Action) {
    && !s.returned && !s.panicked
    && match a
       case ByPoller(i, pa) => PollerEnabled(c, s, i, pa)
       case ByWorker(d, wa) => WorkerEnabled(c, s, d, wa)
       case Sweep(_) => s.sweeping
       case StopSweeping => s.sweeping && s.cancelled
       case Cancel => !s.cancelled
       case Close(d) => d < |s.dests| && !s.dests[d].closed && AllStopped(s)
       case DrainTimeout => AllClosed(s) && AllStopped(s) && !s.drainStopped
       case Return => AllClosed(s) && AllStopped(s) && AllExited(s)
  }

  // ---- what a poller's step does ----

  function InStage(p: Poller, stage: Stage): Poller
    requires p.phase.Dispatching?
  {
    p.(phase := p.phase.(stage := stage))
  }

  /** The next target of the same event, or the next event of the page. */
  function Advance(c: Setup, p: Poller): Poller
    requires AtUnit(c, p)
  {
    var ph := p.phase;
    if ph.j + 1 < |Units(c, Last(p))| then p.(phase := ph.(j := ph.j + 1, stage := Choose))
    else p.(phase := Working(ph.rest, ph.block, ph.backlog))
  }

  function Admit(c: Setup, i: nat, p: Poller): Poller
    requires p.phase.Working? && p.phase.rest != []
  {
    var ph := p.phase;
    var item := Dispatch(i, |p.log|, ph.rest[0], ph.block);
    var first := if Unrouted(c, item) then Record(DropRow(Units(c, item)[0], NoMatchingRule)) else Choose;
    Poller(Dispatching(ph.rest[1..], ph.block, ph.backlog, 0, first), p.log + [item])
  }

  function Skip(p: Poller): Poller
    requires p.phase.Working? && p.phase.rest != []
  {
    p.(phase := Working(p.phase.rest[1..], p.phase.block, p.phase.backlog))
  }

  /** block || d.behind(), or the audit of an output that does not exist. */
  function Classified(c: Setup, s: State, p: Poller): Poller
    requires AtUnit(c, p)
  {
    match Lookup(c.outputs, Unit(c, p).output)
    case None => InStage(p, Record(DropRow(Unit(c, p), NoSuchOutput)))
    case Some(d) =>
      if p.phase.block || (d < |s.dests| && s.dests[d].outstanding > 0) then InStage(p, Raise(d))
      else InStage(p, Offer(d, false))
  }

  /** The poller after its step. */
  function Moved(c: Setup, s: State, i: nat, a: PollerAct): Poller
    requires PollerEnabled(c, s, i, a)
  {
    var p := s.pollers[i];
    match a
    case PollFails => p.(phase := Waiting)
    case ReportSkip(_) => p.(phase := Polling(p.phase.eager, true))
    case PollReturns(page, backlog) =>
      p.(phase := Working(page, p.phase.eager || backlog, backlog))
    case Mark(answer) => if answer.IsDuplicate? then Skip(p) else Admit(c, i, p)
    case Classify => Classified(c, s, p)
    case Track => InStage(p, Offer(p.phase.stage.d, true))
    case TrySend =>
      if HasRoom(c, s, p.phase.stage.d) then Advance(c, p)
      else if p.phase.stage.tracked then InStage(p, Blocked(p.phase.stage.d))
      else InStage(p, Tally(DropRow(Unit(c, p), QueueFull)))
    case SendBlocked => Advance(c, p)
    case GiveUp => InStage(p, Tally(DropRow(Unit(c, p), ShutDownBeforeDelivery)))
    case CountDrop => InStage(p, Record(p.phase.stage.row))
    case AuditDrop => Advance(c, p)
    case PollAgain => p.(phase := Polling(true, false))
    case EndPage => p.(phase := Waiting)
    case Tick => p.(phase := Polling(false, false))
    case StopPolling => p.(phase := Stopped)
  }

  /** The queue entry a send puts in the channel. */
  function Entry(c: Setup, p: Poller, tracked: bool): Queued
    requires AtUnit(c, p)
  {
    Queued(Last(p), Unit(c, p).rule, tracked)
  }

  /** The outputs after a poller's step: track raises, settle lowers, a send appends. */
  function Touched(c: Setup, s: State, i: nat, a: PollerAct): seq<Dest>
    requires PollerEnabled(c, s, i, a)
  {
    var p := s.pollers[i];
    match a
    case Track =>
      var t := s.dests[p.phase.stage.d];
      s.dests[p.phase.stage.d := t.(outstanding := t.outstanding + 1)]
    case TrySend =>
      var t := s.dests[p.phase.stage.d];
      if HasRoom(c, s, p.phase.stage.d)
      then s.dests[p.phase.stage.d := t.(queue := t.queue + [Entry(c, p, p.phase.stage.tracked)])]
      else s.dests
    case SendBlocked =>
      var t := s.dests[p.phase.stage.d];
      s.dests[p.phase.stage.d := t.(queue := t.queue + [Entry(c, p, true)])]
    case GiveUp =>
      var t := s.dests[p.phase.stage.d];
      s.dests[p.phase.stage.d := t.(outstanding := t.outstanding - 1)]
    case _ => s.dests
  }

  function SeenAfter(c: Setup, s: State, i: nat, a: PollerAct): set<(string, string)>
    requires PollerEnabled(c, s, i, a)
  {
    if a.Mark? && (a.answer.IsNew? || (a.answer.Trouble? && a.answer.stored))
    then s.seen + {SeenKey(c, i, s.pollers[i].phase.rest[0])}
    else s.seen
  }

  function Counter(counters: map<Sample, nat>, k: Sample): nat {
    if k in counters then counters[k] else 0
  }

  function Bump(counters: map<Sample, nat>, row: Row): map<Sample, nat> {
    var k := Sample(row.output, row.status);
    counters[k := Counter(counters, k) + 1]
  }

  /** The channel a send would go to is closed. */
  predicate SendsOnClosed(s: State, i: nat, a: PollerAct)
    requires i < |s.pollers|
  {
    var ph := s.pollers[i].phase;
    && (a.TrySend? || a.SendBlocked?)
    && ph.Dispatching? && (ph.stage.Offer? || ph.stage.Blocked?)
    && ph.stage.d < |s.dests| && s.dests[ph.stage.d].closed
  }

  /** What a poller's step adds to the audit log. */
  function Written(s: State, i: nat, a: PollerAct): seq<AuditEntry>
    requires i < |s.pollers|
    requires a.AuditDrop? ==> s.pollers[i].phase.Dispatching? && s.pollers[i].phase.stage.Record?
  {
    if a.AuditDrop? then [Outcome(s.pollers[i].phase.stage.row)]
    else if a.ReportSkip? then [SkippedRecord(i, a.id)]
    else []
  }

  function PollerNext(c: Setup, s: State, i: nat, a: PollerAct): State
    requires PollerEnabled(c, s, i, a)
  {
    var stage := if s.pollers[i].phase.Dispatching? then s.pollers[i].phase.stage else Choose;
    s.(pollers := s.pollers[i := Moved(c, s, i, a)],
       dests := Touched(c, s, i, a),
       seen := SeenAfter(c, s, i, a),
       audit := s.audit + Written(s, i, a),
       counters := if a.CountDrop? then Bump(s.counters, stage.row) else s.counters,
       panicked := SendsOnClosed(s, i, a))
  }

  // ---- what a worker's step does ----

  function Ending(name: string, q: Queued, status: Status, attempts: nat, cause: Cause): Worker {
    Counting(q, Row(q.item, name, q.rule, status, attempts, cause))
  }

  /** The output after its worker's step; drainStopped is the worker's ctx.Err(). */
  function Worked(o: OutputConfig, t: Dest, a: WorkerAct, drainStopped: bool): Dest
    requires
      match a
      case Receive => t.queue != []
      case Exit => true
      case Begin => t.worker.Got?
      case Send(_) => t.worker.Sending?
      case AfterFailure => t.worker.Refused?
      case Wake => t.worker.Sleeping?
      case Interrupt => t.worker.Sleeping?
      case Panic => t.worker.Refused?
      case CountOutcome => t.worker.Counting?
      case AuditOutcome => t.worker.Writing?
      case Settle => t.worker.Settling?
  {
    match a
    case Receive => t.(queue := t.queue[1..], worker := Got(t.queue[0]))
    case Exit => t.(worker := Exited)
    case Begin =>
      t.(worker :=
        if drainStopped then Ending(o.name, t.worker.q, Dropped, 0, ShutDownBeforeDelivery)
        else Sending(t.worker.q, 1))
    case Send(reply) =>
      var q, n := t.worker.q, t.worker.attempt;
      t.(sends := t.sends + [q.item], worker :=
        match reply
        case Accepted => Ending(o.name, q, Delivered, n, NoCause)
        case Rejected => Ending(o.name, q, Failed, n, Rejection)
        case Unavailable => Refused(q, n))
    case AfterFailure =>
      var q, n := t.worker.q, t.worker.attempt;
      t.(worker :=
        if drainStopped then Ending(o.name, q, Dropped, n, ShutDownMidDelivery)
        else if n == o.maxAttempts then Ending(o.name, q, Failed, o.maxAttempts, AttemptsExhausted)
        else Sleeping(q, n))
    case Wake => t.(worker := Sending(t.worker.q, t.worker.attempt + 1))
    case Interrupt =>
      t.(worker := Ending(o.name, t.worker.q, Dropped, t.worker.attempt, ShutDownBetweenAttempts))
    case Panic => t.(worker := Panicked(t.worker.q, t.worker.attempt))
    case CountOutcome => t.(worker := Writing(t.worker.q, t.worker.row))
    case AuditOutcome => t.(worker := Settling(t.worker.q))
    case Settle =>
      t.(worker := Idle, outstanding := if t.worker.q.tracked then t.outstanding - 1 else t.outstanding)
  }

  function WorkerNext(c: Setup, s: State, d: nat, a: WorkerAct): State
    requires WorkerEnabled(c, s, d, a)
  {
    var t := s.dests[d];
    s.(dests := s.dests[d := Worked(c.outputs[d], t, a, s.drainStopped)],
       audit := if a.AuditOutcome? then s.audit + [Outcome(t.worker.row)] else s.audit,
       counters := if a.CountOutcome? then Bump(s.counters, t.worker.row) else s.counters,
       panicked := a.Panic?)
  }

  function Next(c: Setup, s: State, a: Action): State
    requires Enabled(c, s, a)
  {
    match a
    case ByPoller(i, pa) => PollerNext(c, s, i, pa)
    case ByWorker(d, wa) => WorkerNext(c, s, d, wa)
    case Sweep(gone) => s.(seen := s.seen - gone)
    case StopSweeping => s.(sweeping := false)
    case Cancel => s.(cancelled := true)
    case Close(d) => s.(dests := s.dests[d := s.dests[d].(closed := true)])
    case DrainTimeout => s.(drainStopped := true)
    case Return => s.(returned := true)
  }

  // ---- runs ----

  /** states[0] is initial and each action leads from one state to the next. */
  ghost predicate IsRun(c: Setup, states: seq<State>, acts: seq<Action>) {
    && |states| == |acts| + 1
    && (exists seen :: states[0] == Init(c, seen))
    && forall n :: 0 <= n < |acts| ==> Enabled(c, states[n], acts[n]) && states[n + 1] == Next(c, states[n], acts[n])
  }
}

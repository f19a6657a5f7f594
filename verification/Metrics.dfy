/** The delivery counters against the audit log, and what every audit row says. */
module Metrics {
  import Basics
  import opened Protocol
  import opened Shape
  import Conservation

  /** Unrouted events and unknown outputs are audited without being counted as
      deliveries; so are skipped records. */
  predicate Uncounted(row: Row) {
    row.cause.NoMatchingRule? || row.cause.NoSuchOutput?
  }

  predicate CountsFor(row: Row, k: Sample) {
    !Uncounted(row) && row.output == k.output && row.status == k.status
  }

  predicate CountedEntry(e: AuditEntry, k: Sample) {
    e.Outcome? && CountsFor(e.row, k)
  }

  function CountedRows(audit: seq<AuditEntry>, k: Sample): nat {
    if audit == [] then 0
    else CountedRows(audit[..|audit| - 1], k) + (if CountedEntry(audit[|audit| - 1], k) then 1 else 0)
  }

  /** Counted, and not yet in the log. */
  function PollerOwes(p: Poller, k: Sample): nat {
    if p.phase.Dispatching? && p.phase.stage.Record? && CountsFor(p.phase.stage.row, k) then 1 else 0
  }

  function PollersOwe(pollers: seq<Poller>, k: Sample): (xs: seq<nat>)
    ensures |xs| == |pollers|
    ensures forall i :: 0 <= i < |pollers| ==> xs[i] == PollerOwes(pollers[i], k)
  {
    seq(|pollers|, i requires 0 <= i < |pollers| => PollerOwes(pollers[i], k))
  }

  function WorkerOwes(w: Worker, k: Sample): nat {
    if w.Writing? && CountsFor(w.row, k) then 1 else 0
  }

  predicate Tallied(c: Setup, s: State, d: nat, status: Status)
    requires d < |s.dests| && d < |c.outputs|
  {
    var k := Sample(c.outputs[d].name, status);
    Counter(s.counters, k)
    == CountedRows(s.audit, k) + Basics.Total(PollersOwe(s.pollers, k)) + WorkerOwes(s.dests[d].worker, k)
  }

  lemma CountedRowsAppend(audit: seq<AuditEntry>, e: AuditEntry, k: Sample)
    ensures CountedRows(audit + [e], k) == CountedRows(audit, k) + (if CountedEntry(e, k) then 1 else 0)
  {
    assert (audit + [e])[..|audit|] == audit;
  }

  lemma PollersOweUpdate(pollers: seq<Poller>, i: nat, p: Poller, k: Sample)
    requires i < |pollers|
    ensures Basics.Total(PollersOwe(pollers[i := p], k)) + PollerOwes(pollers[i], k)
      == Basics.Total(PollersOwe(pollers, k)) + PollerOwes(p, k)
  {
    assert PollersOwe(pollers[i := p], k) == PollersOwe(pollers, k)[i := PollerOwes(p, k)];
    Basics.TotalUpdate(PollersOwe(pollers, k), i, PollerOwes(p, k));
  }

  /** Counting makes the poller owe a row; auditing pays it. */
  lemma PollerOwesStep(c: Setup, s: State, i: nat, a: PollerAct, k: Sample)
    requires PollerEnabled(c, s, i, a) && PollerOk(c, i, s.pollers[i])
    ensures
      var row := if s.pollers[i].phase.Dispatching? then s.pollers[i].phase.stage else Choose;
      PollerOwes(Moved(c, s, i, a), k) + (if a.AuditDrop? && CountsFor(row.row, k) then 1 else 0)
      == PollerOwes(s.pollers[i], k) + (if a.CountDrop? && CountsFor(row.row, k) then 1 else 0)
  {
    var p := s.pollers[i];
    match a
    case Mark(answer) => if !answer.IsDuplicate? { assert PollerOwes(Admit(c, i, p), k) == 0; }
    case Classify => assert PollerOwes(Classified(c, s, p), k) == 0;
    case TrySend => assert PollerOwes(Advance(c, p), k) == 0;
    case SendBlocked => assert PollerOwes(Advance(c, p), k) == 0;
    case AuditDrop => assert PollerOwes(Advance(c, p), k) == 0;
    case _ =>
  }

  lemma BumpCounter(counters: map<Sample, nat>, row: Row, k: Sample)
    requires !Uncounted(row)
    ensures Counter(Bump(counters, row), k) == Counter(counters, k) + (if CountsFor(row, k) then 1 else 0)
  {
  }

  lemma PollerCounts(c: Setup, s: State, i: nat, a: PollerAct, k: Sample)
    requires PollerEnabled(c, s, i, a) && PollerOk(c, i, s.pollers[i])
    ensures
      var s', row := PollerNext(c, s, i, a), if s.pollers[i].phase.Dispatching? then s.pollers[i].phase.stage else Choose;
      && CountedRows(s'.audit, k) == CountedRows(s.audit, k) + (if a.AuditDrop? && CountsFor(row.row, k) then 1 else 0)
      && Counter(s'.counters, k) == Counter(s.counters, k) + (if a.CountDrop? && CountsFor(row.row, k) then 1 else 0)
  {
    if a.AuditDrop? {
      CountedRowsAppend(s.audit, Outcome(s.pollers[i].phase.stage.row), k);
    } else if a.ReportSkip? {
      CountedRowsAppend(s.audit, SkippedRecord(i, a.id), k);
    } else {
      assert PollerNext(c, s, i, a).audit == s.audit;
    }
    if a.CountDrop? {
      BumpCounter(s.counters, s.pollers[i].phase.stage.row, k);
    }
  }

  lemma PollerTallied(c: Setup, s: State, i: nat, a: PollerAct, d: nat, status: Status)
    requires PollerEnabled(c, s, i, a) && PollerOk(c, i, s.pollers[i])
    requires d < |s.dests| && d < |c.outputs| && Tallied(c, s, d, status)
    ensures |Touched(c, s, i, a)| == |s.dests| && Tallied(c, PollerNext(c, s, i, a), d, status)
  {
    var k := Sample(c.outputs[d].name, status);
    TouchedFrame(c, s, i, a);
    PollersOweUpdate(s.pollers, i, Moved(c, s, i, a), k);
    PollerOwesStep(c, s, i, a, k);
    PollerCounts(c, s, i, a, k);
  }

  lemma WorkerOwesStep(o: OutputConfig, t: Dest, a: WorkerAct, drainStopped: bool, k: Sample)
    requires WorkerOk(o, t.worker) && Worked.requires(o, t, a, drainStopped)
    requires (a.Receive? || a.Exit?) ==> t.worker.Idle?
    ensures WorkerOwes(Worked(o, t, a, drainStopped).worker, k)
        + (if a.AuditOutcome? && CountsFor(t.worker.row, k) then 1 else 0)
      == WorkerOwes(t.worker, k) + (if a.CountOutcome? && CountsFor(t.worker.row, k) then 1 else 0)
    ensures (a.CountOutcome? || a.AuditOutcome?) ==> !Uncounted(t.worker.row) && t.worker.row.output == o.name
  {
  }

  lemma WorkerCounts(c: Setup, s: State, x: nat, a: WorkerAct, k: Sample)
    requires WorkerEnabled(c, s, x, a) && WorkerOk(c.outputs[x], s.dests[x].worker)
    ensures
      var s', row := WorkerNext(c, s, x, a), s.dests[x].worker;
      && CountedRows(s'.audit, k) == CountedRows(s.audit, k) + (if a.AuditOutcome? && CountsFor(row.row, k) then 1 else 0)
      && Counter(s'.counters, k) == Counter(s.counters, k) + (if a.CountOutcome? && CountsFor(row.row, k) then 1 else 0)
  {
    var t := s.dests[x];
    if a.AuditOutcome? {
      CountedRowsAppend(s.audit, Outcome(t.worker.row), k);
    }
    if a.CountOutcome? {
      BumpCounter(s.counters, t.worker.row, k);
    }
  }

  lemma WorkerTallied(c: Setup, s: State, x: nat, a: WorkerAct, d: nat, status: Status)
    requires ValidSetup(c) && WorkerEnabled(c, s, x, a) && WorkerOk(c.outputs[x], s.dests[x].worker)
    requires d < |s.dests| && d < |c.outputs| && Tallied(c, s, d, status)
    ensures Tallied(c, WorkerNext(c, s, x, a), d, status)
  {
    var k := Sample(c.outputs[d].name, status);
    WorkerOwesStep(c.outputs[x], s.dests[x], a, s.drainStopped, k);
    WorkerCounts(c, s, x, a, k);
    if x != d {
      assert c.outputs[x].name != c.outputs[d].name;
    }
  }

  ghost predicate AllTallied(c: Setup, s: State) {
    forall d, status :: 0 <= d < |s.dests| && d < |c.outputs| ==> Tallied(c, s, d, status)
  }

  lemma StepTallied(c: Setup, s: State, a: Action)
    requires ValidSetup(c) && Enabled(c, s, a) && Shaped(c, s) && AllTallied(c, s)
    ensures AllTallied(c, Next(c, s, a))
  {
    var s' := Next(c, s, a);
    forall d, status | 0 <= d < |s'.dests| && d < |c.outputs| ensures Tallied(c, s', d, status) {
      match a
      case ByPoller(i, pa) =>
        TouchedFrame(c, s, i, pa);
        PollerTallied(c, s, i, pa, d, status);
      case ByWorker(x, wa) => WorkerTallied(c, s, x, wa, d, status);
      case _ => assert Tallied(c, s, d, status);
    }
  }

  lemma InitTallied(c: Setup, seen: set<(string, string)>)
    ensures AllTallied(c, Init(c, seen))
  {
    var s := Init(c, seen);
    forall d, status | 0 <= d < |s.dests| && d < |c.outputs| ensures Tallied(c, s, d, status) {
      Basics.TotalZero(PollersOwe(s.pollers, Sample(c.outputs[d].name, status)));
    }
  }

  // ---- what a row in the log can say ----

  predicate RowOk(c: Setup, row: Row) {
    match row.cause
    case NoMatchingRule => Unrouted(c, row.item) && row == DropRow(Key(row.item, "", ""), NoMatchingRule)
    case NoSuchOutput =>
      !Unrouted(c, row.item) && Lookup(c.outputs, row.output).None? && row.status.Dropped? && row.attempts == 0
    case QueueFull =>
      Lookup(c.outputs, row.output).Some? && row.status.Dropped? && row.attempts == 0 && !row.item.block
    case ShutDownBeforeDelivery =>
      Lookup(c.outputs, row.output).Some? && row.status.Dropped? && row.attempts == 0
    case _ =>
      var d := Lookup(c.outputs, row.output);
      d.Some? && WorkerRow(c.outputs[d.value], Queued(row.item, row.rule, false), row)
  }

  /** A skipped record came from one of the sources. */
  predicate EntryOk(c: Setup, e: AuditEntry) {
    match e
    case Outcome(row) => RowOk(c, row)
    case SkippedRecord(source, _) => source < |c.sources|
  }

  predicate RowsOk(c: Setup, audit: seq<AuditEntry>) {
    forall n :: 0 <= n < |audit| ==> EntryOk(c, audit[n])
  }

  lemma PollerRowOk(c: Setup, i: nat, p: Poller)
    requires PollerOk(c, i, p) && p.phase.Dispatching? && p.phase.stage.Record?
    ensures RowOk(c, p.phase.stage.row)
  {
    assert StageOk(c, p);
  }

  lemma WorkerRowOk(c: Setup, d: nat, w: Worker)
    requires ValidSetup(c) && d < |c.outputs| && WorkerOk(c.outputs[d], w) && w.Writing?
    ensures RowOk(c, w.row)
  {
    Conservation.LookupOwn(c, d);
  }

  lemma StepRowsOk(c: Setup, s: State, a: Action)
    requires ValidSetup(c) && Enabled(c, s, a) && Shaped(c, s) && RowsOk(c, s.audit)
    ensures RowsOk(c, Next(c, s, a).audit)
  {
    if a.ByPoller? && a.pa.AuditDrop? {
      PollerRowOk(c, a.i, s.pollers[a.i]);
    } else if a.ByWorker? && a.wa.AuditOutcome? {
      WorkerRowOk(c, a.d, s.dests[a.d].worker);
    }
  }

  /** The output and the status an entry is filed under. */
  function FiledUnder(e: AuditEntry): Sample {
    match e
    case Outcome(row) => Sample(row.output, row.status)
    case SkippedRecord(_, _) => Sample("", Dropped)
  }

  function RowsWith(audit: seq<AuditEntry>, k: Sample): nat {
    if audit == [] then 0
    else RowsWith(audit[..|audit| - 1], k) + (if FiledUnder(audit[|audit| - 1]) == k then 1 else 0)
  }

  /** An entry that names no output: an unrouted event or a skipped record. */
  predicate Nameless(e: AuditEntry) {
    e.SkippedRecord? || e.row.cause.NoMatchingRule?
  }

  function NamelessRows(audit: seq<AuditEntry>): nat {
    if audit == [] then 0
    else NamelessRows(audit[..|audit| - 1]) + (if Nameless(audit[|audit| - 1]) then 1 else 0)
  }

  /** For a registered output, only the rows that name no output, filed under the
      empty name, escape its counters. */
  lemma {:induction false} RowsWithCounted(c: Setup, audit: seq<AuditEntry>, d: nat, status: Status)
    requires ValidSetup(c) && d < |c.outputs| && RowsOk(c, audit)
    ensures
      var k := Sample(c.outputs[d].name, status);
      RowsWith(audit, k)
      == CountedRows(audit, k) + (if k.output == "" && status == Dropped then NamelessRows(audit) else 0)
  {
    if audit == [] {
    } else {
      RowsWithCounted(c, audit[..|audit| - 1], d, status);
      assert EntryOk(c, audit[|audit| - 1]);
      Conservation.LookupOwn(c, d);
    }
  }
}

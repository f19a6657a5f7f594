/** The rows that name no output: one for each admitted event nothing matched, and
    one for each record a source skipped. */
module Unmatched {
  import opened Basics
  import opened Protocol
  import opened Shape
  import Metrics

  function UnroutedIn(c: Setup, log: seq<Dispatch>): nat {
    if log == [] then 0
    else UnroutedIn(c, log[..|log| - 1]) + (if Unrouted(c, log[|log| - 1]) then 1 else 0)
  }

  /** What a poller is done with: all of its log but the event in hand. */
  function Done(p: Poller): seq<Dispatch> {
    if p.phase.Dispatching? && p.log != [] then p.log[..|p.log| - 1] else p.log
  }

  function Filed(c: Setup, pollers: seq<Poller>): (xs: seq<nat>)
    ensures |xs| == |pollers| && forall i :: 0 <= i < |pollers| ==> xs[i] == UnroutedIn(c, Done(pollers[i]))
  {
    seq(|pollers|, i requires 0 <= i < |pollers| => UnroutedIn(c, Done(pollers[i])))
  }

  function UnroutedEvents(c: Setup, pollers: seq<Poller>): (xs: seq<nat>)
    ensures |xs| == |pollers| && forall i :: 0 <= i < |pollers| ==> xs[i] == UnroutedIn(c, pollers[i].log)
  {
    seq(|pollers|, i requires 0 <= i < |pollers| => UnroutedIn(c, pollers[i].log))
  }

  predicate IsUnrouted(e: AuditEntry) {
    e.Outcome? && e.row.cause.NoMatchingRule?
  }

  function UnroutedRows(audit: seq<AuditEntry>): nat {
    if audit == [] then 0
    else UnroutedRows(audit[..|audit| - 1]) + (if IsUnrouted(audit[|audit| - 1]) then 1 else 0)
  }

  function SkippedRows(audit: seq<AuditEntry>): nat {
    if audit == [] then 0
    else SkippedRows(audit[..|audit| - 1]) + (if audit[|audit| - 1].SkippedRecord? then 1 else 0)
  }

  lemma {:induction false} NamelessAreBoth(audit: seq<AuditEntry>)
    ensures Metrics.NamelessRows(audit) == SkippedRows(audit) + UnroutedRows(audit)
  {
    if audit == [] {
    } else {
      NamelessAreBoth(audit[..|audit| - 1]);
    }
  }

  lemma RowsAppend(audit: seq<AuditEntry>, e: AuditEntry)
    ensures UnroutedRows(audit + [e]) == UnroutedRows(audit) + (if IsUnrouted(e) then 1 else 0)
    ensures SkippedRows(audit + [e]) == SkippedRows(audit) + (if e.SkippedRecord? then 1 else 0)
  {
    assert (audit + [e])[..|audit|] == audit;
  }

  /** The log's unrouted rows are the unrouted events the pollers are done with. */
  predicate AllFiled(c: Setup, s: State) {
    UnroutedRows(s.audit) == Total(Filed(c, s.pollers))
  }

  lemma FiledUpdate(c: Setup, pollers: seq<Poller>, i: nat, p: Poller)
    requires i < |pollers|
    ensures Total(Filed(c, pollers[i := p])) + UnroutedIn(c, Done(pollers[i])) == Total(Filed(c, pollers)) + UnroutedIn(c, Done(p))
  {
    assert Filed(c, pollers[i := p]) == Filed(c, pollers)[i := UnroutedIn(c, Done(p))];
    TotalUpdate(Filed(c, pollers), i, UnroutedIn(c, Done(p)));
  }

  predicate Files(s: State, i: nat, a: PollerAct)
    requires i < |s.pollers|
  {
    a.AuditDrop? && s.pollers[i].phase.Dispatching? && s.pollers[i].phase.stage.Record?
    && s.pollers[i].phase.stage.row.cause.NoMatchingRule?
  }

  /** Leaving a target finishes an event that counts here only if it is unrouted. */
  lemma AdvanceFiles(c: Setup, p: Poller)
    requires AtUnit(c, p)
    ensures UnroutedIn(c, Done(Advance(c, p))) == UnroutedIn(c, Done(p)) + (if Unrouted(c, Last(p)) then 1 else 0)
  {
    if Unrouted(c, Last(p)) {
      assert |Units(c, Last(p))| == 1;
    }
  }

  lemma RecordFiles(c: Setup, i: nat, p: Poller)
    requires PollerOk(c, i, p) && p.phase.Dispatching? && p.phase.stage.Record?
    ensures p.phase.stage.row.cause.NoMatchingRule? <==> Unrouted(c, Last(p))
  {
    assert StageOk(c, p);
  }

  lemma PollerFiles(c: Setup, s: State, i: nat, a: PollerAct)
    requires PollerEnabled(c, s, i, a) && PollerOk(c, i, s.pollers[i])
    ensures UnroutedIn(c, Done(Moved(c, s, i, a))) == UnroutedIn(c, Done(s.pollers[i])) + (if Files(s, i, a) then 1 else 0)
  {
    var p := s.pollers[i];
    match a
    case AuditDrop =>
      RecordFiles(c, i, p);
      AdvanceFiles(c, p);
    case TrySend =>
      assert !Unrouted(c, Last(p));
      AdvanceFiles(c, p);
    case SendBlocked =>
      assert !Unrouted(c, Last(p));
      AdvanceFiles(c, p);
    case Mark(_) => assert Done(Moved(c, s, i, a)) == p.log;
    case _ => assert Done(Moved(c, s, i, a)) == Done(p);
  }

  lemma PollerRows(c: Setup, s: State, i: nat, a: PollerAct)
    requires PollerEnabled(c, s, i, a)
    ensures UnroutedRows(PollerNext(c, s, i, a).audit) == UnroutedRows(s.audit) + (if Files(s, i, a) then 1 else 0)
  {
    if a.AuditDrop? {
      RowsAppend(s.audit, Outcome(s.pollers[i].phase.stage.row));
    } else if a.ReportSkip? {
      RowsAppend(s.audit, SkippedRecord(i, a.id));
    } else {
      assert PollerNext(c, s, i, a).audit == s.audit;
    }
  }

  lemma PollerAllFiled(c: Setup, s: State, i: nat, a: PollerAct)
    requires PollerEnabled(c, s, i, a) && PollerOk(c, i, s.pollers[i]) && AllFiled(c, s)
    ensures AllFiled(c, PollerNext(c, s, i, a))
  {
    FiledUpdate(c, s.pollers, i, Moved(c, s, i, a));
    PollerFiles(c, s, i, a);
    PollerRows(c, s, i, a);
  }

  lemma WorkerRows(c: Setup, s: State, d: nat, a: WorkerAct)
    requires WorkerEnabled(c, s, d, a) && WorkerOk(c.outputs[d], s.dests[d].worker)
    ensures UnroutedRows(WorkerNext(c, s, d, a).audit) == UnroutedRows(s.audit)
    ensures WorkerNext(c, s, d, a).pollers == s.pollers
  {
    if a.AuditOutcome? {
      RowsAppend(s.audit, Outcome(s.dests[d].worker.row));
    }
  }

  lemma StepFiled(c: Setup, s: State, a: Action)
    requires Enabled(c, s, a) && Shaped(c, s) && AllFiled(c, s)
    ensures AllFiled(c, Next(c, s, a))
  {
    match a
    case ByPoller(i, pa) => PollerAllFiled(c, s, i, pa);
    case ByWorker(d, wa) => WorkerRows(c, s, d, wa);
    case _ =>
  }

  lemma InitFiled(c: Setup, seen: set<(string, string)>)
    ensures AllFiled(c, Init(c, seen))
  {
    TotalZero(Filed(c, Init(c, seen).pollers));
  }

  // ---- skips ----

  function SkipSteps(acts: seq<Action>): nat {
    if acts == [] then 0
    else
      var last := acts[|acts| - 1];
      SkipSteps(acts[..|acts| - 1]) + (if last.ByPoller? && last.pa.ReportSkip? then 1 else 0)
  }

  lemma StepSkipped(c: Setup, s: State, a: Action)
    requires Enabled(c, s, a)
    ensures SkippedRows(Next(c, s, a).audit) == SkippedRows(s.audit) + (if a.ByPoller? && a.pa.ReportSkip? then 1 else 0)
  {
    var s' := Next(c, s, a);
    if s'.audit == s.audit {
    } else {
      var last := s'.audit[|s.audit|];
      assert s'.audit == s.audit + [last];
      RowsAppend(s.audit, last);
    }
  }

  lemma {:induction false} RunSkipped(c: Setup, states: seq<State>, acts: seq<Action>, n: nat)
    requires IsRun(c, states, acts) && n < |states|
    ensures SkippedRows(states[n].audit) == SkipSteps(acts[..n])
  {
    if n == 0 {
      var seen :| states[0] == Init(c, seen);
    } else {
      RunSkipped(c, states, acts, n - 1);
      StepSkipped(c, states[n - 1], acts[n - 1]);
      assert acts[..n][..n - 1] == acts[..n - 1];
    }
  }
}

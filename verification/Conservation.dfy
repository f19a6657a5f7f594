/** Outcome conservation: whatever the interleaving, each target of an admitted
    event is in exactly one place: still ahead of its poller, in its output's
    queue, in its worker's hands, or in the audit log. */
module Conservation {
  import opened Basics
  import opened Protocol
  import opened Shape

  function Times(ks: seq<Key>, k: Key): nat {
    multiset(ks)[k]
  }

  predicate Logged(p: Poller, item: Dispatch) {
    item.serial < |p.log| && p.log[item.serial] == item
  }

  /** How many of an event's units have left its poller's hands: queued or audited there. */
  function Dealt(c: Setup, p: Poller, item: Dispatch): (n: nat)
    ensures n <= |Units(c, item)|
  {
    if !Logged(p, item) then 0
    else if AtUnit(c, p) && item.serial == |p.log| - 1 then p.phase.j
    else |Units(c, item)|
  }

  /** How often k is among them. */
  function Discharged(c: Setup, p: Poller, k: Key): nat {
    Times(Units(c, k.item)[..Dealt(c, p, k.item)], k)
  }

  predicate IsFor(e: AuditEntry, k: Key) {
    e.Outcome? && KeyOf(e.row) == k
  }

  function RowsFor(audit: seq<AuditEntry>, k: Key): nat {
    if audit == [] then 0
    else RowsFor(audit[..|audit| - 1], k) + (if IsFor(audit[|audit| - 1], k) then 1 else 0)
  }

  predicate Carries(q: Queued, k: Key) {
    q.item == k.item && q.rule == k.rule
  }

  function QueuedFor(queue: seq<Queued>, k: Key): nat {
    if queue == [] then 0
    else QueuedFor(queue[..|queue| - 1], k) + (if Carries(queue[|queue| - 1], k) then 1 else 0)
  }

  /** The worker has it and has not audited it yet. */
  function WorkedFor(w: Worker, k: Key): nat {
    if !w.Idle? && !w.Exited? && !w.Settling? && Carries(w.q, k) then 1 else 0
  }

  function Inside(c: Setup, dests: seq<Dest>, k: Key): nat {
    match Lookup(c.outputs, k.output)
    case None => 0
    case Some(d) => if d < |dests| then QueuedFor(dests[d].queue, k) + WorkedFor(dests[d].worker, k) else 0
  }

  function DischargedBy(c: Setup, pollers: seq<Poller>, k: Key): nat {
    if k.item.source < |pollers| then Discharged(c, pollers[k.item.source], k) else 0
  }

  predicate Accounted(c: Setup, s: State, k: Key) {
    DischargedBy(c, s.pollers, k) == RowsFor(s.audit, k) + Inside(c, s.dests, k)
  }

  ghost predicate Conserved(c: Setup, s: State) {
    forall k: Key :: Accounted(c, s, k)
  }

  lemma RowsForAppend(audit: seq<AuditEntry>, e: AuditEntry, k: Key)
    ensures RowsFor(audit + [e], k) == RowsFor(audit, k) + (if IsFor(e, k) then 1 else 0)
  {
    assert (audit + [e])[..|audit|] == audit;
  }

  lemma QueuedForAppend(queue: seq<Queued>, q: Queued, k: Key)
    ensures QueuedFor(queue + [q], k) == QueuedFor(queue, k) + (if Carries(q, k) then 1 else 0)
  {
    assert (queue + [q])[..|queue|] == queue;
  }

  lemma {:induction false} QueuedForFront(queue: seq<Queued>, k: Key)
    requires queue != []
    ensures QueuedFor(queue, k) == QueuedFor(queue[1..], k) + (if Carries(queue[0], k) then 1 else 0)
  {
    if |queue| > 1 {
      var init := queue[..|queue| - 1];
      QueuedForFront(init, k);
      assert queue[1..][..|queue| - 2] == init[1..];
    }
  }

  // ---- the poller's side ----

  lemma AdvanceDeals(c: Setup, i: nat, p: Poller, item: Dispatch)
    requires LogOk(i, p.log) && AtUnit(c, p)
    ensures Dealt(c, Advance(c, p), item) == Dealt(c, p, item) + (if item == Last(p) then 1 else 0)
  {
    var p' := Advance(c, p);
    assert p'.log == p.log && (Logged(p', item) <==> Logged(p, item));
    if item == Last(p) {
      assert Dealt(c, p, item) == p.phase.j;
      assert AtUnit(c, p') <==> p.phase.j + 1 < |Units(c, item)|;
    } else {
      assert Logged(p, item) ==> item.serial != |p.log| - 1;
    }
  }

  lemma AdmitDealsNothing(c: Setup, i: nat, p: Poller, item: Dispatch)
    requires p.phase.Working? && p.phase.rest != []
    ensures Dealt(c, Admit(c, i, p), item) == Dealt(c, p, item)
  {
    var p' := Admit(c, i, p);
    assert AtUnit(c, p');
    assert forall n :: 0 <= n < |p.log| ==> p'.log[n] == p.log[n];
  }

  lemma InStageDealsNothing(c: Setup, p: Poller, stage: Stage, item: Dispatch)
    requires p.phase.Dispatching?
    ensures Dealt(c, InStage(p, stage), item) == Dealt(c, p, item)
  {
    assert AtUnit(c, InStage(p, stage)) == AtUnit(c, p);
  }

  predicate Sends(c: Setup, s: State, i: nat, a: PollerAct)
    requires PollerEnabled(c, s, i, a)
  {
    a.SendBlocked? || (a.TrySend? && HasRoom(c, s, s.pollers[i].phase.stage.d))
  }

  /** The only steps that take a target out of a poller's hands. */
  lemma PollerDeals(c: Setup, s: State, i: nat, a: PollerAct, item: Dispatch)
    requires PollerEnabled(c, s, i, a) && PollerOk(c, i, s.pollers[i])
    ensures Dealt(c, Moved(c, s, i, a), item)
      == Dealt(c, s.pollers[i], item)
         + (if (Sends(c, s, i, a) || a.AuditDrop?) && item == Last(s.pollers[i]) then 1 else 0)
  {
    var p := s.pollers[i];
    if Sends(c, s, i, a) || a.AuditDrop? {
      AdvanceDeals(c, i, p, item);
    } else if a.Mark? && !a.answer.IsDuplicate? {
      AdmitDealsNothing(c, i, p, item);
    } else if AtUnit(c, p) {
      InStageDealsNothing(c, p, Moved(c, s, i, a).phase.stage, item);
    }
  }

  lemma TimesStep(ks: seq<Key>, j: nat, k: Key)
    requires j < |ks|
    ensures Times(ks[..j + 1], k) == Times(ks[..j], k) + (if ks[j] == k then 1 else 0)
  {
    assert ks[..j + 1] == ks[..j] + [ks[j]];
  }

  lemma PollerDischarges(c: Setup, s: State, i: nat, a: PollerAct, k: Key)
    requires PollerEnabled(c, s, i, a) && PollerOk(c, i, s.pollers[i])
    ensures Discharged(c, Moved(c, s, i, a), k)
      == Discharged(c, s.pollers[i], k)
         + (if (Sends(c, s, i, a) || a.AuditDrop?) && Unit(c, s.pollers[i]) == k then 1 else 0)
  {
    var p := s.pollers[i];
    PollerDeals(c, s, i, a, k.item);
    if Sends(c, s, i, a) || a.AuditDrop? {
      assert Unit(c, p).item == Last(p);
      if k.item == Last(p) {
        assert Dealt(c, p, k.item) == p.phase.j;
        TimesStep(Units(c, k.item), p.phase.j, k);
      }
    }
  }

  lemma TouchedInside(c: Setup, s: State, i: nat, a: PollerAct, k: Key)
    requires PollerEnabled(c, s, i, a) && Shaped(c, s)
    ensures Inside(c, Touched(c, s, i, a), k)
      == Inside(c, s.dests, k) + (if Sends(c, s, i, a) && Unit(c, s.pollers[i]) == k then 1 else 0)
  {
    var p := s.pollers[i];
    assert PollerOk(c, i, p);
    if Sends(c, s, i, a) {
      var d := p.phase.stage.d;
      var q := Entry(c, p, if a.SendBlocked? then true else p.phase.stage.tracked);
      assert Lookup(c.outputs, Unit(c, p).output) == Some(d);
      QueuedForAppend(s.dests[d].queue, q, k);
      assert Touched(c, s, i, a) == s.dests[d := s.dests[d].(queue := s.dests[d].queue + [q])];
    }
  }

  lemma PollerDischargedBy(c: Setup, s: State, i: nat, a: PollerAct, k: Key)
    requires PollerEnabled(c, s, i, a) && PollerOk(c, i, s.pollers[i])
    ensures DischargedBy(c, s.pollers[i := Moved(c, s, i, a)], k)
      == DischargedBy(c, s.pollers, k)
         + (if (Sends(c, s, i, a) || a.AuditDrop?) && Unit(c, s.pollers[i]) == k then 1 else 0)
  {
    var p := s.pollers[i];
    PollerDischarges(c, s, i, a, k);
    if AtUnit(c, p) {
      assert Unit(c, p).item == Last(p) && Last(p).source == i;
    }
  }

  lemma PollerAudits(c: Setup, s: State, i: nat, a: PollerAct, k: Key)
    requires PollerEnabled(c, s, i, a) && PollerOk(c, i, s.pollers[i])
    ensures RowsFor(PollerNext(c, s, i, a).audit, k)
      == RowsFor(s.audit, k) + (if a.AuditDrop? && Unit(c, s.pollers[i]) == k then 1 else 0)
  {
    if a.AuditDrop? {
      var row := s.pollers[i].phase.stage.row;
      RowsForAppend(s.audit, Outcome(row), k);
      assert KeyOf(row) == Unit(c, s.pollers[i]);
    } else if a.ReportSkip? {
      RowsForAppend(s.audit, SkippedRecord(i, a.id), k);
    } else {
      assert PollerNext(c, s, i, a).audit == s.audit;
    }
  }

  lemma PollerAccounted(c: Setup, s: State, i: nat, a: PollerAct, k: Key)
    requires PollerEnabled(c, s, i, a) && Shaped(c, s) && Accounted(c, s, k)
    ensures Accounted(c, PollerNext(c, s, i, a), k)
  {
    assert PollerOk(c, i, s.pollers[i]);
    PollerDischargedBy(c, s, i, a, k);
    TouchedInside(c, s, i, a, k);
    PollerAudits(c, s, i, a, k);
    assert !(Sends(c, s, i, a) && a.AuditDrop?);
  }

  // ---- the worker's side ----

  lemma LookupOwn(c: Setup, d: nat)
    requires ValidSetup(c) && d < |c.outputs|
    ensures Lookup(c.outputs, c.outputs[d].name) == Some(d)
  {
    var r := Lookup(c.outputs, c.outputs[d].name);
    assert r.Some? && c.outputs[r.value].name == c.outputs[d].name;
  }

  /** A worker's step keeps what it has, takes the queue's head, or audits it. */
  lemma WorkedKeeps(o: OutputConfig, t: Dest, a: WorkerAct, drainStopped: bool, k: Key)
    requires WorkerOk(o, t.worker) && Worked.requires(o, t, a, drainStopped) && (a.Receive? ==> t.worker.Idle?)
    requires a.Exit? ==> t.worker.Idle?
    ensures
      var t' := Worked(o, t, a, drainStopped);
      QueuedFor(t'.queue, k) + WorkedFor(t'.worker, k)
      + (if a.AuditOutcome? && Carries(t.worker.q, k) then 1 else 0)
      == QueuedFor(t.queue, k) + WorkedFor(t.worker, k)
  {
    if a.Receive? {
      QueuedForFront(t.queue, k);
    }
  }

  lemma WorkerInside(c: Setup, s: State, d: nat, a: WorkerAct, k: Key)
    requires ValidSetup(c) && WorkerEnabled(c, s, d, a) && WorkerOk(c.outputs[d], s.dests[d].worker)
    ensures
      var moved := a.AuditOutcome? && Carries(s.dests[d].worker.q, k) && k.output == c.outputs[d].name;
      Inside(c, s.dests[d := Worked(c.outputs[d], s.dests[d], a, s.drainStopped)], k) + (if moved then 1 else 0)
      == Inside(c, s.dests, k)
  {
    LookupOwn(c, d);
    WorkedKeeps(c.outputs[d], s.dests[d], a, s.drainStopped, k);
  }

  lemma WorkerAudits(c: Setup, s: State, d: nat, a: WorkerAct, k: Key)
    requires WorkerEnabled(c, s, d, a) && WorkerOk(c.outputs[d], s.dests[d].worker)
    ensures
      var moved := a.AuditOutcome? && Carries(s.dests[d].worker.q, k) && k.output == c.outputs[d].name;
      RowsFor(WorkerNext(c, s, d, a).audit, k) == RowsFor(s.audit, k) + (if moved then 1 else 0)
  {
    if a.AuditOutcome? {
      RowsForAppend(s.audit, Outcome(s.dests[d].worker.row), k);
    }
  }

  lemma WorkerAccounted(c: Setup, s: State, d: nat, a: WorkerAct, k: Key)
    requires ValidSetup(c) && WorkerEnabled(c, s, d, a) && Shaped(c, s) && Accounted(c, s, k)
    ensures Accounted(c, WorkerNext(c, s, d, a), k)
  {
    assert WorkerOk(c.outputs[d], s.dests[d].worker);
    WorkerInside(c, s, d, a, k);
    WorkerAudits(c, s, d, a, k);
  }

  lemma StepConserved(c: Setup, s: State, a: Action)
    requires ValidSetup(c) && Enabled(c, s, a) && Shaped(c, s) && Conserved(c, s)
    ensures Conserved(c, Next(c, s, a))
  {
    var s' := Next(c, s, a);
    forall k: Key ensures Accounted(c, s', k) {
      assert Accounted(c, s, k);
      match a
      case ByPoller(i, pa) => PollerAccounted(c, s, i, pa, k);
      case ByWorker(d, wa) => WorkerAccounted(c, s, d, wa, k);
      case _ =>
    }
  }

  lemma InitConserved(c: Setup, seen: set<(string, string)>)
    ensures Conserved(c, Init(c, seen))
  {
    forall k: Key ensures Accounted(c, Init(c, seen), k) {
    }
  }
}

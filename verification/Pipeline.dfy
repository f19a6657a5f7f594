/** What holds in every run of the pipeline, whatever the interleaving, the
    replies, the cancellation and the sweeps. */
module Pipeline {
  import opened Basics
  import opened Protocol
  import Backoff
  import Routing
  import Shape
  import opened Ledger
  import opened Conservation
  import opened Metrics
  import opened Order
  import opened Backpressure
  import opened Admission
  import opened Progress
  import opened Shutdown
  import opened Choices
  import opened Unmatched

  ghost predicate Inv(c: Setup, s: State) {
    && Shape.Shaped(c, s) && AllBalanced(s) && Conserved(c, s)
    && AllTallied(c, s) && RowsOk(c, s.audit)
    && AllOrdered(c, s) && OneSource(c, s) && Lifecycle(s) && Honest(s)
    && AllFiled(c, s)
  }

  lemma StepInv(c: Setup, s: State, a: Action)
    requires ValidSetup(c) && Enabled(c, s, a) && Inv(c, s)
    ensures Inv(c, Next(c, s, a))
  {
    Shape.StepShape(c, s, a);
    StepBalanced(c, s, a);
    StepConserved(c, s, a);
    StepTallied(c, s, a);
    StepRowsOk(c, s, a);
    StepOrdered(c, s, a);
    StepOneSource(c, s, a);
    StepLifecycle(c, s, a);
    StepHonest(c, s, a);
    StepFiled(c, s, a);
  }

  lemma InitInv(c: Setup, seen: set<(string, string)>)
    requires ValidSetup(c)
    ensures Inv(c, Init(c, seen))
  {
    InitBalanced(c, seen);
    InitConserved(c, seen);
    InitTallied(c, seen);
    InitOrdered(c, seen);
    InitFiled(c, seen);
  }

  lemma {:induction false} RunInv(c: Setup, states: seq<State>, acts: seq<Action>, n: nat)
    requires ValidSetup(c) && IsRun(c, states, acts) && n < |states|
    ensures Inv(c, states[n])
  {
    if n == 0 {
      var seen :| states[0] == Init(c, seen);
      InitInv(c, seen);
    } else {
      RunInv(c, states, acts, n - 1);
      StepInv(c, states[n - 1], acts[n - 1]);
    }
  }

  /** The part of it that the steps of one poller rest on. */
  lemma RunShaped(c: Setup, states: seq<State>, acts: seq<Action>, n: nat)
    requires ValidSetup(c) && IsRun(c, states, acts) && n < |states|
    ensures Shape.Shaped(c, states[n]) && AllBalanced(states[n])
  {
    RunInv(c, states, acts, n);
  }

  lemma {:induction false} RunDecided(c: Setup, states: seq<State>, acts: seq<Action>, n: nat)
    requires ValidSetup(c) && IsRun(c, states, acts) && n <= |acts|
    ensures DropsDecided(c, states[..n + 1], acts[..n])
  {
    if n == 0 {
      var seen :| states[0] == Init(c, seen);
    } else {
      RunDecided(c, states, acts, n - 1);
      RunShaped(c, states, acts, n - 1);
      StepDecided(c, states[..n], acts[..n - 1], acts[n - 1]);
      assert states[..n] + [states[n]] == states[..n + 1];
      assert acts[..n - 1] + [acts[n - 1]] == acts[..n];
    }
  }

  // ---- outcome conservation ----

  lemma OnceEach(ks: seq<Key>, j: nat)
    requires j < |ks| && forall a, b :: 0 <= a < b < |ks| ==> ks[a] != ks[b]
    ensures Times(ks, ks[j]) == 1
  {
    var front, back := ks[..j], ks[j + 1..];
    assert ks == front + [ks[j]] + back;
    assert ks[j] !in front && ks[j] !in back;
  }

  lemma UnitOnce(c: Setup, item: Dispatch, j: nat)
    requires j < |Units(c, item)|
    ensures Times(Units(c, item), Units(c, item)[j]) == 1
  {
    forall a, b | 0 <= a < b < |Units(c, item)| ensures Units(c, item)[a] != Units(c, item)[b] {
      UnitsDistinct(c, item, a, b);
    }
    OnceEach(Units(c, item), j);
  }

  lemma StoppedDischarged(c: Setup, p: Poller, k: Key)
    requires p.phase.Stopped?
    ensures Discharged(c, p, k) == if Logged(p, k.item) then Times(Units(c, k.item), k) else 0
  {
    var us := Units(c, k.item);
    assert us[..|us|] == us && us[..0] == [];
  }

  lemma NothingInside(c: Setup, s: State, k: Key)
    requires Lifecycle(s) && AllExited(s)
    ensures Inside(c, s.dests, k) == 0
  {
    var d := Lookup(c.outputs, k.output);
    if d.Some? && d.value < |s.dests| {
      assert s.dests[d.value].worker.Exited? && s.dests[d.value].queue == [];
    }
  }

  /** After Run, nothing of k is left in a queue or in anyone's hands. */
  lemma ReturnedAccounts(c: Setup, s: State, k: Key)
    requires Accounted(c, s, k) && Lifecycle(s) && s.returned
    ensures RowsFor(s.audit, k)
      == if k.item.source < |s.pollers| && Logged(s.pollers[k.item.source], k.item) then Times(Units(c, k.item), k) else 0
  {
    NothingInside(c, s, k);
    if k.item.source < |s.pollers| {
      StoppedDischarged(c, s.pollers[k.item.source], k);
    }
  }

  /** When Run returns, every event that passed deduplication has exactly one
      audit row for each target Route gave it, or exactly one unrouted row. */
  lemma EveryOutcomeAudited(c: Setup, states: seq<State>, acts: seq<Action>, i: nat, n: nat, j: nat)
    requires ValidSetup(c) && IsRun(c, states, acts) && states[|acts|].returned
    requires i < |states[|acts|].pollers| && n < |states[|acts|].pollers[i].log|
    requires j < |Units(c, states[|acts|].pollers[i].log[n])|
    ensures RowsFor(states[|acts|].audit, Units(c, states[|acts|].pollers[i].log[n])[j]) == 1
  {
    var s := states[|acts|];
    RunInv(c, states, acts, |acts|);
    assert Shape.PollerOk(c, i, s.pollers[i]);
    var item := s.pollers[i].log[n];
    assert Accounted(c, s, Units(c, item)[j]);
    ReturnedAccounts(c, s, Units(c, item)[j]);
    UnitOnce(c, item, j);
  }

  /** The same by routing's own targets. */
  lemma EveryTargetAudited(c: Setup, states: seq<State>, acts: seq<Action>, i: nat, n: nat)
    requires ValidSetup(c) && IsRun(c, states, acts) && states[|acts|].returned
    requires i < |states[|acts|].pollers| && n < |states[|acts|].pollers[i].log|
    ensures
      var item, audit := states[|acts|].pollers[i].log[n], states[|acts|].audit;
      var targets := Routing.Route(c.rules, item.event);
      && (targets == [] ==> RowsFor(audit, Key(item, "", "")) == 1)
      && forall j :: 0 <= j < |targets| ==> RowsFor(audit, Key(item, targets[j].output, targets[j].rule)) == 1
  {
    var item := states[|acts|].pollers[i].log[n];
    var targets := Routing.Route(c.rules, item.event);
    EveryOutcomeAudited(c, states, acts, i, n, 0);
    forall j | 0 <= j < |targets|
      ensures RowsFor(states[|acts|].audit, Key(item, targets[j].output, targets[j].rule)) == 1
    {
      EveryOutcomeAudited(c, states, acts, i, n, j);
    }
  }

  lemma {:induction false} RowCounted(audit: seq<AuditEntry>, n: nat)
    requires n < |audit| && audit[n].Outcome?
    ensures RowsFor(audit, KeyOf(audit[n].row)) > 0
  {
    if n == |audit| - 1 {
    } else {
      RowCounted(audit[..|audit| - 1], n);
    }
  }

  lemma TimesInPrefix(ks: seq<Key>, j: nat, k: Key)
    requires j <= |ks| && Times(ks[..j], k) > 0
    ensures k in ks
  {
    assert k in ks[..j];
  }

  /** What a poller let go of was in its log, and one of that event's units. */
  lemma DischargedWasUnit(c: Setup, p: Poller, k: Key)
    requires Discharged(c, p, k) > 0
    ensures Logged(p, k.item) && k in Units(c, k.item)
  {
    TimesInPrefix(Units(c, k.item), Dealt(c, p, k.item), k);
  }

  lemma RowEarned(c: Setup, s: State, k: Key)
    requires Accounted(c, s, k) && RowsFor(s.audit, k) > 0
    ensures k.item.source < |s.pollers| && Logged(s.pollers[k.item.source], k.item) && k in Units(c, k.item)
  {
    DischargedWasUnit(c, s.pollers[k.item.source], k);
  }

  /** In every state, an audit row is a source's skipped record, or belongs to an
      event its source read and was not told to be a duplicate, and to one of its
      targets: a duplicate is never audited. */
  lemma EveryRowEarned(c: Setup, states: seq<State>, acts: seq<Action>, m: nat, n: nat)
    requires ValidSetup(c) && IsRun(c, states, acts) && m < |states| && n < |states[m].audit|
    ensures
      match states[m].audit[n]
      case SkippedRecord(source, _) => source < |c.sources|
      case Outcome(row) =>
        && row.item.source < |states[m].pollers| && Logged(states[m].pollers[row.item.source], row.item)
        && (exists k :: CameFrom(acts[..m], row.item, k))
        && KeyOf(row) in Units(c, row.item)
  {
    var s := states[m];
    RunInv(c, states, acts, m);
    match s.audit[n]
    case SkippedRecord(_, _) => assert EntryOk(c, s.audit[n]);
    case Outcome(row) =>
      RowCounted(s.audit, n);
      RowEarned(c, s, KeyOf(row));
      var k := LoggedCameFrom(c, states, acts, m, row.item.source, row.item.serial);
      assert CameFrom(acts[..m], row.item, k);
  }

  function SkipRows(audit: seq<AuditEntry>, e: AuditEntry): nat {
    if audit == [] then 0 else SkipRows(audit[..|audit| - 1], e) + (if audit[|audit| - 1] == e then 1 else 0)
  }

  /** The steps at which a source reported this record. */
  function SkipReports(acts: seq<Action>, source: nat, id: string): nat {
    if acts == [] then 0
    else
      SkipReports(acts[..|acts| - 1], source, id)
      + (if acts[|acts| - 1] == ByPoller(source, ReportSkip(id)) then 1 else 0)
  }

  lemma SkipRowsAppend(audit: seq<AuditEntry>, last: AuditEntry, e: AuditEntry)
    ensures SkipRows(audit + [last], e) == SkipRows(audit, e) + (if last == e then 1 else 0)
  {
    assert (audit + [last])[..|audit|] == audit;
  }

  lemma StepSkips(c: Setup, s: State, a: Action, source: nat, id: string)
    requires Enabled(c, s, a)
    ensures SkipRows(Next(c, s, a).audit, SkippedRecord(source, id))
      == SkipRows(s.audit, SkippedRecord(source, id)) + (if a == ByPoller(source, ReportSkip(id)) then 1 else 0)
  {
    var s' := Next(c, s, a);
    if s'.audit == s.audit {
    } else {
      var last := s'.audit[|s.audit|];
      assert s'.audit == s.audit + [last];
      SkipRowsAppend(s.audit, last, SkippedRecord(source, id));
    }
  }

  /** The skip rows are the reports made, one row for each, and no others. */
  lemma {:induction false} SkipsAreReports(c: Setup, states: seq<State>, acts: seq<Action>, n: nat, source: nat, id: string)
    requires IsRun(c, states, acts) && n < |states|
    ensures SkipRows(states[n].audit, SkippedRecord(source, id)) == SkipReports(acts[..n], source, id)
  {
    if n == 0 {
      var seen :| states[0] == Init(c, seen);
    } else {
      SkipsAreReports(c, states, acts, n - 1, source, id);
      StepSkips(c, states[n - 1], acts[n - 1], source, id);
      assert acts[..n][..n - 1] == acts[..n - 1];
    }
  }

  lemma UnitsAtMostOnce(c: Setup, item: Dispatch, j: nat, k: Key)
    requires j <= |Units(c, item)|
    ensures Times(Units(c, item)[..j], k) <= Times(Units(c, item), k) <= 1
  {
    var us := Units(c, item);
    if k in us {
      var a :| 0 <= a < |us| && us[a] == k;
      UnitOnce(c, item, a);
    }
    assert us == us[..j] + us[j..];
  }

  lemma DischargedOnce(c: Setup, p: Poller, k: Key)
    ensures Discharged(c, p, k) <= 1
  {
    UnitsAtMostOnce(c, k.item, Dealt(c, p, k.item), k);
  }

  /** And no target is ever audited twice, at any moment of the run. */
  lemma NoRowTwice(c: Setup, states: seq<State>, acts: seq<Action>, m: nat, k: Key)
    requires ValidSetup(c) && IsRun(c, states, acts) && m < |states|
    ensures RowsFor(states[m].audit, k) <= 1
  {
    RunInv(c, states, acts, m);
    assert Accounted(c, states[m], k);
    if k.item.source < |states[m].pollers| {
      DischargedOnce(c, states[m].pollers[k.item.source], k);
    }
  }

  /** At any moment a source has dispatched exactly the events it read whose answer
      was not that they are duplicates, in the order it read them. */
  lemma DispatchedAsAnswered(c: Setup, states: seq<State>, acts: seq<Action>, n: nat, i: nat)
    requires IsRun(c, states, acts) && n < |states| && i < |c.sources|
    ensures i < |states[n].pollers| && |Answers(acts[..n], i)| <= |Fetched(acts[..n], i)|
    ensures states[n].pollers[i].log == AsLog(i, Dispatched(Fetched(acts[..n], i), Answers(acts[..n], i)))
  {
    RunFollows(c, states, acts, n, i);
  }

  /** When Run returns, every event of every page was asked about. */
  lemma EveryEventDecided(c: Setup, states: seq<State>, acts: seq<Action>, i: nat)
    requires ValidSetup(c) && IsRun(c, states, acts) && states[|acts|].returned && i < |c.sources|
    ensures i < |states[|acts|].pollers| && |Answers(acts, i)| == |Fetched(acts, i)|
    ensures states[|acts|].pollers[i].log == AsLog(i, Dispatched(Fetched(acts, i), Answers(acts, i)))
  {
    RunInv(c, states, acts, |acts|);
    RunFollows(c, states, acts, |acts|, i);
    assert acts[..|acts|] == acts;
    assert states[|acts|].pollers[i].phase.Stopped?;
    assert |Fetched(acts, i)[|Answers(acts, i)|..]| == 0;
  }

  /** When Run returns, the rows that name no output are one for each record a
      source reported as skipped and one for each admitted event nothing matched. */
  lemma NamelessRowsAre(c: Setup, states: seq<State>, acts: seq<Action>)
    requires ValidSetup(c) && IsRun(c, states, acts) && states[|acts|].returned
    ensures NamelessRows(states[|acts|].audit) == SkipSteps(acts) + Total(UnroutedEvents(c, states[|acts|].pollers))
  {
    var s := states[|acts|];
    RunInv(c, states, acts, |acts|);
    RunSkipped(c, states, acts, |acts|);
    assert acts[..|acts|] == acts;
    NamelessAreBoth(s.audit);
    forall i | 0 <= i < |s.pollers| ensures Done(s.pollers[i]) == s.pollers[i].log {
      assert s.pollers[i].phase.Stopped?;
    }
    assert Filed(c, s.pollers) == UnroutedEvents(c, s.pollers);
  }

  /** After Run, no counted row is still to be written. */
  lemma NothingOwed(c: Setup, s: State, d: nat, status: Status)
    requires d < |c.outputs| == |s.dests| && Tallied(c, s, d, status) && Lifecycle(s) && s.returned
    ensures var k := Sample(c.outputs[d].name, status); Counter(s.counters, k) == CountedRows(s.audit, k)
  {
    var k := Sample(c.outputs[d].name, status);
    forall i | 0 <= i < |s.pollers| ensures PollerOwes(s.pollers[i], k) == 0 {
      assert s.pollers[i].phase.Stopped?;
    }
    TotalZero(PollersOwe(s.pollers, k));
    assert s.dests[d].worker.Exited?;
  }

  /** When Run returns, an output's counter for a status is the number of its
      rows with that status. Rows of unrouted events and of skipped records carry
      the empty output name, which shows only if an output has that name. */
  lemma CountersMatchRows(c: Setup, states: seq<State>, acts: seq<Action>, d: nat, status: Status)
    requires ValidSetup(c) && IsRun(c, states, acts) && states[|acts|].returned && d < |c.outputs|
    ensures
      var s, k := states[|acts|], Sample(c.outputs[d].name, status);
      && RowsWith(s.audit, k)
         == Counter(s.counters, k)
            + (if k.output == "" && status == Dropped then SkipSteps(acts) + Total(UnroutedEvents(c, s.pollers)) else 0)
      && (RowsWith(s.audit, k) == Counter(s.counters, k)
          <==> (k.output == "" && status == Dropped ==> SkipSteps(acts) == 0 == Total(UnroutedEvents(c, s.pollers))))
  {
    var s, k := states[|acts|], Sample(c.outputs[d].name, status);
    RunInv(c, states, acts, |acts|);
    NamelessRowsAre(c, states, acts);
    RowsWithCounted(c, s.audit, d, status);
    NothingOwed(c, s, d, status);
  }

  // ---- the blocking-mode ledger ----

  /** In every state the counter is the tracked events in pollers' hands, in the
      queue and in the worker's hands, so it is never negative. */
  lemma LedgerHolds(c: Setup, states: seq<State>, acts: seq<Action>, n: nat, d: nat)
    requires ValidSetup(c) && IsRun(c, states, acts) && n < |states| && d < |c.outputs|
    ensures d < |states[n].dests| && states[n].dests[d].outstanding >= 0
    ensures
      var s := states[n];
      s.dests[d].outstanding
      == Holders(s.pollers, d) + TrackedIn(s.dests[d].queue) + TrackedByWorker(s.dests[d].worker)
    ensures states[n].returned ==> states[n].dests[d].outstanding == 0
  {
    RunInv(c, states, acts, n);
    var s := states[n];
    assert Balanced(s, d);
    if s.returned {
      assert s.dests[d].worker.Exited? && AllStopped(s);
      SettledWhenQuiet(s, d);
    }
  }

  /** The mode cannot stick: once a worker has nothing left to do, only events
      still in pollers' hands keep its output in blocking mode. */
  lemma ModeEnds(c: Setup, states: seq<State>, acts: seq<Action>, n: nat, d: nat)
    requires ValidSetup(c) && IsRun(c, states, acts) && n < |states| && d < |c.outputs|
    requires d < |states[n].dests| && !WorkerCanMove(c, states[n], d) && !states[n].panicked
    ensures states[n].dests[d].outstanding == Holders(states[n].pollers, d)
  {
    RunInv(c, states, acts, n);
    var s := states[n];
    assert Balanced(s, d);
    if !(s.dests[d].worker.Exited? || (s.dests[d].worker.Idle? && s.dests[d].queue == [])) {
      WorkerNotStuck(c, s, d);
    }
  }

  lemma RunWorks(c: Setup, states: seq<State>, acts: seq<Action>, d: nat, k: nat)
    requires ValidSetup(c) && IsRun(c, states, acts) && k < |acts| && d < |c.outputs|
    ensures WorkAt(c, states[k + 1], d) + StepOf(acts[k], d)
      <= WorkAt(c, states[k], d) + ArrivalOf(states[k], states[k + 1], d) * Cost(c.outputs[d])
  {
    RunInv(c, states, acts, k);
    StepWorks(c, states[k], acts[k], d);
  }

  /** And it ends soon: over any stretch of a run, whatever else happens, an
      output's worker takes no more steps than the work it had plus a fixed cost for
      each event that arrived. Once arrivals stop its backlog is worked off. */
  lemma BacklogIsWorkedOff(c: Setup, states: seq<State>, acts: seq<Action>, d: nat, m: nat, n: nat)
    requires ValidSetup(c) && IsRun(c, states, acts) && m <= n <= |acts| && d < |c.outputs|
    ensures WorkAt(c, states[n], d) + Total(WorkerSteps(acts, d)[m..n])
      <= WorkAt(c, states[m], d) + Total(Arrivals(states, d)[m..n]) * Cost(c.outputs[d])
  {
    var level, used, taken := Levels(c, states, d), WorkerSteps(acts, d), Arrivals(states, d);
    forall k | 0 <= k < |used| ensures level[k + 1] + used[k] <= level[k] + taken[k] * Cost(c.outputs[d]) {
      RunWorks(c, states, acts, d, k);
    }
    Telescope(level, used, taken, Cost(c.outputs[d]), m, n);
  }

  // ---- drains cannot drop ----

  /** A full-queue row is never an event of a backlog or eager page, and was
      decided at a step where its output's counter stood at zero. */
  lemma DrainsCannotDrop(c: Setup, states: seq<State>, acts: seq<Action>, n: nat)
    requires ValidSetup(c) && IsRun(c, states, acts)
    requires n < |states[|acts|].audit| && IsFullQueue(states[|acts|].audit[n])
    ensures !states[|acts|].audit[n].row.item.block
    ensures Decided(c, states, acts, KeyOf(states[|acts|].audit[n].row))
  {
    RunInv(c, states, acts, |acts|);
    assert EntryOk(c, states[|acts|].audit[n]);
    RunDecided(c, states, acts, |acts|);
    assert states[..|acts| + 1] == states && acts[..|acts|] == acts;
  }

  lemma {:induction false} LosingWasRefused(c: Setup, states: seq<State>, acts: seq<Action>, n: nat, i: nat)
    requires ValidSetup(c) && IsRun(c, states, acts) && n < |states| && i < |states[n].pollers|
    requires AtUnit(c, states[n].pollers[i]) && Losing(states[n].pollers[i].phase.stage)
    ensures exists m :: 0 <= m < n && RefusedAt(c, states[m], acts[m], Unit(c, states[n].pollers[i]))
  {
    if n > 0 {
      RunShaped(c, states, acts, n - 1);
      assert i < |states[n - 1].pollers|;
      StepLosing(c, states[n - 1], acts[n - 1], i);
      if Losing(states[n - 1].pollers[i].phase.stage) {
        LosingWasRefused(c, states, acts, n - 1, i);
      }
    }
  }

  /** And it is true: at some step the target was offered to that queue and the queue
      held as many events as its buffer, which is the most it ever holds. */
  lemma {:induction false} FullQueueWasFull(c: Setup, states: seq<State>, acts: seq<Action>, n: nat, x: nat)
    requires ValidSetup(c) && IsRun(c, states, acts) && n < |states|
    requires x < |states[n].audit| && IsFullQueue(states[n].audit[x])
    ensures exists m :: 0 <= m < n && RefusedAt(c, states[m], acts[m], KeyOf(states[n].audit[x].row))
  {
    if n > 0 {
      if x < |states[n - 1].audit| {
        AuditKept(c, states[n - 1], acts[n - 1], x);
        FullQueueWasFull(c, states, acts, n - 1, x);
      } else {
        RunShaped(c, states, acts, n - 1);
        StepLoses(c, states[n - 1], acts[n - 1], x);
        LosingWasRefused(c, states, acts, n - 1, acts[n - 1].i);
      }
    }
  }

  lemma AuditKept(c: Setup, s: State, a: Action, x: nat)
    requires Enabled(c, s, a) && x < |s.audit|
    ensures x < |Next(c, s, a).audit| && Next(c, s, a).audit[x] == s.audit[x]
  {
  }

  /** In every state no queue holds more than its buffer. */
  lemma {:induction false} QueuesAreBounded(c: Setup, states: seq<State>, acts: seq<Action>, n: nat)
    requires ValidSetup(c) && IsRun(c, states, acts) && n < |states|
    ensures QueuesFit(c, states[n])
  {
    if n == 0 {
      var seen :| states[0] == Init(c, seen);
    } else {
      QueuesAreBounded(c, states, acts, n - 1);
      if acts[n - 1].ByPoller? {
        NoSendOnClosed(c, states, acts, n - 1);
      }
      StepFits(c, states[n - 1], acts[n - 1]);
    }
  }

  /** Told by the steps alone: the k-th event a source read, if the poll that read it
      reported a backlog or was made behind another page with no tick in between, is
      never dropped by a full queue. */
  lemma DrainedIsNeverDropped(c: Setup, states: seq<State>, acts: seq<Action>, m: nat, k: nat, n: nat)
    requires ValidSetup(c) && IsRun(c, states, acts)
    requires n < |states[|acts|].audit| && IsFullQueue(states[|acts|].audit[n])
    requires Placed(acts, states[|acts|].audit[n].row.item, k)
    requires ReadBy(acts, states[|acts|].audit[n].row.item.source, m, k)
    ensures !acts[m].pa.backlog && !Eager(acts, states[|acts|].audit[n].row.item.source, m)
  {
    var item := states[|acts|].audit[n].row.item;
    DrainsCannotDrop(c, states, acts, n);
    EveryRowEarned(c, states, acts, |acts|, n);
    RunShaped(c, states, acts, |acts|);
    assert acts[..|acts|] == acts;
    PlacedCameFrom(c, states, acts, |acts|, item, k);
    ReadWaits(acts, item.source, m, k);
  }

  /** Whenever a poller moves while it offers a tracked event, the event joins its
      queue, or goes on waiting for room, or is given up because of a cancellation
      and will be audited as that. */
  lemma TrackedLeavesByShutdown(c: Setup, states: seq<State>, acts: seq<Action>, m: nat, i: nat, d: nat)
    requires ValidSetup(c) && IsRun(c, states, acts) && m < |acts|
    requires acts[m].ByPoller? && acts[m].i == i && i < |states[m].pollers| && AtUnit(c, states[m].pollers[i])
    requires states[m].pollers[i].phase.stage == Offer(d, true) || states[m].pollers[i].phase.stage == Blocked(d)
    ensures i < |states[m + 1].pollers| && d < |states[m].dests| && d < |states[m + 1].dests|
    ensures
      var p, p' := states[m].pollers[i], states[m + 1].pollers[i];
      var queue, queue' := states[m].dests[d].queue, states[m + 1].dests[d].queue;
      || (queue' == queue + [Entry(c, p, true)] && p' == Advance(c, p))
      || (queue' == queue && p' == InStage(p, Blocked(d)) && !HasRoom(c, states[m], d))
      || (queue' == queue && p' == InStage(p, Tally(DropRow(Unit(c, p), ShutDownBeforeDelivery))) && states[m].cancelled)
  {
    RunInv(c, states, acts, m);
    assert Enabled(c, states[m], acts[m]) && states[m + 1] == Next(c, states[m], acts[m]);
    TrackedFate(c, states[m], i, acts[m].pa, d);
  }

  lemma TrackedFate(c: Setup, s: State, i: nat, a: PollerAct, d: nat)
    requires Shape.Shaped(c, s) && PollerEnabled(c, s, i, a) && AtUnit(c, s.pollers[i])
    requires s.pollers[i].phase.stage == Offer(d, true) || s.pollers[i].phase.stage == Blocked(d)
    requires Lifecycle(s)
    ensures d < |s.dests| && |Touched(c, s, i, a)| == |s.dests|
    ensures
      var p, p' := s.pollers[i], Moved(c, s, i, a);
      var queue, queue' := s.dests[d].queue, Touched(c, s, i, a)[d].queue;
      || (queue' == queue + [Entry(c, p, true)] && p' == Advance(c, p))
      || (queue' == queue && p' == InStage(p, Blocked(d)) && !HasRoom(c, s, d))
      || (queue' == queue && p' == InStage(p, Tally(DropRow(Unit(c, p), ShutDownBeforeDelivery))) && s.cancelled)
  {
    assert Shape.PollerOk(c, i, s.pollers[i]);
  }

  lemma RunStaysPast(c: Setup, states: seq<State>, acts: seq<Action>, n: nat, k: Key)
    requires ValidSetup(c) && IsRun(c, states, acts) && n < |acts|
    requires k.item.source < |states[n].pollers| && Past(c, states[n].pollers[k.item.source], k)
    ensures k.item.source < |states[n + 1].pollers| && Past(c, states[n + 1].pollers[k.item.source], k)
  {
    RunShaped(c, states, acts, n);
    StepStaysPast(c, states[n], acts[n], k.item.source, k);
  }

  lemma {:induction false} StaysPast(c: Setup, states: seq<State>, acts: seq<Action>, m: nat, n: nat, k: Key)
    requires ValidSetup(c) && IsRun(c, states, acts) && m < n < |states| && ClassifiesAt(c, states[m], acts[m], k)
    ensures k.item.source < |states[n].pollers| && Past(c, states[n].pollers[k.item.source], k)
  {
    if n == m + 1 {
      ClassifyPasses(c, states[m], k.item.source);
    } else {
      StaysPast(c, states, acts, m, n - 1, k);
      RunStaysPast(c, states, acts, n - 1, k);
    }
  }

  /** No target of an event is classified twice. */
  lemma ClassifiedOnce(c: Setup, states: seq<State>, acts: seq<Action>, m: nat, n: nat, k: Key)
    requires ValidSetup(c) && IsRun(c, states, acts) && m < n < |acts| && ClassifiesAt(c, states[m], acts[m], k)
    ensures !ClassifiesAt(c, states[n], acts[n], k)
  {
    if ClassifiesAt(c, states[n], acts[n], k) {
      StaysPast(c, states, acts, m, n, k);
      assert Enabled(c, states[n], acts[n]);
      RunShaped(c, states, acts, n);
      ChoosingIsNotPast(c, k.item.source, states[n].pollers[k.item.source]);
    }
  }

  lemma TrackedIsNotDecided(c: Setup, states: seq<State>, acts: seq<Action>, m: nat, k: Key)
    requires ValidSetup(c) && IsRun(c, states, acts) && m < |acts| && TrackedAt(c, states[m], acts[m], k)
    ensures k.item.block || !Decided(c, states, acts, k)
  {
    if !k.item.block && Decided(c, states, acts, k) {
      var x :| 0 <= x < |acts| && DecidedAt(c, states[x], acts[x], k);
      if x < m {
        ClassifiedOnce(c, states, acts, x, m, k);
      } else if m < x {
        ClassifiedOnce(c, states, acts, m, x, k);
      }
    }
  }

  /** The other side: a poller only ever waits for room with a target that was
      classified as tracked. A live event met by a full queue never holds it up. */
  lemma {:induction false} OnlyTrackedWait(c: Setup, states: seq<State>, acts: seq<Action>, n: nat, i: nat)
    requires ValidSetup(c) && IsRun(c, states, acts) && n < |states| && i < |states[n].pollers|
    requires AtUnit(c, states[n].pollers[i]) && Insists(states[n].pollers[i].phase.stage)
    ensures exists m :: 0 <= m < n && TrackedAt(c, states[m], acts[m], Unit(c, states[n].pollers[i]))
  {
    if n > 0 {
      RunShaped(c, states, acts, n - 1);
      assert i < |states[n - 1].pollers|;
      StepInsists(c, states[n - 1], acts[n - 1], i);
      if Insists(states[n - 1].pollers[i].phase.stage) {
        OnlyTrackedWait(c, states, acts, n - 1, i);
      }
    }
  }

  /** A target once classified as tracked is never dropped by a full queue, nor for
      any other cause than a shutdown that has begun: its row is its worker's, or
      says it was shut down. */
  lemma TrackedIsNeverDropped(c: Setup, states: seq<State>, acts: seq<Action>, m: nat, n: nat, k: Key)
    requires ValidSetup(c) && IsRun(c, states, acts) && m < |acts| && TrackedAt(c, states[m], acts[m], k)
    requires n < |states[|acts|].audit| && IsFor(states[|acts|].audit[n], k)
    ensures
      var row := states[|acts|].audit[n].row;
      row.status == Dropped ==> BlamesShutdown(row) && states[|acts|].cancelled
  {
    var row := states[|acts|].audit[n].row;
    RunInv(c, states, acts, |acts|);
    RunInv(c, states, acts, m);
    assert EntryOk(c, states[|acts|].audit[n]);
    assert EntryHonest(states[|acts|], states[|acts|].audit[n]);
    assert Shape.PollerOk(c, k.item.source, states[m].pollers[k.item.source]);
    assert Enabled(c, states[m], acts[m]);
    if row.cause.QueueFull? {
      DrainsCannotDrop(c, states, acts, n);
      TrackedIsNotDecided(c, states, acts, m, k);
    }
  }

  /** What the log puts down to shutdown happened in it: no such row before a
      cancellation, none about an attempt under way before the drain was cut short,
      and the same of every row a worker is about to write. */
  lemma ShutdownRowsAreTrue(c: Setup, states: seq<State>, acts: seq<Action>, m: nat)
    requires ValidSetup(c) && IsRun(c, states, acts) && m < |states|
    ensures forall n :: 0 <= n < |states[m].audit| && states[m].audit[n].Outcome? ==>
      && (BlamesShutdown(states[m].audit[n].row) ==> states[m].cancelled)
      && (BlamesDrain(states[m].audit[n].row) ==> states[m].drainStopped)
    ensures forall d :: 0 <= d < |states[m].dests| ==> WorkerHonest(states[m], states[m].dests[d].worker)
    ensures forall i :: 0 <= i < |states[m].pollers| ==> PollerHonest(states[m], states[m].pollers[i])
  {
    RunInv(c, states, acts, m);
    forall n | 0 <= n < |states[m].audit| ensures EntryHonest(states[m], states[m].audit[n]) {
    }
  }

  /** With one source, each queue is live events followed by tracked ones, and the
      counter is still zero when a live event is dropped. */
  lemma OneSourceQueues(c: Setup, states: seq<State>, acts: seq<Action>, n: nat, d: nat)
    requires ValidSetup(c) && IsRun(c, states, acts) && n < |states| && d < |c.outputs| && |c.sources| == 1
    ensures d < |states[n].dests| && TrackedLast(states[n].dests[d].queue)
    ensures |states[n].pollers| == 1
    ensures LiveAt(c, states[n].pollers[0]) == Some(d) ==> states[n].dests[d].outstanding == 0
  {
    RunInv(c, states, acts, n);
  }

  // ---- order ----

  /** What an output has been sent, restricted to one source, follows that
      source's log: never backwards, and only events the source admitted. */
  lemma SentInOrder(c: Setup, states: seq<State>, acts: seq<Action>, n: nat, d: nat, a: nat, b: nat)
    requires ValidSetup(c) && IsRun(c, states, acts) && n < |states| && d < |c.outputs|
    requires d < |states[n].dests| && a < b < |states[n].dests[d].sends|
    ensures
      var s := states[n];
      var x, y := s.dests[d].sends[a], s.dests[d].sends[b];
      && x.source < |s.pollers| && Logged(s.pollers[x.source], x)
      && y.source < |s.pollers| && Logged(s.pollers[y.source], y)
      && (x.source == y.source ==> x.serial <= y.serial)
  {
    RunInv(c, states, acts, n);
    var s := states[n];
    assert Ordered(c, s, d);
    assert Behind(c, s.pollers, d, s.dests[d].sends[a]) && Behind(c, s.pollers, d, s.dests[d].sends[b]);
    assert NotAfter(s.dests[d].sends[a], s.dests[d].sends[b]);
  }

  // ---- progress ----

  /** No send ever meets a closed channel. */
  lemma NoSendOnClosed(c: Setup, states: seq<State>, acts: seq<Action>, n: nat)
    requires ValidSetup(c) && IsRun(c, states, acts) && n < |acts| && acts[n].ByPoller?
    ensures acts[n].i < |states[n].pollers| && !SendsOnClosed(states[n], acts[n].i, acts[n].pa)
  {
    RunInv(c, states, acts, n);
    PollerLifecycle(c, states[n], acts[n].i, acts[n].pa);
  }

  /** A panic is a worker's backoff, before an attempt that 35 would not reach. */
  lemma OnlyBackoffPanics(c: Setup, states: seq<State>, acts: seq<Action>, n: nat)
    requires ValidSetup(c) && IsRun(c, states, acts) && n < |states| && states[n].panicked
    ensures exists d :: (
      && 0 <= d < |states[n].dests| && d < |c.outputs| && states[n].dests[d].worker.Panicked?
      && Backoff.Overflows(states[n].dests[d].worker.attempt)
      && states[n].dests[d].worker.attempt < c.outputs[d].maxAttempts)
  {
    RunInv(c, states, acts, n);
    var d :| 0 <= d < |states[n].dests| && states[n].dests[d].worker.Panicked?;
    assert Shape.WorkerOk(c.outputs[d], states[n].dests[d].worker);
  }

  /** Until Run has returned or a backoff has panicked some step is possible, and
      no run panics whose outputs have at most 35 attempts. */
  lemma NeverStuck(c: Setup, states: seq<State>, acts: seq<Action>, n: nat)
    requires ValidSetup(c) && IsRun(c, states, acts) && n < |states|
    ensures (forall d :: 0 <= d < |c.outputs| ==> c.outputs[d].maxAttempts <= 35) ==> !states[n].panicked
    ensures states[n].returned || states[n].panicked
      || exists a :: Enabled(c, states[n], a) && !a.Cancel? && !a.Sweep? && !a.DrainTimeout?
  {
    RunInv(c, states, acts, n);
    var s := states[n];
    if s.panicked {
      OnlyBackoffPanics(c, states, acts, n);
    } else if !s.returned {
      SomeoneMoves(c, s);
      if i :| 0 <= i < |s.pollers| && PollerCanMove(c, s, i) {
        var pa :| PollerEnabled(c, s, i, pa);
        assert Enabled(c, s, ByPoller(i, pa));
      } else if d :| 0 <= d < |s.dests| && WorkerCanMove(c, s, d) {
        var wa :| WorkerEnabled(c, s, d, wa);
        assert Enabled(c, s, ByWorker(d, wa));
      }
    }
  }

  /** Once the pollers are done, the run is at most Effort steps from its end. */
  lemma {:induction false} ShutdownIsFinite(c: Setup, states: seq<State>, acts: seq<Action>, m: nat, n: nat)
    requires ValidSetup(c) && IsRun(c, states, acts) && m <= n < |states| && AllStopped(states[m])
    ensures |states[m].dests| == |c.outputs| && n - m <= Effort(c, states[m])
    decreases n - m
  {
    RunInv(c, states, acts, m);
    if m < n {
      ShutdownDescends(c, states[m], acts[m]);
      ShutdownIsFinite(c, states, acts, m + 1, n);
    }
  }
}

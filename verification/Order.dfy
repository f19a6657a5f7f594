/** Order: an output is sent each source's events in the order that source
    dispatched them, whatever the retries and the interleaving. */
module Order {
  import opened Basics
  import Routing
  import opened Protocol
  import Shape

  /** What is on its way to the output, oldest first. */
  function Line(t: Dest): seq<Dispatch> {
    var queue := seq(|t.queue|, n requires 0 <= n < |t.queue| => t.queue[n].item);
    if t.worker.Idle? || t.worker.Exited? || t.worker.Settling? then queue else [t.worker.q.item] + queue
  }

  predicate Before(x: Dispatch, y: Dispatch) {
    x.source == y.source ==> x.serial < y.serial
  }

  predicate NotAfter(x: Dispatch, y: Dispatch) {
    x.source == y.source ==> x.serial <= y.serial
  }

  /** The line moves forward, and nothing in it was overtaken by what was sent. */
  predicate Orderly(line: seq<Dispatch>, sends: seq<Dispatch>) {
    && (forall a, b :: 0 <= a < b < |line| ==> Before(line[a], line[b]))
    && (forall a, b :: 0 <= a < |sends| && 0 <= b < |line| ==> NotAfter(sends[a], line[b]))
    && (forall a, b :: 0 <= a < b < |sends| ==> NotAfter(sends[a], sends[b]))
  }

  predicate InOrder(t: Dest) {
    Orderly(Line(t), t.sends)
  }

  lemma OrderlyTail(line: seq<Dispatch>, rest: seq<Dispatch>, x: Dispatch, sends: seq<Dispatch>)
    requires Orderly(line, sends) && line == [x] + rest
    ensures Orderly(rest, sends)
  {
    assert forall n :: 0 <= n < |rest| ==> rest[n] == line[n + 1];
  }

  lemma OrderlySend(line: seq<Dispatch>, sends: seq<Dispatch>)
    requires Orderly(line, sends) && line != []
    ensures Orderly(line, sends + [line[0]])
  {
  }

  /** The poller still has to deal with output d for its current event. */
  predicate Due(c: Setup, p: Poller, d: nat) {
    AtUnit(c, p)
    && exists j :: p.phase.j <= j < |Units(c, Last(p))| && Lookup(c.outputs, Units(c, Last(p))[j].output) == Some(d)
  }

  /** Serials below this one may already be on output d; the others may not. */
  function Frontier(c: Setup, p: Poller, d: nat): nat {
    if Due(c, p, d) then |p.log| - 1 else |p.log|
  }

  predicate Behind(c: Setup, pollers: seq<Poller>, d: nat, x: Dispatch) {
    && x.source < |pollers| && x.serial < Frontier(c, pollers[x.source], d)
    && pollers[x.source].log[x.serial] == x
  }

  predicate EachBehind(c: Setup, pollers: seq<Poller>, d: nat, xs: seq<Dispatch>) {
    forall a :: 0 <= a < |xs| ==> Behind(c, pollers, d, xs[a])
  }

  predicate AllBehind(c: Setup, pollers: seq<Poller>, d: nat, t: Dest) {
    EachBehind(c, pollers, d, Line(t)) && EachBehind(c, pollers, d, t.sends)
  }

  predicate Ordered(c: Setup, s: State, d: nat)
    requires d < |s.dests|
  {
    InOrder(s.dests[d]) && AllBehind(c, s.pollers, d, s.dests[d])
  }

  /** Two targets of one event are two outputs. */
  lemma UnitsDistinct(c: Setup, item: Dispatch, a: nat, b: nat)
    requires a < b < |Units(c, item)|
    ensures Units(c, item)[a].output != Units(c, item)[b].output
  {
    Routing.RouteDistinct(c.rules, item.event);
  }

  lemma AdvanceFrontier(c: Setup, p: Poller, d: nat)
    requires AtUnit(c, p)
    ensures Frontier(c, p, d) <= Frontier(c, Advance(c, p), d)
    ensures Lookup(c.outputs, Unit(c, p).output) == Some(d) ==>
      Frontier(c, p, d) == |p.log| - 1 && Frontier(c, Advance(c, p), d) == |p.log|
  {
    var us, p', j := Units(c, Last(p)), Advance(c, p), p.phase.j;
    assert Last(p') == Last(p);
    if Lookup(c.outputs, Unit(c, p).output) == Some(d) {
      assert Due(c, p, d);
      forall b | j < b < |us| ensures Lookup(c.outputs, us[b].output) != Some(d) {
        UnitsDistinct(c, Last(p), j, b);
      }
    }
  }

  lemma InStageFrontier(c: Setup, p: Poller, stage: Stage, d: nat)
    requires AtUnit(c, p)
    ensures Frontier(c, InStage(p, stage), d) == Frontier(c, p, d)
  {
    var p' := InStage(p, stage);
    assert Last(p') == Last(p) && p'.phase.j == p.phase.j;
  }

  /** A poller's frontier only moves forward. */
  lemma PollerFrontier(c: Setup, s: State, i: nat, a: PollerAct, d: nat)
    requires PollerEnabled(c, s, i, a)
    ensures Frontier(c, s.pollers[i], d) <= Frontier(c, Moved(c, s, i, a), d)
  {
    var p := s.pollers[i];
    if AtUnit(c, p) {
      AdvanceFrontier(c, p, d);
      if Moved(c, s, i, a) != Advance(c, p) {
        InStageFrontier(c, p, Moved(c, s, i, a).phase.stage, d);
      }
    }
  }

  lemma LogGrows(c: Setup, s: State, i: nat, a: PollerAct)
    requires PollerEnabled(c, s, i, a)
    ensures s.pollers[i].log <= Moved(c, s, i, a).log
  {
    assert AtUnit(c, s.pollers[i]) ==> Advance(c, s.pollers[i]).log == s.pollers[i].log;
  }

  lemma BehindKept(c: Setup, s: State, i: nat, a: PollerAct, d: nat, x: Dispatch)
    requires PollerEnabled(c, s, i, a) && Behind(c, s.pollers, d, x)
    ensures Behind(c, s.pollers[i := Moved(c, s, i, a)], d, x)
  {
    PollerFrontier(c, s, i, a, d);
    LogGrows(c, s, i, a);
  }

  predicate SendsTo(c: Setup, s: State, i: nat, a: PollerAct, d: nat)
    requires PollerEnabled(c, s, i, a)
  {
    (a.SendBlocked? || (a.TrySend? && HasRoom(c, s, s.pollers[i].phase.stage.d))) && s.pollers[i].phase.stage.d == d
  }

  lemma LineGrows(t: Dest, t': Dest, q: Queued)
    requires t'.worker == t.worker
    ensures t'.queue == t.queue + [q] ==> Line(t') == Line(t) + [q.item]
    ensures t'.queue == t.queue ==> Line(t') == Line(t)
  {
  }

  lemma TouchedLine(c: Setup, s: State, i: nat, a: PollerAct, d: nat)
    requires PollerEnabled(c, s, i, a) && d < |s.dests|
    ensures |Touched(c, s, i, a)| == |s.dests| && Touched(c, s, i, a)[d].sends == s.dests[d].sends
    ensures Line(Touched(c, s, i, a)[d])
      == Line(s.dests[d]) + (if SendsTo(c, s, i, a, d) then [Last(s.pollers[i])] else [])
  {
    Shape.TouchedFrame(c, s, i, a);
    var t, t' := s.dests[d], Touched(c, s, i, a)[d];
    if SendsTo(c, s, i, a, d) {
      LineGrows(t, t', Entry(c, s.pollers[i], a.SendBlocked? || s.pollers[i].phase.stage.tracked));
    } else {
      assert t'.queue == t.queue;
      assert Line(t') == Line(t);
    }
  }

  lemma InOrderAppend(t: Dest, t': Dest, x: Dispatch)
    requires InOrder(t) && t'.sends == t.sends && Line(t') == Line(t) + [x]
    requires forall a :: 0 <= a < |Line(t)| ==> Before(Line(t)[a], x)
    requires forall a :: 0 <= a < |t.sends| ==> NotAfter(t.sends[a], x)
    ensures InOrder(t')
  {
  }

  /** What is sent joins behind everything its source already put there. */
  lemma PollerInOrder(c: Setup, s: State, i: nat, a: PollerAct, d: nat)
    requires PollerEnabled(c, s, i, a) && Shape.PollerOk(c, i, s.pollers[i]) && d < |s.dests| && Ordered(c, s, d)
    ensures |Touched(c, s, i, a)| == |s.dests| && InOrder(Touched(c, s, i, a)[d])
  {
    var p, t := s.pollers[i], s.dests[d];
    TouchedLine(c, s, i, a, d);
    var t' := Touched(c, s, i, a)[d];
    if SendsTo(c, s, i, a, d) {
      AdvanceFrontier(c, p, d);
      var x := Last(p);
      assert x.source == i && x.serial == |p.log| - 1;
      forall n | 0 <= n < |Line(t)| ensures Before(Line(t)[n], x) {
        assert Behind(c, s.pollers, d, Line(t)[n]);
      }
      forall n | 0 <= n < |t.sends| ensures NotAfter(t.sends[n], x) {
        assert Behind(c, s.pollers, d, t.sends[n]);
      }
      InOrderAppend(t, t', x);
    } else {
      assert Line(t') == Line(t);
    }
  }

  lemma PollerBehind(c: Setup, s: State, i: nat, a: PollerAct, d: nat)
    requires PollerEnabled(c, s, i, a) && Shape.PollerOk(c, i, s.pollers[i]) && d < |s.dests| && Ordered(c, s, d)
    ensures |Touched(c, s, i, a)| == |s.dests|
    ensures AllBehind(c, s.pollers[i := Moved(c, s, i, a)], d, Touched(c, s, i, a)[d])
  {
    var p, t := s.pollers[i], s.dests[d];
    var pollers' := s.pollers[i := Moved(c, s, i, a)];
    TouchedLine(c, s, i, a, d);
    var t' := Touched(c, s, i, a)[d];
    forall n | 0 <= n < |t'.sends| ensures Behind(c, pollers', d, t'.sends[n]) {
      BehindKept(c, s, i, a, d, t.sends[n]);
    }
    forall n | 0 <= n < |Line(t')| ensures Behind(c, pollers', d, Line(t')[n]) {
      if n < |Line(t)| {
        BehindKept(c, s, i, a, d, Line(t)[n]);
      } else {
        AdvanceFrontier(c, p, d);
        assert Line(t')[n] == Last(p) == p.log[|p.log| - 1];
        LogGrows(c, s, i, a);
      }
    }
  }

  lemma WorkedLine(o: OutputConfig, t: Dest, a: WorkerAct, drainStopped: bool)
    requires Worked.requires(o, t, a, drainStopped) && ((a.Receive? || a.Exit?) ==> t.worker.Idle?)
    ensures
      var t' := Worked(o, t, a, drainStopped);
      && (if a.AuditOutcome? then Line(t) == [t.worker.q.item] + Line(t') else Line(t') == Line(t))
      && (if a.Send? then Line(t) != [] && t'.sends == t.sends + [Line(t)[0]] else t'.sends == t.sends)
  {
  }

  lemma BehindTail(c: Setup, pollers: seq<Poller>, d: nat, line: seq<Dispatch>, rest: seq<Dispatch>, x: Dispatch)
    requires EachBehind(c, pollers, d, line) && line == [x] + rest
    ensures EachBehind(c, pollers, d, rest)
  {
    assert forall n :: 0 <= n < |rest| ==> rest[n] == line[n + 1];
  }

  lemma BehindSend(c: Setup, pollers: seq<Poller>, d: nat, line: seq<Dispatch>, sends: seq<Dispatch>)
    requires EachBehind(c, pollers, d, line) && EachBehind(c, pollers, d, sends) && line != []
    ensures EachBehind(c, pollers, d, sends + [line[0]])
  {
    assert Behind(c, pollers, d, line[0]);
  }

  lemma WorkedOrdered(c: Setup, pollers: seq<Poller>, d: nat, o: OutputConfig, t: Dest, a: WorkerAct, drainStopped: bool)
    requires Worked.requires(o, t, a, drainStopped) && ((a.Receive? || a.Exit?) ==> t.worker.Idle?)
    requires InOrder(t) && AllBehind(c, pollers, d, t)
    ensures InOrder(Worked(o, t, a, drainStopped)) && AllBehind(c, pollers, d, Worked(o, t, a, drainStopped))
  {
    WorkedLine(o, t, a, drainStopped);
    var t' := Worked(o, t, a, drainStopped);
    if a.AuditOutcome? {
      OrderlyTail(Line(t), Line(t'), t.worker.q.item, t.sends);
      BehindTail(c, pollers, d, Line(t), Line(t'), t.worker.q.item);
    } else if a.Send? {
      OrderlySend(Line(t), t.sends);
      BehindSend(c, pollers, d, Line(t), t.sends);
    }
  }

  ghost predicate AllOrdered(c: Setup, s: State) {
    forall d :: 0 <= d < |s.dests| ==> Ordered(c, s, d)
  }

  lemma PollerOrdered(c: Setup, s: State, i: nat, a: PollerAct, d: nat)
    requires PollerEnabled(c, s, i, a) && Shape.PollerOk(c, i, s.pollers[i]) && d < |s.dests| && Ordered(c, s, d)
    ensures |PollerNext(c, s, i, a).dests| == |s.dests| && Ordered(c, PollerNext(c, s, i, a), d)
  {
    Shape.TouchedFrame(c, s, i, a);
    PollerInOrder(c, s, i, a, d);
    PollerBehind(c, s, i, a, d);
  }

  lemma WorkerOrdered(c: Setup, s: State, x: nat, a: WorkerAct, d: nat)
    requires WorkerEnabled(c, s, x, a) && d < |s.dests| && Ordered(c, s, d)
    ensures Ordered(c, WorkerNext(c, s, x, a), d)
  {
    if x == d {
      WorkedOrdered(c, s.pollers, d, c.outputs[d], s.dests[d], a, s.drainStopped);
    }
  }

  lemma StepOrdered(c: Setup, s: State, a: Action)
    requires Enabled(c, s, a) && Shape.Shaped(c, s) && AllOrdered(c, s)
    ensures AllOrdered(c, Next(c, s, a))
  {
    var s' := Next(c, s, a);
    match a
    case ByPoller(i, pa) =>
      Shape.TouchedFrame(c, s, i, pa);
      forall d | 0 <= d < |s'.dests| ensures Ordered(c, s', d) {
        PollerOrdered(c, s, i, pa, d);
      }
    case ByWorker(x, wa) =>
      forall d | 0 <= d < |s'.dests| ensures Ordered(c, s', d) {
        WorkerOrdered(c, s, x, wa, d);
      }
    case _ =>
      forall d | 0 <= d < |s'.dests| ensures Ordered(c, s', d) {
        assert Ordered(c, s, d) && Line(s'.dests[d]) == Line(s.dests[d]);
      }
  }

  lemma InitOrdered(c: Setup, seen: set<(string, string)>)
    ensures AllOrdered(c, Init(c, seen))
  {
  }
}

/** The blocking-mode ledger: an output's outstanding counter is at every moment
    the number of tracked events between track and settle, wherever they are. */
module Ledger {
  import Basics
  import opened Protocol
  import Shape

  /** A poller holds a tracked event for d after track and until it is enqueued or given up. */
  function Holds(p: Poller, d: nat): nat {
    if p.phase.Dispatching? && (p.phase.stage == Offer(d, true) || p.phase.stage == Blocked(d)) then 1 else 0
  }

  function Holdings(pollers: seq<Poller>, d: nat): (xs: seq<nat>)
    ensures |xs| == |pollers|
    ensures forall i :: 0 <= i < |pollers| ==> xs[i] == Holds(pollers[i], d)
  {
    seq(|pollers|, i requires 0 <= i < |pollers| => Holds(pollers[i], d))
  }

  function Holders(pollers: seq<Poller>, d: nat): nat {
    Basics.Total(Holdings(pollers, d))
  }

  function TrackedIn(queue: seq<Queued>): nat {
    if queue == [] then 0
    else TrackedIn(queue[..|queue| - 1]) + (if queue[|queue| - 1].tracked then 1 else 0)
  }

  predicate Busy(w: Worker) {
    !w.Idle? && !w.Exited?
  }

  function TrackedByWorker(w: Worker): nat {
    if Busy(w) && w.q.tracked then 1 else 0
  }

  predicate Balanced(s: State, d: nat)
    requires d < |s.dests|
  {
    var t := s.dests[d];
    t.outstanding == Holders(s.pollers, d) + TrackedIn(t.queue) + TrackedByWorker(t.worker)
  }

  lemma HoldersUpdate(pollers: seq<Poller>, i: nat, p: Poller, d: nat)
    requires i < |pollers|
    ensures Holders(pollers[i := p], d) + Holds(pollers[i], d) == Holders(pollers, d) + Holds(p, d)
  {
    assert Holdings(pollers[i := p], d) == Holdings(pollers, d)[i := Holds(p, d)];
    Basics.TotalUpdate(Holdings(pollers, d), i, Holds(p, d));
  }

  lemma TrackedInAppend(queue: seq<Queued>, q: Queued)
    ensures TrackedIn(queue + [q]) == TrackedIn(queue) + (if q.tracked then 1 else 0)
  {
    assert (queue + [q])[..|queue|] == queue;
  }

  lemma {:induction false} TrackedInFront(queue: seq<Queued>)
    requires queue != []
    ensures TrackedIn(queue) == TrackedIn(queue[1..]) + (if queue[0].tracked then 1 else 0)
  {
    if |queue| > 1 {
      var init := queue[..|queue| - 1];
      TrackedInFront(init);
      assert queue[1..][..|queue| - 2] == init[1..];
    }
  }

  /** Between events, or before track, a poller holds nothing. */
  lemma HoldsNothing(c: Setup, s: State, p: Poller, d: nat)
    requires AtUnit(c, p)
    ensures Holds(Advance(c, p), d) == 0 && Holds(Classified(c, s, p), d) == 0
  {
  }

  lemma AdmitHoldsNothing(c: Setup, i: nat, p: Poller, d: nat)
    requires p.phase.Working? && p.phase.rest != []
    ensures Holds(Admit(c, i, p), d) == 0 && Holds(Skip(p), d) == 0
  {
  }

  /** A tracked event moves from the poller's hands to the queue; a live one just arrives. */
  lemma SendMovesLedger(c: Setup, p: Poller, t: Dest, d: nat, tracked: bool)
    requires AtUnit(c, p) && (p.phase.stage == Offer(d, tracked) || (tracked && p.phase.stage == Blocked(d)))
    ensures
      t.outstanding - TrackedIn(t.queue + [Entry(c, p, tracked)]) - Holds(Advance(c, p), d)
      == t.outstanding - TrackedIn(t.queue) - Holds(p, d)
  {
    TrackedInAppend(t.queue, Entry(c, p, tracked));
    assert Holds(Advance(c, p), d) == 0;
  }

  /** Track raises the counter as it takes the event; a send moves it from the
      poller's hands to the queue; giving up settles it. */
  lemma PollerMovesLedger(c: Setup, s: State, i: nat, a: PollerAct, d: nat)
    requires PollerEnabled(c, s, i, a) && d < |s.dests|
    ensures |Touched(c, s, i, a)| == |s.dests|
    ensures
      var t, t' := s.dests[d], Touched(c, s, i, a)[d];
      t'.outstanding - TrackedIn(t'.queue) - Holds(Moved(c, s, i, a), d)
      == t.outstanding - TrackedIn(t.queue) - Holds(s.pollers[i], d)
  {
    var p, t := s.pollers[i], s.dests[d];
    match a
    case Mark(_) => AdmitHoldsNothing(c, i, p, d);
    case Classify => HoldsNothing(c, s, p, d);
    case TrySend =>
      HoldsNothing(c, s, p, d);
      if p.phase.stage.d == d {
        SendMovesLedger(c, p, t, d, p.phase.stage.tracked);
      }
    case SendBlocked =>
      HoldsNothing(c, s, p, d);
      if p.phase.stage.d == d {
        SendMovesLedger(c, p, t, d, true);
      }
    case AuditDrop => HoldsNothing(c, s, p, d);
    case _ =>
  }

  lemma PollerBalanced(c: Setup, s: State, i: nat, a: PollerAct, d: nat)
    requires PollerEnabled(c, s, i, a) && d < |s.dests| && Balanced(s, d)
    ensures |Touched(c, s, i, a)| == |s.dests| && Balanced(PollerNext(c, s, i, a), d)
  {
    HoldersUpdate(s.pollers, i, Moved(c, s, i, a), d);
    PollerMovesLedger(c, s, i, a, d);
    Shape.TouchedFrame(c, s, i, a);
  }

  lemma WorkerBalanced(c: Setup, s: State, d: nat, a: WorkerAct, x: nat)
    requires WorkerEnabled(c, s, d, a) && x < |s.dests| && Balanced(s, x)
    ensures Balanced(WorkerNext(c, s, d, a), x)
  {
    if a.Receive? && x == d {
      TrackedInFront(s.dests[d].queue);
    }
  }

  ghost predicate AllBalanced(s: State) {
    forall d :: 0 <= d < |s.dests| ==> Balanced(s, d)
  }

  lemma StepBalanced(c: Setup, s: State, a: Action)
    requires Enabled(c, s, a) && AllBalanced(s)
    ensures AllBalanced(Next(c, s, a))
  {
    var s' := Next(c, s, a);
    forall d | 0 <= d < |s'.dests| ensures Balanced(s', d) {
      match a
      case ByPoller(i, pa) =>
        Shape.TouchedFrame(c, s, i, pa);
        PollerBalanced(c, s, i, pa, d);
      case ByWorker(x, wa) => WorkerBalanced(c, s, x, wa, d);
      case _ => assert Balanced(s, d);
    }
  }

  lemma InitBalanced(c: Setup, seen: set<(string, string)>)
    ensures AllBalanced(Init(c, seen))
  {
    var s := Init(c, seen);
    forall d | 0 <= d < |s.dests| ensures Balanced(s, d) {
      Basics.TotalZero(Holdings(s.pollers, d));
    }
  }

  /** With nobody holding a tracked event the output is out of blocking mode. */
  lemma SettledWhenQuiet(s: State, d: nat)
    requires d < |s.dests| && Balanced(s, d)
    requires forall i :: 0 <= i < |s.pollers| ==> s.pollers[i].phase.Stopped?
    requires s.dests[d].queue == [] && !Busy(s.dests[d].worker)
    ensures s.dests[d].outstanding == 0
  {
    Basics.TotalZero(Holdings(s.pollers, d));
  }
}

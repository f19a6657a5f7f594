/** What the audit log says about shutdown is true: nothing is put down to it
    before it happened. */
module Shutdown {
  import opened Protocol
  import Shape
  import Progress

  predicate BlamesShutdown(row: Row) {
    row.cause.ShutDownBeforeDelivery? || row.cause.ShutDownMidDelivery? || row.cause.ShutDownBetweenAttempts?
  }

  /** The causes only a worker records, once its own context has ended. */
  predicate BlamesDrain(row: Row) {
    row.cause.ShutDownMidDelivery? || row.cause.ShutDownBetweenAttempts?
  }

  predicate PollerHonest(s: State, p: Poller) {
    p.phase.Dispatching? && (p.phase.stage.Tally? || p.phase.stage.Record?) && BlamesShutdown(p.phase.stage.row)
    ==> s.cancelled && !BlamesDrain(p.phase.stage.row)
  }

  predicate WorkerHonest(s: State, w: Worker) {
    (w.Counting? || w.Writing?) && BlamesShutdown(w.row) ==> s.drainStopped
  }

  predicate EntryHonest(s: State, e: AuditEntry) {
    && (e.Outcome? && BlamesShutdown(e.row) ==> s.cancelled)
    && (e.Outcome? && BlamesDrain(e.row) ==> s.drainStopped)
  }

  predicate Honest(s: State) {
    && (forall i :: 0 <= i < |s.pollers| ==> PollerHonest(s, s.pollers[i]))
    && (forall d :: 0 <= d < |s.dests| ==> WorkerHonest(s, s.dests[d].worker))
    && (forall n :: 0 <= n < |s.audit| ==> EntryHonest(s, s.audit[n]))
  }

  /** The drain can only be cut short after the pollers stopped, which takes a cancellation. */
  lemma DrainFollowsCancel(c: Setup, s: State)
    requires ValidSetup(c) && Shape.Shaped(c, s) && Progress.Lifecycle(s) && s.drainStopped
    ensures s.cancelled
  {
    assert s.pollers[0].phase.Stopped?;
  }

  lemma PollerStaysHonest(c: Setup, s: State, i: nat, a: PollerAct)
    requires PollerEnabled(c, s, i, a) && PollerHonest(s, s.pollers[i])
    ensures PollerHonest(s, Moved(c, s, i, a))
  {
    var p := s.pollers[i];
    if AtUnit(c, p) {
      assert Advance(c, p).phase.Dispatching? ==> Advance(c, p).phase.stage.Choose?;
    }
  }

  lemma WorkerStaysHonest(c: Setup, s: State, d: nat, a: WorkerAct)
    requires WorkerEnabled(c, s, d, a) && WorkerHonest(s, s.dests[d].worker)
    ensures WorkerHonest(s, Worked(c.outputs[d], s.dests[d], a, s.drainStopped).worker)
  {
  }

  lemma PollerKeepsHonest(c: Setup, s: State, i: nat, a: PollerAct)
    requires PollerEnabled(c, s, i, a) && Honest(s)
    ensures Honest(PollerNext(c, s, i, a))
  {
    var s' := PollerNext(c, s, i, a);
    PollerStaysHonest(c, s, i, a);
    Shape.TouchedFrame(c, s, i, a);
    forall n | 0 <= n < |s'.audit| ensures EntryHonest(s', s'.audit[n]) {
      if n < |s.audit| {
        assert EntryHonest(s, s.audit[n]);
      } else {
        assert PollerHonest(s, s.pollers[i]);
      }
    }
  }

  lemma WorkerKeepsHonest(c: Setup, s: State, d: nat, a: WorkerAct)
    requires ValidSetup(c) && Shape.Shaped(c, s) && Progress.Lifecycle(s) && WorkerEnabled(c, s, d, a) && Honest(s)
    ensures Honest(WorkerNext(c, s, d, a))
  {
    var s' := WorkerNext(c, s, d, a);
    WorkerStaysHonest(c, s, d, a);
    if s.drainStopped {
      DrainFollowsCancel(c, s);
    }
    forall n | 0 <= n < |s'.audit| ensures EntryHonest(s', s'.audit[n]) {
      if n < |s.audit| {
        assert EntryHonest(s, s.audit[n]);
      } else {
        assert WorkerHonest(s, s.dests[d].worker);
      }
    }
  }

  lemma StepHonest(c: Setup, s: State, a: Action)
    requires ValidSetup(c) && Enabled(c, s, a) && Shape.Shaped(c, s) && Progress.Lifecycle(s) && Honest(s)
    ensures Honest(Next(c, s, a))
  {
    match a
    case ByPoller(i, pa) => PollerKeepsHonest(c, s, i, pa);
    case ByWorker(d, wa) => WorkerKeepsHonest(c, s, d, wa);
    case _ =>
      var s' := Next(c, s, a);
      forall n | 0 <= n < |s'.audit| ensures EntryHonest(s', s'.audit[n]) {
        assert EntryHonest(s, s.audit[n]);
      }
  }

  // ---- after the drain timeout ----

  /** The sends one output's worker makes. */
  function Sends(acts: seq<Action>, d: nat): nat {
    if acts == [] then 0
    else
      var last := acts[|acts| - 1];
      Sends(acts[..|acts| - 1], d) + (if last.ByWorker? && last.d == d && last.wa.Send? then 1 else 0)
  }

  /** The attempt a worker is in, or is about to wake up to. */
  function AttemptLeft(w: Worker): nat {
    if w.Sending? || w.Sleeping? then 1 else 0
  }

  lemma StepAfterTimeout(c: Setup, s: State, a: Action, d: nat)
    requires Enabled(c, s, a) && s.drainStopped && d < |s.dests|
    ensures Next(c, s, a).drainStopped && d < |Next(c, s, a).dests|
    ensures AttemptLeft(Next(c, s, a).dests[d].worker) + (if a.ByWorker? && a.d == d && a.wa.Send? then 1 else 0)
      <= AttemptLeft(s.dests[d].worker)
  {
    if a.ByPoller? {
      Shape.TouchedFrame(c, s, a.i, a.pa);
    }
  }

  lemma RunAfterTimeout(c: Setup, states: seq<State>, acts: seq<Action>, n: nat, d: nat)
    requires IsRun(c, states, acts) && n < |acts| && states[n].drainStopped && d < |states[n].dests|
    ensures states[n + 1].drainStopped && d < |states[n + 1].dests|
    ensures AttemptLeft(states[n + 1].dests[d].worker) + Sends([acts[n]], d) <= AttemptLeft(states[n].dests[d].worker)
  {
    StepAfterTimeout(c, states[n], acts[n], d);
    assert [acts[n]][..0] == [];
  }

  lemma SendsAppend(acts: seq<Action>, a: Action, d: nat)
    ensures Sends(acts + [a], d) == Sends(acts, d) + Sends([a], d)
  {
    assert (acts + [a])[..|acts|] == acts && [a][..0] == [];
  }

  /** A level that every send lowers bounds the sends. */
  lemma {:induction false} SendsLower(levels: seq<nat>, acts: seq<Action>, d: nat, m: nat, n: nat)
    requires m <= n <= |acts| && n < |levels|
    requires forall k :: m <= k < n ==> levels[k + 1] + Sends([acts[k]], d) <= levels[k]
    ensures Sends(acts[m..n], d) + levels[n] <= levels[m]
  {
    if m < n {
      SendsLower(levels, acts, d, m, n - 1);
      assert acts[m..n] == acts[m..n - 1] + [acts[n - 1]];
      SendsAppend(acts[m..n - 1], acts[n - 1], d);
    }
  }

  lemma {:induction false} StaysTimedOut(c: Setup, states: seq<State>, acts: seq<Action>, m: nat, n: nat, d: nat)
    requires IsRun(c, states, acts) && m <= n < |states| && states[m].drainStopped && d < |states[m].dests|
    ensures states[n].drainStopped && d < |states[n].dests|
  {
    if m < n {
      StaysTimedOut(c, states, acts, m, n - 1, d);
      RunAfterTimeout(c, states, acts, n - 1, d);
    }
  }

  function AttemptAt(s: State, d: nat): nat {
    if d < |s.dests| then AttemptLeft(s.dests[d].worker) else 0
  }

  /** Once the drain is cut short an output is sent at most one more time: the
      attempt under way, or one whose wait happened to end. */
  lemma TimeoutStopsSending(c: Setup, states: seq<State>, acts: seq<Action>, m: nat, n: nat, d: nat)
    requires IsRun(c, states, acts) && m <= n < |states| && states[m].drainStopped && d < |states[m].dests|
    ensures Sends(acts[m..n], d) <= AttemptLeft(states[m].dests[d].worker) <= 1
  {
    var levels: seq<nat> := seq(|states|, k requires 0 <= k < |states| => AttemptAt(states[k], d));
    forall k | m <= k < n ensures levels[k + 1] + Sends([acts[k]], d) <= levels[k] {
      StaysTimedOut(c, states, acts, m, k, d);
      RunAfterTimeout(c, states, acts, k, d);
    }
    SendsLower(levels, acts, d, m, n);
  }
}

/** dest in internal/pipeline/pipeline.go: the queue of one output and the counter
    that puts it in blocking mode, as the object the pollers and the worker share.
    Each method is one critical section or channel operation. */
module Outputs {
  import opened Protocol
  import Ledger

  /** How long a history spends above zero, up to now. Each entry is an instant and
      the counter's value from then on. */
  function TimeAbove(history: seq<(int, int)>, now: int): int {
    if history == [] then 0
    else
      var (at, count) := history[|history| - 1];
      TimeAbove(history[..|history| - 1], at) + (if count > 0 then now - at else 0)
  }

  /** At any instant, blockedFor and the stretch under way add up to the time above zero. */
  ghost predicate Timed(history: seq<(int, int)>, outstanding: int, since: int, blockedFor: int) {
    forall now :: TimeAbove(history, now) == blockedFor + (if outstanding > 0 then now - since else 0)
  }

  /** What others do to an output between two of a poller's steps. */
  datatype Other = OtherTracks(at: int) | OtherSettles(at: int) | OtherSends(q: Queued) | WorkerReceives

  /** One look of a blocked poller: what happened since the last one, whether the
      context is cancelled, and which way select goes when both are possible. */
  datatype Look = Look(others: seq<Other>, cancelled: bool, leaves: bool)

  datatype Around = Around(
    beforeRead: seq<Other>, beforeTrack: seq<Other>, beforeSend: seq<Other>, looks: seq<Look>,
    trackedAt: int, settledAt: int)

  /** What these steps do to a counter at count, of which mine are the caller's own. */
  function CountAfter(count: int, others: seq<Other>, mine: nat): int {
    if others == [] then count
    else
      var before := CountAfter(count, others[..|others| - 1], mine);
      match others[|others| - 1]
      case OtherTracks(_) => before + 1
      case OtherSettles(_) => if before > mine then before - 1 else before
      case _ => before
  }

  datatype Outcome = Enqueued | Full | GaveUp | StillWaiting

  /** now is before with added at its end, after taken receives. */
  ghost predicate Flowed(before: seq<Queued>, added: seq<Queued>, taken: nat, now: seq<Queued>) {
    taken <= |before| + |added| && now == (before + added)[taken..]
  }

  lemma FlowedSend(before: seq<Queued>, added: seq<Queued>, taken: nat, now: seq<Queued>, q: Queued)
    requires Flowed(before, added, taken, now)
    ensures Flowed(before, added + [q], taken, now + [q])
  {
    assert before + (added + [q]) == before + added + [q];
  }

  lemma FlowedReceive(before: seq<Queued>, added: seq<Queued>, taken: nat, now: seq<Queued>)
    requires Flowed(before, added, taken, now) && now != []
    ensures Flowed(before, added, taken + 1, now[1..])
  {
  }

  lemma FlowedTwice(before: seq<Queued>, added: seq<Queued>, taken: nat, mid: seq<Queued>,
                   more: seq<Queued>, later: nat, now: seq<Queued>)
    requires Flowed(before, added, taken, mid) && Flowed(mid, more, later, now)
    ensures Flowed(before, added + more, taken + later, now)
  {
    assert mid + more == (before + (added + more))[taken..];
  }

  class Output {
    const name: string
    const buffer: nat

    var queue: seq<Queued>
    var closed: bool
    var outstanding: int
    var since: int
    var blockedFor: int

    /** Every change of the counter. */
    ghost var history: seq<(int, int)>

    ghost predicate Valid()
      reads this
    {
      && outstanding >= 0
      && Timed(history, outstanding, since, blockedFor)
    }

    /** The part of the protocol's state that lives here. */
    function Shared(d: Dest): Dest
      reads this
    {
      d.(queue := queue, closed := closed, outstanding := outstanding)
    }

    constructor (name: string, buffer: nat)
      ensures Valid() && this.name == name && this.buffer == buffer
      ensures queue == [] && !closed && outstanding == 0 && blockedFor == 0 && history == []
    {
      this.name, this.buffer := name, buffer;
      queue, closed, outstanding, since, blockedFor, history := [], false, 0, 0, 0, [];
    }

    method Behind() returns (behind: bool)
      ensures behind <==> outstanding > 0
    {
      behind := outstanding > 0;
    }

    method Track(now: int)
      requires Valid()
      modifies `outstanding, `since, `history
      ensures Valid() && outstanding == old(outstanding) + 1
      ensures forall t: Dest :: Shared(t) == old(Shared(t)).(outstanding := old(outstanding) + 1)
      ensures history == old(history) + [(now, outstanding)]
    {
      if outstanding == 0 {
        since := now;
      }
      outstanding := outstanding + 1;
      RecordChange(now);
    }

    /** Only a tracked event is settled, so the counter is above zero. */
    method Settle(now: int)
      requires Valid() && outstanding > 0
      modifies `outstanding, `blockedFor, `history
      ensures Valid() && outstanding == old(outstanding) - 1
      ensures forall t: Dest :: Shared(t) == old(Shared(t)).(outstanding := old(outstanding) - 1)
      ensures history == old(history) + [(now, outstanding)]
    {
      outstanding := outstanding - 1;
      if outstanding == 0 {
        blockedFor := blockedFor + (now - since);
      }
      RecordChange(now);
    }

    ghost method RecordChange(now: int)
      modifies `history
      ensures history == old(history) + [(now, outstanding)]
      ensures forall later ::
        TimeAbove(history, later) == TimeAbove(old(history), now) + (if outstanding > 0 then later - now else 0)
    {
      history := history + [(now, outstanding)];
      assert history[..|history| - 1] == old(history);
    }

    /** A send that does not wait. On a closed channel it would panic. */
    method TrySend(q: Queued) returns (sent: bool)
      requires !closed
      modifies `queue
      ensures sent <==> |old(queue)| < buffer
      ensures queue == if sent then old(queue) + [q] else old(queue)
    {
      sent := |queue| < buffer;
      if sent {
        queue := queue + [q];
      }
    }

    /** A receive: the oldest entry, or that there will be no more. */
    method Receive() returns (q: Queued)
      requires queue != []
      modifies `queue
      ensures q == old(queue)[0] && queue == old(queue)[1..]
    {
      q := queue[0];
      queue := queue[1..];
    }

    /** The worker's loop once the channel is closed: every entry left is taken, in
        order, and settled if it was tracked. clock(n) is when the n-th is done. */
    method WorkOff(clock: nat -> int) returns (handled: seq<Queued>)
      requires Valid() && closed && Ledger.TrackedIn(queue) <= outstanding
      modifies `queue, `outstanding, `blockedFor, `history
      ensures Valid() && queue == [] && handled == old(queue)
      ensures outstanding == old(outstanding) - Ledger.TrackedIn(old(queue))
    {
      handled := [];
      while queue != []
        invariant Valid() && |handled| + |queue| == |old(queue)|
        invariant handled == old(queue)[..|handled|] && queue == old(queue)[|handled|..]
        invariant Ledger.TrackedIn(queue) <= outstanding
        invariant outstanding - Ledger.TrackedIn(queue) == old(outstanding) - Ledger.TrackedIn(old(queue))
        decreases |queue|
      {
        Ledger.TrackedInFront(queue);
        var q := Receive();
        if q.tracked {
          Settle(clock(|handled|));
        }
        handled := handled + [q];
      }
    }

    /** Steps of other pollers and of the worker. mine of the tracked events are the
        caller's own, which nobody else settles. net is what they did to the counter,
        added what they put in the queue and taken how many the worker took out. */
    method Interfere(others: seq<Other>, mine: nat) returns (net: int, ghost added: seq<Queued>, ghost taken: nat)
      requires Valid() && !closed && mine <= outstanding
      modifies `queue, `outstanding, `since, `blockedFor, `history
      ensures Valid() && mine <= outstanding == old(outstanding) + net == CountAfter(old(outstanding), others, mine)
      ensures Flowed(old(queue), added, taken, queue)
    {
      net, added, taken := 0, [], 0;
      var i := 0;
      assert old(queue) + [] == old(queue);
      while i < |others|
        invariant 0 <= i <= |others| && Valid()
        invariant mine <= outstanding == old(outstanding) + net == CountAfter(old(outstanding), others[..i], mine)
        invariant Flowed(old(queue), added, taken, queue)
      {
        match others[i] {
          case OtherTracks(at) =>
            Track(at);
            net := net + 1;
          case OtherSettles(at) =>
            if outstanding > mine {
              Settle(at);
              net := net - 1;
            }
          case OtherSends(q) =>
            ghost var before := queue;
            var sent := TrySend(q);
            if sent {
              FlowedSend(old(queue), added, taken, before, q);
              added := added + [q];
            }
          case WorkerReceives =>
            if queue != [] {
              FlowedReceive(old(queue), added, taken, queue);
              var q := Receive();
              taken := taken + 1;
            }
        }
        assert others[..i + 1][..i] == others[..i];
        i := i + 1;
      }
      assert others[..i] == others;
    }

    /** dispatch's dealings with one output for one event. Whatever others do in
        between: the event joins the queue exactly once if it is enqueued and not at
        all otherwise; a full queue drops only an event that was not tracked; a tracked
        one leaves without an enqueue only by cancellation; and the counter ends up
        raised by one exactly when a tracked event was left behind. */
    method Offer(item: Dispatch, rule: string, block: bool, env: Around)
      returns (outcome: Outcome, tracked: bool, net: int, ghost added: seq<Queued>, ghost taken: nat)
      requires Valid() && !closed
      modifies `queue, `outstanding, `since, `blockedFor, `history
      ensures Valid()
      // tracked exactly for a waiting page, or behind what the output owes when it is read
      ensures tracked <==> block || CountAfter(old(outstanding), env.beforeRead, 0) > 0
      ensures outcome.Full? ==> !tracked && |queue| >= buffer
      ensures outcome.GaveUp? ==> tracked && exists n :: 0 <= n < |env.looks| && env.looks[n].cancelled
      ensures outcome.StillWaiting? ==> tracked
      // added is what others sent and taken what the worker took; the event is all that comes on top
      ensures outcome.Enqueued? ==>
        queue != [] && Flowed(old(queue), added, taken, queue[..|queue| - 1]) && queue[|queue| - 1] == Queued(item, rule, tracked)
      ensures !outcome.Enqueued? ==> Flowed(old(queue), added, taken, queue)
      ensures outstanding == old(outstanding) + net + (if tracked && !outcome.GaveUp? then 1 else 0)
    {
      net, added, taken := Interfere(env.beforeRead, 0);
      tracked := block;
      if !block {
        tracked := Behind();
      }
      net, added, taken := InterfereMore(env.beforeTrack, 0, net, old(queue), added, taken);
      if tracked {
        Track(env.trackedAt);
      }
      net, added, taken := InterfereMore(env.beforeSend, if tracked then 1 else 0, net, old(queue), added, taken);
      var q := Queued(item, rule, tracked);
      var sent := TrySend(q);
      if sent {
        outcome := Enqueued;
        return;
      }
      if !tracked {
        outcome := Full;
        return;
      }
      var n := 0;
      while n < |env.looks|
        invariant 0 <= n <= |env.looks|
        invariant Valid() && 1 <= outstanding == old(outstanding) + net + 1
        invariant Flowed(old(queue), added, taken, queue)
      {
        var look := env.looks[n];
        net, added, taken := InterfereMore(look.others, 1, net, old(queue), added, taken);
        if look.cancelled && (look.leaves || |queue| >= buffer) {
          Settle(env.settledAt);
          outcome := GaveUp;
          return;
        }
        if |queue| < buffer {
          sent := TrySend(q);
          outcome := Enqueued;
          return;
        }
        n := n + 1;
      }
      outcome := StillWaiting;
    }

    /** Interfere, on top of what was already done since the queue was start. */
    method InterfereMore(others: seq<Other>, mine: nat, net: int,
                         ghost start: seq<Queued>, ghost added: seq<Queued>, ghost taken: nat)
      returns (net': int, ghost added': seq<Queued>, ghost taken': nat)
      requires Valid() && !closed && mine <= outstanding && Flowed(start, added, taken, queue)
      modifies `queue, `outstanding, `since, `blockedFor, `history
      ensures Valid() && mine <= outstanding == old(outstanding) + net' - net
      ensures Flowed(start, added', taken', queue)
    {
      ghost var before := queue;
      net', added', taken' := Interfere(others, mine);
      FlowedTwice(start, added, taken, before, added', taken', queue);
      net', added', taken' := net + net', added + added', taken + taken';
    }

    method Close()
      requires !closed
      modifies `closed
      ensures closed
    {
      closed := true;
    }
  }
}

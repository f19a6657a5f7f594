/** deliver in internal/pipeline: the retry loop of one worker over one event. */
module Delivery {
  import opened Basics
  import Durations
  import opened Backoff
  import opened Webhook
  import opened Protocol

  /** What the environment answers around the k-th send: the send's own result,
      whether the context was cancelled when it returned, whether the sleep that
      follows runs to its end, and the jitter drawn for it. */
  datatype Attempt = Attempt(reply: SendResult, stopped: bool, slept: bool, random: nat)

  /** The attempt fails in a way that leads to another one. */
  predicate Continues(a: Attempt) {
    a.reply.Temporary? && !a.stopped && a.slept
  }

  /** A wait the loop may take after its n-th send. */
  predicate WaitAllowed(n: nat, reply: SendResult, wait: int)
    requires n >= 1
  {
    reply.Temporary?
    && if reply.retryAfter.Some? then wait == reply.retryAfter.value
       else Spread(n) / 2 <= wait <= Spread(n)
  }

  /** backoff(n, err) panics: see BackoffPanics for the protocol's worker. */
  predicate WaitPanics(n: nat, reply: SendResult)
    requires n >= 1
  {
    reply == Temporary(None) && Panics(n)
  }

  function WaitFor(n: nat, a: Attempt): (wait: int)
    requires n >= 1 && a.reply.Temporary? && !WaitPanics(n, a.reply)
    ensures WaitAllowed(n, a.reply, wait)
  {
    if a.reply.retryAfter.Some? then a.reply.retryAfter.value
    else
      var d := Spread(n);
      Jittered(d, a.random % (d / 2 + 1))
  }

  function CauseOf(o: OutputConfig, n: nat, a: Attempt): Cause {
    match a.reply
    case Sent => NoCause
    case Permanent => Rejection
    case Temporary(_) =>
      if a.stopped then ShutDownMidDelivery
      else if n == o.maxAttempts then AttemptsExhausted
      else ShutDownBetweenAttempts
  }

  function ReplyOf(r: SendResult): Reply {
    match r
    case Sent => Accepted
    case Permanent => Rejected
    case Temporary(_) => Unavailable
  }

  // ---- the same loop as a walk of the protocol's worker ----

  datatype WorkerStep = WorkerStep(act: WorkerAct, stopped: bool)

  function Alone(w: Worker): Dest {
    Dest(0, [], false, w, [])
  }

  /** The worker is where this step of the loop finds it. */
  predicate Fits(o: OutputConfig, w: Worker, step: WorkerStep) {
    || (w.Sending? && step.act.Send?)
    || (w.Refused? && step.act.AfterFailure?)
    || (w.Sleeping? && (step.act.Wake? || (step.act.Interrupt? && step.stopped)))
    || (step.act.Panic? && BackoffPanics(o, w, step.stopped))
  }

  function Walk(o: OutputConfig, w: Worker, path: seq<WorkerStep>): Option<Worker> {
    if path == [] then Some(w)
    else
      var before := Walk(o, w, path[..|path| - 1]);
      var last := path[|path| - 1];
      if before.Some? && Fits(o, before.value, last)
      then Some(Worked(o, Alone(before.value), last.act, last.stopped).worker)
      else None
  }

  /** From the first attempt on, these steps take the worker to w. */
  ghost predicate Walked(o: OutputConfig, q: Queued, path: seq<WorkerStep>, w: Worker) {
    Walk(o, Sending(q, 1), path) == Some(w)
  }

  lemma WalkSend(o: OutputConfig, q: Queued, path: seq<WorkerStep>, n: nat, a: Attempt)
    requires Walked(o, q, path, Sending(q, n))
    ensures Walked(o, q, path + [WorkerStep(Send(ReplyOf(a.reply)), a.stopped)],
      match a.reply
      case Sent => Ending(o.name, q, Delivered, n, NoCause)
      case Permanent => Ending(o.name, q, Failed, n, Rejection)
      case Temporary(_) => Refused(q, n))
  {
    assert (path + [WorkerStep(Send(ReplyOf(a.reply)), a.stopped)])[..|path|] == path;
  }

  lemma WalkFailure(o: OutputConfig, q: Queued, path: seq<WorkerStep>, n: nat, stopped: bool)
    requires Walked(o, q, path, Refused(q, n))
    ensures Walked(o, q, path + [WorkerStep(AfterFailure, stopped)],
      if stopped then Ending(o.name, q, Dropped, n, ShutDownMidDelivery)
      else if n == o.maxAttempts then Ending(o.name, q, Failed, n, AttemptsExhausted)
      else Sleeping(q, n))
  {
    assert (path + [WorkerStep(AfterFailure, stopped)])[..|path|] == path;
  }

  lemma WalkPanic(o: OutputConfig, q: Queued, path: seq<WorkerStep>, n: nat, reply: SendResult)
    requires Walked(o, q, path, Refused(q, n))
    requires n >= 1 && n != o.maxAttempts && WaitPanics(n, reply)
    ensures Walked(o, q, path + [WorkerStep(Panic, false)], Panicked(q, n))
  {
    BackoffExactly(n);
    assert (path + [WorkerStep(Panic, false)])[..|path|] == path;
  }

  lemma WalkSleep(o: OutputConfig, q: Queued, path: seq<WorkerStep>, n: nat, slept: bool)
    requires Walked(o, q, path, Sleeping(q, n))
    ensures Walked(o, q, path + [WorkerStep(if slept then Wake else Interrupt, !slept)],
      if slept then Sending(q, n + 1) else Ending(o.name, q, Dropped, n, ShutDownBetweenAttempts))
  {
    assert (path + [WorkerStep(if slept then Wake else Interrupt, !slept)])[..|path|] == path;
  }

  /** What the row of an event says, given its last attempt, the n-th. */
  predicate Concludes(o: OutputConfig, q: Queued, n: nat, a: Attempt, row: Row) {
    && row.item == q.item && row.output == o.name && row.rule == q.rule && row.attempts == n
    && (row.status == Delivered <==> a.reply.Sent?)
    && (row.status == Failed <==> a.reply.Permanent? || (a.reply.Temporary? && !a.stopped && n == o.maxAttempts))
    && row.cause == CauseOf(o, n, a)
    && (row.cause.ShutDownBetweenAttempts? ==> !a.slept)
  }

  /** How the loop ends after its n-th send: the last attempt alone decides, there is
      no row only when computing the backoff panicked, and the worker of the protocol
      has walked the same way. */
  ghost predicate Ends(o: OutputConfig, q: Queued, n: nat, a: Attempt, row: Option<Row>, path: seq<WorkerStep>)
    requires n >= 1
  {
    && (row.None? <==> !a.stopped && n < o.maxAttempts && WaitPanics(n, a.reply))
    && (row.Some? ==> Concludes(o, q, n, a, row.value))
    && Walked(o, q, path, if row.Some? then Counting(q, row.value) else Panicked(q, n))
  }

  /** What follows the n-th send: a row, another attempt after a wait, or a panic. */
  method AfterSend(o: OutputConfig, q: Queued, n: nat, a: Attempt, ghost given: seq<WorkerStep>)
    returns (row: Option<Row>, again: bool, wait: Option<int>, ghost path: seq<WorkerStep>)
    requires 1 <= n <= o.maxAttempts
    requires Walked(o, q, given, Sending(q, n))
    ensures wait.Some? ==> n < o.maxAttempts && WaitAllowed(n, a.reply, wait.value)
    ensures again ==>
      && row.None? && wait.Some? && Continues(a) && n < o.maxAttempts
      && Walked(o, q, path, Sending(q, n + 1))
    ensures !again ==> Ends(o, q, n, a, row, path)
  {
    row, again, wait := None, false, None;
    WalkSend(o, q, given, n, a);
    path := given + [WorkerStep(Send(ReplyOf(a.reply)), a.stopped)];
    if a.reply.Sent? {
      row := Some(Row(q.item, o.name, q.rule, Delivered, n, NoCause));
      return;
    }
    if a.reply.Permanent? {
      row := Some(Row(q.item, o.name, q.rule, Failed, n, Rejection));
      return;
    }
    ghost var failed := path;
    WalkFailure(o, q, failed, n, a.stopped);
    path := failed + [WorkerStep(AfterFailure, a.stopped)];
    if a.stopped {
      row := Some(Row(q.item, o.name, q.rule, Dropped, n, ShutDownMidDelivery));
      return;
    }
    if n == o.maxAttempts {
      row := Some(Row(q.item, o.name, q.rule, Failed, o.maxAttempts, AttemptsExhausted));
      return;
    }
    if WaitPanics(n, a.reply) {
      WalkPanic(o, q, failed, n, a.reply);
      path := failed + [WorkerStep(Panic, false)];
      return;
    }
    wait := Some(WaitFor(n, a));
    WalkSleep(o, q, path, n, a.slept);
    path := path + [WorkerStep(if a.slept then Wake else Interrupt, !a.slept)];
    if a.slept {
      again := true;
    } else {
      row := Some(Row(q.item, o.name, q.rule, Dropped, n, ShutDownBetweenAttempts));
    }
  }

  /** Sends until one succeeds, one is permanent, the context ends, or the attempts
      run out; writes one row unless computing a backoff panicked. */
  method Deliver(o: OutputConfig, q: Queued, env: seq<Attempt>)
    returns (row: Option<Row>, sends: nat, waits: seq<int>, ghost path: seq<WorkerStep>)
    requires o.maxAttempts > 0 && |env| >= o.maxAttempts
    // at most maxAttempts sends, and never one after success, rejection or cancellation
    ensures 1 <= sends <= o.maxAttempts
    ensures forall k :: 0 <= k < sends - 1 ==> Continues(env[k])
    // why it ended
    ensures Ends(o, q, sends, env[sends - 1], row, path)
    // the waits between sends
    ensures sends - 1 <= |waits| <= sends && |waits| < o.maxAttempts
    ensures forall k :: 0 <= k < |waits| ==> WaitAllowed(k + 1, env[k].reply, waits[k])
  {
    waits, path, sends := [], [], 0;
    var attempt := 1;
    while true
      invariant 1 <= attempt <= o.maxAttempts
      invariant sends == attempt - 1 == |waits|
      invariant forall k :: 0 <= k < sends ==> Continues(env[k])
      invariant forall k :: 0 <= k < |waits| ==> WaitAllowed(k + 1, env[k].reply, waits[k])
      invariant Walked(o, q, path, Sending(q, attempt))
      decreases o.maxAttempts - attempt
    {
      var again, wait;
      sends := sends + 1;
      row, again, wait, path := AfterSend(o, q, attempt, env[attempt - 1], path);
      if wait.Some? {
        waits := waits + [wait.value];
      }
      if !again {
        return;
      }
      attempt := attempt + 1;
    }
  }

  /** However the destination answers, one event's waiting is bounded by its waits
      times the larger of a minute and the Retry-After cap. */
  lemma {:induction false} WaitingIsBounded(env: seq<Attempt>, waits: seq<int>, cap: int)
    requires |waits| <= |env|
    requires forall k :: 0 <= k < |waits| ==> WaitAllowed(k + 1, env[k].reply, waits[k])
    requires forall k :: 0 <= k < |waits| && env[k].reply.Temporary? && env[k].reply.retryAfter.Some? ==>
      env[k].reply.retryAfter.value <= cap
    ensures Durations.Sum(waits) <= |waits| * Durations.Max(MAX_BACKOFF, cap)
  {
    if waits == [] {
    } else {
      var n, limit := |waits| - 1, Durations.Max(MAX_BACKOFF, cap);
      WaitingIsBounded(env, waits[..n], cap);
      assert WaitAllowed(n + 1, env[n].reply, waits[n]);
      assert Spread(n + 1) <= MAX_BACKOFF && waits[n] <= limit;
      assert (n + 1) * limit == n * limit + limit;
    }
  }

  /** With at most 35 attempts configured no backoff ever panics; with 36 or more,
      an output that keeps failing without Retry-After reaches the 35th and does. */
  lemma PanicNeedsThirtySixAttempts(maxAttempts: nat)
    requires maxAttempts > 0
    ensures (exists n :: 1 <= n < maxAttempts && Panics(n)) <==> maxAttempts >= 36
  {
    forall n | 1 <= n < maxAttempts && n < 35 ensures !Panics(n) {
      BackoffExactly(n);
    }
    BackoffExactly(35);
  }
}

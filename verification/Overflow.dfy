/** From 36 attempts on, an output that keeps failing ends the whole process: any
    run in which it is sending can be continued to a panic. */
module Overflow {
  import opened Protocol
  import opened Runs

  /** The worker is about to send, nothing has ended, and the drain is not cut short. */
  predicate Attempting(c: Setup, s: State, d: nat, attempt: nat) {
    && !s.returned && !s.panicked && !s.drainStopped
    && d < |c.outputs| && d < |s.dests| && s.dests[d].worker.Sending? && s.dests[d].worker.attempt == attempt
  }

  /** A send without an answer, then the sleep before the next. */
  lemma FailsOnce(c: Setup, s: State, d: nat, attempt: nat) returns (s1: State, s2: State, s3: State)
    requires Attempting(c, s, d, attempt) && attempt < c.outputs[d].maxAttempts
    ensures Leads(c, s, ByWorker(d, Send(Unavailable)), s1)
    ensures Leads(c, s1, ByWorker(d, AfterFailure), s2)
    ensures Leads(c, s2, ByWorker(d, Wake), s3)
    ensures Attempting(c, s3, d, attempt + 1)
  {
    s1 := Next(c, s, ByWorker(d, Send(Unavailable)));
    s2 := Next(c, s1, ByWorker(d, AfterFailure));
    s3 := Next(c, s2, ByWorker(d, Wake));
  }

  /** The 35th failure of an output that may try again panics in its backoff. */
  lemma PanicsAt35(c: Setup, s: State, d: nat) returns (s1: State, s2: State)
    requires Attempting(c, s, d, 35) && c.outputs[d].maxAttempts >= 36
    ensures Leads(c, s, ByWorker(d, Send(Unavailable)), s1)
    ensures Leads(c, s1, ByWorker(d, Panic), s2)
    ensures s2.panicked
  {
    s1 := Next(c, s, ByWorker(d, Send(Unavailable)));
    s2 := Next(c, s1, ByWorker(d, Panic));
  }

  /** Whatever has happened so far, failing on from here leads to a panic. */
  lemma {:induction false} FailingOnPanics(c: Setup, states: seq<State>, acts: seq<Action>, d: nat, attempt: nat)
    returns (states': seq<State>, acts': seq<Action>)
    requires IsRun(c, states, acts) && Attempting(c, states[|acts|], d, attempt)
    requires attempt <= 35 && c.outputs[d].maxAttempts >= 36
    ensures IsRun(c, states', acts') && states <= states' && acts <= acts'
    ensures states'[|acts'|].panicked
    decreases 35 - attempt
  {
    if attempt == 35 {
      var s1, s2 := PanicsAt35(c, states[|acts|], d);
      states', acts' := OneMore(c, states, acts, ByWorker(d, Send(Unavailable)), s1);
      states', acts' := OneMore(c, states', acts', ByWorker(d, Panic), s2);
    } else {
      var s1, s2, s3 := FailsOnce(c, states[|acts|], d, attempt);
      states', acts' := OneMore(c, states, acts, ByWorker(d, Send(Unavailable)), s1);
      states', acts' := OneMore(c, states', acts', ByWorker(d, AfterFailure), s2);
      states', acts' := OneMore(c, states', acts', ByWorker(d, Wake), s3);
      states', acts' := FailingOnPanics(c, states', acts', d, attempt + 1);
    }
  }
}

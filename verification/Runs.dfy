/** Building a run of the protocol one step at a time. */
module Runs {
  import opened Protocol

  ghost predicate Leads(c: Setup, s: State, a: Action, s': State) {
    Enabled(c, s, a) && Next(c, s, a) == s'
  }

  lemma OneMore(c: Setup, states: seq<State>, acts: seq<Action>, a: Action, s': State)
    returns (states': seq<State>, acts': seq<Action>)
    requires IsRun(c, states, acts) && Leads(c, states[|acts|], a, s')
    ensures IsRun(c, states', acts') && states'[|acts'|] == s'
    ensures states <= states' && acts <= acts'
  {
    states', acts' := states + [s'], acts + [a];
  }

  /** A poller's step, part by part. */
  lemma PollerLeads(c: Setup, s: State, i: nat, a: PollerAct, s': State)
    requires !s.returned && !s.panicked && PollerEnabled(c, s, i, a) && !SendsOnClosed(s, i, a)
    requires s'.pollers == s.pollers[i := Moved(c, s, i, a)]
    requires s'.dests == Touched(c, s, i, a)
    requires s'.seen == SeenAfter(c, s, i, a)
    requires s'.audit == s.audit + Written(s, i, a)
    requires s'.counters == if a.CountDrop? then Bump(s.counters, s.pollers[i].phase.stage.row) else s.counters
    requires s' == s.(pollers := s'.pollers, dests := s'.dests, seen := s'.seen, audit := s'.audit, counters := s'.counters)
    ensures Leads(c, s, ByPoller(i, a), s')
  {
  }
}

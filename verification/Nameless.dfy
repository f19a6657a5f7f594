/** A run in which a delivery counter differs from the log: an output without a
    name shares it with the row of a skipped record. */
module Nameless {
  import opened Protocol
  import opened Runs
  import Metrics

  /** One source, one output, no rules. */
  const LONE := Setup(["trucks"], [OutputConfig("", 1, 1)], [])
  const SKIP := "trucks:line:2"

  const OPEN := Dest(0, [], false, Idle, [])
  const SHUT := Dest(0, [], true, Idle, [])
  const DONE := Dest(0, [], true, Exited, [])

  /** A state whose log holds the one skipped record. */
  function After(phase: Phase, dest: Dest, cancelled: bool, sweeping: bool, returned: bool): State {
    State([Poller(phase, [])], [dest], {}, [SkippedRecord(0, SKIP)], map[],
          cancelled, sweeping, false, returned, false)
  }

  lemma Reporting()
    ensures Leads(LONE, Init(LONE, {}), ByPoller(0, ReportSkip(SKIP)), After(Polling(false, true), OPEN, false, true, false))
  {
    var s := Init(LONE, {});
    assert s.pollers == [Poller(Polling(false, false), [])] && s.dests == [OPEN];
  }

  lemma Returning()
    ensures Leads(LONE, After(Polling(false, true), OPEN, false, true, false), ByPoller(0, PollReturns([], false)),
                  After(Working([], false, false), OPEN, false, true, false))
  {
    var s := After(Polling(false, true), OPEN, false, true, false);
    assert Moved(LONE, s, 0, PollReturns([], false)) == Poller(Working([], false, false), []);
    assert s.audit + Written(s, 0, PollReturns([], false)) == s.audit;
  }

  lemma EndingPage()
    ensures Leads(LONE, After(Working([], false, false), OPEN, false, true, false), ByPoller(0, EndPage),
                  After(Waiting, OPEN, false, true, false))
  {
    var s := After(Working([], false, false), OPEN, false, true, false);
    assert s.audit + Written(s, 0, EndPage) == s.audit;
  }

  lemma Stopping()
    ensures Leads(LONE, After(Waiting, OPEN, false, true, false), Cancel, After(Waiting, OPEN, true, true, false))
    ensures Leads(LONE, After(Waiting, OPEN, true, true, false), ByPoller(0, StopPolling), After(Stopped, OPEN, true, true, false))
    ensures Leads(LONE, After(Stopped, OPEN, true, true, false), StopSweeping, After(Stopped, OPEN, true, false, false))
  {
    var s := After(Waiting, OPEN, true, true, false);
    assert s.audit + Written(s, 0, StopPolling) == s.audit;
  }

  lemma Closing()
    ensures Leads(LONE, After(Stopped, OPEN, true, false, false), Close(0), After(Stopped, SHUT, true, false, false))
    ensures Leads(LONE, After(Stopped, SHUT, true, false, false), ByWorker(0, Exit), After(Stopped, DONE, true, false, false))
    ensures Leads(LONE, After(Stopped, DONE, true, false, false), Return, After(Stopped, DONE, true, false, true))
  {
  }

  lemma SkipReported() returns (states: seq<State>, acts: seq<Action>)
    ensures IsRun(LONE, states, acts) && states[|acts|] == After(Waiting, OPEN, false, true, false)
  {
    states, acts := [Init(LONE, {})], [];
    Reporting();
    states, acts := OneMore(LONE, states, acts, ByPoller(0, ReportSkip(SKIP)), After(Polling(false, true), OPEN, false, true, false));
    Returning();
    states, acts := OneMore(LONE, states, acts, ByPoller(0, PollReturns([], false)), After(Working([], false, false), OPEN, false, true, false));
    EndingPage();
    states, acts := OneMore(LONE, states, acts, ByPoller(0, EndPage), After(Waiting, OPEN, false, true, false));
  }

  lemma ThenStopped() returns (states: seq<State>, acts: seq<Action>)
    ensures IsRun(LONE, states, acts) && states[|acts|] == After(Stopped, OPEN, true, false, false)
  {
    states, acts := SkipReported();
    Stopping();
    states, acts := OneMore(LONE, states, acts, Cancel, After(Waiting, OPEN, true, true, false));
    states, acts := OneMore(LONE, states, acts, ByPoller(0, StopPolling), After(Stopped, OPEN, true, true, false));
    states, acts := OneMore(LONE, states, acts, StopSweeping, After(Stopped, OPEN, true, false, false));
  }

  lemma OneSkipRow(k: Sample)
    ensures Metrics.RowsWith([SkippedRecord(0, SKIP)], k) == if k == Sample("", Dropped) then 1 else 0
  {
    assert [SkippedRecord(0, SKIP)][..0] == [];
  }

  /** New accepts this setup and nothing goes unrouted; the log has one dropped row
      under the empty name and the output of that name counted none. */
  lemma NamelessOutputDiffers() returns (states: seq<State>, acts: seq<Action>)
    ensures ValidSetup(LONE) && LONE.outputs[0].name == ""
    ensures IsRun(LONE, states, acts) && states[|acts|].returned
    ensures Metrics.RowsWith(states[|acts|].audit, Sample("", Dropped)) == 1
    ensures Counter(states[|acts|].counters, Sample("", Dropped)) == 0
  {
    states, acts := ThenStopped();
    Closing();
    states, acts := OneMore(LONE, states, acts, Close(0), After(Stopped, SHUT, true, false, false));
    states, acts := OneMore(LONE, states, acts, ByWorker(0, Exit), After(Stopped, DONE, true, false, false));
    states, acts := OneMore(LONE, states, acts, Return, After(Stopped, DONE, true, false, true));
    OneSkipRow(Sample("", Dropped));
  }
}

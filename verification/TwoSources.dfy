/** A run with two sources in which a fresh event behind a historical one is
    dropped: it was classified before the drain began, and offered after. */
module TwoSources {
  import opened Basics
  import opened Events
  import opened Routing
  import opened Protocol
  import opened Runs

  const ALL := Rule("all", Match("", "", "", "", [], [], None, map[]), ["out"], "all")

  /** Two sources, one output with room for one event, one rule that takes everything. */
  const PAIR := Setup(["trucks", "vans"], [OutputConfig("out", 1, 1)], [ALL])

  const OLD := Event("1", "", "", "trucks", "", "", None, None, map[])
  const FRESH := Event("2", "", "", "vans", "", "", None, None, map[])

  /** The trucks' backlog holds OLD; the vans' live page holds FRESH. */
  const HISTORICAL := Dispatch(0, 0, OLD, true)
  const LIVE := Dispatch(1, 0, FRESH, false)

  lemma TakesAll(e: Event)
    ensures Fires(ALL, e) && TargetsOf(ALL) == [Target("out", "all")]
  {
  }

  lemma OneRule(rule: Rule, e: Event)
    requires Fires(rule, e)
    ensures Chosen([rule], e) == TargetsOf(rule)
  {
    assert [rule][..0] == [] && Chosen([], e) == [];
    assert [] + TargetsOf(rule) == TargetsOf(rule);
  }

  lemma OneName(t: Target)
    ensures FirstPerOutput([t]) == [t]
  {
    assert [t][..0] == [] && FirstPerOutput([]) == [];
    assert [] + [t] == [t];
  }

  lemma OneTarget(item: Dispatch)
    ensures Units(PAIR, item) == [Key(item, "out", "all")] && !Unrouted(PAIR, item)
    ensures Lookup(PAIR.outputs, "out") == Some(0)
  {
    TakesAll(item.event);
    OneRule(ALL, item.event);
    OneName(Target("out", "all"));
    assert Route(PAIR.rules, item.event) == [Target("out", "all")];
  }

  const SEEN: set<(string, string)> := {("vans", "2")}
  const BOTH: set<(string, string)> := {("vans", "2"), ("trucks", "1")}

  const START := Poller(Polling(false, false), [])

  function Trucks(stage: Stage): Poller {
    Poller(Dispatching([], true, true, 0, stage), [HISTORICAL])
  }

  function Vans(stage: Stage): Poller {
    Poller(Dispatching([], false, false, 0, stage), [LIVE])
  }

  const TRUCKS_DONE := Poller(Working([], true, true), [HISTORICAL])
  const VANS_DONE := Poller(Working([], false, false), [LIVE])

  const DROP := DropRow(Key(LIVE, "out", "all"), QueueFull)

  const FREE := Dest(0, [], false, Idle, [])
  const OWING := Dest(1, [], false, Idle, [])
  const FULL := Dest(1, [Queued(HISTORICAL, "all", true)], false, Idle, [])

  function Early(trucks: Poller, vans: Poller, dest: Dest, seen: set<(string, string)>): State {
    State([trucks, vans], [dest], seen, [], map[], false, true, false, false, false)
  }

  const COUNTED: map<Sample, nat> := map[Sample("out", Dropped) := 1]

  function Late(vans: Poller, audit: seq<AuditEntry>): State {
    State([TRUCKS_DONE, vans], [FULL], BOTH, audit, COUNTED, false, true, false, false, false)
  }

  const VANS_READ := Poller(Working([FRESH], false, false), [])
  const TRUCKS_READ := Poller(Working([OLD], true, true), [])

  const VANS_POLLED := Early(START, VANS_READ, FREE, {})
  const VANS_MARKED := Early(START, Vans(Choose), FREE, SEEN)
  const VANS_LIVE := Early(START, Vans(Offer(0, false)), FREE, SEEN)
  const TRUCKS_POLLED := Early(TRUCKS_READ, Vans(Offer(0, false)), FREE, SEEN)
  const TRUCKS_MARKED := Early(Trucks(Choose), Vans(Offer(0, false)), FREE, BOTH)
  const TRUCKS_BEHIND := Early(Trucks(Raise(0)), Vans(Offer(0, false)), FREE, BOTH)
  const TRUCKS_TRACKED := Early(Trucks(Offer(0, true)), Vans(Offer(0, false)), OWING, BOTH)
  const TRUCKS_QUEUED := Early(TRUCKS_DONE, Vans(Offer(0, false)), FULL, BOTH)
  const VANS_REFUSED := Early(TRUCKS_DONE, Vans(Tally(DROP)), FULL, BOTH)
  const VANS_COUNTED := Late(Vans(Record(DROP)), [])
  const VANS_AUDITED := Late(VANS_DONE, [Outcome(DROP)])

  lemma VansPolled()
    ensures Leads(PAIR, Init(PAIR, {}), ByPoller(1, PollReturns([FRESH], false)), VANS_POLLED)
  {
    assert Init(PAIR, {}).pollers == [START, START] && Init(PAIR, {}).dests == [FREE];
    assert Moved(PAIR, Init(PAIR, {}), 1, PollReturns([FRESH], false)) == VANS_READ;
    PollerLeads(PAIR, Init(PAIR, {}), 1, PollReturns([FRESH], false), VANS_POLLED);
  }

  lemma VansMarked()
    ensures Leads(PAIR, VANS_POLLED, ByPoller(1, Mark(IsNew)), VANS_MARKED)
  {
    OneTarget(LIVE);
    assert [FRESH][1..] == [] && VANS_READ.log + [LIVE] == [LIVE];
    assert Moved(PAIR, VANS_POLLED, 1, Mark(IsNew)) == Vans(Choose);
    PollerLeads(PAIR, VANS_POLLED, 1, Mark(IsNew), VANS_MARKED);
  }

  lemma VansLive()
    ensures Leads(PAIR, VANS_MARKED, ByPoller(1, Classify), VANS_LIVE)
  {
    OneTarget(LIVE);
    PollerLeads(PAIR, VANS_MARKED, 1, Classify, VANS_LIVE);
  }

  lemma TrucksPolled()
    ensures Leads(PAIR, VANS_LIVE, ByPoller(0, PollReturns([OLD], true)), TRUCKS_POLLED)
  {
    assert Moved(PAIR, VANS_LIVE, 0, PollReturns([OLD], true)) == TRUCKS_READ;
    PollerLeads(PAIR, VANS_LIVE, 0, PollReturns([OLD], true), TRUCKS_POLLED);
  }

  lemma TrucksMarked()
    ensures Leads(PAIR, TRUCKS_POLLED, ByPoller(0, Mark(IsNew)), TRUCKS_MARKED)
  {
    OneTarget(HISTORICAL);
    assert [OLD][1..] == [] && TRUCKS_READ.log + [HISTORICAL] == [HISTORICAL];
    assert Moved(PAIR, TRUCKS_POLLED, 0, Mark(IsNew)) == Trucks(Choose);
    PollerLeads(PAIR, TRUCKS_POLLED, 0, Mark(IsNew), TRUCKS_MARKED);
  }

  lemma TrucksBehind()
    ensures Leads(PAIR, TRUCKS_MARKED, ByPoller(0, Classify), TRUCKS_BEHIND)
  {
    OneTarget(HISTORICAL);
    PollerLeads(PAIR, TRUCKS_MARKED, 0, Classify, TRUCKS_BEHIND);
  }

  lemma TrucksTracked()
    ensures Leads(PAIR, TRUCKS_BEHIND, ByPoller(0, Track), TRUCKS_TRACKED)
  {
    OneTarget(HISTORICAL);
    PollerLeads(PAIR, TRUCKS_BEHIND, 0, Track, TRUCKS_TRACKED);
  }

  lemma TrucksQueued()
    ensures Leads(PAIR, TRUCKS_TRACKED, ByPoller(0, TrySend), TRUCKS_QUEUED)
  {
    OneTarget(HISTORICAL);
    assert OWING.queue + [Entry(PAIR, Trucks(Offer(0, true)), true)] == FULL.queue;
    PollerLeads(PAIR, TRUCKS_TRACKED, 0, TrySend, TRUCKS_QUEUED);
  }

  lemma VansRefused()
    ensures Leads(PAIR, TRUCKS_QUEUED, ByPoller(1, TrySend), VANS_REFUSED)
  {
    OneTarget(LIVE);
    PollerLeads(PAIR, TRUCKS_QUEUED, 1, TrySend, VANS_REFUSED);
  }

  lemma VansCounted()
    ensures Leads(PAIR, VANS_REFUSED, ByPoller(1, CountDrop), VANS_COUNTED)
  {
    OneTarget(LIVE);
    PollerLeads(PAIR, VANS_REFUSED, 1, CountDrop, VANS_COUNTED);
  }

  lemma VansAudited()
    ensures Leads(PAIR, VANS_COUNTED, ByPoller(1, AuditDrop), VANS_AUDITED)
  {
    OneTarget(LIVE);
    PollerLeads(PAIR, VANS_COUNTED, 1, AuditDrop, VANS_AUDITED);
  }

  /** The historical event fills the queue behind the live one's classification. */
  lemma HistoricalFirst() returns (states: seq<State>, acts: seq<Action>)
    ensures IsRun(PAIR, states, acts) && states[|acts|] == TRUCKS_QUEUED
  {
    states, acts := [Init(PAIR, {})], [];
    VansPolled();
    states, acts := OneMore(PAIR, states, acts, ByPoller(1, PollReturns([FRESH], false)), VANS_POLLED);
    VansMarked();
    states, acts := OneMore(PAIR, states, acts, ByPoller(1, Mark(IsNew)), VANS_MARKED);
    VansLive();
    states, acts := OneMore(PAIR, states, acts, ByPoller(1, Classify), VANS_LIVE);
    TrucksPolled();
    states, acts := OneMore(PAIR, states, acts, ByPoller(0, PollReturns([OLD], true)), TRUCKS_POLLED);
    TrucksMarked();
    states, acts := OneMore(PAIR, states, acts, ByPoller(0, Mark(IsNew)), TRUCKS_MARKED);
    TrucksBehind();
    states, acts := OneMore(PAIR, states, acts, ByPoller(0, Classify), TRUCKS_BEHIND);
    TrucksTracked();
    states, acts := OneMore(PAIR, states, acts, ByPoller(0, Track), TRUCKS_TRACKED);
    TrucksQueued();
    states, acts := OneMore(PAIR, states, acts, ByPoller(0, TrySend), TRUCKS_QUEUED);
  }

  /** The drop is in the log while the output still owes the historical event. */
  lemma FreshBehindHistoricalDropped() returns (states: seq<State>, acts: seq<Action>)
    ensures ValidSetup(PAIR) && |PAIR.sources| == 2 && IsRun(PAIR, states, acts)
    ensures states[|acts|].audit == [Outcome(DropRow(Key(LIVE, "out", "all"), QueueFull))]
    ensures |states[|acts|].dests| == 1 && states[|acts|].dests[0].outstanding == 1
    ensures states[|acts|].dests[0].queue == [Queued(HISTORICAL, "all", true)]
  {
    states, acts := HistoricalFirst();
    VansRefused();
    states, acts := OneMore(PAIR, states, acts, ByPoller(1, TrySend), VANS_REFUSED);
    VansCounted();
    states, acts := OneMore(PAIR, states, acts, ByPoller(1, CountDrop), VANS_COUNTED);
    VansAudited();
    states, acts := OneMore(PAIR, states, acts, ByPoller(1, AuditDrop), VANS_AUDITED);
  }
}

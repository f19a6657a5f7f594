/** Each target of an event is classified once: whether it may be dropped is decided
    at one step of the run and never again. */
module Choices {
  import opened Protocol
  import opened Shape
  import opened Conservation
  import Order

  /** The poller has classified this target, and is still at it or has let it go. */
  predicate Past(c: Setup, p: Poller, k: Key) {
    (AtUnit(c, p) && Unit(c, p) == k && !p.phase.stage.Choose?) || Discharged(c, p, k) > 0
  }

  lemma ClassifiedStage(c: Setup, s: State, p: Poller) returns (stage: Stage)
    requires AtUnit(c, p)
    ensures Classified(c, s, p) == InStage(p, stage) && !stage.Choose?
  {
    stage := Classified(c, s, p).phase.stage;
  }

  lemma ClassifyPasses(c: Setup, s: State, i: nat)
    requires PollerEnabled(c, s, i, Classify)
    ensures Past(c, Moved(c, s, i, Classify), Unit(c, s.pollers[i]))
  {
    var stage := ClassifiedStage(c, s, s.pollers[i]);
    InStageKeepsUnit(c, s.pollers[i], stage);
  }

  lemma ChoosingIsNotPast(c: Setup, i: nat, p: Poller)
    requires PollerOk(c, i, p) && AtUnit(c, p) && p.phase.stage.Choose?
    ensures !Past(c, p, Unit(c, p))
  {
    var us, j := Units(c, Last(p)), p.phase.j;
    forall a | 0 <= a < j ensures us[..j][a] != us[j] {
      Order.UnitsDistinct(c, Last(p), a, j);
    }
    assert Last(p) == us[j].item;
    assert Dealt(c, p, us[j].item) == j;
    assert us[j] !in us[..j];
  }

  /** A poller past the choice stays at its target until it sends or audits it. */
  lemma PollerStays(c: Setup, s: State, i: nat, a: PollerAct) returns (stage: Stage)
    requires PollerEnabled(c, s, i, a) && AtUnit(c, s.pollers[i]) && !s.pollers[i].phase.stage.Choose?
    requires !Sends(c, s, i, a) && !a.AuditDrop?
    ensures Moved(c, s, i, a) == InStage(s.pollers[i], stage) && !stage.Choose?
  {
    stage := Moved(c, s, i, a).phase.stage;
  }

  lemma PollerStaysPast(c: Setup, s: State, i: nat, a: PollerAct, k: Key)
    requires PollerEnabled(c, s, i, a) && PollerOk(c, i, s.pollers[i]) && Past(c, s.pollers[i], k)
    ensures Past(c, Moved(c, s, i, a), k)
  {
    PollerDischarges(c, s, i, a, k);
    if Discharged(c, s.pollers[i], k) == 0 && !Sends(c, s, i, a) && !a.AuditDrop? {
      var stage := PollerStays(c, s, i, a);
      InStageKeepsUnit(c, s.pollers[i], stage);
    }
  }

  lemma StepStaysPast(c: Setup, s: State, a: Action, i: nat, k: Key)
    requires Enabled(c, s, a) && Shaped(c, s) && i < |s.pollers| && Past(c, s.pollers[i], k)
    ensures i < |Next(c, s, a).pollers| && Past(c, Next(c, s, a).pollers[i], k)
  {
    if a.ByPoller? && a.i == i {
      PollerStaysPast(c, s, i, a.pa, k);
    }
  }

  /** The poller is out to wait for room if it has to. */
  predicate Insists(stage: Stage) {
    stage.Raise? || (stage.Offer? && stage.tracked) || stage.Blocked?
  }

  /** Other steps leave a poller somewhere else. */
  lemma OthersDoNotInsist(c: Setup, s: State, i: nat, a: PollerAct)
    requires PollerEnabled(c, s, i, a) && !a.Classify? && !a.Track? && !a.TrySend?
    ensures !(Moved(c, s, i, a).phase.Dispatching? && Insists(Moved(c, s, i, a).phase.stage))
  {
    var p := s.pollers[i];
    match a
    case Mark(answer) => if !answer.IsDuplicate? { assert !Insists(Admit(c, i, p).phase.stage); }
    case SendBlocked => assert Advance(c, p).phase.Dispatching? ==> Advance(c, p).phase.stage.Choose?;
    case AuditDrop => assert Advance(c, p).phase.Dispatching? ==> Advance(c, p).phase.stage.Choose?;
    case _ =>
  }

  lemma InsistingStage(c: Setup, s: State, i: nat, a: PollerAct) returns (stage: Stage)
    requires PollerEnabled(c, s, i, a) && AtUnit(c, Moved(c, s, i, a)) && Insists(Moved(c, s, i, a).phase.stage)
    ensures AtUnit(c, s.pollers[i]) && Moved(c, s, i, a) == InStage(s.pollers[i], stage)
    ensures a.Classify? || Insists(s.pollers[i].phase.stage)
  {
    if a.Classify? || a.Track? || a.TrySend? {
      stage := Moved(c, s, i, a).phase.stage;
    } else {
      OthersDoNotInsist(c, s, i, a);
    }
  }

  /** It gets there only by classifying its target as tracked, and stays at it. */
  lemma InsistsFrom(c: Setup, s: State, i: nat, a: PollerAct)
    requires PollerEnabled(c, s, i, a) && PollerOk(c, i, s.pollers[i])
    requires AtUnit(c, Moved(c, s, i, a)) && Insists(Moved(c, s, i, a).phase.stage)
    ensures AtUnit(c, s.pollers[i]) && Unit(c, Moved(c, s, i, a)) == Unit(c, s.pollers[i])
    ensures Insists(s.pollers[i].phase.stage) || TrackedAt(c, s, ByPoller(i, a), Unit(c, s.pollers[i]))
  {
    var p := s.pollers[i];
    var stage := InsistingStage(c, s, i, a);
    InStageKeepsUnit(c, p, stage);
    assert Unit(c, p).item == Last(p);
  }

  lemma StepInsists(c: Setup, s: State, a: Action, i: nat)
    requires Enabled(c, s, a) && Shaped(c, s) && i < |s.pollers| && i < |Next(c, s, a).pollers|
    requires AtUnit(c, Next(c, s, a).pollers[i]) && Insists(Next(c, s, a).pollers[i].phase.stage)
    ensures AtUnit(c, s.pollers[i]) && Unit(c, Next(c, s, a).pollers[i]) == Unit(c, s.pollers[i])
    ensures Insists(s.pollers[i].phase.stage) || TrackedAt(c, s, a, Unit(c, s.pollers[i]))
  {
    if a.ByPoller? && a.i == i {
      InsistsFrom(c, s, i, a.pa);
    }
  }

  /** Step m classifies this target. */
  predicate ClassifiesAt(c: Setup, s: State, a: Action, k: Key) {
    && a == ByPoller(k.item.source, Classify)
    && k.item.source < |s.pollers| && AtUnit(c, s.pollers[k.item.source]) && Unit(c, s.pollers[k.item.source]) == k
  }

  /** This target was classified as tracked: its page blocks, or its output still
      owed backlog events at that moment. */
  predicate TrackedAt(c: Setup, s: State, a: Action, k: Key) {
    && ClassifiesAt(c, s, a, k)
    && var d := Lookup(c.outputs, k.output);
       d.Some? && (k.item.block || (d.value < |s.dests| && s.dests[d.value].outstanding > 0))
  }
}

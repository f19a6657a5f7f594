/** internal/router: from an event and an ordered list of rules to a list of
    targets, and the specification that list meets. */
module Routing {
  import opened Basics
  import opened Events

  datatype SpnRange = SpnRange(lo: int, hi: int)

  datatype Match = Match(
    vin: string,
    unitId: string,
    source: string,
    sourceType: string,
    severity: seq<string>,
    spn: seq<SpnRange>,
    fmi: Option<int>,
    tags: map<string, string>)

  datatype Rule = Rule(name: string, condition: Match, route: seq<string>, ruleLabel: string)

  datatype Target = Target(output: string, rule: string)

  function RuleLabel(name: string, index: nat): string {
    if name != "" then name else "rule[" + Decimal(index) + "]"
  }

  /** A rule's own name is its label; the labels of rules without one all differ. */
  lemma LabelsTellRules(name: string, i: nat, j: nat)
    ensures name != "" ==> RuleLabel(name, i) == name
    ensures i != j ==> RuleLabel("", i) != RuleLabel("", j)
  {
    if RuleLabel("", i) == RuleLabel("", j) {
      DecimalValue(i);
      DecimalValue(j);
      assert RuleLabel("", i)[5..|RuleLabel("", i)| - 1] == Decimal(i);
      assert RuleLabel("", j)[5..|RuleLabel("", j)| - 1] == Decimal(j);
    }
  }

  predicate SpnContains(ranges: seq<SpnRange>, spn: int) {
    exists i :: 0 <= i < |ranges| && ranges[i].lo <= spn <= ranges[i].hi
  }

  /** The conjunction of the conditions that are set. An event without an SPN, FMI or
      tag fails every condition on it. */
  predicate Matches(m: Match, e: Event) {
    && (m.vin == "" || m.vin == e.vin)
    && (m.unitId == "" || m.unitId == e.unitId)
    && (m.source == "" || m.source == e.source)
    && (m.sourceType == "" || m.sourceType == e.sourceType)
    && (m.severity == [] || e.severity in m.severity)
    && (m.spn == [] || (e.spn.Some? && SpnContains(m.spn, e.spn.value)))
    && (m.fmi.None? || e.fmi == m.fmi)
    && (forall k :: k in m.tags ==> k in e.tags && e.tags[k] == m.tags[k])
  }

  /** A condition that sets nothing takes every event, and each one that is set narrows
      what is taken to the events that have exactly what it asks for. */
  lemma ConditionsNarrow(m: Match, e: Event)
    ensures Matches(Match("", "", "", "", [], [], None, map[]), e)
    ensures Matches(m, e) <==> Matches(m.(vin := ""), e) && (m.vin == "" || e.vin == m.vin)
    ensures Matches(m, e) <==> Matches(m.(unitId := ""), e) && (m.unitId == "" || e.unitId == m.unitId)
    ensures Matches(m, e) <==> Matches(m.(source := ""), e) && (m.source == "" || e.source == m.source)
    ensures Matches(m, e) <==> Matches(m.(sourceType := ""), e) && (m.sourceType == "" || e.sourceType == m.sourceType)
  {
  }

  /** An event without an SPN, FMI or tag meets no condition on it. */
  lemma CodesAndTagsNarrow(m: Match, e: Event)
    ensures Matches(m, e) <==> Matches(m.(severity := []), e) && (m.severity == [] || e.severity in m.severity)
    ensures Matches(m, e) <==> Matches(m.(spn := []), e) && (m.spn == [] || (e.spn.Some? && SpnContains(m.spn, e.spn.value)))
    ensures Matches(m, e) <==> Matches(m.(fmi := None), e) && (m.fmi.Some? ==> e.fmi == m.fmi)
    ensures Matches(m, e)
      <==> Matches(m.(tags := map[]), e) && forall k :: k in m.tags ==> k in e.tags && e.tags[k] == m.tags[k]
  {
  }

  method Contains(ranges: seq<SpnRange>, spn: int) returns (found: bool)
    ensures found <==> SpnContains(ranges, spn)
  {
    var i := 0;
    while i < |ranges|
      invariant 0 <= i <= |ranges|
      invariant forall j :: 0 <= j < i ==> !(ranges[j].lo <= spn <= ranges[j].hi)
    {
      if ranges[i].lo <= spn <= ranges[i].hi {
        return true;
      }
      i := i + 1;
    }
    return false;
  }

  /** matches in the source: the first condition that fails decides. */
  method Check(m: Match, e: Event) returns (ok: bool)
    ensures ok <==> Matches(m, e)
  {
    if m.vin != "" && m.vin != e.vin {
      return false;
    } else if m.unitId != "" && m.unitId != e.unitId {
      return false;
    } else if m.source != "" && m.source != e.source {
      return false;
    } else if m.sourceType != "" && m.sourceType != e.sourceType {
      return false;
    } else if m.severity != [] && e.severity !in m.severity {
      return false;
    } else if m.spn != [] {
      if e.spn.None? {
        return false;
      }
      var found := Contains(m.spn, e.spn.value);
      if !found {
        return false;
      }
    }
    if m.fmi.Some? && (e.fmi.None? || m.fmi.value != e.fmi.value) {
      return false;
    }
    ok := CheckTags(m.tags, e.tags);
  }

  /** In no particular order, as Go visits a map. */
  method CheckTags(wanted: map<string, string>, tags: map<string, string>) returns (ok: bool)
    ensures ok <==> forall k :: k in wanted ==> k in tags && tags[k] == wanted[k]
  {
    var rest := wanted.Keys;
    while rest != {}
      invariant rest <= wanted.Keys
      invariant forall k :: k in wanted && k !in rest ==> k in tags && tags[k] == wanted[k]
      decreases |rest|
    {
      var k :| k in rest;
      rest := rest - {k};
      if k !in tags || tags[k] != wanted[k] {
        return false;
      }
    }
    return true;
  }

  predicate Fires(r: Rule, e: Event) {
    Matches(r.condition, e)
  }

  function TargetsOf(r: Rule): (ts: seq<Target>)
    ensures |ts| == |r.route|
  {
    seq(|r.route|, j requires 0 <= j < |r.route| => Target(r.route[j], r.ruleLabel))
  }

  /** Every target every matching rule names, in rule order, repeats included. */
  function Chosen(rules: seq<Rule>, e: Event): seq<Target> {
    if rules == [] then []
    else
      var last := rules[|rules| - 1];
      Chosen(rules[..|rules| - 1], e) + (if Fires(last, e) then TargetsOf(last) else [])
  }

  predicate Names(ts: seq<Target>, output: string) {
    exists i :: 0 <= i < |ts| && ts[i].output == output
  }

  /** The first target for each output, in order of appearance. */
  function FirstPerOutput(ts: seq<Target>): seq<Target> {
    if ts == [] then []
    else
      var kept := FirstPerOutput(ts[..|ts| - 1]);
      var last := ts[|ts| - 1];
      if Names(kept, last.output) then kept else kept + [last]
  }

  function Route(rules: seq<Rule>, e: Event): seq<Target> {
    FirstPerOutput(Chosen(rules, e))
  }

  /** The position of the first target naming `output`. */
  function FirstIndex(ts: seq<Target>, output: string): (p: nat)
    requires Names(ts, output)
    ensures p < |ts| && ts[p].output == output
    ensures forall q :: 0 <= q < p ==> ts[q].output != output
  {
    if ts[0].output == output then 0
    else
      assert Names(ts[1..], output) by {
        var i :| 0 <= i < |ts| && ts[i].output == output;
        assert ts[1..][i - 1].output == output;
      }
      1 + FirstIndex(ts[1..], output)
  }

  lemma {:induction false} FirstPerOutputNames(ts: seq<Target>, output: string)
    ensures Names(FirstPerOutput(ts), output) <==> Names(ts, output)
  {
    if ts == [] {
    } else {
      var init, last := ts[..|ts| - 1], ts[|ts| - 1];
      FirstPerOutputNames(init, output);
      FirstPerOutputNames(init, last.output);
      var kept := FirstPerOutput(init);
      assert Names(ts, output) <==> Names(init, output) || last.output == output by {
        if Names(init, output) {
          var i :| 0 <= i < |init| && init[i].output == output;
          assert ts[i].output == output;
        }
      }
      if !Names(kept, last.output) {
        assert (kept + [last])[|kept|] == last;
        if Names(kept, output) {
          var i :| 0 <= i < |kept| && kept[i].output == output;
          assert (kept + [last])[i].output == output;
        }
      }
    }
  }

  lemma FirstIndexInPrefix(ts: seq<Target>, n: nat, output: string)
    requires n <= |ts| && Names(ts[..n], output)
    ensures Names(ts, output) && FirstIndex(ts, output) == FirstIndex(ts[..n], output)
  {
    var p := FirstIndex(ts[..n], output);
    assert ts[p].output == output;
    forall q | 0 <= q < p ensures ts[q].output != output {
      assert ts[..n][q] == ts[q];
    }
  }

  /** Deduplication keeps the first occurrence of each output. */
  lemma {:induction false} FirstPerOutputKeepsFirst(ts: seq<Target>, a: nat)
    requires a < |FirstPerOutput(ts)|
    ensures Names(ts, FirstPerOutput(ts)[a].output)
    ensures ts[FirstIndex(ts, FirstPerOutput(ts)[a].output)] == FirstPerOutput(ts)[a]
  {
    var r := FirstPerOutput(ts);
    FirstPerOutputNames(ts, r[a].output);
    var init, last := ts[..|ts| - 1], ts[|ts| - 1];
    var kept := FirstPerOutput(init);
    if a < |kept| {
      FirstPerOutputKeepsFirst(init, a);
      FirstIndexInPrefix(ts, |ts| - 1, r[a].output);
    } else {
      FirstPerOutputNames(init, last.output);
      forall p | 0 <= p < |init| ensures ts[p].output != last.output {
        assert ts[p] == init[p];
      }
    }
  }

  /** It keeps them in the order of those first occurrences. Together with
      FirstPerOutputNames and FirstPerOutputKeepsFirst this determines the result. */
  lemma {:induction false} FirstPerOutputOrdered(ts: seq<Target>, a: nat, b: nat)
    requires a < b < |FirstPerOutput(ts)|
    ensures Names(ts, FirstPerOutput(ts)[a].output) && Names(ts, FirstPerOutput(ts)[b].output)
    ensures FirstIndex(ts, FirstPerOutput(ts)[a].output) < FirstIndex(ts, FirstPerOutput(ts)[b].output)
  {
    var r := FirstPerOutput(ts);
    FirstPerOutputKeepsFirst(ts, a);
    FirstPerOutputKeepsFirst(ts, b);
    var init := ts[..|ts| - 1];
    var kept := FirstPerOutput(init);
    assert a < |kept| && r[a] == kept[a];
    FirstPerOutputKeepsFirst(init, a);
    FirstIndexInPrefix(ts, |ts| - 1, kept[a].output);
    if b < |kept| {
      FirstPerOutputOrdered(init, a, b);
      FirstIndexInPrefix(ts, |ts| - 1, r[b].output);
    } else {
      assert !Names(kept, r[b].output);
      FirstPerOutputNames(init, r[b].output);
      forall q | 0 <= q < |init| ensures ts[q].output != r[b].output {
        assert ts[q] == init[q];
      }
    }
  }

  lemma {:induction false} ChosenAppend(rules: seq<Rule>, more: seq<Rule>, e: Event)
    ensures Chosen(rules + more, e) == Chosen(rules, e) + Chosen(more, e)
  {
    if more == [] {
      assert rules + more == rules;
    } else {
      var n := |more| - 1;
      assert (rules + more)[..|rules + more| - 1] == rules + more[..n];
      ChosenAppend(rules, more[..n], e);
    }
  }

  lemma {:induction false} FirstPerOutputAppend(ts: seq<Target>, more: seq<Target>)
    ensures FirstPerOutput(ts) <= FirstPerOutput(ts + more)
  {
    if more == [] {
      assert ts + more == ts;
    } else {
      var n := |more| - 1;
      assert (ts + more)[..|ts + more| - 1] == ts + more[..n];
      FirstPerOutputAppend(ts, more[..n]);
    }
  }

  /** Appending rules never moves or relabels what the earlier rules chose. */
  lemma AppendingRulesExtends(rules: seq<Rule>, more: seq<Rule>, e: Event)
    ensures Route(rules, e) <= Route(rules + more, e)
  {
    ChosenAppend(rules, more, e);
    FirstPerOutputAppend(Chosen(rules, e), Chosen(more, e));
  }

  lemma {:induction false} ChosenNames(rules: seq<Rule>, e: Event, output: string)
    ensures Names(Chosen(rules, e), output) <==> exists r :: r in rules && Fires(r, e) && output in r.route
  {
    if rules == [] {
    } else {
      var init, last := rules[..|rules| - 1], rules[|rules| - 1];
      ChosenNames(init, e, output);
      var front := Chosen(init, e);
      var back := if Fires(last, e) then TargetsOf(last) else [];
      assert Names(front + back, output) <==> Names(front, output) || Names(back, output) by {
        if Names(front, output) {
          var i :| 0 <= i < |front| && front[i].output == output;
          assert (front + back)[i].output == output;
        }
        if Names(back, output) {
          var i :| 0 <= i < |back| && back[i].output == output;
          assert (front + back)[|front| + i].output == output;
        }
      }
      if output in last.route {
        var j :| 0 <= j < |last.route| && last.route[j] == output;
        assert TargetsOf(last)[j].output == output;
      }
      assert rules == init + [last];
    }
  }

  /** An output receives the event exactly when some matching rule names it. */
  lemma RouteReaches(rules: seq<Rule>, e: Event, output: string)
    ensures Names(Route(rules, e), output) <==> exists r :: r in rules && Fires(r, e) && output in r.route
  {
    FirstPerOutputNames(Chosen(rules, e), output);
    ChosenNames(rules, e, output);
  }

  /** Reordering the rules can change labels and order, never who receives. */
  lemma PermutingRulesKeepsOutputs(rules: seq<Rule>, other: seq<Rule>, e: Event, output: string)
    requires multiset(rules) == multiset(other)
    ensures Names(Route(rules, e), output) <==> Names(Route(other, e), output)
  {
    RouteReaches(rules, e, output);
    RouteReaches(other, e, output);
    forall r ensures r in rules <==> r in other {
      assert r in rules <==> r in multiset(rules);
      assert r in other <==> r in multiset(other);
    }
  }

  /** One target per output. */
  lemma RouteDistinct(rules: seq<Rule>, e: Event)
    ensures forall a, b :: 0 <= a < b < |Route(rules, e)| ==>
      Route(rules, e)[a].output != Route(rules, e)[b].output
  {
    forall a, b | 0 <= a < b < |Route(rules, e)|
      ensures Route(rules, e)[a].output != Route(rules, e)[b].output
    {
      FirstPerOutputOrdered(Chosen(rules, e), a, b);
    }
  }

  lemma ChosenStep(rules: seq<Rule>, i: nat, e: Event)
    requires i < |rules|
    ensures Fires(rules[i], e) ==> Chosen(rules[..i + 1], e) == Chosen(rules[..i], e) + TargetsOf(rules[i])
    ensures !Fires(rules[i], e) ==> Chosen(rules[..i + 1], e) == Chosen(rules[..i], e)
  {
    assert rules[..i + 1][..i] == rules[..i];
  }

  /** The first target naming output is the middle's own, when the front names it
      nowhere and everything the middle holds carries one label. */
  lemma FirstInMiddle(front: seq<Target>, own: seq<Target>, back: seq<Target>, output: string, ruleLabel: string)
    requires !Names(front, output) && Names(own, output)
    requires forall n :: 0 <= n < |own| ==> own[n].rule == ruleLabel
    ensures Names(front + own + back, output)
    ensures (front + own + back)[FirstIndex(front + own + back, output)] == Target(output, ruleLabel)
  {
    var all := front + own + back;
    var k :| 0 <= k < |own| && own[k].output == output;
    assert all[|front| + k].output == output;
    var p := FirstIndex(all, output);
    assert p <= |front| + k;
    forall q | 0 <= q < |front| ensures all[q].output != output {
      assert all[q] == front[q];
    }
    assert all[p] == own[p - |front|];
  }

  lemma ChosenFirstLabel(rules: seq<Rule>, e: Event, output: string, i: nat)
    requires i < |rules| && Fires(rules[i], e) && output in rules[i].route
    requires forall j :: 0 <= j < i ==> !(Fires(rules[j], e) && output in rules[j].route)
    ensures Names(Chosen(rules, e), output)
    ensures Chosen(rules, e)[FirstIndex(Chosen(rules, e), output)] == Target(output, rules[i].ruleLabel)
  {
    var front, own, back := Chosen(rules[..i], e), TargetsOf(rules[i]), Chosen(rules[i + 1..], e);
    ChosenNames(rules[..i], e, output);
    assert Chosen(rules[..i + 1], e) == front + own by {
      ChosenStep(rules, i, e);
    }
    assert rules == rules[..i + 1] + rules[i + 1..];
    ChosenAppend(rules[..i + 1], rules[i + 1..], e);
    var k :| 0 <= k < |rules[i].route| && rules[i].route[k] == output;
    assert own[k].output == output;
    FirstInMiddle(front, own, back, output, rules[i].ruleLabel);
  }

  /** The label on a target is that of the first matching rule naming its output. */
  lemma RouteLabel(rules: seq<Rule>, e: Event, a: nat, i: nat)
    requires a < |Route(rules, e)|
    requires i < |rules| && Fires(rules[i], e) && Route(rules, e)[a].output in rules[i].route
    requires forall j :: 0 <= j < i ==> !(Fires(rules[j], e) && Route(rules, e)[a].output in rules[j].route)
    ensures Route(rules, e)[a].rule == rules[i].ruleLabel
  {
    FirstPerOutputKeepsFirst(Chosen(rules, e), a);
    ChosenFirstLabel(rules, e, Route(rules, e)[a].output, i);
  }

  lemma FirstPerOutputStep(before: seq<Target>, ts: seq<Target>, j: nat)
    requires j < |ts|
    ensures FirstPerOutput(before + ts[..j + 1]) ==
            var kept := FirstPerOutput(before + ts[..j]);
            if Names(kept, ts[j].output) then kept else kept + [ts[j]]
  {
    var next := before + ts[..j + 1];
    assert next[..|next| - 1] == before + ts[..j];
    assert next[|next| - 1] == ts[j];
  }

  /** The rule under its own label, or under its name or position when it has none. */
  function Labelled(r: Rule, i: nat): Rule {
    if r.ruleLabel == "" then r.(ruleLabel := RuleLabel(r.name, i)) else r
  }

  class Router {
    var rules: seq<Rule>

    /** A rule without a label gets its own, or its position in the list. */
    constructor (given: seq<Rule>)
      ensures |rules| == |given|
      ensures forall i :: 0 <= i < |given| ==> rules[i] == Labelled(given[i], i)
      ensures forall i :: 0 <= i < |rules| ==> rules[i].ruleLabel != ""
    {
      rules := given;
      new;
      var i := 0;
      while i < |given|
        invariant 0 <= i <= |given| == |rules|
        invariant forall j :: i <= j < |given| ==> rules[j] == given[j]
        invariant forall j :: 0 <= j < i ==> rules[j] == Labelled(given[j], j)
      {
        if rules[i].ruleLabel == "" {
          rules := rules[i := rules[i].(ruleLabel := RuleLabel(rules[i].name, i))];
        }
        i := i + 1;
      }
    }

    /** Adds a target unless its output is already named. */
    method RouteEvent(e: Event) returns (targets: seq<Target>)
      ensures targets == Route(rules, e)
    {
      targets := [];
      var list := rules;
      var i := 0;
      while i < |list|
        invariant 0 <= i <= |list|
        invariant targets == Route(list[..i], e)
      {
        ChosenStep(list, i, e);
        var fires := Check(list[i].condition, e);
        if fires {
          targets := AddTargets(Chosen(list[..i], e), targets, list[i]);
        }
        i := i + 1;
      }
      assert list[..i] == list;
    }

    /** The inner loop of RouteEvent: one rule's outputs, each unless already named. */
    static method AddTargets(ghost before: seq<Target>, given: seq<Target>, rule: Rule)
      returns (targets: seq<Target>)
      requires given == FirstPerOutput(before)
      ensures targets == FirstPerOutput(before + TargetsOf(rule))
    {
      targets := given;
      ghost var ts := TargetsOf(rule);
      var j := 0;
      assert before + ts[..0] == before;
      while j < |rule.route|
        invariant 0 <= j <= |rule.route|
        invariant targets == FirstPerOutput(before + ts[..j])
      {
        FirstPerOutputStep(before, ts, j);
        assert ts[j] == Target(rule.route[j], rule.ruleLabel);
        if !Names(targets, rule.route[j]) {
          targets := targets + [Target(rule.route[j], rule.ruleLabel)];
        }
        j := j + 1;
      }
      assert ts[..j] == ts;
    }
  }
}

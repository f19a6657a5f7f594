/** cmd/fleetnorm's wiring and pipeline.New: what can still stop a loaded config
    from being wired, and that every route in it leads to a registered output. */
module Startup {
  import opened Basics
  import Events
  import opened Config
  import opened Routing
  import opened Protocol
  import Metrics
  import Pipeline

  // ---- buildSources ----

  /** What the adapter's constructor insists on. readable says that the path names
      a file that can be opened. */
  predicate Opens(a: Adapter, readable: string -> bool) {
    if a.kind == "file" then a.name != "" && readable(a.path)
    else
      && a.kind == "geotab" && a.name != "" && a.database != "" && a.username != "" && a.password != "" && a.seedFrom
      && a.resultsLimit <= MAX_RESULTS_LIMIT
  }

  /** Stops at the first adapter that does not open. */
  method BuildSources(adapters: seq<Adapter>, readable: string -> bool) returns (r: Result<seq<string>, nat>)
    ensures r.Ok? ==> r.value == AdapterNames(adapters) && forall i :: 0 <= i < |adapters| ==> Opens(adapters[i], readable)
    ensures r.Err? ==> r.error < |adapters| && !Opens(adapters[r.error], readable)
                       && forall i :: 0 <= i < r.error ==> Opens(adapters[i], readable)
  {
    var sources: seq<string> := [];
    var i := 0;
    while i < |adapters|
      invariant 0 <= i <= |adapters|
      invariant sources == AdapterNames(adapters[..i])
      invariant forall j :: 0 <= j < i ==> Opens(adapters[j], readable)
    {
      if !Opens(adapters[i], readable) {
        return Err(i);
      }
      sources := sources + [adapters[i].name];
      i := i + 1;
    }
    assert adapters[..i] == adapters;
    r := Ok(sources);
  }

  // ---- buildDestinations ----

  /** What the output's constructor insists on. */
  predicate Connects(parse: string -> Url, o: Output) {
    o.kind == "stdout"
    || (o.kind == "webhook" && o.name != "" && parse(o.url).Parsed? && parse(o.url).scheme in ["http", "https"])
  }

  datatype Destination = Destination(name: string, buffer: int, maxAttempts: int)

  /** Only a webhook's configured attempts count; anything else is sent to once. */
  function DestinationOf(o: Output): Destination {
    Destination(o.name, o.buffer, if o.kind == "webhook" then o.maxAttempts else 1)
  }

  method BuildDestinations(parse: string -> Url, outputs: seq<Output>) returns (r: Result<seq<Destination>, nat>)
    ensures r.Ok? ==>
      && |r.value| == |outputs|
      && forall i :: 0 <= i < |outputs| ==> Connects(parse, outputs[i]) && r.value[i] == DestinationOf(outputs[i])
    ensures r.Err? ==> r.error < |outputs| && !Connects(parse, outputs[r.error])
                       && forall i :: 0 <= i < r.error ==> Connects(parse, outputs[i])
  {
    var ds: seq<Destination> := [];
    var i := 0;
    while i < |outputs|
      invariant 0 <= i <= |outputs|
      invariant |ds| == i && forall j :: 0 <= j < i ==> Connects(parse, outputs[j]) && ds[j] == DestinationOf(outputs[j])
    {
      var maxAttempts := 1;
      if outputs[i].kind == "stdout" {
      } else if outputs[i].kind == "webhook" {
        maxAttempts := outputs[i].maxAttempts;
        if !Connects(parse, outputs[i]) {
          return Err(i);
        }
      } else {
        return Err(i);
      }
      ds := ds + [Destination(outputs[i].name, outputs[i].buffer, maxAttempts)];
      i := i + 1;
    }
    r := Ok(ds);
  }

  // ---- pipeline.New ----

  datatype Refusal = NoSources | NoDestinations | TwoNamed(name: string) | NotPositive(name: string)

  predicate Registers(ds: seq<Destination>) {
    && (forall i, j :: 0 <= i < j < |ds| ==> ds[i].name != ds[j].name)
    && forall i :: 0 <= i < |ds| ==> ds[i].buffer > 0 && ds[i].maxAttempts > 0
  }

  /** New with a store and a router: accepted exactly when there is something to
      read, somewhere to write, and the destinations register. */
  method New(sources: seq<string>, ds: seq<Destination>, rules: seq<Rule>) returns (r: Result<Setup, Refusal>)
    ensures r.Ok? <==> sources != [] && ds != [] && Registers(ds)
    ensures r.Ok? ==>
      && ValidSetup(r.value) && r.value.sources == sources && r.value.rules == rules && |r.value.outputs| == |ds|
      && forall i :: 0 <= i < |ds| ==>
           r.value.outputs[i] == OutputConfig(ds[i].name, r.value.outputs[i].buffer, r.value.outputs[i].maxAttempts)
           && r.value.outputs[i].buffer == ds[i].buffer && r.value.outputs[i].maxAttempts == ds[i].maxAttempts
  {
    if sources == [] {
      return Err(NoSources);
    }
    if ds == [] {
      return Err(NoDestinations);
    }
    var outputs: seq<OutputConfig> := [];
    var i := 0;
    while i < |ds|
      invariant 0 <= i <= |ds| && |outputs| == i
      invariant Registers(ds[..i])
      invariant forall j :: 0 <= j < i ==>
        outputs[j].name == ds[j].name && outputs[j].buffer == ds[j].buffer && outputs[j].maxAttempts == ds[j].maxAttempts
    {
      var d := ds[i];
      assert ds[..i + 1] == ds[..i] + [d];
      if exists j :: 0 <= j < |outputs| && outputs[j].name == d.name {
        return Err(TwoNamed(d.name));
      }
      if d.buffer <= 0 || d.maxAttempts <= 0 {
        return Err(NotPositive(d.name));
      }
      outputs := outputs + [OutputConfig(d.name, d.buffer, d.maxAttempts)];
      i := i + 1;
    }
    assert ds[..i] == ds;
    r := Ok(Setup(sources, outputs, rules));
  }

  // ---- what loading guarantees ----

  /** Every adapter of a loaded config opens, unless its file cannot be read. */
  lemma LoadedSourcesOpen(c: Config, parse: string -> Url, readable: string -> bool, i: nat)
    requires c.Loads(parse) && i < |c.adapters|
    ensures Opens(c.adapters[i], readable) <==> c.adapters[i].kind == "geotab" || readable(c.adapters[i].path)
  {
    var a := c.adapters[i];
    assert !c.Has(parse, InAdapter(i, NoAdapterName));
    assert !c.Has(parse, InAdapter(i, NoAdapterType)) && !c.Has(parse, InAdapter(i, UnknownAdapterType));
    assert a.kind == "file" || a.kind == "geotab";
    if a.kind == "geotab" {
      assert !c.Has(parse, InAdapter(i, NoDatabase)) && !c.Has(parse, InAdapter(i, NoSeed));
      assert !c.Has(parse, InAdapter(i, NoUsernameEnv)) && !c.Has(parse, InAdapter(i, NoUsername));
      assert !c.Has(parse, InAdapter(i, NoPasswordEnv)) && !c.Has(parse, InAdapter(i, NoPassword));
      assert !c.Has(parse, InAdapter(i, BadLimit));
    }
  }

  lemma LoadedOutputsConnect(c: Config, parse: string -> Url, i: nat)
    requires c.Loads(parse) && i < |c.outputs|
    ensures Connects(parse, c.outputs[i]) && c.outputs[i].name != ""
    ensures DestinationOf(c.outputs[i]).buffer > 0 && DestinationOf(c.outputs[i]).maxAttempts > 0
  {
    var o := c.outputs[i];
    assert !c.Has(parse, InOutput(i, NoOutputName)) && !c.Has(parse, InOutput(i, BadBuffer));
    assert !c.Has(parse, InOutput(i, NoOutputType)) && !c.Has(parse, InOutput(i, UnknownOutputType));
    assert o.kind == "stdout" || o.kind == "webhook";
    if o.kind == "webhook" {
      assert !c.Has(parse, InOutput(i, NoUrl)) && !c.Has(parse, InOutput(i, BadUrl));
      assert !c.Has(parse, InOutput(i, BadScheme)) && !c.Has(parse, InOutput(i, BadAttempts));
    }
  }

  /** A repeated name has a first appearance, so some problem says so. */
  lemma {:induction false} RepeatHasFirst(names: seq<string>, i: nat, j: nat)
    requires i < j < |names| && names[i] == names[j] && names[j] != ""
    ensures exists first :: Repeats(names, first, j)
  {
    if k :| 0 <= k < i && names[k] == names[j] {
      RepeatHasFirst(names, k, j);
    } else {
      assert Repeats(names, i, j);
    }
  }

  lemma LoadedNamesDiffer(c: Config, parse: string -> Url, i: nat, j: nat)
    requires c.Loads(parse) && i < j < |c.outputs|
    ensures c.outputs[i].name != c.outputs[j].name
  {
    LoadedOutputsConnect(c, parse, j);
    if c.outputs[i].name == c.outputs[j].name {
      RepeatHasFirst(OutputNames(c.outputs), i, j);
      var first :| Repeats(OutputNames(c.outputs), first, j);
      assert c.Has(parse, InOutput(j, DuplicateOutput(first)));
    }
  }

  /** Every name a rule of a loaded config routes to is an output's. */
  lemma LoadedRoutesExist(c: Config, parse: string -> Url, r: nat, name: string)
    requires c.Loads(parse) && r < |c.rules| && name in c.rules[r].route
    ensures exists o :: 0 <= o < |c.outputs| && c.outputs[o].name == name
  {
    assert !c.Has(parse, InRule(r, UnknownOutput(name)));
  }

  /** What the rest of the pipeline may take for granted about a loaded config:
      each target leads to an output, under a label, and outputs have names. */
  ghost predicate Wired(c: Setup) {
    && ValidSetup(c)
    && (forall d :: 0 <= d < |c.outputs| ==> c.outputs[d].name != "")
    && forall e, a :: 0 <= a < |Route(c.rules, e)| ==>
         Lookup(c.outputs, Route(c.rules, e)[a].output).Some? && Route(c.rules, e)[a].rule != ""
  }

  lemma {:induction false} ChosenAreLabelled(rules: seq<Rule>, e: Events.Event, n: nat)
    requires forall i :: 0 <= i < |rules| ==> rules[i].ruleLabel != ""
    requires n < |Chosen(rules, e)|
    ensures Chosen(rules, e)[n].rule != ""
    ensures exists i :: 0 <= i < |rules| && Chosen(rules, e)[n].output in rules[i].route
  {
    var front := rules[..|rules| - 1];
    if n < |Chosen(front, e)| {
      ChosenAreLabelled(front, e, n);
      var i :| 0 <= i < |front| && Chosen(front, e)[n].output in front[i].route;
      assert Chosen(rules, e)[n].output in rules[i].route;
    } else {
      assert Chosen(rules, e)[n].output in rules[|rules| - 1].route;
    }
  }

  /** rules are the config's, labelled again where the router found no label. */
  lemma LoadedConfigIsWired(c: Config, parse: string -> Url, s: Setup)
    requires c.Loads(parse) && ValidSetup(s) && |s.outputs| == |c.outputs| && |s.rules| == |c.rules|
    requires forall d :: 0 <= d < |s.outputs| ==> s.outputs[d].name == c.outputs[d].name
    requires forall r :: 0 <= r < |s.rules| ==> s.rules[r].route == c.rules[r].route && s.rules[r].ruleLabel != ""
    ensures Wired(s)
  {
    forall d | 0 <= d < |s.outputs| ensures s.outputs[d].name != "" {
      LoadedOutputsConnect(c, parse, d);
    }
    forall e, a | 0 <= a < |Route(s.rules, e)|
      ensures Lookup(s.outputs, Route(s.rules, e)[a].output).Some? && Route(s.rules, e)[a].rule != ""
    {
      var ts, t := Chosen(s.rules, e), Route(s.rules, e)[a];
      FirstPerOutputKeepsFirst(ts, a);
      ChosenAreLabelled(s.rules, e, FirstIndex(ts, t.output));
      var r :| 0 <= r < |s.rules| && t.output in s.rules[r].route;
      LoadedRoutesExist(c, parse, r, t.output);
      var o :| 0 <= o < |c.outputs| && c.outputs[o].name == t.output;
      assert s.outputs[o].name == t.output;
    }
  }

  /** The pipeline reads every adapter, writes to every output and routes by every rule
      of the config, in its order. Only a webhook is sent to more than once. */
  predicate Carries(adapters: seq<Adapter>, outputs: seq<Output>, rules: seq<Rule>, s: Setup) {
    && s.sources == AdapterNames(adapters)
    && |s.outputs| == |outputs|
    && (forall i :: 0 <= i < |outputs| ==>
          && s.outputs[i].name == outputs[i].name && s.outputs[i].buffer == outputs[i].buffer
          && s.outputs[i].maxAttempts == if outputs[i].kind == "webhook" then outputs[i].maxAttempts else 1)
    && s.rules == rules
  }

  datatype StartError = Invalid(problems: seq<Problem>) | StoreFails | SourceFails(index: nat)

  /** From a decoded config to a pipeline. Once validation passes, only a store or a
      file that cannot be opened stops it: the outputs connect and New accepts them.
      opens says whether store.Open succeeds on a path. */
  method Start(c: Config, parse: string -> Url, opens: string -> bool, readable: string -> bool)
    returns (r: Result<Setup, StartError>)
    modifies c
    ensures r.Err? && r.error.StoreFails? ==> c.Loads(parse) && !opens(c.store.path)
    // c is the given config with its omitted fields filled
    ensures |c.adapters| == |old(c.adapters)| && |c.outputs| == |old(c.outputs)| && |c.rules| == |old(c.rules)|
    ensures forall i :: 0 <= i < |c.adapters| ==> c.adapters[i] == DefaultAdapter(old(c.adapters)[i])
    ensures forall i :: 0 <= i < |c.outputs| ==> c.outputs[i] == DefaultOutput(old(c.outputs)[i])
    ensures forall i :: 0 <= i < |c.rules| ==>
      c.rules[i] == old(c.rules)[i].(ruleLabel := RuleLabel(old(c.rules)[i].name, i))
    ensures c.store == DefaultStore(old(c.store))
    // what it takes, and what the pipeline is then given
    ensures r.Ok? <==>
      && c.Loads(parse) && opens(c.store.path)
      && forall i :: 0 <= i < |c.adapters| && c.adapters[i].kind == "file" ==> readable(c.adapters[i].path)
    ensures r.Ok? ==> Wired(r.value) && Carries(c.adapters, c.outputs, c.rules, r.value)
    ensures r.Err? && r.error.Invalid? ==> r.error.problems != [] && forall p :: p in r.error.problems <==> c.Has(parse, p)
    ensures r.Err? && r.error.SourceFails? ==>
      && c.Loads(parse) && r.error.index < |c.adapters|
      && c.adapters[r.error.index].kind == "file" && !readable(c.adapters[r.error.index].path)
  {
    c.ApplyDefaults();
    var problems := c.Validate(parse);
    if problems != [] {
      assert problems[0] in problems;
      return Err(Invalid(problems));
    }
    if !opens(c.store.path) {
      return Err(StoreFails);
    }
    assert !c.Has(parse, NoAdapters) && !c.Has(parse, NoOutputs);
    var sources := BuildSources(c.adapters, readable);
    if sources.Err? {
      LoadedSourcesOpen(c, parse, readable, sources.error);
      assert !c.Has(parse, InAdapter(sources.error, NoAdapterType));
      assert !c.Has(parse, InAdapter(sources.error, UnknownAdapterType));
      return Err(SourceFails(sources.error));
    }
    forall i | 0 <= i < |c.outputs|
      ensures Connects(parse, c.outputs[i])
      ensures DestinationOf(c.outputs[i]).buffer > 0 && DestinationOf(c.outputs[i]).maxAttempts > 0
    {
      LoadedOutputsConnect(c, parse, i);
    }
    forall i, j | 0 <= i < j < |c.outputs| ensures c.outputs[i].name != c.outputs[j].name {
      LoadedNamesDiffer(c, parse, i, j);
    }
    var destinations := BuildDestinations(parse, c.outputs);
    var router := new Router(c.rules);
    var setup := New(sources.value, destinations.value, router.rules);
    LoadedConfigIsWired(c, parse, setup.value);
    assert setup.value.rules == c.rules;
    r := Ok(setup.value);
  }

  // ---- what that rules out at run time ----

  /** No event of a loaded config is ever audited as routed to an output that does
      not exist, and every row of a routed event names its rule. */
  lemma NoSuchOutputIsUnreachable(c: Setup, states: seq<State>, acts: seq<Action>, m: nat, n: nat)
    requires Wired(c) && IsRun(c, states, acts) && m < |states| && n < |states[m].audit|
    requires states[m].audit[n].Outcome?
    ensures !states[m].audit[n].row.cause.NoSuchOutput?
    ensures states[m].audit[n].row.cause.NoMatchingRule? || states[m].audit[n].row.rule != ""
  {
    Pipeline.RunInv(c, states, acts, m);
    Pipeline.EveryRowEarned(c, states, acts, m, n);
    var row := states[m].audit[n].row;
    assert Metrics.EntryOk(c, states[m].audit[n]);
    var ts := Route(c.rules, row.item.event);
    var us := Units(c, row.item);
    var j :| 0 <= j < |us| && us[j] == KeyOf(row);
    if ts != [] {
      assert us[j] == Key(row.item, ts[j].output, ts[j].rule);
    } else {
      assert row.output == "";
    }
  }

  /** For a loaded config an output's counter is exactly its number of rows. */
  lemma CountersAreExact(c: Setup, states: seq<State>, acts: seq<Action>, d: nat, status: Status)
    requires Wired(c) && IsRun(c, states, acts) && states[|acts|].returned && d < |c.outputs|
    ensures
      var s, k := states[|acts|], Sample(c.outputs[d].name, status);
      Metrics.RowsWith(s.audit, k) == Counter(s.counters, k)
  {
    Pipeline.CountersMatchRows(c, states, acts, d, status);
  }
}

/** internal/config: defaults and validation. Decoding the YAML, and reading the
    environment for secrets, happen before; the values found are fields here. */
module Config {
  import opened Basics
  import Durations
  import opened Routing

  // ---- the document ----

  /** A field that only some adapter types have. */
  datatype Field =
    | Strict | Path | Server | Database | UsernameEnv | PasswordEnv | SeedFrom | ResultsLimit | CacheRefresh

  /** seedFrom says only whether one is given. */
  datatype Adapter = Adapter(
    kind: string, name: string, pollInterval: int, path: string, strict: Option<bool>,
    server: string, database: string, usernameEnv: string, passwordEnv: string, username: string, password: string,
    seedFrom: bool, resultsLimit: int, cacheRefresh: int)

  /** What url.Parse makes of a string. */
  datatype Url = Unparsable | Parsed(scheme: string, host: string)

  datatype Output = Output(
    kind: string, name: string, buffer: int,
    url: string, secretEnv: string, secret: string, timeout: int, maxAttempts: int, backoff: string)

  /** auditRetention tells an absent value from an explicit zero. */
  datatype StoreSettings = StoreSettings(path: string, dedupeRetention: int, auditRetention: Option<int>)

  // ---- defaults ----

  const DEFAULT_POLL_INTERVAL: int := 5 * Durations.SECOND
  const DEFAULT_TIMEOUT: int := 10 * Durations.SECOND
  const DEFAULT_MAX_ATTEMPTS: int := 5
  const DEFAULT_BUFFER: int := 256
  const DEFAULT_STORE_PATH := "./fleetnorm.db"
  const DEFAULT_DEDUPE_RETENTION: int := 7 * 24 * 3600 * Durations.SECOND
  const DEFAULT_AUDIT_RETENTION: int := 90 * 24 * 3600 * Durations.SECOND
  const DEFAULT_SERVER_ADDR := ":8080"
  const BACKOFF_EXPONENTIAL := "exponential"
  const DEFAULT_GEOTAB_SERVER := "my.geotab.com"
  const DEFAULT_RESULTS_LIMIT: int := 10000
  const MAX_RESULTS_LIMIT: int := 50000
  const DEFAULT_CACHE_REFRESH: int := 3600 * Durations.SECOND
  const MIN_GEOTAB_INTERVAL: int := Durations.SECOND

  function OrElse(n: int, fallback: int): int {
    if n == 0 then fallback else n
  }

  function TextOrElse(s: string, fallback: string): string {
    if s == "" then fallback else s
  }

  /** Field by field: what is left out falls back, if the field is that kind's. */
  function DefaultAdapter(a: Adapter): Adapter {
    var geotab := a.kind == "geotab";
    a.(pollInterval := OrElse(a.pollInterval, DEFAULT_POLL_INTERVAL),
       strict := if a.kind == "file" && a.strict.None? then Some(true) else a.strict,
       server := TextOrElse(a.server, if geotab then DEFAULT_GEOTAB_SERVER else ""),
       resultsLimit := OrElse(a.resultsLimit, if geotab then DEFAULT_RESULTS_LIMIT else 0),
       cacheRefresh := OrElse(a.cacheRefresh, if geotab then DEFAULT_CACHE_REFRESH else 0))
  }

  function DefaultOutput(o: Output): Output {
    var webhook := o.kind == "webhook";
    o.(buffer := OrElse(o.buffer, DEFAULT_BUFFER),
       timeout := OrElse(o.timeout, if webhook then DEFAULT_TIMEOUT else 0),
       maxAttempts := OrElse(o.maxAttempts, if webhook then DEFAULT_MAX_ATTEMPTS else 0),
       backoff := TextOrElse(o.backoff, if webhook then BACKOFF_EXPONENTIAL else ""))
  }

  function DefaultStore(s: StoreSettings): StoreSettings {
    StoreSettings(
      TextOrElse(s.path, DEFAULT_STORE_PATH),
      OrElse(s.dedupeRetention, DEFAULT_DEDUPE_RETENTION),
      if s.auditRetention.None? then Some(DEFAULT_AUDIT_RETENTION) else s.auditRetention)
  }

  method FillAdapter(given: Adapter) returns (a: Adapter)
    ensures a == DefaultAdapter(given)
  {
    a := given;
    if a.pollInterval == 0 {
      a := a.(pollInterval := DEFAULT_POLL_INTERVAL);
    }
    if a.kind == "file" && a.strict.None? {
      a := a.(strict := Some(true));
    }
    if a.kind != "geotab" {
      return;
    }
    if a.server == "" {
      a := a.(server := DEFAULT_GEOTAB_SERVER);
    }
    if a.resultsLimit == 0 {
      a := a.(resultsLimit := DEFAULT_RESULTS_LIMIT);
    }
    if a.cacheRefresh == 0 {
      a := a.(cacheRefresh := DEFAULT_CACHE_REFRESH);
    }
  }

  method FillOutput(given: Output) returns (o: Output)
    ensures o == DefaultOutput(given)
  {
    o := given;
    if o.buffer == 0 {
      o := o.(buffer := DEFAULT_BUFFER);
    }
    if o.kind != "webhook" {
      return;
    }
    if o.timeout == 0 {
      o := o.(timeout := DEFAULT_TIMEOUT);
    }
    if o.maxAttempts == 0 {
      o := o.(maxAttempts := DEFAULT_MAX_ATTEMPTS);
    }
    if o.backoff == "" {
      o := o.(backoff := BACKOFF_EXPONENTIAL);
    }
  }

  method FillStore(given: StoreSettings) returns (s: StoreSettings)
    ensures s == DefaultStore(given)
  {
    s := given;
    if s.path == "" {
      s := s.(path := DEFAULT_STORE_PATH);
    }
    if s.dedupeRetention == 0 {
      s := s.(dedupeRetention := DEFAULT_DEDUPE_RETENTION);
    }
    if s.auditRetention.None? {
      s := s.(auditRetention := Some(DEFAULT_AUDIT_RETENTION));
    }
  }

  // ---- what can be wrong ----

  datatype AdapterFault =
    | NoAdapterName | DuplicateAdapter(first: nat) | BadInterval
    | NoAdapterType | UnknownAdapterType | NoPath
    | NoDatabase | NoUsernameEnv | NoPasswordEnv | NoUsername | NoPassword | NoSeed | BadLimit | BadRefresh | TooOften
    | Misplaced(field: Field)

  datatype OutputFault =
    | NoOutputName | DuplicateOutput(first: nat) | BadBuffer
    | NoOutputType | UnknownOutputType
    | StrayUrl | StraySecret | StrayTimeout | StrayRetry
    | NoUrl | BadUrl | BadScheme | NoHost | NoSecret | BadTimeout | BadAttempts | BadBackoff

  datatype RuleFault =
    | NoRoute | UnknownOutput(name: string)
    | UnknownSeverity(severity: string) | UnknownSourceType | BadFmi | EmptyTagKey

  datatype Problem =
    | NoAdapters | NoOutputs | NoRules
    | InAdapter(a: nat, inAdapter: AdapterFault)
    | InOutput(o: nat, inOutput: OutputFault)
    | InRule(r: nat, inRule: RuleFault)
    | NoStorePath | BadDedupeRetention | BadAuditRetention | NoServerAddr

  predicate IsSet(a: Adapter, f: Field) {
    match f
    case Strict => a.strict.Some?
    case Path => a.path != ""
    case Server => a.server != ""
    case Database => a.database != ""
    case UsernameEnv => a.usernameEnv != ""
    case PasswordEnv => a.passwordEnv != ""
    case SeedFrom => a.seedFrom
    case ResultsLimit => a.resultsLimit != 0
    case CacheRefresh => a.cacheRefresh != 0
  }

  /** The adapter type a field belongs to. */
  function Home(f: Field): string {
    if f.Strict? || f.Path? then "file" else "geotab"
  }

  /** Faults an adapter has on its own, whatever the others are called. */
  predicate AdapterHas(a: Adapter, f: AdapterFault) {
    match f
    case NoAdapterName => a.name == ""
    case DuplicateAdapter(_) => false
    case BadInterval => a.pollInterval <= 0
    case NoAdapterType => a.kind == ""
    case UnknownAdapterType => a.kind !in ["", "file", "geotab"]
    case NoPath => a.kind == "file" && a.path == ""
    case Misplaced(field) => IsSet(a, field) && a.kind != Home(field)
    case _ => a.kind == "geotab" && GeotabHas(a, f)
  }

  predicate CredentialsHave(a: Adapter, f: AdapterFault) {
    match f
    case NoUsernameEnv => a.usernameEnv == ""
    case NoPasswordEnv => a.passwordEnv == ""
    case NoUsername => a.usernameEnv != "" && a.username == ""
    case NoPassword => a.passwordEnv != "" && a.password == ""
    case _ => false
  }

  predicate GeotabHas(a: Adapter, f: AdapterFault) {
    match f
    case NoDatabase => a.database == ""
    case NoSeed => !a.seedFrom
    case BadLimit => a.resultsLimit < 0 || a.resultsLimit > MAX_RESULTS_LIMIT
    case BadRefresh => a.cacheRefresh <= 0
    case TooOften => 0 < a.pollInterval < MIN_GEOTAB_INTERVAL
    case _ => CredentialsHave(a, f)
  }

  predicate StdoutHas(o: Output, f: OutputFault) {
    match f
    case StrayUrl => o.url != ""
    case StraySecret => o.secretEnv != ""
    case StrayTimeout => o.timeout != 0
    case StrayRetry => o.maxAttempts != 0 || o.backoff != ""
    case _ => false
  }

  /** The first thing wrong with a url. */
  predicate UrlHas(url: string, u: Url, f: OutputFault) {
    match f
    case NoUrl => url == ""
    case BadUrl => url != "" && u.Unparsable?
    case BadScheme => url != "" && u.Parsed? && u.scheme !in ["http", "https"]
    case NoHost => url != "" && u.Parsed? && u.scheme in ["http", "https"] && u.host == ""
    case _ => false
  }

  /** That, and everything wrong with the rest. */
  predicate WebhookHas(parse: string -> Url, o: Output, f: OutputFault) {
    match f
    case NoSecret => o.secretEnv != "" && o.secret == ""
    case BadTimeout => o.timeout <= 0
    case BadAttempts => o.maxAttempts < 1
    case BadBackoff => o.backoff != BACKOFF_EXPONENTIAL
    case _ => UrlHas(o.url, parse(o.url), f)
  }

  predicate OutputHas(parse: string -> Url, o: Output, f: OutputFault) {
    match f
    case NoOutputName => o.name == ""
    case DuplicateOutput(_) => false
    case BadBuffer => o.buffer <= 0
    case NoOutputType => o.kind == ""
    case UnknownOutputType => o.kind !in ["", "stdout", "webhook"]
    case _ => (o.kind == "stdout" && StdoutHas(o, f)) || (o.kind == "webhook" && WebhookHas(parse, o, f))
  }

  const SEVERITIES: seq<string> := ["info", "low", "medium", "high", "critical"]
  const SOURCE_TYPES: seq<string> := ["oem", "tsp", "file"]

  predicate MatchHas(m: Match, f: RuleFault) {
    match f
    case UnknownSeverity(s) => s in m.severity && s !in SEVERITIES
    case UnknownSourceType => m.sourceType != "" && m.sourceType !in SOURCE_TYPES
    case BadFmi => m.fmi.Some? && !(0 <= m.fmi.value <= 31)
    case EmptyTagKey => "" in m.tags
    case _ => false
  }

  predicate RuleHas(outputs: seq<Output>, r: Rule, f: RuleFault) {
    match f
    case NoRoute => r.route == []
    case UnknownOutput(name) => name in r.route && (name == "" || !exists o :: 0 <= o < |outputs| && outputs[o].name == name)
    case _ => MatchHas(r.condition, f)
  }

  /** names[first] is the first of its name, and i repeats it. */
  predicate Repeats(names: seq<string>, first: nat, i: nat) {
    && first < i < |names| && names[i] != "" && names[first] == names[i]
    && forall j :: 0 <= j < first ==> names[j] != names[i]
  }

  // ---- checking one item ----

  method CheckCredentials(a: Adapter) returns (faults: seq<AdapterFault>)
    ensures forall f :: f in faults <==> CredentialsHave(a, f)
  {
    faults := [];
    if a.usernameEnv == "" {
      faults := faults + [NoUsernameEnv];
    } else if a.username == "" {
      faults := faults + [NoUsername];
    }
    if a.passwordEnv == "" {
      faults := faults + [NoPasswordEnv];
    } else if a.password == "" {
      faults := faults + [NoPassword];
    }
  }

  method CheckGeotab(a: Adapter) returns (faults: seq<AdapterFault>)
    ensures forall f :: f in faults <==> GeotabHas(a, f)
  {
    faults := [];
    if a.database == "" {
      faults := faults + [NoDatabase];
    }
    var credentials := CheckCredentials(a);
    faults := faults + credentials;
    if !a.seedFrom {
      faults := faults + [NoSeed];
    }
    if a.resultsLimit < 0 || a.resultsLimit > MAX_RESULTS_LIMIT {
      faults := faults + [BadLimit];
    }
    if a.cacheRefresh <= 0 {
      faults := faults + [BadRefresh];
    }
    if a.pollInterval > 0 && a.pollInterval < MIN_GEOTAB_INTERVAL {
      faults := faults + [TooOften];
    }
  }

  const FIELDS: set<Field> :=
    {Strict, Path, Server, Database, UsernameEnv, PasswordEnv, SeedFrom, ResultsLimit, CacheRefresh}

  /** Fields under the wrong kind of adapter, in no particular order. */
  method CheckMisplaced(a: Adapter) returns (faults: seq<AdapterFault>)
    ensures forall f :: f in faults <==> f.Misplaced? && IsSet(a, f.field) && a.kind != Home(f.field)
  {
    faults := [];
    var rest := FIELDS;
    while rest != {}
      invariant forall f :: f in faults <==> f.Misplaced? && f.field !in rest && IsSet(a, f.field) && a.kind != Home(f.field)
      decreases |rest|
    {
      var field :| field in rest;
      rest := rest - {field};
      if IsSet(a, field) && a.kind != Home(field) {
        faults := faults + [Misplaced(field)];
      }
    }
  }

  /** Everything but the name. */
  method CheckAdapter(a: Adapter) returns (faults: seq<AdapterFault>)
    ensures forall f :: f in faults <==> !f.NoAdapterName? && AdapterHas(a, f)
  {
    faults := [];
    if a.pollInterval <= 0 {
      faults := faults + [BadInterval];
    }
    if a.kind == "file" {
      if a.path == "" {
        faults := faults + [NoPath];
      }
    } else if a.kind == "geotab" {
      var more := CheckGeotab(a);
      faults := faults + more;
    } else if a.kind == "" {
      faults := faults + [NoAdapterType];
    } else {
      faults := faults + [UnknownAdapterType];
    }
    var misplaced := CheckMisplaced(a);
    faults := faults + misplaced;
  }

  method CheckStdout(o: Output) returns (faults: seq<OutputFault>)
    ensures forall f :: f in faults <==> StdoutHas(o, f)
  {
    faults := [];
    if o.url != "" {
      faults := faults + [StrayUrl];
    }
    if o.secretEnv != "" {
      faults := faults + [StraySecret];
    }
    if o.timeout != 0 {
      faults := faults + [StrayTimeout];
    }
    if o.maxAttempts != 0 || o.backoff != "" {
      faults := faults + [StrayRetry];
    }
  }

  method CheckUrl(url: string, u: Url) returns (faults: seq<OutputFault>)
    ensures forall f :: f in faults <==> UrlHas(url, u, f)
  {
    faults := [];
    if url == "" {
      faults := [NoUrl];
    } else if u.Unparsable? {
      faults := [BadUrl];
    } else if u.scheme !in ["http", "https"] {
      faults := [BadScheme];
    } else if u.host == "" {
      faults := [NoHost];
    }
  }

  method CheckWebhook(parse: string -> Url, o: Output) returns (faults: seq<OutputFault>)
    ensures forall f :: f in faults <==> WebhookHas(parse, o, f)
  {
    faults := CheckUrl(o.url, parse(o.url));
    if o.secretEnv != "" && o.secret == "" {
      faults := faults + [NoSecret];
    }
    if o.timeout <= 0 {
      faults := faults + [BadTimeout];
    }
    if o.maxAttempts < 1 {
      faults := faults + [BadAttempts];
    }
    if o.backoff != BACKOFF_EXPONENTIAL {
      faults := faults + [BadBackoff];
    }
  }

  /** Everything but the name. */
  method CheckOutput(parse: string -> Url, o: Output) returns (faults: seq<OutputFault>)
    ensures forall f :: f in faults <==> !f.NoOutputName? && OutputHas(parse, o, f)
  {
    faults := [];
    if o.buffer <= 0 {
      faults := faults + [BadBuffer];
    }
    if o.kind == "stdout" {
      var more := CheckStdout(o);
      faults := faults + more;
    } else if o.kind == "webhook" {
      var more := CheckWebhook(parse, o);
      faults := faults + more;
    } else if o.kind == "" {
      faults := faults + [NoOutputType];
    } else {
      faults := faults + [UnknownOutputType];
    }
  }

  method CheckMatch(m: Match) returns (faults: seq<RuleFault>)
    ensures forall f :: f in faults <==> MatchHas(m, f)
  {
    faults := [];
    var i := 0;
    while i < |m.severity|
      invariant 0 <= i <= |m.severity|
      invariant forall f :: f in faults <==> f.UnknownSeverity? && f.severity in m.severity[..i] && f.severity !in SEVERITIES
    {
      assert m.severity[..i + 1] == m.severity[..i] + [m.severity[i]];
      if m.severity[i] !in SEVERITIES {
        faults := faults + [UnknownSeverity(m.severity[i])];
      }
      i := i + 1;
    }
    assert m.severity[..i] == m.severity;
    if m.sourceType != "" && m.sourceType !in SOURCE_TYPES {
      faults := faults + [UnknownSourceType];
    }
    if m.fmi.Some? && (m.fmi.value < 0 || m.fmi.value > 31) {
      faults := faults + [BadFmi];
    }
    if "" in m.tags {
      faults := faults + [EmptyTagKey];
    }
  }

  // ---- names ----

  datatype Verdict = Fresh | Missing | Repeated(first: nat)

  /** seen maps each non-empty name among the first n to where it first appeared. */
  ghost predicate Noted(names: seq<string>, n: nat, seen: map<string, nat>) {
    && n <= |names|
    && (forall name :: name in seen ==> name != "" && seen[name] < n && names[seen[name]] == name)
    && (forall j :: 0 <= j < n && names[j] != "" ==> names[j] in seen && seen[names[j]] <= j)
  }

  method NoteName(ghost names: seq<string>, seen: map<string, nat>, name: string, i: nat)
    returns (verdict: Verdict, seen': map<string, nat>)
    requires Noted(names, i, seen) && i < |names| && names[i] == name
    ensures Noted(names, i + 1, seen')
    ensures verdict.Missing? <==> name == ""
    ensures forall first :: verdict == Repeated(first) <==> Repeats(names, first, i)
  {
    seen' := seen;
    if name == "" {
      verdict := Missing;
    } else if name in seen {
      verdict := Repeated(seen[name]);
    } else {
      verdict := Fresh;
      seen' := seen[name := i];
    }
  }

  function AdapterNames(adapters: seq<Adapter>): (names: seq<string>)
    ensures |names| == |adapters| && forall i :: 0 <= i < |names| ==> names[i] == adapters[i].name
  {
    seq(|adapters|, i requires 0 <= i < |adapters| => adapters[i].name)
  }

  function OutputNames(outputs: seq<Output>): (names: seq<string>)
    ensures |names| == |outputs| && forall i :: 0 <= i < |names| ==> names[i] == outputs[i].name
  {
    seq(|outputs|, i requires 0 <= i < |outputs| => outputs[i].name)
  }

  // ---- checking the lists ----

  predicate AdapterProblem(adapters: seq<Adapter>, p: Problem) {
    && p.InAdapter? && p.a < |adapters|
    && (AdapterHas(adapters[p.a], p.inAdapter)
        || (p.inAdapter.DuplicateAdapter? && Repeats(AdapterNames(adapters), p.inAdapter.first, p.a)))
  }

  predicate OutputProblem(parse: string -> Url, outputs: seq<Output>, p: Problem) {
    && p.InOutput? && p.o < |outputs|
    && (OutputHas(parse, outputs[p.o], p.inOutput)
        || (p.inOutput.DuplicateOutput? && Repeats(OutputNames(outputs), p.inOutput.first, p.o)))
  }

  predicate RuleProblem(outputs: seq<Output>, rules: seq<Rule>, p: Problem) {
    p.InRule? && p.r < |rules| && RuleHas(outputs, rules[p.r], p.inRule)
  }

  function AdapterProblems(i: nat, faults: seq<AdapterFault>): (ps: seq<Problem>)
    ensures forall p :: p in ps <==> p.InAdapter? && p.a == i && p.inAdapter in faults
  {
    if faults == [] then []
    else
      assert forall f :: f in faults <==> f in faults[..|faults| - 1] || f == faults[|faults| - 1];
      AdapterProblems(i, faults[..|faults| - 1]) + [InAdapter(i, faults[|faults| - 1])]
  }

  function OutputProblems(i: nat, faults: seq<OutputFault>): (ps: seq<Problem>)
    ensures forall p :: p in ps <==> p.InOutput? && p.o == i && p.inOutput in faults
  {
    if faults == [] then []
    else
      assert forall f :: f in faults <==> f in faults[..|faults| - 1] || f == faults[|faults| - 1];
      OutputProblems(i, faults[..|faults| - 1]) + [InOutput(i, faults[|faults| - 1])]
  }

  function RuleProblems(i: nat, faults: seq<RuleFault>): (ps: seq<Problem>)
    ensures forall p :: p in ps <==> p.InRule? && p.r == i && p.inRule in faults
  {
    if faults == [] then []
    else
      assert forall f :: f in faults <==> f in faults[..|faults| - 1] || f == faults[|faults| - 1];
      RuleProblems(i, faults[..|faults| - 1]) + [InRule(i, faults[|faults| - 1])]
  }

  method CheckAdapters(adapters: seq<Adapter>) returns (errs: seq<Problem>)
    ensures forall p :: p in errs <==> AdapterProblem(adapters, p)
  {
    errs := [];
    ghost var names := AdapterNames(adapters);
    var seen: map<string, nat> := map[];
    var i := 0;
    while i < |adapters|
      invariant 0 <= i <= |adapters| && Noted(names, i, seen)
      invariant forall p :: p in errs <==> AdapterProblem(adapters, p) && p.a < i
    {
      var verdict, faults;
      verdict, seen := NoteName(names, seen, adapters[i].name, i);
      faults := CheckAdapter(adapters[i]);
      if verdict.Missing? {
        faults := [NoAdapterName] + faults;
      } else if verdict.Repeated? {
        faults := [DuplicateAdapter(verdict.first)] + faults;
      }
      assert forall f :: f in faults <==>
        AdapterHas(adapters[i], f) || (f.DuplicateAdapter? && Repeats(names, f.first, i));
      errs := errs + AdapterProblems(i, faults);
      i := i + 1;
    }
  }

  method CheckOutputs(parse: string -> Url, outputs: seq<Output>) returns (errs: seq<Problem>, seen: map<string, nat>)
    ensures forall p :: p in errs <==> OutputProblem(parse, outputs, p)
    ensures Noted(OutputNames(outputs), |outputs|, seen)
  {
    errs, seen := [], map[];
    ghost var names := OutputNames(outputs);
    var i := 0;
    while i < |outputs|
      invariant 0 <= i <= |outputs| && Noted(names, i, seen)
      invariant forall p :: p in errs <==> OutputProblem(parse, outputs, p) && p.o < i
    {
      var verdict, faults;
      verdict, seen := NoteName(names, seen, outputs[i].name, i);
      faults := CheckOutput(parse, outputs[i]);
      if verdict.Missing? {
        faults := [NoOutputName] + faults;
      } else if verdict.Repeated? {
        faults := [DuplicateOutput(verdict.first)] + faults;
      }
      assert forall f :: f in faults <==>
        OutputHas(parse, outputs[i], f) || (f.DuplicateOutput? && Repeats(names, f.first, i));
      errs := errs + OutputProblems(i, faults);
      i := i + 1;
    }
  }

  method CheckRule(outputs: seq<Output>, seen: map<string, nat>, r: Rule) returns (faults: seq<RuleFault>)
    requires Noted(OutputNames(outputs), |outputs|, seen)
    ensures forall f :: f in faults <==> RuleHas(outputs, r, f)
  {
    faults := if r.route == [] then [NoRoute] else [];
    var i := 0;
    while i < |r.route|
      invariant 0 <= i <= |r.route|
      invariant forall f :: f in faults <==>
        (f.NoRoute? && r.route == []) || (f.UnknownOutput? && f.name in r.route[..i] && f.name !in seen)
    {
      assert r.route[..i + 1] == r.route[..i] + [r.route[i]];
      if r.route[i] !in seen {
        faults := faults + [UnknownOutput(r.route[i])];
      }
      i := i + 1;
    }
    assert r.route[..i] == r.route;
    var more := CheckMatch(r.condition);
    faults := faults + more;
    forall name ensures name !in seen <==> name == "" || !exists o :: 0 <= o < |outputs| && outputs[o].name == name {
      if o :| 0 <= o < |outputs| && outputs[o].name == name {
        assert OutputNames(outputs)[o] == name;
      }
      if name in seen {
        assert outputs[seen[name]].name == name;
      }
    }
  }

  method CheckRules(outputs: seq<Output>, seen: map<string, nat>, rules: seq<Rule>) returns (errs: seq<Problem>)
    requires Noted(OutputNames(outputs), |outputs|, seen)
    ensures forall p :: p in errs <==> RuleProblem(outputs, rules, p)
  {
    errs := [];
    var i := 0;
    while i < |rules|
      invariant 0 <= i <= |rules|
      invariant forall p :: p in errs <==> RuleProblem(outputs, rules, p) && p.r < i
    {
      var faults := CheckRule(outputs, seen, rules[i]);
      errs := errs + RuleProblems(i, faults);
      i := i + 1;
    }
  }

  // ---- the config ----

  class Config {
    var adapters: seq<Adapter>
    var outputs: seq<Output>
    var rules: seq<Rule>
    var store: StoreSettings
    var serverAddr: string

    constructor (adapters: seq<Adapter>, outputs: seq<Output>, rules: seq<Rule>, store: StoreSettings, serverAddr: string)
      ensures this.adapters == adapters && this.outputs == outputs && this.rules == rules
      ensures this.store == store && this.serverAddr == serverAddr
    {
      this.adapters, this.outputs, this.rules, this.store, this.serverAddr := adapters, outputs, rules, store, serverAddr;
    }

    method ApplyDefaults()
      modifies this
      ensures |adapters| == |old(adapters)| && |outputs| == |old(outputs)| && |rules| == |old(rules)|
      ensures forall i :: 0 <= i < |adapters| ==> adapters[i] == DefaultAdapter(old(adapters)[i])
      ensures forall i :: 0 <= i < |outputs| ==> outputs[i] == DefaultOutput(old(outputs)[i])
      ensures forall i :: 0 <= i < |rules| ==>
        rules[i] == old(rules)[i].(ruleLabel := RuleLabel(old(rules)[i].name, i)) && rules[i].ruleLabel != ""
      ensures store == DefaultStore(old(store))
      ensures serverAddr == if old(serverAddr) == "" then DEFAULT_SERVER_ADDR else old(serverAddr)
    {
      var i := 0;
      while i < |adapters|
        invariant 0 <= i <= |adapters| == |old(adapters)|
        invariant forall j :: 0 <= j < |adapters| ==>
          adapters[j] == if j < i then DefaultAdapter(old(adapters)[j]) else old(adapters)[j]
        modifies `adapters
      {
        var a := FillAdapter(adapters[i]);
        adapters := adapters[i := a];
        i := i + 1;
      }
      i := 0;
      while i < |outputs|
        invariant 0 <= i <= |outputs| == |old(outputs)|
        invariant forall j :: 0 <= j < |outputs| ==>
          outputs[j] == if j < i then DefaultOutput(old(outputs)[j]) else old(outputs)[j]
        modifies `outputs
      {
        var o := FillOutput(outputs[i]);
        outputs := outputs[i := o];
        i := i + 1;
      }
      i := 0;
      while i < |rules|
        invariant 0 <= i <= |rules| == |old(rules)|
        invariant forall j :: 0 <= j < |rules| ==>
          rules[j] == if j < i then old(rules)[j].(ruleLabel := RuleLabel(old(rules)[j].name, j)) else old(rules)[j]
        modifies `rules
      {
        rules := rules[i := rules[i].(ruleLabel := RuleLabel(rules[i].name, i))];
        i := i + 1;
      }
      store := FillStore(store);
      if serverAddr == "" {
        serverAddr := DEFAULT_SERVER_ADDR;
      }
    }

    /** Everything that is wrong with the config. */
    predicate Has(parse: string -> Url, p: Problem)
      reads this
    {
      match p
      case NoAdapters => adapters == []
      case NoOutputs => outputs == []
      case NoRules => rules == []
      case InAdapter(_, _) => AdapterProblem(adapters, p)
      case InOutput(_, _) => OutputProblem(parse, outputs, p)
      case InRule(_, _) => RuleProblem(outputs, rules, p)
      case NoStorePath => store.path == ""
      case BadDedupeRetention => store.dedupeRetention <= 0
      case BadAuditRetention => store.auditRetention.Some? && store.auditRetention.value < 0
      case NoServerAddr => serverAddr == ""
    }

    /** Validate has nothing to say. */
    ghost predicate Loads(parse: string -> Url)
      reads this
    {
      forall p :: !Has(parse, p)
    }

    /** One run reports every problem there is, and nothing else. */
    method Validate(parse: string -> Url) returns (errs: seq<Problem>)
      ensures forall p :: p in errs <==> Has(parse, p)
    {
      errs := if adapters == [] then [NoAdapters] else [];
      var found := CheckAdapters(adapters);
      errs := errs + found;
      if outputs == [] {
        errs := errs + [NoOutputs];
      }
      var seen;
      found, seen := CheckOutputs(parse, outputs);
      errs := errs + found;
      if rules == [] {
        errs := errs + [NoRules];
      }
      found := CheckRules(outputs, seen, rules);
      errs := errs + found;
      found := CheckSettings();
      errs := errs + found;
    }

    method CheckSettings() returns (errs: seq<Problem>)
      ensures forall p :: p in errs <==>
        (p.NoStorePath? || p.BadDedupeRetention? || p.BadAuditRetention? || p.NoServerAddr?) && Has(_ => Unparsable, p)
    {
      errs := if store.path == "" then [NoStorePath] else [];
      if store.dedupeRetention <= 0 {
        errs := errs + [BadDedupeRetention];
      }
      if store.auditRetention.Some? && store.auditRetention.value < 0 {
        errs := errs + [BadAuditRetention];
      }
      if serverAddr == "" {
        errs := errs + [NoServerAddr];
      }
    }
  }

  /** Defaults are settled after one pass, and an explicit zero audit retention,
      which means never sweep, survives it. */
  lemma DefaultsSettle(a: Adapter, o: Output, s: StoreSettings)
    ensures DefaultAdapter(DefaultAdapter(a)) == DefaultAdapter(a)
    ensures DefaultOutput(DefaultOutput(o)) == DefaultOutput(o)
    ensures DefaultStore(DefaultStore(s)) == DefaultStore(s)
    ensures s.auditRetention == Some(0) ==> DefaultStore(s).auditRetention == Some(0)
  {
  }

  /** Whatever was given is kept. */
  lemma GivenIsKept(a: Adapter, o: Output, s: StoreSettings)
    ensures a.pollInterval != 0 ==> DefaultAdapter(a).pollInterval == a.pollInterval
    ensures a.strict.Some? ==> DefaultAdapter(a).strict == a.strict
    ensures a.server != "" ==> DefaultAdapter(a).server == a.server
    ensures a.resultsLimit != 0 ==> DefaultAdapter(a).resultsLimit == a.resultsLimit
    ensures a.cacheRefresh != 0 ==> DefaultAdapter(a).cacheRefresh == a.cacheRefresh
    ensures o.buffer != 0 ==> DefaultOutput(o).buffer == o.buffer
    ensures o.timeout != 0 ==> DefaultOutput(o).timeout == o.timeout
    ensures o.maxAttempts != 0 ==> DefaultOutput(o).maxAttempts == o.maxAttempts
    ensures o.backoff != "" ==> DefaultOutput(o).backoff == o.backoff
    ensures s.path != "" ==> DefaultStore(s).path == s.path
    ensures s.dedupeRetention != 0 ==> DefaultStore(s).dedupeRetention == s.dedupeRetention
    ensures s.auditRetention.Some? ==> DefaultStore(s).auditRetention == s.auditRetention
  {
  }

  /** Whatever was left out gets the documented value, where its kind has one. */
  lemma OmittedFalls(a: Adapter, o: Output, s: StoreSettings)
    ensures DefaultAdapter(a).pollInterval != 0 && DefaultOutput(o).buffer != 0
    ensures a.kind == "file" && a.strict.None? ==> DefaultAdapter(a).strict == Some(true)
    ensures a.kind == "geotab" ==>
      && (a.server == "" ==> DefaultAdapter(a).server == "my.geotab.com")
      && (a.resultsLimit == 0 ==> DefaultAdapter(a).resultsLimit == 10000)
      && (a.cacheRefresh == 0 ==> DefaultAdapter(a).cacheRefresh == 60 * Durations.MINUTE)
    ensures a.kind != "geotab" ==>
      && DefaultAdapter(a).server == a.server && DefaultAdapter(a).resultsLimit == a.resultsLimit
      && DefaultAdapter(a).cacheRefresh == a.cacheRefresh
    ensures a.pollInterval == 0 ==> DefaultAdapter(a).pollInterval == 5 * Durations.SECOND
    ensures o.buffer == 0 ==> DefaultOutput(o).buffer == 256
    ensures o.kind == "webhook" ==>
      && (o.timeout == 0 ==> DefaultOutput(o).timeout == 10 * Durations.SECOND)
      && (o.maxAttempts == 0 ==> DefaultOutput(o).maxAttempts == 5)
      && (o.backoff == "" ==> DefaultOutput(o).backoff == "exponential")
    ensures o.kind != "webhook" ==>
      DefaultOutput(o).timeout == o.timeout && DefaultOutput(o).maxAttempts == o.maxAttempts && DefaultOutput(o).backoff == o.backoff
    ensures s.path == "" ==> DefaultStore(s).path == "./fleetnorm.db"
    ensures s.dedupeRetention == 0 ==> DefaultStore(s).dedupeRetention == 7 * 24 * 60 * Durations.MINUTE
    ensures s.auditRetention.None? ==> DefaultStore(s).auditRetention == Some(90 * 24 * 60 * Durations.MINUTE)
  {
  }
}

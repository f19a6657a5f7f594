/** normalize in internal/adapter/geotab/geotab.go: one fault record, with whatever
    its references resolved to, becomes an event. */
module Faults {
  import opened Basics
  import opened Sentinels
  import opened TagLists
  import opened Cache

  datatype Severity = Info | Low | Medium | High | Critical

  /** The fields normalize decides by. hash stands for contentHash of the record. */
  datatype FaultData = FaultData(
    id: string, version: string, hash: string, severity: string,
    redStop: Option<bool>, amber: Option<bool>, malfunction: Option<bool>, protect: Option<bool>,
    diagnostic: string, failureMode: string, controller: string, device: string)

  /** The tags it writes, other than those that copy one field verbatim. */
  datatype Tag =
    | SourceId | Version | EventIdSource
    | SeverityAbsent | SeverityDerived | SeverityRaw
    | DiagnosticCode | DiagnosticType | DiagnosticStandard
    | FailureModeCode | ControllerName | VinFallback
    | Unresolved | SentinelUnknown | SpnOutOfRange

  datatype Normalized = Normalized(
    id: string, vin: string, unitId: string, severity: Severity,
    spn: Option<int>, fmi: Option<int>, tags: map<Tag, string>)

  const DIAGNOSTIC_SPN := "SuspectParameter"
  const MAX_SPN: int := 524_287

  function Ref(fd: FaultData, site: Site): string {
    match site
    case Diagnostic => fd.diagnostic
    case FailureMode => fd.failureMode
    case Controller => fd.controller
    case Device => fd.device
  }

  /** The name FaultData gives the reference. */
  function Property(site: Site): string {
    match site
    case Diagnostic => "diagnostic"
    case FailureMode => "failureMode"
    case Controller => "controller"
    case Device => "device"
  }

  // ---- looking a reference up ----

  type Answers = map<Site, map<string, Entity>>

  /** A reference worth asking the resolver about. */
  predicate Resolvable(site: Site, id: string) {
    id != "" && SentinelAt(site, id) == NotSentinel
  }

  /** What the resolver said about a reference, if it was worth asking. */
  function Found(answers: Answers, site: Site, id: string): Option<Entity> {
    if Resolvable(site, id) && site in answers && id in answers[site] then Some(answers[site][id]) else None
  }

  /** missing: worth asking about and not answered. */
  datatype Seen = Seen(id: string, found: Option<Entity>, missing: bool, kind: SentinelKind)

  function See(answers: Answers, site: Site, id: string): Seen {
    var found := Found(answers, site, id);
    Seen(id, found, Resolvable(site, id) && found.None?, SentinelAt(site, id))
  }

  /** The four references of one record. */
  datatype Lookups = Lookups(d: Seen, f: Seen, c: Seen, dev: Seen)

  function SeeAll(fd: FaultData, answers: Answers): Lookups {
    Lookups(See(answers, Diagnostic, fd.diagnostic), See(answers, FailureMode, fd.failureMode),
            See(answers, Controller, fd.controller), See(answers, Device, fd.device))
  }

  function Unanswered(site: Site, s: Seen): seq<string> {
    if s.missing then [Property(site)] else []
  }

  function Unlisted(site: Site, s: Seen): seq<string> {
    if s.kind.Unknown? then [Property(site) + "=" + s.id] else []
  }

  /** The references asked about and not answered, in the order they are read. */
  function UnresolvedNames(k: Lookups): seq<string> {
    Unanswered(Diagnostic, k.d) + Unanswered(FailureMode, k.f) + Unanswered(Controller, k.c) + Unanswered(Device, k.dev)
  }

  function UnknownNames(k: Lookups): seq<string> {
    Unlisted(Diagnostic, k.d) + Unlisted(FailureMode, k.f) + Unlisted(Controller, k.c) + Unlisted(Device, k.dev)
  }

  /** The source's lookup closure, with the lists it appends to as in and out
      values. The tag it writes for a controller is written by FromController. */
  method Lookup(answers: Answers, site: Site, id: string, unresolved: seq<string>, unknown: seq<string>)
    returns (seen: Seen, unresolved': seq<string>, unknown': seq<string>)
    ensures seen == See(answers, site, id)
    ensures unresolved' == unresolved + Unanswered(site, seen) && unknown' == unknown + Unlisted(site, seen)
  {
    unresolved', unknown' := unresolved, unknown;
    if id == "" {
      SentinelsByShape(site, id);
      return Seen(id, None, false, NotSentinel), unresolved', unknown';
    }
    var kind := SentinelAt(site, id);
    seen := Seen(id, None, false, kind);
    match kind
    case NothingThere =>
    case Unknown =>
      unknown' := unknown + [Property(site) + "=" + id];
    case Meaningful =>
    case NotSentinel =>
      if site in answers && id in answers[site] {
        seen := seen.(found := Some(answers[site][id]));
      } else {
        seen := seen.(missing := true);
        unresolved' := unresolved + [Property(site)];
      }
  }

  // ---- the fields ----

  function NonEmpty(s: string): Option<string> {
    if s == "" then None else Some(s)
  }

  predicate IsOn(lamp: Option<bool>) {
    lamp == Some(true)
  }

  function LampSeverity(fd: FaultData): Severity {
    if IsOn(fd.redStop) then Critical
    else if IsOn(fd.amber) || IsOn(fd.malfunction) || IsOn(fd.protect) then Medium
    else Medium
  }

  function MappedSeverity(severity: string): Option<Severity> {
    if severity == "Critical" then Some(Critical)
    else if severity == "Warning" then Some(Medium)
    else if severity == "None" then Some(Info)
    else if severity == "Unknown" then Some(Medium)
    else None
  }

  function SeverityOf(fd: FaultData): Severity {
    var mapped := MappedSeverity(fd.severity);
    if mapped.Some? then mapped.value else if fd.severity == "" then LampSeverity(fd) else Medium
  }

  function Standard(source: string): string {
    if source == "SourceJ1939Id" then "j1939"
    else if source == "SourceJ1708Id" then "j1708"
    else if source == "SourceObdId" then "obd"
    else if source == "SourceGeotabGoId" then "device"
    else source
  }

  function CodeOf(e: Option<Entity>): Option<int> {
    if e.Some? then e.value.code else None
  }

  /** Only a suspect parameter's code is an SPN. */
  function SpnOf(d: Option<Entity>): Option<int> {
    if d.Some? && d.value.kind == DIAGNOSTIC_SPN then d.value.code else None
  }

  /** Only a code from 0 to 31 is an FMI. */
  function FmiOf(f: Option<Entity>): Option<int> {
    var code := CodeOf(f);
    if code.Some? && 0 <= code.value <= 31 then code else None
  }

  predicate HasVin(dev: Seen) {
    dev.found.Some? && dev.found.value.vin != ""
  }

  /** A device without a VIN is named by its id. */
  function VinOf(dev: Seen): string {
    if HasVin(dev) then dev.found.value.vin else dev.id
  }

  function UnitOf(dev: Seen): string {
    if dev.found.Some? then dev.found.value.name else ""
  }

  function ControllerTag(c: Seen): Option<string> {
    match c.kind
    case NothingThere => None
    case Meaningful => Some(c.id)
    case Unknown => Some(c.id)
    case NotSentinel => if c.found.Some? then NonEmpty(c.found.value.name) else None
  }

  /** A code that did not become the field it could have been. */
  function OtherCode(e: Option<Entity>, taken: Option<int>): Option<string> {
    if CodeOf(e).Some? && taken.None? then Some(Itoa(CodeOf(e).value)) else None
  }

  function OtherKind(d: Option<Entity>): Option<string> {
    if OtherCode(d, SpnOf(d)).Some? then Some(d.value.kind) else None
  }

  function StandardOf(d: Option<Entity>): Option<string> {
    if d.Some? then NonEmpty(Standard(d.value.source)) else None
  }

  function OutOfRange(spn: Option<int>): Option<string> {
    if spn.Some? && spn.value > MAX_SPN then Some("true") else None
  }

  function ListTag(names: seq<string>): Option<string> {
    if names == [] then None else Some(Join(Sort(names)))
  }

  function Flag(b: bool, value: string): Option<string> {
    if b then Some(value) else None
  }

  /** What each tag says about a record, if it says anything. */
  function TagValue(fd: FaultData, k: Lookups, t: Tag): Option<string> {
    match t
    case SourceId => Some(fd.id)
    case Version => NonEmpty(fd.version)
    case EventIdSource => Flag(fd.version == "", "hash")
    case SeverityAbsent => Flag(fd.severity == "", "true")
    case SeverityDerived => Flag(fd.severity == "" && IsOn(fd.redStop), "lamp")
    case SeverityRaw => if MappedSeverity(fd.severity).None? then NonEmpty(fd.severity) else None
    case DiagnosticCode => OtherCode(k.d.found, SpnOf(k.d.found))
    case DiagnosticType => OtherKind(k.d.found)
    case DiagnosticStandard => StandardOf(k.d.found)
    case FailureModeCode => OtherCode(k.f.found, FmiOf(k.f.found))
    case ControllerName => ControllerTag(k.c)
    case VinFallback => Flag(!HasVin(k.dev) && k.dev.id != "", "device_id")
    case Unresolved => ListTag(UnresolvedNames(k))
    case SentinelUnknown => ListTag(UnknownNames(k))
    case SpnOutOfRange => OutOfRange(SpnOf(k.d.found))
  }

  /** The event of a record that has an id, before validation. */
  ghost predicate Renders(fd: FaultData, k: Lookups, e: Normalized) {
    && e.id == fd.id + ":" + (if fd.version == "" then fd.hash else fd.version)
    && e.vin == VinOf(k.dev) && e.unitId == UnitOf(k.dev) && e.severity == SeverityOf(fd)
    && e.spn == SpnOf(k.d.found) && e.fmi == FmiOf(k.f.found)
    && forall t :: if t in e.tags then Some(e.tags[t]) == TagValue(fd, k, t) else TagValue(fd, k, t).None?
  }

  // ---- building the tags ----

  /** The part of normalize that writes a tag. */
  function Part(t: Tag): nat {
    match t
    case SourceId | Version | EventIdSource | SeverityAbsent | SeverityDerived | SeverityRaw => 0
    case DiagnosticCode | DiagnosticType | DiagnosticStandard => 1
    case FailureModeCode => 2
    case ControllerName => 3
    case VinFallback => 4
    case Unresolved | SentinelUnknown | SpnOutOfRange => 5
  }

  /** After the first n parts, the tags are those that say something, with what they say. */
  ghost predicate Tagged(says: Tag -> Option<string>, tags: map<Tag, string>, n: nat) {
    && (forall t :: t in tags <==> Part(t) < n && says(t).Some?)
    && forall t :: t in tags ==> tags[t] == says(t).value
  }

  /** set in the source: an empty value leaves the tags as they are. */
  method SetTag(tags: map<Tag, string>, t: Tag, value: string) returns (r: map<Tag, string>)
    ensures r == if value == "" then tags else tags[t := value]
  {
    r := if value != "" then tags[t := value] else tags;
  }

  method Header(fd: FaultData, ghost k: Lookups, ghost says: Tag -> Option<string>)
    returns (id: string, severity: Severity, tags: map<Tag, string>)
    requires forall t :: says(t) == TagValue(fd, k, t)
    ensures id == fd.id + ":" + (if fd.version == "" then fd.hash else fd.version) && severity == SeverityOf(fd)
    ensures Tagged(says, tags, 1)
  {
    var revision, hashed := fd.version, false;
    if revision == "" {
      revision, hashed := fd.hash, true;
    }
    id, severity := fd.id + ":" + revision, Medium;
    tags := map[SourceId := fd.id];
    tags := SetTag(tags, Version, fd.version);
    if hashed {
      tags := tags[EventIdSource := "hash"];
    }
    if MappedSeverity(fd.severity).Some? {
      severity := MappedSeverity(fd.severity).value;
    } else if fd.severity == "" {
      tags := tags[SeverityAbsent := "true"];
      severity := LampSeverity(fd);
      if severity != Medium {
        tags := tags[SeverityDerived := "lamp"];
      }
    } else {
      tags := tags[SeverityRaw := fd.severity];
    }
  }

  method FromDiagnostic(d: Option<Entity>, given: map<Tag, string>, ghost says: Tag -> Option<string>)
    returns (spn: Option<int>, tags: map<Tag, string>)
    requires says(DiagnosticCode) == OtherCode(d, SpnOf(d)) && says(DiagnosticType) == OtherKind(d)
    requires says(DiagnosticStandard) == StandardOf(d)
    requires Tagged(says, given, 1)
    ensures spn == SpnOf(d)
    ensures Tagged(says, tags, 2)
  {
    spn, tags := None, given;
    if d.Some? && d.value.code.Some? {
      if d.value.kind == DIAGNOSTIC_SPN {
        spn := d.value.code;
      } else {
        tags := tags[DiagnosticCode := Itoa(d.value.code.value)];
        tags := tags[DiagnosticType := d.value.kind];
      }
    }
    tags := SetTag(tags, DiagnosticStandard, if d.Some? then Standard(d.value.source) else "");
  }

  method FromFailureMode(f: Option<Entity>, given: map<Tag, string>, ghost says: Tag -> Option<string>)
    returns (fmi: Option<int>, tags: map<Tag, string>)
    requires says(FailureModeCode) == OtherCode(f, FmiOf(f))
    requires Tagged(says, given, 2)
    ensures fmi == FmiOf(f)
    ensures Tagged(says, tags, 3)
  {
    fmi, tags := None, given;
    if f.Some? && f.value.code.Some? {
      var code := f.value.code.value;
      if 0 <= code <= 31 {
        fmi := Some(code);
      } else {
        tags := tags[FailureModeCode := Itoa(code)];
      }
    }
  }

  /** A controller sentinel that means something, or might, is kept as itself. */
  method FromController(c: Seen, given: map<Tag, string>, ghost says: Tag -> Option<string>)
    returns (tags: map<Tag, string>)
    requires says(ControllerName) == ControllerTag(c) && (c.found.Some? ==> c.kind == NotSentinel)
    requires Tagged(says, given, 3)
    ensures Tagged(says, tags, 4)
  {
    tags := given;
    if c.kind == Unknown || c.kind == Meaningful {
      tags := tags[ControllerName := c.id];
    }
    if c.found.Some? && c.found.value.name != "" {
      tags := tags[ControllerName := c.found.value.name];
    }
  }

  method FromDevice(dev: Seen, given: map<Tag, string>, ghost says: Tag -> Option<string>)
    returns (vin: string, unitId: string, tags: map<Tag, string>)
    requires says(VinFallback) == Flag(!HasVin(dev) && dev.id != "", "device_id")
    requires Tagged(says, given, 4)
    ensures vin == VinOf(dev) && unitId == UnitOf(dev)
    ensures Tagged(says, tags, 5)
  {
    vin, unitId, tags := "", "", given;
    if dev.found.Some? && dev.found.value.vin != "" {
      vin := dev.found.value.vin;
    } else if dev.id != "" {
      vin := dev.id;
      tags := tags[VinFallback := "device_id"];
    }
    if dev.found.Some? && dev.found.value.name != "" {
      unitId := dev.found.value.name;
    }
  }

  method FromLists(unresolved: seq<string>, unknown: seq<string>, spn: Option<int>, given: map<Tag, string>,
                   ghost says: Tag -> Option<string>)
    returns (tags: map<Tag, string>)
    requires says(Unresolved) == ListTag(unresolved) && says(SentinelUnknown) == ListTag(unknown)
    requires says(SpnOutOfRange) == OutOfRange(spn)
    requires Tagged(says, given, 5)
    ensures Tagged(says, tags, 6)
  {
    tags := given;
    if unresolved != [] {
      tags := tags[Unresolved := Join(Sort(unresolved))];
    }
    if unknown != [] {
      tags := tags[SentinelUnknown := Join(Sort(unknown))];
    }
    if spn.Some? && spn.value > MAX_SPN {
      tags := tags[SpnOutOfRange := "true"];
    }
  }

  lemma SpeaksOfReferences(fd: FaultData, k: Lookups, says: Tag -> Option<string>)
    requires forall t :: says(t) == TagValue(fd, k, t)
    ensures says(DiagnosticCode) == OtherCode(k.d.found, SpnOf(k.d.found)) && says(DiagnosticType) == OtherKind(k.d.found)
    ensures says(DiagnosticStandard) == StandardOf(k.d.found)
    ensures says(FailureModeCode) == OtherCode(k.f.found, FmiOf(k.f.found))
    ensures says(ControllerName) == ControllerTag(k.c)
    ensures says(VinFallback) == Flag(!HasVin(k.dev) && k.dev.id != "", "device_id")
  {
  }

  lemma SpeaksOfLists(fd: FaultData, k: Lookups, says: Tag -> Option<string>)
    requires forall t :: says(t) == TagValue(fd, k, t)
    ensures says(Unresolved) == ListTag(UnresolvedNames(k)) && says(SentinelUnknown) == ListTag(UnknownNames(k))
    ensures says(SpnOutOfRange) == OutOfRange(SpnOf(k.d.found))
  {
  }

  method References(k: Lookups, given: map<Tag, string>, ghost says: Tag -> Option<string>)
    returns (spn: Option<int>, fmi: Option<int>, vin: string, unitId: string, tags: map<Tag, string>)
    requires k.c.found.Some? ==> k.c.kind == NotSentinel
    requires says(DiagnosticCode) == OtherCode(k.d.found, SpnOf(k.d.found)) && says(DiagnosticType) == OtherKind(k.d.found)
    requires says(DiagnosticStandard) == StandardOf(k.d.found)
    requires says(FailureModeCode) == OtherCode(k.f.found, FmiOf(k.f.found))
    requires says(ControllerName) == ControllerTag(k.c)
    requires says(VinFallback) == Flag(!HasVin(k.dev) && k.dev.id != "", "device_id")
    requires Tagged(says, given, 1)
    ensures spn == SpnOf(k.d.found) && fmi == FmiOf(k.f.found)
    ensures vin == VinOf(k.dev) && unitId == UnitOf(k.dev)
    ensures Tagged(says, tags, 5)
  {
    spn, tags := FromDiagnostic(k.d.found, given, says);
    fmi, tags := FromFailureMode(k.f.found, tags, says);
    tags := FromController(k.c, tags, says);
    vin, unitId, tags := FromDevice(k.dev, tags, says);
  }

  /** All parts in turn, from the four lookups' results. */
  method Fields(fd: FaultData, k: Lookups, unresolved: seq<string>, unknown: seq<string>, ghost says: Tag -> Option<string>)
    returns (e: Normalized)
    requires k.c.found.Some? ==> k.c.kind == NotSentinel
    requires unresolved == UnresolvedNames(k) && unknown == UnknownNames(k)
    requires forall t :: says(t) == TagValue(fd, k, t)
    ensures e.id == fd.id + ":" + (if fd.version == "" then fd.hash else fd.version) && e.severity == SeverityOf(fd)
    ensures e.spn == SpnOf(k.d.found) && e.fmi == FmiOf(k.f.found)
    ensures e.vin == VinOf(k.dev) && e.unitId == UnitOf(k.dev)
    ensures Tagged(says, e.tags, 6)
  {
    var id, severity, tags := Header(fd, k, says);
    var spn, fmi, vin, unitId;
    SpeaksOfReferences(fd, k, says);
    spn, fmi, vin, unitId, tags := References(k, tags, says);
    SpeaksOfLists(fd, k, says);
    tags := FromLists(unresolved, unknown, spn, tags, says);
    e := Normalized(id, vin, unitId, severity, spn, fmi, tags);
  }

  method Build(fd: FaultData, k: Lookups, unresolved: seq<string>, unknown: seq<string>) returns (e: Normalized)
    requires k.c.found.Some? ==> k.c.kind == NotSentinel
    requires unresolved == UnresolvedNames(k) && unknown == UnknownNames(k)
    ensures Renders(fd, k, e)
  {
    e := Fields(fd, k, unresolved, unknown, (t: Tag) => TagValue(fd, k, t));
  }

  /** normalize, with valid for Event.Validate, which sees the whole event. */
  method Normalize(fd: FaultData, answers: Answers, valid: Normalized -> bool) returns (r: Option<Normalized>)
    ensures r.Some? ==> fd.id != "" && Renders(fd, SeeAll(fd, answers), r.value) && valid(r.value)
    ensures r.None? ==> fd.id == "" || exists e :: Renders(fd, SeeAll(fd, answers), e) && !valid(e)
  {
    if fd.id == "" {
      return None;
    }
    var d, f, c, dev, unresolved, unknown;
    d, unresolved, unknown := Lookup(answers, Diagnostic, fd.diagnostic, [], []);
    f, unresolved, unknown := Lookup(answers, FailureMode, fd.failureMode, unresolved, unknown);
    c, unresolved, unknown := Lookup(answers, Controller, fd.controller, unresolved, unknown);
    dev, unresolved, unknown := Lookup(answers, Device, fd.device, unresolved, unknown);
    var e := Build(fd, Lookups(d, f, c, dev), unresolved, unknown);
    r := if valid(e) then Some(e) else None;
  }

  // ---- what a reader of the event can rely on ----

  /** A record has one rendering. */
  lemma RendersOnce(fd: FaultData, k: Lookups, e: Normalized, f: Normalized)
    requires Renders(fd, k, e) && Renders(fd, k, f)
    ensures e == f
  {
    forall t: Tag ensures t in e.tags <==> t in f.tags {
    }
    forall t | t in e.tags ensures e.tags[t] == f.tags[t] {
      assert Some(e.tags[t]) == TagValue(fd, k, t) && Some(f.tags[t]) == TagValue(fd, k, t);
    }
    assert e.tags == f.tags;
  }

  function SeenAt(k: Lookups, site: Site): Seen {
    match site
    case Diagnostic => k.d
    case FailureMode => k.f
    case Controller => k.c
    case Device => k.dev
  }

  lemma PropertiesDiffer(a: Site, b: Site)
    ensures Property(a) == Property(b) ==> a == b
    ensures ',' !in Property(a)
  {
  }

  lemma UnansweredExactly(a: Site, s: Seen, site: Site)
    ensures Property(site) in Unanswered(a, s) <==> a == site && s.missing
    ensures forall name :: name in Unanswered(a, s) ==> ',' !in name
  {
    PropertiesDiffer(a, site);
  }

  lemma InFour(a: seq<string>, b: seq<string>, c: seq<string>, d: seq<string>, x: string)
    ensures x in a + b + c + d <==> x in a || x in b || x in c || x in d
  {
  }

  lemma UnresolvedNamesExactly(k: Lookups, site: Site)
    ensures Property(site) in UnresolvedNames(k) <==> SeenAt(k, site).missing
    ensures forall name :: name in UnresolvedNames(k) ==> ',' !in name
  {
    var a, b, c, d :=
      Unanswered(Diagnostic, k.d), Unanswered(FailureMode, k.f), Unanswered(Controller, k.c), Unanswered(Device, k.dev);
    UnansweredExactly(Diagnostic, k.d, site);
    UnansweredExactly(FailureMode, k.f, site);
    UnansweredExactly(Controller, k.c, site);
    UnansweredExactly(Device, k.dev, site);
    forall name ensures name in UnresolvedNames(k) <==> name in a || name in b || name in c || name in d {
      InFour(a, b, c, d, name);
    }
  }

  /** A name in the list is that of some missing reference. */
  lemma EveryNameIsMissing(k: Lookups, name: string)
    ensures name in UnresolvedNames(k) ==> exists site :: SeenAt(k, site).missing && Property(site) == name
  {
    var a, b, c, d :=
      Unanswered(Diagnostic, k.d), Unanswered(FailureMode, k.f), Unanswered(Controller, k.c), Unanswered(Device, k.dev);
    InFour(a, b, c, d, name);
    if name in UnresolvedNames(k) {
      var site := if name in a then Diagnostic else if name in b then FailureMode else if name in c then Controller else Device;
      assert SeenAt(k, site).missing && Property(site) == name;
    }
  }

  /** There is a list exactly when something is missing. */
  lemma SomeNameIfMissing(k: Lookups)
    ensures UnresolvedNames(k) != [] <==> exists site :: SeenAt(k, site).missing
  {
    if site :| SeenAt(k, site).missing {
      UnresolvedNamesExactly(k, site);
    }
    if UnresolvedNames(k) != [] {
      EveryNameIsMissing(k, UnresolvedNames(k)[0]);
    }
  }

  lemma NamesAreMissing(k: Lookups)
    ensures forall site :: Property(site) in UnresolvedNames(k) <==> SeenAt(k, site).missing
    ensures forall name :: name in UnresolvedNames(k) ==> exists site :: SeenAt(k, site).missing && Property(site) == name
  {
    var names := UnresolvedNames(k);
    forall site ensures Property(site) in names <==> SeenAt(k, site).missing {
      UnresolvedNamesExactly(k, site);
    }
    forall name | name in names ensures exists site :: SeenAt(k, site).missing && Property(site) == name {
      EveryNameIsMissing(k, name);
    }
  }

  lemma ListedAreMissing(k: Lookups, list: seq<string>)
    requires forall name :: name in list <==> name in UnresolvedNames(k)
    ensures forall site :: Property(site) in list <==> SeenAt(k, site).missing
    ensures forall name :: name in list ==> exists site :: SeenAt(k, site).missing && Property(site) == name
  {
    NamesAreMissing(k);
  }

  lemma ListReadsBack(k: Lookups)
    requires UnresolvedNames(k) != []
    ensures
      var list := Split(Join(Sort(UnresolvedNames(k))));
      && Ordered(list) && multiset(list) == multiset(UnresolvedNames(k))
      && forall name :: name in list <==> name in UnresolvedNames(k)
  {
    var names := UnresolvedNames(k);
    UnresolvedNamesExactly(k, Diagnostic);
    SortReadsBack(names);
  }

  /** The tag exists exactly when some reference is missing; its list then reads back
      as the names of the missing ones, once each, in order. */
  lemma UnresolvedReadsBack(fd: FaultData, k: Lookups, e: Normalized)
    requires Renders(fd, k, e)
    ensures Unresolved in e.tags <==> exists site :: SeenAt(k, site).missing
    ensures Unresolved in e.tags ==>
      && Ordered(Split(e.tags[Unresolved]))
      && multiset(Split(e.tags[Unresolved])) == multiset(UnresolvedNames(k))
      && (forall site :: Property(site) in Split(e.tags[Unresolved]) <==> SeenAt(k, site).missing)
      && (forall name :: name in Split(e.tags[Unresolved]) ==> exists site :: SeenAt(k, site).missing && Property(site) == name)
  {
    SomeNameIfMissing(k);
    assert TagValue(fd, k, Unresolved) == ListTag(UnresolvedNames(k));
    if UnresolvedNames(k) != [] {
      ListReadsBack(k);
      ListedAreMissing(k, Split(Join(Sort(UnresolvedNames(k)))));
    }
  }

  /** The tag's list names exactly the sites of a property. */
  ghost predicate ListsExactly(e: Normalized, holds: Site -> bool) {
    && (Unresolved in e.tags <==> exists site :: holds(site))
    && (Unresolved in e.tags ==>
          && (forall site :: Property(site) in Split(e.tags[Unresolved]) <==> holds(site))
          && (forall name :: name in Split(e.tags[Unresolved]) ==> exists site :: holds(site) && Property(site) == name))
  }

  lemma UnresolvedLists(fd: FaultData, k: Lookups, e: Normalized, holds: Site -> bool)
    requires Renders(fd, k, e)
    requires forall site :: SeenAt(k, site).missing <==> holds(site)
    ensures ListsExactly(e, holds)
  {
    UnresolvedReadsBack(fd, k, e);
    if site :| holds(site) {
      assert SeenAt(k, site).missing;
    }
    if site :| SeenAt(k, site).missing {
      assert holds(site);
    }
    if Unresolved in e.tags {
      forall name | name in Split(e.tags[Unresolved]) ensures exists site :: holds(site) && Property(site) == name {
        var site :| SeenAt(k, site).missing && Property(site) == name;
        assert holds(site);
      }
    }
  }

  // ---- what the rules of the fields come to ----

  /** Critical is what the source or, for want of its word, the red stop lamp says;
      only the source can say that it is nothing. Everything else is in between. The
      lamps are named exactly when they made a difference, and a word that is not
      understood is kept. */
  lemma SeveritiesExactly(fd: FaultData, k: Lookups, e: Normalized)
    requires Renders(fd, k, e)
    ensures e.severity == Critical <==> fd.severity == "Critical" || (fd.severity == "" && fd.redStop == Some(true))
    ensures e.severity == Info <==> fd.severity == "None"
    ensures e.severity == Medium <==> e.severity != Critical && e.severity != Info
    ensures SeverityDerived in e.tags <==> fd.severity == "" && e.severity != Medium
    ensures SeverityAbsent in e.tags <==> fd.severity == ""
    ensures SeverityRaw in e.tags <==> fd.severity !in ["", "Critical", "Warning", "None", "Unknown"]
    ensures SeverityRaw in e.tags ==> e.tags[SeverityRaw] == fd.severity && e.severity == Medium
  {
  }

  /** A diagnostic's source is always told: as its standard where it stands for one,
      and as it arrived otherwise. */
  lemma StandardsExactly(fd: FaultData, k: Lookups, e: Normalized)
    requires Renders(fd, k, e)
    ensures DiagnosticStandard in e.tags <==> k.d.found.Some? && k.d.found.value.source != ""
    ensures DiagnosticStandard in e.tags ==>
      var source, tag := k.d.found.value.source, e.tags[DiagnosticStandard];
      && (source == "SourceJ1939Id" ==> tag == "j1939") && (source == "SourceJ1708Id" ==> tag == "j1708")
      && (source == "SourceObdId" ==> tag == "obd") && (source == "SourceGeotabGoId" ==> tag == "device")
      && (source !in ["SourceJ1939Id", "SourceJ1708Id", "SourceObdId", "SourceGeotabGoId"] ==> tag == source)
  {
  }

  /** No code is lost and none is passed off as another: a diagnostic's code is the SPN
      if it is a suspect parameter's and a tag with its kind if not, a failure mode's is
      the FMI if it can be one and a tag if not. */
  lemma NoCodeLost(fd: FaultData, k: Lookups, e: Normalized)
    requires Renders(fd, k, e)
    ensures CodeOf(k.d.found).Some? ==>
      if k.d.found.value.kind == DIAGNOSTIC_SPN then e.spn == CodeOf(k.d.found) && DiagnosticCode !in e.tags
      else
        && e.spn == None && DiagnosticCode in e.tags && e.tags[DiagnosticCode] == Itoa(CodeOf(k.d.found).value)
        && DiagnosticType in e.tags && e.tags[DiagnosticType] == k.d.found.value.kind
    ensures CodeOf(k.f.found).Some? ==>
      if 0 <= CodeOf(k.f.found).value <= 31 then e.fmi == CodeOf(k.f.found) && FailureModeCode !in e.tags
      else e.fmi == None && FailureModeCode in e.tags && e.tags[FailureModeCode] == Itoa(CodeOf(k.f.found).value)
    ensures CodeOf(k.d.found).None? ==> e.spn == None && DiagnosticCode !in e.tags
    ensures CodeOf(k.f.found).None? ==> e.fmi == None && FailureModeCode !in e.tags
  {
  }

  /** The VIN is the device's own or, marked as such, the device's id; a controller
      that means something is named, by itself or by what it was found to be. */
  lemma DevicesAndControllers(fd: FaultData, k: Lookups, e: Normalized)
    requires Renders(fd, k, e)
    ensures VinFallback !in e.tags && e.vin != "" ==> k.dev.found.Some? && e.vin == k.dev.found.value.vin
    ensures VinFallback in e.tags ==> e.vin == k.dev.id && e.vin != "" && (k.dev.found.None? || k.dev.found.value.vin == "")
    ensures k.dev.found.Some? ==> e.unitId == k.dev.found.value.name
    ensures ControllerName in e.tags ==>
      if k.c.kind.NotSentinel? then k.c.found.Some? && e.tags[ControllerName] == k.c.found.value.name != ""
      else e.tags[ControllerName] == k.c.id && !k.c.kind.NothingThere?
    ensures ControllerName !in e.tags ==> k.c.kind.NothingThere? || (k.c.kind.NotSentinel? && (k.c.found.Some? ==> k.c.found.value.name == ""))
  {
  }

  /** A record's ids are told: its own, its version, or that a hash stands in for one. */
  lemma IdsTold(fd: FaultData, k: Lookups, e: Normalized)
    requires Renders(fd, k, e)
    ensures SourceId in e.tags && e.tags[SourceId] == fd.id
    ensures fd.version != "" ==>
      Version in e.tags && e.tags[Version] == fd.version && EventIdSource !in e.tags && e.id == fd.id + ":" + fd.version
    ensures fd.version == "" ==> Version !in e.tags && EventIdSource in e.tags && e.id == fd.id + ":" + fd.hash
    ensures SpnOutOfRange in e.tags <==> e.spn.Some? && e.spn.value > 524_287
  {
  }

  // ---- the other list ----

  /** The reference is of a sentinel's shape, at a site for them, and not a listed one. */
  predicate Unheard(fd: FaultData, site: Site) {
    (site == FailureMode || site == Controller) && Shaped(Ref(fd, site))
    && Ref(fd, site) !in NOTHING && Ref(fd, site) !in OBJECTS && Ref(fd, site) !in SOURCES
  }

  function UnheardName(fd: FaultData, site: Site): string {
    Property(site) + "=" + Ref(fd, site)
  }

  lemma UnlistedExactly(fd: FaultData, answers: Answers, site: Site)
    ensures
      Unlisted(site, SeenAt(SeeAll(fd, answers), site)) == if Unheard(fd, site) then [UnheardName(fd, site)] else []
    ensures Unheard(fd, site) ==> ',' !in UnheardName(fd, site)
  {
    SentinelsByShape(site, Ref(fd, site));
    PropertiesDiffer(site, site);
  }

  lemma UnknownNamesExactly(fd: FaultData, answers: Answers, name: string)
    ensures name in UnknownNames(SeeAll(fd, answers)) <==> exists site :: Unheard(fd, site) && name == UnheardName(fd, site)
    ensures name in UnknownNames(SeeAll(fd, answers)) ==> ',' !in name
  {
    var k := SeeAll(fd, answers);
    UnlistedExactly(fd, answers, Diagnostic);
    UnlistedExactly(fd, answers, FailureMode);
    UnlistedExactly(fd, answers, Controller);
    UnlistedExactly(fd, answers, Device);
    InFour(Unlisted(Diagnostic, k.d), Unlisted(FailureMode, k.f), Unlisted(Controller, k.c), Unlisted(Device, k.dev), name);
  }

  /** The tag exists exactly when some reference is such a sentinel, and its list reads
      back as where each one stood and what it was. */
  lemma UnknownReadsBack(fd: FaultData, answers: Answers, e: Normalized)
    requires Renders(fd, SeeAll(fd, answers), e)
    ensures SentinelUnknown in e.tags <==> exists site :: Unheard(fd, site)
    ensures SentinelUnknown in e.tags ==>
      forall name :: name in Split(e.tags[SentinelUnknown]) <==> exists site :: Unheard(fd, site) && name == UnheardName(fd, site)
  {
    var names := UnknownNames(SeeAll(fd, answers));
    assert TagValue(fd, SeeAll(fd, answers), SentinelUnknown) == ListTag(names);
    forall name
      ensures name in names <==> exists site :: Unheard(fd, site) && name == UnheardName(fd, site)
      ensures name in names ==> ',' !in name
    {
      UnknownNamesExactly(fd, answers, name);
    }
    SortReadsBack(names);
    if site :| Unheard(fd, site) {
      assert UnheardName(fd, site) in names;
    }
    if names != [] {
      assert names[0] in names;
    }
  }
}

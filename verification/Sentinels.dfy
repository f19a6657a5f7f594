/** internal/adapter/geotab/sentinel.go: strings that stand where an id would, and
    which of them must never be looked up. */
module Sentinels {

  datatype SentinelKind =
    | NotSentinel     // may be asked about
    | NothingThere    // in the table, standing for absence
    | Meaningful      // in the table, standing for itself
    | Unknown         // not in the table, given away by its shape

  /** The references a fault record carries. */
  datatype Site = Diagnostic | FailureMode | Controller | Device

  const NOTHING: set<string> := {
    "NoFailureModeId", "ControllerNoneId", "EngineTypeNoneId", "UnitOfMeasureNoneId", "ParameterGroupNoneId"}

  const OBJECTS: set<string> := {
    "ControllerGoDeviceId", "ControllerAnyId", "ControllerObdBodyId", "EngineTypeGenericId", "FaultStatusActiveId"}

  const SOURCES: set<string> := {
    "SourceJ1939Id", "SourceJ1708Id", "SourceObdId", "SourceGeotabGoId", "SourceSystemId"}

  predicate IsUpper(c: char) {
    'A' <= c <= 'Z'
  }

  predicate IsAlphanumeric(c: char) {
    IsUpper(c) || 'a' <= c <= 'z' || '0' <= c <= '9'
  }

  /** A capital letter, then letters and digits, ending in Id. */
  predicate Shaped(id: string) {
    && |id| >= 3 && IsUpper(id[0])
    && id[|id| - 2] == 'I' && id[|id| - 1] == 'd'
    && forall c :: c in id ==> IsAlphanumeric(c)
  }

  function Classify(id: string): SentinelKind {
    if id in NOTHING then NothingThere
    else if id in OBJECTS || id in SOURCES then Meaningful
    else if Shaped(id) then Unknown
    else NotSentinel
  }

  function SentinelAt(site: Site, id: string): SentinelKind {
    if site.FailureMode? || site.Controller? then Classify(id) else NotSentinel
  }

  lemma NothingIsShaped(id: string)
    requires id in NOTHING
    ensures Shaped(id)
  {
  }

  lemma ObjectsAreShaped(id: string)
    requires id in OBJECTS
    ensures Shaped(id)
  {
  }

  lemma SourcesAreShaped(id: string)
    requires id in SOURCES
    ensures Shaped(id)
  {
  }

  /** The shape alone decides what is kept from a lookup; the table only says what
      a sentinel means. */
  lemma SentinelsByShape(site: Site, id: string)
    ensures SentinelAt(site, id) != NotSentinel <==> (site == FailureMode || site == Controller) && Shaped(id)
  {
    if id in NOTHING {
      NothingIsShaped(id);
    } else if id in OBJECTS {
      ObjectsAreShaped(id);
    } else if id in SOURCES {
      SourcesAreShaped(id);
    }
  }

  /** What a sentinel means: five stand for absence, ten for themselves, and anything
      else of the shape is not known. */
  lemma SentinelMeanings(id: string)
    ensures Classify(id) == NothingThere <==>
      id in ["NoFailureModeId", "ControllerNoneId", "EngineTypeNoneId", "UnitOfMeasureNoneId", "ParameterGroupNoneId"]
    ensures Classify(id) == Meaningful <==>
      id in ["ControllerGoDeviceId", "ControllerAnyId", "ControllerObdBodyId", "EngineTypeGenericId", "FaultStatusActiveId",
             "SourceJ1939Id", "SourceJ1708Id", "SourceObdId", "SourceGeotabGoId", "SourceSystemId"]
    ensures Classify(id) == Unknown <==> Shaped(id) && Classify(id) != NothingThere && Classify(id) != Meaningful
  {
  }
}

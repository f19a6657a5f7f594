/** The normalized event, cut down to the fields that routing, deduplication and
    the audit log read. The remaining fields travel unchanged. */
module Events {
  import opened Basics

  datatype Event = Event(
    id: string,
    vin: string,
    unitId: string,
    source: string,
    sourceType: string,
    severity: string,
    spn: Option<int>,
    fmi: Option<int>,
    tags: map<string, string>)
}

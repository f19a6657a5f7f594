/** internal/adapter/geotab/geotab.go: one poll of the feed. References are looked
    up in one batch per type, records that cannot be used are skipped, and a full
    page means there is more. */
module Geotab {
  import opened Basics
  import opened Adapters
  import opened Sentinels
  import opened Faults
  import opened Cache

  /** One entry of the page, as JSON decoding left it. */
  datatype Raw = Garbled(reason: string) | Decoded(fault: FaultData)

  datatype Record = Record(fault: FaultData, index: nat)

  /** What GetFeed came back with, after the client's retries. */
  datatype Feed = FeedFails | FeedPage(data: seq<Raw>, toVersion: string)

  // ---- enrich ----

  const SITES: set<Site> := {Diagnostic, FailureMode, Controller, Device}

  /** The ids asked of the resolver for one type: in page order, repeats included. */
  function Requests(records: seq<Record>, site: Site): seq<string> {
    if records == [] then []
    else
      Requests(records[..|records| - 1], site) + RequestOf(records[|records| - 1].fault, site)
  }

  function RequestOf(fd: FaultData, site: Site): seq<string> {
    if Resolvable(site, Ref(fd, site)) then [Ref(fd, site)] else []
  }

  /** Some record of the page refers to this id there. */
  predicate Refers(records: seq<Record>, site: Site, id: string) {
    exists n :: 0 <= n < |records| && Ref(records[n].fault, site) == id
  }

  lemma RefersOneMore(records: seq<Record>, r: Record, site: Site, id: string)
    ensures Refers(records + [r], site, id) <==> Refers(records, site, id) || Ref(r.fault, site) == id
  {
    var more := records + [r];
    if n :| 0 <= n < |records| && Ref(records[n].fault, site) == id {
      assert Ref(more[n].fault, site) == id;
    }
    assert more[|records|] == r;
    if n :| 0 <= n < |more| && Ref(more[n].fault, site) == id {
      assert n < |records| ==> more[n] == records[n];
    }
  }

  lemma {:induction false} RequestsAre(records: seq<Record>, site: Site, id: string)
    ensures id in Requests(records, site) <==> Resolvable(site, id) && Refers(records, site, id)
  {
    if records == [] {
    } else {
      var front, last := records[..|records| - 1], records[|records| - 1];
      RequestsAre(front, site, id);
      RefersOneMore(front, last, site, id);
      assert records == front + [last];
    }
  }

  /** Exactly the references that are present and no sentinel there: a missing id
      is never asked about, a sentinel never at a sentinel site, the rest always. */
  lemma RequestsExactly(records: seq<Record>, site: Site, id: string)
    ensures id in Requests(records, site)
      <==> id != "" && !((site == FailureMode || site == Controller) && Shaped(id)) && Refers(records, site, id)
  {
    RequestsAre(records, site, id);
    SentinelsByShape(site, id);
  }

  /** One lookup for each type that has something to ask; resolve(site, ids) is the
      resolver's answer, empty or partial when it failed. */
  function AnswersFor(records: seq<Record>, resolve: (Site, seq<string>) -> map<string, Entity>): Answers {
    map site: Site | Requests(records, site) != [] :: resolve(site, Requests(records, site))
  }

  /** ids[typeName], which reads as empty for a type that has none yet. */
  function Listed(ids: map<Site, seq<string>>, site: Site): seq<string> {
    if site in ids then ids[site] else []
  }

  predicate NoneEmpty(ids: map<Site, seq<string>>) {
    forall site :: site in ids ==> ids[site] != []
  }

  /** One record's four references, visited in no particular order, as Go visits a map. */
  method CollectOne(given: map<Site, seq<string>>, fd: FaultData) returns (ids: map<Site, seq<string>>)
    requires NoneEmpty(given)
    ensures NoneEmpty(ids)
    ensures forall site :: Listed(ids, site) == Listed(given, site) + RequestOf(fd, site)
  {
    ids := given;
    var rest := SITES;
    while rest != {}
      invariant rest <= SITES && NoneEmpty(ids)
      invariant forall site :: site in rest ==> Listed(ids, site) == Listed(given, site)
      invariant forall site :: site !in rest ==> Listed(ids, site) == Listed(given, site) + RequestOf(fd, site)
      decreases |rest|
    {
      var site :| site in rest;
      rest := rest - {site};
      if Resolvable(site, Ref(fd, site)) {
        ids := ids[site := Listed(ids, site) + [Ref(fd, site)]];
      }
    }
  }

  /** The ids each type needs. */
  method Collect(records: seq<Record>) returns (ids: map<Site, seq<string>>)
    ensures NoneEmpty(ids)
    ensures forall site :: Listed(ids, site) == Requests(records, site)
  {
    ids := map[];
    var i := 0;
    while i < |records|
      invariant 0 <= i <= |records| && NoneEmpty(ids)
      invariant forall site :: Listed(ids, site) == Requests(records[..i], site)
    {
      ids := CollectOne(ids, records[i].fault);
      assert records[..i + 1][..i] == records[..i];
      i := i + 1;
    }
    assert records[..i] == records;
  }

  method Enrich(records: seq<Record>, resolve: (Site, seq<string>) -> map<string, Entity>) returns (answers: Answers)
    ensures answers == AnswersFor(records, resolve)
  {
    var ids := Collect(records);
    assert forall site :: site in ids ==> Listed(ids, site) == Requests(records, site);
    answers := map[];
    var rest := ids.Keys;
    while rest != {}
      invariant rest <= ids.Keys
      invariant forall site :: site in answers <==> site in ids && site !in rest
      invariant forall site :: site in answers ==> answers[site] == resolve(site, ids[site])
      decreases |rest|
    {
      var site :| site in rest;
      rest := rest - {site};
      answers := answers[site := resolve(site, ids[site])];
    }
    forall site ensures site in answers <==> Requests(records, site) != [] {
      assert Listed(ids, site) == Requests(records, site);
    }
    assert answers.Keys == AnswersFor(records, resolve).Keys;
  }

  /** For every record of the page, its reference counts as answered exactly when
      it was asked about in that page's lookup and the lookup knew it, and as
      missing exactly when it was asked about and the lookup did not. */
  lemma LookupsAgree(records: seq<Record>, resolve: (Site, seq<string>) -> map<string, Entity>, n: nat, site: Site)
    requires n < |records|
    ensures
      var id := Ref(records[n].fault, site);
      var asked := Requests(records, site);
      var s := See(AnswersFor(records, resolve), site, id);
      && (s.missing <==> id in asked && id !in resolve(site, asked))
      && (s.found.Some? <==> id in asked && id in resolve(site, asked))
      && (s.found.Some? ==> s.found.value == resolve(site, asked)[id])
  {
    var id := Ref(records[n].fault, site);
    RequestsAre(records, site, id);
    assert Refers(records, site, id);
  }

  /** The lookup of a page was asked about this reference and did not answer it. */
  predicate AskedInVain(records: seq<Record>, resolve: (Site, seq<string>) -> map<string, Entity>, n: nat, site: Site)
    requires n < |records|
  {
    var asked, id := Requests(records, site), Ref(records[n].fault, site);
    id in asked && id !in resolve(site, asked)
  }

  lemma MissingIsVain(records: seq<Record>, resolve: (Site, seq<string>) -> map<string, Entity>, n: nat, site: Site)
    requires n < |records|
    ensures SeenAt(SeeAll(records[n].fault, AnswersFor(records, resolve)), site).missing
      <==> AskedInVain(records, resolve, n, site)
  {
    LookupsAgree(records, resolve, n, site);
  }

  /** An event has a list of unresolved references exactly when its page's lookup
      was asked about one in vain, and the list names exactly those. */
  lemma UnresolvedIsExact(records: seq<Record>, resolve: (Site, seq<string>) -> map<string, Entity>, n: nat, e: Normalized)
    requires n < |records|
    requires Renders(records[n].fault, SeeAll(records[n].fault, AnswersFor(records, resolve)), e)
    ensures ListsExactly(e, site => AskedInVain(records, resolve, n, site))
  {
    var fd, answers := records[n].fault, AnswersFor(records, resolve);
    var k := SeeAll(fd, answers);
    forall site ensures SeenAt(k, site).missing <==> AskedInVain(records, resolve, n, site) {
      MissingIsVain(records, resolve, n, site);
    }
    UnresolvedLists(fd, k, e, site => AskedInVain(records, resolve, n, site));
  }

  // ---- a page ----

  /** What becomes of an entry of the page. */
  datatype Fate = DoesNotDecode | CannotBeUsed | BecomesEvent

  ghost function FateOf(raw: Raw, unfit: FaultData -> bool): Fate {
    if raw.Garbled? then DoesNotDecode else if unfit(raw.fault) then CannotBeUsed else BecomesEvent
  }

  /** The indexes of the page with one fate. */
  ghost function At(data: seq<Raw>, unfit: FaultData -> bool, fate: Fate): seq<nat> {
    if data == [] then []
    else
      var n := |data| - 1;
      At(data[..n], unfit, fate) + (if FateOf(data[n], unfit) == fate then [n] else [])
  }

  ghost predicate Increasing(xs: seq<nat>) {
    forall i, j :: 0 <= i < j < |xs| ==> xs[i] < xs[j]
  }

  /** Those indexes are in page order, and exactly the ones with that fate. */
  lemma {:induction false} AtExactly(data: seq<Raw>, unfit: FaultData -> bool, fate: Fate)
    ensures Increasing(At(data, unfit, fate))
    ensures forall i :: i in At(data, unfit, fate) <==> 0 <= i < |data| && FateOf(data[i], unfit) == fate
  {
    if data == [] {
    } else {
      var n := |data| - 1;
      var before := At(data[..n], unfit, fate);
      AtExactly(data[..n], unfit, fate);
      forall k | 0 <= k < |before| ensures before[k] < n {
        assert before[k] in before;
      }
    }
  }

  /** And every index has one fate. */
  lemma {:induction false} FatesPartition(data: seq<Raw>, unfit: FaultData -> bool)
    ensures |At(data, unfit, DoesNotDecode)| + |At(data, unfit, CannotBeUsed)| + |At(data, unfit, BecomesEvent)| == |data|
  {
    if data == [] {
    } else {
      FatesPartition(data[..|data| - 1], unfit);
    }
  }

  /** The entries that decode, with their places. */
  function Records(data: seq<Raw>): seq<Record> {
    if data == [] then []
    else
      var n := |data| - 1;
      Records(data[..n]) + (if data[n].Decoded? then [Record(data[n].fault, n)] else [])
  }

  /** The places of those records that are unfit, or of those that are not. */
  ghost function Placed(records: seq<Record>, unfit: FaultData -> bool, bad: bool): seq<nat> {
    if records == [] then []
    else
      var last := records[|records| - 1];
      Placed(records[..|records| - 1], unfit, bad) + (if unfit(last.fault) == bad then [last.index] else [])
  }

  lemma PlacedOneMore(records: seq<Record>, r: Record, unfit: FaultData -> bool, bad: bool)
    ensures Placed(records + [r], unfit, bad) == Placed(records, unfit, bad) + (if unfit(r.fault) == bad then [r.index] else [])
  {
    assert (records + [r])[..|records|] == records;
  }

  lemma {:induction false} PlacesAreFates(data: seq<Raw>, unfit: FaultData -> bool)
    ensures Placed(Records(data), unfit, true) == At(data, unfit, CannotBeUsed)
    ensures Placed(Records(data), unfit, false) == At(data, unfit, BecomesEvent)
  {
    if data == [] {
    } else {
      var n := |data| - 1;
      PlacesAreFates(data[..n], unfit);
      if data[n].Decoded? {
        PlacedOneMore(Records(data[..n]), Record(data[n].fault, n), unfit, true);
        PlacedOneMore(Records(data[..n]), Record(data[n].fault, n), unfit, false);
      } else {
        assert Records(data) == Records(data[..n]);
      }
    }
  }

  lemma {:induction false} RecordsPlaced(data: seq<Raw>, r: nat)
    requires r < |Records(data)|
    ensures Records(data)[r].index < |data| && data[Records(data)[r].index] == Decoded(Records(data)[r].fault)
  {
    var n := |data| - 1;
    if r < |Records(data[..n])| {
      RecordsPlaced(data[..n], r);
    }
  }

  /** How a record is named in the audit log: by its own id, or by its place. */
  function SkipId(name: string, raw: Raw, index: nat): string {
    SyntheticId(name, if raw.Decoded? && raw.fault.id != "" then raw.fault.id else "index:" + Decimal(index))
  }

  method Skip(name: string, index: nat, id: string, reason: string) returns (s: Skipped)
    ensures s == Skipped(name, SyntheticId(name, if id == "" then "index:" + Decimal(index) else id), reason)
  {
    var locator := id;
    if locator == "" {
      locator := "index:" + Decimal(index);
    }
    s := Skipped(name, SyntheticId(name, locator), reason);
  }

  /** at lists the indexes of the page that skips name, in order. */
  ghost predicate Names(name: string, data: seq<Raw>, skips: seq<Skipped>, at: seq<nat>) {
    && |at| == |skips|
    && forall j :: 0 <= j < |at| ==>
         at[j] < |data| && skips[j].adapter == name && skips[j].id == SkipId(name, data[at[j]], at[j])
  }

  ghost predicate Usable(fd: FaultData, answers: Answers, valid: Normalized -> bool, e: Normalized) {
    fd.id != "" && Renders(fd, SeeAll(fd, answers), e) && valid(e)
  }

  ghost predicate BecameEvent(raw: Raw, answers: Answers, valid: Normalized -> bool, e: Normalized) {
    raw.Decoded? && Usable(raw.fault, answers, valid, e)
  }

  ghost predicate Unusable(fd: FaultData, answers: Answers, valid: Normalized -> bool) {
    fd.id == "" || exists e :: Renders(fd, SeeAll(fd, answers), e) && !valid(e)
  }

  ghost function Unfit(answers: Answers, valid: Normalized -> bool): FaultData -> bool {
    fd => Unusable(fd, answers, valid)
  }

  /** No record is both. */
  lemma UsableOrNot(fd: FaultData, answers: Answers, valid: Normalized -> bool, e: Normalized)
    requires Usable(fd, answers, valid, e)
    ensures !Unusable(fd, answers, valid)
  {
    if f :| Renders(fd, SeeAll(fd, answers), f) && !valid(f) {
      RendersOnce(fd, SeeAll(fd, answers), e, f);
    }
  }

  lemma NamesOneMore(name: string, data: seq<Raw>, skips: seq<Skipped>, at: seq<nat>, s: Skipped, index: nat)
    requires Names(name, data, skips, at) && index < |data|
    requires s.adapter == name && s.id == SkipId(name, data[index], index)
    ensures Names(name, data, skips + [s], at + [index])
  {
  }

  /** The first loop: every entry decodes or is skipped. unfit decides nothing here. */
  method Decode(name: string, data: seq<Raw>, ghost unfit: FaultData -> bool)
    returns (records: seq<Record>, skips: seq<Skipped>)
    ensures records == Records(data)
    ensures Names(name, data, skips, At(data, unfit, DoesNotDecode))
  {
    records, skips := [], [];
    var i := 0;
    while i < |data|
      invariant 0 <= i <= |data|
      invariant records == Records(data[..i])
      invariant Names(name, data, skips, At(data[..i], unfit, DoesNotDecode))
    {
      assert data[..i + 1][..i] == data[..i];
      if data[i].Garbled? {
        var s := Skip(name, i, "", data[i].reason);
        NamesOneMore(name, data, skips, At(data[..i], unfit, DoesNotDecode), s, i);
        skips := skips + [s];
      } else {
        records := records + [Record(data[i].fault, i)];
      }
      i := i + 1;
    }
    assert data[..i] == data;
  }

  /** One record that did not normalize, reported by its id or its place. */
  method SkipRecord(name: string, ghost data: seq<Raw>, r: Record) returns (s: Skipped)
    requires r.index < |data| && data[r.index] == Decoded(r.fault)
    ensures s.adapter == name && s.id == SkipId(name, data[r.index], r.index)
  {
    s := Skip(name, r.index, r.fault.id, "");
  }

  /** The entries at these places became these events, in order. */
  ghost predicate Become(data: seq<Raw>, answers: Answers, valid: Normalized -> bool, events: seq<Normalized>, at: seq<nat>) {
    |events| == |at| && forall j :: 0 <= j < |at| ==> at[j] < |data| && BecameEvent(data[at[j]], answers, valid, events[j])
  }

  lemma BecomeOneMore(data: seq<Raw>, answers: Answers, valid: Normalized -> bool,
                      events: seq<Normalized>, at: seq<nat>, e: Normalized, index: nat)
    requires Become(data, answers, valid, events, at) && index < |data| && BecameEvent(data[index], answers, valid, e)
    ensures Become(data, answers, valid, events + [e], at + [index])
  {
  }

  method NormalizeOne(fd: FaultData, answers: Answers, valid: Normalized -> bool) returns (e: Option<Normalized>)
    ensures e.Some? ==> Usable(fd, answers, valid, e.value)
    ensures e.None? <==> Unfit(answers, valid)(fd)
  {
    e := Normalize(fd, answers, valid);
    if e.Some? {
      UsableOrNot(fd, answers, valid, e.value);
    }
  }

  /** After some of the records: the events come from those that are usable, and
      the skips from what did not decode and then from those that are not. */
  ghost predicate Sofar(name: string, data: seq<Raw>, records: seq<Record>, answers: Answers, valid: Normalized -> bool,
                        events: seq<Normalized>, skips: seq<Skipped>)
  {
    var unfit := Unfit(answers, valid);
    && Become(data, answers, valid, events, Placed(records, unfit, false))
    && Names(name, data, skips, At(data, unfit, DoesNotDecode) + Placed(records, unfit, true))
  }

  /** One turn of the second loop. */
  method NormalizeNext(name: string, ghost data: seq<Raw>, ghost before: seq<Record>, r: Record, answers: Answers,
                       valid: Normalized -> bool, events: seq<Normalized>, skips: seq<Skipped>)
    returns (events': seq<Normalized>, skips': seq<Skipped>)
    requires r.index < |data| && data[r.index] == Decoded(r.fault)
    requires Sofar(name, data, before, answers, valid, events, skips)
    ensures Sofar(name, data, before + [r], answers, valid, events', skips')
  {
    ghost var unfit := Unfit(answers, valid);
    ghost var placed, garbled, bad := Placed(before, unfit, false), At(data, unfit, DoesNotDecode), Placed(before, unfit, true);
    PlacedOneMore(before, r, unfit, false);
    PlacedOneMore(before, r, unfit, true);
    events', skips' := events, skips;
    var e := NormalizeOne(r.fault, answers, valid);
    if e.Some? {
      BecomeOneMore(data, answers, valid, events, placed, e.value, r.index);
      events' := events + [e.value];
      assert Placed(before + [r], unfit, false) == placed + [r.index] && Placed(before + [r], unfit, true) == bad;
    } else {
      var s := SkipRecord(name, data, r);
      NamesOneMore(name, data, skips, garbled + bad, s, r.index);
      skips' := skips + [s];
      assert Placed(before + [r], unfit, false) == placed && Placed(before + [r], unfit, true) == bad + [r.index];
      assert garbled + (bad + [r.index]) == garbled + bad + [r.index];
    }
  }

  /** The second loop: every decoded record becomes an event or is skipped. */
  method NormalizeAll(name: string, ghost data: seq<Raw>, records: seq<Record>, answers: Answers,
                      valid: Normalized -> bool, given: seq<Skipped>)
    returns (events: seq<Normalized>, skips: seq<Skipped>)
    requires records == Records(data)
    requires Names(name, data, given, At(data, Unfit(answers, valid), DoesNotDecode))
    ensures Sofar(name, data, records, answers, valid, events, skips)
  {
    events, skips := [], given;
    NothingSofar(name, data, answers, valid, given);
    var i := 0;
    while i < |records|
      invariant 0 <= i <= |records|
      invariant Sofar(name, data, records[..i], answers, valid, events, skips)
    {
      RecordsPlaced(data, i);
      assert records[..i + 1] == records[..i] + [records[i]];
      events, skips := NormalizeNext(name, data, records[..i], records[i], answers, valid, events, skips);
      i := i + 1;
    }
    assert records[..i] == records;
  }

  lemma NothingSofar(name: string, data: seq<Raw>, answers: Answers, valid: Normalized -> bool, given: seq<Skipped>)
    requires Names(name, data, given, At(data, Unfit(answers, valid), DoesNotDecode))
    ensures Sofar(name, data, [], answers, valid, [], given)
  {
    var garbled := At(data, Unfit(answers, valid), DoesNotDecode);
    assert garbled + Placed([], Unfit(answers, valid), true) == garbled;
  }

  class Adapter {
    const name: string
    const limit: nat

    /** Whether the last poll returned a full page. */
    var backlog: bool

    /** Everything onSkip was called with. */
    var reported: seq<Skipped>

    constructor (name: string, limit: nat)
      ensures this.name == name && this.limit == limit && !backlog && reported == []
    {
      this.name, this.limit := name, limit;
      backlog, reported := false, [];
    }

    /** One page. What became of each entry is a matter of the page, the resolver's
        answers and Event.Validate alone. */
    method Poll(cancelled: bool, since: string, feed: Feed,
                resolve: (Site, seq<string>) -> map<string, Entity>, valid: Normalized -> bool)
      returns (events: seq<Normalized>, cursor: string, ok: bool)
      modifies this
      // a poll that never started leaves the flag; any other clears it before it reads
      ensures cancelled ==> !ok && backlog == old(backlog)
      ensures !cancelled && !ok ==> !backlog
      ensures !ok ==> events == [] && cursor == since && reported == old(reported)
      // it succeeds exactly when the feed gave a cursor and skipping stayed bearable
      ensures ok <==>
        && !cancelled && feed.FeedPage? && feed.toVersion != ""
        && Bearable(feed.data, PageUnfit(feed.data, resolve, valid))
      ensures ok ==>
        && cursor == feed.toVersion
        && (backlog <==> |feed.data| >= limit)
        // the events are those of the usable entries, in page order
        && Become(feed.data, AnswersFor(Records(feed.data), resolve), valid, events,
                  At(feed.data, PageUnfit(feed.data, resolve, valid), BecomesEvent))
        // the rest are reported once each: first what did not decode, then what did not normalize
        && old(reported) <= reported
        && Names(name, feed.data, reported[|old(reported)|..],
                 At(feed.data, PageUnfit(feed.data, resolve, valid), DoesNotDecode)
                 + At(feed.data, PageUnfit(feed.data, resolve, valid), CannotBeUsed))
    {
      events, cursor, ok := [], since, false;
      if cancelled {
        return;
      }
      backlog := false;
      if feed.FeedFails? || feed.toVersion == "" {
        return;
      }
      ghost var unfit := PageUnfit(feed.data, resolve, valid);
      var records, skips := Decode(name, feed.data, unfit);
      var answers := Enrich(records, resolve);
      var all, notes := NormalizeAll(name, feed.data, records, answers, valid, skips);
      PlacesAreFates(feed.data, unfit);
      FatesPartition(feed.data, unfit);
      CeilingInRecords(|feed.data|, |all|, |notes|);
      if SkipCeilingExceeded(|feed.data|, |notes|) {
        return;
      }
      reported := reported + notes;
      assert reported[|old(reported)|..] == notes;
      backlog := |feed.data| >= limit;
      events, cursor, ok := all, feed.toVersion, true;
    }
  }

  /** Which records of a page cannot be used, given what the resolver answers for it. */
  ghost function PageUnfit(data: seq<Raw>, resolve: (Site, seq<string>) -> map<string, Entity>, valid: Normalized -> bool)
    : FaultData -> bool
  {
    Unfit(AnswersFor(Records(data), resolve), valid)
  }

  /** Fewer than ten entries, or no more skipped than kept. */
  ghost predicate Bearable(data: seq<Raw>, unfit: FaultData -> bool) {
    |data| < 10
    || |At(data, unfit, DoesNotDecode)| + |At(data, unfit, CannotBeUsed)| <= |At(data, unfit, BecomesEvent)|
  }
}

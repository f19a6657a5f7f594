/** internal/adapter/file: replaying a file whose cursor is the number of records
    already read. Parsing and normalizing a record are its parsers' business: here
    a record is the event it yields, or the reason it yields none. */
module FileAdapter {
  import opened Basics
  import opened Events
  import opened Adapters

  datatype Record = Usable(event: Event) | Unusable(locator: string, reason: string)

  // ---- the cursor ----

  const MAX_INT: int := 0x7FFF_FFFF_FFFF_FFFF

  /** strconv.Atoi on 64 bits: an optional sign, then digits, in range. */
  function Atoi(s: string): Option<int> {
    var signed := s != "" && (s[0] == '-' || s[0] == '+');
    var digits := if signed then s[1..] else s;
    if digits == "" || exists i :: 0 <= i < |digits| && !IsDigit(digits[i]) then None
    else
      var v: int := DigitsValue(digits);
      var n := if s[0] == '-' then -v else v;
      if -MAX_INT - 1 <= n <= MAX_INT then Some(n) else None
  }

  function ParseCursor(c: string): Option<nat> {
    if c == "" then Some(0)
    else
      match Atoi(c)
      case None => None
      case Some(n) => if n < 0 then None else Some(n)
  }

  /** A cursor the adapter wrote reads back as the count it stands for, for every
      count an int can hold and no other. */
  lemma CursorRoundTrip(n: nat)
    ensures ParseCursor(Decimal(n)) == if n <= MAX_INT then Some(n) else None
  {
    DecimalValue(n);
    var s := Decimal(n);
    assert IsDigit(s[0]);
    assert forall i :: 0 <= i < |s| ==> IsDigit(s[i]);
  }

  // ---- what a batch holds ----

  function EventsOf(batch: seq<Record>): seq<Event> {
    if batch == [] then []
    else
      var last := batch[|batch| - 1];
      EventsOf(batch[..|batch| - 1]) + (if last.Usable? then [last.event] else [])
  }

  function SkipsOf(name: string, batch: seq<Record>): seq<Skipped> {
    if batch == [] then []
    else
      var last := batch[|batch| - 1];
      SkipsOf(name, batch[..|batch| - 1])
      + (if last.Unusable? then [Skipped(name, SyntheticId(name, last.locator), last.reason)] else [])
  }

  lemma {:induction false} BatchSplits(name: string, batch: seq<Record>, more: seq<Record>)
    ensures EventsOf(batch + more) == EventsOf(batch) + EventsOf(more)
    ensures SkipsOf(name, batch + more) == SkipsOf(name, batch) + SkipsOf(name, more)
  {
    if more == [] {
      assert batch + more == batch;
    } else {
      var n := |more| - 1;
      assert (batch + more)[..|batch + more| - 1] == batch + more[..n];
      BatchSplits(name, batch, more[..n]);
    }
  }

  /** Each record of a batch has one place among the events or the skips, after those
      of the records before it, and this is what stands there. */
  lemma {:induction false} EveryRecordPlaced(name: string, batch: seq<Record>, i: nat)
    requires i < |batch|
    ensures batch[i].Usable? ==>
      |EventsOf(batch[..i])| < |EventsOf(batch)| && EventsOf(batch)[|EventsOf(batch[..i])|] == batch[i].event
    ensures batch[i].Unusable? ==>
      && |SkipsOf(name, batch[..i])| < |SkipsOf(name, batch)|
      && SkipsOf(name, batch)[|SkipsOf(name, batch[..i])|]
         == Skipped(name, SyntheticId(name, batch[i].locator), batch[i].reason)
  {
    var n := |batch| - 1;
    if i < n {
      EveryRecordPlaced(name, batch[..n], i);
      assert batch[..n][..i] == batch[..i];
    }
  }

  lemma {:induction false} EveryRecordCounted(name: string, batch: seq<Record>)
    ensures |EventsOf(batch)| + |SkipsOf(name, batch)| == |batch|
    ensures SkipsOf(name, batch) == [] <==> forall i :: 0 <= i < |batch| ==> batch[i].Usable?
  {
    if batch == [] {
    } else {
      var n := |batch| - 1;
      EveryRecordCounted(name, batch[..n]);
      assert forall i :: 0 <= i < n ==> batch[..n][i] == batch[i];
    }
  }

  // ---- one poll ----

  /** What a poll meets: a cancelled context, and the file as it reads now. */
  datatype Attempt = Attempt(cancelled: bool, records: Option<seq<Record>>)

  /** The records after the cursor; all of them when the file has fewer. */
  function Batch(records: seq<Record>, offset: nat): seq<Record> {
    if offset > |records| then records else records[offset..]
  }

  /** Strict polls tolerate no unusable record, lenient ones a minority of them
      once there are ten. */
  predicate Tolerates(name: string, strict: bool, batch: seq<Record>) {
    var skipped := |SkipsOf(name, batch)|;
    if strict then skipped == 0
    else |batch| < 10 || skipped <= |EventsOf(batch)|
  }

  lemma CeilingTolerates(name: string, strict: bool, batch: seq<Record>)
    requires strict ==> SkipsOf(name, batch) == []
    ensures Tolerates(name, strict, batch) <==> !SkipCeilingExceeded(|batch|, |SkipsOf(name, batch)|)
  {
    EveryRecordCounted(name, batch);
    CeilingInRecords(|batch|, |EventsOf(batch)|, |SkipsOf(name, batch)|);
  }

  /** The batch a poll returns, if it succeeds. */
  function Accepted(name: string, strict: bool, since: string, a: Attempt): Option<seq<Record>> {
    if a.cancelled || ParseCursor(since).None? || a.records.None? then None
    else
      var batch := Batch(a.records.value, ParseCursor(since).value);
      if Tolerates(name, strict, batch) then Some(batch) else None
  }

  /** A file with fewer records than the cursor is not the file that was read: it is
      replayed from the top, as if there were no cursor. */
  lemma ShrunkStartsOver(name: string, strict: bool, since: string, a: Attempt)
    requires ParseCursor(since).Some? && a.records.Some? && ParseCursor(since).value > |a.records.value|
    ensures Accepted(name, strict, since, a) == Accepted(name, strict, "", a)
  {
    assert a.records.value[0..] == a.records.value;
  }

  class FileAdapter {
    const name: string
    const strict: bool

    /** Everything onSkip was called with. */
    var reported: seq<Skipped>

    constructor (name: string, strict: bool)
      ensures this.name == name && this.strict == strict && reported == []
    {
      this.name, this.strict := name, strict;
      reported := [];
    }

    /** A poll returns what it accepts, or nothing with the cursor and the skip
        reports as they were. */
    method Poll(a: Attempt, since: string) returns (events: seq<Event>, cursor: string, ok: bool)
      modifies this
      ensures ok <==> Accepted(name, strict, since, a).Some?
      ensures ok ==>
        && events == EventsOf(Accepted(name, strict, since, a).value)
        && reported == old(reported) + SkipsOf(name, Accepted(name, strict, since, a).value)
        && cursor == Decimal(|a.records.value|)
      ensures !ok ==> events == [] && cursor == since && reported == old(reported)
    {
      if a.cancelled || ParseCursor(since).None? || a.records.None? {
        return [], since, false;
      }
      var records := a.records.value;
      var offset := ParseCursor(since).value;
      if offset > |records| {
        offset := 0;
      }
      var batch := records[offset..];
      assert batch == Batch(records, ParseCursor(since).value);
      events := [];
      var skips: seq<Skipped> := [];
      var i := 0;
      while i < |batch|
        invariant 0 <= i <= |batch|
        invariant events == EventsOf(batch[..i]) && skips == SkipsOf(name, batch[..i])
        invariant strict ==> skips == []
      {
        assert batch[..i + 1][..i] == batch[..i];
        if batch[i].Usable? {
          events := events + [batch[i].event];
        } else if strict {
          EveryRecordPlaced(name, batch, i);
          return [], since, false;
        } else {
          skips := skips + [Skipped(name, SyntheticId(name, batch[i].locator), batch[i].reason)];
        }
        i := i + 1;
      }
      assert batch[..i] == batch;
      CeilingTolerates(name, strict, batch);
      if SkipCeilingExceeded(|batch|, |skips|) {
        return [], since, false;
      }
      reported := reported + skips;
      cursor, ok := Decimal(|records|), true;
    }
  }

  // ---- replay across polls ----

  /** What the caller has after some polls: the cursor it saved, the events it was
      given and the skips it was told of. */
  datatype Replay = Replay(cursor: string, events: seq<Event>, skips: seq<Skipped>)

  function AfterPolls(name: string, strict: bool, polls: seq<Attempt>): Replay {
    if polls == [] then Replay("", [], [])
    else
      var r := AfterPolls(name, strict, polls[..|polls| - 1]);
      var a := polls[|polls| - 1];
      match Accepted(name, strict, r.cursor, a)
      case None => r
      case Some(batch) =>
        Replay(Decimal(|a.records.value|), r.events + EventsOf(batch), r.skips + SkipsOf(name, batch))
  }

  /** The file only grows: whatever is read is a prefix of what is read later, and
      everything fits in an int. */
  predicate Grows(polls: seq<Attempt>, file: seq<Record>) {
    && |file| <= MAX_INT
    && (forall i :: 0 <= i < |polls| && polls[i].records.Some? ==> polls[i].records.value <= file)
    && forall i, j :: 0 <= i < j < |polls| && polls[i].records.Some? && polls[j].records.Some? ==>
         |polls[i].records.value| <= |polls[j].records.value|
  }

  /** The caller has exactly what the first n records of the file come to. */
  predicate Exact(name: string, r: Replay, file: seq<Record>, n: nat) {
    && n <= |file| && ParseCursor(r.cursor) == Some(n)
    && r.events == EventsOf(file[..n]) && r.skips == SkipsOf(name, file[..n])
  }

  /** A longer prefix is a shorter one and what was read beyond it. */
  lemma PrefixSplits(name: string, file: seq<Record>, at: nat, records: seq<Record>)
    requires at <= |records| && records <= file
    ensures EventsOf(file[..|records|]) == EventsOf(file[..at]) + EventsOf(records[at..])
    ensures SkipsOf(name, file[..|records|]) == SkipsOf(name, file[..at]) + SkipsOf(name, records[at..])
  {
    assert file[..|records|] == file[..at] + records[at..];
    BatchSplits(name, file[..at], records[at..]);
  }

  lemma ExactExtends(name: string, r: Replay, file: seq<Record>, at: nat, records: seq<Record>)
    requires Exact(name, r, file, at) && at <= |records| && records <= file && |file| <= MAX_INT
    ensures Exact(name, Replay(Decimal(|records|), r.events + EventsOf(records[at..]), r.skips + SkipsOf(name, records[at..])),
                  file, |records|)
  {
    CursorRoundTrip(|records|);
    PrefixSplits(name, file, at, records);
  }

  /** The most records any of the polls read, or none. */
  function MostRead(polls: seq<Attempt>): nat {
    if polls == [] then 0
    else
      var before, a := MostRead(polls[..|polls| - 1]), polls[|polls| - 1];
      if a.records.Some? && |a.records.value| > before then |a.records.value| else before
  }

  lemma {:induction false} MostReadBounds(polls: seq<Attempt>, n: nat)
    requires forall i :: 0 <= i < |polls| && polls[i].records.Some? ==> |polls[i].records.value| <= n
    ensures MostRead(polls) <= n
  {
    if polls == [] {
    } else {
      var front := polls[..|polls| - 1];
      assert forall i :: 0 <= i < |front| ==> front[i] == polls[i];
      MostReadBounds(front, n);
    }
  }

  /** After any mix of successful and failed polls of a growing file, the caller
      has been given exactly the usable records up to its cursor, once each and in
      order, and told of every other one exactly once. */
  lemma {:induction false} ReplayIsExact(name: string, strict: bool, polls: seq<Attempt>, file: seq<Record>)
    requires Grows(polls, file)
    ensures exists n :: 0 <= n <= MostRead(polls) && Exact(name, AfterPolls(name, strict, polls), file, n)
  {
    if polls == [] {
      assert Exact(name, AfterPolls(name, strict, polls), file, 0);
    } else {
      var front, a := polls[..|polls| - 1], polls[|polls| - 1];
      assert forall i :: 0 <= i < |front| ==> front[i] == polls[i];
      ReplayIsExact(name, strict, front, file);
      var r := AfterPolls(name, strict, front);
      var at: nat :| at <= MostRead(front) && Exact(name, r, file, at);
      if Accepted(name, strict, r.cursor, a).Some? {
        MostReadBounds(front, |a.records.value|);
        ExactExtends(name, r, file, at, a.records.value);
        assert Exact(name, AfterPolls(name, strict, polls), file, |a.records.value|);
      } else {
        assert Exact(name, AfterPolls(name, strict, polls), file, at);
      }
    }
  }

  /** The loop over polls, as a caller with nothing saved runs it: a poll that fails
      leaves the cursor, the events and the reports as they were. */
  method PollAll(f: FileAdapter, polls: seq<Attempt>) returns (cursor: string, events: seq<Event>)
    requires f.reported == []
    modifies f
    ensures Replay(cursor, events, f.reported) == AfterPolls(f.name, f.strict, polls)
  {
    cursor, events := "", [];
    var i := 0;
    while i < |polls|
      invariant 0 <= i <= |polls|
      invariant Replay(cursor, events, f.reported) == AfterPolls(f.name, f.strict, polls[..i])
    {
      assert polls[..i + 1][..i] == polls[..i];
      var page, next, ok := f.Poll(polls[i], cursor);
      if ok {
        events, cursor := events + page, next;
      }
      i := i + 1;
    }
    assert polls[..i] == polls;
  }

  /** A refused batch is not stuck: appending usable records lets it through
      exactly when they bring the usable ones up to the unusable ones. */
  lemma GrowthRecovers(name: string, batch: seq<Record>, more: seq<Record>)
    requires !Tolerates(name, false, batch)
    requires forall i :: 0 <= i < |more| ==> more[i].Usable?
    ensures Tolerates(name, false, batch + more) <==> |SkipsOf(name, batch)| <= |EventsOf(batch)| + |more|
  {
    BatchSplits(name, batch, more);
    EveryRecordCounted(name, more);
  }
}

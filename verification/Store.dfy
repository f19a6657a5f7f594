/** internal/store: cursors, the dedupe set and the audit log, as the tables its
    statements read and write, and the hourly sweep of internal/pipeline. */
module Store {
  import opened Basics
  import opened Timestamps

  type SeenKey = (string, string)

  datatype Record = Record(
    eventId: string, vin: string, output: string, rule: string, status: string,
    attempts: nat, routedAt: Option<Time>, error: string)

  datatype AuditRow = AuditRow(record: Record, routedAt: string)

  /** INSERT ... ON CONFLICT DO NOTHING. */
  function Marked(seen: map<SeenKey, string>, key: SeenKey, now: Time): map<SeenKey, string>
    requires Valid(now)
  {
    if key in seen then seen else seen[key := Format(now)]
  }

  /** DELETE FROM seen WHERE first_seen_at < cutoff. */
  function SweptSeen(seen: map<SeenKey, string>, cutoff: Time): map<SeenKey, string>
    requires Valid(cutoff)
  {
    map k | k in seen && !Less(seen[k], Format(cutoff)) :: seen[k]
  }

  /** DELETE FROM audit WHERE routed_at < cutoff; the others keep their order. */
  function SweptAudit(audit: seq<AuditRow>, cutoff: Time): seq<AuditRow>
    requires Valid(cutoff)
  {
    if audit == [] then []
    else
      var kept := SweptAudit(audit[..|audit| - 1], cutoff);
      var last := audit[|audit| - 1];
      if Less(last.routedAt, Format(cutoff)) then kept else kept + [last]
  }

  function RowsOf(audit: seq<AuditRow>, eventId: string): seq<AuditRow> {
    if audit == [] then []
    else
      var last := audit[|audit| - 1];
      RowsOf(audit[..|audit| - 1], eventId) + (if last.record.eventId == eventId then [last] else [])
  }

  /** Exactly that event's rows, as often and in the order they were written. */
  lemma {:induction false} RowsOfExactly(audit: seq<AuditRow>, more: seq<AuditRow>, eventId: string, row: AuditRow)
    ensures multiset(RowsOf(audit, eventId))[row] == if row.record.eventId == eventId then multiset(audit)[row] else 0
    ensures RowsOf(audit + more, eventId) == RowsOf(audit, eventId) + RowsOf(more, eventId)
  {
    if audit != [] {
      assert audit == audit[..|audit| - 1] + [audit[|audit| - 1]];
      RowsOfExactly(audit[..|audit| - 1], [], eventId, row);
    }
    RowsOfConcat(audit, more, eventId);
  }

  lemma {:induction false} RowsOfConcat(audit: seq<AuditRow>, more: seq<AuditRow>, eventId: string)
    ensures RowsOf(audit + more, eventId) == RowsOf(audit, eventId) + RowsOf(more, eventId)
  {
    if more == [] {
      assert audit + more == audit;
    } else {
      assert (audit + more)[..|audit + more| - 1] == audit + more[..|more| - 1];
      RowsOfConcat(audit, more[..|more| - 1], eventId);
    }
  }

  class Store {
    var cursors: map<string, string>
    var seen: map<SeenKey, string>
    var audit: seq<AuditRow>

    constructor ()
      ensures cursors == map[] && seen == map[] && audit == []
    {
      cursors, seen, audit := map[], map[], [];
    }

    /** The stored cursor, or "" for an adapter that has never run. */
    method Cursor(adapter: string) returns (cursor: string)
      ensures cursor == if adapter in cursors then cursors[adapter] else ""
    {
      cursor := if adapter in cursors then cursors[adapter] else "";
    }

    method SetCursor(adapter: string, cursor: string)
      modifies this`cursors
      ensures cursors == old(cursors)[adapter := cursor]
    {
      cursors := cursors[adapter := cursor];
    }

    /** True exactly the first time since the entry was last swept. */
    method MarkSeen(adapter: string, eventId: string, now: Time) returns (isNew: bool)
      requires Valid(now)
      modifies this`seen
      ensures isNew <==> (adapter, eventId) !in old(seen)
      ensures seen == Marked(old(seen), (adapter, eventId), now)
      ensures (adapter, eventId) in seen
    {
      isNew := (adapter, eventId) !in seen;
      if isNew {
        seen := seen[(adapter, eventId) := Format(now)];
      }
    }

    method SweepSeen(cutoff: Time) returns (removed: nat)
      requires Valid(cutoff)
      modifies this`seen
      ensures seen == SweptSeen(old(seen), cutoff)
      ensures removed == |old(seen)| - |seen|
    {
      var kept := SweptSeen(seen, cutoff);
      assert kept.Keys <= seen.Keys;
      SubsetSize(kept.Keys, seen.Keys);
      removed := |seen| - |kept|;
      seen := kept;
    }

    method Audit(r: Record, now: Time)
      requires Valid(now) && (r.routedAt.Some? ==> Valid(r.routedAt.value))
      modifies this`audit
      ensures audit == old(audit) + [AuditRow(r, Format(if r.routedAt.Some? then r.routedAt.value else now))]
    {
      var at := if r.routedAt.Some? then r.routedAt.value else now;
      audit := audit + [AuditRow(r, Format(at))];
    }

    method SweepAudit(cutoff: Time) returns (removed: nat)
      requires Valid(cutoff)
      modifies this`audit
      ensures audit == SweptAudit(old(audit), cutoff)
      ensures removed == |old(audit)| - |audit|
    {
      SweptIsShorter(audit, cutoff);
      removed := |audit| - |SweptAudit(audit, cutoff)|;
      audit := SweptAudit(audit, cutoff);
    }

    /** The rows of one event, in the order they were written. */
    method AuditFor(eventId: string) returns (rows: seq<AuditRow>)
      ensures rows == RowsOf(audit, eventId)
    {
      rows := [];
      var i := 0;
      while i < |audit|
        invariant 0 <= i <= |audit|
        invariant rows == RowsOf(audit[..i], eventId)
      {
        assert audit[..i + 1][..i] == audit[..i];
        if audit[i].record.eventId == eventId {
          rows := rows + [audit[i]];
        }
        i := i + 1;
      }
      assert audit[..i] == audit;
    }

    /** One tick of the pipeline's sweeper: both cutoffs come from one reading of the
        clock, and an audit retention that is not positive keeps every row. */
    method SweepTick(now: Time, dedupeRetention: int, auditRetention: int)
      requires Writable(Nanos(now) - dedupeRetention)
      requires auditRetention > 0 ==> Writable(Nanos(now) - auditRetention)
      modifies this`seen, this`audit
      ensures seen == SweptSeen(old(seen), Ago(now, dedupeRetention))
      ensures audit == if auditRetention > 0 then SweptAudit(old(audit), Ago(now, auditRetention)) else old(audit)
    {
      var cutoff := Ago(now, dedupeRetention);
      var n := SweepSeen(cutoff);
      if auditRetention > 0 {
        cutoff := Ago(now, auditRetention);
        n := SweepAudit(cutoff);
      }
    }
  }

  lemma {:induction false} SubsetSize<T>(a: set<T>, b: set<T>)
    requires a <= b
    ensures |a| <= |b|
  {
    if a == {} {
    } else {
      var x :| x in a;
      SubsetSize(a - {x}, b - {x});
    }
  }

  lemma {:induction false} SweptIsShorter(audit: seq<AuditRow>, cutoff: Time)
    requires Valid(cutoff)
    ensures |SweptAudit(audit, cutoff)| <= |audit|
  {
    if audit == [] {
    } else {
      SweptIsShorter(audit[..|audit| - 1], cutoff);
    }
  }

  // ---- what retention guarantees ----

  /** cutoff is the instant retention nanoseconds before now. */
  predicate IsCutoff(cutoff: Time, now: Time, retention: nat) {
    Valid(cutoff) && Valid(now) && Nanos(cutoff) == Nanos(now) - retention
  }

  /** A sweep keeps a row exactly when it is not older than the cutoff, counted in
      whole milliseconds; a row younger than the retention always stays. */
  lemma {:induction false} SweepKeeps(audit: seq<AuditRow>, row: AuditRow, at: Time, cutoff: Time, now: Time, retention: nat)
    requires Valid(at) && row.routedAt == Format(at) && IsCutoff(cutoff, now, retention)
    ensures row in SweptAudit(audit, cutoff) <==> row in audit && Millis(at) >= Millis(cutoff)
    ensures row in audit && Nanos(at) >= Nanos(now) - retention ==> row in SweptAudit(audit, cutoff)
  {
    TextOrderIsTimeOrder(at, cutoff);
    MillisOfNanos(cutoff, at);
    if audit == [] {
    } else {
      var init, last := audit[..|audit| - 1], audit[|audit| - 1];
      SweepKeeps(init, row, at, cutoff, now, retention);
      assert audit == init + [last];
    }
  }

  /** And a dedupe entry goes exactly when it is older than that. */
  lemma SweepForgets(seen: map<SeenKey, string>, key: SeenKey, at: Time, cutoff: Time, now: Time, retention: nat)
    requires Valid(at) && key in seen && seen[key] == Format(at) && IsCutoff(cutoff, now, retention)
    ensures key in SweptSeen(seen, cutoff) <==> Millis(at) >= Millis(cutoff)
    ensures key in SweptSeen(seen, cutoff) ==> SweptSeen(seen, cutoff)[key] == seen[key]
    ensures Nanos(at) <= Nanos(now) - retention - 1_000_000 ==> key !in SweptSeen(seen, cutoff)
  {
    TextOrderIsTimeOrder(at, cutoff);
    MillisOfNanos(at, cutoff);
  }

  /** The dedupe table's history, in the order the statements ran, with the clock
      each one was given. A reading taken earlier may belong to a later statement. */
  datatype Op = Mark(key: SeenKey, at: Time) | Sweep(at: Time, cutoff: Time)

  predicate ValidOps(ops: seq<Op>, retention: nat) {
    forall n :: 0 <= n < |ops| ==> Valid(ops[n].at) && (ops[n].Sweep? ==> IsCutoff(ops[n].cutoff, ops[n].at, retention))
  }

  /** The table after the first n operations. */
  function SeenAfter(ops: seq<Op>, retention: nat, n: nat): map<SeenKey, string>
    requires ValidOps(ops, retention) && n <= |ops|
  {
    if n == 0 then map[]
    else
      var before := SeenAfter(ops, retention, n - 1);
      match ops[n - 1]
      case Mark(key, at) => Marked(before, key, at)
      case Sweep(_, cutoff) => SweptSeen(before, cutoff)
  }

  /** The n-th operation is a MarkSeen that answers true. */
  predicate AnswersNew(ops: seq<Op>, retention: nat, n: nat, key: SeenKey)
    requires ValidOps(ops, retention)
  {
    n < |ops| && ops[n].Mark? && ops[n].key == key && key !in SeenAfter(ops, retention, n)
  }

  lemma SweepSpares(seen: map<SeenKey, string>, key: SeenKey, at: Time, cutoff: Time, now: Time, retention: nat)
    requires Valid(at) && key in seen && seen[key] == Format(at)
    requires IsCutoff(cutoff, now, retention) && Nanos(now) <= Nanos(at) + retention
    ensures key in SweptSeen(seen, cutoff) && SweptSeen(seen, cutoff)[key] == Format(at)
  {
    TextOrderIsTimeOrder(at, cutoff);
    MillisOfNanos(at, cutoff);
  }

  /** From a new answer on, the entry is in the table with that time, until a sweep
      whose clock is more than the retention past it. */
  lemma {:induction false} EntryLasts(ops: seq<Op>, retention: nat, i: nat, n: nat, key: SeenKey)
    requires ValidOps(ops, retention) && AnswersNew(ops, retention, i, key) && i < n <= |ops|
    requires forall m :: i < m < n && ops[m].Sweep? ==> Nanos(ops[m].at) <= Nanos(ops[i].at) + retention
    ensures key in SeenAfter(ops, retention, n) && SeenAfter(ops, retention, n)[key] == Format(ops[i].at)
  {
    if n == i + 1 {
    } else {
      EntryLasts(ops, retention, i, n - 1, key);
      var op := ops[n - 1];
      if op.Sweep? {
        SweepSpares(SeenAfter(ops, retention, n - 1), key, ops[i].at, op.cutoff, op.at, retention);
      }
    }
  }

  /** Whatever the clocks say: between two new answers for one adapter and id there
      was a sweep more than the retention after the first. */
  lemma NewAgainAfterSweep(ops: seq<Op>, retention: nat, i: nat, j: nat, key: SeenKey)
    requires ValidOps(ops, retention) && i < j
    requires AnswersNew(ops, retention, i, key) && AnswersNew(ops, retention, j, key)
    ensures exists m :: i < m < j && ops[m].Sweep? && Nanos(ops[m].at) > Nanos(ops[i].at) + retention
  {
    if forall m :: i < m < j && ops[m].Sweep? ==> Nanos(ops[m].at) <= Nanos(ops[i].at) + retention {
      EntryLasts(ops, retention, i, j, key);
    }
  }

  /** A mark that runs after a sweep is stamped at most skew before it. */
  predicate StampedWithin(ops: seq<Op>, skew: nat) {
    forall m, n :: 0 <= m < n < |ops| && ops[m].Sweep? && ops[n].Mark? ==> Nanos(ops[n].at) + skew >= Nanos(ops[m].at)
  }

  /** So two new answers are more than the retention apart, less what a reading can
      be overtaken by: without overtaking, by more than the whole retention. */
  lemma NewAnswersAreFarApart(ops: seq<Op>, retention: nat, skew: nat, i: nat, j: nat, key: SeenKey)
    requires ValidOps(ops, retention) && StampedWithin(ops, skew) && i < j
    requires AnswersNew(ops, retention, i, key) && AnswersNew(ops, retention, j, key)
    ensures Nanos(ops[j].at) - Nanos(ops[i].at) > retention - skew
  {
    NewAgainAfterSweep(ops, retention, i, j, key);
  }
}

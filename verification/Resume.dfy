/** Crash-safe dispatch: one adapter's stored cursor and dedupe set, across failed
    polls, store errors, sweeps, crashes and restarts, on a feed that only grows. */
module Resume {
  import opened Basics

  /** Paging: the events from at up to upto are still to be dispatched. */
  datatype Work = Between | Paging(upto: nat, at: nat)

  /** An adapter polled with no cursor starts from its seed. */
  datatype Process = Down | Up(cursor: Option<nat>, work: Work)

  /** persisted and seen survive a crash. admitted lists the feed positions that
      passed deduplication, in order; every index into it is in flight until its
      outcomes are audited (settled), or until a crash takes it (lost). origin is
      where the first poll from a seed began. clean says that so far MarkSeen never
      failed and nothing was swept. */
  datatype State = State(
    feed: seq<string>,
    persisted: Option<nat>,
    seen: set<string>,
    process: Process,
    admitted: seq<nat>,
    inFlight: set<nat>,
    settled: set<nat>,
    lost: set<nat>,
    origin: Option<nat>,
    clean: bool)

  const FRESH := State([], None, {}, Down, [], {}, {}, {}, None, true)

  /** seed is the feed position of the date the adapter would seed from now; it only
      matters to a poll that has no cursor, and a relative date moves it. */
  datatype Action =
    | Append(id: string)
    | Start(cursorRead: bool)
    | PollFails
    | PollReturns(seed: nat, upto: nat)
    | MarkNew
    | MarkDuplicate
    | MarkTrouble(stored: bool)
    | SaveCursor(saved: bool)
    | SettleOne(k: nat)
    | Sweep(gone: set<string>)
    | Crash
    | StopCleanly

  predicate MidPage(s: State) {
    s.process.Up? && s.process.work.Paging? && s.process.work.at < s.process.work.upto && s.process.work.at < |s.feed|
  }

  predicate Idle(s: State) {
    s.process.Up? && s.process.work.Between?
  }

  /** Where a poll begins: at the cursor, or at the seed. */
  function From(s: State, seed: nat): nat
    requires s.process.Up?
  {
    if s.process.cursor.Some? then s.process.cursor.value else seed
  }

  predicate Enabled(s: State, a: Action) {
    match a
    case Append(_) => true
    case Start(_) => s.process.Down?
    case PollFails => Idle(s)
    case PollReturns(seed, upto) => Idle(s) && From(s, seed) <= upto <= |s.feed|
    case MarkNew => MidPage(s) && s.feed[s.process.work.at] !in s.seen
    case MarkDuplicate => MidPage(s) && s.feed[s.process.work.at] in s.seen
    case MarkTrouble(_) => MidPage(s)
    case SaveCursor(_) => s.process.Up? && s.process.work.Paging? && s.process.work.at == s.process.work.upto
    case SettleOne(k) => s.process.Up? && k in s.inFlight
    case Sweep(_) => s.process.Up?
    case Crash => s.process.Up?
    case StopCleanly => Idle(s) && s.inFlight == {}
  }

  function NextEvent(s: State): State
    requires MidPage(s)
  {
    s.(process := s.process.(work := Paging(s.process.work.upto, s.process.work.at + 1)))
  }

  function Admit(s: State): State
    requires MidPage(s)
  {
    NextEvent(s).(admitted := s.admitted + [s.process.work.at], inFlight := s.inFlight + {|s.admitted|})
  }

  function Next(s: State, a: Action): State
    requires Enabled(s, a)
  {
    match a
    case Append(id) => s.(feed := s.feed + [id])
    case Start(cursorRead) => s.(process := Up(if cursorRead then s.persisted else None, Between))
    case PollFails => s
    case PollReturns(seed, upto) =>
      s.(process := s.process.(work := Paging(upto, From(s, seed))),
         origin := if FromSeed(s, a) && s.origin.None? then Some(seed) else s.origin)
    case MarkNew => Admit(s).(seen := s.seen + {s.feed[s.process.work.at]})
    case MarkDuplicate => NextEvent(s)
    case MarkTrouble(stored) =>
      Admit(s).(seen := if stored then s.seen + {s.feed[s.process.work.at]} else s.seen, clean := false)
    case SaveCursor(saved) =>
      var upto := Some(s.process.work.upto);
      s.(process := Up(upto, Between), persisted := if saved && upto != s.process.cursor then upto else s.persisted)
    case SettleOne(k) => s.(inFlight := s.inFlight - {k}, settled := s.settled + {k})
    case Sweep(gone) => s.(seen := s.seen - gone, clean := false)
    case Crash => s.(process := Down, lost := s.lost + s.inFlight, inFlight := {})
    case StopCleanly => s.(process := Down)
  }

  /** A poll with no cursor that came back. */
  predicate FromSeed(s: State, a: Action) {
    a.PollReturns? && s.process.Up? && s.process.cursor.None?
  }

  ghost predicate IsRun(states: seq<State>, acts: seq<Action>) {
    && |states| == |acts| + 1 && states[0] == FRESH
    && forall n :: 0 <= n < |acts| ==> Enabled(states[n], acts[n]) && states[n + 1] == Next(states[n], acts[n])
  }

  // ---- what holds whatever the seeds do ----

  /** Some admission carries this id. */
  predicate Reached(s: State, id: string) {
    exists k :: 0 <= k < |s.admitted| && s.admitted[k] < |s.feed| && s.feed[s.admitted[k]] == id
  }

  /** Admissions are in exactly one of the three states. */
  ghost predicate Partitioned(s: State) {
    && s.inFlight !! s.settled && s.inFlight !! s.lost && s.settled !! s.lost
    && forall k: nat :: k in s.inFlight + s.settled + s.lost <==> 0 <= k < |s.admitted|
  }

  predicate NoRepeats(s: State) {
    && (forall k :: 0 <= k < |s.admitted| && s.admitted[k] < |s.feed| ==> s.feed[s.admitted[k]] in s.seen)
    && forall a, b :: 0 <= a < b < |s.admitted| && s.admitted[a] < |s.feed| && s.admitted[b] < |s.feed| ==>
         s.feed[s.admitted[a]] != s.feed[s.admitted[b]]
  }

  /** Positions point into the feed, and anything read was read after a first seed. */
  predicate Placed(s: State) {
    && (forall k :: 0 <= k < |s.admitted| ==> s.admitted[k] < |s.feed|)
    && (s.persisted.Some? ==> s.persisted.value <= |s.feed| && s.origin.Some?)
    && (s.process.Up? && s.process.cursor.Some? ==> s.process.cursor.value <= |s.feed| && s.origin.Some?)
    && (s.process.Up? && s.process.work.Paging? ==>
          s.process.work.at <= s.process.work.upto <= |s.feed| && s.origin.Some?)
  }

  ghost predicate Inv(s: State) {
    && Placed(s) && Partitioned(s)
    && (forall id :: id in s.seen ==> Reached(s, id))
    && (s.process.Down? ==> s.inFlight == {})
    && (s.clean ==> NoRepeats(s))
  }

  /** Reached only grows: the feed and the admissions are only ever extended. */
  lemma ReachedStays(s: State, s': State, id: string)
    requires s.feed <= s'.feed && s.admitted <= s'.admitted && Reached(s, id)
    ensures Reached(s', id)
  {
    var k :| 0 <= k < |s.admitted| && s.admitted[k] < |s.feed| && s.feed[s.admitted[k]] == id;
    assert s'.feed[s'.admitted[k]] == id;
  }

  lemma AdmitReaches(s: State)
    requires MidPage(s)
    ensures Reached(Admit(s), s.feed[s.process.work.at])
  {
    assert Admit(s).admitted[|s.admitted|] == s.process.work.at;
  }

  lemma StepPartitioned(s: State, a: Action)
    requires Enabled(s, a) && Partitioned(s)
    ensures Partitioned(Next(s, a))
  {
    assert |s.admitted| !in s.inFlight + s.settled + s.lost;
  }

  lemma StepSeen(s: State, a: Action)
    requires Enabled(s, a) && forall id :: id in s.seen ==> Reached(s, id)
    ensures forall id :: id in Next(s, a).seen ==> Reached(Next(s, a), id)
  {
    var s' := Next(s, a);
    forall id | id in s.seen ensures Reached(s', id) {
      ReachedStays(s, s', id);
    }
    if a.MarkNew? || a.MarkTrouble? {
      AdmitReaches(s);
      ReachedStays(Admit(s), s', s.feed[s.process.work.at]);
    }
  }

  lemma StepPlaced(s: State, a: Action)
    requires Enabled(s, a) && Placed(s)
    ensures Placed(Next(s, a))
  {
  }

  lemma StepInv(s: State, a: Action)
    requires Enabled(s, a) && Inv(s)
    ensures Inv(Next(s, a))
  {
    StepPlaced(s, a);
    StepPartitioned(s, a);
    StepSeen(s, a);
  }

  lemma {:induction false} RunInv(states: seq<State>, acts: seq<Action>, n: nat)
    requires IsRun(states, acts) && n < |states|
    ensures Inv(states[n])
  {
    if n == 0 {
    } else {
      RunInv(states, acts, n - 1);
      StepInv(states[n - 1], acts[n - 1]);
    }
  }

  // ---- what holds while no seed lies past what is stored ----

  /** Everything from lo up to n has had its id admitted. */
  predicate ReachedFrom(s: State, lo: nat, n: nat) {
    n <= |s.feed| && forall x :: lo <= x < n ==> Reached(s, s.feed[x])
  }

  lemma ReachedFromStays(s: State, s': State, lo: nat, n: nat)
    requires s.feed <= s'.feed && s.admitted <= s'.admitted && ReachedFrom(s, lo, n)
    ensures ReachedFrom(s', lo, n)
  {
    forall x | lo <= x < n ensures Reached(s', s'.feed[x]) {
      ReachedStays(s, s', s.feed[x]);
    }
  }

  /** From the first seed on, nothing before a cursor or behind a page was passed over. */
  predicate Covered(s: State) {
    && (s.persisted.Some? ==> s.origin.Some? && ReachedFrom(s, s.origin.value, s.persisted.value))
    && (s.process.Up? && s.process.cursor.Some? ==> s.origin.Some? && ReachedFrom(s, s.origin.value, s.process.cursor.value))
    && (s.process.Up? && s.process.work.Paging? ==> s.origin.Some? && ReachedFrom(s, s.origin.value, s.process.work.at))
  }

  /** A poll from a seed begins no later than the stored cursor, or than the first
      seed while nothing is stored. */
  predicate SeedWithin(s: State, a: Action) {
    FromSeed(s, a) ==>
      && (s.persisted.Some? ==> a.seed <= s.persisted.value)
      && (s.persisted.None? && s.origin.Some? ==> a.seed <= s.origin.value)
  }

  ghost predicate SeedsWithin(states: seq<State>, acts: seq<Action>, n: nat)
    requires |states| == |acts| + 1
  {
    forall m :: 0 <= m < n && m < |acts| ==> SeedWithin(states[m], acts[m])
  }

  /** What was covered stays so through any step. */
  lemma CoveredStays(s: State, s': State)
    requires s.feed <= s'.feed && s.admitted <= s'.admitted && s.origin.Some? && s'.origin == s.origin && Covered(s)
    ensures s.persisted.Some? ==> ReachedFrom(s', s.origin.value, s.persisted.value)
    ensures s.process.Up? && s.process.cursor.Some? ==> ReachedFrom(s', s.origin.value, s.process.cursor.value)
    ensures s.process.Up? && s.process.work.Paging? ==> ReachedFrom(s', s.origin.value, s.process.work.at)
  {
    if s.persisted.Some? {
      ReachedFromStays(s, s', s.origin.value, s.persisted.value);
    }
    if s.process.Up? && s.process.cursor.Some? {
      ReachedFromStays(s, s', s.origin.value, s.process.cursor.value);
    }
    if s.process.Up? && s.process.work.Paging? {
      ReachedFromStays(s, s', s.origin.value, s.process.work.at);
    }
  }

  lemma MarkCovers(s: State, a: Action)
    requires Enabled(s, a) && Inv(s) && Covered(s) && MidPage(s) && (a.MarkNew? || a.MarkDuplicate? || a.MarkTrouble?)
    ensures Covered(Next(s, a))
  {
    var s', at := Next(s, a), s.process.work.at;
    CoveredStays(s, s');
    assert Reached(s', s.feed[at]) by {
      if a.MarkDuplicate? {
        ReachedStays(s, s', s.feed[at]);
      } else {
        AdmitReaches(s);
        ReachedStays(Admit(s), s', s.feed[at]);
      }
    }
  }

  lemma StepCovered(s: State, a: Action)
    requires Enabled(s, a) && Inv(s) && Covered(s) && SeedWithin(s, a)
    ensures Covered(Next(s, a))
  {
    var s' := Next(s, a);
    if a.MarkNew? || a.MarkDuplicate? || a.MarkTrouble? {
      MarkCovers(s, a);
    } else if s.origin.Some? {
      CoveredStays(s, s');
    }
  }

  lemma {:induction false} RunCovered(states: seq<State>, acts: seq<Action>, n: nat)
    requires IsRun(states, acts) && n < |states| && SeedsWithin(states, acts, n)
    ensures Covered(states[n])
  {
    if n == 0 {
    } else {
      RunCovered(states, acts, n - 1);
      RunInv(states, acts, n - 1);
      StepCovered(states[n - 1], acts[n - 1]);
    }
  }

  predicate AdmissionOf(s: State, k: nat, id: string) {
    k < |s.admitted| && s.admitted[k] < |s.feed| && s.feed[s.admitted[k]] == id
  }

  /** The feed position lies between the first seed and the stored cursor. */
  predicate Stored(s: State, x: nat) {
    s.origin.Some? && s.persisted.Some? && s.origin.value <= x < s.persisted.value
  }

  /** Under any pattern of failures, crashes and restarts, as long as no poll from a
      seed begins past what is stored: every id from the first seed up to the stored
      cursor was dispatched at least once. Each dispatch has reached the audit log,
      is in flight, or was in flight when a crash hit. */
  lemma AtLeastOnceDispatched(states: seq<State>, acts: seq<Action>, n: nat, x: nat)
    requires IsRun(states, acts) && n < |states| && SeedsWithin(states, acts, n) && Stored(states[n], x)
    ensures x < |states[n].feed|
    ensures exists k: nat :: (
      AdmissionOf(states[n], k, states[n].feed[x])
      && (k in states[n].settled || k in states[n].inFlight || k in states[n].lost))
  {
    var s := states[n];
    RunInv(states, acts, n);
    RunCovered(states, acts, n);
    assert Reached(s, s.feed[x]);
    var k :| 0 <= k < |s.admitted| && s.admitted[k] < |s.feed| && s.feed[s.admitted[k]] == s.feed[x];
    assert AdmissionOf(s, k, s.feed[x]);
    assert k in s.inFlight + s.settled + s.lost;
  }

  /** No id is dispatched twice if MarkSeen never failed and nothing was swept,
      crashes, restarts and moving seeds notwithstanding. */
  lemma AtMostOnceDispatched(states: seq<State>, acts: seq<Action>, n: nat, id: string, j: nat, k: nat)
    requires IsRun(states, acts) && n < |states| && states[n].clean
    requires AdmissionOf(states[n], j, id) && AdmissionOf(states[n], k, id)
    ensures j == k
  {
    RunInv(states, acts, n);
    assert NoRepeats(states[n]);
  }

  /** Together: exactly once. */
  lemma ExactlyOnceDispatched(states: seq<State>, acts: seq<Action>, n: nat, x: nat)
    requires IsRun(states, acts) && n < |states| && SeedsWithin(states, acts, n) && Stored(states[n], x)
    requires states[n].clean
    ensures x < |states[n].feed|
    ensures exists k: nat :: (
      AdmissionOf(states[n], k, states[n].feed[x])
      && forall j: nat :: AdmissionOf(states[n], j, states[n].feed[x]) ==> j == k)
  {
    AtLeastOnceDispatched(states, acts, n, x);
    var id := states[n].feed[x];
    var k: nat :| AdmissionOf(states[n], k, id);
    forall j: nat | AdmissionOf(states[n], j, id) ensures j == k {
      AtMostOnceDispatched(states, acts, n, id, j, k);
    }
  }

  // ---- when a seed does not move, and when it does ----

  /** Nothing was read from before the seed. */
  predicate NotBefore(s: State, seed: nat) {
    && (s.origin.Some? ==> s.origin.value == seed)
    && (s.persisted.Some? ==> seed <= s.persisted.value)
    && (s.process.Up? && s.process.cursor.Some? ==> seed <= s.process.cursor.value)
    && (s.process.Up? && s.process.work.Paging? ==> seed <= s.process.work.at)
  }

  lemma StepNotBefore(s: State, a: Action, seed: nat)
    requires Enabled(s, a) && Placed(s) && NotBefore(s, seed) && (FromSeed(s, a) ==> a.seed == seed)
    ensures NotBefore(Next(s, a), seed) && SeedWithin(s, a)
  {
  }

  /** A seed that stays where it was, as a file's start and a date already past do,
      always meets the condition. */
  lemma {:induction false} FixedSeedIsWithin(states: seq<State>, acts: seq<Action>, seed: nat, n: nat)
    requires IsRun(states, acts) && n < |states|
    requires forall m :: 0 <= m < n && FromSeed(states[m], acts[m]) ==> acts[m].seed == seed
    ensures SeedsWithin(states, acts, n) && NotBefore(states[n], seed)
  {
    if n == 0 {
    } else {
      FixedSeedIsWithin(states, acts, seed, n - 1);
      RunInv(states, acts, n - 1);
      StepNotBefore(states[n - 1], acts[n - 1], seed);
    }
  }

  /** Nothing ended the process between these steps, and no page was finished. */
  ghost predicate StillOn(acts: seq<Action>, m: nat, n: nat)
    requires n <= |acts|
  {
    forall x :: m < x < n ==> !acts[x].SaveCursor? && !acts[x].Crash? && !acts[x].StopCleanly?
  }

  lemma StepKeepsCursor(s: State, a: Action)
    requires Enabled(s, a) && s.process.Up? && !a.SaveCursor? && !a.Crash? && !a.StopCleanly?
    ensures Next(s, a).process.Up? && Next(s, a).process.cursor == s.process.cursor
  {
  }

  lemma {:induction false} CursorHeld(states: seq<State>, acts: seq<Action>, m: nat, n: nat)
    requires IsRun(states, acts) && m < n <= |acts| && acts[m].Start? && StillOn(acts, m, n)
    ensures states[n].process.Up?
    ensures states[n].process.cursor == if acts[m].cursorRead then states[m].persisted else None
  {
    if n > m + 1 {
      CursorHeld(states, acts, m, n - 1);
      StepKeepsCursor(states[n - 1], acts[n - 1]);
    }
  }

  /** The first page after a start begins at the stored cursor if that could be read,
      and at the seed only if it could not or there was none. */
  lemma StartResumes(states: seq<State>, acts: seq<Action>, m: nat, n: nat)
    requires IsRun(states, acts) && m < n < |acts| && acts[m].Start? && StillOn(acts, m, n) && acts[n].PollReturns?
    ensures states[n + 1].process.Up?
    ensures states[n + 1].process.work == Paging(acts[n].upto,
      if acts[m].cursorRead && states[m].persisted.Some? then states[m].persisted.value else acts[n].seed)
  {
    CursorHeld(states, acts, m, n);
  }

  lemma {:induction false} CursorHeldAfterPage(states: seq<State>, acts: seq<Action>, m: nat, n: nat)
    requires IsRun(states, acts) && m < n <= |acts| && acts[m].SaveCursor? && StillOn(acts, m, n)
    ensures states[m].process.Up? && states[m].process.work.Paging? && states[n].process.Up?
    ensures states[n].process.cursor == Some(states[m].process.work.upto)
  {
    if n > m + 1 {
      CursorHeldAfterPage(states, acts, m, n - 1);
      StepKeepsCursor(states[n - 1], acts[n - 1]);
    }
  }

  /** And every later one begins where the one before it ended, saved or not. */
  lemma PagesFollowOn(states: seq<State>, acts: seq<Action>, m: nat, n: nat)
    requires IsRun(states, acts) && m < n < |acts| && acts[m].SaveCursor? && StillOn(acts, m, n) && acts[n].PollReturns?
    ensures states[m].process.Up? && states[m].process.work.Paging? && states[n + 1].process.Up?
    ensures states[n + 1].process.work == Paging(acts[n].upto, states[m].process.work.upto)
  {
    CursorHeldAfterPage(states, acts, m, n);
  }

  /** Only a cursor that moved is stored, so one that could not be is not tried again
      until a page has something new. */
  lemma UnmovedIsNotStored(states: seq<State>, acts: seq<Action>, m: nat, n: nat)
    requires IsRun(states, acts) && m < n < |acts| && acts[m].SaveCursor? && acts[n].SaveCursor? && StillOn(acts, m, n)
    requires states[m].process.Up? && states[m].process.work.Paging?
    requires states[n].process.Up? && states[n].process.work.Paging?
    ensures states[n + 1].persisted
      == if acts[n].saved && states[n].process.work.upto != states[m].process.work.upto
         then Some(states[n].process.work.upto) else states[n].persisted
  {
    CursorHeldAfterPage(states, acts, m, n);
  }

  /** This step looks at the event at x. */
  predicate LooksAt(s: State, a: Action, x: nat) {
    (a.MarkNew? || a.MarkDuplicate? || a.MarkTrouble?) && MidPage(s) && s.process.work.at == x
  }

  /** The event at x was looked at in the first n steps. */
  ghost predicate Looked(states: seq<State>, acts: seq<Action>, x: nat, n: nat)
    requires |states| == |acts| + 1
  {
    exists j :: 0 <= j < n && j < |acts| && LooksAt(states[j], acts[j], x)
  }

  /** A poll from a seed beyond x, before anyone had looked at x. */
  predicate Jumps(s: State, a: Action, x: nat) {
    FromSeed(s, a) && a.seed > x
  }

  /** Something the process has got to lies past x. */
  predicate Beyond(s: State, x: nat) {
    || (s.persisted.Some? && s.persisted.value > x)
    || (s.process.Up? && s.process.cursor.Some? && s.process.cursor.value > x)
    || (s.process.Up? && s.process.work.Paging? && s.process.work.at > x)
  }

  lemma StepBeyond(s: State, a: Action, x: nat)
    requires Enabled(s, a) && Beyond(Next(s, a), x)
    ensures Beyond(s, x) || LooksAt(s, a, x) || Jumps(s, a, x)
  {
  }

  /** Whatever the seeds do: an event below the stored cursor was looked at, unless a
      poll from a later seed jumped it before anyone had. */
  lemma {:induction false} UnreadMeansJumped(states: seq<State>, acts: seq<Action>, n: nat, x: nat)
    requires IsRun(states, acts) && n < |states| && Beyond(states[n], x)
    ensures Looked(states, acts, x, n)
      || exists m :: 0 <= m < n && Jumps(states[m], acts[m], x) && !Looked(states, acts, x, m)
  {
    if n == 0 {
    } else {
      StepBeyond(states[n - 1], acts[n - 1], x);
      if Looked(states, acts, x, n - 1) {
        var j :| 0 <= j < n - 1 && LooksAt(states[j], acts[j], x);
        assert Looked(states, acts, x, n);
      } else if LooksAt(states[n - 1], acts[n - 1], x) {
        assert Looked(states, acts, x, n);
      } else if Beyond(states[n - 1], x) {
        UnreadMeansJumped(states, acts, n - 1, x);
      }
    }
  }

  /** Everything the process could go on from lies past x. */
  predicate Past(s: State, x: nat) {
    && s.persisted.Some? && s.persisted.value > x
    && (s.process.Up? && s.process.cursor.Some? ==> s.process.cursor.value > x)
    && (s.process.Up? && s.process.work.Paging? ==> s.process.work.at > x)
  }

  lemma RunPast(states: seq<State>, acts: seq<Action>, n: nat, x: nat)
    requires IsRun(states, acts) && n < |acts| && Past(states[n], x)
    requires FromSeed(states[n], acts[n]) ==> acts[n].seed > x
    ensures Past(states[n + 1], x) && !LooksAt(states[n], acts[n], x)
  {
    RunInv(states, acts, n);
    StepPast(states[n], acts[n], x);
  }

  lemma StepPast(s: State, a: Action, x: nat)
    requires Enabled(s, a) && Placed(s) && Past(s, x) && (FromSeed(s, a) ==> a.seed > x)
    ensures Past(Next(s, a), x) && !LooksAt(s, a, x)
  {
  }

  lemma {:induction false} StaysPast(states: seq<State>, acts: seq<Action>, m: nat, n: nat, x: nat)
    requires IsRun(states, acts) && m <= n < |states| && Past(states[m], x)
    requires forall j :: m <= j < n && FromSeed(states[j], acts[j]) ==> acts[j].seed > x
    ensures Past(states[n], x) && forall j :: m <= j < n ==> !LooksAt(states[j], acts[j], x)
    decreases n - m
  {
    if m == n {
    } else {
      StaysPast(states, acts, m, n - 1, x);
      RunPast(states, acts, n - 1, x);
    }
  }

  /** The page of a poll from a seed is under way, past x. */
  lemma {:induction false} PageStaysPast(states: seq<State>, acts: seq<Action>, m: nat, k: nat, x: nat)
    requires IsRun(states, acts) && m < k < |states|
    requires FromSeed(states[m], acts[m]) && acts[m].seed > x
    requires forall j :: m < j < k ==> !acts[j].Crash? && !acts[j].SaveCursor?
    ensures states[k].process.Up? && states[k].process.cursor.None? && states[k].process.work.Paging?
    ensures states[k].process.work.at > x && forall j :: m <= j < k ==> !LooksAt(states[j], acts[j], x)
  {
    assert Enabled(states[k - 1], acts[k - 1]) && states[k] == Next(states[k - 1], acts[k - 1]);
    if k == m + 1 {
    } else {
      PageStaysPast(states, acts, m, k - 1, x);
    }
  }

  /** The other direction: a page read from a seed and then saved leaves every
      position before that seed behind for good. None of them is looked at from that
      poll on, unless a later poll from a seed begins at or before it. */
  lemma JumpedIsNeverRead(states: seq<State>, acts: seq<Action>, m: nat, k: nat, n: nat, x: nat)
    requires IsRun(states, acts) && m < k < n < |states|
    requires FromSeed(states[m], acts[m]) && acts[m].seed > x
    requires acts[k] == SaveCursor(true) && forall j :: m < j < k ==> !acts[j].Crash? && !acts[j].SaveCursor?
    requires forall j :: k < j < n && FromSeed(states[j], acts[j]) ==> acts[j].seed > x
    ensures Past(states[n], x) && forall j :: m <= j < n ==> !LooksAt(states[j], acts[j], x)
  {
    PageStaysPast(states, acts, m, k, x);
    assert Enabled(states[k], acts[k]) && states[k + 1] == Next(states[k], acts[k]);
    StaysPast(states, acts, k + 1, n, x);
  }

  // ---- dispatched and audited ----

  /** Some crash among the first n steps came while this dispatch was in flight. */
  ghost predicate CrashHit(states: seq<State>, acts: seq<Action>, k: nat, n: nat)
    requires |states| == |acts| + 1
  {
    exists m :: 0 <= m < n && m < |acts| && acts[m].Crash? && k in states[m].inFlight
  }

  /** A dispatch is lost exactly by such a crash. */
  lemma {:induction false} LostByCrash(states: seq<State>, acts: seq<Action>, n: nat, k: nat)
    requires IsRun(states, acts) && n < |states|
    ensures k in states[n].lost <==> CrashHit(states, acts, k, n)
  {
    if n == 0 {
    } else {
      LostByCrash(states, acts, n - 1, k);
      assert states[n] == Next(states[n - 1], acts[n - 1]);
      if CrashHit(states, acts, k, n - 1) {
        var m :| 0 <= m < n - 1 && acts[m].Crash? && k in states[m].inFlight;
        assert CrashHit(states, acts, k, n);
      } else if acts[n - 1].Crash? && k in states[n - 1].inFlight {
        assert CrashHit(states, acts, k, n);
      }
    }
  }

  /** A dispatch has reached the audit log exactly unless it is still under way or
      some crash came while it was. */
  lemma SettledExactly(states: seq<State>, acts: seq<Action>, n: nat, k: nat)
    requires IsRun(states, acts) && n < |states| && k < |states[n].admitted|
    ensures k in states[n].settled <==> k !in states[n].inFlight && !CrashHit(states, acts, k, n)
  {
    RunInv(states, acts, n);
    LostByCrash(states, acts, n, k);
    assert k in states[n].inFlight + states[n].settled + states[n].lost;
  }

  /** The id reached the audit log at least once. */
  predicate Audited(s: State, id: string) {
    exists k :: 0 <= k < |s.admitted| && AdmissionOf(s, k, id) && k in s.settled
  }

  /** Dispatched is not delivered: an id has reached the audit log exactly if one of
      its dispatches is over and no crash came in the middle of that one. */
  lemma AuditedExactly(states: seq<State>, acts: seq<Action>, n: nat, id: string)
    requires IsRun(states, acts) && n < |states|
    ensures Audited(states[n], id)
      <==> exists k: nat :: AdmissionOf(states[n], k, id) && k !in states[n].inFlight && !CrashHit(states, acts, k, n)
  {
    forall k: nat | AdmissionOf(states[n], k, id)
      ensures k in states[n].settled <==> k !in states[n].inFlight && !CrashHit(states, acts, k, n)
    {
      SettledExactly(states, acts, n, k);
    }
  }

  /** Without a crash nothing is lost: whenever the process is down, every id from
      the first seed up to the stored cursor has reached the audit log, whatever else
      failed, as long as no poll from a seed begins past what is stored. */
  lemma AuditedUnlessCrashed(states: seq<State>, acts: seq<Action>, n: nat, x: nat)
    requires IsRun(states, acts) && n < |states| && SeedsWithin(states, acts, n) && Stored(states[n], x)
    requires states[n].process.Down? && forall m :: 0 <= m < n ==> !acts[m].Crash?
    ensures x < |states[n].feed| && Audited(states[n], states[n].feed[x])
  {
    AtLeastOnceDispatched(states, acts, n, x);
    RunInv(states, acts, n);
    var k: nat :| AdmissionOf(states[n], k, states[n].feed[x]);
    AuditedExactly(states, acts, n, states[n].feed[x]);
    assert k !in states[n].inFlight && !CrashHit(states, acts, k, n);
  }

  // ---- runs that lose an event ----

  ghost predicate Leads(s: State, a: Action, s': State) {
    Enabled(s, a) && Next(s, a) == s'
  }

  lemma OneMore(states: seq<State>, acts: seq<Action>, a: Action, s': State)
    returns (states': seq<State>, acts': seq<Action>)
    requires IsRun(states, acts) && Leads(states[|acts|], a, s')
    ensures IsRun(states', acts') && states'[|acts'|] == s' && acts' == acts + [a]
  {
    states', acts' := states + [s'], acts + [a];
  }

  /** The first event is read and marked; its page is not yet saved. */
  const MARKED := State(["first"], None, {"first"}, Up(None, Paging(1, 1)), [0], {0}, {}, {}, Some(0), true)

  const SAVED := MARKED.(process := Up(Some(1), Between), persisted := Some(1))
  const UNSAVED := MARKED.(process := Up(Some(1), Between))

  lemma FirstEvent() returns (states: seq<State>, acts: seq<Action>)
    ensures IsRun(states, acts) && states[|acts|] == MARKED
    ensures acts == [Append("first"), Start(true), PollReturns(0, 1), MarkNew]
  {
    var up := FRESH.(feed := ["first"], process := Up(None, Between));
    assert FRESH.feed + ["first"] == ["first"];
    states, acts := [FRESH], [];
    states, acts := OneMore(states, acts, Append("first"), FRESH.(feed := ["first"]));
    states, acts := OneMore(states, acts, Start(true), up);
    states, acts := OneMore(states, acts, PollReturns(0, 1), up.(process := Up(None, Paging(1, 0)), origin := Some(0)));
    states, acts := OneMore(states, acts, MarkNew, MARKED);
  }

  /** The documented gap, concretely: a crash between marking and delivering leaves
      an event that dedupe then swallows, and the cursor moves past it. */
  lemma CrashLosesAnEvent() returns (states: seq<State>, acts: seq<Action>)
    ensures IsRun(states, acts)
    ensures
      var s := states[|acts|];
      s.clean && s.persisted == Some(1) && |s.feed| == 1 && s.inFlight == {} && !Audited(s, s.feed[0])
  {
    var down := MARKED.(process := Down, inFlight := {}, lost := {0});
    states, acts := FirstEvent();
    states, acts := OneMore(states, acts, Crash, down);
    states, acts := OneMore(states, acts, Start(true), down.(process := Up(None, Between)));
    states, acts := OneMore(states, acts, PollReturns(0, 1), down.(process := Up(None, Paging(1, 0))));
    states, acts := OneMore(states, acts, MarkDuplicate, down.(process := Up(None, Paging(1, 1))));
    states, acts := OneMore(states, acts, SaveCursor(true), down.(process := Up(Some(1), Between), persisted := Some(1)));
  }

  /** An id between the first seed and the stored cursor that no admission carries. */
  predicate PassedOver(s: State, x: nat) {
    Stored(s, x) && x < |s.feed| && !Reached(s, s.feed[x])
  }

  lemma SecondPassedOver(s: State)
    requires s.feed == ["first", "second"] || s.feed == ["first", "second", "third"]
    requires s.admitted == [0] && s.origin == Some(0) && s.persisted.Some? && s.persisted.value > 1
    ensures PassedOver(s, 1)
  {
    assert s.feed[1] == "second" && s.feed[0] == "first";
  }

  /** The first event is done with, its cursor saved or not, and the process is down. */
  function Rested(saved: bool): State {
    MARKED.(process := Down, inFlight := {}, settled := {0}, persisted := if saved then Some(1) else None)
  }

  lemma FirstEventDone(saved: bool) returns (states: seq<State>, acts: seq<Action>)
    ensures IsRun(states, acts) && states[|acts|] == Rested(saved)
    ensures acts == [Append("first"), Start(true), PollReturns(0, 1), MarkNew, SaveCursor(saved), SettleOne(0),
                     if saved then StopCleanly else Crash]
  {
    var after := if saved then SAVED else UNSAVED;
    states, acts := FirstEvent();
    states, acts := OneMore(states, acts, SaveCursor(saved), after);
    states, acts := OneMore(states, acts, SettleOne(0), after.(inFlight := {}, settled := {0}));
    states, acts := OneMore(states, acts, if saved then StopCleanly else Crash, Rested(saved));
  }

  /** New data only, spelled as no time at all before now, loses an event without any
      crash: two come in while the process is down, its cursor cannot be read on the
      next start, and the poll then begins after both. */
  lemma UnreadCursorLosesEvents() returns (states: seq<State>, acts: seq<Action>)
    ensures IsRun(states, acts) && Crash !in acts
    ensures states[|acts|].clean && PassedOver(states[|acts|], 1)
  {
    var down := Rested(true);
    assert down.feed + ["second"] == ["first", "second"];
    assert ["first", "second"] + ["third"] == ["first", "second", "third"];
    var up := down.(feed := ["first", "second", "third"], process := Up(None, Between));
    states, acts := FirstEventDone(true);
    states, acts := OneMore(states, acts, Append("second"), down.(feed := ["first", "second"]));
    states, acts := OneMore(states, acts, Append("third"), down.(feed := ["first", "second", "third"]));
    states, acts := OneMore(states, acts, Start(false), up);
    states, acts := OneMore(states, acts, PollReturns(3, 3), up.(process := Up(None, Paging(3, 3))));
    states, acts := OneMore(states, acts, SaveCursor(true), up.(process := Up(Some(3), Between), persisted := Some(3)));
    SecondPassedOver(states[|acts|]);
  }

  /** So does a first cursor that was never saved: the process dies, and the second
      cold start, whose cursor read succeeds, seeds later than the first. */
  lemma UnsavedCursorLosesEvents() returns (states: seq<State>, acts: seq<Action>)
    ensures IsRun(states, acts) && Start(false) !in acts
    ensures states[|acts|].clean && PassedOver(states[|acts|], 1)
  {
    var down := Rested(false);
    assert down.feed + ["second"] == ["first", "second"];
    var up := down.(feed := ["first", "second"], process := Up(None, Between));
    states, acts := FirstEventDone(false);
    states, acts := OneMore(states, acts, Append("second"), down.(feed := ["first", "second"]));
    states, acts := OneMore(states, acts, Start(true), up);
    states, acts := OneMore(states, acts, PollReturns(2, 2), up.(process := Up(None, Paging(2, 2))));
    states, acts := OneMore(states, acts, SaveCursor(true), up.(process := Up(Some(2), Between), persisted := Some(2)));
    SecondPassedOver(states[|acts|]);
  }
}

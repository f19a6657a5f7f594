/** internal/adapter/geotab/cache.go: a bounded, expiring FIFO map in front of a
    fetch that runs with the lock released. */
module Cache {
  import opened Basics
  import opened Fifo

  datatype Entity = Entity(name: string, vin: string, code: Option<int>, kind: string, source: string)

  datatype Entry = Entry(entity: Entity, at: int)

  /** One answer of a fetch, as it was stored: for which key, what, and when. */
  datatype Answer = Answer(key: string, entity: Entity, at: int)

  const DEFAULT_REFRESH: int := 3_600_000_000_000
  const DEFAULT_SIZE: int := 10000

  function KeyFor(typeName: string, id: string): string {
    typeName + "/" + id
  }

  /** Entity types without a slash never share a key. */
  lemma {:induction false} KeysNeverMix(t: string, i: string, u: string, j: string)
    requires '/' !in t && '/' !in u && KeyFor(t, i) == KeyFor(u, j)
    ensures t == u && i == j
  {
    var k := KeyFor(t, i);
    assert k[|t|] == '/' && k[|u|] == '/';
    forall n | 0 <= n < |t| ensures k[n] != '/' {
      assert k[n] == t[n];
    }
    forall n | 0 <= n < |u| ensures k[n] != '/' {
      assert k[n] == u[n];
    }
    assert t == k[..|t|] && u == k[..|u|];
    assert i == k[|t| + 1..] && j == k[|u| + 1..];
  }

  /** With a slash in a type name they can. */
  lemma SlashesMix()
    ensures KeyFor("Diagnostic/x", "y") == KeyFor("Diagnostic", "x/y")
  {
    assert KeyFor("Diagnostic/x", "y") == "Diagnostic/x/y";
  }

  /** A put by some other call, made while this one's fetch is out. */
  datatype Put = Put(key: string, entity: Entity, at: int)

  function AnswersOf(puts: seq<Put>): set<Answer> {
    if puts == [] then {}
    else
      var last := puts[|puts| - 1];
      AnswersOf(puts[..|puts| - 1]) + {Answer(last.key, last.entity, last.at)}
  }

  ghost predicate Sourced(entries: map<string, Entry>, answers: set<Answer>) {
    forall k :: k in entries ==> Answer(k, entries[k].entity, entries[k].at) in answers
  }

  lemma PutIsSourced(entries: map<string, Entry>, order: seq<string>, max: nat, key: string, e: Entry, answers: set<Answer>)
    requires Sourced(entries, answers)
    ensures Sourced(Stored(entries, order, max, key, e), answers + {Answer(key, e.entity, e.at)})
  {
  }

  /** What Valid says of the fields. */
  ghost predicate Holding(entries: map<string, Entry>, order: seq<string>, inserted: seq<string>, answers: set<Answer>, max: nat) {
    // nothing is held that a fetch did not return
    IsFifo(entries, order, inserted, max) && Sourced(entries, answers)
  }

  lemma PutKeepsValid(entries: map<string, Entry>, order: seq<string>, inserted: seq<string>, answers: set<Answer>,
                      max: nat, key: string, e: Entry, held: map<string, Entry>, kept: seq<string>,
                      inserted': seq<string>, answers': set<Answer>)
    requires max > 0 && Holding(entries, order, inserted, answers, max)
    requires held == Stored(entries, order, max, key, e) && kept == Reordered(entries, order, max, key)
    requires inserted' == Logged(entries, inserted, key) && answers' == answers + {Answer(key, e.entity, e.at)}
    ensures Holding(held, kept, inserted', answers', max)
    ensures Replaced(entries, held, key, e)
    ensures kept == PutOrder(order, max, key)
  {
    PutKeepsFifo(entries, order, inserted, max, key, e);
    PutIsSourced(entries, order, max, key, e, answers);
    SameOrder(entries, order, inserted, max, key);
    StoredReplaces(entries, order, max, key, e);
  }

  function KeysOf(typeName: string, ids: set<string>): set<string> {
    set id | id in ids :: KeyFor(typeName, id)
  }

  lemma KeysDiffer(typeName: string, i: string, j: string)
    ensures KeyFor(typeName, i) == KeyFor(typeName, j) <==> i == j
  {
    assert KeyFor(typeName, i)[|typeName| + 1..] == i && KeyFor(typeName, j)[|typeName| + 1..] == j;
  }

  lemma ListOneMore(typeName: string, keys: seq<string>, ids: set<string>, id: string)
    requires Lists(keys, KeysOf(typeName, ids)) && id !in ids
    ensures Lists(keys + [KeyFor(typeName, id)], KeysOf(typeName, ids + {id}))
  {
    forall j | j in ids ensures KeyFor(typeName, j) != KeyFor(typeName, id) {
      KeysDiffer(typeName, j, id);
    }
    assert KeyFor(typeName, id) !in keys;
  }

  /** The answers these ids brought. */
  function Fetched(typeName: string, fetched: map<string, Entity>, stamp: string -> int, ids: set<string>): set<Answer> {
    set id | id in fetched && id in ids :: Answer(KeyFor(typeName, id), fetched[id], stamp(id))
  }

  lemma FetchedOneMore(typeName: string, fetched: map<string, Entity>, stamp: string -> int, ids: set<string>, id: string)
    requires id in fetched
    ensures Fetched(typeName, fetched, stamp, ids + {id})
      == Fetched(typeName, fetched, stamp, ids) + {Answer(KeyFor(typeName, id), fetched[id], stamp(id))}
  {
  }

  /** The key is held with this entry, and what else is held is as it was. */
  ghost predicate Replaced(before: map<string, Entry>, after: map<string, Entry>, key: string, e: Entry) {
    && key in after && after[key] == e
    && forall k :: k in after && k != key ==> k in before && after[k] == before[k]
  }

  lemma StoredReplaces(entries: map<string, Entry>, order: seq<string>, max: nat, key: string, e: Entry)
    ensures Replaced(entries, Stored(entries, order, max, key, e), key, e)
  {
  }

  /** What is held of these ids is what was fetched, under its stamp. */
  ghost predicate Holds(entries: map<string, Entry>, typeName: string, fetched: map<string, Entity>,
                        stamp: string -> int, ids: set<string>) {
    forall id :: id in fetched && id in ids && KeyFor(typeName, id) in entries ==>
      entries[KeyFor(typeName, id)] == Entry(fetched[id], stamp(id))
  }

  lemma HoldsOneMore(before: map<string, Entry>, entries: map<string, Entry>, typeName: string,
                     fetched: map<string, Entity>, stamp: string -> int, ids: set<string>, id: string)
    requires Holds(before, typeName, fetched, stamp, ids) && id in fetched
    requires Replaced(before, entries, KeyFor(typeName, id), Entry(fetched[id], stamp(id)))
    ensures Holds(entries, typeName, fetched, stamp, ids + {id})
  {
    forall j | j in fetched && j in ids + {id} && KeyFor(typeName, j) in entries
      ensures entries[KeyFor(typeName, j)] == Entry(fetched[j], stamp(j))
    {
      KeysDiffer(typeName, j, id);
    }
  }

  /** A fill that has dealt with these ids, in the order of keys. */
  ghost predicate FilledSoFar(entries: map<string, Entry>, order: seq<string>, typeName: string, fetched: map<string, Entity>,
                              stamp: string -> int, ids: set<string>, keys: seq<string>, start: seq<string>, max: nat) {
    && Lists(keys, KeysOf(typeName, ids)) && order == OrderAfter(start, max, keys)
    && Holds(entries, typeName, fetched, stamp, ids)
  }

  lemma FillOneMore(before: map<string, Entry>, order: seq<string>, entries: map<string, Entry>, typeName: string,
                    fetched: map<string, Entity>, stamp: string -> int, ids: set<string>, keys: seq<string>,
                    start: seq<string>, max: nat, id: string)
    requires FilledSoFar(before, order, typeName, fetched, stamp, ids, keys, start, max) && id in fetched && id !in ids
    requires Replaced(before, entries, KeyFor(typeName, id), Entry(fetched[id], stamp(id)))
    ensures FilledSoFar(entries, PutOrder(order, max, KeyFor(typeName, id)), typeName, fetched, stamp, ids + {id},
                        keys + [KeyFor(typeName, id)], start, max)
  {
    HoldsOneMore(before, entries, typeName, fetched, stamp, ids, id);
    ListOneMore(typeName, keys, ids, id);
    OneMorePut(start, max, keys, KeyFor(typeName, id));
  }

  /** put, on the map and the list it is given. */
  method PutIn(entries: map<string, Entry>, order: seq<string>, max: nat, key: string, e: Entry)
    returns (held: map<string, Entry>, kept: seq<string>)
    requires max > 0
    ensures held == Stored(entries, order, max, key, e)
    ensures kept == Reordered(entries, order, max, key)
  {
    held, kept := entries, order;
    if key !in held {
      if |kept| >= max {
        held := held - {kept[0]};
        kept := kept[1..];
      }
      kept := kept + [key];
    }
    held := held[key := e];
  }

  class Cache {
    var entries: map<string, Entry>
    var order: seq<string>
    const refresh: int
    const max: nat

    /** Every insertion of a key that was absent, and every answer ever stored. */
    ghost var inserted: seq<string>
    ghost var answers: set<Answer>

    ghost predicate Valid()
      reads this
    {
      max > 0 && refresh > 0 && Holding(entries, order, inserted, answers, max)
    }

    constructor (refresh: int, max: int)
      ensures Valid() && entries == map[] && order == [] && answers == {} && inserted == []
      ensures this.refresh == (if refresh <= 0 then DEFAULT_REFRESH else refresh)
      ensures this.max == (if max <= 0 then DEFAULT_SIZE else max)
    {
      this.refresh := if refresh <= 0 then DEFAULT_REFRESH else refresh;
      this.max := if max <= 0 then DEFAULT_SIZE else max;
      entries, order, inserted, answers := map[], [], [], {};
    }

    predicate Fresh(typeName: string, id: string, now: int)
      reads this
    {
      var k := KeyFor(typeName, id);
      k in entries && now - entries[k].at < refresh
    }

    /** The ids a fetch is needed for: in the order they first appear, once each. */
    ghost function Misses(typeName: string, ids: seq<string>, now: int): seq<string>
      reads this
    {
      if ids == [] then []
      else
        var before := Misses(typeName, ids[..|ids| - 1], now);
        var id := ids[|ids| - 1];
        if id == "" || Fresh(typeName, id, now) || id in before then before else before + [id]
    }

    lemma {:induction false} MissesExactly(typeName: string, ids: seq<string>, now: int)
      ensures NoRepeats(Misses(typeName, ids, now))
      ensures forall id :: id in Misses(typeName, ids, now) <==> id in ids && id != "" && !Fresh(typeName, id, now)
    {
      if ids == [] {
      } else {
        MissesExactly(typeName, ids[..|ids| - 1], now);
        assert ids == ids[..|ids| - 1] + [ids[|ids| - 1]];
      }
    }

    /** Ids that are all freshly held cost no fetch. */
    lemma {:induction false} NothingMissing(typeName: string, ids: seq<string>, now: int)
      requires forall id :: id in ids ==> id == "" || Fresh(typeName, id, now)
      ensures Misses(typeName, ids, now) == []
    {
      MissesExactly(typeName, ids, now);
      if Misses(typeName, ids, now) != [] {
        assert Misses(typeName, ids, now)[0] in Misses(typeName, ids, now);
      }
    }

    /** The ids answered from the cache, with what it holds for them. */
    ghost function Hits(typeName: string, ids: seq<string>, now: int): map<string, Entity>
      reads this
    {
      if ids == [] then map[]
      else
        var before := Hits(typeName, ids[..|ids| - 1], now);
        var id := ids[|ids| - 1];
        if id == "" || !Fresh(typeName, id, now) then before else before[id := entries[KeyFor(typeName, id)].entity]
    }

    lemma {:induction false} HitsExactly(typeName: string, ids: seq<string>, now: int, id: string)
      ensures id in Hits(typeName, ids, now) <==> id in ids && id != "" && Fresh(typeName, id, now)
      ensures id in Hits(typeName, ids, now) ==> Hits(typeName, ids, now)[id] == entries[KeyFor(typeName, id)].entity
    {
      if ids == [] {
      } else {
        HitsExactly(typeName, ids[..|ids| - 1], now, id);
        assert ids == ids[..|ids| - 1] + [ids[|ids| - 1]];
      }
    }

    /** An id already dealt with changes neither list. */
    lemma RepeatChangesNothing(typeName: string, ids: seq<string>, now: int, id: string)
      requires id == "" || id in ids
      ensures Hits(typeName, ids + [id], now) == Hits(typeName, ids, now)
      ensures Misses(typeName, ids + [id], now) == Misses(typeName, ids, now)
    {
      assert (ids + [id])[..|ids|] == ids;
      HitsExactly(typeName, ids, now, id);
      MissesExactly(typeName, ids, now);
      if id != "" && Fresh(typeName, id, now) {
        var hits := Hits(typeName, ids, now);
        assert hits[id := entries[KeyFor(typeName, id)].entity] == hits;
      }
    }

    /** A new one joins one of them. */
    lemma NewJoinsOne(typeName: string, ids: seq<string>, now: int, id: string)
      requires id != "" && id !in ids
      ensures Fresh(typeName, id, now) ==>
        && Hits(typeName, ids + [id], now) == Hits(typeName, ids, now)[id := entries[KeyFor(typeName, id)].entity]
        && Misses(typeName, ids + [id], now) == Misses(typeName, ids, now)
      ensures !Fresh(typeName, id, now) ==>
        && Hits(typeName, ids + [id], now) == Hits(typeName, ids, now)
        && Misses(typeName, ids + [id], now) == Misses(typeName, ids, now) + [id]
    {
      assert (ids + [id])[..|ids|] == ids;
      MissesExactly(typeName, ids, now);
    }

    /** Resolve's first critical section: hits are copied out, misses listed. */
    method Lookup(typeName: string, ids: seq<string>, now: int)
      returns (hits: map<string, Entity>, misses: seq<string>)
      requires Valid()
      ensures misses == Misses(typeName, ids, now)
      ensures hits == Hits(typeName, ids, now)
    {
      hits, misses := map[], [];
      var seen: set<string> := {};
      var i := 0;
      while i < |ids|
        invariant 0 <= i <= |ids|
        invariant forall id :: id in seen <==> id in ids[..i] && id != ""
        invariant misses == Misses(typeName, ids[..i], now) && hits == Hits(typeName, ids[..i], now)
      {
        var id := ids[i];
        assert ids[..i + 1] == ids[..i] + [id];
        if id == "" || id in seen {
          RepeatChangesNothing(typeName, ids[..i], now, id);
        } else {
          NewJoinsOne(typeName, ids[..i], now, id);
          seen := seen + {id};
          if Fresh(typeName, id, now) {
            hits := hits[id := entries[KeyFor(typeName, id)].entity];
          } else {
            misses := misses + [id];
          }
        }
        i := i + 1;
      }
      assert ids[..i] == ids;
    }

    /** Stores one entry; a new key evicts the oldest once the cache is full. */
    method PutEntry(key: string, e: Entity, at: int)
      requires Valid()
      modifies this
      ensures Valid()
      ensures entries == Stored(old(entries), old(order), max, key, Entry(e, at))
      ensures order == Reordered(old(entries), old(order), max, key) == PutOrder(old(order), max, key)
      // what was put is held under its stamp, and what else is held is untouched
      ensures Replaced(old(entries), entries, key, Entry(e, at))
      ensures inserted == Logged(old(entries), old(inserted), key)
      ensures answers == old(answers) + {Answer(key, e, at)}
    {
      var held, kept := PutIn(entries, order, max, key, Entry(e, at));
      ghost var log, known := Logged(entries, inserted, key), answers + {Answer(key, e, at)};
      PutKeepsValid(entries, order, inserted, answers, max, key, Entry(e, at), held, kept, log, known);
      entries, order, inserted, answers := held, kept, log, known;
    }

    /** Whatever other calls store while the lock is released. */
    method Interfere(puts: seq<Put>)
      requires Valid()
      modifies this
      ensures Valid()
      ensures answers == old(answers) + AnswersOf(puts)
      ensures puts == [] ==> entries == old(entries) && order == old(order)
    {
      var i := 0;
      while i < |puts|
        invariant 0 <= i <= |puts| && Valid()
        invariant i == 0 ==> entries == old(entries) && order == old(order)
        invariant answers == old(answers) + AnswersOf(puts[..i])
      {
        PutEntry(puts[i].key, puts[i].entity, puts[i].at);
        assert puts[..i + 1][..i] == puts[..i];
        i := i + 1;
      }
      assert puts[..i] == puts;
    }

    /** One step of the second critical section. done, keys, start and earlier are what
        the ones before it did, and what they started from. */
    method FillOne(typeName: string, fetched: map<string, Entity>, stamp: string -> int, id: string,
                   ghost done: set<string>, ghost keys: seq<string>, ghost start: seq<string>, ghost earlier: set<Answer>)
      requires Valid() && id in fetched && id !in done
      requires FilledSoFar(entries, order, typeName, fetched, stamp, done, keys, start, max)
      requires answers == earlier + Fetched(typeName, fetched, stamp, done)
      modifies this
      ensures Valid()
      ensures FilledSoFar(entries, order, typeName, fetched, stamp, done + {id}, keys + [KeyFor(typeName, id)], start, max)
      ensures answers == earlier + Fetched(typeName, fetched, stamp, done + {id})
    {
      ghost var before, kept := entries, order;
      PutEntry(KeyFor(typeName, id), fetched[id], stamp(id));
      FillOneMore(before, kept, entries, typeName, fetched, stamp, done, keys, start, max, id);
      FetchedOneMore(typeName, fetched, stamp, done, id);
    }

    /** The second critical section: every fetched entity is stored, in no
        particular order. keys is the order it took. */
    method Fill(typeName: string, fetched: map<string, Entity>, stamp: string -> int) returns (ghost keys: seq<string>)
      requires Valid()
      modifies this
      ensures Valid()
      ensures answers == old(answers) + Fetched(typeName, fetched, stamp, fetched.Keys)
      ensures FilledSoFar(entries, order, typeName, fetched, stamp, fetched.Keys, keys, old(order), max)
    {
      var rest := fetched.Keys;
      ghost var done: set<string> := {};
      keys := [];
      while rest != {}
        invariant Valid() && done <= fetched.Keys && rest == fetched.Keys - done
        invariant answers == old(answers) + Fetched(typeName, fetched, stamp, done)
        invariant FilledSoFar(entries, order, typeName, fetched, stamp, done, keys, old(order), max)
        decreases |rest|
      {
        var id :| id in rest;
        FillOne(typeName, fetched, stamp, id, done, keys, old(order), old(answers));
        keys, done := keys + [KeyFor(typeName, id)], done + {id};
        rest := rest - {id};
      }
      assert done == fetched.Keys;
    }

    /** With room for all of it, what was fetched is there to be hit. */
    lemma AllThere(before: seq<string>, typeName: string, fetched: map<string, Entity>, stamp: string -> int, keys: seq<string>)
      requires (forall k :: k in order ==> k in entries) && NoRepeats(before) && |before| <= max
      requires FilledSoFar(entries, order, typeName, fetched, stamp, fetched.Keys, keys, before, max)
      requires Roomy(before, max, KeysOf(typeName, fetched.Keys))
      ensures forall id, later :: id in fetched && later - stamp(id) < refresh ==> Fresh(typeName, id, later)
    {
      KeptInEveryOrder(before, max, keys, KeysOf(typeName, fetched.Keys));
      forall id | id in fetched ensures KeyFor(typeName, id) in entries {
        assert KeyFor(typeName, id) in order;
      }
    }

    /** Resolve, with everything other calls do during the fetch in between. asked
        is what fetch was called with; fetched and failed are what it returned. */
    method Resolve(typeName: string, ids: seq<string>, now: int,
                   others: seq<Put>, fetched: map<string, Entity>, failed: bool, stamp: string -> int)
      returns (out: map<string, Entity>, err: bool, asked: seq<string>)
      requires Valid()
      modifies this
      ensures Valid() && old(answers) <= answers
      // fetch is asked once, for distinct non-empty ids that are not freshly cached
      ensures asked == old(Misses(typeName, ids, now))
      ensures err <==> asked != [] && failed
      // the answer is complete: the fresh hits, overlaid with everything fetched
      ensures forall id :: id in out <==>
        (id in ids && id != "" && old(Fresh(typeName, id, now))) || (asked != [] && id in fetched)
      ensures forall id :: id in out ==>
        if asked != [] && id in fetched then out[id] == fetched[id]
        else old(Fresh(typeName, id, now)) && out[id] == old(entries[KeyFor(typeName, id)].entity)
      // and every entity was fetched for that type and id, in this call or recently enough
      ensures forall id :: id in out ==>
        (asked != [] && id in fetched && out[id] == fetched[id])
        || exists at :: Answer(KeyFor(typeName, id), out[id], at) in old(answers) && now - at < refresh
      // what was fetched replaces what was held: no expired entry survives it
      ensures asked != [] ==> Holds(entries, typeName, fetched, stamp, fetched.Keys)
      // and it is all there to be hit, if no one else put anything and there was room
      ensures asked != [] && others == [] && Roomy(old(order), max, KeysOf(typeName, fetched.Keys)) ==>
        forall id, later :: id in fetched && later - stamp(id) < refresh ==> Fresh(typeName, id, later)
    {
      var hits;
      hits, asked := Lookup(typeName, ids, now);
      forall id
        ensures id in hits <==> id in ids && id != "" && Fresh(typeName, id, now)
        ensures id in hits ==> hits[id] == entries[KeyFor(typeName, id)].entity
      {
        HitsExactly(typeName, ids, now, id);
      }
      forall id | id in hits
        ensures exists at :: Answer(KeyFor(typeName, id), hits[id], at) in answers && now - at < refresh
      {
        var k := KeyFor(typeName, id);
        assert Answer(k, entries[k].entity, entries[k].at) in answers;
      }
      if asked == [] {
        return hits, false, asked;
      }
      Interfere(others);
      ghost var before := order;
      ghost var keys := Fill(typeName, fetched, stamp);
      if others == [] && Roomy(before, max, KeysOf(typeName, fetched.Keys)) {
        assert forall k :: k in order ==> k in entries;
        AllThere(before, typeName, fetched, stamp, keys);
      }
      out, err := hits + fetched, failed;
    }
  }
}

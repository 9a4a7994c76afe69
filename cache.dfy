/**
 * The answer cache: a map from `(record type, domain name)` to the records
 * last stored under that key and the instant they stop being served. Time is
 * an integer count of milliseconds, the resolution at which expiry is compared;
 * each operation is handed the current time.
 */
module Cache {

  import opened Wrappers
  import opened Dns

  /** Every stored answer lives five minutes, whatever the records' own TTLs say. */
  const TTL_SECS: int := 60 * 5
  const TTL_MILLIS: int := TTL_SECS * 1000

  type Key = (RType, string)

  datatype Entry = Entry(records: seq<Record>, expiresAt: int)

  /** What `get` sees at time `now`: an entry is served up to and including its expiry millisecond. */
  function Lookup(db: map<Key, Entry>, key: Key, now: int): Option<seq<Record>>
  {
    if key in db && db[key].expiresAt >= now then Some(db[key].records) else None
  }

  /** The table after a sweep at time `now`: the entries not yet expired. */
  function Sweep(db: map<Key, Entry>, now: int): map<Key, Entry>
  {
    map k | k in db && db[k].expiresAt >= now :: db[k]
  }

  /** The table after storing `answers` under `key` at time `now`. */
  function Store(db: map<Key, Entry>, key: Key, answers: seq<Record>, now: int): map<Key, Entry>
  {
    db[key := Entry(answers, now + TTL_MILLIS)]
  }

  class Cache {
    var db: map<Key, Entry>

    constructor ()
      ensures db == map[]
    {
      db := map[];
    }

    /**
     * The first pass of a sweep: the keys of the entries that expired before
     * `now`, each once, in the table's iteration order.
     */
    method ExpiredKeys(now: int) returns (toDelete: seq<Key>)
      ensures forall k :: k in toDelete <==> k in db && db[k].expiresAt < now
      ensures forall i, j :: 0 <= i < j < |toDelete| ==> toDelete[i] != toDelete[j]
    {
      toDelete := [];
      var pending := db.Keys;
      while pending != {}
        invariant pending <= db.Keys
        invariant forall k :: k in toDelete <==> k in db && k !in pending && db[k].expiresAt < now
        invariant forall i, j :: 0 <= i < j < |toDelete| ==> toDelete[i] != toDelete[j]
        decreases pending
      {
        var k :| k in pending;
        if db[k].expiresAt < now {
          toDelete := toDelete + [k];
        }
        pending := pending - {k};
      }
    }

    /**
     * One sweep: collects the keys of the expired entries, then removes them,
     * and reports how many it removed.
     */
    method Clean(now: int) returns (removed: nat)
      modifies this
      ensures db == Sweep(old(db), now)
      ensures removed == |old(db)| - |db|
    {
      var toDelete := ExpiredKeys(now);
      ghost var gone: set<Key> := {};
      var i := 0;
      while i < |toDelete|
        invariant 0 <= i <= |toDelete|
        invariant forall k :: k in gone <==> k in toDelete[..i]
        invariant db == old(db) - gone
        invariant |db| == |old(db)| - i
      {
        var k := toDelete[i];
        PrefixStep(toDelete, i, gone);
        RemovePresentKey(db, k);
        RemoveOneMore(old(db), gone, k);
        db := db - {k};
        gone := gone + {k};
        i := i + 1;
      }
      assert gone == set k | k in old(db) && old(db)[k].expiresAt < now by {
        assert toDelete[..i] == toDelete;
      }
      SweepIsRemoval(old(db), now);
      removed := |toDelete|;
    }

    /** The records stored under `(rt, domain)`, unless there are none or they have expired. */
    method Get(rt: RType, domain: string, now: int) returns (r: Option<seq<Record>>)
      ensures r == Lookup(db, (rt, domain), now)
    {
      var key := (rt, domain);
      if key in db {
        var entry := db[key];
        if entry.expiresAt >= now {
          return Some(entry.records);
        }
      }
      return None;
    }

    /** Stores `answers` under `(rt, domain)`, replacing what was there, to expire in five minutes. */
    method Insert(rt: RType, domain: string, answers: seq<Record>, now: int)
      modifies this
      ensures db == Store(old(db), (rt, domain), answers, now)
    {
      var expiresAt := now + TTL_MILLIS;
      db := db[(rt, domain) := Entry(answers, expiresAt)];
    }
  }

  lemma SweepIsRemoval(db: map<Key, Entry>, now: int)
    ensures Sweep(db, now) == db - set k | k in db && db[k].expiresAt < now
  {
  }

  /** Extends the set of the first `i` keys of a list without repeats by the next one, which is new. */
  lemma PrefixStep(s: seq<Key>, i: nat, seen: set<Key>)
    requires i < |s|
    requires forall a, b :: 0 <= a < b < |s| ==> s[a] != s[b]
    requires forall k :: k in seen <==> k in s[..i]
    ensures s[i] !in seen
    ensures forall k :: k in seen + {s[i]} <==> k in s[..i + 1]
  {
    assert s[..i + 1] == s[..i] + [s[i]];
    forall j | 0 <= j < i ensures s[j] != s[i] { }
  }

  lemma RemoveOneMore(db: map<Key, Entry>, gone: set<Key>, k: Key)
    ensures (db - gone) - {k} == db - (gone + {k})
  {
  }

  lemma RemovePresentKey(db: map<Key, Entry>, k: Key)
    requires k in db
    ensures |db - {k}| == |db| - 1
  {
    assert (db - {k}).Keys == db.Keys - {k};
  }

  /**
   * A stored answer is served exactly until five minutes after it was stored:
   * at every time up to and including that millisecond, and never after.
   */
  lemma StoreThenLookup(db: map<Key, Entry>, key: Key, answers: seq<Record>, t: int, t': int)
    ensures Lookup(Store(db, key, answers, t), key, t') ==
              if t' <= t + TTL_MILLIS then Some(answers) else None
  {
  }

  /** Storing overwrites: of two stores under one key only the second's records and expiry remain. */
  lemma StoreOverwrites(db: map<Key, Entry>, key: Key, a1: seq<Record>, t1: int, a2: seq<Record>, t2: int)
    ensures Store(Store(db, key, a1, t1), key, a2, t2) == Store(db, key, a2, t2)
  {
  }

  /** Storing under one key leaves every other key's entry as it was. */
  lemma StoreLeavesOtherKeys(db: map<Key, Entry>, key: Key, answers: seq<Record>, t: int, other: Key)
    requires other != key
    ensures other in Store(db, key, answers, t) <==> other in db
    ensures other in db ==> Store(db, key, answers, t)[other] == db[other]
  {
  }

  /** A sweep removes exactly the entries that expired before `now` and keeps the rest as they were. */
  lemma SweepRemovesExactlyExpired(db: map<Key, Entry>, now: int, k: Key)
    ensures k in Sweep(db, now) <==> k in db && db[k].expiresAt >= now
    ensures k in Sweep(db, now) ==> Sweep(db, now)[k] == db[k]
  {
  }

  /** A sweep at time `now` changes no lookup at that time: all it removes was already invisible. */
  lemma SweepKeepsLookups(db: map<Key, Entry>, now: int, k: Key)
    ensures Lookup(Sweep(db, now), k, now) == Lookup(db, k, now)
  {
  }

  /** An answer that is not served at time `t` is not served at any later time either. */
  lemma MissPersists(db: map<Key, Entry>, k: Key, t: int, t': int)
    requires Lookup(db, k, t) == None && t <= t'
    ensures Lookup(db, k, t') == None
  {
  }
}

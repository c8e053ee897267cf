/** The worker's mirror of watched_tables: src/watch_cache.cpp. */
module WatchCache {
  import opened Wrappers
  import opened Database
  import opened WritebackSql
  import opened WorkerProgram
  import JS = JobStore

  lemma RowIsKeyed(rows: seq<Mapping>, watched: map<WatchKey, Mapping>, i: nat)
    requires Filed(watched) && JS.AllRows(rows, watched) && i < |rows|
    ensures KeyOf(rows[i]) in Keyed(watched) && Keyed(watched)[KeyOf(rows[i])] == rows[i]
  {
    hide Keyed;
    assert rows[i] in rows;
    var k :| k in watched && watched[k] == rows[i];
    KeyedLookup(watched, k.0, k.1);
  }

  lemma KeyedIsRow(rows: seq<Mapping>, watched: map<WatchKey, Mapping>, key: string) returns (j: nat)
    requires Filed(watched) && JS.AllRows(rows, watched) && key in Keyed(watched)
    ensures j < |rows| && KeyOf(rows[j]) == key
  {
    var k := Unkey(watched, key);
    assert watched[k] in rows;
    j :| 0 <= j < |rows| && rows[j] == watched[k];
  }

  class WatchCache {
    const store: JS.JobStore
    var byKey: map<string, Mapping>
    var refreshed: bool
    /** What the last load read, if it did not fail. */
    ghost var loaded: Option<map<WatchKey, Mapping>>
    /** Whether this batch's refresh failed, and how many loads find() caused in it. */
    ghost var lost: bool
    ghost var reloads: nat
    ghost var batches: nat

    /** The cache is empty, or exactly the keyed view of one past state of the table; and within a batch
        find() has reloaded at most once. */
    ghost predicate Valid()
      reads this
    {
      && byKey == (if loaded.Some? then Keyed(loaded.value) else map[])
      && reloads == (if refreshed then 1 else 0)
      && (lost ==> refreshed && loaded.None?)
    }

    constructor (store: JS.JobStore)
      ensures Valid() && this.store == store && byKey == map[] && !refreshed && !lost && batches == 0
    {
      this.store, byKey, refreshed := store, map[], false;
      loaded, lost, reloads, batches := None, false, 0, 0;
    }

    /** Clears, then queries: a failed query leaves the cache empty. */
    method Load() returns (ok: bool)
      requires Filed(store.pg.db.watched)
      modifies store.pg, this`byKey, this`loaded
      ensures Filed(store.pg.db.watched)
      ensures JS.Ran(old(store.pg.log), store.pg.log, store.pg.db, Selected(ok, store.pg.db.watched))
      ensures loaded == (if ok then Some(store.pg.db.watched) else None)
      ensures byKey == if ok then Keyed(store.pg.db.watched) else map[]
    {
      byKey, loaded := map[], None;
      var r := store.LoadWatchedTables();
      if r.Err? { return false; }
      Fill(r.value, store.pg.db.watched);
      loaded := Some(store.pg.db.watched);
      return true;
    }

    /** by_key_.emplace() for each row, in whatever order they came. */
    method Fill(rows: seq<Mapping>, ghost watched: map<WatchKey, Mapping>)
      requires Filed(watched) && JS.AllRows(rows, watched) && byKey == map[]
      modifies this`byKey
      ensures byKey == Keyed(watched)
    {
      hide Keyed, Key, Filed, JS.AllRows;
      for i := 0 to |rows|
        invariant forall k :: k in byKey ==> k in Keyed(watched) && byKey[k] == Keyed(watched)[k]
        invariant forall j :: 0 <= j < i ==> KeyOf(rows[j]) in byKey
      {
        var t := rows[i];
        RowIsKeyed(rows, watched, i);
        var key := KeyOf(t);
        if key !in byKey {
          byKey := byKey[key := t];
        }
      }
      forall key | key in Keyed(watched) ensures key in byKey {
        var j := KeyedIsRow(rows, watched, key);
      }
    }

    method BeginBatch()
      requires Valid()
      modifies this`refreshed, this`lost, this`reloads, this`batches
      ensures Valid() && !refreshed && !lost && batches == old(batches) + 1
    {
      refreshed, lost, reloads, batches := false, false, 0, batches + 1;
    }

    /** A lookup; a miss reloads if no earlier miss of this batch did. */
    method Find(source: string, t: JobType) returns (r: Option<Mapping>)
      requires Valid() && Filed(store.pg.db.watched)
      modifies store.pg, this`byKey, this`loaded, this`refreshed, this`lost, this`reloads
      ensures Valid() && Filed(store.pg.db.watched)
      ensures r == if Key(source, t) in byKey then Some(byKey[Key(source, t)]) else None
      ensures Key(source, t) in old(byKey) || old(refreshed) ==>
        && unchanged(store.pg) && byKey == old(byKey) && refreshed == old(refreshed) && lost == old(lost)
      ensures !(Key(source, t) in old(byKey) || old(refreshed)) ==>
        && refreshed && JS.Ran(old(store.pg.log), store.pg.log, store.pg.db, Selected(!lost, store.pg.db.watched))
        && byKey == (if lost then map[] else Keyed(store.pg.db.watched))
      ensures r.None? ==> refreshed
      ensures r.None? && !old(refreshed) && !lost ==> (source, t) !in store.pg.db.watched
    {
      hide Keyed, JS.Ran, Filed;
      var key := Key(source, t);
      if key !in byKey && !refreshed {
        refreshed, reloads := true, reloads + 1;
        var ok := Load();
        lost := !ok;
        KeyedLookup(store.pg.db.watched, source, t);
      }
      return if key in byKey then Some(byKey[key]) else None;
    }
  }
}

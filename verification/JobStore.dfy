/** The worker's side of the database connection: JobStore, and the server it talks to. */
module JobStore {
  import opened Wrappers
  import opened Database
  import opened WritebackSql
  import opened WorkerProgram
  import opened Retention

  /** One statement as the server ran it: the tables it found, and the statement with its answer.  Answers of
      the providers are kept in the same record. */
  datatype Sent = Sent(before: Db, ev: Event)

  function Events(log: seq<Sent>): seq<Event> {
    if log == [] then [] else Events(log[..|log| - 1]) + [log[|log| - 1].ev]
  }

  /** Where a piece of a worker's run began: the statements sent before, and the worker's state. */
  datatype Origin = Origin(log: seq<Sent>, ws: Worker)

  /** From the origin on, the worker sent what its automaton may send, and got answers the tables allowed,
      whatever others did to the tables in between. */
  ghost predicate Conforms(o: Origin, log: seq<Sent>, ws: Worker) {
    && o.log <= log
    && (forall i :: |o.log| <= i < |log| ==> Genuine(log[i].before, log[i].ev))
    && WorkerProgram.Run(o.ws, Events(log[|o.log|..])) == Some(ws)
  }

  lemma ConformsAtOrigin(o: Origin)
    ensures Conforms(o, o.log, o.ws)
  {
  }

  lemma ConformsSteps(o: Origin, log: seq<Sent>, ws: Worker, sent: Sent)
    requires Conforms(o, log, ws) && Genuine(sent.before, sent.ev) && WorkerProgram.Step(ws, sent.ev).Some?
    ensures Conforms(o, log + [sent], WorkerProgram.Step(ws, sent.ev).value)
  {
    var since := log[|o.log|..];
    assert (log + [sent])[|o.log|..] == since + [sent];
    assert (since + [sent])[..|since|] == since;
    RunSnoc(o.ws, Events(since), sent.ev);
  }

  lemma {:induction false} EventsConcat(a: seq<Sent>, b: seq<Sent>)
    ensures Events(a + b) == Events(a) + Events(b)
    decreases |b|
  {
    if b == [] {
      assert a + b == a;
    } else {
      EventsConcat(a, b[..|b| - 1]);
      assert (a + b)[..|a + b| - 1] == a + b[..|b| - 1];
    }
  }

  /** Two pieces of a run, end to end. */
  lemma ConformsOn(o: Origin, log: seq<Sent>, ws: Worker, log': seq<Sent>, ws': Worker)
    requires Conforms(o, log, ws) && Conforms(Origin(log, ws), log', ws')
    ensures Conforms(o, log', ws')
  {
    hide Genuine, WorkerProgram.Run;
    var a, b := log[|o.log|..], log'[|log|..];
    assert log'[|o.log|..] == a + b;
    EventsConcat(a, b);
    RunConcat(o.ws, Events(a), Events(b));
    assert forall i :: |o.log| <= i < |log| ==> log'[i] == log[i];
  }

  /** One more statement was run, on tables that may since have been changed by others. */
  ghost predicate Ran(log: seq<Sent>, log': seq<Sent>, db': Db, ev: Event) {
    && |log'| == |log| + 1 && log' == log + [Sent(log'[|log|].before, ev)]
    && Genuine(log'[|log|].before, ev) && db' == Exec(log'[|log|].before, ev)
  }

  /** The database server as one worker meets it, with a record of the statements that worker sent.  Between
      two of them anyone else may do anything to the tables, as long as mappings stay under their own keys. */
  class Postgres {
    var db: Db
    ghost var log: seq<Sent>

    constructor (db: Db)
      ensures this.db == db && log == []
    {
      this.db, log := db, [];
    }

    method Others()
      requires Filed(db.watched)
      modifies this`db
      ensures Filed(db.watched)
    {
      var after: Db := *;
      if Filed(after.watched) { db := after; }
    }

    method Send(ev: Event)
      requires Genuine(db, ev) && Filed(db.watched)
      modifies this
      ensures Ran(old(log), log, db, ev) && log[|old(log)|].before == old(db) && Filed(db.watched)
    {
      db, log := Exec(db, ev), log + [Sent(db, ev)];
    }

    /** Puts a provider's answer on record. */
    ghost method Note(answers: map<nat, Verdict>)
      modifies this`log
      ensures log == old(log) + [Sent(db, Produced(answers))]
    {
      log := log + [Sent(db, Produced(answers))];
    }

    /** The lowest free pending ids, returned in any order. */
    method SelectClaim(limit: nat, locked: set<nat>) returns (jobs: seq<ClaimedJob>)
      ensures Genuine(db, Claimed(limit, locked, jobs))
    {
      var ids := LowestIds(PendingIds(db) - locked, limit);
      jobs := ReadRows(ids);
    }

    method ReadRows(ids: set<nat>) returns (jobs: seq<ClaimedJob>)
      requires ids <= db.jobs.Keys
      ensures Ids(jobs) == ids && Distinct(jobs)
      ensures forall i :: 0 <= i < |jobs| ==>
        jobs[i].id in db.jobs && jobs[i] == ClaimOf(jobs[i].id, db.jobs[jobs[i].id])
    {
      jobs := [];
      var todo := ids;
      while todo != {}
        invariant todo <= ids && Ids(jobs) == ids - todo && Distinct(jobs)
        invariant forall i :: 0 <= i < |jobs| ==>
          jobs[i].id in ids && jobs[i] == ClaimOf(jobs[i].id, db.jobs[jobs[i].id])
        decreases todo
      {
        var id :| id in todo;
        IdsSnoc(jobs, ClaimOf(id, db.jobs[id]));
        assert forall i :: 0 <= i < |jobs| ==> jobs[i].id in Ids(jobs);
        jobs, todo := jobs + [ClaimOf(id, db.jobs[id])], todo - {id};
      }
    }
  }

  /** ORDER BY id LIMIT: the lowest ids of a set. */
  method LowestIds(free: set<nat>, limit: nat) returns (ids: set<nat>)
    ensures ids <= free && |ids| == (if |free| < limit then |free| else limit)
    ensures forall i, j :: i in ids && j in free - ids ==> i < j
  {
    var rest := free;
    ids := {};
    while rest != {} && |ids| < limit
      invariant ids !! rest && ids + rest == free && |ids| <= limit
      invariant forall i, j :: i in ids && j in rest ==> i < j
      decreases rest
    {
      var low := Lowest(rest);
      ids, rest := ids + {low}, rest - {low};
    }
    assert |ids + rest| == |ids| + |rest|;
    assert free - ids == rest;
  }

  method Lowest(s: set<nat>) returns (low: nat)
    requires s != {}
    ensures low in s && forall x :: x in s ==> low <= x
  {
    low :| low in s;
    var rest := s - {low};
    while rest != {}
      invariant low in s && rest <= s
      invariant forall y :: y in s && y !in rest ==> low <= y
      decreases rest
    {
      var x :| x in rest;
      if x < low { low := x; }
      rest := rest - {x};
    }
  }

  /** The rows of watched_tables, no more and no less. */
  ghost predicate AllRows(rows: seq<Mapping>, watched: map<WatchKey, Mapping>) {
    forall m :: m in rows <==> exists k :: k in watched && watched[k] == m
  }

  function AgeOf(interval: string): nat {
    match IntervalSeconds(interval) case Some(age) => age case None => 0
  }

  /** Where a finished result goes: the job's own row, or the mapped table. */
  datatype Target = JobRow(id: nat) | Mapped(mapping: Mapping, sourceId: int)

  class JobStore {
    const pg: Postgres
    var sql: map<string, Sql>

    constructor (pg: Postgres)
      ensures this.pg == pg && sql == map[]
    {
      this.pg, sql := pg, map[];
    }

    method ClaimPending(limit: nat) returns (r: Result<seq<ClaimedJob>, ()>, ghost locked: set<nat>)
      requires Filed(pg.db.watched)
      modifies pg
      ensures Filed(pg.db.watched)
      ensures Ran(old(pg.log), pg.log, pg.db,
                  match r case Ok(jobs) => Claimed(limit, locked, jobs) case Err(_) => ClaimFailed(limit))
    {
      pg.Others();
      var ok: bool := *;
      var skipped: set<nat> := *;
      locked := skipped;
      if !ok {
        pg.Send(ClaimFailed(limit));
        return Err(()), locked;
      }
      var jobs := pg.SelectClaim(limit, skipped);
      pg.Send(Claimed(limit, skipped, jobs));
      return Ok(jobs), locked;
    }

    /** write_back() and write_back_text(), which differ in the value expression only. */
    method WriteBack(mapping: Mapping, sourceId: int, out: Output) returns (ok: bool)
      requires Filed(pg.db.watched)
      modifies pg, this`sql
      ensures Filed(pg.db.watched)
      ensures var expr := if out.VectorOut? then AsVector else AsText;
        var ev := WroteBack(SqlFor(old(sql), mapping, expr), sourceId, out, ok);
        Ran(old(pg.log), pg.log, pg.db, ev) && sql == old(sql)[KeyOf(mapping) := ev.sql]
    {
      var expr := if out.VectorOut? then AsVector else AsText;
      var key := KeyOf(mapping);
      if key !in sql {
        sql := sql[key := Build(mapping, expr)];
      }
      pg.Others();
      ok := *;
      if WritebackSql.Run(pg.db, sql[key], sourceId, out).None? { ok := false; }
      pg.Send(WroteBack(sql[key], sourceId, out, ok));
    }

    method WriteAdHocResult(id: nat, out: Output) returns (ok: bool)
      requires Filed(pg.db.watched)
      modifies pg
      ensures Filed(pg.db.watched) && Ran(old(pg.log), pg.log, pg.db, WroteAdHoc(id, out, ok))
    {
      pg.Others();
      ok := *;
      pg.Send(WroteAdHoc(id, out, ok));
    }

    /** A failed status update is logged, not reported. */
    method MarkDone(id: nat) returns (ghost ok: bool)
      requires Filed(pg.db.watched)
      modifies pg
      ensures Filed(pg.db.watched) && Ran(old(pg.log), pg.log, pg.db, MarkedDone(id, ok))
    {
      pg.Others();
      var done: bool := *;
      pg.Send(MarkedDone(id, done));
      ok := done;
    }

    method MarkError(id: nat, reason: Reason) returns (ghost ok: bool)
      requires Filed(pg.db.watched)
      modifies pg
      ensures Filed(pg.db.watched) && Ran(old(pg.log), pg.log, pg.db, MarkedError(id, reason, ok))
    {
      pg.Others();
      var done: bool := *;
      pg.Send(MarkedError(id, reason, done));
      ok := done;
    }

    /** All rows of watched_tables, in any order. */
    method LoadWatchedTables() returns (r: Result<seq<Mapping>, ()>)
      requires Filed(pg.db.watched)
      modifies pg
      ensures Filed(pg.db.watched) && Ran(old(pg.log), pg.log, pg.db, Selected(r.Ok?, pg.db.watched))
      ensures r.Ok? ==> AllRows(r.value, pg.db.watched)
    {
      pg.Others();
      var ok: bool := *;
      pg.Send(Selected(ok, pg.db.watched));
      if !ok { return Err(()); }
      var rows: seq<Mapping>, keys := [], pg.db.watched.Keys;
      while keys != {}
        invariant keys <= pg.db.watched.Keys
        invariant forall m :: m in rows <==> exists k :: k in pg.db.watched && k !in keys && pg.db.watched[k] == m
        decreases keys
      {
        var k :| k in keys;
        rows, keys := rows + [pg.db.watched[k]], keys - {k};
      }
      return Ok(rows);
    }

    method NotifyJobs(count: nat) returns (ghost ok: bool)
      requires Filed(pg.db.watched)
      modifies pg
      ensures Filed(pg.db.watched) && Ran(old(pg.log), pg.log, pg.db, Notified(count, ok))
    {
      pg.Others();
      var sent: bool := *;
      pg.Send(Notified(count, sent));
      ok := sent;
    }

    /** The number of rows deleted, or None where the statement failed, as it does for a malformed interval. */
    method PurgeDone(interval: string) returns (deleted: Option<nat>)
      requires Filed(pg.db.watched)
      modifies pg
      ensures Filed(pg.db.watched) && Ran(old(pg.log), pg.log, pg.db, Purged(AgeOf(interval), deleted.Some?))
      ensures IntervalSeconds(interval).None? ==> deleted.None?
      ensures deleted.Some? ==> deleted.value == |pg.log[|old(pg.log)|].before.jobs| - |pg.db.jobs|
    {
      pg.Others();
      var ok: bool := *;
      if IntervalSeconds(interval).None? { ok := false; }
      ghost var before := pg.db.jobs;
      var expired := Expired(pg.db, AgeOf(interval));
      pg.Send(Purged(AgeOf(interval), ok));
      if !ok { return None; }
      assert before.Keys == pg.db.jobs.Keys + expired;
      assert |pg.db.jobs.Keys + expired| == |pg.db.jobs.Keys| + |expired|;
      return Some(|expired|);
    }
  }
}

/** Safety over every run of the protocol: exclusive claims, lifecycles, registered mappings, caches that
  answer from registrations, results in their own rows, and one write-back per finished job. */
module ProtocolSafety {
  import opened Wrappers
  import opened Database
  import opened WritebackSql
  import opened WorkerProgram
  import opened Protocol
  import opened Verdicts
  import Registration

  // ---- Registration reaches every job -------------------------------------------------------------

  ghost predicate JobRegistered(db: Db, id: nat)
    requires id in db.jobs
  {
    db.jobs[id].source.Some? ==> (db.jobs[id].source.value.table, db.jobs[id].jobType) in db.watched
  }

  ghost predicate Registered(db: Db) {
    && Registration.Consistent(db) && Registration.Shaped(db)
    && forall id :: id in db.jobs ==> JobRegistered(db, id)
  }

  /** Registrations stay, and new jobs are covered by them. */
  ghost predicate Grows(db: Db, db': Db) {
    && db.watched.Keys <= db'.watched.Keys
    && forall id :: id in db'.jobs && db.nextId <= id ==> JobRegistered(db', id)
  }

  lemma EnqueueGrows(db: Db, news: seq<NewJob>)
    requires Numbered(db) && forall n :: n in news ==> Database.Registered(db.watched, n)
    ensures Grows(db, EnqueueAll(db, news))
  {
    var db' := EnqueueAll(db, news);
    forall id | id in db'.jobs && db.nextId <= id ensures JobRegistered(db', id) {
      assert news[id - db.nextId] in news;
    }
  }

  lemma ChangeGrows(db: Db, table: string, rows': seq<Row>, touched: seq<Row>, change: Change)
    requires Numbered(db) && ChangeRows(db, table, rows', touched, change).Some?
    ensures Grows(db, ChangeRows(db, table, rows', touched, change).value)
  {
    FireRegistered(db, table, touched, change);
    EnqueueGrows(db.(tables := db.tables[table := rows']), FireOnRows(db, table, touched, change).value);
  }

  lemma RunGrows(db: Db, sql: Sql, id: int, out: Output)
    requires Numbered(db) && WritebackSql.Run(db, sql, id, out).Some?
    ensures Grows(db, WritebackSql.Run(db, sql, id, out).value)
  {
    var rows, v := db.tables[sql.table], Stored(out);
    if sql.UpdateSql? || HasRow(rows, sql.key, id) {
      ChangeGrows(db, sql.table, SetMatching(rows, sql, id, v), Touched(rows, sql, id, v), Updated({sql.column}));
    } else {
      var row := map[sql.key := Number(id), sql.column := v];
      ChangeGrows(db, sql.table, rows + [row], [row], Inserted);
    }
  }

  lemma ClientGrows(db: Db, op: ClientOp)
    requires Numbered(db) && ExecClient(db, op).Some?
    ensures Grows(db, ExecClient(db, op).value)
  {
    match op
    case EmbedAsync(text) => EnqueueGrows(db, [NewJob(Embed, None, text, None)]);
    case GenerateAsync(text, maxTokens) => EnqueueGrows(db, [NewJob(Generate, None, text, maxTokens)]);
    case RowInsert(table, row) => ChangeGrows(db, table, db.tables[table] + [row], [row], Inserted);
    case RowUpdate(table, i, values) =>
      var row' := db.tables[table][i] + values;
      ChangeGrows(db, table, db.tables[table][i := row'], [row'], Updated(values.Keys));
    case RowDelete(table, i) =>
    case Register(call) =>
      if !Registration.Raises(call) { Registration.ApplyWatched(db, call); }
  }

  lemma RegisteredKept(db: Db, db': Db, statuses: map<nat, Status>, dropped: set<nat>)
    requires Numbered(db) && Registered(db) && JobsEffect(db, db', statuses, dropped) && Grows(db, db')
    requires Registration.Consistent(db') && Registration.Shaped(db')
    ensures Registered(db')
  {
    forall id | id in db'.jobs ensures JobRegistered(db', id) {
      if id < db.nextId {
        assert ClaimOf(id, db'.jobs[id]) == ClaimOf(id, db.jobs[id]);
        assert JobRegistered(db, id);
      }
    }
  }

  // ---- The two caches ------------------------------------------------------------------------------

  /** A cached statement is what the builder makes of some mapping registered under its key. */
  ghost predicate SqlFrom(ever: set<Mapping>, k: string, sql: Sql) {
    exists mp :: mp in ever && KeyOf(mp) == k && sql == Build(mp, ExprFor(mp.jobType))
  }

  ghost predicate CacheFrom(ever: set<Mapping>, cache: map<string, Mapping>) {
    forall k :: k in cache ==> cache[k] in ever && KeyOf(cache[k]) == k
  }

  /** After a refresh of this batch either every mapped job has its mapping, or the refresh had failed. */
  ghost predicate CachesOk(a: Audit, ws: Worker) {
    && CacheFrom(a.everWatched, ws.cache)
    && (forall k :: k in ws.sql ==> SqlFrom(a.everWatched, k, ws.sql[k]))
    && (ws.lost ==> ws.cache == map[] && Ids(ws.todo) <= a.refreshLost)
    && (ws.refreshed && !ws.lost ==>
          forall i :: 0 <= i < |ws.todo| && ws.todo[i].source.Some? ==> JobKey(ws.todo[i]) in ws.cache)
  }

  ghost predicate Caches(s: State) {
    && Protocol.Mappings(s.db.watched) <= s.audit.everWatched
    && s.audit.noWatch <= s.audit.refreshLost
    && forall w :: w in s.workers ==> CachesOk(s.audit, s.workers[w])
  }

  lemma CachesOkGrows(a: Audit, a': Audit, ws: Worker)
    requires CachesOk(a, ws) && a.everWatched <= a'.everWatched && a.refreshLost <= a'.refreshLost
    ensures CachesOk(a', ws)
  {
    forall k | k in ws.sql ensures SqlFrom(a'.everWatched, k, ws.sql[k]) {
      assert SqlFrom(a.everWatched, k, ws.sql[k]);
    }
  }

  lemma KeyedFrom(db: Db, ever: set<Mapping>)
    requires Registration.Consistent(db) && Protocol.Mappings(db.watched) <= ever
    ensures CacheFrom(ever, Keyed(db.watched))
  {
    forall k | k in Keyed(db.watched) ensures Keyed(db.watched)[k] in ever && KeyOf(Keyed(db.watched)[k]) == k {
      var w := Unkey(db.watched, k);
      assert db.watched[w] in Protocol.Mappings(db.watched);
    }
  }

  lemma KeyedCovers(db: Db, ws: Worker)
    requires Owns(db, ws) && Registered(db)
    ensures forall i :: 0 <= i < |ws.todo| && ws.todo[i].source.Some? ==> JobKey(ws.todo[i]) in Keyed(db.watched)
  {
    forall i | 0 <= i < |ws.todo| && ws.todo[i].source.Some? ensures JobKey(ws.todo[i]) in Keyed(db.watched) {
      var job := ws.todo[i];
      assert JobRegistered(db, job.id) && ClaimOf(job.id, db.jobs[job.id]) == job;
      KeyedLookup(db.watched, job.source.value.table, job.jobType);
    }
  }

  /** The statement a worker runs is of its job's own kind, from a mapping of its job's own key. */
  lemma SqlForJob(a: Audit, ws: Worker)
    requires CachesOk(a, ws) && ws.todo != [] && ws.todo[0].source.Some? && JobKey(ws.todo[0]) in ws.cache
    ensures var mp, expr := ws.cache[JobKey(ws.todo[0])], ExprFor(ws.todo[0].jobType);
      && KeyOf(mp) == JobKey(ws.todo[0]) && mp.jobType == ws.todo[0].jobType
      && SqlFrom(a.everWatched, KeyOf(mp), SqlFor(ws.sql, mp, expr))
      && SqlFor(ws.sql, mp, expr).expr == expr
  {
    var job := ws.todo[0];
    var mp := ws.cache[JobKey(job)];
    KeyInjective(mp.source, mp.jobType, job.source.value.table, job.jobType);
    if KeyOf(mp) in ws.sql {
      var mp' :| mp' in a.everWatched && KeyOf(mp') == KeyOf(mp)
        && ws.sql[KeyOf(mp)] == Build(mp', ExprFor(mp'.jobType));
      KeyInjective(mp.source, mp.jobType, mp'.source, mp'.jobType);
    } else {
      assert SqlFrom(a.everWatched, KeyOf(mp), Build(mp, ExprFor(mp.jobType)));
    }
  }

  lemma ObserveCaches(a: Audit, db: Db, ws: Worker, ev: Event, db': Db)
    requires WorkerProgram.Step(ws, ev).Some? && a.noWatch <= a.refreshLost
    requires ev.MarkedError? && ev.reason == NoWatch ==> ev.id in a.refreshLost
    ensures var a' := Observe(a, db, ws, ev, db');
      && a'.everWatched == a.everWatched && a.refreshLost <= a'.refreshLost && a'.noWatch <= a'.refreshLost
      && (ev.Selected? && !ev.ok ==> a'.refreshLost == a.refreshLost + Ids(ws.todo))
  {
  }

  lemma ActCaches(db: Db, a: Audit, ws: Worker, ev: Event)
    requires CanAct(db, ws, ev) && Registered(db) && CachesOk(a, ws)
    requires Protocol.Mappings(db.watched) <= a.everWatched && a.noWatch <= a.refreshLost
    ensures var a' := Observe(a, db, ws, ev, Exec(db, ev));
      CachesOk(a', WorkerProgram.Step(ws, ev).value) && a'.noWatch <= a'.refreshLost
  {
    if ev.MarkedError? && ev.reason == NoWatch {
      GivenUpAfterLostRefresh(a, ws, ev);
    }
    hide Exec, Genuine, Owns, Registered, CachesOk, Observe, WorkerProgram.Step;
    ObserveCaches(a, db, ws, ev, Exec(db, ev));
    CachesOkGrows(a, Observe(a, db, ws, ev, Exec(db, ev)), ws);
    StepCaches(db, a, Observe(a, db, ws, ev, Exec(db, ev)), ws, ev);
  }

  lemma GivenUpAfterLostRefresh(a: Audit, ws: Worker, ev: Event)
    requires CachesOk(a, ws) && WorkerProgram.Step(ws, ev).Some? && ev.MarkedError? && ev.reason == NoWatch
    ensures ev.id in a.refreshLost
  {
    assert ev.id in Ids(ws.todo);
  }

  /** The statement's own effect on the worker's caches. */
  lemma StepCaches(db: Db, a: Audit, a': Audit, ws: Worker, ev: Event)
    requires CanAct(db, ws, ev) && Registered(db) && CachesOk(a, ws) && CachesOk(a', ws)
    requires Protocol.Mappings(db.watched) <= a'.everWatched
    requires ev.Selected? && !ev.ok ==> a'.refreshLost == a.refreshLost + Ids(ws.todo)
    ensures CachesOk(a', WorkerProgram.Step(ws, ev).value)
  {
    hide Genuine, Owns, Registered;
    match ev
    case Selected(_, _) => RefreshCached(db, a', ws, ev);
    case WroteBack(sql, _, _, _) => StatementCached(a', ws, sql);
    case MarkedError(_, _, _) => TailIds(ws.todo);
    case WroteAdHoc(_, _, _) => TailIds(ws.todo);
    case MarkedDone(_, _) => TailIds(ws.todo);
    case _ =>
  }

  lemma RefreshCached(db: Db, a: Audit, ws: Worker, ev: Event)
    requires CanAct(db, ws, ev) && Registered(db) && CachesOk(a, ws) && ev.Selected?
    requires Protocol.Mappings(db.watched) <= a.everWatched && (ev.ok || Ids(ws.todo) <= a.refreshLost)
    ensures CachesOk(a, WorkerProgram.Step(ws, ev).value)
  {
    assert ev.ok ==> ev.rows == db.watched;
    var ws' := WorkerProgram.Step(ws, ev).value;
    assert ws' == ws.(cache := if ev.ok then Keyed(db.watched) else map[], refreshed := true, lost := !ev.ok);
    KeyedFrom(db, a.everWatched);
    KeyedCovers(db, ws);
    hide WorkerProgram.Step, Genuine, Owns, Registered, Keyed, SqlFrom;
  }

  lemma StatementCached(a: Audit, ws: Worker, sql: Sql)
    requires CachesOk(a, ws) && ws.todo != [] && ws.todo[0].source.Some? && JobKey(ws.todo[0]) in ws.cache
    requires sql == SqlFor(ws.sql, ws.cache[JobKey(ws.todo[0])], ExprFor(ws.todo[0].jobType))
    ensures CachesOk(a, ws.(sql := ws.sql[KeyOf(ws.cache[JobKey(ws.todo[0])]) := sql]))
  {
    SqlForJob(a, ws);
    var k := KeyOf(ws.cache[JobKey(ws.todo[0])]);
    var sql' := ws.sql[k := sql];
    forall j | j in sql' ensures SqlFrom(a.everWatched, j, sql'[j]) {
      if j != k { assert SqlFrom(a.everWatched, j, ws.sql[j]); }
    }
  }

  // ---- Delivery ------------------------------------------------------------------------------------

  /** What is on record stays. */
  ghost predicate AuditGrows(a: Audit, a': Audit) {
    && (forall id :: id in a.record ==> id in a'.record && a'.record[id] == a.record[id])
    && (forall id :: id in a.answers ==> id in a'.answers && a'.answers[id] == a.answers[id])
    && a.everWatched <= a'.everWatched && a.refreshLost <= a'.refreshLost
  }

  lemma ActAuditGrows(db: Db, a: Audit, ws: Worker, ev: Event)
    requires CanAct(db, ws, ev) && OnRecord(db, a.record)
    ensures AuditGrows(a, Observe(a, db, ws, ev, Exec(db, ev)))
  {
    hide Exec, Genuine, WorkerProgram.Step, Observe, Owns, JobsEffect, NewRecord, StatusSet, Dropped;
    ActEffect(db, ws, ev);
    ObserveAnswers(a, db, ws, ev, Exec(db, ev));
    RecordKept(db, a.record, Exec(db, ev), StatusSet(db, ev), Dropped(db, ev));
  }

  /** A row carries a result exactly when it is a finished ad hoc job, and then the one recorded for this very job. */
  ghost predicate ResultOk(a: Audit, id: nat, job: Job) {
    && (job.result.Some? <==> job.status == Done && job.source.None?)
    && (job.result.Some? ==> Got(a, id, job.result.value) && !job.result.value.Empty())
  }

  ghost predicate Results(db: Db, a: Audit) {
    forall id :: id in db.jobs ==> ResultOk(a, id, db.jobs[id])
  }

  /** The write-back was for this job: its own row id, the result recorded for it, a statement of its own kind, built
      from a mapping registered for its own table and type. */
  ghost predicate WriteFor(a: Audit, wr: Write) {
    wr.job in a.record &&
    var job := a.record[wr.job];
    && job.source.Some? && wr.sourceId == job.source.value.id
    && Got(a, wr.job, wr.out) && !wr.out.Empty()
    && wr.sql.expr == ExprFor(job.jobType) && SqlFrom(a.everWatched, JobKey(job), wr.sql)
  }

  ghost predicate Wrote(writes: seq<Write>, id: nat) {
    exists i :: 0 <= i < |writes| && writes[i].job == id
  }

  /** A mapped job that is done has been written back. */
  ghost predicate DoneWrote(db: Db, writes: seq<Write>) {
    forall id :: id in db.jobs && db.jobs[id].status == Done && db.jobs[id].source.Some? ==> Wrote(writes, id)
  }

  /** Each job was written back at most once, after it was claimed. */
  ghost predicate WritesOnce(a: Audit) {
    && (forall i, j :: 0 <= i < j < |a.writes| ==> a.writes[i].job != a.writes[j].job)
    && (forall i :: 0 <= i < |a.writes| ==> a.writes[i].job in a.trail && |a.trail[a.writes[i].job]| > 1)
  }

  ghost predicate WritesFor(a: Audit) {
    forall i :: 0 <= i < |a.writes| ==> WriteFor(a, a.writes[i])
  }

  ghost predicate WritesOk(db: Db, a: Audit) {
    WritesOnce(a) && WritesFor(a) && DoneWrote(db, a.writes)
  }

  /** A worker has written back at most the job it is busy with, and that one before marking it done. */
  ghost predicate WriterOk(a: Audit, ws: Worker) {
    && (ws.todo != [] && ws.stage == Written ==> ws.todo[0].source.Some? && Wrote(a.writes, ws.todo[0].id))
    && (forall k :: 0 <= k < |ws.todo| && Wrote(a.writes, ws.todo[k].id) ==> k == 0 && ws.stage == Written)
  }

  ghost predicate Writers(s: State) {
    forall w :: w in s.workers ==> WriterOk(s.audit, s.workers[w]) && VerdictsOk(s.audit, s.workers[w])
  }

  lemma ResultKept(a: Audit, a': Audit, id: nat, job: Job)
    requires ResultOk(a, id, job) && AuditGrows(a, a')
    ensures ResultOk(a', id, job)
  {
  }

  /** The row of a job whose status the statement sets. */
  lemma ActResult(db: Db, a: Audit, ws: Worker, ev: Event, id: nat)
    requires CanAct(db, ws, ev) && WriterOk(a, ws) && VerdictsOk(a, ws)
    requires id in StatusSet(db, ev) && id in db.jobs && ResultOk(a, id, db.jobs[id])
    ensures id in Exec(db, ev).jobs && ResultOk(a, id, Exec(db, ev).jobs[id])
  {
    if ev.Claimed? {
      assert id in PendingIds(db);
    } else {
      assert ClaimOf(id, db.jobs[id]) == ws.todo[0] && db.jobs[id].status == Processing;
      assert VerdictOn(a, ws, ws.todo[0].id);
    }
  }

  lemma ActResultAt(db: Db, a: Audit, ws: Worker, ev: Event, id: nat)
    requires CanAct(db, ws, ev) && WriterOk(a, ws) && VerdictsOk(a, ws) && Results(db, a) && OnRecord(db, a.record)
    requires id in Exec(db, ev).jobs
    ensures ResultOk(Observe(a, db, ws, ev, Exec(db, ev)), id, Exec(db, ev).jobs[id])
  {
    hide Exec, Genuine, WorkerProgram.Step, Observe, Owns, JobsEffect, StatusSet, Dropped, AuditGrows, Got, Lawful;
    var db', a' := Exec(db, ev), Observe(a, db, ws, ev, Exec(db, ev));
    ActEffect(db, ws, ev);
    ActAuditGrows(db, a, ws, ev);
    EffectRow(db, db', StatusSet(db, ev), Dropped(db, ev), id);
    LawfulAt(db, StatusSet(db, ev), id);
    if id in db.jobs {
      assert ResultOk(a, id, db.jobs[id]);
      if id in StatusSet(db, ev) {
        ActResult(db, a, ws, ev, id);
      }
      ResultKept(a, a', id, db'.jobs[id]);
    }
  }

  lemma ActResults(db: Db, a: Audit, ws: Worker, ev: Event)
    requires CanAct(db, ws, ev) && WriterOk(a, ws) && VerdictsOk(a, ws) && Results(db, a) && OnRecord(db, a.record)
    ensures Results(Exec(db, ev), Observe(a, db, ws, ev, Exec(db, ev)))
  {
    hide Exec, CanAct, Observe, ResultOk;
    forall id | id in Exec(db, ev).jobs
      ensures ResultOk(Observe(a, db, ws, ev, Exec(db, ev)), id, Exec(db, ev).jobs[id])
    {
      ActResultAt(db, a, ws, ev, id);
    }
  }

  lemma WroteSnoc(writes: seq<Write>, wr: Write, id: nat)
    ensures Wrote(writes + [wr], id) <==> Wrote(writes, id) || wr.job == id
  {
    if Wrote(writes, id) {
      var i :| 0 <= i < |writes| && writes[i].job == id;
      assert (writes + [wr])[i].job == id;
    }
    if wr.job == id {
      assert (writes + [wr])[|writes|].job == id;
    }
  }

  lemma WriteForKept(a: Audit, a': Audit, wr: Write)
    requires WriteFor(a, wr) && AuditGrows(a, a')
    ensures WriteFor(a', wr)
  {
    assert SqlFrom(a'.everWatched, JobKey(a.record[wr.job]), wr.sql);
  }

  lemma OnceKept(db: Db, a: Audit, db': Db, a': Audit, statuses: map<nat, Status>, dropped: set<nat>)
    requires Ledger(db, a) && WritesOnce(a) && JobsEffect(db, db', statuses, dropped) && Lawful(db, statuses)
    requires a'.trail == NewTrail(a.trail, db'.nextId, statuses) && a'.writes == a.writes
    ensures WritesOnce(a')
  {
    hide Ledger, JobsEffect, Lawful;
    forall i | 0 <= i < |a'.writes| ensures a'.writes[i].job in a'.trail && |a'.trail[a'.writes[i].job]| > 1 {
      TrailLonger(db, a, db', a'.trail, statuses, dropped, a.writes[i].job);
    }
  }

  lemma TrailLonger(db: Db, a: Audit, db': Db, trail': map<nat, seq<Status>>, statuses: map<nat, Status>,
                    dropped: set<nat>, id: nat)
    requires Ledger(db, a) && JobsEffect(db, db', statuses, dropped) && id in a.trail
    requires trail' == NewTrail(a.trail, db'.nextId, statuses)
    ensures id in trail' && |trail'[id]| >= |a.trail[id]|
  {
    hide JobsEffect, OnRecord;
    EffectIds(db, db', statuses, dropped, id);
  }

  lemma DoneKept(db: Db, writes: seq<Write>, db': Db, statuses: map<nat, Status>, dropped: set<nat>)
    requires Numbered(db) && DoneWrote(db, writes) && JobsEffect(db, db', statuses, dropped)
    requires forall id :: id in statuses && statuses[id] == Done && id in db.jobs && db.jobs[id].source.Some? ==>
      Wrote(writes, id)
    ensures DoneWrote(db', writes)
  {
    hide JobsEffect, Wrote;
    forall id | id in db'.jobs && db'.jobs[id].status == Done && db'.jobs[id].source.Some? ensures Wrote(writes, id) {
      EffectRow(db, db', statuses, dropped, id);
      EffectIds(db, db', statuses, dropped, id);
    }
  }

  /** Writes keep their meaning while jobs move along. */
  lemma WritesKept(db: Db, a: Audit, db': Db, a': Audit, statuses: map<nat, Status>, dropped: set<nat>)
    requires Numbered(db) && Ledger(db, a) && WritesOk(db, a)
    requires JobsEffect(db, db', statuses, dropped) && Lawful(db, statuses)
    requires a'.trail == NewTrail(a.trail, db'.nextId, statuses) && a'.writes == a.writes && AuditGrows(a, a')
    requires forall id :: id in statuses && statuses[id] == Done && id in db.jobs && db.jobs[id].source.Some? ==>
      Wrote(a.writes, id)
    ensures WritesOk(db', a')
  {
    hide Ledger, JobsEffect, Lawful, AuditGrows, WriteFor, DoneWrote, WritesOnce, Wrote;
    OnceKept(db, a, db', a', statuses, dropped);
    DoneKept(db, a.writes, db', statuses, dropped);
    forall i | 0 <= i < |a'.writes| ensures WriteFor(a', a'.writes[i]) {
      WriteForKept(a, a', a.writes[i]);
    }
  }

  lemma WriteAppended(db: Db, a: Audit, a': Audit, wr: Write)
    requires WritesOk(db, a) && !Wrote(a.writes, wr.job) && WriteFor(a, wr)
    requires wr.job in a.trail && |a.trail[wr.job]| > 1 && a' == a.(writes := a.writes + [wr])
    ensures WritesOk(db, a')
  {
    hide WriteFor;
    forall id | id in db.jobs && db.jobs[id].status == Done && db.jobs[id].source.Some? ensures Wrote(a'.writes, id) {
      WroteSnoc(a.writes, wr, id);
    }
    forall i | 0 <= i < |a.writes| ensures a.writes[i].job != wr.job {
      assert Wrote(a.writes, a.writes[i].job);
    }
    hide Wrote;
    forall i | 0 <= i < |a'.writes| ensures WriteFor(a', a'.writes[i]) {
      SameAuditWrite(a, a', a'.writes[i]);
    }
  }

  lemma SameAuditWrite(a: Audit, a': Audit, wr: Write)
    requires a'.record == a.record && a'.answers == a.answers && a'.everWatched == a.everWatched
    ensures WriteFor(a', wr) <==> WriteFor(a, wr)
  {
  }

  /** A job the worker holds has been claimed, so its trail is past pending. */
  lemma HeldTrail(db: Db, a: Audit, ws: Worker, i: nat)
    requires Ledger(db, a) && Owns(db, ws) && i < |ws.todo|
    ensures ws.todo[i].id in a.trail && a.trail[ws.todo[i].id] == [Pending, Processing]
    ensures ws.todo[i].id in a.record && a.record[ws.todo[i].id] == ws.todo[i]
  {
    var t := a.trail[ws.todo[i].id];
    assert Last(t) == Processing && Lifecycle(t);
  }

  lemma PendingUnwritten(db: Db, a: Audit, id: nat)
    requires Ledger(db, a) && WritesOnce(a) && id in db.jobs && db.jobs[id].status == Pending
    ensures !Wrote(a.writes, id)
  {
    var t := a.trail[id];
    assert Last(t) == Pending && Lifecycle(t);
    assert t == [Pending];
  }

  /** A mapped job is marked done only after its write-back. */
  lemma DoneAfterWrite(db: Db, a: Audit, ws: Worker, ev: Event, id: nat)
    requires CanAct(db, ws, ev) && WriterOk(a, ws)
    requires id in StatusSet(db, ev) && StatusSet(db, ev)[id] == Done && id in db.jobs && db.jobs[id].source.Some?
    ensures Wrote(a.writes, id)
  {
    assert ClaimOf(id, db.jobs[id]) == ws.todo[0];
  }

  /** The statement's effect on the jobs, whatever it wrote back. */
  lemma ActWritesKept(db: Db, a: Audit, ws: Worker, ev: Event, a': Audit)
    requires CanAct(db, ws, ev) && Ledger(db, a) && WritesOk(db, a) && WriterOk(a, ws)
    requires a' == Observe(a, db, ws, ev, Exec(db, ev)).(writes := a.writes)
    ensures WritesOk(Exec(db, ev), a')
  {
    assert Numbered(db) && OnRecord(db, a.record);
    hide Exec, Genuine, WorkerProgram.Step, StatusSet, Dropped, JobsEffect, Lawful, Ledger, WritesOk, WriterOk, Observe,
      Owns, NewTrail, Wrote;
    ActEffect(db, ws, ev);
    ActAuditGrows(db, a, ws, ev);
    ObserveTrail(a, db, ws, ev, Exec(db, ev));
    forall id | id in StatusSet(db, ev) && StatusSet(db, ev)[id] == Done && id in db.jobs && db.jobs[id].source.Some?
      ensures Wrote(a.writes, id)
    {
      DoneAfterWrite(db, a, ws, ev, id);
    }
    WritesKept(db, a, Exec(db, ev), a', StatusSet(db, ev), Dropped(db, ev));
  }

  lemma ObserveTrail(a: Audit, db: Db, ws: Worker, ev: Event, db': Db)
    ensures Observe(a, db, ws, ev, db').trail == NewTrail(a.trail, db'.nextId, StatusSet(db, ev))
  {
  }

  /** The job's own write, as its worker sends it. */
  lemma OwnWriteFor(db: Db, a: Audit, ws: Worker, ev: Event)
    requires CanAct(db, ws, ev) && Ledger(db, a) && CachesOk(a, ws) && VerdictsOk(a, ws) && ev.WroteBack?
    ensures ws.todo != [] && WriteFor(a, Write(ws.todo[0].id, ev.sql, ev.sourceId, ev.out))
  {
    HeldTrail(db, a, ws, 0);
    SqlForJob(a, ws);
    assert VerdictOn(a, ws, ws.todo[0].id);
    hide Genuine, Owns, Ledger, CachesOk, VerdictsOk, SqlFor, SqlFrom;
  }

  lemma NotYetWritten(ws: Worker, ev: Event, a: Audit)
    requires WriterOk(a, ws) && ev.WroteBack? && WorkerProgram.Step(ws, ev).Some?
    ensures ws.todo != [] && !Wrote(a.writes, ws.todo[0].id)
  {
  }

  lemma ActWrites(db: Db, a: Audit, ws: Worker, ev: Event)
    requires CanAct(db, ws, ev) && Ledger(db, a) && CachesOk(a, ws) && VerdictsOk(a, ws)
    requires WritesOk(db, a) && WriterOk(a, ws)
    ensures WritesOk(Exec(db, ev), Observe(a, db, ws, ev, Exec(db, ev)))
  {
    assert OnRecord(db, a.record);
    hide Exec, Genuine, WorkerProgram.Step, Ledger, WritesOk, WriterOk, CachesOk, VerdictsOk, Owns, WriteFor, Wrote,
      OnRecord;
    var db', a' := Exec(db, ev), Observe(a, db, ws, ev, Exec(db, ev));
    var base := a'.(writes := a.writes);
    ActWritesKept(db, a, ws, ev, base);
    if ev.WroteBack? && ev.ok {
      OwnWriteFor(db, a, ws, ev);
      NotYetWritten(ws, ev, a);
      var wr := Write(ws.todo[0].id, ev.sql, ev.sourceId, ev.out);
      WrittenTrail(db, a, ws, ev);
      ActAuditGrows(db, a, ws, ev);
      BaseWrite(a, a', base, wr);
      WriteAppended(db', base, a', wr);
    } else {
      assert a' == base;
    }
  }

  lemma BaseWrite(a: Audit, a': Audit, base: Audit, wr: Write)
    requires WriteFor(a, wr) && AuditGrows(a, a') && base == a'.(writes := a.writes)
    ensures WriteFor(base, wr)
  {
    hide WriteFor;
    WriteForKept(a, a', wr);
    SameAuditWrite(a', base, wr);
  }

  lemma WrittenTrail(db: Db, a: Audit, ws: Worker, ev: Event)
    requires CanAct(db, ws, ev) && Ledger(db, a) && ws.todo != []
    ensures var a' := Observe(a, db, ws, ev, Exec(db, ev)); ws.todo[0].id in a'.trail && |a'.trail[ws.todo[0].id]| > 1
  {
    HeldTrail(db, a, ws, 0);
    ActEffect(db, ws, ev);
    hide Exec, Genuine, WorkerProgram.Step, Ledger, Owns, JobsEffect, StatusSet, Dropped;
    TrailLonger(db, a, Exec(db, ev), Observe(a, db, ws, ev, Exec(db, ev)).trail, StatusSet(db, ev), Dropped(db, ev),
                ws.todo[0].id);
  }

  lemma ClaimedWriter(db: Db, a: Audit, ws: Worker, ev: Event)
    requires CanAct(db, ws, ev) && Ledger(db, a) && WritesOnce(a) && ev.Claimed? && ev.jobs != []
    ensures WriterOk(a, WorkerProgram.Step(ws, ev).value)
  {
    var ws' := WorkerProgram.Step(ws, ev).value;
    assert ws'.todo == Split(ev.jobs) && ws'.stage == Ready;
    hide WorkerProgram.Step, Genuine, Exec, Ledger, WritesOnce, Wrote;
    ClaimOwned(db, ev);
    forall k | 0 <= k < |ws'.todo| ensures !Wrote(a.writes, ws'.todo[k].id) {
      PendingUnwritten(db, a, ws'.todo[k].id);
    }
  }

  lemma SameWriter(a: Audit, a': Audit, ws: Worker, ws': Worker)
    requires WriterOk(a, ws) && a'.writes == a.writes && ws'.todo == ws.todo
    requires ws'.stage == Written <==> ws.stage == Written
    ensures WriterOk(a', ws')
  {
  }

  lemma NextWriter(a: Audit, a': Audit, ws: Worker, ws': Worker)
    requires WriterOk(a, ws) && a'.writes == a.writes && ws.todo != [] && ws'.todo == ws.todo[1..] && ws'.stage == Ready
    ensures WriterOk(a', ws')
  {
  }

  lemma WroteBackWriter(db: Db, a: Audit, ws: Worker, ev: Event)
    requires CanAct(db, ws, ev) && WriterOk(a, ws) && ev.WroteBack? && ev.ok
    ensures WriterOk(Observe(a, db, ws, ev, Exec(db, ev)), WorkerProgram.Step(ws, ev).value)
  {
    var ws', a' := WorkerProgram.Step(ws, ev).value, Observe(a, db, ws, ev, Exec(db, ev));
    assert ws'.todo == ws.todo && ws'.stage == Written && ws.stage == Ready && ws.todo[0].source.Some?;
    assert a'.writes == a.writes + [Write(ws.todo[0].id, ev.sql, ev.sourceId, ev.out)];
    hide Exec, Genuine, Observe, WorkerProgram.Step;
    forall k | 0 <= k < |ws.todo| ensures Wrote(a'.writes, ws.todo[k].id) <==> k == 0 {
      WroteSnoc(a.writes, Write(ws.todo[0].id, ev.sql, ev.sourceId, ev.out), ws.todo[k].id);
    }
  }

  lemma WritesUnchanged(db: Db, a: Audit, ws: Worker, ev: Event)
    requires WorkerProgram.Step(ws, ev).Some? && !(ev.WroteBack? && ev.ok)
    ensures Observe(a, db, ws, ev, Exec(db, ev)).writes == a.writes
    ensures var ws' := WorkerProgram.Step(ws, ev).value;
      ws'.todo == ws.todo && (ev.Claimed? ==> ev.jobs == []) ==> (ws'.stage == Written <==> ws.stage == Written)
    ensures ev.Claimed? && ev.jobs == [] ==> WorkerProgram.Step(ws, ev).value.todo == ws.todo
  {
  }

  lemma ActWriter(db: Db, a: Audit, ws: Worker, ev: Event)
    requires CanAct(db, ws, ev) && Ledger(db, a) && WritesOk(db, a) && WriterOk(a, ws)
    ensures WriterOk(Observe(a, db, ws, ev, Exec(db, ev)), WorkerProgram.Step(ws, ev).value)
  {
    assert WritesOnce(a);
    hide Ledger, WritesOk, WriterOk, WritesOnce, Exec, Genuine, Observe, WorkerProgram.Step, Owns;
    var ws', a' := WorkerProgram.Step(ws, ev).value, Observe(a, db, ws, ev, Exec(db, ev));
    if ev.WroteBack? && ev.ok {
      WroteBackWriter(db, a, ws, ev);
    } else {
      WritesUnchanged(db, a, ws, ev);
      if ev.Claimed? && ev.jobs != [] {
        ClaimedWriter(db, a, ws, ev);
        SameWriter(a, a', ws', ws');
      } else if ws'.todo != ws.todo {
        StepShape(db, ws, ev);
        NextWriter(a, a', ws, ws');
      } else {
        SameWriter(a, a', ws, ws');
      }
    }
  }

  lemma OtherWriter(db: Db, a: Audit, ws: Worker, ev: Event, vs: Worker)
    requires CanAct(db, ws, ev) && Ids(vs.todo) !! Ids(ws.todo) && WriterOk(a, vs)
    ensures WriterOk(Observe(a, db, ws, ev, Exec(db, ev)), vs)
  {
    var a' := Observe(a, db, ws, ev, Exec(db, ev));
    if a'.writes != a.writes {
      var wr := Write(ws.todo[0].id, ev.sql, ev.sourceId, ev.out);
      forall k | 0 <= k < |vs.todo| ensures Wrote(a'.writes, vs.todo[k].id) <==> Wrote(a.writes, vs.todo[k].id) {
        WroteSnoc(a.writes, wr, vs.todo[k].id);
        assert vs.todo[k].id in Ids(vs.todo) && ws.todo[0].id in Ids(ws.todo);
      }
    }
  }

  // ---- The invariant of every run -------------------------------------------------------------------

  ghost predicate Inv(s: State) {
    && Ledger(s.db, s.audit) && Numbered(s.db)
    && Exclusive(s.db, s.workers)
    && Registered(s.db)
    && Caches(s)
    && AnswersOk(s.db, s.audit) && Results(s.db, s.audit)
    && WritesOk(s.db, s.audit) && Writers(s)
  }

  lemma InitialInv(s: State)
    requires Initial(s)
    ensures Inv(s)
  {
    assert s.db.jobs.Keys + s.audit.purged == s.audit.trail.Keys;
    assert Protocol.Mappings(s.db.watched) == {};
    assert Registered(s.db) && Caches(s) && Results(s.db, s.audit) && WritesOk(s.db, s.audit) && Writers(s);
  }

  lemma DoAct(s: State, w: nat, ev: Event)
    requires Do(s, Act(w, ev)).Some?
    ensures w in s.workers && Genuine(s.db, ev) && WorkerProgram.Step(s.workers[w], ev).Some?
    ensures var s', db' := Do(s, Act(w, ev)).value, Exec(s.db, ev);
      && s'.db == db' && s'.workers == s.workers[w := WorkerProgram.Step(s.workers[w], ev).value]
      && s'.audit == Observe(s.audit, s.db, s.workers[w], ev, db')
  {
  }

  /** What the invariant gives a worker that acts. */
  lemma InvOf(s: State, w: nat, ev: Event)
    requires Inv(s) && w in s.workers && Genuine(s.db, ev) && WorkerProgram.Step(s.workers[w], ev).Some?
    ensures CanAct(s.db, s.workers[w], ev) && Ledger(s.db, s.audit) && Registered(s.db)
    ensures OnRecord(s.db, s.audit.record)
    ensures CachesOk(s.audit, s.workers[w]) && WriterOk(s.audit, s.workers[w]) && VerdictsOk(s.audit, s.workers[w])
    ensures Protocol.Mappings(s.db.watched) <= s.audit.everWatched && s.audit.noWatch <= s.audit.refreshLost
  {
  }

  lemma ActInv(s: State, w: nat, ev: Event)
    requires Inv(s) && Do(s, Act(w, ev)).Some?
    ensures Inv(Do(s, Act(w, ev)).value)
  {
    hide Do, Exec, Genuine, WorkerProgram.Step, StatusSet, Dropped, Owns, Results, WritesOk, CachesOk, WriterOk,
      Registered, Lawful, JobsEffect, Exclusive, Caches, Writers, VerdictsOk, AnswersOk, Ledger, OnRecord;
    DoAct(s, w, ev);
    InvOf(s, w, ev);
    var db, a, ws, db', s' := s.db, s.audit, s.workers[w], Exec(s.db, ev), Do(s, Act(w, ev)).value;
    ActEffect(db, ws, ev);
    LedgerKept(db, a, db', s'.audit, StatusSet(db, ev), Dropped(db, ev));
    ExclusiveKept(db, s.workers, w, ev);
    ActRegistered(db, ws, ev);
    ActWorkers(s, w, ev, s');
    ActAnswers(db, a, ws, ev);
    ActResults(db, a, ws, ev);
    ActWrites(db, a, ws, ev);
  }

  lemma ActWorkers(s: State, w: nat, ev: Event, s': State)
    requires Inv(s) && w in s.workers && CanAct(s.db, s.workers[w], ev)
    requires s'.db == Exec(s.db, ev) && s'.workers == s.workers[w := WorkerProgram.Step(s.workers[w], ev).value]
    requires s'.audit == Observe(s.audit, s.db, s.workers[w], ev, s'.db)
    ensures Caches(s') && Writers(s')
  {
    hide Exec, Genuine, WorkerProgram.Step, Owns, Results, WritesOk, CachesOk, WriterOk, Registered, Ledger, VerdictsOk,
      AnswersOk;
    var db, a, ws := s.db, s.audit, s.workers[w];
    InvOf(s, w, ev);
    ExecKeepsRegistration(db, ev);
    ActCaches(db, a, ws, ev);
    ActWriter(db, a, ws, ev);
    OwnVerdicts(db, a, ws, ev);
    forall v | v in s'.workers && v != w
      ensures CachesOk(s'.audit, s'.workers[v]) && WriterOk(s'.audit, s'.workers[v])
        && VerdictsOk(s'.audit, s'.workers[v])
    {
      OtherWorker(db, a, ws, ev, s.workers[v]);
    }
    hide Observe;
  }

  lemma OtherWorker(db: Db, a: Audit, ws: Worker, ev: Event, vs: Worker)
    requires CanAct(db, ws, ev) && Ids(vs.todo) !! Ids(ws.todo)
    requires CachesOk(a, vs) && WriterOk(a, vs) && VerdictsOk(a, vs)
    ensures var a' := Observe(a, db, ws, ev, Exec(db, ev)); CachesOk(a', vs) && WriterOk(a', vs) && VerdictsOk(a', vs)
  {
    hide Exec, Genuine, WorkerProgram.Step, Owns, CachesOk, WriterOk, VerdictsOk, Observe;
    ObserveAnswers(a, db, ws, ev, Exec(db, ev));
    CachesOkGrows(a, Observe(a, db, ws, ev, Exec(db, ev)), vs);
    OtherWriter(db, a, ws, ev, vs);
    OtherVerdicts(db, a, ws, ev, vs);
  }

  lemma ExecKeepsRegistration(db: Db, ev: Event)
    requires Numbered(db)
    ensures Exec(db, ev).watched == db.watched && Exec(db, ev).triggers == db.triggers
    ensures Grows(db, Exec(db, ev))
  {
    if ev.WroteBack? {
      if ev.ok && WritebackSql.Run(db, ev.sql, ev.sourceId, ev.out).Some? {
        RunEffect(db, ev.sql, ev.sourceId, ev.out);
        RunGrows(db, ev.sql, ev.sourceId, ev.out);
      }
    } else {
      assert Exec(db, ev).jobs.Keys <= db.jobs.Keys;
    }
  }

  lemma ActRegistered(db: Db, ws: Worker, ev: Event)
    requires CanAct(db, ws, ev) && Registered(db)
    ensures Registered(Exec(db, ev)) && Numbered(Exec(db, ev)) && Exec(db, ev).watched == db.watched
  {
    ActEffect(db, ws, ev);
    ExecKeepsRegistration(db, ev);
    SameRegistration(db, Exec(db, ev));
    RegisteredKept(db, Exec(db, ev), StatusSet(db, ev), Dropped(db, ev));
  }

  lemma SameRegistration(db: Db, db': Db)
    requires Registration.Consistent(db) && Registration.Shaped(db)
    requires db'.watched == db.watched && db'.triggers == db.triggers
    ensures Registration.Consistent(db') && Registration.Shaped(db')
  {
  }

  lemma DoClient(s: State, op: ClientOp)
    requires Do(s, Client(op)).Some?
    ensures ExecClient(s.db, op).Some?
    ensures var s', db' := Do(s, Client(op)).value, ExecClient(s.db, op).value;
      && s'.db == db' && s'.workers == s.workers
      && s'.audit == s.audit.(record := NewRecord(s.audit.record, db'),
                              trail := NewTrail(s.audit.trail, db'.nextId, map[]),
                              since := NewSince(s.audit.since, db'.nextId, map[], s.db.now),
                              everWatched := s.audit.everWatched + Protocol.Mappings(db'.watched))
  {
  }

  lemma ClientInv(s: State, op: ClientOp)
    requires Inv(s) && Do(s, Client(op)).Some?
    ensures Inv(Do(s, Client(op)).value)
  {
    assert Registration.Consistent(s.db) && Registration.Shaped(s.db) && OnRecord(s.db, s.audit.record);
    hide Do, ExecClient, Registered, Results, WritesOk, Caches, Writers, Exclusive, Grows, JobsEffect, NewRecord,
      NewTrail, NewSince, Registration.Consistent, Registration.Shaped, AnswersOk, Ledger, AuditGrows, OnRecord;
    DoClient(s, op);
    var db, db', s' := s.db, ExecClient(s.db, op).value, Do(s, Client(op)).value;
    ClientEffect(db, op);
    ClientGrows(db, op);
    ClientNumbered(db, db');
    ClientAuditGrows(s.db, s.audit, db', s'.audit);
    LedgerKept(db, s.audit, db', s'.audit, map[], {});
    ClientRegistration(db, op);
    RegisteredKept(db, db', map[], {});
    WritesKept(db, s.audit, db', s'.audit, map[], {});
    ClientOwners(db, db', s.workers);
    ClientCaches(s, s');
    ClientAnswers(db, s.audit, db', s'.audit);
    ClientResults(db, s.audit, db', s'.audit);
  }

  lemma ClientAuditGrows(db: Db, a: Audit, db': Db, a': Audit)
    requires Numbered(db) && JobsEffect(db, db', map[], {}) && OnRecord(db, a.record)
    requires a'.record == NewRecord(a.record, db') && a'.answers == a.answers
    requires a.everWatched <= a'.everWatched && a'.refreshLost == a.refreshLost
    ensures AuditGrows(a, a')
  {
    hide NewRecord, JobsEffect;
    RecordKept(db, a.record, db', map[], {});
  }

  lemma ClientNumbered(db: Db, db': Db)
    requires Numbered(db) && JobsEffect(db, db', map[], {})
    ensures Numbered(db')
  {
  }

  lemma ClientOwners(db: Db, db': Db, workers: map<nat, Worker>)
    requires Numbered(db) && JobsEffect(db, db', map[], {}) && Exclusive(db, workers)
    ensures Exclusive(db', workers)
  {
    forall w | w in workers ensures Owns(db', workers[w]) {
      StillOwns(db, db', map[], {}, workers[w]);
    }
  }

  lemma ClientCaches(s: State, s': State)
    requires Caches(s) && Writers(s) && s'.workers == s.workers && s'.audit.writes == s.audit.writes
    requires s'.audit.noWatch == s.audit.noWatch && s'.audit.refreshLost == s.audit.refreshLost
    requires s'.audit.answers == s.audit.answers
    requires s'.audit.everWatched == s.audit.everWatched + Protocol.Mappings(s'.db.watched)
    ensures Caches(s') && Writers(s')
  {
    hide CachesOk, WriterOk, VerdictsOk;
    forall w | w in s'.workers
      ensures CachesOk(s'.audit, s'.workers[w]) && WriterOk(s'.audit, s'.workers[w])
        && VerdictsOk(s'.audit, s'.workers[w])
    {
      SameWorker(s.audit, s'.audit, s.workers[w]);
    }
  }

  lemma SameWorker(a: Audit, a': Audit, ws: Worker)
    requires CachesOk(a, ws) && WriterOk(a, ws) && VerdictsOk(a, ws)
    requires a'.writes == a.writes && a'.answers == a.answers
    requires a.everWatched <= a'.everWatched && a.refreshLost <= a'.refreshLost
    ensures CachesOk(a', ws) && WriterOk(a', ws) && VerdictsOk(a', ws)
  {
    CachesOkGrows(a, a', ws);
    SameAnswers(a, a', ws, ws);
  }

  lemma ClientResults(db: Db, a: Audit, db': Db, a': Audit)
    requires Numbered(db) && JobsEffect(db, db', map[], {}) && Results(db, a) && AuditGrows(a, a')
    ensures Results(db', a')
  {
    hide JobsEffect, AuditGrows, Got;
    forall id | id in db'.jobs ensures ResultOk(a', id, db'.jobs[id]) {
      EffectRow(db, db', map[], {}, id);
      if id in db.jobs {
        assert ResultOk(a, id, db.jobs[id]);
        ResultKept(a, a', id, db.jobs[id]);
      }
    }
  }

  lemma ClientRegistration(db: Db, op: ClientOp)
    requires Registration.Consistent(db) && Registration.Shaped(db) && ExecClient(db, op).Some?
    ensures Registration.Consistent(ExecClient(db, op).value) && Registration.Shaped(ExecClient(db, op).value)
  {
    if op.Register? {
      Registration.ApplyKeepsConsistent(db, op.call);
    }
  }

  lemma DoStart(s: State, w: nat, models: Models)
    requires Do(s, Start(w, models)).Some?
    ensures w !in s.workers
    ensures Do(s, Start(w, models)).value == s.(workers := s.workers[w := Fresh(models, Keyed(s.db.watched))])
  {
  }

  lemma FreshOk(db: Db, a: Audit, models: Models)
    requires Registration.Consistent(db) && Protocol.Mappings(db.watched) <= a.everWatched
    ensures var ws := Fresh(models, Keyed(db.watched)); CachesOk(a, ws) && WriterOk(a, ws) && VerdictsOk(a, ws)
  {
    hide Keyed;
    KeyedFrom(db, a.everWatched);
  }

  lemma CachesJoin(s: State, w: nat, ws: Worker)
    requires Caches(s) && Writers(s) && CachesOk(s.audit, ws) && WriterOk(s.audit, ws) && VerdictsOk(s.audit, ws)
    ensures Caches(s.(workers := s.workers[w := ws])) && Writers(s.(workers := s.workers[w := ws]))
  {
    hide CachesOk, WriterOk, VerdictsOk;
  }

  lemma StartInv(s: State, w: nat, models: Models)
    requires Inv(s) && Do(s, Start(w, models)).Some?
    ensures Inv(Do(s, Start(w, models)).value)
  {
    assert Registration.Consistent(s.db) && Protocol.Mappings(s.db.watched) <= s.audit.everWatched;
    var ws := Fresh(models, Keyed(s.db.watched));
    assert ws.todo == [] && ws.stage == Ready;
    hide Do, Keyed, Ledger, Registered, Results, WritesOk, AnswersOk, Exclusive, CachesOk, WriterOk, VerdictsOk,
      Registration.Consistent, Caches, Writers, Fresh;
    DoStart(s, w, models);
    FreshOk(s.db, s.audit, models);
    IdleJoins(s.db, s.audit, s.workers, w, ws);
    CachesJoin(s, w, ws);
  }

  lemma IdleJoins(db: Db, a: Audit, workers: map<nat, Worker>, w: nat, ws: Worker)
    requires Exclusive(db, workers) && w !in workers && ws.todo == [] && ws.stage == Ready
    ensures Exclusive(db, workers[w := ws])
  {
    assert Ids(ws.todo) == {};
    var workers' := workers[w := ws];
    forall v | v in workers' ensures Owns(db, workers'[v]) {
      if v != w { assert Owns(db, workers[v]); }
    }
  }

  lemma DoCrash(s: State, w: nat)
    requires Do(s, Crash(w)).Some?
    ensures var t := Do(s, Crash(w)).value;
      && t.db == s.db && t.audit == s.audit.(stranded := t.audit.stranded)
      && forall v :: v in t.workers ==> v in s.workers && t.workers[v] == s.workers[v]
  {
  }

  lemma FewerOwners(db: Db, workers: map<nat, Worker>, fewer: map<nat, Worker>)
    requires Exclusive(db, workers) && forall v :: v in fewer ==> v in workers && fewer[v] == workers[v]
    ensures Exclusive(db, fewer)
  {
    hide Owns;
  }

  lemma CrashInv(s: State, w: nat)
    requires Inv(s) && Do(s, Crash(w)).Some?
    ensures Inv(Do(s, Crash(w)).value)
  {
    hide Do, Ledger, Exclusive, Registered, Results, WritesOk, AnswersOk, CachesOk, WriterOk, VerdictsOk;
    var t := Do(s, Crash(w)).value;
    DoCrash(s, w);
    FewerOwners(s.db, s.workers, t.workers);
    SameAudit(s.db, s.audit, t.audit);
    forall v | v in t.workers ensures CachesOk(t.audit, t.workers[v]) && WriterOk(t.audit, t.workers[v])
      && VerdictsOk(t.audit, t.workers[v])
    {
      SameWorker(s.audit, t.audit, s.workers[v]);
    }
  }

  /** Who is stranded matters to none of this. */
  lemma SameAudit(db: Db, a: Audit, a': Audit)
    requires Ledger(db, a) && AnswersOk(db, a) && Results(db, a) && WritesOk(db, a)
    requires a' == a.(stranded := a'.stranded)
    ensures Ledger(db, a') && AnswersOk(db, a') && Results(db, a') && WritesOk(db, a')
  {
    forall id | id in a.answers ensures AnswerOwn(a', id) { assert AnswerOwn(a, id); }
    forall id | id in db.jobs ensures ResultOk(a', id, db.jobs[id]) { assert ResultOk(a, id, db.jobs[id]); }
    forall i | 0 <= i < |a.writes| ensures WriteFor(a', a'.writes[i]) { SameAuditWrite(a, a', a.writes[i]); }
    hide WriteFor, ResultOk, AnswerOwn, Wrote;
  }

  /** Nor does the time of day. */
  lemma LaterLedger(db: Db, db': Db, a: Audit)
    requires Ledger(db, a) && AnswersOk(db, a) && Results(db, a) && db' == db.(now := db'.now)
    ensures Ledger(db', a) && AnswersOk(db', a) && Results(db', a)
  {
    assert OnRecord(db', a.record);
    hide OnRecord, AnswerOwn, ResultOk;
  }

  lemma LaterWrites(db: Db, db': Db, a: Audit)
    requires WritesOk(db, a) && db' == db.(now := db'.now)
    ensures WritesOk(db', a)
  {
    hide WritesFor, WritesOnce, Wrote;
  }

  lemma LaterOwners(db: Db, db': Db, workers: map<nat, Worker>)
    requires Exclusive(db, workers) && db' == db.(now := db'.now)
    ensures Exclusive(db', workers)
  {
    forall w | w in workers ensures Owns(db', workers[w]) {
      assert Owns(db, workers[w]);
    }
    hide Owns;
  }

  lemma LaterRegistered(db: Db, db': Db)
    requires Registered(db) && db' == db.(now := db'.now)
    ensures Registered(db')
  {
    SameRegistration(db, db');
    hide Registration.Consistent, Registration.Shaped;
    forall id | id in db'.jobs ensures JobRegistered(db', id) {
      assert JobRegistered(db, id);
    }
  }

  lemma TickInv(s: State, d: nat)
    requires Inv(s)
    ensures Inv(Do(s, Tick(d)).value)
  {
    var s' := Do(s, Tick(d)).value;
    assert s' == s.(db := s.db.(now := s.db.now + d));
    hide Do, Ledger, Exclusive, Registered, Results, WritesOk, AnswersOk, CachesOk, WriterOk, VerdictsOk;
    LaterLedger(s.db, s'.db, s.audit);
    LaterWrites(s.db, s'.db, s.audit);
    LaterOwners(s.db, s'.db, s.workers);
    LaterRegistered(s.db, s'.db);
  }

  lemma DoInv(s: State, act: Action)
    requires Inv(s) && Do(s, act).Some?
    ensures Inv(Do(s, act).value)
  {
    hide Do, Inv;
    match act
    case Start(w, models) => StartInv(s, w, models);
    case Crash(w) => CrashInv(s, w);
    case Act(w, ev) => ActInv(s, w, ev);
    case Client(op) => ClientInv(s, op);
    case Tick(d) => TickInv(s, d);
  }

  /** Every reachable state satisfies the invariant, whatever the interleaving. */
  lemma {:induction false} RunInv(s: State, acts: seq<Action>)
    requires Initial(s) && Perform(s, acts).Some?
    ensures Inv(Perform(s, acts).value)
  {
    if acts == [] {
      InitialInv(s);
    } else {
      RunInv(s, acts[..|acts| - 1]);
      DoInv(Perform(s, acts[..|acts| - 1]).value, acts[|acts| - 1]);
    }
  }

  lemma ReachableInv(s: State)
    requires Reachable(s)
    ensures Inv(s)
  {
    var s0, acts :| Initial(s0) && Perform(s0, acts) == Some(s);
    RunInv(s0, acts);
  }

  // ---- What the invariant says --------------------------------------------------------------------

  /** In every run no job is held twice, what is held is processing, and every job's history is a prefix of
      pending, processing, then done or error: the unguarded mark statements never break it. */
  lemma ClaimsAreExclusive(s: State)
    requires Reachable(s)
    ensures
      && (forall v, w :: v in s.workers && w in s.workers && v != w ==>
            Ids(s.workers[v].todo) !! Ids(s.workers[w].todo))
      && (forall w, i :: w in s.workers && 0 <= i < |s.workers[w].todo| ==>
            s.workers[w].todo[i].id in s.db.jobs && s.db.jobs[s.workers[w].todo[i].id].status == Processing)
      && (forall id :: id in s.audit.trail ==> Lifecycle(s.audit.trail[id]))
  {
    ReachableInv(s);
    forall w, i | w in s.workers && 0 <= i < |s.workers[w].todo|
      ensures s.workers[w].todo[i].id in s.db.jobs && s.db.jobs[s.workers[w].todo[i].id].status == Processing
    {
      assert Owns(s.db, s.workers[w]);
    }
  }

  function WithStatus(db: Db, status: Status): set<nat> {
    set id | id in db.jobs && db.jobs[id].status == status
  }

  /** The jobs ever enqueued split exactly into pending, processing, done, error and purged. */
  lemma Conservation(s: State)
    requires Reachable(s)
    ensures
      && s.db.nextId == |WithStatus(s.db, Pending)| + |WithStatus(s.db, Processing)| + |WithStatus(s.db, Done)|
                        + |WithStatus(s.db, Errored)| + |s.audit.purged|
      && FreshIds(0, s.db.nextId) == WithStatus(s.db, Pending) + WithStatus(s.db, Processing)
                        + WithStatus(s.db, Done) + WithStatus(s.db, Errored) + s.audit.purged
  {
    ReachableInv(s);
    LedgerSplits(s.db, s.audit);
  }

  lemma LedgerSplits(db: Db, a: Audit)
    requires Ledger(db, a)
    ensures FreshIds(0, db.nextId) == WithStatus(db, Pending) + WithStatus(db, Processing) + WithStatus(db, Done)
                                      + WithStatus(db, Errored) + a.purged
    ensures db.nextId == |WithStatus(db, Pending)| + |WithStatus(db, Processing)| + |WithStatus(db, Done)|
                         + |WithStatus(db, Errored)| + |a.purged|
  {
    StatusesCover(db);
    assert FreshIds(0, db.nextId) == a.trail.Keys;
    DisjointSizes(db.jobs.Keys, a.purged);
    FreshCount(0, db.nextId);
  }

  lemma StatusesCover(db: Db)
    ensures db.jobs.Keys ==
      WithStatus(db, Pending) + WithStatus(db, Processing) + WithStatus(db, Done) + WithStatus(db, Errored)
    ensures |db.jobs.Keys| ==
      |WithStatus(db, Pending)| + |WithStatus(db, Processing)| + |WithStatus(db, Done)| + |WithStatus(db, Errored)|
  {
    var p, q, d, e := WithStatus(db, Pending), WithStatus(db, Processing),
        WithStatus(db, Done), WithStatus(db, Errored);
    DisjointSizes(p, q);
    DisjointSizes(p + q, d);
    DisjointSizes(p + q + d, e);
    assert p + q + d + e == db.jobs.Keys;
  }

  lemma DisjointSizes(a: set<nat>, b: set<nat>)
    requires a !! b
    ensures |a + b| == |a| + |b|
  {
  }

  lemma {:induction false} FreshCount(from: nat, n: nat)
    ensures |FreshIds(from, n)| == n
  {
    if n > 0 {
      FreshCount(from, n - 1);
    }
  }

  /** The statement serves a mapping that was registered for this table and type. */
  ghost predicate OfMapping(ever: set<Mapping>, table: string, t: JobType, sql: Sql) {
    exists mp :: mp in ever && mp.source == table && mp.jobType == t && Serves(sql, mp)
  }

  lemma SqlFromMapping(ever: set<Mapping>, table: string, t: JobType, sql: Sql)
    requires SqlFrom(ever, Key(table, t), sql)
    ensures OfMapping(ever, table, t, sql)
  {
    var mp :| mp in ever && KeyOf(mp) == Key(table, t) && sql == Build(mp, ExprFor(mp.jobType));
    KeyInjective(mp.source, mp.jobType, table, t);
    BuiltServes(mp);
  }

  /** Done means delivered.  A done job was answered by the providers of the worker that claimed it: an embed job with
      their vector for its text, a generate job with a text they may generate for its text, within its own limit or
      else that worker's.  An ad hoc job carries that very answer in its own row, and no other row carries one; a
      mapped job had exactly one successful write-back, of that very answer, to its own row id, by a statement that
      serves a mapping of its own table and type. */
  lemma DoneMeansDelivered(s: State, id: nat)
    requires Reachable(s) && id in s.db.jobs
    ensures var a, job := s.audit, s.db.jobs[id];
      && (job.status == Done ==>
            && id in a.answers && a.answers[id].verdict.Gave?
            && match a.answers[id].verdict.out
               case VectorOut(v) => job.jobType == Embed && v != [] && v == a.answers[id].from.embed(job.inputText)
               case TextOut(t) =>
                 && job.jobType == Generate && t != ""
                 && (job.maxTokens.Some? ==> a.answers[id].from.mayGenerate(job.inputText, job.maxTokens.value, t))
                 && (job.maxTokens.None? ==>
                       a.answers[id].from.mayGenerate(job.inputText, a.answers[id].from.maxTokens, t)))
      && job.result == (if job.status == Done && job.source.None? then Some(a.answers[id].verdict.out) else None)
      && (job.status == Done && job.source.Some? ==>
            exists i :: 0 <= i < |a.writes|
              && a.writes[i].job == id && a.writes[i].sourceId == job.source.value.id
              && a.writes[i].out == a.answers[id].verdict.out
              && OfMapping(a.everWatched, job.source.value.table, job.jobType, a.writes[i].sql)
              && forall j :: 0 <= j < |a.writes| && j != i ==> a.writes[j].job != id)
  {
    ReachableInv(s);
    var a, job := s.audit, s.db.jobs[id];
    assert ResultOk(a, id, job);
    if job.status == Done {
      DoneIsOwn(s.db, a, id);
      if job.source.Some? {
        DoneIsWritten(s.db, a, id);
      }
    }
    hide Inv, Reachable, OfMapping;
  }

  lemma DoneIsOwn(db: Db, a: Audit, id: nat)
    requires Ledger(db, a) && AnswersOk(db, a) && Results(db, a) && WritesOk(db, a)
    requires id in db.jobs && db.jobs[id].status == Done
    ensures var job := db.jobs[id];
      && id in a.answers && a.answers[id].verdict.Gave?
      && match a.answers[id].verdict.out
         case VectorOut(v) => job.jobType == Embed && v != [] && v == a.answers[id].from.embed(job.inputText)
         case TextOut(t) =>
           && job.jobType == Generate && t != ""
           && (job.maxTokens.Some? ==> a.answers[id].from.mayGenerate(job.inputText, job.maxTokens.value, t))
           && (job.maxTokens.None? ==> a.answers[id].from.mayGenerate(job.inputText, a.answers[id].from.maxTokens, t))
  {
    assert ResultOk(a, id, db.jobs[id]);
    if db.jobs[id].source.Some? {
      var i :| 0 <= i < |a.writes| && a.writes[i].job == id;
      assert WriteFor(a, a.writes[i]);
    }
    assert AnswerOwn(a, id) && a.record[id] == ClaimOf(id, db.jobs[id]);
    hide Ledger, AnswersOk, Results, WritesOk, SqlFrom;
  }

  lemma DoneIsWritten(db: Db, a: Audit, id: nat)
    requires Ledger(db, a) && WritesOk(db, a) && id in a.answers && a.answers[id].verdict.Gave?
    requires id in db.jobs && db.jobs[id].status == Done && db.jobs[id].source.Some?
    ensures var job := db.jobs[id];
      exists i :: 0 <= i < |a.writes|
        && a.writes[i].job == id && a.writes[i].sourceId == job.source.value.id
        && a.writes[i].out == a.answers[id].verdict.out
        && OfMapping(a.everWatched, job.source.value.table, job.jobType, a.writes[i].sql)
        && forall j :: 0 <= j < |a.writes| && j != i ==> a.writes[j].job != id
  {
    assert a.record[id] == ClaimOf(id, db.jobs[id]);
    var i :| 0 <= i < |a.writes| && a.writes[i].job == id;
    assert WriteFor(a, a.writes[i]) && WritesOnce(a);
    hide Ledger, WritesOk, OfMapping, SqlFrom;
    SqlFromMapping(a.everWatched, db.jobs[id].source.value.table, db.jobs[id].jobType, a.writes[i].sql);
  }

  /** And this holds of every write-back ever made, also for jobs that failed afterwards or were purged. */
  lemma EveryWriteIsOwn(s: State, i: nat)
    requires Reachable(s) && i < |s.audit.writes|
    ensures var a, wr := s.audit, s.audit.writes[i];
      && wr.job in a.record && a.record[wr.job].source.Some? && wr.sourceId == a.record[wr.job].source.value.id
      && wr.job in a.answers && a.answers[wr.job].verdict == Gave(wr.out)
      && OfMapping(a.everWatched, a.record[wr.job].source.value.table, a.record[wr.job].jobType, wr.sql)
      && (match wr.out
          case VectorOut(v) =>
            && a.record[wr.job].jobType == Embed && v != []
            && v == a.answers[wr.job].from.embed(a.record[wr.job].inputText)
          case TextOut(t) =>
            && a.record[wr.job].jobType == Generate && t != ""
            && var limit := a.record[wr.job].maxTokens;
               a.answers[wr.job].from.mayGenerate(a.record[wr.job].inputText,
                 if limit.Some? then limit.value else a.answers[wr.job].from.maxTokens, t))
      && forall j :: 0 <= j < |a.writes| && j != i ==> a.writes[j].job != wr.job
  {
    ReachableInv(s);
    hide Reachable, Exclusive, Registered, Caches, Writers, Results, OfMapping, SqlFrom;
    var a, wr := s.audit, s.audit.writes[i];
    assert WriteFor(a, wr) && AnswerOwn(a, wr.job);
    SqlFromMapping(a.everWatched, a.record[wr.job].source.value.table, a.record[wr.job].jobType, wr.sql);
  }

  /** In every run a job is given up for want of a watch only if its worker's refresh failed in that batch. */
  lemma NoWatchOnlyAfterLostRefresh(s: State)
    requires Reachable(s)
    ensures s.audit.noWatch <= s.audit.refreshLost
  {
    ReachableInv(s);
  }

  predicate HasResult(ws: Worker)
    requires ws.todo != []
  {
    ws.todo[0].id in ws.verdicts && ws.verdicts[ws.todo[0].id].Gave?
  }

  /** And exactly then: past the batch's one refresh, the lookup for a job that has a result misses if and only if
      that refresh failed, however many keys were missing. */
  lemma LookupMissesIffRefreshLost(s: State, w: nat)
    requires Reachable(s) && w in s.workers && Busy(s.workers[w], Ready) && s.workers[w].todo[0].source.Some?
    requires s.workers[w].refreshed && HasResult(s.workers[w])
    ensures var ws := s.workers[w];
      var gaveUp := MarkedError(ws.todo[0].id, NoWatch, true);
      && (JobKey(ws.todo[0]) !in ws.cache <==> ws.lost)
      && (Do(s, Act(w, gaveUp)).Some? <==> ws.lost)
  {
    ReachableInv(s);
    hide Do, WorkerProgram.Step;
    var ws := s.workers[w];
    assert CachesOk(s.audit, ws);
    MarkStep(s, w, ws.todo[0].id, NoWatch);
    MissesIffLost(s.audit, ws);
  }

  lemma MarkStep(s: State, w: nat, id: nat, reason: Reason)
    ensures Do(s, Act(w, MarkedError(id, reason, true))).Some?
       <==> w in s.workers && WorkerProgram.Step(s.workers[w], MarkedError(id, reason, true)).Some?
  {
  }

  lemma MissesIffLost(a: Audit, ws: Worker)
    requires CachesOk(a, ws) && Busy(ws, Ready) && ws.todo[0].source.Some? && ws.refreshed && HasResult(ws)
    ensures JobKey(ws.todo[0]) !in ws.cache <==> ws.lost
    ensures WorkerProgram.Step(ws, MarkedError(ws.todo[0].id, NoWatch, true)).Some? <==> ws.lost
  {
  }

  /** After a failed refresh the worker writes back nothing more in that batch. */
  lemma LostRefreshWritesNothing(s: State, w: nat, ev: Event)
    requires Reachable(s) && w in s.workers && s.workers[w].lost && ev.WroteBack?
    ensures Do(s, Act(w, ev)).None?
  {
    ReachableInv(s);
    assert CachesOk(s.audit, s.workers[w]);
    hide Inv;
    assert WorkerProgram.Step(s.workers[w], ev).None?;
  }

  /** The job's key is mapped now, and no other mapping was ever registered under it. */
  ghost predicate OnlyMappedAs(s: State, job: ClaimedJob) {
    job.source.Some? &&
    var k := (job.source.value.table, job.jobType);
    && k in s.db.watched
    && forall mp :: mp in s.audit.everWatched && mp.source == k.0 && mp.jobType == k.1 ==> mp == s.db.watched[k]
  }

  /** A statement that serves a mapping registered for the job's own table and type; if that key was only ever mapped
      one way, the mapping there is now. */
  ghost predicate RightStatement(s: State, job: ClaimedJob, sql: Sql) {
    && job.source.Some? && OfMapping(s.audit.everWatched, job.source.value.table, job.jobType, sql)
    && (OnlyMappedAs(s, job) ==> Serves(sql, s.db.watched[(job.source.value.table, job.jobType)]))
  }

  lemma WroteBackSql(ws: Worker, ev: Event)
    requires ev.WroteBack? && WorkerProgram.Step(ws, ev).Some?
    ensures ws.todo != [] && ws.todo[0].source.Some? && JobKey(ws.todo[0]) in ws.cache
    ensures ev.sql == SqlFor(ws.sql, ws.cache[JobKey(ws.todo[0])], ExprFor(ws.todo[0].jobType))
  {
  }

  lemma ServesOnlyMapping(s: State, job: ClaimedJob, sql: Sql)
    requires OnlyMappedAs(s, job) && OfMapping(s.audit.everWatched, job.source.value.table, job.jobType, sql)
    ensures Serves(sql, s.db.watched[(job.source.value.table, job.jobType)])
  {
  }

  /** Every write-back statement a worker sends is the right one for the job in hand. */
  lemma StatementsStayRight(s: State, w: nat, ev: Event)
    requires Reachable(s) && ev.WroteBack? && Do(s, Act(w, ev)).Some?
    ensures w in s.workers && s.workers[w].todo != [] && RightStatement(s, s.workers[w].todo[0], ev.sql)
  {
    ReachableInv(s);
    DoAct(s, w, ev);
    InvOf(s, w, ev);
    hide Do, Inv, WorkerProgram.Step, Genuine, Reachable, Ledger, Registered, WriterOk, VerdictsOk, Build,
      OnlyMappedAs, SqlFrom, OfMapping;
    var ws := s.workers[w];
    WroteBackSql(ws, ev);
    SqlForJob(s.audit, ws);
    SqlFromMapping(s.audit.everWatched, ws.todo[0].source.value.table, ws.todo[0].jobType, ev.sql);
    if OnlyMappedAs(s, ws.todo[0]) {
      ServesOnlyMapping(s, ws.todo[0], ev.sql);
    }
  }

  /** A worker sends one statement per key: what it has kept for the key of the job in hand, else a fresh one, which it
      then keeps ... */
  lemma SentIsKept(s: State, w: nat, ev: Event)
    requires Reachable(s) && ev.WroteBack? && Do(s, Act(w, ev)).Some?
    ensures w in s.workers && s.workers[w].todo != [] && s.workers[w].todo[0].source.Some?
    ensures var ws, ws', key := s.workers[w], Do(s, Act(w, ev)).value.workers, JobKey(s.workers[w].todo[0]);
      && (key in ws.sql ==> ev.sql == ws.sql[key])
      && w in ws' && key in ws'[w].sql && ws'[w].sql[key] == ev.sql
  {
    hide Do, Inv, Genuine, Reachable, Ledger, Registered, WriterOk, VerdictsOk, CachesOk, WorkerProgram.Step, Owns,
      Observe, Exec;
    ReachableInv(s);
    DoAct(s, w, ev);
    InvOf(s, w, ev);
    KeepsSent(s.audit, s.workers[w], ev);
  }

  lemma KeepsSent(a: Audit, ws: Worker, ev: Event)
    requires CachesOk(a, ws) && ev.WroteBack? && WorkerProgram.Step(ws, ev).Some?
    ensures ws.todo != [] && ws.todo[0].source.Some?
    ensures var sql', key := WorkerProgram.Step(ws, ev).value.sql, JobKey(ws.todo[0]);
      (key in ws.sql ==> ev.sql == ws.sql[key]) && key in sql' && sql'[key] == ev.sql
  {
    hide Build, SqlFrom, Key;
  }

  /** ... as long as it lives, whatever is registered meanwhile. */
  lemma {:induction false} StatementsAreKept(s: State, acts: seq<Action>, w: nat, key: string)
    requires Perform(s, acts).Some? && w in s.workers && key in s.workers[w].sql
    requires forall i :: 0 <= i < |acts| ==> acts[i] != Crash(w)
    ensures var workers := Perform(s, acts).value.workers;
      w in workers && key in workers[w].sql && workers[w].sql[key] == s.workers[w].sql[key]
  {
    if acts != [] {
      var front, act := acts[..|acts| - 1], acts[|acts| - 1];
      assert forall i :: 0 <= i < |front| ==> front[i] == acts[i];
      StatementsAreKept(s, front, w, key);
      hide Perform;
      StepKeepsStatements(Perform(s, front).value, act, w, key);
    }
  }

  lemma StepKeepsStatements(s: State, act: Action, w: nat, key: string)
    requires Do(s, act).Some? && w in s.workers && key in s.workers[w].sql && act != Crash(w)
    ensures var workers := Do(s, act).value.workers;
      w in workers && key in workers[w].sql && workers[w].sql[key] == s.workers[w].sql[key]
  {
    if act.Act? {
      DoAct(s, act.w, act.ev);
      hide Do;
      if act.w == w {
        KeepsSql(s.workers[w], act.ev, key);
      }
    }
  }

  lemma KeepsSql(ws: Worker, ev: Event, key: string)
    requires WorkerProgram.Step(ws, ev).Some? && key in ws.sql
    ensures key in WorkerProgram.Step(ws, ev).value.sql && WorkerProgram.Step(ws, ev).value.sql[key] == ws.sql[key]
  {
  }

  /** Purge removes exactly the done rows older than the interval, and changes no other row. */
  lemma PurgeIsExact(db: Db, age: nat)
    ensures forall id :: id in db.jobs ==>
      (id !in PurgeDone(db, age).jobs <==> db.jobs[id].status == Done && db.jobs[id].updatedAt + age < db.now)
    ensures forall id :: id in PurgeDone(db, age).jobs ==> id in db.jobs && PurgeDone(db, age).jobs[id] == db.jobs[id]
  {
  }
}

/** The queue with any number of workers: each step is one SQL statement of a worker or a client, a worker
  starting or crashing, or time passing.  Every interleaving is a run. */
module Protocol {
  import opened Wrappers
  import opened Database
  import opened WritebackSql
  import opened WorkerProgram
  import Registration

  /** One successful write-back statement. */
  datatype Write = Write(job: nat, sql: Sql, sourceId: int, out: Output)

  /** What an observer records: per job what was enqueued, the statuses it was given, when it got the last one, what a
      provider made of it, and the providers of the worker that gave it up; the rows that were purged, the write-backs,
      every mapping ever registered, the jobs given up for want of a mapping, the jobs whose worker failed to refresh
      its mappings in their batch, the jobs whose write failed, and the jobs left behind by a crash or by a failed last
      mark. */
  datatype Audit = Audit(
    record: map<nat, ClaimedJob>,
    trail: map<nat, seq<Status>>,
    since: map<nat, nat>,
    answers: map<nat, Answer>,
    givenUpBy: map<nat, Models>,
    purged: set<nat>,
    writes: seq<Write>,
    everWatched: set<Mapping>,
    noWatch: set<nat>,
    refreshLost: set<nat>,
    writeLost: set<nat>,
    stranded: set<nat>)

  /** What whose providers made of a job. */
  datatype Answer = Answer(from: Models, verdict: Verdict)

  datatype State = State(db: Db, workers: map<nat, Worker>, audit: Audit)

  datatype ClientOp =
    | EmbedAsync(text: string)
    | GenerateAsync(text: string, maxTokens: Option<int>)
    | RowInsert(table: string, row: Row)
    | RowUpdate(table: string, i: nat, values: Row)
    | RowDelete(table: string, i: nat)
    | Register(call: Registration.Call)

  datatype Action =
    | Start(w: nat, models: Models)
    | Crash(w: nat)
    | Act(w: nat, ev: Event)
    | Client(op: ClientOp)
    | Tick(d: nat)

  function ExecClient(db: Db, op: ClientOp): Option<Db> {
    match op
    case EmbedAsync(text) => Some(EnqueueAll(db, [NewJob(Embed, None, text, None)]))
    case GenerateAsync(text, maxTokens) => Some(EnqueueAll(db, [NewJob(Generate, None, text, maxTokens)]))
    case RowInsert(table, row) => InsertRow(db, table, row)
    case RowUpdate(table, i, values) => UpdateRow(db, table, i, values)
    case RowDelete(table, i) => DeleteRow(db, table, i)
    case Register(call) => Some(Registration.Apply(db, call))
  }

  /** The statuses a worker's statement sets. */
  function StatusSet(db: Db, ev: Event): map<nat, Status> {
    match ev
    case Claimed(_, _, jobs) => map id | id in Ids(jobs) :: Processing
    case WroteAdHoc(id, _, true) => if id in db.jobs then map[id := Done] else map[]
    case MarkedDone(id, true) => if id in db.jobs then map[id := Done] else map[]
    case MarkedError(id, _, true) => if id in db.jobs then map[id := Errored] else map[]
    case _ => map[]
  }

  function Dropped(db: Db, ev: Event): set<nat> {
    match ev case Purged(age, true) => Expired(db, age) case _ => {}
  }

  function NewTrail(trail: map<nat, seq<Status>>, nextId: nat, statuses: map<nat, Status>): map<nat, seq<Status>> {
    map id | id in FreshIds(0, nextId) ::
      (if id in trail then trail[id] else [Pending]) + (if id in statuses then [statuses[id]] else [])
  }

  function NewSince(since: map<nat, nat>, nextId: nat, statuses: map<nat, Status>, now: nat): map<nat, nat> {
    map id | id in FreshIds(0, nextId) :: if id in statuses || id !in since then now else since[id]
  }

  /** Rows keep what they were enqueued with; the record keeps it for rows that are gone. */
  function NewRecord(record: map<nat, ClaimedJob>, db': Db): map<nat, ClaimedJob> {
    (map id | id in db'.jobs :: ClaimOf(id, db'.jobs[id])) + record
  }

  function Mappings(watched: map<WatchKey, Mapping>): set<Mapping> {
    set k | k in watched :: watched[k]
  }

  function AnswersOf(from: Models, answers: map<nat, Verdict>): map<nat, Answer> {
    map id | id in answers :: Answer(from, answers[id])
  }

  function Observe(a: Audit, db: Db, ws: Worker, ev: Event, db': Db): Audit {
    a.(record := NewRecord(a.record, db'),
       trail := NewTrail(a.trail, db'.nextId, StatusSet(db, ev)),
       since := NewSince(a.since, db'.nextId, StatusSet(db, ev), db.now),
       givenUpBy := if ev.MarkedError? then a.givenUpBy[ev.id := ws.models] else a.givenUpBy,
       answers := if ev.Produced? then AnswersOf(ws.models, ev.answers) + a.answers else a.answers,
       purged := a.purged + Dropped(db, ev),
       writes := if ev.WroteBack? && ev.ok && ws.todo != []
                 then a.writes + [Write(ws.todo[0].id, ev.sql, ev.sourceId, ev.out)] else a.writes,
       noWatch := if ev.MarkedError? && ev.reason == NoWatch then a.noWatch + {ev.id} else a.noWatch,
       refreshLost := if ev.Selected? && !ev.ok then a.refreshLost + Ids(ws.todo) else a.refreshLost,
       writeLost := if (ev.WroteBack? || ev.WroteAdHoc?) && !ev.ok && ws.todo != []
                    then a.writeLost + {ws.todo[0].id} else a.writeLost,
       stranded := if (ev.MarkedDone? || ev.MarkedError?) && !ev.ok then a.stranded + {ev.id} else a.stranded)
  }

  /** None where the action is not possible in this state. */
  ghost function Do(s: State, act: Action): Option<State> {
    match act
    case Start(w, models) =>
      if w in s.workers then None
      else Some(s.(workers := s.workers[w := Fresh(models, Keyed(s.db.watched))]))
    case Crash(w) =>
      if w in s.workers then
        Some(s.(workers := s.workers - {w},
                audit := s.audit.(stranded := s.audit.stranded + Ids(s.workers[w].todo))))
      else None
    case Act(w, ev) =>
      if w in s.workers && Genuine(s.db, ev) && WorkerProgram.Step(s.workers[w], ev).Some? then
        var db' := Exec(s.db, ev);
        Some(State(db', s.workers[w := WorkerProgram.Step(s.workers[w], ev).value],
                   Observe(s.audit, s.db, s.workers[w], ev, db')))
      else None
    case Client(op) =>
      (match ExecClient(s.db, op)
       case None => None
       case Some(db') => Some(s.(db := db',
         audit := s.audit.(record := NewRecord(s.audit.record, db'),
                           trail := NewTrail(s.audit.trail, db'.nextId, map[]),
                           since := NewSince(s.audit.since, db'.nextId, map[], s.db.now),
                           everWatched := s.audit.everWatched + Mappings(db'.watched)))))
    case Tick(d) => Some(s.(db := s.db.(now := s.db.now + d)))
  }

  ghost function Perform(s: State, acts: seq<Action>): Option<State> {
    if acts == [] then Some(s)
    else
      match Perform(s, acts[..|acts| - 1])
      case Some(t) => Do(t, acts[|acts| - 1])
      case None => None
  }

  /** After CREATE EXTENSION: users' tables of any content, nothing else. */
  ghost predicate Initial(s: State) {
    && s.db.jobs == map[] && s.db.nextId == 0 && s.db.watched == map[] && s.db.triggers == map[]
    && s.workers == map[]
    && s.audit == Audit(map[], map[], map[], map[], map[], {}, [], {}, {}, {}, {}, {})
  }

  /** Some run leads here. */
  ghost predicate Reachable(s: State) {
    exists s0, acts :: Initial(s0) && Perform(s0, acts) == Some(s)
  }

  lemma {:induction false} PerformConcat(s: State, a: seq<Action>, b: seq<Action>)
    ensures Perform(s, a + b) == match Perform(s, a) case Some(t) => Perform(t, b) case None => None
    decreases |b|
  {
    hide Do;
    if b == [] {
      assert a + b == a;
    } else {
      PerformConcat(s, a, b[..|b| - 1]);
      assert (a + b)[..|a + b| - 1] == a + b[..|b| - 1];
    }
  }

  lemma StaysReachable(s: State, acts: seq<Action>)
    requires Reachable(s) && Perform(s, acts).Some?
    ensures Reachable(Perform(s, acts).value)
  {
    var s0, before :| Initial(s0) && Perform(s0, before) == Some(s);
    PerformConcat(s0, before, acts);
  }

  // ---- What holds in every reachable state --------------------------------------------------------

  /** A prefix of pending, processing, then done or error. */
  predicate Lifecycle(t: seq<Status>) {
    && 1 <= |t| <= 3 && t[0] == Pending
    && (|t| >= 2 ==> t[1] == Processing)
    && (|t| == 3 ==> t[2] == Done || t[2] == Errored)
  }

  function Last(t: seq<Status>): Status
    requires t != []
  {
    t[|t| - 1]
  }

  ghost predicate OnRecord(db: Db, record: map<nat, ClaimedJob>) {
    && (forall id: nat :: id in record <==> id < db.nextId)
    && (forall id :: id in db.jobs ==> id in record && record[id] == ClaimOf(id, db.jobs[id]))
  }

  /** Every job ever enqueued is on record; it is still a row, with what it was enqueued with and the status it was
      last given, or was purged when done. */
  ghost predicate Ledger(db: Db, a: Audit) {
    && (forall id: nat :: id in a.trail <==> id < db.nextId)
    && OnRecord(db, a.record)
    && db.jobs.Keys + a.purged == a.trail.Keys && db.jobs.Keys !! a.purged
    && (forall id :: id in a.trail ==> Lifecycle(a.trail[id]))
    && (forall id :: id in db.jobs ==> Last(a.trail[id]) == db.jobs[id].status)
    && (forall id :: id in a.purged ==> Last(a.trail[id]) == Done)
  }

  /** A worker's list: distinct jobs, all still processing and unchanged since the claim. */
  ghost predicate Owns(db: Db, ws: Worker) {
    && Distinct(ws.todo) && (ws.todo == [] ==> ws.stage == Ready)
    && forall i :: 0 <= i < |ws.todo| ==>
      && ws.todo[i].id in db.jobs
      && db.jobs[ws.todo[i].id].status == Processing
      && ClaimOf(ws.todo[i].id, db.jobs[ws.todo[i].id]) == ws.todo[i]
  }

  ghost predicate Exclusive(db: Db, workers: map<nat, Worker>) {
    && (forall w :: w in workers ==> Owns(db, workers[w]))
    && (forall v, w :: v in workers && w in workers && v != w ==> Ids(workers[v].todo) !! Ids(workers[w].todo))
  }

  predicate IsFresh(job: Job, now: nat) {
    job.status == Pending && job.result.None? && job.error.None? && job.updatedAt == now
  }

  /** How one action changed the jobs table: these ids got these statuses, these rows went, new ones are pending. */
  ghost predicate JobsEffect(db: Db, db': Db, statuses: map<nat, Status>, dropped: set<nat>) {
    && db.nextId <= db'.nextId
    && statuses.Keys <= db.jobs.Keys && dropped <= db.jobs.Keys && statuses.Keys !! dropped
    && db'.jobs.Keys == (db.jobs.Keys - dropped) + FreshIds(db.nextId, db'.nextId - db.nextId)
    && (forall id :: id in dropped ==> db.jobs[id].status == Done)
    && (forall id :: id in db.jobs && id !in dropped && id < db.nextId ==>
          && ClaimOf(id, db'.jobs[id]) == ClaimOf(id, db.jobs[id])
          && (if id in statuses then db'.jobs[id].status == statuses[id] && db'.jobs[id].updatedAt == db.now
              else db'.jobs[id] == db.jobs[id]))
    && (forall id :: id in db'.jobs && db.nextId <= id ==> IsFresh(db'.jobs[id], db.now))
  }

  /** Claims take pending jobs; every other status is given to a job that is processing. */
  ghost predicate Lawful(db: Db, statuses: map<nat, Status>) {
    && statuses.Keys <= db.jobs.Keys
    && forall id :: id in statuses ==>
      if statuses[id] == Processing then db.jobs[id].status == Pending
      else db.jobs[id].status == Processing && statuses[id] != Pending
  }

  lemma EnqueuedRow(db: Db, news: seq<NewJob>, id: nat)
    requires Numbered(db)
    ensures var db' := EnqueueAll(db, news);
      && (id in db'.jobs <==> id in db.jobs || db.nextId <= id < db.nextId + |news|)
      && (id in db.jobs ==> db'.jobs[id] == db.jobs[id])
      && (id in db'.jobs && db.nextId <= id ==>
            db'.jobs[id] == FreshJob(news[id - db.nextId], db.now) && IsFresh(db'.jobs[id], db.now))
  {
  }

  lemma EnqueueEffect(db: Db, news: seq<NewJob>)
    requires Numbered(db)
    ensures JobsEffect(db, EnqueueAll(db, news), map[], {})
  {
    var db' := EnqueueAll(db, news);
    assert db'.nextId == db.nextId + |news|;
    hide EnqueueAll, FreshJob, IsFresh, ClaimOf;
    forall id: nat
      ensures id in db'.jobs <==> id in db.jobs || db.nextId <= id < db.nextId + |news|
      ensures id in db.jobs ==> db'.jobs[id] == db.jobs[id]
      ensures id in db'.jobs && db.nextId <= id ==> IsFresh(db'.jobs[id], db.now)
    {
      EnqueuedRow(db, news, id);
    }
    assert db'.jobs.Keys == db.jobs.Keys + FreshIds(db.nextId, |news|);
  }

  lemma NewRecordAt(record: map<nat, ClaimedJob>, db': Db, id: nat)
    ensures id in NewRecord(record, db') <==> id in record || id in db'.jobs
    ensures id in record ==> NewRecord(record, db')[id] == record[id]
    ensures id !in record && id in db'.jobs ==> NewRecord(record, db')[id] == ClaimOf(id, db'.jobs[id])
  {
  }

  /** Whatever is done to the jobs, the record keeps what it has and takes down what is new. */
  lemma RecordKept(db: Db, record: map<nat, ClaimedJob>, db': Db, statuses: map<nat, Status>, dropped: set<nat>)
    requires Numbered(db) && JobsEffect(db, db', statuses, dropped) && OnRecord(db, record)
    ensures OnRecord(db', NewRecord(record, db'))
    ensures forall id :: id in record ==> id in NewRecord(record, db') && NewRecord(record, db')[id] == record[id]
  {
    forall id: nat
      ensures id in NewRecord(record, db') <==> id < db'.nextId
      ensures id in db'.jobs ==> NewRecord(record, db')[id] == ClaimOf(id, db'.jobs[id])
      ensures id in record ==> NewRecord(record, db')[id] == record[id]
    {
      RecordKeptAt(db, record, db', statuses, dropped, id);
    }
  }

  lemma RecordKeptAt(db: Db, record: map<nat, ClaimedJob>, db': Db, statuses: map<nat, Status>, dropped: set<nat>,
                     id: nat)
    requires Numbered(db) && JobsEffect(db, db', statuses, dropped) && OnRecord(db, record)
    ensures id in NewRecord(record, db') <==> id < db'.nextId
    ensures id in db'.jobs ==> NewRecord(record, db')[id] == ClaimOf(id, db'.jobs[id])
    ensures id in record ==> NewRecord(record, db')[id] == record[id]
  {
    hide NewRecord, ClaimOf, JobsEffect;
    NewRecordAt(record, db', id);
    EffectAt(db, db', statuses, dropped, id);
  }

  /** The effect of an action on one row. */
  lemma EffectAt(db: Db, db': Db, statuses: map<nat, Status>, dropped: set<nat>, id: nat)
    requires Numbered(db) && JobsEffect(db, db', statuses, dropped)
    ensures db.nextId <= db'.nextId && (id in db'.jobs ==> id < db'.nextId)
    ensures db.nextId <= id < db'.nextId ==> id in db'.jobs && IsFresh(db'.jobs[id], db.now)
    ensures id in db'.jobs && id < db.nextId ==> id in db.jobs && ClaimOf(id, db'.jobs[id]) == ClaimOf(id, db.jobs[id])
  {
  }

  lemma EffectIds(db: Db, db': Db, statuses: map<nat, Status>, dropped: set<nat>, id: nat)
    requires JobsEffect(db, db', statuses, dropped)
    ensures db.nextId <= db'.nextId
    ensures id in db'.jobs && id < db.nextId ==> id in db.jobs && ClaimOf(id, db'.jobs[id]) == ClaimOf(id, db.jobs[id])
    ensures id in db'.jobs && id < db.nextId ==>
      db'.jobs[id].status == if id in statuses then statuses[id] else db.jobs[id].status
  {
  }

  lemma EffectRow(db: Db, db': Db, statuses: map<nat, Status>, dropped: set<nat>, id: nat)
    requires Numbered(db) && JobsEffect(db, db', statuses, dropped) && id in db'.jobs
    ensures id < db.nextId ==> id in db.jobs
    ensures id !in statuses && id < db.nextId ==> db'.jobs[id] == db.jobs[id]
    ensures id in statuses ==> id < db.nextId && db'.jobs[id].updatedAt == db.now
    ensures db.nextId <= id ==> IsFresh(db'.jobs[id], db.now) && id !in db.jobs
  {
  }

  lemma TrailGrows(t: seq<Status>, status: Status)
    requires Lifecycle(t)
    requires if status == Processing then Last(t) == Pending else Last(t) == Processing && status != Pending
    ensures Lifecycle(t + [status]) && Last(t + [status]) == status
  {
  }

  lemma TrailKept(db: Db, a: Audit, db': Db, trail': map<nat, seq<Status>>, statuses: map<nat, Status>,
                  dropped: set<nat>, id: nat)
    requires Ledger(db, a) && JobsEffect(db, db', statuses, dropped) && Lawful(db, statuses)
    requires trail' == NewTrail(a.trail, db'.nextId, statuses) && id < db'.nextId
    ensures id in trail' && Lifecycle(trail'[id])
    ensures id in db'.jobs ==> Last(trail'[id]) == db'.jobs[id].status
    ensures id in a.trail && id !in statuses ==> trail'[id] == a.trail[id]
  {
    if id in statuses {
      assert id in db.jobs && Last(a.trail[id]) == db.jobs[id].status;
      TrailGrows(a.trail[id], statuses[id]);
    } else if id in a.trail {
      assert a.trail[id] + [] == a.trail[id];
    } else {
      assert trail'[id] == [Pending];
    }
  }

  lemma LedgerKept(db: Db, a: Audit, db': Db, a': Audit, statuses: map<nat, Status>, dropped: set<nat>)
    requires Ledger(db, a) && JobsEffect(db, db', statuses, dropped) && Lawful(db, statuses)
    requires a'.trail == NewTrail(a.trail, db'.nextId, statuses) && a'.purged == a.purged + dropped
    requires a'.record == NewRecord(a.record, db') && Numbered(db)
    ensures Ledger(db', a')
  {
    RecordKept(db, a.record, db', statuses, dropped);
    hide Ledger, AccountedAt, OnRecord, NewRecord, JobsEffect, NewTrail, Lawful, Numbered;
    forall id: nat ensures AccountedAt(db', a', id) {
      LedgerAt(db, a, db', a', statuses, dropped, id);
    }
    LedgerOf(db', a');
  }

  /** What the ledger says of one job. */
  ghost predicate AccountedAt(db: Db, a: Audit, id: nat) {
    && (id in a.trail <==> id < db.nextId)
    && (id in a.trail <==> id in db.jobs || id in a.purged)
    && (id in db.jobs ==> id !in a.purged)
    && (id in a.trail ==>
          Lifecycle(a.trail[id]) && Last(a.trail[id]) == if id in db.jobs then db.jobs[id].status else Done)
  }

  lemma LedgerOf(db: Db, a: Audit)
    requires OnRecord(db, a.record) && forall id: nat :: AccountedAt(db, a, id)
    ensures Ledger(db, a)
  {
    hide OnRecord;
    forall id: nat ensures id in db.jobs.Keys + a.purged <==> id in a.trail.Keys {
      assert AccountedAt(db, a, id);
    }
    forall id: nat ensures (id in a.trail <==> id < db.nextId) && (id in db.jobs ==> id !in a.purged) {
      assert AccountedAt(db, a, id);
    }
    forall id | id in a.trail ensures a.trail[id] != [] && Lifecycle(a.trail[id])
      && Last(a.trail[id]) == if id in db.jobs then db.jobs[id].status else Done
    {
      assert AccountedAt(db, a, id);
    }
  }

  lemma LedgerAt(db: Db, a: Audit, db': Db, a': Audit, statuses: map<nat, Status>, dropped: set<nat>, id: nat)
    requires Ledger(db, a) && JobsEffect(db, db', statuses, dropped) && Lawful(db, statuses)
    requires a'.trail == NewTrail(a.trail, db'.nextId, statuses) && a'.purged == a.purged + dropped
    ensures AccountedAt(db', a', id)
  {
    hide OnRecord, ClaimOf, Lawful;
    assert id in a.trail <==> id in db.jobs.Keys + a.purged;
    if id < db'.nextId {
      TrailKept(db, a, db', a'.trail, statuses, dropped, id);
    }
  }

  /** A worker whose jobs an action did not touch still owns them. */
  lemma StillOwns(db: Db, db': Db, statuses: map<nat, Status>, dropped: set<nat>, ws: Worker)
    requires Owns(db, ws) && JobsEffect(db, db', statuses, dropped)
    requires forall id :: id in db.jobs ==> id < db.nextId
    requires Ids(ws.todo) !! statuses.Keys
    ensures Owns(db', ws)
  {
    forall i | 0 <= i < |ws.todo|
      ensures ws.todo[i].id in db'.jobs && db'.jobs[ws.todo[i].id] == db.jobs[ws.todo[i].id]
    {
      assert ws.todo[i].id in Ids(ws.todo);
    }
  }

  /** Ids are handed out in order, so all are below the next one. */
  ghost predicate Numbered(db: Db) {
    forall id :: id in db.jobs ==> id < db.nextId
  }

  lemma ChangeEffect(db: Db, table: string, rows': seq<Row>, touched: seq<Row>, change: Change)
    requires Numbered(db) && ChangeRows(db, table, rows', touched, change).Some?
    ensures JobsEffect(db, ChangeRows(db, table, rows', touched, change).value, map[], {})
    ensures ChangeRows(db, table, rows', touched, change).value.watched == db.watched
    ensures ChangeRows(db, table, rows', touched, change).value.triggers == db.triggers
  {
    EnqueueEffect(db.(tables := db.tables[table := rows']), FireOnRows(db, table, touched, change).value);
  }

  lemma RunEffect(db: Db, sql: Sql, id: int, out: Output)
    requires Numbered(db) && WritebackSql.Run(db, sql, id, out).Some?
    ensures JobsEffect(db, WritebackSql.Run(db, sql, id, out).value, map[], {})
    ensures WritebackSql.Run(db, sql, id, out).value.watched == db.watched
    ensures WritebackSql.Run(db, sql, id, out).value.triggers == db.triggers
  {
    var rows, v := db.tables[sql.table], Stored(out);
    if sql.UpdateSql? || HasRow(rows, sql.key, id) {
      ChangeEffect(db, sql.table, SetMatching(rows, sql, id, v), Touched(rows, sql, id, v), Updated({sql.column}));
    } else {
      var row := map[sql.key := Number(id), sql.column := v];
      ChangeEffect(db, sql.table, rows + [row], [row], Inserted);
    }
  }

  lemma ClientEffect(db: Db, op: ClientOp)
    requires Numbered(db) && ExecClient(db, op).Some?
    ensures JobsEffect(db, ExecClient(db, op).value, map[], {})
  {
    match op
    case EmbedAsync(text) => EnqueueEffect(db, [NewJob(Embed, None, text, None)]);
    case GenerateAsync(text, maxTokens) => EnqueueEffect(db, [NewJob(Generate, None, text, maxTokens)]);
    case RowInsert(table, row) => ChangeEffect(db, table, db.tables[table] + [row], [row], Inserted);
    case RowUpdate(table, i, values) =>
      var row' := db.tables[table][i] + values;
      ChangeEffect(db, table, db.tables[table][i := row'], [row'], Updated(values.Keys));
    case RowDelete(table, i) =>
    case Register(call) =>
  }

  /** The statements of a worker change only its own jobs and pending ones, each along its lifecycle. */
  lemma ActEffect(db: Db, ws: Worker, ev: Event)
    requires Numbered(db) && Owns(db, ws) && Genuine(db, ev) && WorkerProgram.Step(ws, ev).Some?
    ensures JobsEffect(db, Exec(db, ev), StatusSet(db, ev), Dropped(db, ev))
    ensures Lawful(db, StatusSet(db, ev))
    ensures forall id :: id in StatusSet(db, ev) ==> db.jobs[id].status == Pending || id in Ids(ws.todo)
  {
    match ev
    case Claimed(_, _, _) => ClaimedEffect(db, ev, Ids(ev.jobs));
    case WroteAdHoc(_, _, _) => OwnJobEffect(db, ev, ws.todo[0].id);
    case MarkedDone(_, _) => OwnJobEffect(db, ev, ws.todo[0].id);
    case MarkedError(_, _, _) => OwnJobEffect(db, ev, ws.todo[0].id);
    case WroteBack(sql, sourceId, out, ok) => if ok { RunEffect(db, sql, sourceId, out); } else { NoEffect(db); }
    case Purged(age, ok) => if ok { PurgeEffect(db, age); } else { NoEffect(db); }
    case _ => NoEffect(db);
  }

  lemma ClaimedEffect(db: Db, ev: Event, ids: set<nat>)
    requires Numbered(db) && ev.Claimed? && ids == Ids(ev.jobs) && ids <= PendingIds(db)
    ensures JobsEffect(db, Exec(db, ev), StatusSet(db, ev), {}) && Lawful(db, StatusSet(db, ev))
    ensures forall id :: id in StatusSet(db, ev) ==> db.jobs[id].status == Pending
  {
    ClaimEffect(db, ids);
  }

  lemma OwnJobEffect(db: Db, ev: Event, id: nat)
    requires Numbered(db) && id in db.jobs && db.jobs[id].status == Processing
    requires (ev.WroteAdHoc? || ev.MarkedDone? || ev.MarkedError?) && ev.id == id
    ensures JobsEffect(db, Exec(db, ev), StatusSet(db, ev), {}) && Lawful(db, StatusSet(db, ev))
    ensures StatusSet(db, ev).Keys <= {id}
  {
    var job' := OwnJobRow(db, ev, id);
    hide Exec, StatusSet, ClaimOf, JobsEffect;
    if ev.ok {
      OneRowEffect(db, id, job');
    } else {
      NoEffect(db);
    }
  }

  lemma OwnJobRow(db: Db, ev: Event, id: nat) returns (job': Job)
    requires id in db.jobs && (ev.WroteAdHoc? || ev.MarkedDone? || ev.MarkedError?) && ev.id == id
    ensures ClaimOf(id, job') == ClaimOf(id, db.jobs[id]) && job'.updatedAt == db.now
    ensures job'.status == Done || job'.status == Errored
    ensures Exec(db, ev) == if ev.ok then db.(jobs := db.jobs[id := job']) else db
    ensures StatusSet(db, ev) == if ev.ok then map[id := job'.status] else map[]
  {
    job' := db.jobs[id].(status := if ev.MarkedError? then Errored else Done, updatedAt := db.now);
    if ev.ok {
      job' := Exec(db, ev).jobs[id];
    }
  }

  lemma NoEffect(db: Db)
    requires Numbered(db)
    ensures JobsEffect(db, db, map[], {})
  {
  }

  lemma OneRowEffect(db: Db, id: nat, job': Job)
    requires Numbered(db) && id in db.jobs && ClaimOf(id, job') == ClaimOf(id, db.jobs[id]) && job'.updatedAt == db.now
    ensures JobsEffect(db, db.(jobs := db.jobs[id := job']), map[id := job'.status], {})
  {
  }

  lemma ClaimEffect(db: Db, ids: set<nat>)
    requires Numbered(db) && ids <= PendingIds(db)
    ensures var statuses := map id | id in ids :: Processing;
      JobsEffect(db, ClaimRows(db, ids), statuses, {}) && Lawful(db, statuses)
  {
  }

  lemma PurgeEffect(db: Db, age: nat)
    requires Numbered(db)
    ensures JobsEffect(db, PurgeDone(db, age), map[], Expired(db, age))
  {
  }

  lemma TailIds(todo: seq<ClaimedJob>)
    requires todo != []
    ensures Ids(todo[1..]) <= Ids(todo) && todo[0].id in Ids(todo)
    ensures forall i :: 0 <= i < |todo[1..]| ==> todo[1..][i] == todo[i + 1]
  {
    forall id | id in Ids(todo[1..]) ensures id in Ids(todo) {
      var i :| 0 <= i < |todo[1..]| && todo[1..][i].id == id;
      assert todo[i + 1].id == id;
    }
  }

  ghost predicate CanAct(db: Db, ws: Worker, ev: Event) {
    Numbered(db) && Owns(db, ws) && Genuine(db, ev) && WorkerProgram.Step(ws, ev).Some?
  }

  lemma ClaimOwned(db: Db, ev: Event)
    requires ev.Claimed? && Genuine(db, ev)
    ensures Ids(Split(ev.jobs)) == Ids(ev.jobs) && Distinct(Split(ev.jobs))
    ensures forall i :: 0 <= i < |Split(ev.jobs)| ==> var id := Split(ev.jobs)[i].id;
      && id in db.jobs && db.jobs[id].status == Pending && id in Exec(db, ev).jobs
      && Exec(db, ev).jobs[id].status == Processing && ClaimOf(id, Exec(db, ev).jobs[id]) == Split(ev.jobs)[i]
  {
    SplitPartitions(ev.jobs);
    forall i | 0 <= i < |Split(ev.jobs)|
      ensures var id := Split(ev.jobs)[i].id;
        && id in db.jobs && db.jobs[id].status == Pending && id in Exec(db, ev).jobs
        && Exec(db, ev).jobs[id].status == Processing && ClaimOf(id, Exec(db, ev).jobs[id]) == Split(ev.jobs)[i]
    {
      assert Split(ev.jobs)[i] in ev.jobs;
      assert Split(ev.jobs)[i].id in Ids(ev.jobs);
    }
  }

  lemma NextOwns(db: Db, db': Db, statuses: map<nat, Status>, dropped: set<nat>, ws: Worker, wrote: bool)
    requires Numbered(db) && Owns(db, ws) && ws.todo != [] && JobsEffect(db, db', statuses, dropped)
    requires statuses.Keys <= {ws.todo[0].id}
    ensures Owns(db', Next(ws, wrote))
    ensures Ids(Next(ws, wrote).todo) <= Ids(ws.todo)
  {
    var rest := ws.todo[1..];
    forall i | 0 <= i < |rest|
      ensures rest[i].id in db'.jobs && db'.jobs[rest[i].id] == db.jobs[rest[i].id]
    {
      assert rest[i] == ws.todo[i + 1];
    }
    forall id | id in Ids(rest) ensures id in Ids(ws.todo) {
      var i :| 0 <= i < |rest| && rest[i].id == id;
      assert ws.todo[i + 1].id == id;
    }
  }

  /** But for a claim, a statement either leaves the list alone and sets no status, or finishes the first job. */
  lemma StepShape(db: Db, ws: Worker, ev: Event)
    requires !ev.Claimed? && WorkerProgram.Step(ws, ev).Some?
    ensures var ws' := WorkerProgram.Step(ws, ev).value;
      if ws'.todo == ws.todo then StatusSet(db, ev) == map[] && (ws'.todo == [] ==> ws'.stage == ws.stage)
      else ws.todo != [] && ws'.todo == ws.todo[1..] && ws'.stage == Ready && StatusSet(db, ev).Keys <= {ws.todo[0].id}
  {
  }

  lemma ClaimOwns(db: Db, ws: Worker, ev: Event)
    requires ev.Claimed? && Owns(db, ws) && Genuine(db, ev) && WorkerProgram.Step(ws, ev).Some?
    ensures var ws' := WorkerProgram.Step(ws, ev).value;
      && Owns(Exec(db, ev), ws')
      && forall id :: id in Ids(ws'.todo) ==> id in db.jobs && db.jobs[id].status == Pending
  {
    hide Split, Genuine, Exec, WorkerProgram.Step, ClaimOf;
    ClaimOwned(db, ev);
    ClaimedShape(ws, ev);
    var todo := WorkerProgram.Step(ws, ev).value.todo;
    forall id | id in Ids(todo) ensures id in db.jobs && db.jobs[id].status == Pending {
      var i :| 0 <= i < |todo| && todo[i].id == id;
    }
  }

  lemma ClaimedShape(ws: Worker, ev: Event)
    requires ev.Claimed? && WorkerProgram.Step(ws, ev).Some?
    ensures var ws' := WorkerProgram.Step(ws, ev).value;
      ws.todo == [] && ws'.todo == Split(ev.jobs) && (ws'.todo == [] ==> ws'.stage == ws.stage || ws'.stage == Ready)
  {
    assert ev.jobs == [] ==> Only(ev.jobs, Embed) == [] && Only(ev.jobs, Generate) == [];
  }

  lemma {:induction false} ActOwns(db: Db, ws: Worker, ev: Event)
    requires Numbered(db) && Owns(db, ws) && Genuine(db, ev) && WorkerProgram.Step(ws, ev).Some?
    ensures var ws' := WorkerProgram.Step(ws, ev).value;
      && Owns(Exec(db, ev), ws')
      && forall id :: id in Ids(ws'.todo) ==> id in Ids(ws.todo) || (id in db.jobs && db.jobs[id].status == Pending)
  {
    if ev.Claimed? {
      ClaimOwns(db, ws, ev);
    } else {
      hide WorkerProgram.Step, Exec, Genuine, StatusSet, Lawful, JobsEffect;
      ActEffect(db, ws, ev);
      StepShape(db, ws, ev);
      var ws', db' := WorkerProgram.Step(ws, ev).value, Exec(db, ev);
      if ws'.todo != ws.todo {
        NextOwns(db, db', StatusSet(db, ev), Dropped(db, ev), ws, true);
      } else {
        StillOwns(db, db', StatusSet(db, ev), Dropped(db, ev), ws);
      }
    }
  }

  /** Another worker's jobs are neither touched nor taken. */
  lemma OthersKeepTheirs(db: Db, ws: Worker, ev: Event, vs: Worker)
    requires Numbered(db) && Owns(db, ws) && Genuine(db, ev) && WorkerProgram.Step(ws, ev).Some?
    requires Owns(db, vs) && Ids(vs.todo) !! Ids(ws.todo)
    ensures Owns(Exec(db, ev), vs) && Ids(vs.todo) !! Ids(WorkerProgram.Step(ws, ev).value.todo)
  {
    hide Exec, Genuine, WorkerProgram.Step, StatusSet, Lawful;
    ActEffect(db, ws, ev);
    ActOwns(db, ws, ev);
    forall id | id in Ids(vs.todo) ensures id in db.jobs && db.jobs[id].status == Processing && id !in Ids(ws.todo) {
      var i :| 0 <= i < |vs.todo| && vs.todo[i].id == id;
    }
    StillOwns(db, Exec(db, ev), StatusSet(db, ev), Dropped(db, ev), vs);
  }

  /** Exclusive claims survive whatever one worker does. */
  lemma ExclusiveKept(db: Db, workers: map<nat, Worker>, w: nat, ev: Event)
    requires Numbered(db) && Exclusive(db, workers) && w in workers
    requires Genuine(db, ev) && WorkerProgram.Step(workers[w], ev).Some?
    ensures Exclusive(Exec(db, ev), workers[w := WorkerProgram.Step(workers[w], ev).value])
  {
    hide Exec, Genuine, WorkerProgram.Step, Owns;
    ActOwns(db, workers[w], ev);
    forall v | v in workers && v != w
      ensures Owns(Exec(db, ev), workers[v])
      ensures Ids(workers[v].todo) !! Ids(WorkerProgram.Step(workers[w], ev).value.todo)
    {
      OthersKeepTheirs(db, workers[w], ev, workers[v]);
    }
  }
}

/** What pgquarry is for: the target column keeps up with the source column.  With one worker at a time, whenever the
  newest job of a row has been written, the target cells hold the result for the text that stands in the row now. */
module InSync {
  import opened Wrappers
  import opened Database
  import opened WritebackSql
  import opened WorkerProgram
  import opened Protocol
  import opened Verdicts
  import opened ProtocolSafety
  import opened LatestWins
  import Registration

  // ---- The record of jobs -----------------------------------------------------------------------------

  ghost predicate Watched(watched: map<WatchKey, Mapping>, job: ClaimedJob) {
    job.source.Some? ==> (job.source.value.table, job.jobType) in watched
  }

  /** Each job's table was watched for its type when it was enqueued, and still is. */
  ghost predicate AllWatched(db: Db, record: map<nat, ClaimedJob>) {
    forall id :: id in record ==> Watched(db.watched, record[id])
  }

  lemma WatchedNow(db: Db, id: nat)
    requires ProtocolSafety.Registered(db) && id in db.jobs
    ensures Watched(db.watched, ClaimOf(id, db.jobs[id]))
  {
    assert JobRegistered(db, id);
  }

  lemma WatchedKept(db: Db, record: map<nat, ClaimedJob>, db': Db)
    requires AllWatched(db, record) && ProtocolSafety.Registered(db') && db.watched.Keys <= db'.watched.Keys
    ensures AllWatched(db', NewRecord(record, db'))
  {
    hide NewRecord, ProtocolSafety.Registered, ClaimOf;
    forall id | id in NewRecord(record, db') ensures Watched(db'.watched, NewRecord(record, db')[id]) {
      NewRecordAt(record, db', id);
      if id in record {
        assert Watched(db.watched, record[id]);
      } else {
        WatchedNow(db', id);
      }
    }
  }

  // ---- The newest job of a row ------------------------------------------------------------------------

  predicate ForRow(mp: Mapping, job: ClaimedJob, x: int) {
    job.source.Some? && job.source.value.table == mp.source && job.source.value.id == x && job.jobType == mp.jobType
  }

  function Newest(record: map<nat, ClaimedJob>, mp: Mapping, x: int, n: nat): Option<nat> {
    if n == 0 then None
    else if n - 1 in record && ForRow(mp, record[n - 1], x) then Some(n - 1)
    else Newest(record, mp, x, n - 1)
  }

  lemma {:induction false} NewestIs(record: map<nat, ClaimedJob>, mp: Mapping, x: int, n: nat)
    ensures match Newest(record, mp, x, n)
      case Some(k) => k < n && k in record && ForRow(mp, record[k], x)
        && forall id: nat :: k < id < n && id in record ==> !ForRow(mp, record[id], x)
      case None => forall id: nat :: id < n && id in record ==> !ForRow(mp, record[id], x)
  {
    if n > 0 {
      NewestIs(record, mp, x, n - 1);
    }
  }

  /** What the newest job of row x carries is what stands in the row. */
  ghost predicate RowCurrent(mp: Mapping, row: Row, record: map<nat, ClaimedJob>, n: nat, x: int) {
    NewestIs(record, mp, x, n);
    var k := Newest(record, mp, x, n);
    k.Some? ==>
      TextOf(Field(row, mp.sourceColumn)) == Some(record[k.value].inputText) && record[k.value].maxTokens.None?
  }

  ghost predicate Current(mp: Mapping, rows: seq<Row>, record: map<nat, ClaimedJob>, n: nat) {
    forall i, x :: 0 <= i < |rows| && Matches(rows[i], mp.idColumn, x) ==> RowCurrent(mp, rows[i], record, n, x)
  }

  ghost predicate UniqueIds(rows: seq<Row>, column: string) {
    forall i, j :: 0 <= i < j < |rows| && Field(rows[i], column).Number? ==>
      Field(rows[i], column) != Field(rows[j], column)
  }

  /** A change of some rows, which keeps ids as they are and unique. */
  ghost predicate Edits(mp: Mapping, rows: seq<Row>, rows': seq<Row>, touched: seq<Row>, change: Change) {
    && |rows| <= |rows'| && UniqueIds(rows', mp.idColumn)
    && (forall i :: 0 <= i < |rows| ==>
          Field(rows'[i], mp.idColumn) == Field(rows[i], mp.idColumn) && (rows'[i] == rows[i] || rows'[i] in touched))
    && (change.Updated? && mp.sourceColumn !in change.columns ==>
          forall i :: 0 <= i < |rows| ==> Field(rows'[i], mp.sourceColumn) == Field(rows[i], mp.sourceColumn))
    && (forall i :: |rows| <= i < |rows'| ==> rows'[i] in touched && change == Inserted)
    && (forall u :: 0 <= u < |touched| ==> touched[u] in rows')
  }

  /** Jobs that are not for this row do not change which one is its newest. */
  lemma {:induction false} SameNewest(record: map<nat, ClaimedJob>, record': map<nat, ClaimedJob>, mp: Mapping, x: int,
                                      n: nat, n': nat)
    requires n <= n'
    requires forall id: nat :: id < n ==>
      (id in record <==> id in record') && (id in record ==> record'[id] == record[id])
    requires forall id: nat :: n <= id < n' && id in record' ==> !ForRow(mp, record'[id], x)
    ensures Newest(record', mp, x, n') == Newest(record, mp, x, n)
    decreases n'
  {
    if n < n' {
      SameNewest(record, record', mp, x, n, n' - 1);
    } else if n > 0 {
      SameNewest(record, record', mp, x, n - 1, n - 1);
    }
  }

  /** The record holds what this job was enqueued with. */
  ghost predicate Carries(record: map<nat, ClaimedJob>, id: nat, job: NewJob) {
    id in record && record[id] == ClaimedJob(id, job.source, job.inputText, job.jobType, job.maxTokens)
  }

  /** Ids after a statement that enqueued these jobs: who is who in the record. */
  ghost predicate Extends(record: map<nat, ClaimedJob>, n: nat, news: seq<NewJob>, record': map<nat, ClaimedJob>) {
    && (forall id: nat :: id < n ==> id in record && id in record' && record'[id] == record[id])
    && (forall p :: 0 <= p < |news| ==> Carries(record', n + p, news[p]))
  }

  /** A changed row whose watched text may have changed got a job that carries it. */
  lemma FiredHasJob(mp: Mapping, db: Db, touched: seq<Row>, change: Change, u: nat, x: int,
                    record: map<nat, ClaimedJob>, record': map<nat, ClaimedJob>) returns (id: nat)
    requires Registration.Consistent(db) && (mp.source, mp.jobType) in db.watched
    requires db.watched[(mp.source, mp.jobType)] == mp
    requires FireOnRows(db, mp.source, touched, change).Some? && u < |touched| && Matches(touched[u], mp.idColumn, x)
    requires Extends(record, db.nextId, FireOnRows(db, mp.source, touched, change).value, record')
    requires change.Updated? ==> mp.sourceColumn in change.columns
    ensures db.nextId <= id < db.nextId + |FireOnRows(db, mp.source, touched, change).value|
    ensures id in record' && ForRow(mp, record'[id], x)
  {
    var news := FireOnRows(db, mp.source, touched, change).value;
    hide FireOnRows, Registration.Consistent, FiredArgs;
    Registration.MappedColumnFires(db, mp.source, mp.jobType, change);
    var job := FiredFor(db, mp.source, touched, change, u, mp.jobType);
    var p :| 0 <= p < |news| && news[p] == job;
    id := db.nextId + p;
    assert Carries(record', id, news[p]);
  }

  /** A statement on the watched table, and the record before and after it. */
  ghost predicate Changing(mp: Mapping, db: Db, rows': seq<Row>, touched: seq<Row>, change: Change,
                           record: map<nat, ClaimedJob>, record': map<nat, ClaimedJob>) {
    && Registration.Consistent(db) && mp.source in db.tables
    && ((mp.source, mp.jobType) in db.watched ==> db.watched[(mp.source, mp.jobType)] == mp)
    && FireOnRows(db, mp.source, touched, change).Some?
    && Edits(mp, db.tables[mp.source], rows', touched, change)
    && AllWatched(db, record)
    && Extends(record, db.nextId, FireOnRows(db, mp.source, touched, change).value, record')
  }

  /** If the row's newest job is one of the statement's, it carries the row's text as it is now. */
  lemma NewJobCarries(mp: Mapping, db: Db, rows': seq<Row>, touched: seq<Row>, change: Change,
                      record: map<nat, ClaimedJob>, record': map<nat, ClaimedJob>, i: nat, x: int, k: nat)
    requires Changing(mp, db, rows', touched, change, record, record')
    requires i < |rows'| && Matches(rows'[i], mp.idColumn, x)
    requires db.nextId <= k < db.nextId + |FireOnRows(db, mp.source, touched, change).value|
    requires k in record' && ForRow(mp, record'[k], x)
    ensures TextOf(Field(rows'[i], mp.sourceColumn)) == Some(record'[k].inputText) && record'[k].maxTokens.None?
  {
    var job := FireOnRows(db, mp.source, touched, change).value[k - db.nextId];
    var u := FiredFrom(db, mp.source, touched, change, job);
    var v :| 0 <= v < |rows'| && rows'[v] == touched[u];
    assert v == i;
  }

  /** If it is an older one, the statement left the row's text alone. */
  lemma OldJobStays(mp: Mapping, db: Db, rows': seq<Row>, touched: seq<Row>, change: Change,
                    record: map<nat, ClaimedJob>, record': map<nat, ClaimedJob>, i: nat, x: int)
    requires Changing(mp, db, rows', touched, change, record, record')
    requires i < |rows'| && Matches(rows'[i], mp.idColumn, x) && (mp.source, mp.jobType) in db.watched
    requires var n := db.nextId + |FireOnRows(db, mp.source, touched, change).value|;
      forall id: nat :: db.nextId <= id < n && id in record' ==> !ForRow(mp, record'[id], x)
    ensures var rows := db.tables[mp.source];
      i < |rows| && Matches(rows[i], mp.idColumn, x)
      && Field(rows'[i], mp.sourceColumn) == Field(rows[i], mp.sourceColumn)
  {
    if rows'[i] in touched && (change.Inserted? || mp.sourceColumn in change.columns) {
      var u :| 0 <= u < |touched| && touched[u] == rows'[i];
      var id := FiredHasJob(mp, db, touched, change, u, x, record, record');
    }
  }

  /** A change of the watched table itself: whoever changed the text also enqueued the job that carries it. */
  lemma ChangeCurrent(mp: Mapping, db: Db, rows': seq<Row>, touched: seq<Row>, change: Change,
                      record: map<nat, ClaimedJob>, record': map<nat, ClaimedJob>, i: nat, x: int)
    requires Changing(mp, db, rows', touched, change, record, record')
    requires Current(mp, db.tables[mp.source], record, db.nextId)
    requires i < |rows'| && Matches(rows'[i], mp.idColumn, x)
    ensures RowCurrent(mp, rows'[i], record', db.nextId + |FireOnRows(db, mp.source, touched, change).value|, x)
  {
    var n, n' := db.nextId, db.nextId + |FireOnRows(db, mp.source, touched, change).value|;
    NewestIs(record', mp, x, n');
    var k := Newest(record', mp, x, n');
    if k.Some? && n <= k.value {
      NewJobCarries(mp, db, rows', touched, change, record, record', i, x, k.value);
    } else if k.Some? {
      assert Watched(db.watched, record[k.value]);
      OldJobStays(mp, db, rows', touched, change, record, record', i, x);
      SameNewest(record, record', mp, x, n, n');
      assert RowCurrent(mp, db.tables[mp.source][i], record, n, x);
      hide Changing, Current;
    }
  }

  // ---- Every statement, as a change of rows -------------------------------------------------------------

  lemma {:induction false} TouchedRows(rows: seq<Row>, sql: Sql, id: int, v: Value)
    ensures forall u :: 0 <= u < |Touched(rows, sql, id, v)| ==>
      Touched(rows, sql, id, v)[u] in SetMatching(rows, sql, id, v)
    ensures forall i :: 0 <= i < |rows| && Matches(rows[i], sql.key, id) ==>
      SetMatching(rows, sql, id, v)[i] in Touched(rows, sql, id, v)
  {
    if rows != [] {
      TouchedRows(rows[1..], sql, id, v);
      var all, rest := SetMatching(rows, sql, id, v), SetMatching(rows[1..], sql, id, v);
      assert forall i :: 0 <= i < |rest| ==> rest[i] == all[i + 1];
      forall i | 0 <= i < |rows| && Matches(rows[i], sql.key, id) ensures all[i] in Touched(rows, sql, id, v) {
        if i > 0 {
          assert Matches(rows[1..][i - 1], sql.key, id) && all[i] == rest[i - 1];
        }
      }
    }
  }

  lemma UpdateEdits(mp: Mapping, rows: seq<Row>, sql: Sql, id: int, v: Value)
    requires UniqueIds(rows, mp.idColumn) && sql.column != mp.idColumn
    ensures Edits(mp, rows, SetMatching(rows, sql, id, v), Touched(rows, sql, id, v), Updated({sql.column}))
  {
    TouchedRows(rows, sql, id, v);
    var rows' := SetMatching(rows, sql, id, v);
    assert |rows'| == |rows|;
    forall i | 0 <= i < |rows|
      ensures Field(rows'[i], mp.idColumn) == Field(rows[i], mp.idColumn)
      ensures rows'[i] == rows[i] || (rows'[i] in Touched(rows, sql, id, v) && Matches(rows[i], sql.key, id))
      ensures rows'[i] == if Matches(rows[i], sql.key, id) then rows[i][sql.column := v] else rows[i]
    {
    }
    hide SetMatching, Touched, Matches;
  }

  lemma AppendEdits(mp: Mapping, rows: seq<Row>, row: Row)
    requires UniqueIds(rows, mp.idColumn)
    requires forall i :: 0 <= i < |rows| && Field(rows[i], mp.idColumn).Number? ==>
      Field(rows[i], mp.idColumn) != Field(row, mp.idColumn)
    ensures Edits(mp, rows, rows + [row], [row], Inserted)
  {
    assert (rows + [row])[|rows|] == row;
  }

  lemma SetEdits(mp: Mapping, rows: seq<Row>, i: nat, values: Row)
    requires UniqueIds(rows, mp.idColumn) && i < |rows| && mp.idColumn !in values
    ensures Edits(mp, rows, rows[i := rows[i] + values], [rows[i] + values], Updated(values.Keys))
  {
    var rows' := rows[i := rows[i] + values];
    assert rows'[i] == rows[i] + values;
    assert forall j :: 0 <= j < |rows| ==> Field(rows'[j], mp.idColumn) == Field(rows[j], mp.idColumn);
  }

  lemma UpsertedRowIsNew(mp: Mapping, rows: seq<Row>, sql: Sql, id: int, v: Value)
    requires sql.column != mp.idColumn && !HasRow(rows, sql.key, id)
    ensures var row: Row := map[sql.key := Number(id), sql.column := v];
      forall i :: 0 <= i < |rows| && Field(rows[i], mp.idColumn).Number? ==>
        Field(rows[i], mp.idColumn) != Field(row, mp.idColumn)
  {
    var row: Row := map[sql.key := Number(id), sql.column := v];
    forall i | 0 <= i < |rows| && Field(rows[i], mp.idColumn).Number?
      ensures Field(rows[i], mp.idColumn) != Field(row, mp.idColumn)
    {
      if sql.key == mp.idColumn {
        assert !Matches(rows[i], sql.key, id);
      }
    }
  }

  // ---- Kept over every step ------------------------------------------------------------------------------

  ghost predicate Covers(db: Db, record: map<nat, ClaimedJob>) {
    OnRecord(db, record) && AllWatched(db, record)
  }

  ghost predicate Synced(mp: Mapping, db: Db, record: map<nat, ClaimedJob>) {
    mp.source in db.tables ==>
      && UniqueIds(db.tables[mp.source], mp.idColumn)
      && Current(mp, db.tables[mp.source], record, db.nextId)
  }

  lemma EnqueuedCarries(db: Db, news: seq<NewJob>, record: map<nat, ClaimedJob>, p: nat)
    requires Numbered(db) && OnRecord(db, record) && p < |news|
    ensures Carries(NewRecord(record, EnqueueAll(db, news)), db.nextId + p, news[p])
  {
    hide NewRecord, EnqueueAll;
    EnqueuedRow(db, news, db.nextId + p);
    NewRecordAt(record, EnqueueAll(db, news), db.nextId + p);
  }

  lemma RecordStays(db: Db, news: seq<NewJob>, record: map<nat, ClaimedJob>, id: nat)
    requires OnRecord(db, record) && id < db.nextId
    ensures var record' := NewRecord(record, EnqueueAll(db, news));
      id in record && id in record' && record'[id] == record[id]
  {
    hide NewRecord, EnqueueAll;
    NewRecordAt(record, EnqueueAll(db, news), id);
  }

  lemma EnqueueExtends(db: Db, news: seq<NewJob>, record: map<nat, ClaimedJob>)
    requires Numbered(db) && OnRecord(db, record)
    ensures Extends(record, db.nextId, news, NewRecord(record, EnqueueAll(db, news)))
  {
    hide NewRecord, EnqueueAll, Carries;
    var record' := NewRecord(record, EnqueueAll(db, news));
    forall p | 0 <= p < |news| ensures Carries(record', db.nextId + p, news[p]) {
      EnqueuedCarries(db, news, record, p);
    }
    forall id: nat | id < db.nextId ensures id in record && id in record' && record'[id] == record[id] {
      RecordStays(db, news, record, id);
    }
  }

  /** Where no job for a row of the table is added and no row is changed, all stays current. */
  lemma CurrentKept(mp: Mapping, rows: seq<Row>, record: map<nat, ClaimedJob>, n: nat,
                    rows': seq<Row>, record': map<nat, ClaimedJob>, n': nat)
    requires Current(mp, rows, record, n) && n <= n'
    requires forall i :: 0 <= i < |rows'| ==> rows'[i] in rows
    requires forall id: nat :: id < n ==> id in record && id in record' && record'[id] == record[id]
    requires forall id: nat, x :: n <= id < n' && id in record' ==> !ForRow(mp, record'[id], x)
    ensures Current(mp, rows', record', n')
  {
    forall i, x | 0 <= i < |rows'| && Matches(rows'[i], mp.idColumn, x)
      ensures RowCurrent(mp, rows'[i], record', n', x)
    {
      var j :| 0 <= j < |rows| && rows[j] == rows'[i];
      assert RowCurrent(mp, rows[j], record, n, x);
      SameNewest(record, record', mp, x, n, n');
      NewestIs(record, mp, x, n);
    }
  }

  ghost predicate MappedOnlyAs(mp: Mapping, db: Db) {
    (mp.source, mp.jobType) in db.watched ==> db.watched[(mp.source, mp.jobType)] == mp
  }

  lemma OwnChangeSynced(mp: Mapping, db: Db, rows': seq<Row>, touched: seq<Row>, change: Change,
                        record: map<nat, ClaimedJob>, record': map<nat, ClaimedJob>, n': nat)
    requires Changing(mp, db, rows', touched, change, record, record')
    requires Current(mp, db.tables[mp.source], record, db.nextId)
    requires n' == db.nextId + |FireOnRows(db, mp.source, touched, change).value|
    ensures Current(mp, rows', record', n')
  {
    hide Changing, RowCurrent;
    forall i, x | 0 <= i < |rows'| && Matches(rows'[i], mp.idColumn, x)
      ensures RowCurrent(mp, rows'[i], record', n', x)
    {
      ChangeCurrent(mp, db, rows', touched, change, record, record', i, x);
    }
  }

  /** A change of another table enqueues nothing for this one. */
  lemma OtherChangeSynced(mp: Mapping, db: Db, table: string, touched: seq<Row>, change: Change,
                          record: map<nat, ClaimedJob>, record': map<nat, ClaimedJob>, n': nat)
    requires table != mp.source && mp.source in db.tables && FireOnRows(db, table, touched, change).Some?
    requires Current(mp, db.tables[mp.source], record, db.nextId)
    requires Extends(record, db.nextId, FireOnRows(db, table, touched, change).value, record')
    requires n' == db.nextId + |FireOnRows(db, table, touched, change).value|
    ensures Current(mp, db.tables[mp.source], record', n')
  {
    var news := FireOnRows(db, table, touched, change).value;
    forall id: nat, x | db.nextId <= id < n' && id in record' ensures !ForRow(mp, record'[id], x) {
      var u := FiredFrom(db, table, touched, change, news[id - db.nextId]);
      assert Carries(record', db.nextId + (id - db.nextId), news[id - db.nextId]);
    }
    CurrentKept(mp, db.tables[mp.source], record, db.nextId, db.tables[mp.source], record', n');
  }

  lemma ChangeExtends(db: Db, table: string, rows': seq<Row>, touched: seq<Row>, change: Change,
                      record: map<nat, ClaimedJob>)
    requires Numbered(db) && Covers(db, record) && ChangeRows(db, table, rows', touched, change).Some?
    ensures var news, db' := FireOnRows(db, table, touched, change).value,
        ChangeRows(db, table, rows', touched, change).value;
      && db'.tables == db.tables[table := rows'] && db'.nextId == db.nextId + |news|
      && Extends(record, db.nextId, news, NewRecord(record, db'))
  {
    hide NewRecord, Extends, FireOnRows, EnqueueAll, AllWatched;
    var db1 := db.(tables := db.tables[table := rows']);
    LaterTables(db, db1, record);
    EnqueueExtends(db1, FireOnRows(db, table, touched, change).value, record);
    EnqueueLeaves(db1, FireOnRows(db, table, touched, change).value);
  }

  lemma LaterTables(db: Db, db1: Db, record: map<nat, ClaimedJob>)
    requires Numbered(db) && OnRecord(db, record) && db1 == db.(tables := db1.tables)
    ensures Numbered(db1) && OnRecord(db1, record)
  {
  }

  lemma EnqueueLeaves(db: Db, news: seq<NewJob>)
    ensures EnqueueAll(db, news).tables == db.tables && EnqueueAll(db, news).nextId == db.nextId + |news|
  {
  }

  lemma ChangeSynced(mp: Mapping, db: Db, table: string, rows': seq<Row>, touched: seq<Row>, change: Change,
                     record: map<nat, ClaimedJob>)
    requires Numbered(db) && Covers(db, record) && Registration.Consistent(db) && MappedOnlyAs(mp, db)
    requires table in db.tables && Synced(mp, db, record) && ChangeRows(db, table, rows', touched, change).Some?
    requires table == mp.source ==> Edits(mp, db.tables[table], rows', touched, change)
    ensures var db' := ChangeRows(db, table, rows', touched, change).value; Synced(mp, db', NewRecord(record, db'))
  {
    ChangeExtends(db, table, rows', touched, change, record);
    var db' := ChangeRows(db, table, rows', touched, change).value;
    assert FireOnRows(db, table, touched, change).Some?;
    hide ChangeRows, NewRecord, Registration.Consistent, Current, Extends, FireOnRows;
    if table == mp.source {
      assert Changing(mp, db, rows', touched, change, record, NewRecord(record, db'));
      assert UniqueIds(rows', mp.idColumn);
      OwnChangeSynced(mp, db, rows', touched, change, record, NewRecord(record, db'), db'.nextId);
    } else if mp.source in db.tables {
      OtherChangeSynced(mp, db, table, touched, change, record, NewRecord(record, db'), db'.nextId);
    }
  }

  lemma RunSynced(mp: Mapping, q: Mapping, expr: ValueExpr, db: Db, id: int, out: Output, record: map<nat, ClaimedJob>)
    requires Numbered(db) && Covers(db, record) && Registration.Consistent(db) && MappedOnlyAs(mp, db)
    requires Synced(mp, db, record) && WritebackSql.Run(db, Build(q, expr), id, out).Some?
    requires q.targetTable == mp.source ==> q.targetColumn != mp.idColumn
    ensures var db' := WritebackSql.Run(db, Build(q, expr), id, out).value; Synced(mp, db', NewRecord(record, db'))
  {
    var sql, v := Build(q, expr), Stored(out);
    var rows := db.tables[sql.table];
    if sql.UpdateSql? || HasRow(rows, sql.key, id) {
      if sql.table == mp.source { UpdateEdits(mp, rows, sql, id, v); }
      ChangeSynced(mp, db, sql.table, SetMatching(rows, sql, id, v), Touched(rows, sql, id, v),
                   Updated({sql.column}), record);
    } else {
      var row := map[sql.key := Number(id), sql.column := v];
      if sql.table == mp.source {
        UpsertedRowIsNew(mp, rows, sql, id, v);
        AppendEdits(mp, rows, row);
      }
      ChangeSynced(mp, db, sql.table, rows + [row], [row], Inserted, record);
    }
  }

  /** Clients give new rows new ids, and leave ids alone. */
  ghost predicate KeepsIds(mp: Mapping, s: State, act: Action) {
    match act
    case Client(RowInsert(table, row)) => table == mp.source && table in s.db.tables ==>
      forall i :: 0 <= i < |s.db.tables[table]| && Field(s.db.tables[table][i], mp.idColumn).Number? ==>
        Field(s.db.tables[table][i], mp.idColumn) != Field(row, mp.idColumn)
    case Client(RowUpdate(table, _, values)) => table == mp.source ==> mp.idColumn !in values
    case _ => true
  }

  lemma ClientSynced(mp: Mapping, s: State, op: ClientOp)
    requires Numbered(s.db) && Covers(s.db, s.audit.record) && Registration.Consistent(s.db) && MappedOnlyAs(mp, s.db)
    requires Synced(mp, s.db, s.audit.record) && ExecClient(s.db, op).Some? && KeepsIds(mp, s, Client(op))
    ensures Synced(mp, ExecClient(s.db, op).value, NewRecord(s.audit.record, ExecClient(s.db, op).value))
  {
    var db, record := s.db, s.audit.record;
    match op
    case RowInsert(table, row) =>
      if table == mp.source { AppendEdits(mp, db.tables[table], row); }
      ChangeSynced(mp, db, table, db.tables[table] + [row], [row], Inserted, record);
    case RowUpdate(table, i, values) =>
      var row' := db.tables[table][i] + values;
      if table == mp.source { SetEdits(mp, db.tables[table], i, values); }
      ChangeSynced(mp, db, table, db.tables[table][i := row'], [row'], Updated(values.Keys), record);
    case RowDelete(table, i) => DeleteSynced(mp, db, table, i, record);
    case Register(call) => QuietSynced(mp, db, Registration.Apply(db, call), record);
    case EmbedAsync(text) => AdHocSynced(mp, db, NewJob(Embed, None, text, None), record);
    case GenerateAsync(text, maxTokens) => AdHocSynced(mp, db, NewJob(Generate, None, text, maxTokens), record);
  }

  lemma DeleteSynced(mp: Mapping, db: Db, table: string, i: nat, record: map<nat, ClaimedJob>)
    requires Numbered(db) && Covers(db, record) && Synced(mp, db, record) && DeleteRow(db, table, i).Some?
    ensures Synced(mp, DeleteRow(db, table, i).value, NewRecord(record, DeleteRow(db, table, i).value))
  {
    var db' := DeleteRow(db, table, i).value;
    if mp.source in db.tables {
      CurrentKept(mp, db.tables[mp.source], record, db.nextId, db'.tables[mp.source],
                  NewRecord(record, db'), db'.nextId);
    }
  }

  lemma QuietSynced(mp: Mapping, db: Db, db': Db, record: map<nat, ClaimedJob>)
    requires Covers(db, record) && Synced(mp, db, record)
    requires db'.tables == db.tables && db'.nextId == db.nextId
    ensures Synced(mp, db', NewRecord(record, db'))
  {
    if mp.source in db.tables {
      CurrentKept(mp, db.tables[mp.source], record, db.nextId, db'.tables[mp.source],
                  NewRecord(record, db'), db'.nextId);
    }
  }

  lemma AdHocSynced(mp: Mapping, db: Db, job: NewJob, record: map<nat, ClaimedJob>)
    requires Numbered(db) && Covers(db, record) && Synced(mp, db, record) && job.source.None?
    ensures Synced(mp, EnqueueAll(db, [job]), NewRecord(record, EnqueueAll(db, [job])))
  {
    hide EnqueueAll, NewRecord, Current, OnRecord, AllWatched, Numbered;
    var db', record' := EnqueueAll(db, [job]), NewRecord(record, EnqueueAll(db, [job]));
    EnqueueLeaves(db, [job]);
    EnqueueExtends(db, [job], record);
    forall id: nat, x | db.nextId <= id < db'.nextId && id in record' ensures !ForRow(mp, record'[id], x) {
      assert Carries(record', db.nextId + 0, [job][0]);
    }
    if mp.source in db.tables {
      CurrentKept(mp, db.tables[mp.source], record, db.nextId, db'.tables[mp.source], record', db'.nextId);
    }
  }

  /** The mapping is the only one its table and type ever had, no statement but its own writes its target cells by
      its own statement, and none writes the ids of its source table. */
  ghost predicate OneWay(mp: Mapping, ever: set<Mapping>) {
    forall q :: q in ever ==>
      && (q.source == mp.source && q.jobType == mp.jobType ==> q == mp)
      && (Build(q, ExprFor(q.jobType)) == Build(mp, ExprFor(mp.jobType)) ==> q == mp)
      && (q.targetTable == mp.source ==> q.targetColumn != mp.idColumn)
  }

  lemma OnlyAs(s: State, mp: Mapping)
    requires Inv(s) && OneWay(mp, s.audit.everWatched)
    ensures MappedOnlyAs(mp, s.db) && Registration.Consistent(s.db)
  {
    var key := (mp.source, mp.jobType);
    if key in s.db.watched {
      assert s.db.watched[key] in Protocol.Mappings(s.db.watched);
      assert key.0 == s.db.watched[key].source && key.1 == s.db.watched[key].jobType;
    }
  }

  lemma WriteBackSynced(db: Db, a: Audit, ws: Worker, ev: Event, mp: Mapping)
    requires Numbered(db) && Covers(db, a.record) && Registration.Consistent(db) && MappedOnlyAs(mp, db)
    requires CanAct(db, ws, ev) && CachesOk(a, ws) && ev.WroteBack? && ev.ok
    requires Synced(mp, db, a.record) && OneWay(mp, a.everWatched)
    ensures Synced(mp, Exec(db, ev), NewRecord(a.record, Exec(db, ev)))
  {
    SqlForJob(a, ws);
    var q :| q in a.everWatched && KeyOf(q) == JobKey(ws.todo[0]) && ev.sql == Build(q, ExprFor(q.jobType));
    hide Synced, Covers, NewRecord, Owns, CachesOk, WorkerProgram.Step, Build, Registration.Consistent, MappedOnlyAs;
    RunSynced(mp, q, ExprFor(q.jobType), db, ev.sourceId, ev.out, a.record);
    hide WritebackSql.Run;
  }

  /** What the invariant says about a mapping that is its table's only one. */
  lemma Prepared(s: State, mp: Mapping)
    requires Inv(s) && AllWatched(s.db, s.audit.record) && OneWay(mp, s.audit.everWatched)
    ensures Numbered(s.db) && Covers(s.db, s.audit.record) && ProtocolSafety.Registered(s.db)
    ensures Registration.Consistent(s.db) && MappedOnlyAs(mp, s.db)
  {
    OnlyAs(s, mp);
    hide OneWay, AllWatched;
  }

  ghost predicate SyncInv(mp: Mapping, s: State) {
    AllWatched(s.db, s.audit.record) && Synced(mp, s.db, s.audit.record)
  }

  lemma ActSyncInv(s: State, w: nat, ev: Event, mp: Mapping)
    requires Inv(s) && SyncInv(mp, s) && OneWay(mp, s.audit.everWatched) && Do(s, Act(w, ev)).Some?
    ensures SyncInv(mp, Do(s, Act(w, ev)).value)
  {
    hide Do, Inv, AllWatched, Synced, Covers, Registration.Consistent, MappedOnlyAs, OneWay, CachesOk, CanAct, Exec,
      NewRecord,
      ProtocolSafety.Registered, Observe, Ledger, OnRecord, WriterOk, VerdictsOk, Genuine, WorkerProgram.Step, Numbered;
    DoAct(s, w, ev);
    InvOf(s, w, ev);
    Prepared(s, mp);
    var db, a, ws := s.db, s.audit, s.workers[w];
    ObserveAnswers(a, db, ws, ev, Exec(db, ev));
    NumberedOf(db, ws, ev);
    ExecKeepsRegistration(db, ev);
    ActRegistered(db, ws, ev);
    WatchedKept(db, a.record, Exec(db, ev));
    if ev.WroteBack? && ev.ok {
      WriteBackSynced(db, a, ws, ev, mp);
    } else {
      OnlyWritesChangeTables(db, ev);
      QuietSynced(mp, db, Exec(db, ev), a.record);
    }
  }

  lemma NumberedOf(db: Db, ws: Worker, ev: Event)
    requires CanAct(db, ws, ev)
    ensures Numbered(db)
  {
  }

  lemma ClientSyncInv(s: State, op: ClientOp, mp: Mapping)
    requires Inv(s) && SyncInv(mp, s) && OneWay(mp, s.audit.everWatched)
    requires Do(s, Client(op)).Some? && KeepsIds(mp, s, Client(op))
    ensures SyncInv(mp, Do(s, Client(op)).value)
  {
    hide Do, ExecClient, Inv, AllWatched, Synced, Covers, NewRecord, OneWay, KeepsIds, MappedOnlyAs,
      Registration.Consistent, Numbered, ProtocolSafety.Registered, NewTrail, NewSince;
    DoClient(s, op);
    Prepared(s, mp);
    ClientInv(s, op);
    RegisteredOf(Do(s, Client(op)).value);
    ClientGrowsKeys(s.db, op);
    WatchedKept(s.db, s.audit.record, ExecClient(s.db, op).value);
    ClientSynced(mp, s, op);
  }

  lemma RegisteredOf(s: State)
    requires Inv(s)
    ensures ProtocolSafety.Registered(s.db)
  {
  }

  lemma ClientGrowsKeys(db: Db, op: ClientOp)
    requires Numbered(db) && ExecClient(db, op).Some?
    ensures db.watched.Keys <= ExecClient(db, op).value.watched.Keys
  {
    hide ExecClient, Numbered;
    ClientGrows(db, op);
  }

  lemma OtherSyncInv(s: State, act: Action, mp: Mapping)
    requires SyncInv(mp, s) && Do(s, act).Some? && !act.Act? && !act.Client?
    ensures SyncInv(mp, Do(s, act).value)
  {
    hide Current, Watched, Keyed;
  }

  lemma DoSyncInv(s: State, act: Action, mp: Mapping)
    requires Inv(s) && SyncInv(mp, s) && OneWay(mp, s.audit.everWatched)
    requires Do(s, act).Some? && KeepsIds(mp, s, act)
    ensures SyncInv(mp, Do(s, act).value)
  {
    hide Do, Inv, SyncInv, OneWay, KeepsIds;
    match act
    case Act(w, ev) => ActSyncInv(s, w, ev, mp);
    case Client(op) => ClientSyncInv(s, op, mp);
    case _ => OtherSyncInv(s, act, mp);
  }

  // ---- The theorem ----------------------------------------------------------------------------------------

  ghost predicate IdsKept(s: State, acts: seq<Action>, mp: Mapping) {
    acts == [] ||
    var front := acts[..|acts| - 1];
    IdsKept(s, front, mp) && Perform(s, front).Some? && KeepsIds(mp, Perform(s, front).value, acts[|acts| - 1])
  }

  lemma OneWayEarlier(mp: Mapping, ever: set<Mapping>, ever': set<Mapping>)
    requires OneWay(mp, ever') && ever <= ever'
    ensures OneWay(mp, ever)
  {
  }

  lemma FirstSyncInv(s: State, mp: Mapping)
    requires Initial(s) && (mp.source in s.db.tables ==> UniqueIds(s.db.tables[mp.source], mp.idColumn))
    ensures SyncInv(mp, s)
  {
  }

  lemma {:induction false} RunSyncInv(s0: State, acts: seq<Action>, mp: Mapping)
    requires Initial(s0) && (mp.source in s0.db.tables ==> UniqueIds(s0.db.tables[mp.source], mp.idColumn))
    requires Perform(s0, acts).Some? && IdsKept(s0, acts, mp)
    requires OneWay(mp, Perform(s0, acts).value.audit.everWatched)
    ensures SyncInv(mp, Perform(s0, acts).value)
  {
    hide Do, Inv, SyncInv, OneWay, KeepsIds;
    if acts == [] {
      FirstSyncInv(s0, mp);
    } else {
      var front, act := acts[..|acts| - 1], acts[|acts| - 1];
      var mid := Perform(s0, front).value;
      EverGrows(mid, act);
      OneWayEarlier(mp, mid.audit.everWatched, Perform(s0, acts).value.audit.everWatched);
      RunSyncInv(s0, front, mp);
      RunInv(s0, front);
      DoSyncInv(mid, act, mp);
    }
  }

  /** The write of a row's newest job is the last write to its cells. */
  lemma NewestWroteLast(a: Audit, mp: Mapping, x: int, n: nat)
    requires WritesAscend(a.writes) && WritesFor(a) && OneWay(mp, a.everWatched)
    requires forall id :: id in a.record ==> id < n
    requires Newest(a.record, mp, x, n).Some? && Wrote(a.writes, Newest(a.record, mp, x, n).value)
    ensures var l := LastWrite(a.writes, Build(mp, ExprFor(mp.jobType)), x);
      l.Some? && l.value < |a.writes| && a.writes[l.value].job == Newest(a.record, mp, x, n).value
  {
    hide OneWay, WriteFor, LastWrite, Newest, ForRow, Build;
    var c, k := Build(mp, ExprFor(mp.jobType)), Newest(a.record, mp, x, n).value;
    NewestIs(a.record, mp, x, n);
    LastWriteIsLast(a.writes, c, x);
    var i :| 0 <= i < |a.writes| && a.writes[i].job == k;
    WroteThroughMapping(a, mp, i, x);
    var l := LastWrite(a.writes, c, x).value;
    LastIsForRow(a, mp, l, x);
    assert a.writes[l].job <= k && i <= l;
  }

  lemma WroteThroughMapping(a: Audit, mp: Mapping, i: nat, x: int)
    requires OneWay(mp, a.everWatched) && i < |a.writes| && WriteFor(a, a.writes[i])
    requires ForRow(mp, a.record[a.writes[i].job], x)
    ensures WritesTo(a.writes[i], Build(mp, ExprFor(mp.jobType)), x)
  {
    var job := a.record[a.writes[i].job];
    var q :| q in a.everWatched && KeyOf(q) == JobKey(job) && a.writes[i].sql == Build(q, ExprFor(q.jobType));
    KeyInjective(q.source, q.jobType, mp.source, mp.jobType);
  }

  lemma LastIsForRow(a: Audit, mp: Mapping, l: nat, x: int)
    requires OneWay(mp, a.everWatched) && l < |a.writes| && WriteFor(a, a.writes[l])
    requires WritesTo(a.writes[l], Build(mp, ExprFor(mp.jobType)), x)
    ensures a.writes[l].job in a.record && ForRow(mp, a.record[a.writes[l].job], x)
  {
    var job := a.record[a.writes[l].job];
    var q :| q in a.everWatched && KeyOf(q) == JobKey(job) && a.writes[l].sql == Build(q, ExprFor(q.jobType));
    assert q == mp;
    KeyInjective(q.source, q.jobType, job.source.value.table, job.jobType);
  }

  /** What these providers may make of a text under a mapping of this type. */
  predicate ResultFor(m: Models, t: JobType, text: string, out: Output) {
    match t
    case Embed => out == VectorOut(m.embed(text))
    case Generate => out.TextOut? && m.mayGenerate(text, m.maxTokens, out.s)
  }

  /** The newest job's answer, if it was written: it stands in the cells, and it is a result for the row's text. */
  lemma NewestStands(s: State, mp: Mapping, i: nat, x: int)
    requires Inv(s) && Ordered(s) && SyncInv(mp, s) && OneWay(mp, s.audit.everWatched)
    requires CellOk(Build(mp, ExprFor(mp.jobType)), s, x)
    requires mp.source in s.db.tables && i < |s.db.tables[mp.source]|
    requires Matches(s.db.tables[mp.source][i], mp.idColumn, x)
    requires Newest(s.audit.record, mp, x, s.db.nextId).Some?
    requires Wrote(s.audit.writes, Newest(s.audit.record, mp, x, s.db.nextId).value)
    ensures var k := Newest(s.audit.record, mp, x, s.db.nextId).value;
      exists out ::
        && Got(s.audit, k, out)
        && CellHolds(Build(mp, ExprFor(mp.jobType)), s.db.tables, x, Stored(out))
  {
    hide OneWay, CellHolds, SyncInv, CachesOk, WriterOk, VerdictsOk, Exclusive, ProtocolSafety.Registered, Caches,
      Writers, Results, LastWrite, Newest, Build;
    var a, c := s.audit, Build(mp, ExprFor(mp.jobType));
    NewestWroteLast(a, mp, x, s.db.nextId);
    var l := LastWrite(a.writes, c, x).value;
    assert WriteFor(a, a.writes[l]);
  }

  /** The newest job carries the row's text, so what was answered for it is a result for that text. */
  lemma NewestIsForText(s: State, mp: Mapping, i: nat, x: int)
    requires Inv(s) && SyncInv(mp, s) && mp.source in s.db.tables && i < |s.db.tables[mp.source]|
    requires Matches(s.db.tables[mp.source][i], mp.idColumn, x)
    requires Newest(s.audit.record, mp, x, s.db.nextId).Some?
    ensures var row, k := s.db.tables[mp.source][i], Newest(s.audit.record, mp, x, s.db.nextId).value;
      && k in s.audit.record && mp.sourceColumn in row && ReadsAs(row[mp.sourceColumn], s.audit.record[k].inputText)
      && (k in s.audit.answers && s.audit.answers[k].verdict.Gave? ==>
            ResultFor(s.audit.answers[k].from, mp.jobType, s.audit.record[k].inputText, s.audit.answers[k].verdict.out))
  {
    hide Ledger, Exclusive, ProtocolSafety.Registered, Caches, Writers, Results, WritesOk, ReadsAs;
    NewestIs(s.audit.record, mp, x, s.db.nextId);
    var k := Newest(s.audit.record, mp, x, s.db.nextId).value;
    assert RowCurrent(mp, s.db.tables[mp.source][i], s.audit.record, s.db.nextId, x);
    TextOfReadsBack(Field(s.db.tables[mp.source][i], mp.sourceColumn));
    if k in s.audit.answers {
      assert AnswerOwn(s.audit, k);
    }
  }

  lemma DoneIsWritten(s: State, mp: Mapping, x: int)
    requires Inv(s) && Newest(s.audit.record, mp, x, s.db.nextId).Some?
    ensures var k := Newest(s.audit.record, mp, x, s.db.nextId).value;
      k in s.db.jobs && s.db.jobs[k].status == Done ==> Wrote(s.audit.writes, k)
  {
    NewestIs(s.audit.record, mp, x, s.db.nextId);
    hide Exclusive, ProtocolSafety.Registered, Caches, Writers, Results, Newest;
    var k := Newest(s.audit.record, mp, x, s.db.nextId).value;
    if k in s.db.jobs {
      assert s.audit.record[k] == ClaimOf(k, s.db.jobs[k]);
    }
  }

  /** The target keeps up with the source.  Take any solo run, with crashes, failed statements and failed jobs; a
      mapping that was its key's only one and owns its cells; and a row of the source table for which some job was
      ever enqueued.  Then the newest such job carries the text that stands in the row now, whatever was answered for
      it is a result for that text, and if it has been written, the target cells of the row hold that answer; in
      particular so it is once that job is done. */
  lemma {:induction false} TargetFollowsSource(s0: State, acts: seq<Action>, mp: Mapping, i: nat, x: int)
    requires Initial(s0) && (mp.source in s0.db.tables ==> UniqueIds(s0.db.tables[mp.source], mp.idColumn))
    requires Perform(s0, acts).Some? && IdsKept(s0, acts, mp)
    requires SoloRun(s0, acts, Build(mp, ExprFor(mp.jobType)))
    requires var s := Perform(s0, acts).value;
      && OneWay(mp, s.audit.everWatched) && OwnsCells(Build(mp, ExprFor(mp.jobType)), s.audit.everWatched)
      && mp.source in s.db.tables && i < |s.db.tables[mp.source]|
      && Matches(s.db.tables[mp.source][i], mp.idColumn, x)
      && Newest(s.audit.record, mp, x, s.db.nextId).Some?
    ensures var s := Perform(s0, acts).value;
      var a, row, k := s.audit, s.db.tables[mp.source][i], Newest(s.audit.record, mp, x, s.db.nextId).value;
      && k in a.record && mp.sourceColumn in row && ReadsAs(row[mp.sourceColumn], a.record[k].inputText)
      && (k in a.answers && a.answers[k].verdict.Gave? ==>
            match a.answers[k].verdict.out
            case VectorOut(v) => mp.jobType == Embed && v == a.answers[k].from.embed(a.record[k].inputText)
            case TextOut(t) =>
              && mp.jobType == Generate
              && a.answers[k].from.mayGenerate(a.record[k].inputText, a.answers[k].from.maxTokens, t))
      && (k in s.db.jobs && s.db.jobs[k].status == Done ==> Wrote(a.writes, k))
      && (Wrote(a.writes, k) ==>
            k in a.answers && a.answers[k].verdict.Gave?
            && Stands(s.db.tables, mp.targetTable, mp.targetIdColumn, mp.targetColumn, mp.targetTable != mp.source, x,
                      match a.answers[k].verdict.out case VectorOut(v) => Vector(v) case TextOut(t) => Text(t)))
  {
    hide Perform, SoloRun, IdsKept, OwnsCells, CellHolds, OneWay, Inv, Ordered, SyncInv, CellOk, Newest, Initial, Build,
      Stands, ReadsAs;
    var s := Perform(s0, acts).value;
    RunInv(s0, acts);
    RunInOrder(s0, acts, Build(mp, ExprFor(mp.jobType)), x);
    RunSyncInv(s0, acts, mp);
    NewestIsForText(s, mp, i, x);
    DoneIsWritten(s, mp, x);
    var k := Newest(s.audit.record, mp, x, s.db.nextId).value;
    if Wrote(s.audit.writes, k) {
      NewestStands(s, mp, i, x);
      BuiltServes(mp);
      CellStands(Build(mp, ExprFor(mp.jobType)), s.db.tables, x, s.audit.answers[k].verdict.out);
    }
  }

  /** In particular, where all workers embed alike, the cells hold the embedding of the text in the row. */
  lemma {:induction false} EmbeddingFollowsText(s0: State, acts: seq<Action>, mp: Mapping, i: nat, x: int,
                                                embed: string -> Vec)
    requires Initial(s0) && (mp.source in s0.db.tables ==> UniqueIds(s0.db.tables[mp.source], mp.idColumn))
    requires Perform(s0, acts).Some? && IdsKept(s0, acts, mp) && mp.jobType == Embed
    requires SoloRun(s0, acts, Build(mp, AsVector))
    requires var s := Perform(s0, acts).value;
      && OneWay(mp, s.audit.everWatched) && OwnsCells(Build(mp, AsVector), s.audit.everWatched)
      && mp.source in s.db.tables && i < |s.db.tables[mp.source]|
      && Matches(s.db.tables[mp.source][i], mp.idColumn, x)
      && Newest(s.audit.record, mp, x, s.db.nextId).Some?
      && Wrote(s.audit.writes, Newest(s.audit.record, mp, x, s.db.nextId).value)
      && forall id :: id in s.audit.answers ==> s.audit.answers[id].from.embed == embed
    ensures var s := Perform(s0, acts).value;
      var row := s.db.tables[mp.source][i];
      exists text ::
        && mp.sourceColumn in row && ReadsAs(row[mp.sourceColumn], text)
        && Stands(s.db.tables, mp.targetTable, mp.targetIdColumn, mp.targetColumn, mp.targetTable != mp.source, x,
                  Vector(embed(text)))
  {
    hide Perform, SoloRun, IdsKept, OwnsCells, OneWay, Newest, Initial, Build, Stands, ReadsAs;
    TargetFollowsSource(s0, acts, mp, i, x);
  }

  /** And for a generate mapping they hold a text that the providers of the worker that wrote it may generate for the
      text in the row, within that worker's limit. */
  lemma {:induction false} GenerationFollowsText(s0: State, acts: seq<Action>, mp: Mapping, i: nat, x: int)
    returns (from: Models, text: string, t: string)
    requires Initial(s0) && (mp.source in s0.db.tables ==> UniqueIds(s0.db.tables[mp.source], mp.idColumn))
    requires Perform(s0, acts).Some? && IdsKept(s0, acts, mp) && mp.jobType == Generate
    requires SoloRun(s0, acts, Build(mp, AsText))
    requires var s := Perform(s0, acts).value;
      && OneWay(mp, s.audit.everWatched) && OwnsCells(Build(mp, AsText), s.audit.everWatched)
      && mp.source in s.db.tables && i < |s.db.tables[mp.source]|
      && Matches(s.db.tables[mp.source][i], mp.idColumn, x)
      && Newest(s.audit.record, mp, x, s.db.nextId).Some?
      && Wrote(s.audit.writes, Newest(s.audit.record, mp, x, s.db.nextId).value)
    ensures var s := Perform(s0, acts).value;
      var row, k := s.db.tables[mp.source][i], Newest(s.audit.record, mp, x, s.db.nextId).value;
      && k in s.audit.answers && from == s.audit.answers[k].from
      && mp.sourceColumn in row && ReadsAs(row[mp.sourceColumn], text)
      && from.mayGenerate(text, from.maxTokens, t)
      && Stands(s.db.tables, mp.targetTable, mp.targetIdColumn, mp.targetColumn, mp.targetTable != mp.source, x,
                Text(t))
  {
    hide Perform, SoloRun, IdsKept, OwnsCells, OneWay, Newest, Initial, Build, Stands, ReadsAs;
    TargetFollowsSource(s0, acts, mp, i, x);
    var a := Perform(s0, acts).value.audit;
    var k := Newest(a.record, mp, x, Perform(s0, acts).value.db.nextId).value;
    from, text, t := a.answers[k].from, a.record[k].inputText, a.answers[k].verdict.out.s;
  }
}

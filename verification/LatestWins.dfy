/** With one worker at a time whose claims come back in id order, the newest result wins: every target cell
  holds the result of the highest-numbered job that was written to it. */
module LatestWins {
  import opened Wrappers
  import opened Database
  import opened WritebackSql
  import opened WorkerProgram
  import opened Protocol
  import opened ProtocolSafety

  // ---- The runs in question -------------------------------------------------------------------------

  ghost predicate InOrder(jobs: seq<ClaimedJob>) {
    forall i, j :: 0 <= i < j < |jobs| ==> jobs[i].id < jobs[j].id
  }

  /** A worker starts only when there is none; its claims find no row locked and come back in id order. */
  ghost predicate SoloAct(s: State, act: Action) {
    match act
    case Start(_, _) => s.workers == map[]
    case Act(_, Claimed(_, locked, jobs)) => locked == {} && InOrder(jobs)
    case _ => true
  }

  predicate WritesTo(wr: Write, c: Sql, x: int) {
    wr.sql == c && wr.sourceId == x
  }

  /** Clients leave the cells of this statement alone, do not delete their rows, and do not insert a second row
      for an id already written. */
  ghost predicate Undisturbed(c: Sql, s: State, act: Action) {
    match act
    case Client(RowInsert(table, row)) => table == c.table ==>
      forall i :: 0 <= i < |s.audit.writes| && s.audit.writes[i].sql == c ==>
        !Matches(row, c.key, s.audit.writes[i].sourceId)
    case Client(RowUpdate(table, _, values)) => table == c.table ==> c.column !in values && c.key !in values
    case Client(RowDelete(table, _)) => table != c.table
    case _ => true
  }

  ghost predicate SoloRun(s: State, acts: seq<Action>, c: Sql) {
    acts == [] ||
    var front := acts[..|acts| - 1];
    && SoloRun(s, front, c) && Perform(s, front).Some?
    && SoloAct(Perform(s, front).value, acts[|acts| - 1])
    && Undisturbed(c, Perform(s, front).value, acts[|acts| - 1])
  }

  /** Another statement neither sets the cells of c nor their keys, nor inserts rows that c would have to update. */
  predicate Harmless(q: Sql, c: Sql) {
    q.table == c.table ==>
      && q.column != c.column && q.column != c.key
      && (q.key == c.key && q.UpsertSql? ==> c.UpsertSql?)
  }

  /** Every mapping ever registered either builds c itself or a statement harmless to its cells. */
  ghost predicate OwnsCells(c: Sql, ever: set<Mapping>) {
    && c.column != c.key
    && forall mp :: mp in ever ==> Build(mp, ExprFor(mp.jobType)) == c || Harmless(Build(mp, ExprFor(mp.jobType)), c)
  }

  // ---- Jobs are written in id order -----------------------------------------------------------------

  /** Within each type the worker's list ascends, above what was written and below what is pending. */
  ghost predicate ListAscends(db: Db, writes: seq<Write>, ws: Worker) {
    && (forall i, j :: 0 <= i < j < |ws.todo| && ws.todo[i].jobType == ws.todo[j].jobType ==>
          ws.todo[i].id < ws.todo[j].id)
    && (forall i, id :: 0 <= i < |ws.todo| && id in PendingIds(db) ==> ws.todo[i].id < id)
    && (forall k, i :: 0 <= k < |writes| && 0 <= i < |ws.todo| && writes[k].sql.expr == ExprFor(ws.todo[i].jobType) ==>
          writes[k].job < ws.todo[i].id || (i == 0 && ws.stage == Written && writes[k].job == ws.todo[0].id))
  }

  ghost predicate WritesAscend(writes: seq<Write>) {
    forall i, j :: 0 <= i < j < |writes| && writes[i].sql.expr == writes[j].sql.expr ==> writes[i].job < writes[j].job
  }

  ghost predicate BelowPending(db: Db, writes: seq<Write>) {
    forall i, id :: 0 <= i < |writes| && id in PendingIds(db) ==> writes[i].job < id
  }

  ghost predicate Ordered(s: State) {
    && (forall v, w :: v in s.workers && w in s.workers ==> v == w)
    && (forall w :: w in s.workers ==> ListAscends(s.db, s.audit.writes, s.workers[w]))
    && BelowPending(s.db, s.audit.writes) && WritesAscend(s.audit.writes)
  }

  /** Only fresh ids become pending. */
  ghost predicate PendingGrowsUp(db: Db, db': Db) {
    forall id :: id in PendingIds(db') ==> id in PendingIds(db) || db.nextId <= id
  }

  lemma EffectPending(db: Db, db': Db, statuses: map<nat, Status>, dropped: set<nat>)
    requires Numbered(db) && JobsEffect(db, db', statuses, dropped) && Lawful(db, statuses)
    ensures PendingGrowsUp(db, db')
  {
    forall id | id in PendingIds(db') && id < db.nextId ensures id in PendingIds(db) {
      EffectIds(db, db', statuses, dropped, id);
    }
  }

  lemma PendingKept(db: Db, a: Audit, db': Db, ws: Worker)
    requires Ledger(db, a) && WritesOk(db, a) && Owns(db, ws) && Numbered(db) && PendingGrowsUp(db, db')
    requires ListAscends(db, a.writes, ws)
    ensures ListAscends(db', a.writes, ws)
  {
    forall i, id | 0 <= i < |ws.todo| && id in PendingIds(db') ensures ws.todo[i].id < id {
      assert ws.todo[i].id in db.jobs;
    }
  }

  lemma BelowPendingKept(db: Db, a: Audit, db': Db)
    requires Ledger(db, a) && WritesOk(db, a) && PendingGrowsUp(db, db') && BelowPending(db, a.writes)
    ensures BelowPending(db', a.writes)
  {
    forall i, id | 0 <= i < |a.writes| && id in PendingIds(db') ensures a.writes[i].job < id {
      assert a.writes[i].job in a.trail;
    }
  }

  lemma {:induction false} OnlyInOrder(jobs: seq<ClaimedJob>, t: JobType)
    requires InOrder(jobs)
    ensures InOrder(Only(jobs, t)) && forall i :: 0 <= i < |Only(jobs, t)| ==> Only(jobs, t)[i].jobType == t
  {
    if jobs != [] {
      var front, last := jobs[..|jobs| - 1], jobs[|jobs| - 1];
      OnlyInOrder(front, t);
      OnlyMembers(front, t);
      forall i | 0 <= i < |Only(front, t)| ensures Only(front, t)[i].id < last.id {
        assert Only(front, t)[i] in front;
      }
    }
  }

  /** The type split keeps each type's jobs in id order. */
  lemma SplitAscends(jobs: seq<ClaimedJob>)
    requires InOrder(jobs)
    ensures var todo := Split(jobs);
      forall i, j :: 0 <= i < j < |todo| && todo[i].jobType == todo[j].jobType ==> todo[i].id < todo[j].id
  {
    OnlyInOrder(jobs, Embed);
    OnlyInOrder(jobs, Generate);
  }

  lemma ClaimAscends(db: Db, writes: seq<Write>, ev: Event, ws': Worker)
    requires ev.Claimed? && Genuine(db, ev) && ev.locked == {} && InOrder(ev.jobs) && BelowPending(db, writes)
    requires ws'.todo == Split(ev.jobs)
    ensures ListAscends(Exec(db, ev), writes, ws')
  {
    SplitAscends(ev.jobs);
    ClaimOwned(db, ev);
    var db' := Exec(db, ev);
    forall i, id | 0 <= i < |ws'.todo| && id in PendingIds(db') ensures ws'.todo[i].id < id {
      assert ws'.todo[i].id in Ids(ev.jobs);
      assert id in PendingIds(db) - {} - Ids(ev.jobs);
    }
    forall k, i | 0 <= k < |writes| && 0 <= i < |ws'.todo| ensures writes[k].job < ws'.todo[i].id {
      assert ws'.todo[i].id in PendingIds(db);
    }
  }

  lemma NextAscends(db: Db, writes: seq<Write>, ws: Worker, wrote: bool)
    requires ListAscends(db, writes, ws) && ws.todo != [] && Distinct(ws.todo)
    ensures ListAscends(db, writes, Next(ws, wrote))
  {
    var rest := ws.todo[1..];
    assert forall i :: 0 <= i < |rest| ==> rest[i] == ws.todo[i + 1];
  }

  /** A write of the first job keeps the order: it is above all earlier ones of its kind. */
  lemma WriteAscends(db: Db, writes: seq<Write>, ws: Worker, wr: Write)
    requires ListAscends(db, writes, ws) && BelowPending(db, writes) && WritesAscend(writes)
    requires Busy(ws, Ready) && wr.job == ws.todo[0].id && wr.sql.expr == ExprFor(ws.todo[0].jobType)
    ensures ListAscends(db, writes + [wr], ws.(stage := Written))
    ensures BelowPending(db, writes + [wr]) && WritesAscend(writes + [wr])
  {
  }

  lemma ActKeepsOrder(db: Db, a: Audit, ws: Worker, ev: Event)
    requires CanAct(db, ws, ev) && CachesOk(a, ws) && Ledger(db, a) && WritesOk(db, a)
    requires ev.Claimed? ==> ev.locked == {} && InOrder(ev.jobs)
    requires ListAscends(db, a.writes, ws) && BelowPending(db, a.writes) && WritesAscend(a.writes)
    ensures var writes' := Observe(a, db, ws, ev, Exec(db, ev)).writes;
      && ListAscends(Exec(db, ev), writes', WorkerProgram.Step(ws, ev).value)
      && BelowPending(Exec(db, ev), writes') && WritesAscend(writes')
  {
    ActEffect(db, ws, ev);
    hide Exec, Genuine, WorkerProgram.Step, StatusSet, Dropped, ListAscends, BelowPending, WritesAscend;
    EffectPending(db, Exec(db, ev), StatusSet(db, ev), Dropped(db, ev));
    BelowPendingKept(db, a, Exec(db, ev));
    PendingKept(db, a, Exec(db, ev), ws);
    ActListAscends(db, a, ws, ev);
  }

  lemma OrderedWith(s: State, w: nat, t: State, ws': Worker)
    requires Ordered(s) && w in s.workers && t.workers == s.workers[w := ws']
    requires ListAscends(t.db, t.audit.writes, ws') && BelowPending(t.db, t.audit.writes)
    requires WritesAscend(t.audit.writes)
    ensures Ordered(t)
  {
    hide ListAscends, BelowPending, WritesAscend;
  }

  lemma ActOrdered(s: State, w: nat, ev: Event)
    requires Inv(s) && Ordered(s) && SoloAct(s, Act(w, ev)) && Do(s, Act(w, ev)).Some?
    ensures Ordered(Do(s, Act(w, ev)).value)
  {
    DoAct(s, w, ev);
    InvOf(s, w, ev);
    hide Inv, Do, Exec, Genuine, WorkerProgram.Step, ListAscends, BelowPending, WritesAscend, Observe, CanAct, CachesOk,
      WritesOk, Ledger;
    ActKeepsOrder(s.db, s.audit, s.workers[w], ev);
    OrderedWith(s, w, Do(s, Act(w, ev)).value, WorkerProgram.Step(s.workers[w], ev).value);
  }

  lemma ActListAscends(db: Db, a: Audit, ws: Worker, ev: Event)
    requires CanAct(db, ws, ev) && CachesOk(a, ws)
    requires ev.Claimed? ==> ev.locked == {} && InOrder(ev.jobs) && BelowPending(db, a.writes)
    requires ListAscends(Exec(db, ev), a.writes, ws) && BelowPending(Exec(db, ev), a.writes) && WritesAscend(a.writes)
    ensures var writes' := Observe(a, db, ws, ev, Exec(db, ev)).writes;
      && ListAscends(Exec(db, ev), writes', WorkerProgram.Step(ws, ev).value)
      && BelowPending(Exec(db, ev), writes') && WritesAscend(writes')
  {
    var ws' := WorkerProgram.Step(ws, ev).value;
    if ev.Claimed? {
      ClaimAscends(db, a.writes, ev, ws');
    } else if ev.WroteBack? {
      WroteBackAscends(db, a, ws, ev);
    } else if ws'.todo != ws.todo {
      NextAscends(Exec(db, ev), a.writes, ws, !ev.MarkedError?);
    } else {
      SameListAscends(Exec(db, ev), a.writes, ws, ws');
    }
    hide Exec, Genuine, CachesOk, ListAscends, BelowPending, WritesAscend;
  }

  lemma SameListAscends(db: Db, writes: seq<Write>, ws: Worker, ws': Worker)
    requires ListAscends(db, writes, ws) && ws'.todo == ws.todo && (ws.stage == Written ==> ws'.stage == Written)
    ensures ListAscends(db, writes, ws')
  {
  }

  lemma WroteBackAscends(db: Db, a: Audit, ws: Worker, ev: Event)
    requires CanAct(db, ws, ev) && CachesOk(a, ws) && ev.WroteBack?
    requires ListAscends(Exec(db, ev), a.writes, ws) && BelowPending(Exec(db, ev), a.writes) && WritesAscend(a.writes)
    ensures var writes' := Observe(a, db, ws, ev, Exec(db, ev)).writes;
      && ListAscends(Exec(db, ev), writes', WorkerProgram.Step(ws, ev).value)
      && BelowPending(Exec(db, ev), writes') && WritesAscend(writes')
  {
    hide Exec, Genuine, Owns, CachesOk, WorkerProgram.Step, Observe, ListAscends, BelowPending, WritesAscend, SqlFor;
    WroteBackSql(ws, ev);
    WroteBackShape(db, a, ws, ev);
    SqlForJob(a, ws);
    var db', ws' := Exec(db, ev), WorkerProgram.Step(ws, ev).value;
    if ev.ok {
      var wr := Write(ws.todo[0].id, ev.sql, ev.sourceId, ev.out);
      WriteAscends(db', a.writes, ws, wr);
      SameListAscends(db', a.writes + [wr], ws.(stage := Written), ws');
    } else {
      SameListAscends(db', a.writes, ws, ws');
    }
  }

  lemma WroteBackShape(db: Db, a: Audit, ws: Worker, ev: Event)
    requires ev.WroteBack? && WorkerProgram.Step(ws, ev).Some?
    ensures Busy(ws, Ready)
    ensures var ws' := WorkerProgram.Step(ws, ev).value;
      ws'.todo == ws.todo && ws'.stage == if ev.ok then Written else Failing
    ensures Observe(a, db, ws, ev, Exec(db, ev)).writes
         == if ev.ok then a.writes + [Write(ws.todo[0].id, ev.sql, ev.sourceId, ev.out)] else a.writes
  {
  }

  lemma ClientOrdered(s: State, op: ClientOp)
    requires Inv(s) && Ordered(s) && Do(s, Client(op)).Some?
    ensures Ordered(Do(s, Client(op)).value)
  {
    DoClient(s, op);
    ClientEffect(s.db, op);
    QueueOrdered(s, ExecClient(s.db, op).value, Do(s, Client(op)).value);
    hide Do, ExecClient, Inv, Ordered, NewRecord, NewTrail, NewSince;
  }

  lemma QueueOrdered(s: State, db': Db, s': State)
    requires Inv(s) && Ordered(s) && JobsEffect(s.db, db', map[], {})
    requires s'.db == db' && s'.workers == s.workers && s'.audit.writes == s.audit.writes
    ensures Ordered(s')
  {
    EffectPending(s.db, db', map[], {});
    BelowPendingKept(s.db, s.audit, db');
    forall w | w in s.workers ensures ListAscends(db', s.audit.writes, s.workers[w]) {
      PendingKept(s.db, s.audit, db', s.workers[w]);
    }
    hide ListAscends, BelowPending, WritesAscend;
  }

  lemma TickOrdered(s: State, d: nat)
    requires Ordered(s)
    ensures Ordered(s.(db := s.db.(now := s.db.now + d)))
  {
    assert PendingIds(s.db.(now := s.db.now + d)) == PendingIds(s.db);
  }

  lemma OtherOrdered(s: State, act: Action)
    requires Ordered(s) && SoloAct(s, act) && Do(s, act).Some? && !act.Act? && !act.Client?
    ensures Ordered(Do(s, act).value)
  {
    hide BelowPending, WritesAscend;
    match act
    case Tick(d) => TickOrdered(s, d);
    case Start(w, models) =>
      DoStart(s, w, models);
      hide Do, Keyed;
    case Crash(w) =>
      DoCrash(s, w);
      hide Do, ListAscends;
  }

  lemma DoOrdered(s: State, act: Action)
    requires Inv(s) && Ordered(s) && SoloAct(s, act) && Do(s, act).Some?
    ensures Ordered(Do(s, act).value)
  {
    hide Do, Inv, Ordered, SoloAct;
    match act
    case Act(w, ev) => ActOrdered(s, w, ev);
    case Client(op) => ClientOrdered(s, op);
    case _ => OtherOrdered(s, act);
  }

  // ---- What the cells hold --------------------------------------------------------------------------

  /** The last write to the cells of id x. */
  function LastWrite(writes: seq<Write>, c: Sql, x: int): Option<nat> {
    if writes == [] then None
    else if WritesTo(writes[|writes| - 1], c, x) then Some(|writes| - 1)
    else LastWrite(writes[..|writes| - 1], c, x)
  }

  lemma {:induction false} LastWriteIsLast(writes: seq<Write>, c: Sql, x: int)
    ensures match LastWrite(writes, c, x)
      case Some(k) => k < |writes| && WritesTo(writes[k], c, x)
        && forall i :: k < i < |writes| ==> !WritesTo(writes[i], c, x)
      case None => forall i :: 0 <= i < |writes| ==> !WritesTo(writes[i], c, x)
  {
    if writes != [] {
      LastWriteIsLast(writes[..|writes| - 1], c, x);
    }
  }

  lemma LastWriteSnoc(writes: seq<Write>, wr: Write, c: Sql, x: int)
    ensures LastWrite(writes + [wr], c, x) == if WritesTo(wr, c, x) then Some(|writes|) else LastWrite(writes, c, x)
  {
    assert (writes + [wr])[..|writes|] == writes;
  }

  /** The cells of id x hold the value last written, and an upsert's row is still there. */
  ghost predicate CellHolds(c: Sql, tables: map<string, seq<Row>>, x: int, v: Value) {
    && Holds(tables, c.table, c.column, c.key, x, v)
    && (c.UpsertSql? ==> c.table in tables && HasRow(tables[c.table], c.key, x))
  }

  ghost predicate CellOk(c: Sql, s: State, x: int) {
    LastWriteIsLast(s.audit.writes, c, x);
    var k := LastWrite(s.audit.writes, c, x);
    k.Some? ==> CellHolds(c, s.db.tables, x, Stored(s.audit.writes[k.value].out))
  }

  /** Rows may change, but not in this column or key, and no row for x appears. */
  ghost predicate CellUntouched(c: Sql, before: seq<Row>, after: seq<Row>, x: int) {
    && |before| <= |after|
    && (forall i :: 0 <= i < |before| ==>
          Field(after[i], c.key) == Field(before[i], c.key) && Field(after[i], c.column) == Field(before[i], c.column))
    && (forall i :: |before| <= i < |after| ==> !Matches(after[i], c.key, x))
  }

  lemma UntouchedHolds(c: Sql, tables: map<string, seq<Row>>, tables': map<string, seq<Row>>, x: int, v: Value)
    requires CellHolds(c, tables, x, v)
    requires c.table in tables' ==> c.table in tables && CellUntouched(c, tables[c.table], tables'[c.table], x)
    requires c.table in tables ==> c.table in tables'
    ensures CellHolds(c, tables', x, v)
  {
    if c.UpsertSql? {
      var i :| 0 <= i < |tables[c.table]| && Matches(tables[c.table][i], c.key, x);
      assert Matches(tables'[c.table][i], c.key, x);
    }
  }

  /** Read off the rows: those with this id show the very vector or text. */
  lemma CellStands(c: Sql, tables: map<string, seq<Row>>, x: int, out: Output)
    requires CellHolds(c, tables, x, Stored(out))
    ensures Stands(tables, c.table, c.key, c.column, c.UpsertSql?, x,
                   match out case VectorOut(v) => Vector(v) case TextOut(t) => Text(t))
  {
    if c.table in tables {
      forall i | 0 <= i < |tables[c.table]| && c.key in tables[c.table][i] && tables[c.table][i][c.key] == Number(x)
        ensures c.column in tables[c.table][i] && tables[c.table][i][c.column] == Stored(out)
      {
        assert Matches(tables[c.table][i], c.key, x);
      }
    }
  }

  /** A write through c itself sets the cells of its id ... */
  lemma OwnWrite(db: Db, c: Sql, mp: Mapping, id: int, out: Output)
    requires c == Build(mp, ExprFor(mp.jobType)) && c.column != c.key && WritebackSql.Run(db, c, id, out).Some?
    ensures CellHolds(c, WritebackSql.Run(db, c, id, out).value.tables, id, Stored(out))
    ensures Stands(WritebackSql.Run(db, c, id, out).value.tables, mp.targetTable, mp.targetIdColumn, mp.targetColumn,
                   mp.targetTable != mp.source, id, match out case VectorOut(v) => Vector(v) case TextOut(t) => Text(t))
  {
    BuiltStatementWrites(db, mp, ExprFor(mp.jobType), id, out);
    var db' := WritebackSql.Run(db, c, id, out).value;
    WrittenBackHolds(db.tables[c.table], db'.tables[c.table], mp, id, Stored(out));
    BuiltServes(mp);
    CellStands(c, db'.tables, id, out);
  }

  /** ... and leaves those of every other id; a harmless statement leaves them all. */
  lemma OtherWrite(db: Db, c: Sql, mp: Mapping, id: int, out: Output, x: int, v: Value)
    requires var q := Build(mp, ExprFor(mp.jobType));
      WritebackSql.Run(db, q, id, out).Some? && ((q == c && id != x) || Harmless(q, c))
    requires c.column != c.key && CellHolds(c, db.tables, x, v)
    ensures CellHolds(c, WritebackSql.Run(db, Build(mp, ExprFor(mp.jobType)), id, out).value.tables, x, v)
  {
    var q := Build(mp, ExprFor(mp.jobType));
    BuiltStatementWrites(db, mp, ExprFor(mp.jobType), id, out);
    var tables' := WritebackSql.Run(db, q, id, out).value.tables;
    if q.table == c.table {
      if q == c {
        OtherId(c, db.tables[c.table], tables'[c.table], mp, id, Stored(out), x, v);
        if c.UpsertSql? {
          var i :| 0 <= i < |db.tables[c.table]| && Matches(db.tables[c.table][i], c.key, x);
          assert Matches(tables'[c.table][i], c.key, x);
        }
      } else {
        HarmlessRows(c, db.tables[c.table], tables'[c.table], mp, id, Stored(out), x);
        UntouchedHolds(c, db.tables, tables', x, v);
      }
    } else if c.table in db.tables {
      UntouchedHolds(c, db.tables, tables', x, v);
    }
  }

  lemma OtherId(c: Sql, before: seq<Row>, after: seq<Row>, mp: Mapping, id: int, value: Value, x: int, v: Value)
    requires c == Build(mp, ExprFor(mp.jobType)) && c.column != c.key && id != x
    requires WrittenBack(before, after, mp, id, value)
    requires forall i :: 0 <= i < |before| && Matches(before[i], c.key, x) ==> Field(before[i], c.column) == v
    ensures forall i :: 0 <= i < |after| && Matches(after[i], c.key, x) ==> Field(after[i], c.column) == v
    ensures forall i :: 0 <= i < |before| && Matches(before[i], c.key, x) ==> Matches(after[i], c.key, x)
  {
  }

  lemma HarmlessRows(c: Sql, before: seq<Row>, after: seq<Row>, mp: Mapping, id: int, value: Value, x: int)
    requires var q := Build(mp, ExprFor(mp.jobType)); q.table == c.table && Harmless(q, c)
    requires WrittenBack(before, after, mp, id, value)
    requires c.UpsertSql? ==> HasRow(before, c.key, x)
    ensures CellUntouched(c, before, after, x)
  {
    if |before| < |after| && mp.targetIdColumn == c.key {
      assert id != x;
    }
  }

  /** What clients may do leaves the cells of written ids as they are. */
  lemma ClientLeavesCell(s: State, op: ClientOp, c: Sql, x: int, v: Value, k: nat)
    requires ExecClient(s.db, op).Some? && Undisturbed(c, s, Client(op))
    requires k < |s.audit.writes| && WritesTo(s.audit.writes[k], c, x) && CellHolds(c, s.db.tables, x, v)
    ensures CellHolds(c, ExecClient(s.db, op).value.tables, x, v)
  {
    var db := s.db;
    var tables' := ExecClient(db, op).value.tables;
    match op
    case RowInsert(table, row) =>
      ChangeSetsTable(db, table, db.tables[table] + [row], [row], Inserted);
      if c.table in db.tables { UntouchedHolds(c, db.tables, tables', x, v); }
    case RowUpdate(table, i, values) =>
      var row' := db.tables[table][i] + values;
      ChangeSetsTable(db, table, db.tables[table][i := row'], [row'], Updated(values.Keys));
      if c.table in db.tables { UntouchedHolds(c, db.tables, tables', x, v); }
    case RowDelete(_, _) =>
      if c.table in db.tables { UntouchedHolds(c, db.tables, tables', x, v); }
    case _ =>
  }

  lemma WriteCells(db: Db, a: Audit, ws: Worker, ev: Event, c: Sql, x: int)
    requires CanAct(db, ws, ev) && CachesOk(a, ws) && ev.WroteBack? && ev.ok && OwnsCells(c, a.everWatched)
    ensures ev.sql == c && ev.sourceId == x ==> CellHolds(c, Exec(db, ev).tables, x, Stored(ev.out))
    ensures forall v :: !(ev.sql == c && ev.sourceId == x) && CellHolds(c, db.tables, x, v) ==>
      CellHolds(c, Exec(db, ev).tables, x, v)
  {
    SqlForJob(a, ws);
    var mp :| mp in a.everWatched && KeyOf(mp) == JobKey(ws.todo[0]) && ev.sql == Build(mp, ExprFor(mp.jobType));
    if ev.sql == c && ev.sourceId == x {
      OwnWrite(db, c, mp, x, ev.out);
    } else {
      forall v | CellHolds(c, db.tables, x, v) ensures CellHolds(c, Exec(db, ev).tables, x, v) {
        OtherWrite(db, c, mp, ev.sourceId, ev.out, x, v);
      }
    }
  }

  lemma OnlyWritesChangeTables(db: Db, ev: Event)
    requires !(ev.WroteBack? && ev.ok)
    ensures Exec(db, ev).tables == db.tables && Exec(db, ev).nextId == db.nextId
  {
  }

  lemma ActCells(s: State, w: nat, ev: Event, c: Sql, x: int)
    requires Inv(s) && Do(s, Act(w, ev)).Some? && OwnsCells(c, s.audit.everWatched) && CellOk(c, s, x)
    ensures CellOk(c, Do(s, Act(w, ev)).value, x)
  {
    DoAct(s, w, ev);
    hide Do, Exec, Genuine, WorkerProgram.Step, CellHolds, OwnsCells;
    var ws, writes := s.workers[w], s.audit.writes;
    if ev.WroteBack? && ev.ok {
      WriteCells(s.db, s.audit, ws, ev, c, x);
      LastWriteIsLast(writes, c, x);
      NotBusyNoWrite(ws, ev);
      var wr := Write(ws.todo[0].id, ev.sql, ev.sourceId, ev.out);
      LastWriteSnoc(writes, wr, c, x);
    } else {
      OnlyWritesChangeTables(s.db, ev);
    }
  }

  lemma NotBusyNoWrite(ws: Worker, ev: Event)
    requires ev.WroteBack? && WorkerProgram.Step(ws, ev).Some?
    ensures ws.todo != []
  {
  }

  lemma DoCells(s: State, act: Action, c: Sql, x: int)
    requires Inv(s) && Do(s, act).Some? && OwnsCells(c, s.audit.everWatched) && Undisturbed(c, s, act)
    requires CellOk(c, s, x)
    ensures CellOk(c, Do(s, act).value, x)
  {
    match act
    case Act(w, ev) => ActCells(s, w, ev, c, x);
    case Client(op) =>
      DoClient(s, op);
      LastWriteIsLast(s.audit.writes, c, x);
      var k := LastWrite(s.audit.writes, c, x);
      if k.Some? {
        ClientLeavesCell(s, op, c, x, Stored(s.audit.writes[k.value].out), k.value);
      }
    case _ =>
  }

  lemma EverGrows(s: State, act: Action)
    requires Do(s, act).Some?
    ensures s.audit.everWatched <= Do(s, act).value.audit.everWatched
  {
  }

  lemma {:induction false} RunInOrder(s0: State, acts: seq<Action>, c: Sql, x: int)
    requires Initial(s0) && Perform(s0, acts).Some? && SoloRun(s0, acts, c)
    requires OwnsCells(c, Perform(s0, acts).value.audit.everWatched)
    ensures Ordered(Perform(s0, acts).value) && CellOk(c, Perform(s0, acts).value, x)
  {
    hide Do, Inv, SoloAct, Undisturbed;
    if acts != [] {
      var front, act := acts[..|acts| - 1], acts[|acts| - 1];
      var mid := Perform(s0, front).value;
      EverGrows(mid, act);
      RunInOrder(s0, front, c, x);
      RunInv(s0, front);
      DoOrdered(mid, act);
      DoCells(mid, act, c, x);
    }
  }

  /** Jobs for source row x whose every registered mapping writes through c. */
  ghost predicate JobOfCell(ever: set<Mapping>, c: Sql, x: int, job: Job) {
    && job.source.Some? && job.source.value.id == x
    && forall mp :: mp in ever && mp.source == job.source.value.table && mp.jobType == job.jobType ==>
         Build(mp, ExprFor(mp.jobType)) == c
  }

  /** Latest wins.  After any solo run, across batches, failed jobs and crashes, the cells of source row x hold the
      result of the highest-numbered job written to them; that is the result recorded for that job; and no job of
      that row that is done is newer. */
  lemma {:induction false} NewestResultStands(s0: State, acts: seq<Action>, c: Sql, x: int)
    requires Initial(s0) && Perform(s0, acts).Some? && SoloRun(s0, acts, c)
    requires OwnsCells(c, Perform(s0, acts).value.audit.everWatched)
    ensures var s := Perform(s0, acts).value;
      match LastWrite(s.audit.writes, c, x)
      case None => forall id :: id in s.db.jobs && s.db.jobs[id].status == Done ==>
        !JobOfCell(s.audit.everWatched, c, x, s.db.jobs[id])
      case Some(k) =>
        && k < |s.audit.writes|
        && Stands(s.db.tables, c.table, c.key, c.column, c.UpsertSql?, x,
                  match s.audit.writes[k].out case VectorOut(v) => Vector(v) case TextOut(t) => Text(t))
        && (forall i :: 0 <= i < |s.audit.writes| && i != k && WritesTo(s.audit.writes[i], c, x) ==>
              s.audit.writes[i].job < s.audit.writes[k].job)
        && WriteFor(s.audit, s.audit.writes[k])
        && (forall id ::
              id in s.db.jobs && s.db.jobs[id].status == Done && JobOfCell(s.audit.everWatched, c, x, s.db.jobs[id]) ==>
                id <= s.audit.writes[k].job)
  {
    hide Perform, SoloRun, OwnsCells, CellHolds, LastWrite, Initial, Stands;
    RunInOrder(s0, acts, c, x);
    RunInv(s0, acts);
    var s := Perform(s0, acts).value;
    LastWriteIsLast(s.audit.writes, c, x);
    forall id | id in s.db.jobs && s.db.jobs[id].status == Done && JobOfCell(s.audit.everWatched, c, x, s.db.jobs[id])
      ensures exists i :: 0 <= i < |s.audit.writes| && WritesTo(s.audit.writes[i], c, x) && s.audit.writes[i].job == id
    {
      DoneJobWrote(s, c, x, id);
    }
    if LastWrite(s.audit.writes, c, x).Some? {
      WrittenFor(s, LastWrite(s.audit.writes, c, x).value);
      CellStands(c, s.db.tables, x, s.audit.writes[LastWrite(s.audit.writes, c, x).value].out);
    }
    assert WritesAscend(s.audit.writes);
    hide Inv, Ordered, WriteFor, JobOfCell;
  }

  lemma WrittenFor(s: State, k: nat)
    requires Inv(s) && k < |s.audit.writes|
    ensures WriteFor(s.audit, s.audit.writes[k])
  {
  }

  lemma DoneJobWrote(s: State, c: Sql, x: int, id: nat)
    requires Inv(s) && id in s.db.jobs && s.db.jobs[id].status == Done
    requires JobOfCell(s.audit.everWatched, c, x, s.db.jobs[id])
    ensures exists i :: 0 <= i < |s.audit.writes| && WritesTo(s.audit.writes[i], c, x) && s.audit.writes[i].job == id
  {
    var a, job := s.audit, s.db.jobs[id];
    assert Wrote(a.writes, id);
    var i :| 0 <= i < |a.writes| && a.writes[i].job == id;
    assert WriteFor(a, a.writes[i]) && a.record[id] == ClaimOf(id, job);
    var key := Key(job.source.value.table, job.jobType);
    var mp :| mp in a.everWatched && KeyOf(mp) == key && a.writes[i].sql == Build(mp, ExprFor(mp.jobType));
    KeyInjective(mp.source, mp.jobType, job.source.value.table, job.jobType);
    assert WritesTo(a.writes[i], c, x);
  }
}

/** The queue drains: what a single worker's own write-backs enqueue comes to an end unless watches form a cycle,
  and with no such echo at all each claim takes exactly one batch off the queue. */
module Drain {
  import opened Wrappers
  import opened Database
  import opened WritebackSql
  import opened WorkerProgram
  import opened Protocol
  import opened ProtocolSafety
  import Descent
  import Registration
  import Sizing

  // ---- Echo: the jobs a write-back enqueues ---------------------------------------------------------

  /** The job types that the triggers on its target table enqueue for a write-back through this mapping. */
  function Echo(triggers: map<string, TableTriggers>, mp: Mapping): seq<JobType> {
    FiredArgs(triggers, mp.targetTable, Updated({mp.targetColumn}))
    + if mp.SameTable() then [] else FiredArgs(triggers, mp.targetTable, Inserted)
  }

  /** No trigger listens on a column any mapping writes, and no separate target table is watched. */
  ghost predicate Quiet(triggers: map<string, TableTriggers>, ever: set<Mapping>) {
    forall mp :: mp in ever ==> Echo(triggers, mp) == []
  }

  /** Ranks, below `height`, that go down from every mapping to the jobs its write-backs enqueue: the graph of
      watches and targets has no cycle. */
  ghost predicate Acyclic(triggers: map<string, TableTriggers>, ever: set<Mapping>, rank: WatchKey -> nat,
                          height: nat) {
    forall mp :: mp in ever ==>
      && rank((mp.source, mp.jobType)) < height
      && forall t :: t in Echo(triggers, mp) ==> rank((mp.targetTable, t)) < rank((mp.source, mp.jobType))
  }

  /** A job for this table, of one of these types. */
  ghost predicate IsFor(job: Job, table: string, types: seq<JobType>) {
    job.source.Some? && job.source.value.table == table && job.jobType in types
  }

  lemma ChangeEchoAt(db: Db, table: string, rows': seq<Row>, touched: seq<Row>, change: Change, id: nat)
    requires Numbered(db) && ChangeRows(db, table, rows', touched, change).Some?
    requires id in ChangeRows(db, table, rows', touched, change).value.jobs && db.nextId <= id
    ensures IsFor(ChangeRows(db, table, rows', touched, change).value.jobs[id],
                  table, FiredArgs(db.triggers, table, change))
  {
    var news := FireOnRows(db, table, touched, change).value;
    var db1 := db.(tables := db.tables[table := rows']);
    assert ChangeRows(db, table, rows', touched, change).value == EnqueueAll(db1, news);
    hide ChangeRows, EnqueueAll, FireOnRows, FiredArgs, Database.Registered;
    FireRegistered(db, table, touched, change);
    EnqueuedRow(db1, news, id);
    assert news[id - db.nextId] in news;
  }

  lemma ChangeEcho(db: Db, table: string, rows': seq<Row>, touched: seq<Row>, change: Change)
    requires Numbered(db) && ChangeRows(db, table, rows', touched, change).Some?
    ensures var db' := ChangeRows(db, table, rows', touched, change).value;
      forall id :: id in db'.jobs && db.nextId <= id ==>
        IsFor(db'.jobs[id], table, FiredArgs(db.triggers, table, change))
  {
    hide ChangeRows, FiredArgs, IsFor;
    forall id | id in ChangeRows(db, table, rows', touched, change).value.jobs && db.nextId <= id
      ensures IsFor(ChangeRows(db, table, rows', touched, change).value.jobs[id],
                    table, FiredArgs(db.triggers, table, change))
    {
      ChangeEchoAt(db, table, rows', touched, change, id);
    }
  }

  /** A write-back enqueues jobs of its echo only. */
  lemma RunEcho(db: Db, mp: Mapping, expr: ValueExpr, id: int, out: Output)
    requires Numbered(db) && WritebackSql.Run(db, Build(mp, expr), id, out).Some?
    ensures var db' := WritebackSql.Run(db, Build(mp, expr), id, out).value;
      forall j :: j in db'.jobs && db.nextId <= j ==> IsFor(db'.jobs[j], mp.targetTable, Echo(db.triggers, mp))
  {
    var sql, v := Build(mp, expr), Stored(out);
    var rows := db.tables[sql.table];
    if sql.UpdateSql? || HasRow(rows, sql.key, id) {
      ChangeEcho(db, sql.table, SetMatching(rows, sql, id, v), Touched(rows, sql, id, v), Updated({sql.column}));
    } else {
      var row := map[sql.key := Number(id), sql.column := v];
      ChangeEcho(db, sql.table, rows + [row], [row], Inserted);
    }
  }

  lemma {:induction false} FiresForEachRow(db: Db, table: string, rows: seq<Row>, change: Change)
    requires FireOnRows(db, table, rows, change).Some?
    ensures |FireOnRows(db, table, rows, change).value| == |rows| * |FiredArgs(db.triggers, table, change)|
    decreases |rows|
  {
    if rows != [] {
      FiresForFirst(db, table, rows, change);
      hide FireOnRows, FiredArgs;
      FiresForEachRow(db, table, rows[1..], change);
      OneMoreTimes(|rows[1..]|, |FiredArgs(db.triggers, table, change)|);
    }
  }

  lemma OneMoreTimes(n: nat, k: nat)
    ensures (n + 1) * k == n * k + k
  {
  }

  lemma FiresForFirst(db: Db, table: string, rows: seq<Row>, change: Change)
    requires rows != [] && FireOnRows(db, table, rows, change).Some?
    ensures FireOnRows(db, table, rows[1..], change).Some?
    ensures |FireOnRows(db, table, rows, change).value|
         == |FireOnRows(db, table, rows[1..], change).value| + |FiredArgs(db.triggers, table, change)|
  {
    JobsForRegistered(db.watched, table, rows[0], FiredArgs(db.triggers, table, change));
    hide FiredArgs, JobsFor;
  }

  lemma {:induction false} TouchesMatching(rows: seq<Row>, sql: Sql, id: int, v: Value, i: nat)
    requires i < |rows| && Matches(rows[i], sql.key, id)
    ensures Touched(rows, sql, id, v) != []
  {
    if i > 0 {
      TouchesMatching(rows[1..], sql, id, v, i - 1);
    }
  }

  /** The cycle to avoid: a registered mapping that writes back into the very column it watches enqueues a new job
      with every write-back to a row, so its queue never drains. */
  lemma SelfWatchEchoes(db: Db, mp: Mapping, expr: ValueExpr, id: int, out: Output)
    requires Registration.Consistent(db)
    requires (mp.source, mp.jobType) in db.watched && db.watched[(mp.source, mp.jobType)] == mp
    requires mp.SameTable() && mp.targetColumn == mp.sourceColumn
    requires mp.targetTable in db.tables && HasRow(db.tables[mp.targetTable], mp.targetIdColumn, id)
    requires WritebackSql.Run(db, Build(mp, expr), id, out).Some?
    ensures WritebackSql.Run(db, Build(mp, expr), id, out).value.nextId > db.nextId
    ensures !Quiet(db.triggers, {mp}) && forall rank, height :: !Acyclic(db.triggers, {mp}, rank, height)
  {
    var sql, v, rows := Build(mp, expr), Stored(out), db.tables[mp.targetTable];
    var change := Updated({sql.column});
    Registration.MappedColumnFires(db, mp.source, mp.jobType, change);
    var i :| 0 <= i < |rows| && Matches(rows[i], mp.targetIdColumn, id);
    var touched := Touched(rows, sql, id, v);
    TouchesMatching(rows, sql, id, v, i);
    FiresForEachRow(db, sql.table, touched, change);
    AtLeastOne(|touched|, |FiredArgs(db.triggers, sql.table, change)|);
    assert mp in {mp} && mp.jobType in Echo(db.triggers, mp);
  }

  lemma AtLeastOne(a: nat, b: nat)
    requires a > 0 && b > 0
    ensures a * b > 0
  {
  }

  /** Where the last calls stand, a write-back that sets a column no call on its target table named, in a row that is
      there or in the watched table itself, enqueues nothing. */
  lemma UnnamedWriteBackIsQuiet(db: Db, calls: seq<Registration.Call>, mp: Mapping, id: int, out: Output)
    requires mp.targetTable !in db.triggers && Registration.Unnamed(calls, mp.targetTable, {mp.targetColumn})
    requires var tables := Registration.History(db, calls).tables;
      mp.targetTable in tables && (mp.targetTable == mp.source || Addressed(tables[mp.targetTable], mp, id))
    ensures var db' := Registration.History(db, calls);
      var r := WritebackSql.Run(db', Build(mp, ExprFor(mp.jobType)), id, out);
      r.Some? && r.value.jobs == db'.jobs && r.value.nextId == db'.nextId
  {
    var db', sql, v := Registration.History(db, calls), Build(mp, ExprFor(mp.jobType)), Stored(out);
    var rows := db'.tables[mp.targetTable];
    AddressedIfRow(rows, mp, id);
    Registration.UnnamedFiresNothing(db, calls, mp.targetTable, {mp.targetColumn});
    Registration.NothingFires(db', mp.targetTable, Touched(rows, sql, id, v), Updated({mp.targetColumn}));
    Registration.EnqueueNothing(db'.(tables := db'.tables[mp.targetTable := SetMatching(rows, sql, id, v)]));
    hide FireOnRows, FiredArgs, Registration.History, EnqueueAll;
  }

  /** A table with one watch() that writes into another column of the same table: its write-backs enqueue nothing. */
  lemma OneWatchIsQuiet(db: Db, calls: seq<Registration.Call>, j: nat, id: int, out: Output)
    requires j < |calls| && calls[j].Watch? && calls[j].targetColumn.Some? && calls[j].source !in db.triggers
    requires calls[j].targetTable == None || calls[j].targetTable == Some(calls[j].source)
    requires calls[j].targetColumn != Some(calls[j].embedColumn)
    requires forall k :: 0 <= k < |calls| && k != j ==> calls[k].source != calls[j].source
    ensures var db', key := Registration.History(db, calls), (calls[j].source, Embed);
      && key in db'.watched && Registration.AsAsked(db'.watched[key], calls[j], Embed)
      && (calls[j].source in db'.tables ==>
            var r := WritebackSql.Run(db', Build(db'.watched[key], AsVector), id, out);
            r.Some? && r.value.jobs == db'.jobs && r.value.nextId == db'.nextId)
  {
    var c, db' := calls[j], Registration.History(db, calls);
    Registration.LastCallStands(db, calls, j, c.source, Embed);
    var mp := db'.watched[(c.source, Embed)];
    assert mp.targetTable == mp.source == c.source && mp.targetColumn != c.embedColumn;
    assert Registration.Unnamed(calls, mp.targetTable, {mp.targetColumn});
    hide Registration.History, Registration.Unnamed;
    if c.source in db'.tables {
      UnnamedWriteBackIsQuiet(db, calls, mp, id, out);
    }
  }

  // ---- Quiet registrations, in every run -------------------------------------------------------------

  /** The calls of a run that registered something or tried to. */
  function CallsOf(acts: seq<Action>): seq<Registration.Call> {
    if acts == [] then []
    else
      CallsOf(acts[..|acts| - 1])
      + match acts[|acts| - 1] case Client(Register(call)) => [call] case _ => []
  }

  /** The call asks for this mapping. */
  ghost predicate AsksFor(c: Registration.Call, m: Mapping) {
    Registration.Gives(c, m.source, m.jobType) && Registration.AsAsked(m, c, m.jobType)
  }

  /** No call asks for write-backs into a column that a call names, or into a separate table that a call watches. */
  ghost predicate NoFeedback(calls: seq<Registration.Call>) {
    forall m: Mapping, i :: 0 <= i < |calls| && AsksFor(calls[i], m) ==>
      && Registration.Unnamed(calls, m.targetTable, {m.targetColumn})
      && (m.targetTable != m.source ==>
            forall j, t :: 0 <= j < |calls| ==> !Registration.Gives(calls[j], m.targetTable, t))
  }

  /** The registrations of a state are those of the calls made on the way to it, and every mapping there ever was, one
      of them asked for. */
  ghost predicate RegisteredBy(s0: State, calls: seq<Registration.Call>, s: State) {
    && s.db.triggers == Registration.History(s0.db, calls).triggers
    && s.db.watched == Registration.History(s0.db, calls).watched
    && forall m :: m in s.audit.everWatched ==> exists i :: 0 <= i < |calls| && AsksFor(calls[i], m)
  }

  lemma OnlyCallsRegister(s: State, act: Action)
    requires Inv(s) && Do(s, act).Some? && !(act.Client? && act.op.Register?)
    ensures Do(s, act).value.db.triggers == s.db.triggers && Do(s, act).value.db.watched == s.db.watched
    ensures Do(s, act).value.audit.everWatched == s.audit.everWatched
  {
    assert Numbered(s.db) && Protocol.Mappings(s.db.watched) <= s.audit.everWatched;
    hide Inv, Protocol.Mappings;
    match act
    case Act(w, ev) =>
      DoAct(s, w, ev);
      ExecKeepsRegistration(s.db, ev);
      hide Do, Exec;
    case Client(op) =>
      DoClient(s, op);
      hide Do;
      ClientLeavesRegistration(s.db, op);
    case _ =>
  }

  lemma ClientLeavesRegistration(db: Db, op: ClientOp)
    requires Numbered(db) && !op.Register? && ExecClient(db, op).Some?
    ensures ExecClient(db, op).value.watched == db.watched && ExecClient(db, op).value.triggers == db.triggers
  {
  }

  lemma ApplyByRegistration(db: Db, db0: Db, c: Registration.Call)
    requires db.triggers == db0.triggers && db.watched == db0.watched
    ensures Registration.Apply(db, c).triggers == Registration.Apply(db0, c).triggers
    ensures Registration.Apply(db, c).watched == Registration.Apply(db0, c).watched
  {
  }

  lemma CallsSnoc(s0: State, calls: seq<Registration.Call>, s: State, c: Registration.Call)
    requires Inv(s) && RegisteredBy(s0, calls, s) && Do(s, Client(Register(c))).Some?
    ensures RegisteredBy(s0, calls + [c], Do(s, Client(Register(c))).value)
  {
    var t, calls' := Do(s, Client(Register(c))).value, calls + [c];
    DoClient(s, Register(c));
    assert t.db == Registration.Apply(s.db, c);
    assert calls'[..|calls|] == calls;
    ApplyByRegistration(s.db, Registration.History(s0.db, calls), c);
    InvConsistent(t, s, c);
    assert t.audit.everWatched == s.audit.everWatched + Protocol.Mappings(t.db.watched);
    hide Do, Inv, Registration.Apply, AsksFor, Registration.History;
    forall m | m in t.audit.everWatched ensures exists i :: 0 <= i < |calls'| && AsksFor(calls'[i], m) {
      if m in s.audit.everWatched {
        var i :| 0 <= i < |calls| && AsksFor(calls[i], m);
        assert calls'[i] == calls[i];
      } else {
        NewlyWatched(s, c, m);
        assert calls'[|calls|] == c;
      }
    }
  }

  lemma InvConsistent(t: State, s: State, c: Registration.Call)
    requires Inv(s) && t.db == Registration.Apply(s.db, c)
    ensures Registration.Consistent(t.db) && Protocol.Mappings(s.db.watched) <= s.audit.everWatched
  {
    assert Registration.Consistent(s.db) && Registration.Shaped(s.db);
    Registration.ApplyKeepsConsistent(s.db, c);
  }

  lemma NewlyWatched(s: State, c: Registration.Call, m: Mapping)
    requires Registration.Consistent(Registration.Apply(s.db, c))
    requires Protocol.Mappings(s.db.watched) <= s.audit.everWatched && m !in s.audit.everWatched
    requires m in Protocol.Mappings(Registration.Apply(s.db, c).watched)
    ensures AsksFor(c, m)
  {
    var watched := Registration.Apply(s.db, c).watched;
    var k :| k in watched && watched[k] == m;
    assert k == (m.source, m.jobType);
    Registration.CallRegisters(s.db, c, m.source, m.jobType);
    hide Registration.Apply, Registration.AsAsked;
    assert k in s.db.watched && s.db.watched[k] == m ==> m in Protocol.Mappings(s.db.watched);
  }

  lemma {:induction false} RunRegisters(s0: State, acts: seq<Action>)
    requires Initial(s0) && Perform(s0, acts).Some?
    ensures RegisteredBy(s0, CallsOf(acts), Perform(s0, acts).value)
  {
    hide Do, Inv;
    if acts != [] {
      var front, act := acts[..|acts| - 1], acts[|acts| - 1];
      var mid := Perform(s0, front).value;
      RunRegisters(s0, front);
      RunInv(s0, front);
      hide RegisteredBy;
      if act.Client? && act.op.Register? {
        CallsSnoc(s0, CallsOf(front), mid, act.op.call);
      } else {
        OnlyCallsRegister(mid, act);
        SameRegisteredBy(s0, CallsOf(front), mid, Do(mid, act).value);
        assert CallsOf(acts) == CallsOf(front);
      }
    }
  }

  lemma SameRegisteredBy(s0: State, calls: seq<Registration.Call>, s: State, t: State)
    requires RegisteredBy(s0, calls, s) && t.db.triggers == s.db.triggers && t.db.watched == s.db.watched
    requires t.audit.everWatched == s.audit.everWatched
    ensures RegisteredBy(s0, calls, t)
  {
  }

  /** Where no call asks for feedback, no write-back of any mapping there ever was enqueues anything: the premise of
      the exact count below. */
  lemma NoFeedbackIsQuiet(s0: State, acts: seq<Action>)
    requires Initial(s0) && Perform(s0, acts).Some? && NoFeedback(CallsOf(acts))
    ensures Quiet(Perform(s0, acts).value.db.triggers, Perform(s0, acts).value.audit.everWatched)
  {
    var s, calls := Perform(s0, acts).value, CallsOf(acts);
    RunRegisters(s0, acts);
    assert s0.db.triggers == map[];
    hide Perform, Initial, CallsOf;
    forall mp | mp in s.audit.everWatched ensures Echo(s.db.triggers, mp) == [] {
      var i :| 0 <= i < |calls| && AsksFor(calls[i], mp);
      NoEcho(s0.db, calls, i, mp);
      SameFired(s.db.triggers, Registration.History(s0.db, calls).triggers, mp);
    }
  }

  lemma SameFired(triggers: map<string, TableTriggers>, triggers': map<string, TableTriggers>, mp: Mapping)
    requires triggers == triggers'
    ensures Echo(triggers, mp) == Echo(triggers', mp)
  {
  }

  lemma NoEcho(db: Db, calls: seq<Registration.Call>, i: nat, mp: Mapping)
    requires db.triggers == map[] && NoFeedback(calls) && i < |calls| && AsksFor(calls[i], mp)
    ensures Echo(Registration.History(db, calls).triggers, mp) == []
  {
    Registration.UnnamedFiresNothing(db, calls, mp.targetTable, {mp.targetColumn});
    if mp.targetTable != mp.source {
      Registration.TriggersAfter(db, calls, mp.targetTable);
      Registration.NeverGiven(calls, mp.targetTable);
    }
  }

  // ---- One worker alone ------------------------------------------------------------------------------

  /** Time passing, or a statement of this worker, whose claims find no row locked. */
  predicate Alone(act: Action, w: nat) {
    match act
    case Tick(_) => true
    case Act(v, Claimed(limit, locked, _)) => v == w && locked == {} && 1 <= limit
    case Act(v, _) => v == w
    case _ => false
  }

  /** Anything but waiting: an empty or failed claim, a purge, a tick. */
  predicate Moves(act: Action) {
    act.Act? && Moving(act.ev)
  }

  predicate Moving(ev: Event) {
    !ev.Purged? && !ev.ClaimFailed? && (ev.Claimed? ==> ev.jobs != [])
  }

  function JobKeyOf(job: Job): WatchKey
    requires job.source.Some?
  {
    (job.source.value.table, job.jobType)
  }

  predicate Unwritten(ws: Worker, id: nat) {
    id in Ids(ws.todo) && !(ws.todo != [] && ws.stage == Written && id == ws.todo[0].id)
  }

  /** A mapped job of this rank whose write-back is still to come. */
  predicate IsOut(db: Db, ws: Worker, rank: WatchKey -> nat, r: nat, id: nat) {
    && id in db.jobs && db.jobs[id].source.Some? && rank(JobKeyOf(db.jobs[id])) == r
    && (db.jobs[id].status == Pending || Unwritten(ws, id))
  }

  function OutSet(db: Db, ws: Worker, rank: WatchKey -> nat, r: nat): set<nat> {
    set id | id in db.jobs && IsOut(db, ws, rank, r, id)
  }

  /** Statements the worker may still send for its list and its notification. */
  function Left(ws: Worker): nat {
    5 * |ws.todo| + (if ws.todo != [] && ws.todo[0].id !in ws.verdicts then 1 else 0)
    + (if ws.stage == Ready then 1 else 0) + (if ws.refreshed then 0 else 1) + (if ws.written > 0 then 1 else 0)
  }

  function Work(db: Db, ws: Worker): nat {
    8 * |PendingIds(db)| + Left(ws)
  }

  /** Outstanding jobs by rank, the highest rank first, then the work in statements. */
  function Measure(db: Db, ws: Worker, rank: WatchKey -> nat, height: nat): (r: seq<nat>)
    ensures |r| == height + 1
  {
    if height == 0 then [Work(db, ws)]
    else [|OutSet(db, ws, rank, height - 1)|] + Measure(db, ws, rank, height - 1)
  }

  lemma {:induction false} WorkFalls(db: Db, ws: Worker, db': Db, ws': Worker, rank: WatchKey -> nat, height: nat)
    requires forall r: nat :: OutSet(db', ws', rank, r) <= OutSet(db, ws, rank, r)
    requires Work(db', ws') <= Work(db, ws)
    ensures Descent.Falls(Measure(db', ws', rank, height), Measure(db, ws, rank, height))
    ensures Work(db', ws') < Work(db, ws) ==> Measure(db', ws', rank, height) != Measure(db, ws, rank, height)
  {
    if height > 0 {
      SubsetSizes(OutSet(db', ws', rank, height - 1), OutSet(db, ws, rank, height - 1));
      WorkFalls(db, ws, db', ws', rank, height - 1);
      assert Measure(db, ws, rank, height)[1..] == Measure(db, ws, rank, height - 1);
      assert Measure(db', ws', rank, height)[1..] == Measure(db', ws', rank, height - 1);
    }
  }

  lemma {:induction false} RankFalls(db: Db, ws: Worker, db': Db, ws': Worker, rank: WatchKey -> nat, height: nat,
                                     top: nat)
    requires top < height
    requires forall r: nat :: top <= r ==> OutSet(db', ws', rank, r) <= OutSet(db, ws, rank, r)
    requires OutSet(db', ws', rank, top) != OutSet(db, ws, rank, top)
    ensures Descent.Falls(Measure(db', ws', rank, height), Measure(db, ws, rank, height))
    ensures Measure(db', ws', rank, height) != Measure(db, ws, rank, height)
  {
    SubsetSizes(OutSet(db', ws', rank, height - 1), OutSet(db, ws, rank, height - 1));
    if top < height - 1 {
      RankFalls(db, ws, db', ws', rank, height - 1, top);
      assert Measure(db, ws, rank, height)[1..] == Measure(db, ws, rank, height - 1);
      assert Measure(db', ws', rank, height)[1..] == Measure(db', ws', rank, height - 1);
    }
  }

  // ---- Each statement brings the end nearer -----------------------------------------------------------

  /** A claim takes its batch off the queue; no other statement of the worker does. */
  lemma ClaimTakes(db: Db, ev: Event)
    requires ev.Claimed? && Genuine(db, ev)
    ensures PendingIds(Exec(db, ev)) == PendingIds(db) - Ids(ev.jobs)
    ensures |PendingIds(Exec(db, ev))| == |PendingIds(db)| - |ev.jobs|
  {
    DistinctSize(ev.jobs);
    assert PendingIds(Exec(db, ev)) == PendingIds(db) - Ids(ev.jobs);
    assert PendingIds(db) == PendingIds(Exec(db, ev)) + Ids(ev.jobs);
    assert |PendingIds(db)| == |PendingIds(Exec(db, ev))| + |Ids(ev.jobs)|;
  }

  lemma PendingStays(db: Db, ws: Worker, ev: Event)
    requires CanAct(db, ws, ev) && !ev.Claimed?
    ensures PendingIds(db) <= PendingIds(Exec(db, ev))
    ensures Exec(db, ev).nextId == db.nextId ==> PendingIds(Exec(db, ev)) == PendingIds(db)
  {
    ActEffect(db, ws, ev);
    hide Exec, Genuine, WorkerProgram.Step;
    var db' := Exec(db, ev);
    forall id | id in PendingIds(db) ensures id in PendingIds(db') {
      PendingRow(db, ws, ev, id);
    }
    forall id | id in PendingIds(db') && db'.nextId == db.nextId ensures id in PendingIds(db) {
      OldRow(db, db', StatusSet(db, ev), Dropped(db, ev), id);
    }
  }

  lemma PendingRow(db: Db, ws: Worker, ev: Event, id: nat)
    requires CanAct(db, ws, ev) && !ev.Claimed? && id in PendingIds(db)
    ensures id in PendingIds(Exec(db, ev))
  {
    ActEffect(db, ws, ev);
    hide Exec, Genuine, WorkerProgram.Step;
    if id in StatusSet(db, ev) {
      NoClaimNoProcessing(db, ev, id);
    }
  }

  lemma NoClaimNoProcessing(db: Db, ev: Event, id: nat)
    requires !ev.Claimed? && id in StatusSet(db, ev)
    ensures StatusSet(db, ev)[id] != Processing
  {
  }

  lemma OldRow(db: Db, db': Db, statuses: map<nat, Status>, dropped: set<nat>, id: nat)
    requires Numbered(db) && JobsEffect(db, db', statuses, dropped) && Lawful(db, statuses)
    requires id in db'.jobs && db'.nextId == db.nextId
    ensures id in db.jobs && ClaimOf(id, db'.jobs[id]) == ClaimOf(id, db.jobs[id])
    ensures db'.jobs[id].status == Pending ==> db.jobs[id].status == Pending
  {
  }

  lemma NothingNew(db: Db, ws: Worker, ev: Event)
    requires CanAct(db, ws, ev) && !(ev.WroteBack? && ev.ok)
    ensures Exec(db, ev).nextId == db.nextId
  {
  }

  /** But for write-backs, statements only take jobs off the outstanding ones. */
  lemma OutShrinks(db: Db, ws: Worker, ev: Event, rank: WatchKey -> nat, r: nat)
    requires CanAct(db, ws, ev) && !(ev.WroteBack? && ev.ok)
    ensures OutSet(Exec(db, ev), WorkerProgram.Step(ws, ev).value, rank, r) <= OutSet(db, ws, rank, r)
  {
    hide Exec, Genuine, WorkerProgram.Step, Owns, IsOut;
    forall id | id in OutSet(Exec(db, ev), WorkerProgram.Step(ws, ev).value, rank, r)
      ensures id in OutSet(db, ws, rank, r)
    {
      WasOut(db, ws, ev, rank, r, id);
    }
  }

  lemma WasOut(db: Db, ws: Worker, ev: Event, rank: WatchKey -> nat, r: nat, id: nat)
    requires CanAct(db, ws, ev) && !(ev.WroteBack? && ev.ok)
    requires IsOut(Exec(db, ev), WorkerProgram.Step(ws, ev).value, rank, r, id)
    ensures id in db.jobs && IsOut(db, ws, rank, r, id)
  {
    ActEffect(db, ws, ev);
    NothingNew(db, ws, ev);
    OldRow(db, Exec(db, ev), StatusSet(db, ev), Dropped(db, ev), id);
    if Unwritten(WorkerProgram.Step(ws, ev).value, id) {
      UnwrittenBefore(db, ws, ev, id);
    }
    hide Exec, Genuine, WorkerProgram.Step, Owns, Unwritten, JobsEffect, Lawful;
  }

  lemma UnwrittenBefore(db: Db, ws: Worker, ev: Event, id: nat)
    requires CanAct(db, ws, ev) && Unwritten(WorkerProgram.Step(ws, ev).value, id)
    ensures Unwritten(ws, id) || id in PendingIds(db)
  {
    if ev.Claimed? {
      ClaimOwned(db, ev);
    } else if WorkerProgram.Step(ws, ev).value.todo != ws.todo {
      TailIds(ws.todo);
    }
  }

  lemma WorkShrinks(db: Db, ws: Worker, ev: Event)
    requires CanAct(db, ws, ev) && Exec(db, ev).nextId == db.nextId
    ensures Work(Exec(db, ev), WorkerProgram.Step(ws, ev).value) <= Work(db, ws)
    ensures Moving(ev) ==> Work(Exec(db, ev), WorkerProgram.Step(ws, ev).value) < Work(db, ws)
  {
    if ev.Claimed? {
      ClaimWork(db, ws, ev);
    } else {
      PendingStays(db, ws, ev);
      LeftShrinks(ws, ev);
    }
  }

  lemma ClaimWork(db: Db, ws: Worker, ev: Event)
    requires CanAct(db, ws, ev) && ev.Claimed?
    ensures Work(Exec(db, ev), WorkerProgram.Step(ws, ev).value) <= Work(db, ws)
    ensures ev.jobs != [] ==> Work(Exec(db, ev), WorkerProgram.Step(ws, ev).value) < Work(db, ws)
  {
    ClaimTakes(db, ev);
    SplitPartitions(ev.jobs);
    hide Exec, Genuine, PendingIds, Split;
  }

  lemma LeftShrinks(ws: Worker, ev: Event)
    requires !ev.Claimed? && WorkerProgram.Step(ws, ev).Some?
    ensures Left(WorkerProgram.Step(ws, ev).value) <= Left(ws)
    ensures Moving(ev) ==> Left(WorkerProgram.Step(ws, ev).value) < Left(ws)
  {
    if ev.Produced? {
      assert ws.todo[0].id in Ids(Asked(ws.todo)) by { AskedFirst(ws.todo); }
    }
    hide Keyed, SqlFor, Only;
  }

  lemma AskedFirst(todo: seq<ClaimedJob>)
    requires todo != []
    ensures todo[0].id in Ids(Asked(todo))
  {
    OnlyMembers(todo, Embed);
    assert todo[0] in Asked(todo);
  }

  /** The mapping behind a write-back, and what the statement did. */
  lemma WroteThrough(db: Db, a: Audit, ws: Worker, ev: Event) returns (mp: Mapping)
    requires CanAct(db, ws, ev) && CachesOk(a, ws) && ev.WroteBack? && ev.ok
    ensures mp in a.everWatched && ws.todo != [] && ws.todo[0].source.Some?
    ensures mp.source == ws.todo[0].source.value.table && mp.jobType == ws.todo[0].jobType
    ensures var db', ws' := Exec(db, ev), WorkerProgram.Step(ws, ev).value;
      && JobsEffect(db, db', map[], {})
      && (forall id :: id in db'.jobs && db.nextId <= id ==> IsFor(db'.jobs[id], mp.targetTable, Echo(db.triggers, mp)))
      && ws'.todo == ws.todo && ws'.stage == Written && ws.stage == Ready
  {
    var job := ws.todo[0];
    SqlForJob(a, ws);
    mp :| mp in a.everWatched && KeyOf(mp) == JobKey(job) && ev.sql == Build(mp, ExprFor(mp.jobType));
    KeyInjective(mp.source, mp.jobType, job.source.value.table, job.jobType);
    RunEffect(db, ev.sql, ev.sourceId, ev.out);
    RunEcho(db, mp, ExprFor(mp.jobType), ev.sourceId, ev.out);
    hide WritebackSql.Run;
  }

  /** A write-back takes its own job off and adds only jobs of lower rank. */
  lemma EchoIsLower(db: Db, a: Audit, ws: Worker, ev: Event, rank: WatchKey -> nat, height: nat)
    returns (top: nat)
    requires CanAct(db, ws, ev) && CachesOk(a, ws) && ev.WroteBack? && ev.ok
    requires Acyclic(db.triggers, a.everWatched, rank, height)
    ensures top < height
    ensures var db', ws' := Exec(db, ev), WorkerProgram.Step(ws, ev).value;
      && (forall r: nat :: top <= r ==> OutSet(db', ws', rank, r) <= OutSet(db, ws, rank, r))
      && OutSet(db', ws', rank, top) != OutSet(db, ws, rank, top)
  {
    hide Exec, Genuine, WorkerProgram.Step, CachesOk, Owns, JobsEffect, OutSet, IsFor;
    var mp := WroteThrough(db, a, ws, ev);
    var db', ws' := Exec(db, ev), WorkerProgram.Step(ws, ev).value;
    top := rank((mp.source, mp.jobType));
    OwnOut(db, ws, db', ws', rank, top);
    forall r: nat | top <= r ensures OutSet(db', ws', rank, r) <= OutSet(db, ws, rank, r) {
      EchoOut(db, ws, db', ws', rank, mp, r);
    }
  }

  lemma OwnOut(db: Db, ws: Worker, db': Db, ws': Worker, rank: WatchKey -> nat, top: nat)
    requires Owns(db, ws) && ws.todo != [] && ws'.todo == ws.todo && ws.stage == Ready && ws'.stage == Written
    requires Numbered(db) && JobsEffect(db, db', map[], {}) && ws.todo[0].source.Some?
    requires top == rank((ws.todo[0].source.value.table, ws.todo[0].jobType))
    ensures OutSet(db', ws', rank, top) != OutSet(db, ws, rank, top)
  {
    var job := ws.todo[0];
    assert ClaimOf(job.id, db.jobs[job.id]) == job && db.jobs[job.id].status == Processing;
    assert job.id in Ids(ws.todo);
    assert db'.jobs[job.id] == db.jobs[job.id];
    hide Owns, JobsEffect, Ids, Numbered;
    assert IsOut(db, ws, rank, top, job.id) && !IsOut(db', ws', rank, top, job.id);
    assert job.id in OutSet(db, ws, rank, top) && job.id !in OutSet(db', ws', rank, top);
  }

  lemma EchoOut(db: Db, ws: Worker, db': Db, ws': Worker, rank: WatchKey -> nat, mp: Mapping, r: nat)
    requires Owns(db, ws) && ws'.todo == ws.todo && ws.stage == Ready
    requires Numbered(db) && JobsEffect(db, db', map[], {}) && rank((mp.source, mp.jobType)) <= r
    requires forall t :: t in Echo(db.triggers, mp) ==> rank((mp.targetTable, t)) < rank((mp.source, mp.jobType))
    requires forall id :: id in db'.jobs && db.nextId <= id ==>
      IsFor(db'.jobs[id], mp.targetTable, Echo(db.triggers, mp))
    ensures OutSet(db', ws', rank, r) <= OutSet(db, ws, rank, r)
  {
    hide Owns, JobsEffect, Echo, Ids;
    forall id | id in OutSet(db', ws', rank, r) ensures id in OutSet(db, ws, rank, r) {
      assert IsOut(db', ws', rank, r, id);
      EffectRow(db, db', map[], {}, id);
    }
  }

  lemma StepFalls(s: State, w: nat, act: Action, rank: WatchKey -> nat, height: nat)
    requires Inv(s) && w in s.workers && Alone(act, w) && Do(s, act).Some?
    requires Acyclic(s.db.triggers, s.audit.everWatched, rank, height)
    ensures var t := Do(s, act).value;
      && w in t.workers
      && Descent.Falls(Measure(t.db, t.workers[w], rank, height), Measure(s.db, s.workers[w], rank, height))
      && (Moves(act) ==> Measure(t.db, t.workers[w], rank, height) != Measure(s.db, s.workers[w], rank, height))
  {
    var t := Do(s, act).value;
    var db, ws := s.db, s.workers[w];
    if act.Tick? {
      assert PendingIds(t.db) == PendingIds(db);
      forall r: nat ensures OutSet(t.db, ws, rank, r) == OutSet(db, ws, rank, r) {
      }
      WorkFalls(db, ws, t.db, ws, rank, height);
    } else {
      DoAct(s, w, act.ev);
      hide Do;
      ActFalls(db, s.audit, ws, act.ev, rank, height);
    }
  }

  lemma ActFalls(db: Db, a: Audit, ws: Worker, ev: Event, rank: WatchKey -> nat, height: nat)
    requires CanAct(db, ws, ev) && CachesOk(a, ws) && Acyclic(db.triggers, a.everWatched, rank, height)
    ensures var db', ws' := Exec(db, ev), WorkerProgram.Step(ws, ev).value;
      && Descent.Falls(Measure(db', ws', rank, height), Measure(db, ws, rank, height))
      && (Moving(ev) ==> Measure(db', ws', rank, height) != Measure(db, ws, rank, height))
  {
    var db', ws' := Exec(db, ev), WorkerProgram.Step(ws, ev).value;
    if ev.WroteBack? && ev.ok {
      var top := EchoIsLower(db, a, ws, ev, rank, height);
      RankFalls(db, ws, db', ws', rank, height, top);
    } else {
      NothingNew(db, ws, ev);
      forall r: nat ensures OutSet(db', ws', rank, r) <= OutSet(db, ws, rank, r) {
        OutShrinks(db, ws, ev, rank, r);
      }
      WorkShrinks(db, ws, ev);
      WorkFalls(db, ws, db', ws', rank, height);
    }
  }

  // ---- Termination, for any acyclic graph -------------------------------------------------------------

  /** An endless schedule of one worker and the clock. */
  ghost predicate Endless(states: nat -> State, acts: nat -> Action, w: nat) {
    forall i: nat :: Alone(acts(i), w) && Do(states(i), acts(i)) == Some(states(i + 1))
  }

  ghost predicate StillAcyclic(s: State, w: nat, rank: WatchKey -> nat, height: nat) {
    Inv(s) && w in s.workers && Acyclic(s.db.triggers, s.audit.everWatched, rank, height)
  }

  lemma AloneKeepsWatches(s: State, w: nat, act: Action)
    requires Inv(s) && Alone(act, w) && Do(s, act).Some?
    ensures Do(s, act).value.db.triggers == s.db.triggers
    ensures Do(s, act).value.audit.everWatched == s.audit.everWatched
  {
    if act.Act? {
      ExecKeepsRegistration(s.db, act.ev);
    }
  }

  lemma {:induction false} StaysAcyclic(states: nat -> State, acts: nat -> Action, w: nat,
                                        rank: WatchKey -> nat, height: nat, i: nat)
    requires Endless(states, acts, w) && StillAcyclic(states(0), w, rank, height)
    ensures StillAcyclic(states(i), w, rank, height)
  {
    hide Do, Inv, Acyclic;
    if i > 0 {
      StaysAcyclic(states, acts, w, rank, height, i - 1);
      assert Do(states(i - 1), acts(i - 1)) == Some(states(i - 1 + 1));
      DoInv(states(i - 1), acts(i - 1));
      StepFalls(states(i - 1), w, acts(i - 1), rank, height);
      AloneKeepsWatches(states(i - 1), w, acts(i - 1));
    }
  }

  lemma TickPending(s: State, act: Action)
    requires act.Tick? && Do(s, act).Some?
    ensures PendingIds(Do(s, act).value.db) == PendingIds(s.db)
  {
  }

  lemma WaitingChangesNothing(s: State, w: nat, act: Action)
    requires Inv(s) && w in s.workers && Alone(act, w) && Do(s, act).Some? && !Moves(act)
    ensures PendingIds(Do(s, act).value.db) == PendingIds(s.db)
    ensures act.Act? && act.ev.Claimed? ==> PendingIds(s.db) == {}
  {
    hide Do, Inv, Exec, Genuine, WorkerProgram.Step, PendingIds, Ledger, ProtocolSafety.Registered, CachesOk, WriterOk;
    if act.Act? {
      DoAct(s, w, act.ev);
      InvOf(s, w, act.ev);
      if act.ev.Claimed? {
        ClaimTakes(s.db, act.ev);
        EmptyClaim(s.db, act.ev);
      } else {
        WaitingEnqueuesNothing(s.db, act.ev);
        PendingStays(s.db, s.workers[w], act.ev);
      }
    } else {
      TickPending(s, act);
    }
  }

  lemma WaitingEnqueuesNothing(db: Db, ev: Event)
    requires ev.Purged? || ev.ClaimFailed?
    ensures Exec(db, ev).nextId == db.nextId
  {
  }

  /** A claim that finds no row locked comes back empty only if nothing is pending. */
  lemma EmptyClaim(db: Db, ev: Event)
    requires ev.Claimed? && Genuine(db, ev) && ev.locked == {} && 1 <= ev.limit && ev.jobs == []
    ensures PendingIds(db) == {}
  {
    assert Ids(ev.jobs) == {};
    assert PendingIds(db) - {} == PendingIds(db);
  }

  /** The measure of the i-th state of a schedule. */
  function MeasureAt(states: nat -> State, w: nat, rank: WatchKey -> nat, height: nat, i: nat): seq<nat> {
    if w in states(i).workers then Measure(states(i).db, states(i).workers[w], rank, height) else []
  }

  lemma MeasureFalls(states: nat -> State, acts: nat -> Action, w: nat, rank: WatchKey -> nat, height: nat, i: nat)
    requires Endless(states, acts, w) && StillAcyclic(states(0), w, rank, height)
    ensures |MeasureAt(states, w, rank, height, i)| == height + 1
    ensures Descent.Falls(MeasureAt(states, w, rank, height, i + 1), MeasureAt(states, w, rank, height, i))
    ensures Moves(acts(i)) ==> MeasureAt(states, w, rank, height, i + 1) != MeasureAt(states, w, rank, height, i)
  {
    hide Do, Inv, Acyclic, Alone, Moves, Descent.Falls;
    StaysAcyclic(states, acts, w, rank, height, i);
    assert Alone(acts(i), w) && Do(states(i), acts(i)) == Some(states(i + 1));
    StepFalls(states(i), w, acts(i), rank, height);
  }

  lemma StopsMoving(states: nat -> State, acts: nat -> Action, w: nat, rank: WatchKey -> nat, height: nat)
    returns (n: nat)
    requires Endless(states, acts, w) && StillAcyclic(states(0), w, rank, height)
    ensures forall i: nat :: n <= i ==> !Moves(acts(i))
  {
    hide Endless, StillAcyclic, MeasureAt, Moves, Descent.Falls;
    var f := (i: nat) => MeasureAt(states, w, rank, height, i);
    forall i: nat
      ensures |f(i)| == height + 1 && Descent.Falls(f(i + 1), f(i)) && (Moves(acts(i)) ==> f(i + 1) != f(i))
    {
      MeasureFalls(states, acts, w, rank, height, i);
    }
    n := Descent.Settles(f, height + 1);
    forall i: nat | n <= i ensures !Moves(acts(i)) {
      assert f(i + 1) == f(n) && f(i) == f(n);
    }
  }

  /** The queue drains.  A worker left alone stops moving at some point, however many rounds of jobs its own
      write-backs set off, as long as the watches form no cycle; and if it still claims after that point, the
      queue is empty from then on. */
  lemma Drains(states: nat -> State, acts: nat -> Action, w: nat, rank: WatchKey -> nat, height: nat)
    returns (n: nat)
    requires Reachable(states(0)) && w in states(0).workers && Endless(states, acts, w)
    requires Acyclic(states(0).db.triggers, states(0).audit.everWatched, rank, height)
    ensures forall i: nat :: n <= i ==> !Moves(acts(i))
    ensures forall i: nat, j: nat :: n <= i && n <= j && acts(i).Act? && acts(i).ev.Claimed? ==>
      PendingIds(states(j).db) == {}
  {
    ReachableInv(states(0));
    assert StillAcyclic(states(0), w, rank, height);
    hide Reachable, Inv, Acyclic, Moves, Endless, StillAcyclic, PendingIds;
    n := StopsMoving(states, acts, w, rank, height);
    forall i: nat, j: nat | n <= i && n <= j && acts(i).Act? && acts(i).ev.Claimed?
      ensures PendingIds(states(j).db) == {}
    {
      ClaimsNothing(states, acts, w, rank, height, n, i);
      SamePending(states, acts, w, rank, height, n, j);
    }
  }

  lemma ClaimsNothing(states: nat -> State, acts: nat -> Action, w: nat,
                      rank: WatchKey -> nat, height: nat, n: nat, i: nat)
    requires Endless(states, acts, w) && StillAcyclic(states(0), w, rank, height)
    requires n <= i && acts(i).Act? && acts(i).ev.Claimed? && forall k: nat :: n <= k ==> !Moves(acts(k))
    ensures PendingIds(states(n).db) == {}
  {
    hide Do, Inv, Acyclic, Alone, Moves, PendingIds;
    StaysAcyclic(states, acts, w, rank, height, i);
    assert Alone(acts(i), w) && Do(states(i), acts(i)) == Some(states(i + 1));
    WaitingChangesNothing(states(i), w, acts(i));
    SamePending(states, acts, w, rank, height, n, i);
  }

  lemma {:induction false} SamePending(states: nat -> State, acts: nat -> Action, w: nat,
                                       rank: WatchKey -> nat, height: nat, n: nat, i: nat)
    requires Endless(states, acts, w) && StillAcyclic(states(0), w, rank, height)
    requires n <= i && forall k: nat :: n <= k ==> !Moves(acts(k))
    ensures PendingIds(states(i).db) == PendingIds(states(n).db)
  {
    hide Do, Inv, Acyclic, Alone, Moves;
    if n < i {
      SamePending(states, acts, w, rank, height, n, i - 1);
      assert Do(states(i - 1), acts(i - 1)) == Some(states(i - 1 + 1));
      StaysAcyclic(states, acts, w, rank, height, i - 1);
      WaitingChangesNothing(states(i - 1), w, acts(i - 1));
    }
  }

  // ---- The exact count, without echo -------------------------------------------------------------------

  function Claims(acts: seq<Action>): nat {
    if acts == [] then 0
    else Claims(acts[..|acts| - 1]) + if acts[|acts| - 1].Act? && acts[|acts| - 1].ev.Claimed? then 1 else 0
  }

  /** A run of one worker and the clock, all of whose claims ask for this many jobs. */
  ghost predicate AloneWith(acts: seq<Action>, w: nat, batchSize: nat) {
    forall i :: 0 <= i < |acts| ==>
      Alone(acts[i], w) && (acts[i].Act? && acts[i].ev.Claimed? ==> acts[i].ev.limit == batchSize)
  }

  function Less(n: int, k: int): int {
    if n < k then 0 else n - k
  }

  lemma QuietStep(s: State, w: nat, act: Action, batchSize: nat)
    requires Inv(s) && w in s.workers && AloneWith([act], w, batchSize) && Do(s, act).Some?
    requires Quiet(s.db.triggers, s.audit.everWatched)
    ensures w in Do(s, act).value.workers
    ensures |PendingIds(Do(s, act).value.db)| ==
      if act.Act? && act.ev.Claimed? then Less(|PendingIds(s.db)|, batchSize) else |PendingIds(s.db)|
  {
    var act0 := [act][0];
    var db' := Do(s, act).value.db;
    if act.Act? {
      DoAct(s, w, act.ev);
      hide Do;
      QuietAct(s.db, s.audit, s.workers[w], act.ev);
    } else {
      assert PendingIds(db') == PendingIds(s.db);
    }
  }

  lemma QuietAct(db: Db, a: Audit, ws: Worker, ev: Event)
    requires CanAct(db, ws, ev) && CachesOk(a, ws) && Quiet(db.triggers, a.everWatched)
    requires ev.Claimed? ==> ev.locked == {}
    ensures |PendingIds(Exec(db, ev))| == if ev.Claimed? then Less(|PendingIds(db)|, ev.limit) else |PendingIds(db)|
  {
    if ev.Claimed? {
      ClaimTakes(db, ev);
      DistinctSize(ev.jobs);
      assert PendingIds(db) - {} == PendingIds(db);
    } else {
      if ev.WroteBack? && ev.ok {
        var mp := WroteThrough(db, a, ws, ev);
        hide Exec, Genuine;
        assert db.nextId < Exec(db, ev).nextId ==> db.nextId in Exec(db, ev).jobs;
      } else {
        NothingNew(db, ws, ev);
      }
      PendingStays(db, ws, ev);
    }
  }

  /** With no echo, each claim takes one batch off the queue, or all that is left of it. */
  lemma {:induction false} EachClaimTakesABatch(s: State, acts: seq<Action>, w: nat, batchSize: nat)
    requires Reachable(s) && w in s.workers && Quiet(s.db.triggers, s.audit.everWatched)
    requires AloneWith(acts, w, batchSize) && Perform(s, acts).Some?
    ensures var t := Perform(s, acts).value;
      && w in t.workers && t.db.triggers == s.db.triggers && t.audit.everWatched == s.audit.everWatched
      && |PendingIds(t.db)| == Less(|PendingIds(s.db)|, Claims(acts) * batchSize)
  {
    hide Do, Inv, Quiet, Reachable, PendingIds, Alone;
    if acts != [] {
      var front, act := acts[..|acts| - 1], acts[|acts| - 1];
      EachClaimTakesABatch(s, front, w, batchSize);
      var mid := Perform(s, front).value;
      StaysReachable(s, front);
      ReachableInv(mid);
      AloneKeepsWatches(mid, w, act);
      QuietStep(mid, w, act, batchSize);
      LessTwice(|PendingIds(s.db)|, batchSize, Claims(front));
    }
  }

  lemma LessTwice(n: nat, batchSize: nat, claims: nat)
    ensures Less(n, claims * batchSize) >= 0
    ensures Less(Less(n, claims * batchSize), batchSize) == Less(n, (claims + 1) * batchSize)
  {
    assert (claims + 1) * batchSize == claims * batchSize + batchSize;
    assert 0 <= claims * batchSize;
  }

  /** So nothing is pending exactly when the turns reach the pending count over the batch size, rounded up. */
  lemma TurnsToEmpty(s: State, acts: seq<Action>, w: nat, batchSize: nat)
    requires Reachable(s) && w in s.workers && Quiet(s.db.triggers, s.audit.everWatched)
    requires 1 <= batchSize && AloneWith(acts, w, batchSize) && Perform(s, acts).Some?
    ensures PendingIds(Perform(s, acts).value.db) == {}
       <==> Sizing.Calls(|PendingIds(s.db)|, batchSize) <= Claims(acts)
  {
    hide Do, Perform, Reachable, Quiet, PendingIds, AloneWith, Claims, Less, Sizing.Calls;
    EachClaimTakesABatch(s, acts, w, batchSize);
    CallsReached(|PendingIds(s.db)|, Claims(acts), batchSize);
    EmptyIfNone(PendingIds(Perform(s, acts).value.db));
  }

  lemma EmptyIfNone(ids: set<nat>)
    ensures ids == {} <==> |ids| == 0
  {
  }

  lemma CallsReached(n: nat, k: nat, batchSize: nat)
    requires 1 <= batchSize
    ensures Less(n, k * batchSize) == 0 <==> Sizing.Calls(n, batchSize) <= k
  {
    var calls := Sizing.Calls(n, batchSize);
    assert n == 0 ==> calls == 0;
    hide Sizing.Calls;
    Sizing.CallsRoundsUp(n, batchSize);
    if calls <= k {
      Sizing.TimesMonotone(calls, k, batchSize);
    } else {
      Sizing.TimesMonotone(k, calls - 1, batchSize);
    }
  }
}

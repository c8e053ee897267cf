/** The tables pgquarry works on and the effect of each SQL statement on them: pgquarry.jobs,
  pgquarry.watched_tables, the installed triggers, and the users' own tables.

  Every statement is atomic.  A statement that raises is a None, and leaves the tables as they were.
*/
module Database {
  import opened Wrappers
  import opened Decimals

  datatype JobType = Embed | Generate

  datatype Status = Pending | Processing | Done | Errored

  /** Why a worker gave up on a job. */
  datatype Reason = NoProvider | ProviderThrew | SizeMismatch | NoResult | NoWatch | WriteFailed

  /** What a model produced: a vector for an embed job, text for a generate job. */
  datatype Output = VectorOut(v: Vec) | TextOut(s: string) {
    predicate Empty() {
      match this case VectorOut(v) => v == [] case TextOut(s) => s == ""
    }
  }

  /** A column value of a user table. */
  datatype Value = Null | Number(n: int) | Text(s: string) | Vector(v: Vec)

  /** to_jsonb(NEW) ->> column, for the columns that hold text or numbers. */
  function TextOf(v: Value): Option<string> {
    match v
    case Text(s) => Some(s)
    case Number(n) => Some(if n < 0 then "-" + Digits(-n) else Digits(n))
    case _ => None
  }

  /** The text of a value: a text's own, and a number's numeral, with a sign if it is negative. */
  ghost predicate ReadsAs(v: Value, text: string) {
    match v
    case Text(s) => text == s
    case Number(n) =>
      if n >= 0 then Numeral(text, n) else |text| > 1 && text[0] == '-' && Numeral(text[1..], -n)
    case _ => false
  }

  lemma TextOfReadsBack(v: Value)
    ensures TextOf(v).Some? <==> v.Text? || v.Number?
    ensures TextOf(v).Some? ==> ReadsAs(v, TextOf(v).value)
  {
    hide Digits, Numeral;
    if v.Number? && v.n < 0 {
      DigitsReadBack(-v.n);
      NumeralIsNotEmpty(Digits(-v.n), -v.n);
      assert TextOf(v).value == "-" + Digits(-v.n);
      assert ("-" + Digits(-v.n))[1..] == Digits(-v.n);
    } else if v.Number? {
      DigitsReadBack(v.n);
    }
  }

  function Stored(out: Output): Value {
    match out case VectorOut(v) => Vector(v) case TextOut(s) => Text(s)
  }

  type Row = map<string, Value>

  function Field(row: Row, column: string): Value {
    if column in row then row[column] else Null
  }

  /** source_table, source_id and source_column: set together, or not at all for an ad hoc job. */
  datatype RowRef = RowRef(table: string, id: int, column: string)

  datatype Job = Job(
    status: Status,
    jobType: JobType,
    source: Option<RowRef>,
    inputText: string,
    maxTokens: Option<int>,
    result: Option<Output>,
    error: Option<Reason>,
    updatedAt: nat)

  datatype NewJob = NewJob(jobType: JobType, source: Option<RowRef>, inputText: string, maxTokens: Option<int>)

  datatype Mapping = Mapping(
    source: string,
    jobType: JobType,
    idColumn: string,
    sourceColumn: string,
    targetTable: string,
    targetColumn: string,
    targetIdColumn: string)
  {
    predicate SameTable() { targetTable == source }
  }

  /** The primary key of watched_tables. */
  type WatchKey = (string, JobType)

  /** The key columns of a watched_tables row are its primary key. */
  predicate Filed(watched: map<WatchKey, Mapping>) {
    forall k :: k in watched ==> watched[k].source == k.0 && watched[k].jobType == k.1
  }

  datatype Trigger = Trigger(columns: set<string>, args: seq<JobType>)

  /** The triggers pgquarry installs on a table, under their two deterministic names. */
  datatype TableTriggers = TableTriggers(embed: Option<Trigger>, generate: Option<Trigger>)

  /** What a row change was: an insert, or an update that names these columns. */
  datatype Change = Inserted | Updated(columns: set<string>)

  datatype Db = Db(
    jobs: map<nat, Job>,
    nextId: nat,
    watched: map<WatchKey, Mapping>,
    triggers: map<string, TableTriggers>,
    tables: map<string, seq<Row>>,
    now: nat)

  // ---- pgquarry.jobs ------------------------------------------------------------------------------

  function FreshJob(n: NewJob, now: nat): Job {
    Job(Pending, n.jobType, n.source, n.inputText, n.maxTokens, None, None, now)
  }

  /** The next n values of jobs_id_seq. */
  function FreshIds(from: nat, n: nat): (ids: set<nat>)
    ensures forall id: nat :: id in ids <==> from <= id < from + n
  {
    if n == 0 then {} else FreshIds(from, n - 1) + {from + n - 1}
  }

  function EnqueueAll(db: Db, news: seq<NewJob>): Db {
    db.(jobs := db.jobs + map id | id in FreshIds(db.nextId, |news|) :: FreshJob(news[id - db.nextId], db.now),
        nextId := db.nextId + |news|)
  }

  function PendingIds(db: Db): set<nat> {
    set id | id in db.jobs && db.jobs[id].status == Pending
  }

  /** The rows of one claim: the lowest pending ids, as many as allowed, passing over locked ones. */
  ghost predicate IsClaim(db: Db, limit: nat, locked: set<nat>, ids: set<nat>) {
    var free := PendingIds(db) - locked;
    && ids <= free
    && |ids| == (if |free| < limit then |free| else limit)
    && forall i, j :: i in ids && j in free - ids ==> i < j
  }

  function ClaimRows(db: Db, ids: set<nat>): Db {
    db.(jobs := map id | id in db.jobs ::
      if id in ids then db.jobs[id].(status := Processing, updatedAt := db.now) else db.jobs[id])
  }

  function MarkDone(db: Db, id: nat): Db {
    if id in db.jobs then db.(jobs := db.jobs[id := db.jobs[id].(status := Done, error := None, updatedAt := db.now)])
    else db
  }

  function MarkError(db: Db, id: nat, reason: Reason): Db {
    if id in db.jobs then
      db.(jobs := db.jobs[id := db.jobs[id].(status := Errored, error := Some(reason), updatedAt := db.now)])
    else db
  }

  /** Both ad hoc statements: status and result in one. */
  function WriteAdHoc(db: Db, id: nat, out: Output): Db {
    if id in db.jobs then
      db.(jobs := db.jobs[id := db.jobs[id].(status := Done, error := None, result := Some(out), updatedAt := db.now)])
    else db
  }

  function Expired(db: Db, age: nat): set<nat> {
    set id | id in db.jobs && db.jobs[id].status == Done && db.jobs[id].updatedAt + age < db.now
  }

  function PurgeDone(db: Db, age: nat): Db {
    db.(jobs := db.jobs - Expired(db, age))
  }

  // ---- Triggers -----------------------------------------------------------------------------------

  predicate Fires(t: Option<Trigger>, change: Change) {
    t.Some? && match change case Inserted => true case Updated(columns) => t.value.columns * columns != {}
  }

  /** The arguments of all triggers that fire on a table, in the order of their names. */
  function FiredArgs(triggers: map<string, TableTriggers>, table: string, change: Change): seq<JobType> {
    if table !in triggers then []
    else
      var t := triggers[table];
      (if Fires(t.embed, change) then t.embed.value.args else [])
      + (if Fires(t.generate, change) then t.generate.value.args else [])
  }

  /** One turn of enqueue_job()'s loop: None where it raises. */
  function JobFor(watched: map<WatchKey, Mapping>, table: string, row: Row, t: JobType): Option<NewJob> {
    if (table, t) !in watched then None
    else
      var w := watched[(table, t)];
      match (Field(row, w.idColumn), TextOf(Field(row, w.sourceColumn)))
      case (Number(id), Some(text)) => Some(NewJob(t, Some(RowRef(table, id, w.sourceColumn)), text, None))
      case _ => None
  }

  function JobsFor(watched: map<WatchKey, Mapping>, table: string, row: Row, args: seq<JobType>): Option<seq<NewJob>> {
    if args == [] then Some([])
    else
      match (JobFor(watched, table, row, args[0]), JobsFor(watched, table, row, args[1..]))
      case (Some(n), Some(rest)) => Some([n] + rest)
      case _ => None
  }

  /** The jobs of a statement that changed these rows. */
  function FireOnRows(db: Db, table: string, rows: seq<Row>, change: Change): Option<seq<NewJob>> {
    if rows == [] then Some([])
    else
      match (JobsFor(db.watched, table, rows[0], FiredArgs(db.triggers, table, change)),
             FireOnRows(db, table, rows[1..], change))
      case (Some(a), Some(b)) => Some(a + b)
      case _ => None
  }

  /** A statement's row changes and the triggers they fire, all or nothing. */
  function ChangeRows(db: Db, table: string, rows': seq<Row>, touched: seq<Row>, change: Change): Option<Db> {
    match FireOnRows(db, table, touched, change)
    case Some(news) => Some(EnqueueAll(db.(tables := db.tables[table := rows']), news))
    case None => None
  }

  function InsertRow(db: Db, table: string, row: Row): Option<Db> {
    if table in db.tables then ChangeRows(db, table, db.tables[table] + [row], [row], Inserted) else None
  }

  function UpdateRow(db: Db, table: string, i: nat, values: Row): Option<Db> {
    if table in db.tables && i < |db.tables[table]| then
      var row' := db.tables[table][i] + values;
      ChangeRows(db, table, db.tables[table][i := row'], [row'], Updated(values.Keys))
    else None
  }

  function DeleteRow(db: Db, table: string, i: nat): Option<Db> {
    if table in db.tables && i < |db.tables[table]| then
      Some(db.(tables := db.tables[table := db.tables[table][..i] + db.tables[table][i + 1..]]))
    else None
  }

  /** What a statement of a client leaves in the table: one row more, one row changed in the named columns only, or one
      row fewer; a deletion enqueues nothing. */
  lemma RowsAfter(db: Db, table: string, row: Row, i: nat)
    ensures InsertRow(db, table, row).Some? ==>
      table in db.tables && InsertRow(db, table, row).value.tables == db.tables[table := db.tables[table] + [row]]
    ensures UpdateRow(db, table, i, row).Some? ==>
      && table in db.tables && i < |db.tables[table]|
      && var rows := UpdateRow(db, table, i, row).value.tables[table];
         && |rows| == |db.tables[table]| && (forall j :: 0 <= j < |rows| && j != i ==> rows[j] == db.tables[table][j])
         && forall c :: Field(rows[i], c) == if c in row then row[c] else Field(db.tables[table][i], c)
    ensures DeleteRow(db, table, i).Some? ==>
      && table in db.tables && i < |db.tables[table]|
      && var db', rows := DeleteRow(db, table, i).value, DeleteRow(db, table, i).value.tables[table];
         && |rows| == |db.tables[table]| - 1 && db'.jobs == db.jobs && db'.nextId == db.nextId
         && forall j :: 0 <= j < |rows| ==> rows[j] == db.tables[table][if j < i then j else j + 1]
  {
  }

  /** What triggers enqueue is registered: enqueue_job() found the mapping it used. */
  ghost predicate Registered(watched: map<WatchKey, Mapping>, n: NewJob) {
    n.source.Some? ==> (n.source.value.table, n.jobType) in watched
  }

  /** The job is for this row: its id, and the text that stands in the mapped column. */
  ghost predicate Carries(watched: map<WatchKey, Mapping>, table: string, row: Row, n: NewJob) {
    && (table, n.jobType) in watched && n.source.Some? && n.source.value.table == table && n.maxTokens.None?
    && var w := watched[(table, n.jobType)];
       && Field(row, w.idColumn) == Number(n.source.value.id)
       && n.source.value.column == w.sourceColumn && TextOf(Field(row, w.sourceColumn)) == Some(n.inputText)
  }

  lemma {:induction false} JobsForRegistered(watched: map<WatchKey, Mapping>, table: string, row: Row,
                                             args: seq<JobType>)
    ensures var r := JobsFor(watched, table, row, args);
      r.Some? ==> |r.value| == |args| && forall i :: 0 <= i < |args| ==>
        r.value[i].jobType == args[i] && r.value[i].source.Some? && r.value[i].source.value.table == table
        && Registered(watched, r.value[i])
  {
    if args != [] {
      JobsForRegistered(watched, table, row, args[1..]);
    }
  }

  lemma {:induction false} FireRegistered(db: Db, table: string, rows: seq<Row>, change: Change)
    ensures var r := FireOnRows(db, table, rows, change);
      r.Some? ==> forall n :: n in r.value ==>
        && n.source.Some? && n.source.value.table == table && n.jobType in FiredArgs(db.triggers, table, change)
        && Registered(db.watched, n)
  {
    if rows != [] {
      JobsForRegistered(db.watched, table, rows[0], FiredArgs(db.triggers, table, change));
      FireRegistered(db, table, rows[1..], change);
    }
  }

  lemma {:induction false} JobsCarry(watched: map<WatchKey, Mapping>, table: string, row: Row, args: seq<JobType>,
                                     i: nat)
    requires JobsFor(watched, table, row, args).Some? && i < |args|
    ensures var r := JobsFor(watched, table, row, args).value;
      i < |r| && r[i].jobType == args[i] && Carries(watched, table, row, r[i])
  {
    if i > 0 {
      JobsCarry(watched, table, row, args[1..], i - 1);
    }
  }

  /** A job that a statement enqueues is for one of its rows, with that row's id and text ... */
  lemma {:induction false} FiredFrom(db: Db, table: string, rows: seq<Row>, change: Change, n: NewJob) returns (i: nat)
    requires FireOnRows(db, table, rows, change).Some? && n in FireOnRows(db, table, rows, change).value
    ensures i < |rows| && Carries(db.watched, table, rows[i], n) && n.jobType in FiredArgs(db.triggers, table, change)
  {
    var args := FiredArgs(db.triggers, table, change);
    var first := JobsFor(db.watched, table, rows[0], args).value;
    if n in first {
      var k :| 0 <= k < |first| && first[k] == n;
      JobsForRegistered(db.watched, table, rows[0], args);
      JobsCarry(db.watched, table, rows[0], args, k);
      i := 0;
    } else {
      i := FiredFrom(db, table, rows[1..], change, n);
      i := i + 1;
    }
  }

  /** ... and each row gets its job of each fired type. */
  lemma {:induction false} FiredFor(db: Db, table: string, rows: seq<Row>, change: Change, i: nat, t: JobType)
    returns (n: NewJob)
    requires FireOnRows(db, table, rows, change).Some? && i < |rows| && t in FiredArgs(db.triggers, table, change)
    ensures n in FireOnRows(db, table, rows, change).value && n.jobType == t && Carries(db.watched, table, rows[i], n)
  {
    var args := FiredArgs(db.triggers, table, change);
    if i == 0 {
      var k :| 0 <= k < |args| && args[k] == t;
      JobsCarry(db.watched, table, rows[0], args, k);
      n := JobsFor(db.watched, table, rows[0], args).value[k];
    } else {
      n := FiredFor(db, table, rows[1..], change, i - 1, t);
    }
  }
}

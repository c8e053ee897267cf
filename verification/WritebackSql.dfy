/** The write-back statements of WritebackSqlBuilder, their meaning on a table, and the composite keys
  under which the worker caches mappings and statements. */
module WritebackSql {
  import opened Wrappers
  import opened Database

  /** "$1::vector" or plain "$1". */
  datatype ValueExpr = AsVector | AsText

  datatype Sql =
    | UpdateSql(table: string, column: string, key: string, expr: ValueExpr)
    | UpsertSql(table: string, column: string, key: string, expr: ValueExpr)

  function ExprFor(t: JobType): ValueExpr {
    match t case Embed => AsVector case Generate => AsText
  }

  /** What write_back() and write_back_text() build on a cache miss. */
  function Build(m: Mapping, expr: ValueExpr): Sql {
    if m.SameTable() then UpdateSql(m.targetTable, m.targetColumn, m.targetIdColumn, expr)
    else UpsertSql(m.targetTable, m.targetColumn, m.targetIdColumn, expr)
  }

  /** The statement writes what the mapping says: the target column of the target table, by the target's id column, as
      an update if the target is the watched table itself and as an upsert if not, with the value cast by job type. */
  ghost predicate Serves(sql: Sql, m: Mapping) {
    && sql.table == m.targetTable && sql.column == m.targetColumn && sql.key == m.targetIdColumn
    && (sql.UpdateSql? <==> m.targetTable == m.source)
    && (sql.expr == AsVector <==> m.jobType == Embed)
  }

  lemma BuiltServes(m: Mapping)
    ensures Serves(Build(m, ExprFor(m.jobType)), m)
  {
  }

  predicate Matches(row: Row, key: string, id: int) {
    Field(row, key) == Number(id)
  }

  function Touched(rows: seq<Row>, sql: Sql, id: int, v: Value): seq<Row> {
    if rows == [] then []
    else (if Matches(rows[0], sql.key, id) then [rows[0][sql.column := v]] else []) + Touched(rows[1..], sql, id, v)
  }

  function SetMatching(rows: seq<Row>, sql: Sql, id: int, v: Value): (rows': seq<Row>)
    ensures |rows'| == |rows|
  {
    seq(|rows|, i requires 0 <= i < |rows| =>
      if Matches(rows[i], sql.key, id) then rows[i][sql.column := v] else rows[i])
  }

  predicate HasRow(rows: seq<Row>, key: string, id: int) {
    exists i :: 0 <= i < |rows| && Matches(rows[i], key, id)
  }

  /** Running a statement with parameters ($1 = v, $2 = id), with the triggers it fires. */
  function Run(db: Db, sql: Sql, id: int, out: Output): Option<Db> {
    if sql.table !in db.tables then None
    else
      var rows, v := db.tables[sql.table], Stored(out);
      if sql.UpdateSql? || HasRow(rows, sql.key, id) then
        ChangeRows(db, sql.table, SetMatching(rows, sql, id, v), Touched(rows, sql, id, v), Updated({sql.column}))
      else
        var row := map[sql.key := Number(id), sql.column := v];
        ChangeRows(db, sql.table, rows + [row], [row], Inserted)
  }

  /** Every row this key addresses holds this value in this column. */
  ghost predicate Holds(tables: map<string, seq<Row>>, table: string, column: string, key: string, id: int, v: Value) {
    table in tables ==>
      forall i :: 0 <= i < |tables[table]| && Matches(tables[table][i], key, id) ==>
        Field(tables[table][i], column) == v
  }

  /** The rows with this id show this value in this column; and if demanded, there is one. */
  ghost predicate Stands(tables: map<string, seq<Row>>, table: string, key: string, column: string, present: bool,
                         id: int, v: Value) {
    && (table in tables ==>
          forall i :: 0 <= i < |tables[table]| && key in tables[table][i] && tables[table][i][key] == Number(id) ==>
            column in tables[table][i] && tables[table][i][column] == v)
    && (present ==>
          table in tables &&
          exists i :: 0 <= i < |tables[table]| && key in tables[table][i] && tables[table][i][key] == Number(id))
  }

  /** The built statement means what the mapping says: in the target column of the rows with this id, and
      nowhere else, the value now stands; with a separate target table there certainly is such a row. */
  ghost predicate WrittenBack(before: seq<Row>, after: seq<Row>, m: Mapping, id: int, v: Value) {
    && |before| <= |after|
    && (forall i :: 0 <= i < |before| ==>
          after[i] == if m.targetIdColumn in before[i] && before[i][m.targetIdColumn] == Number(id)
                      then before[i][m.targetColumn := v] else before[i])
    && (Addressed(before, m, id) || m.targetTable == m.source ==> |after| == |before|)
    && (!Addressed(before, m, id) && m.targetTable != m.source ==>
          after == before + [map[m.targetIdColumn := Number(id), m.targetColumn := v]])
  }

  ghost predicate Addressed(rows: seq<Row>, m: Mapping, id: int) {
    exists i :: 0 <= i < |rows| && m.targetIdColumn in rows[i] && rows[i][m.targetIdColumn] == Number(id)
  }

  lemma AddressedIfRow(rows: seq<Row>, m: Mapping, id: int)
    ensures Addressed(rows, m, id) <==> HasRow(rows, m.targetIdColumn, id)
  {
    if Addressed(rows, m, id) {
      var i :| 0 <= i < |rows| && m.targetIdColumn in rows[i] && rows[i][m.targetIdColumn] == Number(id);
      assert Matches(rows[i], m.targetIdColumn, id);
    }
    if HasRow(rows, m.targetIdColumn, id) {
      var i :| 0 <= i < |rows| && Matches(rows[i], m.targetIdColumn, id);
      assert m.targetIdColumn in rows[i] && rows[i][m.targetIdColumn] == Number(id);
    }
  }

  lemma BuiltStatementWrites(db: Db, m: Mapping, expr: ValueExpr, id: int, out: Output)
    requires Run(db, Build(m, expr), id, out).Some?
    ensures var db' := Run(db, Build(m, expr), id, out).value;
      var v := match out case VectorOut(x) => Vector(x) case TextOut(x) => Text(x);
      && db'.tables.Keys == db.tables.Keys && m.targetTable in db.tables
      && WrittenBack(db.tables[m.targetTable], db'.tables[m.targetTable], m, id, v)
      && (forall t :: t in db.tables && t != m.targetTable ==> db'.tables[t] == db.tables[t])
  {
    var sql, v := Build(m, expr), Stored(out);
    var rows := db.tables[m.targetTable];
    AddressedIfRow(rows, m, id);
    if sql.UpdateSql? || HasRow(rows, sql.key, id) {
      ChangeSetsTable(db, sql.table, SetMatching(rows, sql, id, v), Touched(rows, sql, id, v), Updated({sql.column}));
    } else {
      var row := map[sql.key := Number(id), sql.column := v];
      ChangeSetsTable(db, sql.table, rows + [row], [row], Inserted);
      assert forall i :: 0 <= i < |rows| ==> !Matches(rows[i], sql.key, id);
    }
  }

  lemma ChangeSetsTable(db: Db, table: string, rows': seq<Row>, touched: seq<Row>, change: Change)
    requires ChangeRows(db, table, rows', touched, change).Some?
    ensures ChangeRows(db, table, rows', touched, change).value.tables == db.tables[table := rows']
  {
  }

  /** After it the cells of this id hold the value, whatever they held before. */
  lemma WrittenBackHolds(before: seq<Row>, after: seq<Row>, m: Mapping, id: int, v: Value)
    requires m.targetColumn != m.targetIdColumn && WrittenBack(before, after, m, id, v)
    ensures forall i :: 0 <= i < |after| && Matches(after[i], m.targetIdColumn, id) ==>
      Field(after[i], m.targetColumn) == v
    ensures m.targetTable != m.source ==> HasRow(after, m.targetIdColumn, id)
  {
    AddressedIfRow(before, m, id);
    if HasRow(before, m.targetIdColumn, id) {
      var i :| 0 <= i < |before| && Matches(before[i], m.targetIdColumn, id);
      assert Matches(after[i], m.targetIdColumn, id);
    } else if m.targetTable != m.source {
      assert Matches(after[|before|], m.targetIdColumn, id);
    }
  }

  /** A same-table update for a row that is gone changes nothing at all and enqueues nothing. */
  lemma UpdateOfMissingRow(db: Db, m: Mapping, expr: ValueExpr, id: int, out: Output)
    requires m.targetTable == m.source && m.targetTable in db.tables
    requires forall i :: 0 <= i < |db.tables[m.targetTable]| && m.targetIdColumn in db.tables[m.targetTable][i] ==>
      db.tables[m.targetTable][i][m.targetIdColumn] != Number(id)
    ensures Run(db, Build(m, expr), id, out) == Some(db)
  {
    AddressedIfRow(db.tables[m.targetTable], m, id);
    var rows := db.tables[m.targetTable];
    NoneTouched(rows, Build(m, expr), id, Stored(out));
    assert SetMatching(rows, Build(m, expr), id, Stored(out)) == rows;
    assert db.tables[m.targetTable := rows] == db.tables;
    assert EnqueueAll(db, []).jobs == db.jobs;
  }

  lemma {:induction false} NoneTouched(rows: seq<Row>, sql: Sql, id: int, v: Value)
    requires !HasRow(rows, sql.key, id)
    ensures Touched(rows, sql, id, v) == []
  {
    if rows != [] {
      forall i | 0 <= i < |rows[1..]| ensures !Matches(rows[1..][i], sql.key, id) {
        assert rows[1..][i] == rows[i + 1];
      }
      NoneTouched(rows[1..], sql, id, v);
    }
  }

  // ---- Composite keys -----------------------------------------------------------------------------

  function TypeName(t: JobType): string {
    match t case Embed => "embed" case Generate => "generate"
  }

  /** mapping_key() and cache_key(): source, the unit separator, job type. */
  function Key(source: string, t: JobType): string {
    source + "\U{1f}" + TypeName(t)
  }

  function KeyOf(m: Mapping): string { Key(m.source, m.jobType) }

  /** The key determines both parts, even where a table name holds the separator itself. */
  lemma KeyInjective(s1: string, t1: JobType, s2: string, t2: JobType)
    ensures Key(s1, t1) == Key(s2, t2) <==> s1 == s2 && t1 == t2
  {
    var k1, k2 := Key(s1, t1), Key(s2, t2);
    if k1 == k2 {
      assert k1[|k1| - 1] == (if t1 == Embed then 'd' else 'e');
      assert k2[|k2| - 1] == (if t2 == Embed then 'd' else 'e');
      assert s1 == k1[..|s1|] && s2 == k2[..|s2|];
    }
  }

  /** The in-memory mirror of watched_tables. */
  function Keyed(watched: map<WatchKey, Mapping>): map<string, Mapping> {
    map k | k in (set w | w in watched :: Key(w.0, w.1)) :: watched[Unkey(watched, k)]
  }

  function Unkey(watched: map<WatchKey, Mapping>, k: string): (w: WatchKey)
    requires exists x :: x in watched && Key(x.0, x.1) == k
    ensures w in watched && Key(w.0, w.1) == k
  {
    UniqueKey(watched, k);
    var w :| w in watched && Key(w.0, w.1) == k;
    w
  }

  lemma UniqueKey(watched: map<WatchKey, Mapping>, k: string)
    ensures forall x, y :: x in watched && y in watched && Key(x.0, x.1) == k && Key(y.0, y.1) == k ==> x == y
  {
    forall x, y | x in watched && y in watched && Key(x.0, x.1) == k && Key(y.0, y.1) == k ensures x == y {
      KeyInjective(x.0, x.1, y.0, y.1);
    }
  }

  /** The mirror answers for a table and type exactly what watched_tables holds for them. */
  lemma KeyedLookup(watched: map<WatchKey, Mapping>, source: string, t: JobType)
    ensures Key(source, t) in Keyed(watched) <==> (source, t) in watched
    ensures (source, t) in watched ==> Keyed(watched)[Key(source, t)] == watched[(source, t)]
  {
    var k := Key(source, t);
    if (source, t) in watched {
      assert (source, t).0 == source && (source, t).1 == t;
      var w := Unkey(watched, k);
      KeyInjective(w.0, w.1, source, t);
    } else if k in Keyed(watched) {
      var w := Unkey(watched, k);
      KeyInjective(w.0, w.1, source, t);
    }
  }
}

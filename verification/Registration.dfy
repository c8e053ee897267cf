/** pgquarry.watch() and pgquarry.watch_generate(): mappings and triggers, over any history of calls. */
module Registration {
  import opened Wrappers
  import opened Database

  /** One call.  Optional arguments are NULL by default; the target columns must not be. */
  datatype Call =
    | Watch(source: string, embedColumn: string, idColumn: string, targetTable: Option<string>,
            targetColumn: Option<string>, targetIdColumn: Option<string>)
    | WatchGenerate(source: string, embedColumn: string, embedTargetColumn: Option<string>, promptColumn: string,
                    generateTargetColumn: Option<string>, idColumn: string,
                    embedTargetTable: Option<string>, embedTargetIdColumn: Option<string>,
                    generateTargetTable: Option<string>, generateTargetIdColumn: Option<string>)

  function Coalesce(a: Option<string>, b: string): string {
    match a case Some(s) => s case None => b
  }

  function Upsert(watched: map<WatchKey, Mapping>, m: Mapping): map<WatchKey, Mapping> {
    watched[(m.source, m.jobType) := m]
  }

  function TriggersOf(triggers: map<string, TableTriggers>, table: string): TableTriggers {
    if table in triggers then triggers[table] else TableTriggers(None, None)
  }

  /** The mappings one call upserts, in its order. */
  function Mappings(c: Call): seq<Mapping>
    requires !Raises(c)
  {
    match c
    case Watch(source, embedColumn, idColumn, targetTable, targetColumn, targetIdColumn) =>
      [Mapping(source, Embed, idColumn, embedColumn, Coalesce(targetTable, source), targetColumn.value,
               Coalesce(targetIdColumn, idColumn))]
    case WatchGenerate(source, embedColumn, embedTarget, promptColumn, generateTarget, idColumn,
                       embedTable, embedId, generateTable, generateId) =>
      [Mapping(source, Embed, idColumn, embedColumn, Coalesce(embedTable, source), embedTarget.value,
               Coalesce(embedId, idColumn)),
       Mapping(source, Generate, idColumn, promptColumn, Coalesce(generateTable, source), generateTarget.value,
               Coalesce(generateId, idColumn))]
  }

  predicate Raises(c: Call) {
    match c
    case Watch(_, _, _, _, targetColumn, _) => targetColumn.None?
    case WatchGenerate(_, _, embedTarget, _, generateTarget, _, _, _, _, _) => embedTarget.None? || generateTarget.None?
  }

  /** The triggers a table has after a call: watch() replaces its own trigger and leaves the combined one;
      watch_generate() drops the plain one and replaces its own. */
  function Installed(before: TableTriggers, c: Call): TableTriggers {
    match c
    case Watch(_, embedColumn, _, _, _, _) => before.(embed := Some(Trigger({embedColumn}, [Embed])))
    case WatchGenerate(_, embedColumn, _, promptColumn, _, _, _, _, _, _) =>
      TableTriggers(None, Some(Trigger({embedColumn, promptColumn}, [Embed, Generate])))
  }

  function UpsertAll(watched: map<WatchKey, Mapping>, ms: seq<Mapping>): map<WatchKey, Mapping>
    decreases |ms|
  {
    if ms == [] then watched else UpsertAll(Upsert(watched, ms[0]), ms[1..])
  }

  /** A call that raises leaves everything as it was. */
  function Apply(db: Db, c: Call): Db {
    if Raises(c) then db
    else db.(watched := UpsertAll(db.watched, Mappings(c)),
             triggers := db.triggers[c.source := Installed(TriggersOf(db.triggers, c.source), c)])
  }

  function History(db: Db, calls: seq<Call>): Db {
    if calls == [] then db else Apply(History(db, calls[..|calls| - 1]), calls[|calls| - 1])
  }

  // ---- What a call registers ---------------------------------------------------------------------------

  /** The call registers a mapping of this type on this table: all target columns it takes are given. */
  predicate Gives(c: Call, table: string, t: JobType) {
    match c
    case Watch(source, _, _, _, targetColumn, _) => source == table && t == Embed && targetColumn.Some?
    case WatchGenerate(source, _, embedTarget, _, generateTarget, _, _, _, _, _) =>
      source == table && embedTarget.Some? && generateTarget.Some?
  }

  /** The mapping is the one the call asks for: its own column, target column and id column, and where no target table
      or target id column is given, the watched table and its id column. */
  ghost predicate AsAsked(m: Mapping, c: Call, t: JobType) {
    && m.source == c.source && m.jobType == t && m.idColumn == c.idColumn
    && match c
       case Watch(_, _, _, table, column, key) =>
         && m.sourceColumn == c.embedColumn && Some(m.targetColumn) == column
         && (if table.Some? then m.targetTable == table.value else m.targetTable == c.source)
         && (if key.Some? then m.targetIdColumn == key.value else m.targetIdColumn == c.idColumn)
       case WatchGenerate(_, _, embedColumn, _, generateColumn, _, embedTable, embedKey, generateTable, generateKey) =>
         if t == Embed then
           && m.sourceColumn == c.embedColumn && Some(m.targetColumn) == embedColumn
           && (if embedTable.Some? then m.targetTable == embedTable.value else m.targetTable == c.source)
           && (if embedKey.Some? then m.targetIdColumn == embedKey.value else m.targetIdColumn == c.idColumn)
         else
           && m.sourceColumn == c.promptColumn && Some(m.targetColumn) == generateColumn
           && (if generateTable.Some? then m.targetTable == generateTable.value else m.targetTable == c.source)
           && (if generateKey.Some? then m.targetIdColumn == generateKey.value else m.targetIdColumn == c.idColumn)
  }

  /** One call registers what it asks for, for each type it gives, and leaves every other mapping alone. */
  lemma CallRegisters(db: Db, c: Call, table: string, t: JobType)
    ensures var db', k := Apply(db, c), (table, t);
      if Gives(c, table, t) then k in db'.watched && AsAsked(db'.watched[k], c, t)
      else (k in db'.watched <==> k in db.watched) && (k in db.watched ==> db'.watched[k] == db.watched[k])
  {
    if !Raises(c) {
      ApplyWatched(db, c);
      assert (table, t).0 == table && (table, t).1 == t;
    }
  }

  /** Over any history, the last call that gives a type on a table decides its mapping ... */
  lemma {:induction false} LastCallStands(db: Db, calls: seq<Call>, i: nat, table: string, t: JobType)
    requires i < |calls| && Gives(calls[i], table, t)
    requires forall j :: i < j < |calls| ==> !Gives(calls[j], table, t)
    ensures var watched := History(db, calls).watched;
      (table, t) in watched && AsAsked(watched[(table, t)], calls[i], t)
  {
    hide Apply, AsAsked;
    var front := calls[..|calls| - 1];
    CallRegisters(History(db, front), calls[|calls| - 1], table, t);
    if i < |front| {
      LastCallStands(db, front, i, table, t);
    }
  }

  /** ... and without such a call it stays as it was. */
  lemma {:induction false} NoCallKeeps(db: Db, calls: seq<Call>, table: string, t: JobType)
    requires forall j :: 0 <= j < |calls| ==> !Gives(calls[j], table, t)
    ensures var watched := History(db, calls).watched;
      && ((table, t) in watched <==> (table, t) in db.watched)
      && ((table, t) in watched ==> watched[(table, t)] == db.watched[(table, t)])
  {
    hide Apply;
    if calls != [] {
      var front := calls[..|calls| - 1];
      NoCallKeeps(db, front, table, t);
      CallRegisters(History(db, front), calls[|calls| - 1], table, t);
    }
  }

  // ---- Every row change reaches a mapping, and every mapping is reached ----------------------------

  ghost predicate ArgsRegistered(watched: map<WatchKey, Mapping>, table: string, t: Option<Trigger>) {
    t.Some? ==> forall i :: 0 <= i < |t.value.args| ==> (table, t.value.args[i]) in watched
  }

  predicate Listens(t: Option<Trigger>, jobType: JobType, column: string) {
    t.Some? && jobType in t.value.args && column in t.value.columns
  }

  /** The arguments of installed triggers have mappings, so enqueue_job() never raises for want of one;
      each mapping has a trigger that passes its type and listens on its source column; and a mapping is
      filed under its own key. */
  ghost predicate Consistent(db: Db) {
    && (forall table :: table in db.triggers ==>
          && ArgsRegistered(db.watched, table, db.triggers[table].embed)
          && ArgsRegistered(db.watched, table, db.triggers[table].generate))
    && (forall w :: w in db.watched ==>
          && w.0 == db.watched[w].source && w.1 == db.watched[w].jobType
          && w.0 in db.triggers
          && (|| Listens(db.triggers[w.0].embed, w.1, db.watched[w].sourceColumn)
              || Listens(db.triggers[w.0].generate, w.1, db.watched[w].sourceColumn)))
  }

  /** The plain trigger passes embed, the combined one embed and generate. */
  ghost predicate Shaped(db: Db) {
    forall table :: table in db.triggers ==>
      && (db.triggers[table].embed.Some? ==> db.triggers[table].embed.value.args == [Embed])
      && (db.triggers[table].generate.Some? ==> db.triggers[table].generate.value.args == [Embed, Generate])
  }

  lemma ApplyWatched(db: Db, c: Call)
    requires !Raises(c)
    ensures Apply(db, c).watched == match c
      case Watch(_, _, _, _, _, _) => Upsert(db.watched, Mappings(c)[0])
      case WatchGenerate(_, _, _, _, _, _, _, _, _, _) => Upsert(Upsert(db.watched, Mappings(c)[0]), Mappings(c)[1])
    ensures db.watched.Keys <= Apply(db, c).watched.Keys
  {
    var ms := Mappings(c);
    if c.WatchGenerate? {
      assert UpsertAll(db.watched, ms) == UpsertAll(Upsert(db.watched, ms[0]), ms[1..]);
      assert UpsertAll(Upsert(db.watched, ms[0]), ms[1..])
        == UpsertAll(Upsert(Upsert(db.watched, ms[0]), ms[1]), ms[1..][1..]);
    } else {
      assert UpsertAll(db.watched, ms) == UpsertAll(Upsert(db.watched, ms[0]), ms[1..]);
    }
  }

  lemma ApplyKeepsArgs(db: Db, c: Call, table: string)
    requires Consistent(db) && !Raises(c) && table in Apply(db, c).triggers
    ensures ArgsRegistered(Apply(db, c).watched, table, Apply(db, c).triggers[table].embed)
    ensures ArgsRegistered(Apply(db, c).watched, table, Apply(db, c).triggers[table].generate)
  {
    ApplyWatched(db, c);
    if table in db.triggers {
      assert ArgsRegistered(db.watched, table, db.triggers[table].embed);
      assert ArgsRegistered(db.watched, table, db.triggers[table].generate);
    }
  }

  lemma ApplyKeepsListening(db: Db, c: Call, w: WatchKey)
    requires Consistent(db) && Shaped(db) && !Raises(c) && w in Apply(db, c).watched
    ensures var db' := Apply(db, c);
      && w.0 == db'.watched[w].source && w.1 == db'.watched[w].jobType && w.0 in db'.triggers
      && (|| Listens(db'.triggers[w.0].embed, w.1, db'.watched[w].sourceColumn)
          || Listens(db'.triggers[w.0].generate, w.1, db'.watched[w].sourceColumn))
  {
    ApplyWatched(db, c);
    if w.0 != c.source || (w.1 == Generate && c.Watch?) {
      assert w in db.watched && Apply(db, c).watched[w] == db.watched[w];
    }
  }

  lemma ApplyKeepsConsistent(db: Db, c: Call)
    requires Consistent(db) && Shaped(db)
    ensures Consistent(Apply(db, c)) && Shaped(Apply(db, c))
  {
    if !Raises(c) {
      forall table | table in Apply(db, c).triggers
        ensures ArgsRegistered(Apply(db, c).watched, table, Apply(db, c).triggers[table].embed)
        ensures ArgsRegistered(Apply(db, c).watched, table, Apply(db, c).triggers[table].generate)
      {
        ApplyKeepsArgs(db, c, table);
      }
      forall w | w in Apply(db, c).watched
        ensures w.0 == Apply(db, c).watched[w].source && w.1 == Apply(db, c).watched[w].jobType
        ensures w.0 in Apply(db, c).triggers
        ensures || Listens(Apply(db, c).triggers[w.0].embed, w.1, Apply(db, c).watched[w].sourceColumn)
                || Listens(Apply(db, c).triggers[w.0].generate, w.1, Apply(db, c).watched[w].sourceColumn)
      {
        ApplyKeepsListening(db, c, w);
      }
    }
  }

  /** Any update that names a mapped column, and any insert, enqueues a job of the mapped type. */
  lemma MappedColumnFires(db: Db, table: string, t: JobType, change: Change)
    requires Consistent(db) && (table, t) in db.watched
    requires change.Updated? ==> db.watched[(table, t)].sourceColumn in change.columns
    ensures t in FiredArgs(db.triggers, table, change)
  {
    var w := (table, t);
    assert w.0 == table && w.1 == t;
    var column := db.watched[w].sourceColumn;
    var tr := db.triggers[table];
    if change.Updated? {
      if Listens(tr.embed, t, column) {
        assert column in tr.embed.value.columns * change.columns;
      } else {
        assert column in tr.generate.value.columns * change.columns;
      }
    }
  }

  /** Registration never misses updates, whatever the history. */
  lemma {:induction false} RegistrationIsConsistent(db: Db, calls: seq<Call>)
    requires Consistent(db) && Shaped(db)
    ensures Consistent(History(db, calls)) && Shaped(History(db, calls))
  {
    if calls != [] {
      RegistrationIsConsistent(db, calls[..|calls| - 1]);
      ApplyKeepsConsistent(History(db, calls[..|calls| - 1]), calls[|calls| - 1]);
    }
  }

  /** The row has a number for its id, and a text or a number in the watched column. */
  predicate Usable(watched: map<WatchKey, Mapping>, table: string, row: Row, t: JobType)
    requires (table, t) in watched
  {
    Field(row, watched[(table, t)].idColumn).Number? && TextOf(Field(row, watched[(table, t)].sourceColumn)).Some?
  }

  /** What the insert into pgquarry.jobs refuses: no text, or an id that cannot be cast to a number. */
  predicate Refused(watched: map<WatchKey, Mapping>, table: string, row: Row, t: JobType)
    requires (table, t) in watched
  {
    var id := Field(row, watched[(table, t)].idColumn);
    || Field(row, watched[(table, t)].sourceColumn).Null?
    || id.Vector? || (id.Text? && forall i :: 0 <= i < |id.s| ==> !('0' <= id.s[i] <= '9'))
  }

  /** So no row change is refused for want of a mapping.  A trigger never raises for a row that is usable for each of
      its types, and raises for one that has no text or no castable id for one of them. */
  lemma {:induction false} UnusableRowsRaise(db: Db, table: string, row: Row, args: seq<JobType>)
    requires forall i :: 0 <= i < |args| ==> (table, args[i]) in db.watched
    ensures (forall i :: 0 <= i < |args| ==> Usable(db.watched, table, row, args[i])) ==>
      JobsFor(db.watched, table, row, args).Some?
    ensures (exists i :: 0 <= i < |args| && Refused(db.watched, table, row, args[i])) ==>
      JobsFor(db.watched, table, row, args).None?
  {
    if args != [] {
      UnusableRowsRaise(db, table, row, args[1..]);
      if i :| 0 <= i < |args| && Refused(db.watched, table, row, args[i]) {
        assert i > 0 ==> Refused(db.watched, table, row, args[1..][i - 1]);
      }
    }
  }

  // ---- How many jobs an insert enqueues -----------------------------------------------------------

  function CountOf(args: seq<JobType>, t: JobType): nat {
    if args == [] then 0 else (if args[0] == t then 1 else 0) + CountOf(args[1..], t)
  }

  /** Jobs of one type that an insert into this table enqueues. */
  function InsertJobs(db: Db, table: string, t: JobType): nat {
    CountOf(FiredArgs(db.triggers, table, Inserted), t)
  }

  /** The last call on this table is a watch(), and a watch_generate() came before it. */
  ghost predicate WatchAfterGenerate(calls: seq<Call>, table: string) {
    && GenerateSeen(calls, table)
    && LastOn(calls, table).Some? && LastOn(calls, table).value.Watch?
  }

  predicate OnTable(c: Call, table: string) {
    c.source == table && !Raises(c)
  }

  function LastOn(calls: seq<Call>, table: string): Option<Call> {
    if calls == [] then None
    else if OnTable(calls[|calls| - 1], table) then Some(calls[|calls| - 1])
    else LastOn(calls[..|calls| - 1], table)
  }

  ghost predicate GenerateSeen(calls: seq<Call>, table: string) {
    exists i :: 0 <= i < |calls| && OnTable(calls[i], table) && calls[i].WatchGenerate?
  }

  /** Which triggers stand after a history that began with none on this table. */
  lemma {:induction false} TriggersAfter(db: Db, calls: seq<Call>, table: string)
    requires table !in db.triggers
    ensures var t := TriggersOf(History(db, calls).triggers, table);
      && (t.generate.Some? <==> GenerateSeen(calls, table))
      && (t.embed.Some? <==> LastOn(calls, table).Some? && LastOn(calls, table).value.Watch?)
      && (table in History(db, calls).triggers <==> LastOn(calls, table).Some?)
  {
    if calls != [] {
      var front, c := calls[..|calls| - 1], calls[|calls| - 1];
      TriggersAfter(db, front, table);
      GenerateSeenSnoc(calls, table);
    }
  }

  lemma GenerateSeenSnoc(calls: seq<Call>, table: string)
    requires calls != []
    ensures GenerateSeen(calls, table) <==>
      (|| GenerateSeen(calls[..|calls| - 1], table)
       || (OnTable(calls[|calls| - 1], table) && calls[|calls| - 1].WatchGenerate?))
  {
    var front := calls[..|calls| - 1];
    if GenerateSeen(front, table) {
      var i :| 0 <= i < |front| && OnTable(front[i], table) && front[i].WatchGenerate?;
      assert calls[i] == front[i];
    }
    if GenerateSeen(calls, table) {
      var i :| 0 <= i < |calls| && OnTable(calls[i], table) && calls[i].WatchGenerate?;
      assert i < |front| ==> front[i] == calls[i];
    }
  }

  /** An insert enqueues exactly one job per registered type if and only if no watch() came last after a
      watch_generate(); in that one case it enqueues the embed job twice. */
  lemma InsertEnqueuesOncePerType(db: Db, calls: seq<Call>, table: string)
    requires Consistent(db) && Shaped(db) && table !in db.triggers
    ensures var db' := History(db, calls);
      && (!WatchAfterGenerate(calls, table) <==>
            forall t :: InsertJobs(db', table, t) == if (table, t) in db'.watched then 1 else 0)
      && (WatchAfterGenerate(calls, table) ==>
            InsertJobs(db', table, Embed) == 2 && InsertJobs(db', table, Generate) == 1)
  {
    var db' := History(db, calls);
    RegistrationIsConsistent(db, calls);
    TriggersAfter(db, calls, table);
    if table in db'.triggers {
      SomeTrigger(db, calls, table);
      InsertCounts(db', table);
    } else {
      assert FiredArgs(db'.triggers, table, Inserted) == [];
      assert forall t :: (table, t) in db'.watched ==> (table, t).0 in db'.triggers;
    }
  }

  /** What an insert enqueues, by which of the two triggers stand; and which types then are registered. */
  lemma InsertCounts(db: Db, table: string)
    requires Consistent(db) && Shaped(db) && table in db.triggers
    requires db.triggers[table].embed.Some? || db.triggers[table].generate.Some?
    ensures var t := db.triggers[table];
      && InsertJobs(db, table, Embed) == (if t.embed.Some? then 1 else 0) + (if t.generate.Some? then 1 else 0)
      && InsertJobs(db, table, Generate) == (if t.generate.Some? then 1 else 0)
      && (table, Embed) in db.watched && ((table, Generate) in db.watched <==> t.generate.Some?)
  {
    InsertFires(db, table);
    TypesRegistered(db, table);
    hide Consistent, Shaped, FiredArgs, CountOf;
    Counts();
  }

  lemma InsertFires(db: Db, table: string)
    requires Shaped(db) && table in db.triggers
    ensures var t := db.triggers[table];
      FiredArgs(db.triggers, table, Inserted) ==
        if t.embed.Some? && t.generate.Some? then [Embed, Embed, Generate]
        else if t.generate.Some? then [Embed, Generate]
        else if t.embed.Some? then [Embed]
        else []
  {
    assert [Embed] + [] == [Embed] && [] + [Embed, Generate] == [Embed, Generate];
    assert [Embed] + [Embed, Generate] == [Embed, Embed, Generate];
  }

  lemma TypesRegistered(db: Db, table: string)
    requires Consistent(db) && Shaped(db) && table in db.triggers
    requires db.triggers[table].embed.Some? || db.triggers[table].generate.Some?
    ensures (table, Embed) in db.watched && ((table, Generate) in db.watched <==> db.triggers[table].generate.Some?)
  {
    var t := db.triggers[table];
    assert ArgsRegistered(db.watched, table, t.embed) && ArgsRegistered(db.watched, table, t.generate);
    assert t.embed.Some? ==> t.embed.value.args[0] == Embed;
    assert t.generate.Some? ==> t.generate.value.args[0] == Embed && t.generate.value.args[1] == Generate;
    if (table, Generate) in db.watched {
      assert (table, Generate).0 == table && (table, Generate).1 == Generate;
    }
  }

  lemma SomeTrigger(db: Db, calls: seq<Call>, table: string)
    requires table !in db.triggers && table in History(db, calls).triggers
    ensures var t := History(db, calls).triggers[table]; t.embed.Some? || t.generate.Some?
  {
    TriggersAfter(db, calls, table);
    if LastOn(calls, table).value.WatchGenerate? {
      LastIsGenerate(calls, table);
    }
  }

  lemma {:induction false} LastIsGenerate(calls: seq<Call>, table: string)
    requires LastOn(calls, table).Some? && LastOn(calls, table).value.WatchGenerate?
    ensures GenerateSeen(calls, table)
  {
    GenerateSeenSnoc(calls, table);
    if !OnTable(calls[|calls| - 1], table) {
      LastIsGenerate(calls[..|calls| - 1], table);
    }
  }

  lemma Counts()
    ensures CountOf([], Embed) == 0 && CountOf([], Generate) == 0
    ensures CountOf([Embed], Embed) == 1 && CountOf([Embed], Generate) == 0
    ensures CountOf([Embed, Generate], Embed) == 1 && CountOf([Embed, Generate], Generate) == 1
    ensures CountOf([Embed, Embed, Generate], Embed) == 2 && CountOf([Embed, Embed, Generate], Generate) == 1
  {
    assert [Embed][1..] == [] && [Generate][1..] == [];
    assert [Embed, Generate][1..] == [Generate];
    assert [Embed, Embed, Generate][1..] == [Embed, Generate];
    assert CountOf([Generate], Embed) == 0 && CountOf([Generate], Generate) == 1;
  }

  // ---- What an update enqueues ----------------------------------------------------------------------

  /** The call names one of these columns for its triggers to listen on. */
  predicate Names(c: Call, columns: set<string>) {
    match c
    case Watch(_, embedColumn, _, _, _, _) => embedColumn in columns
    case WatchGenerate(_, embedColumn, _, promptColumn, _, _, _, _, _, _) =>
      embedColumn in columns || promptColumn in columns
  }

  function LastGenerateOn(calls: seq<Call>, table: string): Option<Call> {
    if calls == [] then None
    else if OnTable(calls[|calls| - 1], table) && calls[|calls| - 1].WatchGenerate? then Some(calls[|calls| - 1])
    else LastGenerateOn(calls[..|calls| - 1], table)
  }

  /** What a trigger fires for: the columns its call named. */
  ghost predicate ListensAs(t: Option<Trigger>, c: Option<Call>, args: seq<JobType>) {
    t.Some? ==>
      c.Some? && t.value.args == args && forall columns :: t.value.columns * columns != {} <==> Names(c.value, columns)
  }

  lemma InstalledListens(before: TableTriggers, c: Call)
    ensures c.Watch? ==> ListensAs(Installed(before, c).embed, Some(c), [Embed])
    ensures c.WatchGenerate? ==> ListensAs(Installed(before, c).generate, Some(c), [Embed, Generate])
    ensures c.Watch? ==> Installed(before, c).generate == before.generate
    ensures c.WatchGenerate? ==> Installed(before, c).embed.None?
  {
    var t := Installed(before, c);
    if c.Watch? {
      forall columns: set<string> ensures t.embed.value.columns * columns != {} <==> Names(c, columns) {
        assert c.embedColumn in columns ==> c.embedColumn in t.embed.value.columns * columns;
      }
    } else {
      forall columns: set<string> ensures t.generate.value.columns * columns != {} <==> Names(c, columns) {
        assert c.embedColumn in columns ==> c.embedColumn in t.generate.value.columns * columns;
        assert c.promptColumn in columns ==> c.promptColumn in t.generate.value.columns * columns;
      }
    }
  }

  /** The plain trigger listens as the last call asked, the combined one as the last watch_generate() did. */
  lemma {:induction false} TriggersListen(db: Db, calls: seq<Call>, table: string)
    requires table !in db.triggers
    ensures var t := TriggersOf(History(db, calls).triggers, table);
      && ListensAs(t.embed, LastOn(calls, table), [Embed])
      && ListensAs(t.generate, LastGenerateOn(calls, table), [Embed, Generate])
  {
    if calls != [] {
      var front, c := calls[..|calls| - 1], calls[|calls| - 1];
      TriggersListen(db, front, table);
      InstalledListens(TriggersOf(History(db, front).triggers, table), c);
      hide ListensAs, Installed;
    }
  }

  /** The triggers that an update of these columns fires: the plain one where it stands and its column is named, the
      combined one where one of its two columns is. */
  lemma UpdateFires(db: Db, calls: seq<Call>, table: string, columns: set<string>)
    requires table !in db.triggers
    ensures var plain, combined := LastOn(calls, table), LastGenerateOn(calls, table);
      FiredArgs(History(db, calls).triggers, table, Updated(columns)) ==
        (if plain.Some? && plain.value.Watch? && Names(plain.value, columns) then [Embed] else [])
        + (if combined.Some? && Names(combined.value, columns) then [Embed, Generate] else [])
  {
    TriggersListen(db, calls, table);
    TriggersAfter(db, calls, table);
    GenerateIsLast(calls, table);
    hide Names, History, LastOn, LastGenerateOn, GenerateSeen;
  }

  lemma {:induction false} GenerateIsLast(calls: seq<Call>, table: string)
    ensures LastGenerateOn(calls, table).Some? <==> GenerateSeen(calls, table)
  {
    if calls != [] {
      GenerateSeenSnoc(calls, table);
      GenerateIsLast(calls[..|calls| - 1], table);
    }
  }

  /** An update that goes through enqueues one job where the table was last registered by watch() on a column it names,
      and two more where the last watch_generate() on the table has a column it names. */
  lemma UpdateEnqueues(db: Db, calls: seq<Call>, table: string, i: nat, values: Row)
    requires table !in db.triggers && UpdateRow(History(db, calls), table, i, values).Some?
    ensures var db', db'' := History(db, calls), UpdateRow(History(db, calls), table, i, values).value;
      var plain, combined := LastOn(calls, table), LastGenerateOn(calls, table);
      db''.nextId == db'.nextId
        + (if plain.Some? && plain.value.Watch? && Names(plain.value, values.Keys) then 1 else 0)
        + (if combined.Some? && Names(combined.value, values.Keys) then 2 else 0)
  {
    var db' := History(db, calls);
    UpdateFires(db, calls, table, values.Keys);
    var row := db'.tables[table][i] + values;
    OneRowFires(db', table, row, Updated(values.Keys));
    hide History, Names, LastOn, LastGenerateOn, FireOnRows, FiredArgs;
  }

  lemma OneRowFires(db: Db, table: string, row: Row, change: Change)
    requires FireOnRows(db, table, [row], change).Some?
    ensures |FireOnRows(db, table, [row], change).value| == |FiredArgs(db.triggers, table, change)|
  {
    JobsForRegistered(db.watched, table, row, FiredArgs(db.triggers, table, change));
    assert [row][1..] == [] && FireOnRows(db, table, [], change) == Some([]);
    hide FiredArgs, JobsFor;
  }

  /** No call on this table names one of these columns. */
  ghost predicate Unnamed(calls: seq<Call>, table: string, columns: set<string>) {
    forall j :: 0 <= j < |calls| && calls[j].source == table ==> !Names(calls[j], columns)
  }

  lemma {:induction false} LastIsCalled(calls: seq<Call>, table: string)
    ensures LastOn(calls, table).Some? ==>
      exists j :: 0 <= j < |calls| && calls[j].source == table && LastOn(calls, table) == Some(calls[j])
    ensures LastGenerateOn(calls, table).Some? ==>
      exists j :: 0 <= j < |calls| && calls[j].source == table && LastGenerateOn(calls, table) == Some(calls[j])
  {
    if calls != [] {
      var front := calls[..|calls| - 1];
      LastIsCalled(front, table);
      assert forall j :: 0 <= j < |front| ==> front[j] == calls[j];
    }
  }

  lemma {:induction false} NeverGiven(calls: seq<Call>, table: string)
    requires forall j, t :: 0 <= j < |calls| ==> !Gives(calls[j], table, t)
    ensures LastOn(calls, table).None?
  {
    if calls != [] {
      NeverGiven(calls[..|calls| - 1], table);
      assert !Gives(calls[|calls| - 1], table, Embed);
    }
  }

  lemma UnnamedFiresNothing(db: Db, calls: seq<Call>, table: string, columns: set<string>)
    requires table !in db.triggers && Unnamed(calls, table, columns)
    ensures FiredArgs(History(db, calls).triggers, table, Updated(columns)) == []
  {
    UpdateFires(db, calls, table, columns);
    LastIsCalled(calls, table);
    hide FiredArgs, History, Names, LastOn, LastGenerateOn;
  }

  lemma {:induction false} NothingFires(db: Db, table: string, rows: seq<Row>, change: Change)
    requires FiredArgs(db.triggers, table, change) == []
    ensures FireOnRows(db, table, rows, change) == Some([])
  {
    if rows != [] {
      NothingFires(db, table, rows[1..], change);
      assert JobsFor(db.watched, table, rows[0], []) == Some([]);
      var none: seq<NewJob> := [];
      assert none + none == none;
    }
  }

  lemma EnqueueNothing(db: Db)
    ensures EnqueueAll(db, []) == db
  {
    assert EnqueueAll(db, []).jobs == db.jobs;
  }

  /** Whatever the history of calls, an update that names none of the columns they named is never refused, and changes
      nothing but the row. */
  lemma UnnamedUpdateIsQuiet(db: Db, calls: seq<Call>, table: string, i: nat, values: Row)
    requires table !in db.triggers && Unnamed(calls, table, values.Keys)
    requires table in History(db, calls).tables && i < |History(db, calls).tables[table]|
    ensures var db' := History(db, calls);
      var rows := db'.tables[table];
      UpdateRow(db', table, i, values) == Some(db'.(tables := db'.tables[table := rows[i := rows[i] + values]]))
  {
    var db' := History(db, calls);
    var row := db'.tables[table][i] + values;
    UnnamedFiresNothing(db, calls, table, values.Keys);
    NothingFires(db', table, [row], Updated(values.Keys));
    EnqueueNothing(db'.(tables := db'.tables[table := db'.tables[table][i := row]]));
    hide FireOnRows, FiredArgs, History, EnqueueAll;
  }
}

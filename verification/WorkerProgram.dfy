/** What one worker may do, statement by statement: the main loop and both dispatchers as an automaton.

  Its alphabet is the statements a worker sends, each with the answer it got, and the answers of its providers.
  The imperative dispatchers are proved to do nothing else (JobDispatcher); the protocol lets any number of
  these automata interleave.
*/
module WorkerProgram {
  import opened Wrappers
  import opened Database
  import opened WritebackSql

  datatype ClaimedJob = ClaimedJob(id: nat, source: Option<RowRef>, inputText: string, jobType: JobType,
                                   maxTokens: Option<int>)

  function ClaimOf(id: nat, job: Job): ClaimedJob {
    ClaimedJob(id, job.source, job.inputText, job.jobType, job.maxTokens)
  }

  /** A worker's providers: the embedding of a text; the texts that generation may produce for a prompt and a token
      limit, of which each call draws one; whether there is a generation provider at all; the configured limit. */
  datatype Models = Models(
    embed: string -> Vec,
    mayGenerate: (string, int, string) -> bool,
    generates: bool,
    maxTokens: int)

  function TokenLimit(m: Models, job: ClaimedJob): int {
    if job.maxTokens.Some? then job.maxTokens.value else m.maxTokens
  }

  /** What the providers may make of this job's own input. */
  predicate MayResult(m: Models, job: ClaimedJob, out: Output) {
    match job.jobType
    case Embed => out == VectorOut(m.embed(job.inputText))
    case Generate => out.TextOut? && m.mayGenerate(job.inputText, TokenLimit(m, job), out.s)
  }

  /** What a provider made of a job. */
  datatype Verdict = Gave(out: Output) | Failed(reason: Reason)

  /** Where the worker stands with the first job of its list. */
  datatype Stage = Ready | Written | Failing

  datatype Worker = Worker(
    models: Models,
    cache: map<string, Mapping>,   // WatchCache::by_key_
    refreshed: bool,               // WatchCache::refreshed_this_batch_
    lost: bool,                    // this batch's refresh failed
    sql: map<string, Sql>,         // JobStore::write_back_sql_cache_
    todo: seq<ClaimedJob>,
    verdicts: map<nat, Verdict>,   // what the providers made of this batch so far
    stage: Stage,
    written: nat,
    batches: nat)                  // batches begun

  function Fresh(models: Models, cache: map<string, Mapping>): Worker {
    Worker(models, cache, false, false, map[], [], map[], Ready, 0, 0)
  }

  datatype Event =
    | Claimed(limit: nat, locked: set<nat>, jobs: seq<ClaimedJob>)
    | ClaimFailed(limit: nat)
    | Produced(answers: map<nat, Verdict>)
    | Selected(ok: bool, rows: map<WatchKey, Mapping>)
    | WroteAdHoc(id: nat, out: Output, ok: bool)
    | WroteBack(sql: Sql, sourceId: int, out: Output, ok: bool)
    | MarkedDone(id: nat, ok: bool)
    | MarkedError(id: nat, reason: Reason, ok: bool)
    | Notified(count: nat, ok: bool)
    | Purged(age: nat, ok: bool)

  function Only(jobs: seq<ClaimedJob>, t: JobType): seq<ClaimedJob> {
    if jobs == [] then []
    else Only(jobs[..|jobs| - 1], t) + if jobs[|jobs| - 1].jobType == t then [jobs[|jobs| - 1]] else []
  }

  /** The type split: all embed jobs are dispatched before the first generate job. */
  function Split(jobs: seq<ClaimedJob>): seq<ClaimedJob> {
    Only(jobs, Embed) + Only(jobs, Generate)
  }

  function JobKey(job: ClaimedJob): string
    requires job.source.Some?
  {
    Key(job.source.value.table, job.jobType)
  }

  /** The statement for a mapping: the cached one, else a fresh build that is then cached. */
  function SqlFor(sql: map<string, Sql>, m: Mapping, expr: ValueExpr): Sql {
    if KeyOf(m) in sql then sql[KeyOf(m)] else Build(m, expr)
  }

  predicate Busy(ws: Worker, stage: Stage) {
    ws.todo != [] && ws.stage == stage
  }

  function Next(ws: Worker, wrote: bool): Worker
    requires ws.todo != []
  {
    ws.(todo := ws.todo[1..], stage := Ready, written := ws.written + if wrote then 1 else 0)
  }

  /** The jobs one provider call is for: all embed jobs of the list at once, or a single generate job. */
  function Asked(todo: seq<ClaimedJob>): seq<ClaimedJob>
    requires todo != []
  {
    if todo[0].jobType == Embed then Only(todo, Embed) else [todo[0]]
  }

  predicate OwnResult(m: Models, job: ClaimedJob, v: Verdict) {
    v.Gave? && MayResult(m, job, v.out) && !v.out.Empty()
  }

  /** A provider throws for its whole call; embed_batch may return the wrong number of vectors; any single job
      may get an empty result; what is given is the job's own result. */
  predicate Answers(m: Models, asked: seq<ClaimedJob>, answers: map<nat, Verdict>) {
    && answers.Keys == Ids(asked)
    && (|| (forall i :: 0 <= i < |asked| ==> answers[asked[i].id] == Failed(ProviderThrew))
        || (forall i :: 0 <= i < |asked| ==> asked[i].jobType == Embed && answers[asked[i].id] == Failed(SizeMismatch))
        || (forall i :: 0 <= i < |asked| ==>
              answers[asked[i].id] == Failed(NoResult) || OwnResult(m, asked[i], answers[asked[i].id])))
  }

  /** The provider has answered for the first job, with this. */
  predicate Judged(ws: Worker, v: Verdict)
    requires ws.todo != []
  {
    ws.todo[0].id in ws.verdicts && ws.verdicts[ws.todo[0].id] == v
  }

  /** The first job is at this stage of its delivery: to its own row, or to a mapped table. */
  predicate Delivering(ws: Worker, out: Output) {
    Busy(ws, Ready) && Judged(ws, Gave(out)) && MayResult(ws.models, ws.todo[0], out) && !out.Empty()
  }

  /** Why the first job may be given up without a write. */
  predicate GivesUp(ws: Worker, reason: Reason)
    requires ws.todo != []
  {
    match reason
    case WriteFailed => false
    case NoProvider => ws.todo[0].jobType == Generate && !ws.models.generates
    case NoWatch =>
      && ws.todo[0].source.Some? && JobKey(ws.todo[0]) !in ws.cache && ws.refreshed
      && ws.todo[0].id in ws.verdicts && ws.verdicts[ws.todo[0].id].Gave?
    case _ => Judged(ws, Failed(reason))
  }

  /** None where the worker would never send this. */
  function Step(ws: Worker, ev: Event): Option<Worker> {
    match ev
    case Claimed(_, _, jobs) =>
      if ws.todo != [] || ws.written != 0 then None
      else if jobs == [] then Some(ws)
      else Some(ws.(todo := Split(jobs), verdicts := map[], stage := Ready, refreshed := false, lost := false,
                    batches := ws.batches + 1))
    case ClaimFailed(_) =>
      if ws.todo != [] || ws.written != 0 then None else Some(ws)
    case Produced(answers) =>
      if Busy(ws, Ready) && (ws.todo[0].jobType == Generate ==> ws.models.generates)
        && Answers(ws.models, Asked(ws.todo), answers) && ws.verdicts.Keys !! answers.Keys
      then Some(ws.(verdicts := ws.verdicts + answers))
      else None
    case Selected(ok, rows) =>
      if Busy(ws, Ready) && ws.todo[0].source.Some? && JobKey(ws.todo[0]) !in ws.cache && !ws.refreshed then
        Some(ws.(cache := if ok then Keyed(rows) else map[], refreshed := true, lost := !ok))
      else None
    case WroteAdHoc(id, out, ok) =>
      if Delivering(ws, out) && ws.todo[0].source.None? && id == ws.todo[0].id
      then Some(if ok then Next(ws, true) else ws.(stage := Failing))
      else None
    case WroteBack(sql, sourceId, out, ok) =>
      if Delivering(ws, out) && ws.todo[0].source.Some? && JobKey(ws.todo[0]) in ws.cache
        && sourceId == ws.todo[0].source.value.id
        && sql == SqlFor(ws.sql, ws.cache[JobKey(ws.todo[0])], ExprFor(ws.todo[0].jobType))
      then Some(ws.(sql := ws.sql[KeyOf(ws.cache[JobKey(ws.todo[0])]) := sql],
                   stage := if ok then Written else Failing))
      else None
    case MarkedDone(id, _) =>
      if Busy(ws, Written) && id == ws.todo[0].id then Some(Next(ws, true)) else None
    case MarkedError(id, reason, _) =>
      if Busy(ws, Failing) && id == ws.todo[0].id && reason == WriteFailed then Some(Next(ws, false))
      else if Busy(ws, Ready) && id == ws.todo[0].id && GivesUp(ws, reason) then Some(Next(ws, false))
      else None
    case Notified(count, _) =>
      if ws.todo == [] && ws.written > 0 && count == ws.written then Some(ws.(written := 0)) else None
    case Purged(_, _) =>
      if ws.todo == [] && ws.written == 0 then Some(ws) else None
  }

  function Run(ws: Worker, evs: seq<Event>): Option<Worker> {
    if evs == [] then Some(ws)
    else
      match Run(ws, evs[..|evs| - 1])
      case Some(w) => Step(w, evs[|evs| - 1])
      case None => None
  }

  lemma RunSnoc(ws: Worker, evs: seq<Event>, ev: Event)
    ensures Run(ws, evs + [ev]) == match Run(ws, evs) case Some(w) => Step(w, ev) case None => None
  {
    assert (evs + [ev])[..|evs|] == evs;
  }

  lemma {:induction false} RunConcat(ws: Worker, a: seq<Event>, b: seq<Event>)
    ensures Run(ws, a + b) == match Run(ws, a) case Some(w) => Run(w, b) case None => None
    decreases |b|
  {
    if b == [] {
      assert a + b == a;
    } else {
      RunConcat(ws, a, b[..|b| - 1]);
      assert (a + b)[..|a + b| - 1] == a + b[..|b| - 1];
    }
  }

  // ---- The statements' effect ---------------------------------------------------------------------

  function Ids(jobs: seq<ClaimedJob>): set<nat> {
    set i | 0 <= i < |jobs| :: jobs[i].id
  }

  lemma IdsSnoc(jobs: seq<ClaimedJob>, job: ClaimedJob)
    ensures Ids(jobs + [job]) == Ids(jobs) + {job.id}
  {
    var all := jobs + [job];
    assert all[|jobs|].id == job.id;
    forall id | id in Ids(jobs) ensures id in Ids(all) {
      var i :| 0 <= i < |jobs| && jobs[i].id == id;
      assert all[i].id == id;
    }
  }

  ghost predicate Distinct(jobs: seq<ClaimedJob>) {
    forall i, j :: 0 <= i < j < |jobs| ==> jobs[i].id != jobs[j].id
  }

  lemma {:induction false} DistinctSize(jobs: seq<ClaimedJob>)
    requires Distinct(jobs)
    ensures |Ids(jobs)| == |jobs|
  {
    if jobs == [] {
      assert Ids(jobs) == {};
    } else {
      var front, last := jobs[..|jobs| - 1], jobs[|jobs| - 1];
      DistinctSize(front);
      IdsSnoc(front, last);
      assert jobs == front + [last];
      assert last.id !in Ids(front);
    }
  }

  /** The answer is one the database could have given. */
  ghost predicate Genuine(db: Db, ev: Event) {
    match ev
    case Claimed(limit, locked, jobs) =>
      && Distinct(jobs) && IsClaim(db, limit, locked, Ids(jobs))
      && forall i :: 0 <= i < |jobs| ==> jobs[i].id in db.jobs && jobs[i] == ClaimOf(jobs[i].id, db.jobs[jobs[i].id])
    case Selected(ok, rows) => ok ==> rows == db.watched
    case WroteBack(sql, sourceId, out, ok) => ok ==> WritebackSql.Run(db, sql, sourceId, out).Some?
    case _ => true
  }

  lemma SubsetSizes(a: set<nat>, b: set<nat>)
    requires a <= b
    ensures |a| <= |b| && (a != b ==> |a| < |b|)
  {
    assert b == a + (b - a);
    assert |b| == |a| + |b - a|;
  }

  /** A claim takes pending jobs that nobody has locked, each once, the lowest ids first, and as many as there are up to
      the limit; in whatever order they are returned. */
  lemma ClaimIsOfLowest(db: Db, limit: nat, locked: set<nat>, jobs: seq<ClaimedJob>)
    requires Genuine(db, Claimed(limit, locked, jobs))
    ensures |jobs| <= limit && forall i, j :: 0 <= i < j < |jobs| ==> jobs[i].id != jobs[j].id
    ensures forall i :: 0 <= i < |jobs| ==>
      jobs[i].id in db.jobs && db.jobs[jobs[i].id].status == Pending && jobs[i].id !in locked
    ensures forall id :: id in db.jobs && db.jobs[id].status == Pending && id !in locked ==>
      || (exists k :: 0 <= k < |jobs| && jobs[k].id == id)
      || (|jobs| == limit && forall i :: 0 <= i < |jobs| ==> jobs[i].id < id)
  {
    DistinctSize(jobs);
    var free := PendingIds(db) - locked;
    forall i | 0 <= i < |jobs|
      ensures jobs[i].id in db.jobs && db.jobs[jobs[i].id].status == Pending && jobs[i].id !in locked
    {
      assert jobs[i].id in Ids(jobs);
    }
    SubsetSizes(Ids(jobs), free);
    forall id | id in db.jobs && db.jobs[id].status == Pending && id !in locked
      ensures || (exists k :: 0 <= k < |jobs| && jobs[k].id == id)
              || (|jobs| == limit && forall i :: 0 <= i < |jobs| ==> jobs[i].id < id)
    {
      assert id in free;
      if id !in Ids(jobs) {
        assert id in free - Ids(jobs);
        forall i | 0 <= i < |jobs| ensures jobs[i].id < id {
          assert jobs[i].id in Ids(jobs);
        }
      }
    }
  }

  function Exec(db: Db, ev: Event): Db {
    match ev
    case Claimed(_, _, jobs) => ClaimRows(db, Ids(jobs))
    case ClaimFailed(_) => db
    case Produced(_) => db
    case Selected(_, _) => db
    case WroteAdHoc(id, out, ok) => if ok then WriteAdHoc(db, id, out) else db
    case WroteBack(sql, sourceId, out, ok) =>
      if ok && WritebackSql.Run(db, sql, sourceId, out).Some? then WritebackSql.Run(db, sql, sourceId, out).value
      else db
    case MarkedDone(id, ok) => if ok then MarkDone(db, id) else db
    case MarkedError(id, reason, ok) => if ok then MarkError(db, id, reason) else db
    case Notified(_, _) => db
    case Purged(age, ok) => if ok then PurgeDone(db, age) else db
  }

  // ---- The split loses and repeats nothing --------------------------------------------------------

  lemma {:induction false} OnlyMembers(jobs: seq<ClaimedJob>, t: JobType)
    ensures forall x :: x in Only(jobs, t) <==> x in jobs && x.jobType == t
  {
    if jobs != [] {
      OnlyMembers(jobs[..|jobs| - 1], t);
      assert jobs == jobs[..|jobs| - 1] + [jobs[|jobs| - 1]];
    }
  }

  lemma {:induction false} OnlyDistinct(jobs: seq<ClaimedJob>, t: JobType)
    requires Distinct(jobs)
    ensures Distinct(Only(jobs, t))
  {
    if jobs != [] {
      var front, last := jobs[..|jobs| - 1], jobs[|jobs| - 1];
      OnlyDistinct(front, t);
      OnlyMembers(front, t);
      var r := Only(front, t);
      forall i | 0 <= i < |r| ensures r[i].id != last.id {
        assert r[i] in front;
      }
    }
  }

  lemma {:induction false} OnlyLengths(jobs: seq<ClaimedJob>)
    ensures |Only(jobs, Embed)| + |Only(jobs, Generate)| == |jobs|
  {
    if jobs != [] {
      OnlyLengths(jobs[..|jobs| - 1]);
    }
  }

  /** The type split partitions the claimed jobs. */
  lemma SplitPartitions(jobs: seq<ClaimedJob>)
    requires Distinct(jobs)
    ensures Distinct(Split(jobs)) && |Split(jobs)| == |jobs|
    ensures forall x :: x in Split(jobs) <==> x in jobs
    ensures Ids(Split(jobs)) == Ids(jobs)
  {
    OnlyMembers(jobs, Embed);
    OnlyMembers(jobs, Generate);
    OnlyDistinct(jobs, Embed);
    OnlyDistinct(jobs, Generate);
    OnlyLengths(jobs);
    var a, b := Only(jobs, Embed), Only(jobs, Generate);
    forall i, j | 0 <= i < |a| && 0 <= j < |b| ensures a[i].id != b[j].id {
      assert a[i] in jobs && b[j] in jobs;
    }
    SameIds(Split(jobs), jobs);
  }

  lemma SameIds(a: seq<ClaimedJob>, b: seq<ClaimedJob>)
    requires forall x :: x in a <==> x in b
    ensures Ids(a) == Ids(b)
  {
    forall id | id in Ids(a) ensures id in Ids(b) {
      var i :| 0 <= i < |a| && a[i].id == id;
      assert a[i] in b;
    }
    forall id | id in Ids(b) ensures id in Ids(a) {
      var i :| 0 <= i < |b| && b[i].id == id;
      assert b[i] in a;
    }
  }
}

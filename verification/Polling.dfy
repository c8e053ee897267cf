/** pgquarry.embed_sync() and generate_sync(): enqueue, commit, then look at the job's row every 50 ms. */
module Polling {
  import opened Wrappers
  import opened Database
  import opened WorkerProgram
  import opened Protocol
  import opened Verdicts
  import opened ProtocolSafety

  datatype SyncError = JobFailed(error: Option<Reason>) | TimedOut

  /** pg_sleep(0.05), in microseconds. */
  const STEP_US: int := 50_000

  /** What the calling backend meets: the state its commit left, the state each of its looks finds, and the
      clock, in microseconds, after the commit and at each look. */
  datatype Session = Session(committed: State, world: nat -> State, startedAt: int, clock: nat -> int) {
    /** A sleep takes at least as long as asked. */
    ghost predicate Sleeps() {
      startedAt <= clock(0) && forall n: nat :: clock(n) + STEP_US <= clock(n + 1)
    }

    /** Between two looks, any actions of workers, clients and time. */
    ghost predicate InProtocol() {
      Leads(committed, world(0)) && forall n: nat :: Leads(world(n), world(n + 1))
    }

    predicate Finished(n: nat, id: nat) {
      id in world(n).db.jobs && (world(n).db.jobs[id].status == Done || world(n).db.jobs[id].status == Errored)
    }
  }

  ghost predicate Leads(s: State, t: State) {
    exists acts :: Perform(s, acts) == Some(t)
  }

  function Milliseconds(timeoutMs: int): nat {
    if timeoutMs < 0 then 0 else timeoutMs
  }

  /** Looks a call can take: one per started 50 ms of the timeout, and one more. */
  function MaxPolls(timeoutMs: int): nat {
    (Milliseconds(timeoutMs) + 49) / 50 + 1
  }

  lemma {:induction false} ClockAdvances(se: Session, n: nat)
    requires se.Sleeps()
    ensures n * STEP_US <= se.clock(n) - se.startedAt
  {
    if n > 0 {
      ClockAdvances(se, n - 1);
      assert se.clock(n - 1) + STEP_US <= se.clock(n - 1 + 1);
    }
  }

  /** A look that is not the last comes before the timeout, so there are few of them. */
  lemma FewPolls(se: Session, timeoutMs: int, n: nat)
    requires se.Sleeps() && se.clock(n) - se.startedAt < timeoutMs * 1000
    ensures n + 1 < MaxPolls(timeoutMs) + 1 && n * 50 < timeoutMs
  {
    ClockAdvances(se, n);
  }

  /** The polling loop both procedures share.  It ends, whatever happens to the row, and reports the first look
      that found the job done or failed, or that there was none before the timeout; it looks at least once, and again
      only while the timeout has not passed. */
  method Poll(se: Session, id: nat, timeoutMs: int) returns (r: Result<Option<Output>, SyncError>, polls: nat)
    requires se.Sleeps()
    ensures 1 <= polls && (polls == 1 || (polls - 2) * 50 < timeoutMs)
    ensures forall n :: 0 <= n < polls - 1 ==> se.clock(n) - se.startedAt < timeoutMs * 1000
    ensures forall n :: 0 <= n < polls - 1 && id in se.world(n).db.jobs ==>
      se.world(n).db.jobs[id].status != Done && se.world(n).db.jobs[id].status != Errored
    ensures var jobs := se.world(polls - 1).db.jobs;
      if id in jobs && jobs[id].status == Done then r == Ok(jobs[id].result)
      else if id in jobs && jobs[id].status == Errored then r == Err(JobFailed(jobs[id].error))
      else r == Err(TimedOut) && se.clock(polls - 1) - se.startedAt >= timeoutMs * 1000
  {
    polls := 0;
    while true
      invariant forall n :: 0 <= n < polls ==> se.clock(n) - se.startedAt < timeoutMs * 1000
      invariant forall n :: 0 <= n < polls && id in se.world(n).db.jobs ==>
        se.world(n).db.jobs[id].status != Done && se.world(n).db.jobs[id].status != Errored
      invariant polls > 0 ==> (polls - 1) * 50 < timeoutMs
      invariant polls > 0 ==> se.clock(polls - 1) - se.startedAt < timeoutMs * 1000
      invariant polls < MaxPolls(timeoutMs)
      decreases MaxPolls(timeoutMs) - polls
    {
      var look := polls;
      var jobs := se.world(look).db.jobs;
      polls := polls + 1;
      if id in jobs {
        if jobs[id].status == Done {
          return Ok(jobs[id].result), polls;
        } else if jobs[id].status == Errored {
          return Err(JobFailed(jobs[id].error)), polls;
        }
      }
      if se.clock(look) - se.startedAt >= timeoutMs * 1000 {
        return Err(TimedOut), polls;
      }
      FewPolls(se, timeoutMs, look);
    }
  }

  // ---- The value returned is the job's own ---------------------------------------------------------

  lemma LaterEffect(db: Db, db': Db)
    requires Numbered(db) && db' == db.(now := db'.now)
    ensures JobsEffect(db, db', map[], {})
  {
  }

  lemma QuietEffect(s: State, act: Action)
    requires Inv(s) && Do(s, act).Some? && !act.Act? && !act.Client?
    ensures JobsEffect(s.db, Do(s, act).value.db, map[], {})
  {
    assert Numbered(s.db);
    hide Inv, JobsEffect, Ids;
    LaterEffect(s.db, Do(s, act).value.db);
  }

  lemma DoEffect(s: State, act: Action) returns (statuses: map<nat, Status>, dropped: set<nat>)
    requires Inv(s) && Do(s, act).Some?
    ensures JobsEffect(s.db, Do(s, act).value.db, statuses, dropped)
  {
    assert Numbered(s.db);
    hide Inv, Do, Exec, ExecClient, Genuine, WorkerProgram.Step, StatusSet, Dropped, JobsEffect, Lawful, Observe;
    statuses, dropped := map[], {};
    match act
    case Act(w, ev) =>
      DoAct(s, w, ev);
      InvOf(s, w, ev);
      ActEffect(s.db, s.workers[w], ev);
      statuses, dropped := StatusSet(s.db, ev), Dropped(s.db, ev);
    case Client(op) =>
      DoClient(s, op);
      ClientEffect(s.db, op);
    case _ => QuietEffect(s, act);
  }

  /** While it exists, a job's row keeps its id, source, text and type; once gone it never comes back. */
  ghost predicate Keeps(s: State, t: State, id: nat) {
    && s.db.nextId <= t.db.nextId
    && (id in t.db.jobs ==> id in s.db.jobs && ClaimOf(id, t.db.jobs[id]) == ClaimOf(id, s.db.jobs[id]))
  }

  lemma EffectKeeps(s: State, t: State, statuses: map<nat, Status>, dropped: set<nat>, id: nat)
    requires JobsEffect(s.db, t.db, statuses, dropped) && id < s.db.nextId
    ensures Keeps(s, t, id)
  {
  }

  lemma {:induction false} RunKeeps(s: State, acts: seq<Action>, id: nat)
    requires Inv(s) && Perform(s, acts).Some? && id < s.db.nextId
    ensures Keeps(s, Perform(s, acts).value, id) && Inv(Perform(s, acts).value)
  {
    hide Do, Inv;
    if acts != [] {
      var front, act := acts[..|acts| - 1], acts[|acts| - 1];
      RunKeeps(s, front, id);
      var mid := Perform(s, front).value;
      var statuses, dropped := DoEffect(mid, act);
      EffectKeeps(mid, Do(mid, act).value, statuses, dropped, id);
      DoInv(mid, act);
    }
  }

  lemma {:induction false} SeenIsKept(se: Session, n: nat, id: nat)
    requires Inv(se.committed) && se.InProtocol() && id < se.committed.db.nextId
    ensures Keeps(se.committed, se.world(n), id) && Inv(se.world(n))
  {
    hide Inv;
    if n == 0 {
      var acts :| Perform(se.committed, acts) == Some(se.world(0));
      RunKeeps(se.committed, acts, id);
    } else {
      SeenIsKept(se, n - 1, id);
      assert Leads(se.world(n - 1), se.world(n - 1 + 1));
      var acts :| Perform(se.world(n - 1), acts) == Some(se.world(n));
      RunKeeps(se.world(n - 1), acts, id);
    }
  }

  /** The job one of the two calls enqueues. */
  function JobOf(op: ClientOp, id: nat): ClaimedJob
    requires op.EmbedAsync? || op.GenerateAsync?
  {
    match op
    case EmbedAsync(text) => ClaimedJob(id, None, text, Embed, None)
    case GenerateAsync(text, maxTokens) => ClaimedJob(id, None, text, Generate, maxTokens)
  }

  lemma Enqueued(s: State, op: ClientOp, t: State)
    requires Inv(s) && Do(s, Client(op)) == Some(t) && (op.EmbedAsync? || op.GenerateAsync?)
    ensures Inv(t) && t.db.nextId == s.db.nextId + 1 && s.db.nextId in t.db.jobs
    ensures ClaimOf(s.db.nextId, t.db.jobs[s.db.nextId]) == JobOf(op, s.db.nextId)
  {
    assert Numbered(s.db);
    hide Inv, Do, ExecClient, NewRecord, NewTrail, NewSince, JobOf, ClaimOf, Numbered;
    ClientInv(s, op);
    DoClient(s, op);
    EnqueuedJob(s.db, op);
  }

  lemma EnqueuedJob(db: Db, op: ClientOp)
    requires Numbered(db) && (op.EmbedAsync? || op.GenerateAsync?)
    ensures ExecClient(db, op).Some?
    ensures var db' := ExecClient(db, op).value;
      && db'.nextId == db.nextId + 1 && db.nextId in db'.jobs
      && ClaimOf(db.nextId, db'.jobs[db.nextId]) == JobOf(op, db.nextId)
  {
    hide EnqueueAll, ExecClient;
    var job := JobOf(op, db.nextId);
    var news := [NewJob(job.jobType, None, job.inputText, job.maxTokens)];
    AsyncEnqueues(db, op, job);
    FreshClaim(job, db.now);
    hide JobOf, ClaimOf, FreshJob;
    EnqueuedRow(db, news, db.nextId);
    EnqueueNext(db, news);
  }

  lemma FreshClaim(job: ClaimedJob, now: nat)
    requires job.source.None?
    ensures ClaimOf(job.id, FreshJob(NewJob(job.jobType, None, job.inputText, job.maxTokens), now)) == job
  {
  }

  lemma AsyncEnqueues(db: Db, op: ClientOp, job: ClaimedJob)
    requires (op.EmbedAsync? || op.GenerateAsync?) && job == JobOf(op, job.id)
    ensures ExecClient(db, op) == Some(EnqueueAll(db, [NewJob(job.jobType, None, job.inputText, job.maxTokens)]))
  {
  }

  lemma EnqueueNext(db: Db, news: seq<NewJob>)
    ensures EnqueueAll(db, news).nextId == db.nextId + |news|
  {
  }

  /** A look that finds the job done finds with it the answer recorded for that very job: the vector that the providers
      of the worker that claimed it have for the call's text, or a text they may generate for it, within the call's
      own limit or else that worker's. */
  lemma DoneShowsOwnResult(s: State, op: ClientOp, se: Session, n: nat) returns (from: Models)
    requires Reachable(s) && Do(s, Client(op)) == Some(se.committed) && (op.EmbedAsync? || op.GenerateAsync?)
    requires se.InProtocol() && s.db.nextId in se.world(n).db.jobs && se.world(n).db.jobs[s.db.nextId].status == Done
    ensures var a, id, result := se.world(n).audit, s.db.nextId, se.world(n).db.jobs[s.db.nextId].result;
      && result.Some? && id in a.answers && a.answers[id] == Answer(from, Gave(result.value))
      && match op
         case EmbedAsync(text) => result.value == VectorOut(from.embed(text)) && from.embed(text) != []
         case GenerateAsync(text, limit) =>
           && result.value.TextOut? && result.value.s != ""
           && (limit.Some? ==> from.mayGenerate(text, limit.value, result.value.s))
           && (limit.None? ==> from.mayGenerate(text, from.maxTokens, result.value.s))
  {
    var id, t := s.db.nextId, se.world(n);
    hide Do, Reachable, Session.InProtocol;
    ReachableInv(s);
    Enqueued(s, op, se.committed);
    SeenIsKept(se, n, id);
    hide Inv;
    DoneIsAnswered(t, id);
    from := t.audit.answers[id].from;
  }

  lemma DoneIsAnswered(t: State, id: nat)
    requires Inv(t) && id in t.db.jobs && t.db.jobs[id].status == Done && t.db.jobs[id].source.None?
    ensures var result := t.db.jobs[id].result;
      && result.Some? && Got(t.audit, id, result.value)
      && OwnResult(t.audit.answers[id].from, ClaimOf(id, t.db.jobs[id]), Gave(result.value))
  {
    assert ResultOk(t.audit, id, t.db.jobs[id]);
    assert AnswerOwn(t.audit, id);
    hide Exclusive, ProtocolSafety.Registered, Caches, Writers, WritesOk;
  }

  /** A normal return is the vector some worker's model has for the caller's own text, as answered for this very call;
      a call takes few looks however it ends. */
  method EmbedSync(ghost s: State, se: Session, jobId: nat, text: string, timeoutMs: int)
    returns (r: Result<Option<Output>, SyncError>, polls: nat, ghost from: Models)
    requires Reachable(s) && Do(s, Client(EmbedAsync(text))) == Some(se.committed) && jobId == s.db.nextId
    requires se.Sleeps() && se.InProtocol()
    ensures 1 <= polls && (polls == 1 || (polls - 2) * 50 < timeoutMs)
    ensures r.Ok? ==>
      && r.value.Some? && r.value.value == VectorOut(from.embed(text)) && from.embed(text) != []
      && jobId in se.world(polls - 1).audit.answers
      && se.world(polls - 1).audit.answers[jobId] == Answer(from, Gave(r.value.value))
    ensures r == Err(TimedOut) ==> forall n :: 0 <= n < polls ==> !se.Finished(n, jobId)
  {
    hide Do, Reachable, Session.InProtocol, Session.Sleeps;
    r, polls := Poll(se, jobId, timeoutMs);
    if r.Ok? {
      from := DoneShowsOwnResult(s, EmbedAsync(text), se, polls - 1);
    } else {
      from := *;
    }
  }

  /** A normal return is a text generated for the caller's own prompt, within the caller's own limit or else that of the
      worker that claimed the job, as answered for this very call. */
  method GenerateSync(ghost s: State, se: Session, jobId: nat, text: string, maxTokens: Option<int>, timeoutMs: int)
    returns (r: Result<Option<Output>, SyncError>, polls: nat, ghost from: Models)
    requires Reachable(s) && Do(s, Client(GenerateAsync(text, maxTokens))) == Some(se.committed)
    requires jobId == s.db.nextId && se.Sleeps() && se.InProtocol()
    ensures 1 <= polls && (polls == 1 || (polls - 2) * 50 < timeoutMs)
    ensures r.Ok? ==>
      && r.value.Some? && r.value.value.TextOut? && r.value.value.s != ""
      && from.mayGenerate(text, if maxTokens.Some? then maxTokens.value else from.maxTokens, r.value.value.s)
      && jobId in se.world(polls - 1).audit.answers
      && se.world(polls - 1).audit.answers[jobId] == Answer(from, Gave(r.value.value))
    ensures r == Err(TimedOut) ==> forall n :: 0 <= n < polls ==> !se.Finished(n, jobId)
  {
    hide Do, Reachable, Session.InProtocol, Session.Sleeps;
    r, polls := Poll(se, jobId, timeoutMs);
    if r.Ok? {
      from := DoneShowsOwnResult(s, GenerateAsync(text, maxTokens), se, polls - 1);
    } else {
      from := *;
    }
  }
}

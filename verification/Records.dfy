/** What a job's row says is true: its error reason is what happened, and its updated_at is when it got its
  status, so that purge removes exactly the jobs that have been done for longer than the interval. */
module Records {
  import opened Wrappers
  import opened Database
  import opened WorkerProgram
  import opened Protocol
  import opened Verdicts
  import opened ProtocolSafety

  // ---- Reasons --------------------------------------------------------------------------------------

  /** A provider gave this job a result. */
  ghost predicate GotResult(a: Audit, id: nat) {
    id in a.answers && a.answers[id].verdict.Gave?
  }

  /** The reason on the row is what happened to this very job; a job that is done had a result, and its write did not
      fail. */
  ghost predicate Honest(a: Audit, id: nat, job: Job) {
    match job.error
    case None => job.status != Errored && (job.status == Done ==> GotResult(a, id) && id !in a.writeLost)
    case Some(reason) =>
      && job.status == Errored
      && match reason
         case NoProvider => job.jobType == Generate && id in a.givenUpBy && !a.givenUpBy[id].generates
         case NoWatch => job.source.Some? && GotResult(a, id) && id in a.refreshLost
         case WriteFailed => GotResult(a, id) && id in a.writeLost
         case _ => id in a.answers && a.answers[id].verdict == Failed(reason)
  }

  /** A worker's write has failed for the job it is giving up for that, and for no other job it holds. */
  ghost predicate LossesOk(a: Audit, ws: Worker) {
    forall i :: 0 <= i < |ws.todo| ==> (ws.todo[i].id in a.writeLost <==> i == 0 && ws.stage == Failing)
  }

  /** Only claimed jobs have been written. */
  ghost predicate LostClaimed(db: Db, a: Audit) {
    forall id :: id in a.writeLost ==> id < db.nextId && (id in db.jobs ==> db.jobs[id].status != Pending)
  }

  ghost predicate Losses(s: State) {
    LostClaimed(s.db, s.audit) && forall w :: w in s.workers ==> LossesOk(s.audit, s.workers[w])
  }

  ghost predicate Reasons(db: Db, a: Audit) {
    forall id :: id in db.jobs ==> Honest(a, id, db.jobs[id])
  }

  // ---- Failed writes ----------------------------------------------------------------------------------

  /** A failed write is the first job's, and moves the worker on to giving that job up. */
  lemma ObserveLosses(db: Db, a: Audit, ws: Worker, ev: Event)
    requires WorkerProgram.Step(ws, ev).Some?
    ensures var a', ws' := Observe(a, db, ws, ev, Exec(db, ev)), WorkerProgram.Step(ws, ev).value;
      if (ev.WroteBack? || ev.WroteAdHoc?) && !ev.ok then
        && ws.todo != [] && a'.writeLost == a.writeLost + {ws.todo[0].id}
        && ws'.todo == ws.todo && ws'.stage == Failing && ws.stage == Ready
      else
        && a'.writeLost == a.writeLost
        && (!ev.Claimed? && ws'.todo == ws.todo ==> (ws'.stage == Failing <==> ws.stage == Failing))
        && (ev.Claimed? && ev.jobs == [] ==> ws' == ws)
  {
  }

  lemma OwnLosses(db: Db, a: Audit, ws: Worker, ev: Event)
    requires CanAct(db, ws, ev) && LossesOk(a, ws) && LostClaimed(db, a)
    ensures LossesOk(Observe(a, db, ws, ev, Exec(db, ev)), WorkerProgram.Step(ws, ev).value)
  {
    hide Exec, Genuine, WorkerProgram.Step, Observe, Split;
    var a', ws' := Observe(a, db, ws, ev, Exec(db, ev)), WorkerProgram.Step(ws, ev).value;
    ObserveLosses(db, a, ws, ev);
    if ev.Claimed? {
      if ev.jobs != [] {
        ClaimOwned(db, ev);
        ClaimedShape(ws, ev);
        ClaimIsReady(ws, ev);
        hide LostClaimed;
        forall i | 0 <= i < |ws'.todo| ensures ws'.todo[i].id !in a.writeLost {
          PendingNotLost(db, a, ws'.todo[i].id);
        }
      }
    } else {
      StepShape(db, ws, ev);
    }
  }

  lemma ClaimIsReady(ws: Worker, ev: Event)
    requires ev.Claimed? && ev.jobs != [] && WorkerProgram.Step(ws, ev).Some?
    ensures WorkerProgram.Step(ws, ev).value.stage == Ready
  {
  }

  lemma PendingNotLost(db: Db, a: Audit, id: nat)
    requires LostClaimed(db, a) && id in db.jobs && db.jobs[id].status == Pending
    ensures id !in a.writeLost
  {
  }

  lemma OtherLosses(db: Db, a: Audit, ws: Worker, ev: Event, vs: Worker)
    requires CanAct(db, ws, ev) && LossesOk(a, vs) && Ids(vs.todo) !! Ids(ws.todo)
    ensures LossesOk(Observe(a, db, ws, ev, Exec(db, ev)), vs)
  {
    hide Exec, Genuine, WorkerProgram.Step, Observe;
    ObserveLosses(db, a, ws, ev);
    forall i | 0 <= i < |vs.todo| ensures vs.todo[i].id in Ids(vs.todo) {
    }
    if ws.todo != [] {
      assert ws.todo[0].id in Ids(ws.todo);
    }
  }

  lemma ActLostClaimed(db: Db, a: Audit, ws: Worker, ev: Event)
    requires CanAct(db, ws, ev) && LostClaimed(db, a)
    ensures LostClaimed(Exec(db, ev), Observe(a, db, ws, ev, Exec(db, ev)))
  {
    hide Exec, Genuine, WorkerProgram.Step, Observe, JobsEffect, StatusSet, Dropped, Lawful;
    var a', db' := Observe(a, db, ws, ev, Exec(db, ev)), Exec(db, ev);
    ObserveLosses(db, a, ws, ev);
    ActEffect(db, ws, ev);
    forall id | id in a'.writeLost ensures id < db'.nextId && (id in db'.jobs ==> db'.jobs[id].status != Pending) {
      EffectIds(db, db', StatusSet(db, ev), Dropped(db, ev), id);
      LawfulAt(db, StatusSet(db, ev), id);
    }
  }

  lemma ActLosses(s: State, w: nat, ev: Event)
    requires Inv(s) && Losses(s) && Do(s, Act(w, ev)).Some?
    ensures Losses(Do(s, Act(w, ev)).value)
  {
    DoAct(s, w, ev);
    InvOf(s, w, ev);
    var t := Do(s, Act(w, ev)).value;
    assert forall v :: v in s.workers && v != w ==> Ids(s.workers[v].todo) !! Ids(s.workers[w].todo);
    hide Do, Inv, CanAct, Exec, Genuine, WorkerProgram.Step, Observe, LossesOk, LostClaimed, Ledger, CachesOk, WriterOk,
      VerdictsOk, OnRecord, ProtocolSafety.Registered;
    ActLostClaimed(s.db, s.audit, s.workers[w], ev);
    OwnLosses(s.db, s.audit, s.workers[w], ev);
    forall v | v in t.workers ensures LossesOk(t.audit, t.workers[v]) {
      if v != w { OtherLosses(s.db, s.audit, s.workers[w], ev, s.workers[v]); }
    }
  }

  lemma ClientLostClaimed(db: Db, a: Audit, db': Db, a': Audit)
    requires JobsEffect(db, db', map[], {}) && LostClaimed(db, a) && a'.writeLost == a.writeLost
    ensures LostClaimed(db', a')
  {
    hide JobsEffect;
    forall id | id in a.writeLost ensures id < db'.nextId && (id in db'.jobs ==> db'.jobs[id].status != Pending) {
      EffectIds(db, db', map[], {}, id);
    }
  }

  lemma SameLosses(s: State, t: State)
    requires Losses(s) && t.workers == s.workers && t.audit.writeLost == s.audit.writeLost
    requires LostClaimed(t.db, t.audit)
    ensures Losses(t)
  {
    forall w | w in t.workers ensures LossesOk(t.audit, t.workers[w]) {
      assert LossesOk(s.audit, s.workers[w]);
    }
  }

  lemma ClientLosses(s: State, op: ClientOp)
    requires Inv(s) && Losses(s) && Do(s, Client(op)).Some?
    ensures Losses(Do(s, Client(op)).value)
  {
    assert Numbered(s.db) && LostClaimed(s.db, s.audit);
    hide Do, Inv, ExecClient, JobsEffect, NewRecord, NewTrail, NewSince, LostClaimed, Losses, Numbered,
      Protocol.Mappings;
    DoClient(s, op);
    ClientEffect(s.db, op);
    var t := Do(s, Client(op)).value;
    ClientLostClaimed(s.db, s.audit, t.db, t.audit);
    SameLosses(s, t);
  }

  lemma OtherActionLosses(s: State, act: Action)
    requires Losses(s) && Do(s, act).Some? && !act.Act? && !act.Client?
    ensures Losses(Do(s, act).value)
  {
  }

  lemma DoLosses(s: State, act: Action)
    requires Inv(s) && Losses(s) && Do(s, act).Some?
    ensures Losses(Do(s, act).value)
  {
    hide Do, Inv, Losses;
    match act
    case Act(w, ev) => ActLosses(s, w, ev);
    case Client(op) => ClientLosses(s, op);
    case _ => OtherActionLosses(s, act);
  }

  // ---- Reasons stay true ------------------------------------------------------------------------------

  /** The row of a job whose status this statement sets. */
  lemma ActHonest(db: Db, a: Audit, ws: Worker, ev: Event, id: nat)
    requires CanAct(db, ws, ev) && VerdictsOk(a, ws) && LossesOk(a, ws)
    requires id in StatusSet(db, ev) && id in db.jobs && Honest(a, id, db.jobs[id])
    requires Observe(a, db, ws, ev, Exec(db, ev)).noWatch <= Observe(a, db, ws, ev, Exec(db, ev)).refreshLost
    ensures id in Exec(db, ev).jobs && Honest(Observe(a, db, ws, ev, Exec(db, ev)), id, Exec(db, ev).jobs[id])
  {
    hide NewRecord, NewTrail, NewSince;
    if ev.Claimed? {
      assert id in PendingIds(db);
    } else {
      assert ClaimOf(id, db.jobs[id]) == ws.todo[0];
      assert VerdictOn(a, ws, ws.todo[0].id);
    }
  }

  lemma HonestKept(a: Audit, a': Audit, id: nat, job: Job)
    requires Honest(a, id, job) && AuditGrows(a, a') && a.writeLost <= a'.writeLost
    requires job.status == Done && id in a'.writeLost ==> id in a.writeLost
    requires job.status == Errored && id in a.givenUpBy ==> id in a'.givenUpBy && a'.givenUpBy[id] == a.givenUpBy[id]
    ensures Honest(a', id, job)
  {
  }

  /** Only a job in hand is given up, and that one is processing. */
  lemma GivenUpKept(db: Db, a: Audit, ws: Worker, ev: Event, id: nat)
    requires CanAct(db, ws, ev) && id in db.jobs && db.jobs[id].status == Errored && id in a.givenUpBy
    ensures var a' := Observe(a, db, ws, ev, Exec(db, ev)); id in a'.givenUpBy && a'.givenUpBy[id] == a.givenUpBy[id]
  {
    hide NewRecord, NewTrail, NewSince, Exec, Genuine;
  }

  /** A row this statement leaves alone. */
  lemma StillHonest(db: Db, a: Audit, ws: Worker, ev: Event, id: nat)
    requires CanAct(db, ws, ev) && OnRecord(db, a.record) && id in Exec(db, ev).jobs && id !in StatusSet(db, ev)
    requires id in db.jobs ==> Honest(a, id, db.jobs[id])
    ensures Honest(Observe(a, db, ws, ev, Exec(db, ev)), id, Exec(db, ev).jobs[id])
  {
    hide Exec, Genuine, WorkerProgram.Step, StatusSet, Dropped, Lawful, Owns, JobsEffect, Observe, AuditGrows, OnRecord;
    ActEffect(db, ws, ev);
    ActAuditGrows(db, a, ws, ev);
    EffectRow(db, Exec(db, ev), StatusSet(db, ev), Dropped(db, ev), id);
    ObserveLosses(db, a, ws, ev);
    if id in db.jobs {
      FirstIsProcessing(db, ws);
      if db.jobs[id].status == Errored && id in a.givenUpBy { GivenUpKept(db, a, ws, ev, id); }
      HonestKept(a, Observe(a, db, ws, ev, Exec(db, ev)), id, db.jobs[id]);
    }
  }

  lemma FirstIsProcessing(db: Db, ws: Worker)
    requires Owns(db, ws)
    ensures ws.todo != [] ==> ws.todo[0].id in db.jobs && db.jobs[ws.todo[0].id].status == Processing
  {
  }

  lemma StatusSetIsOld(db: Db, ws: Worker, ev: Event)
    requires CanAct(db, ws, ev)
    ensures StatusSet(db, ev).Keys <= db.jobs.Keys
  {
    hide JobsEffect, Exec, Genuine, WorkerProgram.Step, StatusSet;
    ActEffect(db, ws, ev);
  }

  lemma ActReasons(db: Db, a: Audit, ws: Worker, ev: Event)
    requires CanAct(db, ws, ev) && VerdictsOk(a, ws) && LossesOk(a, ws) && OnRecord(db, a.record) && Reasons(db, a)
    requires Observe(a, db, ws, ev, Exec(db, ev)).noWatch <= Observe(a, db, ws, ev, Exec(db, ev)).refreshLost
    ensures Reasons(Exec(db, ev), Observe(a, db, ws, ev, Exec(db, ev)))
  {
    hide Exec, CanAct, VerdictsOk, LossesOk, Honest, StatusSet, Observe, OnRecord;
    StatusSetIsOld(db, ws, ev);
    forall id | id in Exec(db, ev).jobs
      ensures Honest(Observe(a, db, ws, ev, Exec(db, ev)), id, Exec(db, ev).jobs[id])
    {
      if id in StatusSet(db, ev) {
        ActHonest(db, a, ws, ev, id);
      } else {
        StillHonest(db, a, ws, ev, id);
      }
    }
  }

  lemma CachesOf(s: State)
    requires Inv(s)
    ensures s.audit.noWatch <= s.audit.refreshLost
  {
  }

  lemma ActTold(s: State, w: nat, ev: Event)
    requires Inv(s) && Losses(s) && Reasons(s.db, s.audit) && Do(s, Act(w, ev)).Some?
    ensures Reasons(Do(s, Act(w, ev)).value.db, Do(s, Act(w, ev)).value.audit)
  {
    hide Do, Inv, CanAct, Exec, Genuine, WorkerProgram.Step, VerdictsOk, Reasons, Observe, OnRecord, Ledger, CachesOk,
      WriterOk, LossesOk;
    DoAct(s, w, ev);
    InvOf(s, w, ev);
    ActInv(s, w, ev);
    CachesOf(Do(s, Act(w, ev)).value);
    ActReasons(s.db, s.audit, s.workers[w], ev);
  }

  lemma ClientReason(db: Db, a: Audit, db': Db, a': Audit, id: nat)
    requires Numbered(db) && JobsEffect(db, db', map[], {}) && Reasons(db, a) && id in db'.jobs
    requires AuditGrows(a, a') && a'.givenUpBy == a.givenUpBy && a'.writeLost == a.writeLost
    ensures Honest(a', id, db'.jobs[id])
  {
    hide JobsEffect, AuditGrows;
    EffectRow(db, db', map[], {}, id);
    if id in db.jobs {
      assert Honest(a, id, db.jobs[id]);
      HonestKept(a, a', id, db.jobs[id]);
    }
  }

  lemma ClientTold(s: State, op: ClientOp)
    requires Inv(s) && Reasons(s.db, s.audit) && Do(s, Client(op)).Some?
    ensures Reasons(Do(s, Client(op)).value.db, Do(s, Client(op)).value.audit)
  {
    assert OnRecord(s.db, s.audit.record) && Numbered(s.db);
    hide Do, ExecClient, Inv, JobsEffect, Honest, AuditGrows, NewRecord, NewTrail, NewSince, OnRecord;
    DoClient(s, op);
    var db', a' := ExecClient(s.db, op).value, Do(s, Client(op)).value.audit;
    ClientEffect(s.db, op);
    ClientAuditGrows(s.db, s.audit, db', a');
    forall id | id in db'.jobs ensures Honest(a', id, db'.jobs[id]) {
      ClientReason(s.db, s.audit, db', a', id);
    }
  }

  lemma OtherTold(s: State, act: Action)
    requires Reasons(s.db, s.audit) && Do(s, act).Some? && !act.Act? && !act.Client?
    ensures Reasons(Do(s, act).value.db, Do(s, act).value.audit)
  {
  }

  lemma DoTold(s: State, act: Action)
    requires Inv(s) && Losses(s) && Reasons(s.db, s.audit) && Do(s, act).Some?
    ensures Reasons(Do(s, act).value.db, Do(s, act).value.audit)
  {
    hide Do, Inv, Reasons, Losses;
    match act
    case Act(w, ev) => ActTold(s, w, ev);
    case Client(op) => ClientTold(s, op);
    case _ => OtherTold(s, act);
  }

  // ---- Times ------------------------------------------------------------------------------------------

  /** updated_at is the time of the last status, and not in the future. */
  ghost predicate Timed(s: State) {
    forall id :: id in s.db.jobs ==>
      id in s.audit.since && s.audit.since[id] == s.db.jobs[id].updatedAt && s.db.jobs[id].updatedAt <= s.db.now
  }

  lemma TimedKept(db: Db, a: Audit, db': Db, a': Audit, statuses: map<nat, Status>, dropped: set<nat>)
    requires Numbered(db) && JobsEffect(db, db', statuses, dropped) && db.now == db'.now
    requires a'.since == NewSince(a.since, db'.nextId, statuses, db.now)
    requires forall id :: id in a.since ==> id < db.nextId
    requires forall id :: id in db.jobs ==> id in a.since && a.since[id] == db.jobs[id].updatedAt <= db.now
    ensures forall id :: id in db'.jobs ==> id in a'.since && a'.since[id] == db'.jobs[id].updatedAt <= db'.now
    ensures forall id :: id in a'.since ==> id < db'.nextId
  {
    forall id | id in db'.jobs ensures id in a'.since && a'.since[id] == db'.jobs[id].updatedAt <= db'.now {
      EffectRow(db, db', statuses, dropped, id);
    }
  }

  ghost predicate SinceOk(s: State) {
    Timed(s) && forall id :: id in s.audit.since ==> id < s.db.nextId
  }

  lemma ClockStands(db: Db, ev: Event)
    ensures Exec(db, ev).now == db.now
  {
  }

  lemma ClientClockStands(db: Db, op: ClientOp)
    requires ExecClient(db, op).Some?
    ensures ExecClient(db, op).value.now == db.now
  {
  }

  lemma DoSince(s: State, act: Action)
    requires Inv(s) && SinceOk(s) && Do(s, act).Some?
    ensures SinceOk(Do(s, act).value)
  {
    match act
    case Act(w, ev) =>
      DoAct(s, w, ev);
      ActEffect(s.db, s.workers[w], ev);
      ClockStands(s.db, ev);
      TimedKept(s.db, s.audit, Exec(s.db, ev), Do(s, act).value.audit, StatusSet(s.db, ev), Dropped(s.db, ev));
    case Client(op) =>
      DoClient(s, op);
      ClientEffect(s.db, op);
      ClientClockStands(s.db, op);
      TimedKept(s.db, s.audit, ExecClient(s.db, op).value, Do(s, act).value.audit, map[], {});
    case _ =>
  }

  // ---- Over every run -----------------------------------------------------------------------------------

  lemma {:induction false} RunRecords(s: State, acts: seq<Action>)
    requires Initial(s) && Perform(s, acts).Some?
    ensures Reasons(Perform(s, acts).value.db, Perform(s, acts).value.audit) && SinceOk(Perform(s, acts).value)
    ensures Losses(Perform(s, acts).value)
  {
    hide Do, Inv, Reasons, SinceOk, Losses;
    if acts == [] {
      FirstRecords(s);
    } else {
      var mid, act := Perform(s, acts[..|acts| - 1]).value, acts[|acts| - 1];
      RunRecords(s, acts[..|acts| - 1]);
      RunInv(s, acts[..|acts| - 1]);
      DoLosses(mid, act);
      DoTold(mid, act);
      DoSince(mid, act);
    }
  }

  lemma FirstRecords(s: State)
    requires Initial(s)
    ensures Reasons(s.db, s.audit) && SinceOk(s) && Losses(s)
  {
  }

  /** Errors are honest.  In every run a job is in error exactly when its row has a reason, and the reason is what
      happened to it: what a provider answered for that job, a missing generation provider, a refresh that failed
      in its batch, or a write that failed.  A done job's provider gave it its own result, and its write went
      through. */
  lemma ErrorsAreHonest(s: State, id: nat)
    requires Reachable(s) && id in s.db.jobs
    ensures Honest(s.audit, id, s.db.jobs[id])
  {
    var s0, acts :| Initial(s0) && Perform(s0, acts) == Some(s);
    RunRecords(s0, acts);
  }

  /** A purge removes exactly the jobs that have been done for longer than the interval, and touches no other. */
  lemma PurgeTakesOldDoneJobs(s: State, w: nat, age: nat)
    requires Reachable(s) && Do(s, Act(w, Purged(age, true))).Some?
    ensures var t := Do(s, Act(w, Purged(age, true))).value;
      && (forall id :: id in s.db.jobs ==>
            && id in s.audit.since && id in s.audit.trail && s.audit.trail[id] != []
            && (id !in t.db.jobs <==> Last(s.audit.trail[id]) == Done && s.audit.since[id] + age < s.db.now))
      && (forall id :: id in t.db.jobs ==> id in s.db.jobs && t.db.jobs[id] == s.db.jobs[id])
  {
    var s0, acts :| Initial(s0) && Perform(s0, acts) == Some(s);
    RunRecords(s0, acts);
    ReachableInv(s);
    DoAct(s, w, Purged(age, true));
    hide Do, Perform, Reasons, Caches, Results, WritesOk, Writers, Exclusive, ProtocolSafety.Registered;
    PurgeIsExact(s.db, age);
  }
}

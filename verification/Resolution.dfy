/** What becomes of claimed jobs: a batch resolves completely, and nothing stays processing but what a worker
  still holds, a crash left behind, or a failed last mark left behind. */
module Resolution {
  import opened Wrappers
  import opened Database
  import opened WritebackSql
  import opened WorkerProgram
  import opened Protocol
  import opened ProtocolSafety

  // ---- One batch, as the worker sends it -----------------------------------------------------------

  /** A job is finished by the statement that asks for its terminal status. */
  datatype Final = Final(id: nat, status: Status)

  function FinalOf(ev: Event): seq<Final> {
    match ev
    case WroteAdHoc(id, _, true) => [Final(id, Done)]
    case MarkedDone(id, _) => [Final(id, Done)]
    case MarkedError(id, _, _) => [Final(id, Errored)]
    case _ => []
  }

  function Finals(evs: seq<Event>): seq<Final> {
    if evs == [] then [] else Finals(evs[..|evs| - 1]) + FinalOf(evs[|evs| - 1])
  }

  function DoneCount(fs: seq<Final>): nat {
    if fs == [] then 0 else DoneCount(fs[..|fs| - 1]) + if fs[|fs| - 1].status == Done then 1 else 0
  }

  /** No further claim and no notification yet. */
  ghost predicate WithinBatch(evs: seq<Event>) {
    forall i :: 0 <= i < |evs| ==> !evs[i].Claimed? && !evs[i].Notified?
  }

  lemma DoneCountSnoc(fs: seq<Final>, f: Final)
    ensures DoneCount(fs + [f]) == DoneCount(fs) + if f.status == Done then 1 else 0
  {
    assert (fs + [f])[..|fs|] == fs;
  }

  /** Jobs leave the worker's list in order, one terminal status each, and the counter counts the done ones. */
  lemma {:induction false} FinalsFollowTodo(ws: Worker, evs: seq<Event>)
    requires WithinBatch(evs) && WorkerProgram.Run(ws, evs).Some?
    ensures var ws', fs := WorkerProgram.Run(ws, evs).value, Finals(evs);
      && |fs| <= |ws.todo| && ws'.todo == ws.todo[|fs|..]
      && (forall i :: 0 <= i < |fs| ==> fs[i].id == ws.todo[i].id)
      && ws'.written == ws.written + DoneCount(fs)
  {
    hide Step, FinalOf;
    if evs != [] {
      var front, ev := evs[..|evs| - 1], evs[|evs| - 1];
      FinalsFollowTodo(ws, front);
      var mid, fs := WorkerProgram.Run(ws, front).value, Finals(front);
      OneFinal(mid, ev);
      hide DoneCount;
      if FinalOf(ev) == [] {
        assert fs + [] == fs;
      } else {
        assert FinalOf(ev) == [FinalOf(ev)[0]];
        DoneCountSnoc(fs, FinalOf(ev)[0]);
        assert mid.todo[1..] == ws.todo[|fs| + 1..];
      }
    }
  }

  lemma OneFinal(ws: Worker, ev: Event)
    requires !ev.Claimed? && !ev.Notified? && Step(ws, ev).Some?
    ensures var ws' := Step(ws, ev).value;
      if FinalOf(ev) == [] then ws'.todo == ws.todo && ws'.written == ws.written
      else
        && ws.todo != [] && |FinalOf(ev)| == 1 && FinalOf(ev)[0].id == ws.todo[0].id && ws'.todo == ws.todo[1..]
        && ws'.written == ws.written + if FinalOf(ev)[0].status == Done then 1 else 0
  {
  }

  lemma NotifyStep(ws: Worker, count: nat, sent: bool)
    requires ws.todo == []
    ensures Step(ws, Notified(count, sent)).Some? <==> count == ws.written && count > 0
  {
  }

  lemma ClaimStep(idle: Worker, claim: Event)
    requires claim.Claimed? && claim.jobs != [] && WorkerProgram.Run(idle, [claim]).Some?
    ensures var ws := WorkerProgram.Run(idle, [claim]).value; ws.todo == Split(claim.jobs) && ws.written == 0
  {
    assert [claim][..0] == [];
  }

  /** A batch resolves completely.  From its claim until the list is empty, the worker asks for exactly one
      terminal status for each claimed job and for no other job, and the one count it may then notify is the
      number of jobs it asked to be done. */
  lemma BatchResolves(idle: Worker, claim: Event, evs: seq<Event>, count: nat, sent: bool)
    requires claim.Claimed? && Distinct(claim.jobs) && claim.jobs != [] && WithinBatch(evs)
    requires WorkerProgram.Run(idle, [claim] + evs).Some? && WorkerProgram.Run(idle, [claim] + evs).value.todo == []
    ensures var fs := Finals(evs);
      && |fs| == |claim.jobs|
      && (forall id :: id in Ids(claim.jobs) <==> exists i :: 0 <= i < |fs| && fs[i].id == id)
      && (forall i, j :: 0 <= i < j < |fs| ==> fs[i].id != fs[j].id)
      && (Step(WorkerProgram.Run(idle, [claim] + evs).value, Notified(count, sent)).Some? <==>
            count == DoneCount(fs) && count > 0)
  {
    RunConcat(idle, [claim], evs);
    ClaimStep(idle, claim);
    NotifyStep(WorkerProgram.Run(idle, [claim] + evs).value, count, sent);
    hide Step;
    var ws := WorkerProgram.Run(idle, [claim]).value;
    SplitPartitions(claim.jobs);
    FinalsFollowTodo(ws, evs);
    var fs := Finals(evs);
    forall id | id in Ids(ws.todo) ensures exists i :: 0 <= i < |fs| && fs[i].id == id {
      var i :| 0 <= i < |ws.todo| && ws.todo[i].id == id;
      assert fs[i].id == id;
    }
  }

  // ---- What stays processing, in every run ---------------------------------------------------------

  ghost predicate HeldIn(workers: map<nat, Worker>, id: nat) {
    exists w :: w in workers && id in Ids(workers[w].todo)
  }

  ghost predicate Accounted(s: State, id: nat) {
    && (id in s.db.jobs && s.db.jobs[id].status == Processing ==> id in s.audit.stranded || HeldIn(s.workers, id))
    && (id in s.audit.stranded ==>
          id in s.db.jobs && s.db.jobs[id].status == Processing && !HeldIn(s.workers, id))
  }

  /** What one worker's statement does to one job. */
  lemma ActOnJob(db: Db, ws: Worker, ev: Event, id: nat)
    requires CanAct(db, ws, ev)
    ensures var ws', db', statuses := Step(ws, ev).value, Exec(db, ev), StatusSet(db, ev);
      && (id in Ids(ws'.todo) && id !in Ids(ws.todo) ==> id in statuses && statuses[id] == Processing)
      && (id in statuses && statuses[id] == Processing ==> id in Ids(ws'.todo) && id !in Ids(ws.todo))
      && (id in statuses && statuses[id] != Processing ==> id in Ids(ws.todo) && id !in Ids(ws'.todo))
      && (id in Ids(ws.todo) && id !in Ids(ws'.todo) && id !in statuses ==>
            (ev.MarkedDone? || ev.MarkedError?) && !ev.ok && ev.id == id)
      && ((ev.MarkedDone? || ev.MarkedError?) && ev.id == id ==> id in Ids(ws.todo) && id !in Ids(ws'.todo))
  {
    hide Step, Exec, Genuine, StatusSet, Distinct;
    if ev.Claimed? {
      ClaimOnJob(db, ws, ev, id);
    } else {
      FinishShape(db, ws, ev);
      if Step(ws, ev).value.todo != ws.todo {
        OwnsDistinct(db, ws);
        HeadLeaves(ws.todo);
      }
    }
  }

  lemma OwnsDistinct(db: Db, ws: Worker)
    requires Owns(db, ws)
    ensures Distinct(ws.todo)
  {
  }

  lemma ClaimOnJob(db: Db, ws: Worker, ev: Event, id: nat)
    requires CanAct(db, ws, ev) && ev.Claimed?
    ensures Ids(ws.todo) == {} && (id in Ids(Step(ws, ev).value.todo) <==> id in StatusSet(db, ev))
    ensures id in StatusSet(db, ev) ==> StatusSet(db, ev)[id] == Processing
  {
    hide Exec, Genuine, Split;
    ClaimedShape(ws, ev);
    ClaimOwned(db, ev);
  }

  /** Other statements leave the list and all statuses alone, or finish the first job. */
  lemma FinishShape(db: Db, ws: Worker, ev: Event)
    requires CanAct(db, ws, ev) && !ev.Claimed?
    ensures var ws', statuses := Step(ws, ev).value, StatusSet(db, ev);
      if ws'.todo == ws.todo then statuses == map[] && !ev.MarkedDone? && !ev.MarkedError?
      else
        && ws.todo != [] && ws'.todo == ws.todo[1..]
        && (ev.WroteAdHoc? || ev.MarkedDone? || ev.MarkedError?) && ev.id == ws.todo[0].id
        && (if ev.ok then statuses.Keys == {ev.id} && statuses[ev.id] != Processing
            else statuses == map[] && !ev.WroteAdHoc?)
  {
    assert forall i :: 0 <= i < |ws.todo| ==> ws.todo[i].id in db.jobs;
    hide Owns, Genuine, Exec;
  }

  lemma HeadLeaves(todo: seq<ClaimedJob>)
    requires todo != [] && Distinct(todo)
    ensures Ids(todo) == {todo[0].id} + Ids(todo[1..]) && todo[0].id !in Ids(todo[1..])
  {
    TailIds(todo);
    forall id | id in Ids(todo) && id != todo[0].id ensures id in Ids(todo[1..]) {
      var i :| 0 <= i < |todo| && todo[i].id == id;
      assert todo[1..][i - 1].id == id;
    }
  }

  lemma ActAccounted(s: State, w: nat, ev: Event, id: nat)
    requires Inv(s) && Do(s, Act(w, ev)).Some? && Accounted(s, id)
    ensures Accounted(Do(s, Act(w, ev)).value, id)
  {
    DoAct(s, w, ev);
    hide Do, ProtocolSafety.Registered, Results, WritesOk, Caches, Writers;
    var db, ws, s' := s.db, s.workers[w], Do(s, Act(w, ev)).value;
    ActEffect(db, ws, ev);
    ActOnJob(db, ws, ev, id);
    HeldAfter(s.workers, w, Step(ws, ev).value, id);
    HeldIsProcessing(s, id);
    EffectOn(db, s'.db, StatusSet(db, ev), Dropped(db, ev), id);
    hide Exec, Genuine, Step, StatusSet, Dropped, Owns, Exclusive, Lawful, JobsEffect;
  }

  /** The effect of an action on one row. */
  lemma EffectOn(db: Db, db': Db, statuses: map<nat, Status>, dropped: set<nat>, id: nat)
    requires Numbered(db) && JobsEffect(db, db', statuses, dropped)
    ensures id in db'.jobs && db'.jobs[id].status == Processing <==>
      if id in statuses then statuses[id] == Processing else id in db.jobs && db.jobs[id].status == Processing
  {
  }

  lemma HeldAfter(workers: map<nat, Worker>, w: nat, ws': Worker, id: nat)
    requires w in workers
    ensures HeldIn(workers[w := ws'], id) <==>
      id in Ids(ws'.todo) || exists v :: v in workers && v != w && id in Ids(workers[v].todo)
    ensures HeldIn(workers, id) <==>
      id in Ids(workers[w].todo) || exists v :: v in workers && v != w && id in Ids(workers[v].todo)
  {
    var workers' := workers[w := ws'];
    if v :| v in workers && v != w && id in Ids(workers[v].todo) {
      assert id in Ids(workers'[v].todo);
    }
    if id in Ids(ws'.todo) {
      assert id in Ids(workers'[w].todo);
    }
  }

  lemma HeldIsProcessing(s: State, id: nat)
    requires Exclusive(s.db, s.workers)
    ensures forall v :: v in s.workers && id in Ids(s.workers[v].todo) ==>
      id in s.db.jobs && s.db.jobs[id].status == Processing
    ensures forall v, w :: v in s.workers && w in s.workers && v != w && id in Ids(s.workers[v].todo) ==>
      id !in Ids(s.workers[w].todo)
  {
    forall v | v in s.workers && id in Ids(s.workers[v].todo)
      ensures id in s.db.jobs && s.db.jobs[id].status == Processing
    {
      assert Owns(s.db, s.workers[v]);
    }
  }

  lemma CrashAccounted(s: State, w: nat, id: nat)
    requires Exclusive(s.db, s.workers) && w in s.workers && Accounted(s, id)
    ensures Accounted(s.(workers := s.workers - {w},
      audit := s.audit.(stranded := s.audit.stranded + Ids(s.workers[w].todo))), id)
  {
    var workers' := s.workers - {w};
    HeldIsProcessing(s, id);
    if v :| v in s.workers && v != w && id in Ids(s.workers[v].todo) {
      assert v in workers' && id in Ids(workers'[v].todo);
    }
  }

  lemma StartAccounted(s: State, w: nat, ws: Worker, id: nat)
    requires w !in s.workers && ws.todo == [] && Accounted(s, id)
    ensures Accounted(s.(workers := s.workers[w := ws]), id)
  {
    var workers' := s.workers[w := ws];
    assert Ids(ws.todo) == {};
    if v :| v in s.workers && id in Ids(s.workers[v].todo) {
      assert id in Ids(workers'[v].todo);
    }
  }

  lemma DoAccounted(s: State, act: Action, id: nat)
    requires Inv(s) && Do(s, act).Some? && Accounted(s, id)
    ensures Accounted(Do(s, act).value, id)
  {
    match act
    case Start(w, models) => StartAccounted(s, w, Fresh(models, Keyed(s.db.watched)), id);
    case Crash(w) => CrashAccounted(s, w, id);
    case Act(w, ev) => ActAccounted(s, w, ev, id);
    case Client(op) =>
      DoClient(s, op);
      ClientEffect(s.db, op);
      EffectOn(s.db, ExecClient(s.db, op).value, map[], {}, id);
    case Tick(d) =>
  }

  lemma {:induction false} RunAccounted(s: State, acts: seq<Action>, id: nat)
    requires Initial(s) && Perform(s, acts).Some?
    ensures Accounted(Perform(s, acts).value, id)
  {
    if acts != [] {
      RunAccounted(s, acts[..|acts| - 1], id);
      RunInv(s, acts[..|acts| - 1]);
      DoAccounted(Perform(s, acts[..|acts| - 1]).value, acts[|acts| - 1], id);
    }
  }

  /** In every run, what is processing is exactly what some live worker holds, and what a crash or a failed last
      mark left behind.  So without those, a worker that is through with its batch leaves nothing processing. */
  lemma ProcessingIsHeldOrStranded(s: State)
    requires Reachable(s)
    ensures forall id :: id in WithStatus(s.db, Processing) <==> id in s.audit.stranded || HeldIn(s.workers, id)
    ensures forall id :: !(id in s.audit.stranded && HeldIn(s.workers, id))
    ensures s.audit.stranded == {} && (forall w :: w in s.workers ==> s.workers[w].todo == []) ==>
      WithStatus(s.db, Processing) == {}
  {
    ReachableInv(s);
    var s0, acts :| Initial(s0) && Perform(s0, acts) == Some(s);
    forall id
      ensures id in WithStatus(s.db, Processing) <==> id in s.audit.stranded || HeldIn(s.workers, id)
      ensures !(id in s.audit.stranded && HeldIn(s.workers, id))
    {
      RunAccounted(s0, acts, id);
      HeldIsProcessing(s, id);
    }
  }

  lemma StrandedKept(s: State, act: Action)
    requires Do(s, act).Some?
    ensures s.audit.stranded <= Do(s, act).value.audit.stranded
  {
  }

  lemma {:induction false} StrandedStays(s: State, acts: seq<Action>, id: nat)
    requires Inv(s) && Accounted(s, id) && id in s.audit.stranded && Perform(s, acts).Some?
    ensures var s' := Perform(s, acts).value;
      Inv(s') && Accounted(s', id) && id in s'.audit.stranded
  {
    hide Do, Inv;
    if acts != [] {
      var mid, act := Perform(s, acts[..|acts| - 1]).value, acts[|acts| - 1];
      StrandedStays(s, acts[..|acts| - 1], id);
      DoInv(mid, act);
      DoAccounted(mid, act, id);
      StrandedKept(mid, act);
    }
  }

  /** A stranded job stays processing forever: nothing that can happen later frees it. */
  lemma StrandedForever(s: State, acts: seq<Action>, id: nat)
    requires Reachable(s) && id in s.audit.stranded && Perform(s, acts).Some?
    ensures var s' := Perform(s, acts).value;
      id in s'.db.jobs && s'.db.jobs[id].status == Processing && !HeldIn(s'.workers, id)
  {
    hide Do, Inv;
    var s0, before :| Initial(s0) && Perform(s0, before) == Some(s);
    RunInv(s0, before);
    RunAccounted(s0, before, id);
    StrandedStays(s, acts, id);
  }
}

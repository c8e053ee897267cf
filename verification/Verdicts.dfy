/** What the providers answered: a job is put to a provider by the worker that claimed it and by no other, once, and
  the answer on record is the one that worker acts on. */
module Verdicts {
  import opened Wrappers
  import opened Database
  import opened WorkerProgram
  import opened Protocol

  /** The provider's result for this job, as recorded. */
  ghost predicate Got(a: Audit, id: nat, out: Output) {
    id in a.answers && a.answers[id].verdict == Gave(out)
  }

  /** The recorded answer is one that worker's providers may give for the job's own input. */
  ghost predicate AnswerOwn(a: Audit, id: nat)
    requires id in a.answers
  {
    id in a.record &&
    (a.answers[id].verdict.Gave? ==> OwnResult(a.answers[id].from, a.record[id], a.answers[id].verdict))
  }

  /** Only claimed jobs have been put to a provider, each with its own input. */
  ghost predicate AnswersOk(db: Db, a: Audit) {
    forall id :: id in a.answers ==> AnswerOwn(a, id) && (id in db.jobs ==> db.jobs[id].status != Pending)
  }

  /** A worker's verdict on a job it holds is the recorded one. */
  ghost predicate VerdictOn(a: Audit, ws: Worker, id: nat) {
    && (id in ws.verdicts <==> id in a.answers)
    && (id in ws.verdicts ==> ws.verdicts[id] == a.answers[id].verdict)
  }

  /** And past the first stage of a delivery there is a result. */
  ghost predicate VerdictsOk(a: Audit, ws: Worker) {
    && (forall i :: 0 <= i < |ws.todo| ==> VerdictOn(a, ws, ws.todo[i].id))
    && (ws.stage != Ready ==> ws.todo != [] && ws.todo[0].id in ws.verdicts && ws.verdicts[ws.todo[0].id].Gave?)
  }

  lemma AskedAreHeld(todo: seq<ClaimedJob>)
    requires todo != []
    ensures forall x :: x in Asked(todo) ==> x in todo
    ensures Ids(Asked(todo)) <= Ids(todo)
  {
    OnlyMembers(todo, Embed);
    forall id | id in Ids(Asked(todo)) ensures id in Ids(todo) {
      var i :| 0 <= i < |Asked(todo)| && Asked(todo)[i].id == id;
      assert Asked(todo)[i] in todo;
      var j :| 0 <= j < |todo| && todo[j] == Asked(todo)[i];
    }
  }

  lemma AnswersAreForHeld(ws: Worker, ev: Event)
    requires ev.Produced? && WorkerProgram.Step(ws, ev).Some?
    ensures ev.answers.Keys <= Ids(ws.todo) && ev.answers.Keys !! ws.verdicts.Keys
    ensures WorkerProgram.Step(ws, ev).value == ws.(verdicts := ws.verdicts + ev.answers)
  {
    AskedAreHeld(ws.todo);
  }

  /** What a provider gives for a job of the list is that job's own result. */
  lemma AnswersAreOwn(ws: Worker, ev: Event, i: nat)
    requires ev.Produced? && WorkerProgram.Step(ws, ev).Some? && Distinct(ws.todo)
    requires i < |ws.todo| && ws.todo[i].id in ev.answers && ev.answers[ws.todo[i].id].Gave?
    ensures OwnResult(ws.models, ws.todo[i], ev.answers[ws.todo[i].id])
  {
    hide Asked, Only, OwnResult;
    var asked := Asked(ws.todo);
    AskedAreHeld(ws.todo);
    assert ws.todo[i].id in Ids(asked);
    var k :| 0 <= k < |asked| && asked[k].id == ws.todo[i].id;
    assert asked[k] in ws.todo;
    assert asked[k] == ws.todo[i];
  }

  // ---- Each worker's own verdicts --------------------------------------------------------------------

  lemma SameAnswers(a: Audit, a': Audit, ws: Worker, ws': Worker)
    requires VerdictsOk(a, ws) && a'.answers == a.answers && ws'.todo == ws.todo && ws'.verdicts == ws.verdicts
    requires ws'.stage != Ready ==> ws.todo != [] && ws.todo[0].id in ws.verdicts && ws.verdicts[ws.todo[0].id].Gave?
    ensures VerdictsOk(a', ws')
  {
    forall i | 0 <= i < |ws.todo| ensures VerdictOn(a', ws', ws.todo[i].id) {
      assert VerdictOn(a, ws, ws.todo[i].id);
    }
  }

  lemma NextVerdicts(a: Audit, a': Audit, ws: Worker, ws': Worker)
    requires VerdictsOk(a, ws) && a'.answers == a.answers && ws'.verdicts == ws.verdicts
    requires ws.todo != [] && ws'.todo == ws.todo[1..] && ws'.stage == Ready
    ensures VerdictsOk(a', ws')
  {
    forall i | 0 <= i < |ws'.todo| ensures VerdictOn(a', ws', ws'.todo[i].id) {
      assert VerdictOn(a, ws, ws.todo[i + 1].id);
    }
  }

  lemma ClaimedVerdicts(db: Db, a: Audit, ws: Worker, ev: Event)
    requires CanAct(db, ws, ev) && AnswersOk(db, a) && ev.Claimed? && ev.jobs != []
    ensures VerdictsOk(a, WorkerProgram.Step(ws, ev).value)
  {
    var ws' := WorkerProgram.Step(ws, ev).value;
    assert ws'.todo == Split(ev.jobs) && ws'.stage == Ready && ws'.verdicts == map[];
    hide WorkerProgram.Step, Genuine, Exec, Owns, AnswerOwn;
    ClaimOwned(db, ev);
    forall i | 0 <= i < |ws'.todo| ensures VerdictOn(a, ws', ws'.todo[i].id) {
      assert db.jobs[ws'.todo[i].id].status == Pending;
    }
  }

  lemma ProducedVerdicts(a: Audit, a': Audit, ws: Worker, answers: map<nat, Verdict>)
    requires VerdictsOk(a, ws) && answers.Keys !! ws.verdicts.Keys
    requires a'.answers == AnswersOf(ws.models, answers) + a.answers
    ensures VerdictsOk(a', ws.(verdicts := ws.verdicts + answers))
  {
    var ws' := ws.(verdicts := ws.verdicts + answers);
    forall i | 0 <= i < |ws.todo| ensures VerdictOn(a', ws', ws.todo[i].id) {
      assert VerdictOn(a, ws, ws.todo[i].id);
    }
  }

  /** But for a claim and a provider's answer, a statement leaves the verdicts alone, and a delivery starts only from a
      result. */
  lemma VerdictShape(ws: Worker, ev: Event)
    requires !ev.Produced? && (ev.Claimed? ==> ev.jobs == []) && WorkerProgram.Step(ws, ev).Some?
    ensures var ws' := WorkerProgram.Step(ws, ev).value;
      && ws'.verdicts == ws.verdicts
      && (ev.Claimed? ==> ws' == ws)
      && (ws'.todo == ws.todo && ws'.stage != Ready && ws'.stage != ws.stage ==>
            ws.todo != [] && ws.todo[0].id in ws.verdicts && ws.verdicts[ws.todo[0].id].Gave?)
  {
  }

  lemma ObserveAnswers(a: Audit, db: Db, ws: Worker, ev: Event, db': Db)
    ensures var a' := Observe(a, db, ws, ev, db');
      && a'.answers == (if ev.Produced? then AnswersOf(ws.models, ev.answers) + a.answers else a.answers)
      && a'.record == NewRecord(a.record, db') && a.refreshLost <= a'.refreshLost && a.everWatched == a'.everWatched
  {
  }

  lemma OwnVerdicts(db: Db, a: Audit, ws: Worker, ev: Event)
    requires CanAct(db, ws, ev) && VerdictsOk(a, ws) && AnswersOk(db, a)
    ensures VerdictsOk(Observe(a, db, ws, ev, Exec(db, ev)), WorkerProgram.Step(ws, ev).value)
  {
    hide WorkerProgram.Step, Genuine, Exec, Owns, VerdictsOk, AnswersOk, Observe;
    var a', ws' := Observe(a, db, ws, ev, Exec(db, ev)), WorkerProgram.Step(ws, ev).value;
    ObserveAnswers(a, db, ws, ev, Exec(db, ev));
    if ev.Claimed? && ev.jobs != [] {
      ClaimedVerdicts(db, a, ws, ev);
      ReadyVerdicts(a, a', ws', ev, ws);
    } else if ev.Produced? {
      AnswersAreForHeld(ws, ev);
      ProducedVerdicts(a, a', ws, ev.answers);
    } else {
      VerdictShape(ws, ev);
      RestVerdicts(db, a, a', ws, ev);
    }
  }

  lemma ReadyVerdicts(a: Audit, a': Audit, ws': Worker, ev: Event, ws: Worker)
    requires VerdictsOk(a, ws') && a'.answers == a.answers
    requires ev.Claimed? && ev.jobs != [] && WorkerProgram.Step(ws, ev) == Some(ws')
    ensures VerdictsOk(a', ws')
  {
    assert ws'.stage == Ready;
    hide WorkerProgram.Step;
    SameAnswers(a, a', ws', ws');
  }

  lemma RestVerdicts(db: Db, a: Audit, a': Audit, ws: Worker, ev: Event)
    requires VerdictsOk(a, ws) && a'.answers == a.answers
    requires !ev.Produced? && (ev.Claimed? ==> ev.jobs == []) && WorkerProgram.Step(ws, ev).Some?
    ensures VerdictsOk(a', WorkerProgram.Step(ws, ev).value)
  {
    hide WorkerProgram.Step, VerdictOn;
    var ws' := WorkerProgram.Step(ws, ev).value;
    VerdictShape(ws, ev);
    if ws'.todo == ws.todo {
      SameAnswers(a, a', ws, ws');
    } else {
      StepShape(db, ws, ev);
      NextVerdicts(a, a', ws, ws');
    }
  }

  /** Answers for this worker's jobs are not about anyone else's. */
  lemma OtherVerdicts(db: Db, a: Audit, ws: Worker, ev: Event, vs: Worker)
    requires CanAct(db, ws, ev) && VerdictsOk(a, vs) && Ids(vs.todo) !! Ids(ws.todo)
    ensures VerdictsOk(Observe(a, db, ws, ev, Exec(db, ev)), vs)
  {
    hide WorkerProgram.Step, Genuine, Exec, Owns, Observe;
    var a' := Observe(a, db, ws, ev, Exec(db, ev));
    ObserveAnswers(a, db, ws, ev, Exec(db, ev));
    if ev.Produced? {
      AnswersAreForHeld(ws, ev);
      forall i | 0 <= i < |vs.todo| ensures VerdictOn(a', vs, vs.todo[i].id) {
        assert vs.todo[i].id in Ids(vs.todo);
        assert VerdictOn(a, vs, vs.todo[i].id);
      }
    } else {
      SameAnswers(a, a', vs, vs);
    }
  }

  // ---- All answers on record ---------------------------------------------------------------------------

  lemma ActAnswer(db: Db, a: Audit, ws: Worker, ev: Event, id: nat)
    requires CanAct(db, ws, ev) && AnswersOk(db, a) && OnRecord(db, a.record)
    requires id in Observe(a, db, ws, ev, Exec(db, ev)).answers
    ensures id in Exec(db, ev).jobs ==> Exec(db, ev).jobs[id].status != Pending
    ensures AnswerOwn(Observe(a, db, ws, ev, Exec(db, ev)), id)
  {
    hide WorkerProgram.Step, Genuine, Exec, Observe, StatusSet, Dropped, JobsEffect, Lawful, OwnResult, NewRecord;
    var db', a' := Exec(db, ev), Observe(a, db, ws, ev, Exec(db, ev));
    ActEffect(db, ws, ev);
    ObserveAnswers(a, db, ws, ev, db');
    RecordKeptAt(db, a.record, db', StatusSet(db, ev), Dropped(db, ev), id);
    EffectIds(db, db', StatusSet(db, ev), Dropped(db, ev), id);
    LawfulAt(db, StatusSet(db, ev), id);
    if id in a.answers {
      assert AnswerOwn(a, id);
    } else {
      NewAnswer(db, ws, ev, id);
    }
  }

  lemma LawfulAt(db: Db, statuses: map<nat, Status>, id: nat)
    requires Lawful(db, statuses)
    ensures id in statuses ==> statuses[id] != Pending && id in db.jobs
  {
  }

  /** A new answer is for a job in hand, which is processing. */
  lemma NewAnswer(db: Db, ws: Worker, ev: Event, id: nat)
    requires CanAct(db, ws, ev) && ev.Produced? && id in ev.answers
    ensures id in db.jobs && db.jobs[id].status == Processing
    ensures ev.answers[id].Gave? ==> OwnResult(ws.models, ClaimOf(id, db.jobs[id]), ev.answers[id])
  {
    AnswersAreForHeld(ws, ev);
    var i :| 0 <= i < |ws.todo| && ws.todo[i].id == id;
    assert ClaimOf(id, db.jobs[id]) == ws.todo[i];
    if ev.answers[id].Gave? {
      AnswersAreOwn(ws, ev, i);
    }
  }

  lemma ActAnswers(db: Db, a: Audit, ws: Worker, ev: Event)
    requires CanAct(db, ws, ev) && AnswersOk(db, a) && OnRecord(db, a.record)
    ensures AnswersOk(Exec(db, ev), Observe(a, db, ws, ev, Exec(db, ev)))
  {
    hide CanAct, Exec, Observe, AnswerOwn;
    forall id | id in Observe(a, db, ws, ev, Exec(db, ev)).answers
      ensures AnswerOwn(Observe(a, db, ws, ev, Exec(db, ev)), id)
      ensures id in Exec(db, ev).jobs ==> Exec(db, ev).jobs[id].status != Pending
    {
      ActAnswer(db, a, ws, ev, id);
    }
  }

  /** What clients do answers nothing. */
  lemma ClientAnswers(db: Db, a: Audit, db': Db, a': Audit)
    requires Numbered(db) && JobsEffect(db, db', map[], {}) && AnswersOk(db, a) && OnRecord(db, a.record)
    requires a'.answers == a.answers && a'.record == NewRecord(a.record, db')
    ensures AnswersOk(db', a')
  {
    hide JobsEffect, NewRecord, OwnResult;
    forall id | id in a.answers ensures AnswerOwn(a', id) && (id in db'.jobs ==> db'.jobs[id].status != Pending) {
      assert AnswerOwn(a, id);
      RecordKeptAt(db, a.record, db', map[], {}, id);
      EffectIds(db, db', map[], {}, id);
    }
  }
}

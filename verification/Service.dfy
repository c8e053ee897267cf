/** The protocol can do its work: from every initial state, any text with an embedding can be served. */
module Service {
  import opened Wrappers
  import opened Database
  import opened WritebackSql
  import opened WorkerProgram
  import opened Protocol

  function AdHoc(id: nat, text: string): ClaimedJob {
    ClaimedJob(id, None, text, Embed, None)
  }

  lemma OneJob(job: ClaimedJob)
    ensures Split([job]) == [job] && (job.jobType == Embed ==> Asked([job]) == [job])
  {
    assert [job][..0] == [];
    assert Only([job], job.jobType) == Only([], job.jobType) + [job];
    var other := if job.jobType == Embed then Generate else Embed;
    assert Only([job], other) == Only([], other) + [];
  }

  /** One more action of a run. */
  lemma OneMore(s: State, acts: seq<Action>, t: State, act: Action) returns (acts': seq<Action>, t': State)
    requires Perform(s, acts) == Some(t) && Do(t, act).Some?
    ensures Perform(s, acts') == Some(t') && Do(t, act) == Some(t')
    ensures acts' != [] && acts'[0] == if acts == [] then act else acts[0]
  {
    hide Do;
    acts', t' := acts + [act], Do(t, act).value;
    assert acts'[..|acts|] == acts;
  }

  lemma ActDoes(s: State, w: nat, ev: Event)
    requires w in s.workers && Genuine(s.db, ev) && WorkerProgram.Step(s.workers[w], ev).Some?
    ensures Do(s, Act(w, ev)).Some?
    ensures var t := Do(s, Act(w, ev)).value;
      t.db == Exec(s.db, ev) && t.workers == s.workers[w := WorkerProgram.Step(s.workers[w], ev).value]
  {
  }

  /** One pending job with this text, and nothing else in the queue. */
  ghost predicate Waiting(db: Db, text: string, now: nat) {
    db.jobs == map[0 := FreshJob(NewJob(Embed, None, text, None), now)]
  }

  lemma Enqueues(s: State, text: string)
    requires Initial(s)
    ensures Do(s, Client(EmbedAsync(text))).Some?
    ensures var t := Do(s, Client(EmbedAsync(text))).value; Waiting(t.db, text, s.db.now) && t.workers == map[]
  {
    var news := [NewJob(Embed, None, text, None)];
    assert forall id: nat :: id in FreshIds(0, 1) <==> id == 0;
    assert EnqueueAll(s.db, news).jobs == map[0 := FreshJob(news[0], s.db.now)];
  }

  lemma Starts(m: Models, s: State)
    requires s.workers == map[]
    ensures Do(s, Start(0, m)).Some?
    ensures var t := Do(s, Start(0, m)).value; t.db == s.db && t.workers == map[0 := Fresh(m, Keyed(s.db.watched))]
  {
  }

  lemma Claims(m: Models, s: State, text: string, now: nat)
    requires Waiting(s.db, text, now) && 0 in s.workers && s.workers[0].todo == [] && s.workers[0].written == 0
    ensures var act := Act(0, Claimed(1, {}, [AdHoc(0, text)]));
      && Do(s, act).Some?
      && var t := Do(s, act).value;
         && 0 in t.db.jobs && 0 in t.workers
         && t.workers[0].stage == Ready && t.workers[0].todo == [AdHoc(0, text)] && t.workers[0].verdicts == map[]
         && t.workers[0].models == s.workers[0].models
  {
    hide Do;
    var jobs := [AdHoc(0, text)];
    assert jobs[0].id in Ids(jobs) && Ids(jobs) == {0};
    assert PendingIds(s.db) - {} == {0};
    OneJob(jobs[0]);
    assert Genuine(s.db, Claimed(1, {}, jobs));
    hide Genuine, PendingIds, Split;
    ActDoes(s, 0, Claimed(1, {}, jobs));
  }

  lemma Answered(m: Models, s: State, text: string)
    requires 0 in s.workers && s.workers[0].stage == Ready && s.workers[0].todo == [AdHoc(0, text)]
    requires s.workers[0].models == m
    requires s.workers[0].verdicts == map[] && m.embed(text) != []
    ensures var act := Act(0, Produced(map[0 := Gave(VectorOut(m.embed(text)))]));
      && Do(s, act).Some?
      && var t := Do(s, act).value;
         && t.db == s.db && 0 in t.workers && t.workers[0].todo == s.workers[0].todo && t.workers[0].stage == Ready
         && t.workers[0].verdicts == map[0 := Gave(VectorOut(m.embed(text)))] && t.workers[0].models == m
  {
    hide Do;
    var todo := s.workers[0].todo;
    OneJob(todo[0]);
    assert todo[0].id in Ids(todo) && Ids(todo) == {0};
    var answers := map[0 := Gave(VectorOut(m.embed(text)))];
    assert Answers(m, todo, answers);
    assert map[] + answers == answers;
    hide Answers, Asked;
    ActDoes(s, 0, Produced(answers));
  }

  lemma Writes(m: Models, s: State, text: string)
    requires 0 in s.db.jobs && 0 in s.workers && s.workers[0].stage == Ready && s.workers[0].todo == [AdHoc(0, text)]
    requires s.workers[0].models == m
    requires s.workers[0].verdicts == map[0 := Gave(VectorOut(m.embed(text)))] && m.embed(text) != []
    ensures var act := Act(0, WroteAdHoc(0, VectorOut(m.embed(text)), true));
      && Do(s, act).Some?
      && var t := Do(s, act).value;
         && 0 in t.db.jobs && t.db.jobs[0].status == Done && t.db.jobs[0].result == Some(VectorOut(m.embed(text)))
         && 0 in t.workers && t.workers[0].todo == []
  {
    assert [AdHoc(0, text)][1..] == [];
    hide Do;
    ActDoes(s, 0, WroteAdHoc(0, VectorOut(m.embed(text)), true));
  }

  /** embed_async(text), a worker, a claim, an answer, a write: the job is done with the text's embedding. */
  lemma AnyTextCanBeServed(m: Models, s: State, text: string) returns (acts: seq<Action>)
    requires Initial(s) && m.embed(text) != []
    ensures Perform(s, acts).Some? && acts != [] && acts[0] == Client(EmbedAsync(text))
    ensures var t := Perform(s, acts).value;
      Reachable(t) && 0 in t.db.jobs && t.db.jobs[0].status == Done
      && t.db.jobs[0].result == Some(VectorOut(m.embed(text)))
  {
    var a, b := Client(EmbedAsync(text)), Start(0, m);
    var c := Act(0, Claimed(1, {}, [AdHoc(0, text)]));
    var d := Act(0, Produced(map[0 := Gave(VectorOut(m.embed(text)))]));
    var e := Act(0, WroteAdHoc(0, VectorOut(m.embed(text)), true));
    assert Perform(s, []) == Some(s);
    Enqueues(s, text);
    hide Do, Perform, Waiting, Initial;
    var t: State;
    acts, t := OneMore(s, [], s, a);
    Starts(m, t);
    acts, t := OneMore(s, acts, t, b);
    Claims(m, t, text, s.db.now);
    acts, t := OneMore(s, acts, t, c);
    Answered(m, t, text);
    acts, t := OneMore(s, acts, t, d);
    Writes(m, t, text);
    acts, t := OneMore(s, acts, t, e);
    IsReachable(s, acts, t);
  }

  lemma IsReachable(s: State, acts: seq<Action>, t: State)
    requires Initial(s) && Perform(s, acts) == Some(t)
    ensures Reachable(t)
  {
  }
}

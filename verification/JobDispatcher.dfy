/** The two dispatchers of src/job_dispatcher.cpp, proved to follow the worker automaton. */
module JobDispatcher {
  import opened Wrappers
  import opened Database
  import opened WorkerProgram
  import opened JS = JobStore
  import WC = WatchCache
  import Chunking
  import Llama = LlamaProvider
  import Generation

  /** What came of the i-th of n texts of one embed_batch call. */
  function VerdictOf(r: Result<seq<Vec>, ()>, n: nat, i: nat): Verdict {
    match r
    case Err(_) => Failed(ProviderThrew)
    case Ok(vectors) =>
      if |vectors| != n || i >= n then Failed(SizeMismatch)
      else if vectors[i] == [] then Failed(NoResult)
      else Gave(VectorOut(vectors[i]))
  }

  /** The same for the first k jobs, under their ids. */
  function Verdicts(jobs: seq<ClaimedJob>, r: Result<seq<Vec>, ()>, k: nat): map<nat, Verdict>
    requires k <= |jobs|
  {
    if k == 0 then map[] else Verdicts(jobs, r, k - 1)[jobs[k - 1].id := VerdictOf(r, |jobs|, k - 1)]
  }

  lemma {:induction false} VerdictsByJob(jobs: seq<ClaimedJob>, r: Result<seq<Vec>, ()>, k: nat)
    requires Distinct(jobs) && k <= |jobs|
    ensures forall id :: id in Verdicts(jobs, r, k) <==> exists i :: 0 <= i < k && jobs[i].id == id
    ensures forall i :: 0 <= i < k ==> Verdicts(jobs, r, k)[jobs[i].id] == VerdictOf(r, |jobs|, i)
  {
    if k > 0 {
      VerdictsByJob(jobs, r, k - 1);
    }
  }

  /** Entry i belongs to job i, so each job gets the verdict on its own text. */
  lemma EmbedAnswers(m: Models, jobs: seq<ClaimedJob>, texts: seq<string>, r: Result<seq<Vec>, ()>,
                     answers: map<nat, Verdict>)
    requires |texts| == |jobs|
    requires forall i :: 0 <= i < |jobs| ==> jobs[i].jobType == Embed && texts[i] == jobs[i].inputText
    requires r.Ok? && |r.value| == |texts| ==> OwnOrEmpty(m, texts, r.value)
    requires answers.Keys == Ids(jobs)
    requires forall i :: 0 <= i < |jobs| ==> answers[jobs[i].id] == VerdictOf(r, |jobs|, i)
    ensures Answers(m, jobs, answers)
  {
    if r.Ok? && |r.value| == |jobs| {
      forall i | 0 <= i < |jobs|
        ensures answers[jobs[i].id] == Failed(NoResult) || OwnResult(m, jobs[i], answers[jobs[i].id])
      {
        assert answers[jobs[i].id] == VerdictOf(r, |jobs|, i);
      }
    }
  }

  function TextVerdict(r: Result<string, ()>): Verdict {
    match r
    case Err(_) => Failed(ProviderThrew)
    case Ok(text) => if text == "" then Failed(NoResult) else Gave(TextOut(text))
  }

  /** An embedding provider: it may throw, or return any number of vectors; where it returns one per text,
      each is the text's own embedding or empty.  A complete one always returns one per text. */
  class EmbeddingProvider {
    const m: Models
    const complete: bool

    constructor (m: Models, complete: bool)
      ensures this.m == m && this.complete == complete
    {
      this.m, this.complete := m, complete;
    }

    /** The answer goes on record, unless it is no vectors at all. */
    method EmbedBatch(texts: seq<string>, ghost pg: Postgres, ghost jobs: seq<ClaimedJob>)
      returns (r: Result<seq<Vec>, ()>)
      modifies pg`log
      ensures r.Ok? && |r.value| == |texts| ==> OwnOrEmpty(m, texts, r.value)
      ensures r.Ok? && complete ==> |r.value| == |texts|
      ensures pg.log == old(pg.log) +
        if r.Ok? && r.value == [] then [] else [Sent(pg.db, Produced(Verdicts(jobs, r, |jobs|)))]
    {
      var throws: bool := *;
      var vectors: seq<Vec> := [];
      for i := 0 to |texts|
        invariant |vectors| == i
        invariant forall k :: 0 <= k < i ==> vectors[k] == [] || vectors[k] == m.embed(texts[k])
      {
        var produced: bool := *;
        vectors := vectors + [if produced then m.embed(texts[i]) else []];
      }
      var other: seq<Vec> := *;
      r := if throws then Err(()) else Ok(if complete || |other| == |texts| then vectors else other);
      if r.Err? || r.value != [] {
        pg.Note(Verdicts(jobs, r, |jobs|));
      }
    }
  }

  ghost predicate OwnOrEmpty(m: Models, texts: seq<string>, vectors: seq<Vec>)
    requires |vectors| == |texts|
  {
    forall i :: 0 <= i < |texts| ==> vectors[i] == [] || vectors[i] == m.embed(texts[i])
  }

  /** The llama provider is complete, and each entry is the text's own embedding or empty. */
  lemma LlamaIsComplete(m: Models, model: Llama.Model, l: Chunking.Limits, nCtx: nat, texts: seq<string>,
                        oks: seq<bool>, results: seq<Vec>)
    requires model.Valid() && l.Valid()
    requires forall t :: m.embed(t) == Llama.Embed(model, nCtx, t, true)
    requires Llama.Delivered(model, l, Llama.TokenizeAll(model, nCtx, texts), oks, results)
    ensures |results| == |texts| && OwnOrEmpty(m, texts, results)
  {
    forall i | 0 <= i < |texts| ensures results[i] == [] || results[i] == m.embed(texts[i]) {
      var c := Llama.BatchedRefinesPointwise(model, l, nCtx, texts, oks, results, i);
      assert m.embed(texts[i]) == Llama.Embed(model, nCtx, texts[i], true);
    }
  }

  /** Some seed makes this the complete text for the prompt and the limit. */
  ghost predicate MayWrite(sampler: Generation.Sampler, prompt: seq<int>, limit: int, text: string) {
    exists seed, tokens ::
      Generation.Complete(sampler, seed, prompt, limit, tokens) && text == Generation.Pieces(sampler, tokens)
  }

  /** What the llama generation provider returns is among the texts it may produce for its prompt and limit. */
  lemma LlamaMayGenerate(m: Models, sampler: Generation.Sampler, templated: string -> seq<int>, seed: nat, nCtx: nat,
                         prompt: string, limit: int, decodes: seq<bool>, text: string)
    requires forall p, k, t :: m.mayGenerate(p, k, t) <==> MayWrite(sampler, templated(p), k, t)
    requires Generation.IntArgs(templated(prompt), limit)
    requires Generation.Outcome(sampler, seed, nCtx, templated(prompt), limit, decodes, Ok(text))
    ensures m.mayGenerate(prompt, limit, text)
  {
    assert MayWrite(sampler, templated(prompt), limit, text);
  }

  class GenerationProvider {
    const m: Models

    constructor (m: Models)
      ensures this.m == m
    {
      this.m := m;
    }

    method Generate(prompt: string, maxTokens: int, ghost pg: Postgres, ghost id: nat) returns (r: Result<string, ()>)
      modifies pg`log
      ensures r.Ok? ==> m.mayGenerate(prompt, maxTokens, r.value)
      ensures pg.log == old(pg.log) + [Sent(pg.db, Produced(map[id := TextVerdict(r)]))]
    {
      var throws: bool, text: string := *, *;
      r := if throws || !m.mayGenerate(prompt, maxTokens, text) then Err(()) else Ok(text);
      pg.Note(map[id := TextVerdict(r)]);
    }
  }

  /** For whom and since when a piece of the worker's run is followed, and what the providers have answered. */
  datatype Context = Context(m: Models, o: Origin, verdicts: map<nat, Verdict>)

  /** The worker's objects, seen as a state of its automaton. */
  ghost function View(m: Models, store: JobStore, mappings: WC.WatchCache, verdicts: map<nat, Verdict>,
                      todo: seq<ClaimedJob>, stage: Stage, written: nat): Worker
    reads store, mappings
  {
    Worker(m, mappings.byKey, mappings.refreshed, mappings.lost, store.sql, todo, verdicts,
           stage, written, mappings.batches)
  }

  /** Everything sent since the origin follows the automaton, which now is before `todo`. */
  ghost predicate At(x: Context, store: JobStore, mappings: WC.WatchCache, todo: seq<ClaimedJob>, stage: Stage,
                     written: nat)
    reads store, mappings, store.pg
  {
    && mappings.store == store && mappings.Valid() && Filed(store.pg.db.watched)
    && Conforms(x.o, store.pg.log, View(x.m, store, mappings, x.verdicts, todo, stage, written))
  }

  /** The provider gave the job this result, and it is its own. */
  ghost predicate Given(x: Context, job: ClaimedJob, out: Output) {
    job.id in x.verdicts && x.verdicts[job.id] == Gave(out) && MayResult(x.m, job, out) && !out.Empty()
  }

  /** The write of finish_write() for an ad hoc job: into the job's own row, which also finishes it. */
  method WriteRow(store: JobStore, ghost mappings: WC.WatchCache, id: nat, out: Output,
                  ghost x: Context, ghost todo: seq<ClaimedJob>, ghost written: nat)
    returns (ok: bool)
    requires At(x, store, mappings, todo, Ready, written)
    requires todo != [] && todo[0].id == id && todo[0].source.None? && Given(x, todo[0], out)
    modifies store.pg
    ensures if ok then At(x, store, mappings, todo[1..], Ready, written + 1)
            else At(x, store, mappings, todo, Failing, written)
  {
    hide Conforms;
    ghost var ws, log := View(x.m, store, mappings, x.verdicts, todo, Ready, written), store.pg.log;
    ok := store.WriteAdHocResult(id, out);
    ConformsSteps(x.o, log, ws, store.pg.log[|log|]);
  }

  /** The write of finish_write() for a mapped job: into the target table, status untouched. */
  method WriteTable(store: JobStore, ghost mappings: WC.WatchCache, mapping: Mapping, sourceId: int, out: Output,
                    ghost x: Context, ghost todo: seq<ClaimedJob>, ghost written: nat)
    returns (ok: bool)
    requires At(x, store, mappings, todo, Ready, written)
    requires todo != [] && todo[0].source.Some? && Given(x, todo[0], out)
    requires sourceId == todo[0].source.value.id
    requires JobKey(todo[0]) in mappings.byKey && mapping == mappings.byKey[JobKey(todo[0])]
    modifies store.pg, store`sql
    ensures At(x, store, mappings, todo, if ok then Written else Failing, written)
  {
    hide Conforms;
    ghost var ws, log := View(x.m, store, mappings, x.verdicts, todo, Ready, written), store.pg.log;
    ok := store.WriteBack(mapping, sourceId, out);
    ConformsSteps(x.o, log, ws, store.pg.log[|log|]);
  }

  method Done(store: JobStore, ghost mappings: WC.WatchCache, jobId: nat,
              ghost x: Context, ghost todo: seq<ClaimedJob>, ghost written: nat)
    requires At(x, store, mappings, todo, Written, written)
    requires todo != [] && todo[0].id == jobId
    modifies store.pg
    ensures At(x, store, mappings, todo[1..], Ready, written + 1)
  {
    hide Conforms;
    ghost var ws, log := View(x.m, store, mappings, x.verdicts, todo, Written, written), store.pg.log;
    var _ := store.MarkDone(jobId);
    ConformsSteps(x.o, log, ws, store.pg.log[|log|]);
  }

  /** A job that gets no write, or whose write failed, is marked with the reason. */
  method GiveUp(store: JobStore, ghost mappings: WC.WatchCache, jobId: nat, reason: Reason,
                ghost x: Context, ghost todo: seq<ClaimedJob>, ghost written: nat)
    requires At(x, store, mappings, todo, if reason == WriteFailed then Failing else Ready, written)
    requires todo != [] && todo[0].id == jobId
    requires reason == WriteFailed || GivesUp(View(x.m, store, mappings, x.verdicts, todo, Ready, written), reason)
    modifies store.pg
    ensures At(x, store, mappings, todo[1..], Ready, written)
  {
    hide Conforms;
    ghost var stage := if reason == WriteFailed then Failing else Ready;
    ghost var ws, log := View(x.m, store, mappings, x.verdicts, todo, stage, written), store.pg.log;
    var _ := store.MarkError(jobId, reason);
    ConformsSteps(x.o, log, ws, store.pg.log[|log|]);
  }

  /** finish_write(): the write, then done for a mapped job; a failed write ends in an error. */
  method FinishWrite(store: JobStore, ghost mappings: WC.WatchCache, jobId: nat, written: nat, markDoneAfter: bool,
                     target: Target, out: Output, ghost x: Context, ghost todo: seq<ClaimedJob>,
                     ghost base: nat)
    returns (written': nat)
    requires At(x, store, mappings, todo, Ready, base + written)
    requires todo != [] && todo[0].id == jobId && Given(x, todo[0], out)
    requires match target
      case JobRow(id) => id == jobId && todo[0].source.None? && !markDoneAfter
      case Mapped(mapping, sourceId) =>
        && markDoneAfter && todo[0].source.Some? && sourceId == todo[0].source.value.id
        && JobKey(todo[0]) in mappings.byKey && mapping == mappings.byKey[JobKey(todo[0])]
    modifies store.pg, store`sql
    ensures At(x, store, mappings, todo[1..], Ready, base + written')
  {
    hide Conforms;
    written' := written;
    var ok;
    match target {
      case JobRow(id) => ok := WriteRow(store, mappings, id, out, x, todo, base + written);
      case Mapped(mapping, sourceId) =>
        ok := WriteTable(store, mappings, mapping, sourceId, out, x, todo, base + written);
    }
    if ok {
      if markDoneAfter {
        Done(store, mappings, jobId, x, todo, base + written);
      }
      written' := written + 1;
    } else {
      GiveUp(store, mappings, jobId, WriteFailed, x, todo, base + written);
    }
  }

  /** mappings.find() on behalf of the first job of the list. */
  method Lookup(store: JobStore, mappings: WC.WatchCache, job: ClaimedJob,
                ghost x: Context, ghost todo: seq<ClaimedJob>, ghost written: nat)
    returns (it: Option<Mapping>)
    requires At(x, store, mappings, todo, Ready, written)
    requires todo != [] && todo[0] == job && job.source.Some?
    modifies store.pg, mappings`byKey, mappings`loaded, mappings`refreshed, mappings`lost, mappings`reloads
    ensures At(x, store, mappings, todo, Ready, written)
    ensures it == (if JobKey(job) in mappings.byKey then Some(mappings.byKey[JobKey(job)]) else None)
    ensures it.None? ==> mappings.refreshed
  {
    hide Conforms;
    ghost var ws, log := View(x.m, store, mappings, x.verdicts, todo, Ready, written), store.pg.log;
    ghost var hit := JobKey(job) in mappings.byKey || mappings.refreshed;
    it := mappings.Find(job.source.value.table, job.jobType);
    if !hit {
      ConformsSteps(x.o, log, ws, store.pg.log[|log|]);
    }
  }

  /** The shared tail of both dispatchers: the result of one job goes to its row or to its mapped table. */
  method Deliver(store: JobStore, mappings: WC.WatchCache, job: ClaimedJob, out: Output, written: nat,
                 ghost x: Context, ghost todo: seq<ClaimedJob>, ghost base: nat)
    returns (written': nat)
    requires At(x, store, mappings, todo, Ready, base + written)
    requires todo != [] && todo[0] == job && Given(x, job, out)
    modifies store.pg, store`sql, mappings`byKey, mappings`loaded, mappings`refreshed, mappings`lost, mappings`reloads
    ensures At(x, store, mappings, todo[1..], Ready, base + written')
  {
    hide Conforms;
    if job.source.None? {
      written' := FinishWrite(store, mappings, job.id, written, false, JobRow(job.id), out, x, todo, base);
    } else {
      written' := DeliverMapped(store, mappings, job, out, written, x, todo, base);
    }
  }

  method DeliverMapped(store: JobStore, mappings: WC.WatchCache, job: ClaimedJob, out: Output, written: nat,
                       ghost x: Context, ghost todo: seq<ClaimedJob>, ghost base: nat)
    returns (written': nat)
    requires At(x, store, mappings, todo, Ready, base + written)
    requires todo != [] && todo[0] == job && job.source.Some? && Given(x, job, out)
    modifies store.pg, store`sql, mappings`byKey, mappings`loaded, mappings`refreshed, mappings`lost, mappings`reloads
    ensures At(x, store, mappings, todo[1..], Ready, base + written')
  {
    hide Conforms;
    var it := Lookup(store, mappings, job, x, todo, base + written);
    if it.None? {
      GiveUp(store, mappings, job.id, NoWatch, x, todo, base + written);
      written' := written;
    } else {
      written' := FinishWrite(store, mappings, job.id, written, true, Mapped(it.value, job.source.value.id), out,
                              x, todo, base);
    }
  }

  lemma Peel(jobs: seq<ClaimedJob>, i: nat, rest: seq<ClaimedJob>)
    requires i < |jobs|
    ensures (jobs[i..] + rest)[0] == jobs[i] && (jobs[i..] + rest)[1..] == jobs[i + 1..] + rest
  {
  }

  /** The embed jobs come first, so one call asks for exactly them. */
  lemma {:induction false} EmbedJobsAsked(jobs: seq<ClaimedJob>, rest: seq<ClaimedJob>)
    requires forall i :: 0 <= i < |jobs| ==> jobs[i].jobType == Embed
    requires forall i :: 0 <= i < |rest| ==> rest[i].jobType == Generate
    ensures Only(jobs + rest, Embed) == jobs
    decreases |jobs| + |rest|
  {
    var all := jobs + rest;
    if rest != [] {
      assert all[..|all| - 1] == jobs + rest[..|rest| - 1];
      EmbedJobsAsked(jobs, rest[..|rest| - 1]);
    } else if jobs != [] {
      assert all[..|all| - 1] == jobs[..|jobs| - 1] + [];
      EmbedJobsAsked(jobs[..|jobs| - 1], []);
    }
  }

  /** The automaton takes note of what the provider returned for the whole batch. */
  lemma EmbedAnswered(x: Context, log: seq<Sent>, ws: Worker, before: Db, jobs: seq<ClaimedJob>, rest: seq<ClaimedJob>,
                      answers: map<nat, Verdict>)
    requires Conforms(x.o, log, ws) && ws.models == x.m && Busy(ws, Ready) && ws.todo == jobs + rest && jobs != []
    requires forall i :: 0 <= i < |jobs| ==> jobs[i].jobType == Embed
    requires forall i :: 0 <= i < |rest| ==> rest[i].jobType == Generate
    requires Answers(x.m, jobs, answers) && ws.verdicts.Keys !! Ids(jobs)
    ensures Conforms(x.o, log + [Sent(before, Produced(answers))], ws.(verdicts := ws.verdicts + answers))
  {
    EmbedJobsAsked(jobs, rest);
    assert Asked(ws.todo) == jobs;
    hide Conforms, Answers, Only;
    ConformsSteps(x.o, log, ws, Sent(before, Produced(answers)));
  }

  lemma TextAnswered(x: Context, log: seq<Sent>, ws: Worker, before: Db, r: Result<string, ()>)
    requires Conforms(x.o, log, ws) && ws.models == x.m
    requires Busy(ws, Ready) && ws.todo[0].jobType == Generate && x.m.generates
    requires ws.todo[0].id !in ws.verdicts && (r.Ok? ==> MayResult(x.m, ws.todo[0], TextOut(r.value)))
    ensures var answers := map[ws.todo[0].id := TextVerdict(r)];
      Conforms(x.o, log + [Sent(before, Produced(answers))], ws.(verdicts := ws.verdicts + answers))
  {
    var answers := map[ws.todo[0].id := TextVerdict(r)];
    var asked := [ws.todo[0]];
    assert asked[0].id in Ids(asked);
    assert Answers(x.m, asked, answers);
    hide Conforms, Answers;
    ConformsSteps(x.o, log, ws, Sent(before, Produced(answers)));
  }

  /** The call for a whole batch of texts, of which the automaton takes note. */
  method AskForVectors(store: JobStore, provider: EmbeddingProvider, ghost mappings: WC.WatchCache, texts: seq<string>,
                       ghost jobs: seq<ClaimedJob>, ghost x: Context, ghost rest: seq<ClaimedJob>, ghost base: nat)
    returns (r: Result<seq<Vec>, ()>, ghost verdicts: map<nat, Verdict>)
    requires At(x, store, mappings, jobs + rest, Ready, base) && provider.m == x.m && jobs != []
    requires |texts| == |jobs| && forall i :: 0 <= i < |jobs| ==> texts[i] == jobs[i].inputText
    requires forall i :: 0 <= i < |jobs| ==> jobs[i].jobType == Embed
    requires forall i :: 0 <= i < |rest| ==> rest[i].jobType == Generate
    requires Distinct(jobs) && x.verdicts.Keys !! Ids(jobs)
    modifies store.pg
    ensures At(x.(verdicts := verdicts), store, mappings, jobs + rest, Ready, base)
    ensures r.Ok? && |r.value| == |texts| ==> OwnOrEmpty(x.m, texts, r.value)
    ensures r.Ok? && provider.complete ==> |r.value| == |texts|
    ensures if r.Ok? && r.value == [] then unchanged(store.pg) && verdicts == x.verdicts
            else
              && verdicts.Keys == x.verdicts.Keys + Ids(jobs)
              && forall i :: 0 <= i < |jobs| ==> verdicts[jobs[i].id] == VerdictOf(r, |jobs|, i)
  {
    hide Conforms, Answers;
    verdicts := x.verdicts;
    ghost var ws, log := View(x.m, store, mappings, x.verdicts, jobs + rest, Ready, base), store.pg.log;
    r := provider.EmbedBatch(texts, store.pg, jobs);
    if r.Ok? && r.value == [] {
      assert store.pg.log == log;
    } else {
      ghost var answers := Verdicts(jobs, r, |jobs|);
      VerdictsByJob(jobs, r, |jobs|);
      assert answers.Keys == Ids(jobs);
      EmbedAnswers(x.m, jobs, texts, r, answers);
      EmbedAnswered(x, log, ws, store.pg.db, jobs, rest, answers);
      verdicts := x.verdicts + answers;
    }
  }

  /** One batch call for all jobs, then one delivery per job.  The count is that of the jobs written.  The one
      way to leave jobs untouched is a provider that returns no vectors at all. */
  method DispatchEmbedJobs(store: JobStore, provider: EmbeddingProvider, mappings: WC.WatchCache, jobs: seq<ClaimedJob>,
                           ghost x: Context, ghost rest: seq<ClaimedJob>, ghost base: nat)
    returns (written: nat, ghost skipped: bool, ghost verdicts: map<nat, Verdict>, ghost answer: Result<seq<Vec>, ()>)
    requires At(x, store, mappings, jobs + rest, Ready, base) && provider.m == x.m
    requires forall i :: 0 <= i < |jobs| ==> jobs[i].jobType == Embed
    requires forall i :: 0 <= i < |rest| ==> rest[i].jobType == Generate
    requires Distinct(jobs) && x.verdicts.Keys !! Ids(jobs)
    modifies store.pg, store`sql, mappings`byKey, mappings`loaded, mappings`refreshed, mappings`lost, mappings`reloads
    ensures At(x.(verdicts := verdicts), store, mappings, if skipped then jobs + rest else rest, Ready, base + written)
    ensures verdicts.Keys == x.verdicts.Keys + if skipped then {} else Ids(jobs)
    ensures provider.complete || jobs == [] ==> !skipped
    ensures skipped ==> written == 0 && unchanged(store.pg)
    ensures jobs != [] ==> (skipped <==> answer == Ok([]))
    ensures answer.Ok? && |answer.value| == |jobs| ==>
      forall i :: 0 <= i < |jobs| ==> answer.value[i] == [] || answer.value[i] == x.m.embed(jobs[i].inputText)
    ensures jobs != [] && !skipped ==> forall i :: 0 <= i < |jobs| ==>
      jobs[i].id in verdicts && verdicts[jobs[i].id] ==
        if answer.Err? then Failed(ProviderThrew)
        else if |answer.value| != |jobs| then Failed(SizeMismatch)
        else if answer.value[i] == [] then Failed(NoResult)
        else Gave(VectorOut(answer.value[i]))
  {
    hide Conforms;
    written, skipped, verdicts, answer := 0, false, x.verdicts, Ok([]);
    assert jobs + rest == rest || jobs != [];
    if jobs == [] { return; }
    var texts := [];
    for i := 0 to |jobs|
      invariant |texts| == i && forall k :: 0 <= k < i ==> texts[k] == jobs[k].inputText
    {
      texts := texts + [jobs[i].inputText];
    }
    var r;
    r, verdicts := AskForVectors(store, provider, mappings, texts, jobs, x, rest, base);
    answer := r;
    ghost var y := x.(verdicts := verdicts);
    if r.Err? {
      FailAll(store, mappings, jobs, ProviderThrew, y, rest, base);
      return;
    }
    var vectors := r.value;
    if vectors != [] && |vectors| != |jobs| {
      FailAll(store, mappings, jobs, SizeMismatch, y, rest, base);
      return;
    }
    skipped := vectors == [];
    if vectors != [] {
      written := DeliverVectors(store, mappings, jobs, vectors, y, rest, base);
    }
  }

  /** The loop over the vectors: entry i to job i. */
  method DeliverVectors(store: JobStore, mappings: WC.WatchCache, jobs: seq<ClaimedJob>, vectors: seq<Vec>,
                        ghost x: Context, ghost rest: seq<ClaimedJob>, ghost base: nat)
    returns (written: nat)
    requires At(x, store, mappings, jobs + rest, Ready, base) && |vectors| == |jobs|
    requires forall i :: 0 <= i < |jobs| ==>
      && jobs[i].jobType == Embed && (vectors[i] == [] || vectors[i] == x.m.embed(jobs[i].inputText))
      && jobs[i].id in x.verdicts && x.verdicts[jobs[i].id] == VerdictOf(Ok(vectors), |jobs|, i)
    modifies store.pg, store`sql, mappings`byKey, mappings`loaded, mappings`refreshed, mappings`lost, mappings`reloads
    ensures At(x, store, mappings, rest, Ready, base + written)
  {
    hide Conforms;
    written := 0;
    assert jobs[0..] == jobs && jobs[|jobs|..] + rest == rest;
    for i := 0 to |vectors|
      invariant At(x, store, mappings, jobs[i..] + rest, Ready, base + written)
    {
      var job := jobs[i];
      Peel(jobs, i, rest);
      if vectors[i] == [] {
        GiveUp(store, mappings, job.id, NoResult, x, jobs[i..] + rest, base + written);
        continue;
      }
      written := Deliver(store, mappings, job, VectorOut(vectors[i]), written, x, jobs[i..] + rest, base);
    }
  }

  method FailAll(store: JobStore, ghost mappings: WC.WatchCache, jobs: seq<ClaimedJob>, reason: Reason,
                 ghost x: Context, ghost rest: seq<ClaimedJob>, ghost base: nat)
    requires At(x, store, mappings, jobs + rest, Ready, base) && (reason == ProviderThrew || reason == SizeMismatch)
    requires forall i :: 0 <= i < |jobs| ==> jobs[i].id in x.verdicts && x.verdicts[jobs[i].id] == Failed(reason)
    modifies store.pg
    ensures At(x, store, mappings, rest, Ready, base)
  {
    hide Conforms;
    assert jobs[0..] == jobs && jobs[|jobs|..] + rest == rest;
    for i := 0 to |jobs|
      invariant At(x, store, mappings, jobs[i..] + rest, Ready, base)
    {
      Peel(jobs, i, rest);
      GiveUp(store, mappings, jobs[i].id, reason, x, jobs[i..] + rest, base);
    }
  }

  /** How a provider's answer for one prompt is judged. */
  ghost predicate TextJudged(m: Models, defaultMaxTokens: int, job: ClaimedJob, answer: Result<string, ()>,
                             v: Verdict) {
    match answer
    case Err(_) => v == Failed(ProviderThrew)
    case Ok(text) =>
      && m.mayGenerate(job.inputText, if job.maxTokens.Some? then job.maxTokens.value else defaultMaxTokens, text)
      && v == if text == "" then Failed(NoResult) else Gave(TextOut(text))
  }

  /** One call and one delivery per job: a failure stays with its job. */
  method DispatchGenerateJobs(store: JobStore, provider: GenerationProvider?, defaultMaxTokens: int,
                              mappings: WC.WatchCache, jobs: seq<ClaimedJob>, ghost x: Context, ghost base: nat)
    returns (written: nat, ghost verdicts: map<nat, Verdict>, ghost answers: seq<Result<string, ()>>)
    requires At(x, store, mappings, jobs, Ready, base) && defaultMaxTokens == x.m.maxTokens
    requires (provider != null <==> x.m.generates) && (provider != null ==> provider.m == x.m)
    requires forall i :: 0 <= i < |jobs| ==> jobs[i].jobType == Generate
    requires Distinct(jobs) && x.verdicts.Keys !! Ids(jobs)
    modifies store.pg, store`sql, mappings`byKey, mappings`loaded, mappings`refreshed, mappings`lost, mappings`reloads
    ensures At(x.(verdicts := verdicts), store, mappings, [], Ready, base + written)
    ensures provider == null ==> verdicts == x.verdicts
    ensures provider != null ==> |answers| == |jobs| && forall i :: 0 <= i < |jobs| ==>
      && jobs[i].id in verdicts
      && match answers[i]
         case Err(_) => verdicts[jobs[i].id] == Failed(ProviderThrew)
         case Ok(text) =>
           && (jobs[i].maxTokens.Some? ==> provider.m.mayGenerate(jobs[i].inputText, jobs[i].maxTokens.value, text))
           && (jobs[i].maxTokens.None? ==> provider.m.mayGenerate(jobs[i].inputText, defaultMaxTokens, text))
           && verdicts[jobs[i].id] == if text == "" then Failed(NoResult) else Gave(TextOut(text))
  {
    hide Conforms, At;
    written, verdicts, answers := 0, x.verdicts, [];
    assert jobs[0..] == jobs;
    for i := 0 to |jobs|
      invariant At(x.(verdicts := verdicts), store, mappings, jobs[i..], Ready, base + written)
      invariant forall k :: i <= k < |jobs| ==> jobs[k].id !in verdicts
      invariant provider == null ==> verdicts == x.verdicts
      invariant provider != null ==> |answers| == i && forall k :: 0 <= k < i ==>
        jobs[k].id in verdicts && TextJudged(provider.m, defaultMaxTokens, jobs[k], answers[k], verdicts[jobs[k].id])
    {
      var job := jobs[i];
      assert jobs[i..][1..] == jobs[i + 1..];
      if provider == null {
        GiveUp(store, mappings, job.id, NoProvider, x.(verdicts := verdicts), jobs[i..], base + written);
        continue;
      }
      var maxTokens := if job.maxTokens.Some? then job.maxTokens.value else defaultMaxTokens;
      var r;
      r, verdicts := AskForText(store, provider, mappings, job, maxTokens, x.(verdicts := verdicts),
                                 jobs[i..], base + written);
      answers := answers + [r];
      if r.Err? {
        GiveUp(store, mappings, job.id, ProviderThrew, x.(verdicts := verdicts), jobs[i..], base + written);
        continue;
      }
      if r.value == "" {
        GiveUp(store, mappings, job.id, NoResult, x.(verdicts := verdicts), jobs[i..], base + written);
        continue;
      }
      written := Deliver(store, mappings, job, TextOut(r.value), written, x.(verdicts := verdicts), jobs[i..], base);
    }
  }

  /** The call for one prompt, of which the automaton takes note. */
  method AskForText(store: JobStore, provider: GenerationProvider, ghost mappings: WC.WatchCache, job: ClaimedJob,
                    maxTokens: int, ghost x: Context, ghost todo: seq<ClaimedJob>, ghost written: nat)
    returns (r: Result<string, ()>, ghost verdicts: map<nat, Verdict>)
    requires At(x, store, mappings, todo, Ready, written) && provider.m == x.m && x.m.generates
    requires todo != [] && todo[0] == job && job.jobType == Generate && job.id !in x.verdicts
    requires maxTokens == if job.maxTokens.Some? then job.maxTokens.value else x.m.maxTokens
    modifies store.pg
    ensures At(x.(verdicts := verdicts), store, mappings, todo, Ready, written)
    ensures verdicts == x.verdicts + map[job.id := TextVerdict(r)]
    ensures r.Ok? ==> MayResult(x.m, job, TextOut(r.value))
  {
    hide Conforms;
    ghost var ws, log := View(x.m, store, mappings, x.verdicts, todo, Ready, written), store.pg.log;
    r := provider.Generate(job.inputText, maxTokens, store.pg, job.id);
    TextAnswered(x, log, ws, store.pg.db, r);
    verdicts := x.verdicts + map[job.id := TextVerdict(r)];
  }
}

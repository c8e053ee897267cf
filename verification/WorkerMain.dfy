/** The main loop of src/worker_main.cpp: claim, split by type, dispatch, notify, purge. */
module WorkerMain {
  import opened Wrappers
  import opened Database
  import opened WritebackSql
  import opened WorkerProgram
  import opened JobStore
  import opened JobDispatcher
  import opened Retention
  import WC = WatchCache

  /** kPurgeCheckInterval, in seconds. */
  const PURGE_CHECK_INTERVAL: nat := 60

  lemma OnlySnoc(jobs: seq<ClaimedJob>, i: nat, t: JobType)
    requires i < |jobs|
    ensures Only(jobs[..i + 1], t) == Only(jobs[..i], t) + if jobs[i].jobType == t then [jobs[i]] else []
  {
    assert jobs[..i + 1][..i] == jobs[..i];
  }

  /** The worker process after startup. */
  class MainLoop {
    const m: Models
    const store: JobStore
    const provider: EmbeddingProvider
    const genProvider: GenerationProvider?
    const mappings: WC.WatchCache
    const maxBatchSize: nat
    /** The retention setting, and what it was parsed to at startup. */
    const purgeAfter: string
    const purgeInterval: Option<string>
    var lastPurgeCheck: nat
    /** The providers' answers of the last batch. */
    ghost var verdicts: map<nat, Verdict>

    ghost predicate Equipped()
      reads this
    {
      && provider.m == m && provider.complete && purgeInterval == ParsePurgeAfter(purgeAfter)
      && (genProvider != null <==> m.generates) && (genProvider != null ==> genProvider.m == m)
    }

    /** Between two turns: nothing in hand, and everything sent since the origin follows the automaton. */
    ghost predicate Idle(o: Origin)
      reads this, store, store.pg, mappings
    {
      Equipped() && At(Context(m, o, verdicts), store, mappings, [], Ready, 0)
    }

    /** Startup reads the mappings and ends the process if it cannot.  The worker then is in the state in which
        the protocol starts workers. */
    constructor (m: Models, pg: Postgres, provider: EmbeddingProvider, genProvider: GenerationProvider?,
                 mappings: WC.WatchCache, maxBatchSize: nat, purgeAfter: string, now: nat)
      requires provider.m == m && provider.complete
      requires (genProvider != null <==> m.generates) && (genProvider != null ==> genProvider.m == m)
      requires mappings.store.pg == pg && mappings.Valid() && mappings.loaded.Some? && !mappings.refreshed
      requires mappings.batches == 0 && mappings.store.sql == map[] && Filed(pg.db.watched)
      ensures this.m == m && this.store == mappings.store && this.mappings == mappings && lastPurgeCheck == now
      ensures this.maxBatchSize == maxBatchSize && this.purgeAfter == purgeAfter
      ensures purgeInterval == ParsePurgeAfter(purgeAfter)
      ensures Idle(Origin(pg.log, Fresh(m, Keyed(mappings.loaded.value))))
    {
      this.m, this.store, this.provider := m, mappings.store, provider;
      this.genProvider, this.mappings := genProvider, mappings;
      this.maxBatchSize, this.purgeAfter, this.lastPurgeCheck := maxBatchSize, purgeAfter, now;
      this.purgeInterval := ParsePurgeAfter(purgeAfter);
      this.verdicts := map[];
      new;
      ConformsAtOrigin(Origin(pg.log, View(m, store, mappings, map[], [], Ready, 0)));
    }

    /** The claimed jobs by type, in the order they were returned. */
    method SplitByType(claimed: seq<ClaimedJob>) returns (embedJobs: seq<ClaimedJob>, generateJobs: seq<ClaimedJob>)
      ensures embedJobs == Only(claimed, Embed) && generateJobs == Only(claimed, Generate)
    {
      embedJobs, generateJobs := [], [];
      for i := 0 to |claimed|
        invariant embedJobs == Only(claimed[..i], Embed) && generateJobs == Only(claimed[..i], Generate)
      {
        OnlySnoc(claimed, i, Embed);
        OnlySnoc(claimed, i, Generate);
        if claimed[i].jobType == Generate {
          generateJobs := generateJobs + [claimed[i]];
        } else {
          embedJobs := embedJobs + [claimed[i]];
        }
      }
      assert claimed[..|claimed|] == claimed;
    }

    /** A claim has been recorded; its batch has not begun. */
    ghost predicate Holding(o: Origin, claimed: seq<ClaimedJob>)
      reads this, store, store.pg, mappings
    {
      && Equipped() && Distinct(claimed)
      && mappings.store == store && mappings.Valid() && Filed(store.pg.db.watched)
      && Conforms(o, store.pg.log,
           View(m, store, mappings, map[], Split(claimed), Ready, 0)
             .(refreshed := false, lost := false, batches := mappings.batches + 1))
    }

    /** The claim attempt, which is the first thing a turn sends. */
    ghost predicate ClaimSent(log: seq<Sent>, log': seq<Sent>, claimed: Result<seq<ClaimedJob>, ()>) {
      && |log| < |log'| && log == log'[..|log|]
      && match (log'[|log|].ev, claimed)
         case (Claimed(limit, _, jobs), Ok(js)) => limit == maxBatchSize && jobs == js
         case (ClaimFailed(limit), Err(_)) => limit == maxBatchSize
         case _ => false
    }

    /** One turn's batch.  It attempts one claim; if that yields jobs, exactly one batch is begun and ended: by the
        automaton all its jobs are resolved, and what was written has been notified. */
    method Batch(ghost o: Origin) returns (claimed: Result<seq<ClaimedJob>, ()>)
      requires Idle(o)
      modifies this`verdicts, store`sql, store.pg, mappings
      ensures Idle(o) && ClaimSent(old(store.pg.log), store.pg.log, claimed)
      ensures mappings.batches == old(mappings.batches) + if claimed.Ok? && claimed.value != [] then 1 else 0
    {
      claimed := Claim(o);
      if claimed.Ok? && claimed.value != [] {
        Dispatch(claimed.value, o);
      }
    }

    method Claim(ghost o: Origin) returns (claimed: Result<seq<ClaimedJob>, ()>)
      requires Idle(o)
      modifies store.pg
      ensures if claimed.Err? || claimed.value == [] then Idle(o) else Holding(o, claimed.value)
      ensures ClaimSent(old(store.pg.log), store.pg.log, claimed)
    {
      hide Conforms;
      ghost var ws, log := View(m, store, mappings, verdicts, [], Ready, 0), store.pg.log;
      ghost var locked;
      claimed, locked := store.ClaimPending(maxBatchSize);
      ConformsSteps(o, log, ws, store.pg.log[|log|]);
    }

    method Dispatch(claimed: seq<ClaimedJob>, ghost o: Origin)
      requires Holding(o, claimed)
      modifies this`verdicts, store`sql, store.pg, mappings
      ensures Idle(o) && mappings.batches == old(mappings.batches) + 1
      ensures old(store.pg.log) <= store.pg.log
    {
      hide Conforms;
      mappings.BeginBatch();
      ghost var here := Origin(store.pg.log, View(m, store, mappings, map[], Split(claimed), Ready, 0));
      ConformsAtOrigin(here);
      var written := DispatchByType(claimed, here);
      Grown(here, store.pg.log, View(m, store, mappings, verdicts, [], Ready, written));
      ConformsOn(o, here.log, here.ws, store.pg.log, View(m, store, mappings, verdicts, [], Ready, written));
      if written > 0 {
        Notify(o, written);
      }
    }

    /** The embed jobs, then the generate jobs; the sum of what was written. */
    method DispatchByType(claimed: seq<ClaimedJob>, ghost here: Origin) returns (written: nat)
      requires Equipped() && Distinct(claimed)
      requires At(Context(m, here, map[]), store, mappings, Split(claimed), Ready, 0)
      modifies this`verdicts, store`sql, store.pg
      modifies mappings`byKey, mappings`loaded, mappings`refreshed, mappings`lost, mappings`reloads
      ensures Equipped() && At(Context(m, here, verdicts), store, mappings, [], Ready, written)
    {
      hide At;
      var embedJobs, generateJobs := SplitByType(claimed);
      SplitShapes(claimed);
      ghost var skipped, vs, answer, answers;
      var n, k;
      n, skipped, vs, answer := DispatchEmbedJobs(store, provider, mappings, embedJobs,
                                                   Context(m, here, map[]), generateJobs, 0);
      k, vs, answers := DispatchGenerateJobs(store, genProvider, m.maxTokens, mappings, generateJobs,
                                              Context(m, here, vs), n);
      verdicts := vs;
      written := n + k;
      assert At(Context(m, here, vs), store, mappings, [], Ready, written);
    }

    method Notify(ghost o: Origin, written: nat)
      requires Equipped() && written > 0 && At(Context(m, o, verdicts), store, mappings, [], Ready, written)
      modifies store.pg
      ensures Idle(o) && old(store.pg.log) <= store.pg.log
    {
      hide Conforms;
      ghost var ws, log := View(m, store, mappings, verdicts, [], Ready, written), store.pg.log;
      var _ := store.NotifyJobs(written);
      ConformsSteps(o, log, ws, store.pg.log[|log|]);
    }

    /** A purge of what is older than the setting says, if retention is enabled and the last check is
        long enough ago. */
    method Sweep(now: nat, ghost o: Origin) returns (swept: bool)
      requires Idle(o)
      modifies this`lastPurgeCheck, store.pg
      ensures Idle(o)
      ensures swept <==> Due(purgeAfter, old(lastPurgeCheck), now)
      ensures lastPurgeCheck == if swept then now else old(lastPurgeCheck)
      ensures if swept then
                && PurgeAge(purgeAfter).Some?
                && exists ok ::
                     Ran(old(store.pg.log), store.pg.log, store.pg.db, Purged(PurgeAge(purgeAfter).value, ok))
              else unchanged(store.pg)
    {
      hide Conforms;
      swept := false;
      PurgeAgeIsSetting(purgeAfter);
      AcceptsExactly(purgeAfter);
      if purgeInterval.Some? && Enabled(purgeAfter) && now - lastPurgeCheck >= PURGE_CHECK_INTERVAL {
        swept := true;
        lastPurgeCheck := now;
        ghost var ws, log := View(m, store, mappings, verdicts, [], Ready, 0), store.pg.log;
        var _ := store.PurgeDone(purgeInterval.value);
        ConformsSteps(o, log, ws, store.pg.log[|log|]);
      }
    }

    /** Any number of turns, until the shutdown signal; a turn whose claim fails ends there.  All that the process
        ever sends follows the automaton, and it sweeps when a sweep is due and at no other time. */
    method Run(turns: nat, clock: nat -> nat, ghost o: Origin) returns (ghost claims: seq<bool>, ghost sweeps: seq<nat>)
      requires Idle(o)
      modifies this`verdicts, this`lastPurgeCheck, store`sql, store.pg, mappings
      ensures Idle(o) && |claims| == turns && sweeps == Sweeps(purgeAfter, old(lastPurgeCheck), clock, claims)
      ensures |store.pg.log| >= |old(store.pg.log)| + turns
    {
      hide Conforms;
      claims, sweeps := [], [];
      for turn := 0 to turns
        invariant Idle(o) && |claims| == turn && sweeps == Sweeps(purgeAfter, old(lastPurgeCheck), clock, claims)
        invariant lastPurgeCheck == LastOf(old(lastPurgeCheck), sweeps)
        invariant |store.pg.log| >= |old(store.pg.log)| + turn
      {
        var claimed := Batch(o);
        SweepsSnoc(purgeAfter, old(lastPurgeCheck), clock, claims, claimed.Ok?);
        claims := claims + [claimed.Ok?];
        if claimed.Err? { continue; }
        var now := clock(turn);
        var swept := Sweep(now, o);
        if swept { sweeps := sweeps + [now]; }
      }
    }
  }

  lemma Grown(o: Origin, log: seq<Sent>, ws: Worker)
    requires Conforms(o, log, ws)
    ensures o.log <= log
  {
  }

  lemma SplitShapes(claimed: seq<ClaimedJob>)
    requires Distinct(claimed)
    ensures var a, b := Only(claimed, Embed), Only(claimed, Generate);
      && (forall i :: 0 <= i < |a| ==> a[i].jobType == Embed) && (forall i :: 0 <= i < |b| ==> b[i].jobType == Generate)
      && Distinct(a) && Distinct(b) && Ids(a) !! Ids(b)
  {
    OnlyDistinct(claimed, Embed);
    OnlyDistinct(claimed, Generate);
    var a, b := Only(claimed, Embed), Only(claimed, Generate);
    forall i | 0 <= i < |a| ensures a[i] in claimed && a[i].jobType == Embed {
      OnlyMembers(claimed, Embed);
      assert a[i] in a;
    }
    forall i | 0 <= i < |b| ensures b[i] in claimed && b[i].jobType == Generate {
      OnlyMembers(claimed, Generate);
      assert b[i] in b;
    }
    hide Only;
    forall i, j | 0 <= i < |a| && 0 <= j < |b| ensures a[i].id != b[j].id {
      if a[i].id == b[j].id { SameIdSameJob(claimed, a[i], b[j]); }
    }
  }

  lemma SameIdSameJob(jobs: seq<ClaimedJob>, x: ClaimedJob, y: ClaimedJob)
    requires Distinct(jobs) && x in jobs && y in jobs && x.id == y.id
    ensures x == y
  {
  }

  // ---- When the worker purges --------------------------------------------------------------------------

  predicate Due(purgeAfter: string, last: nat, now: nat) {
    PurgeAge(purgeAfter).Some? && now - last >= PURGE_CHECK_INTERVAL
  }

  function LastOf(start: nat, sweeps: seq<nat>): nat {
    if sweeps == [] then start else sweeps[|sweeps| - 1]
  }

  /** The times at which the turns sweep, by which of their claims succeeded. */
  function Sweeps(purgeAfter: string, start: nat, clock: nat -> nat, claims: seq<bool>): seq<nat> {
    if claims == [] then []
    else
      var turn := |claims| - 1;
      var before := Sweeps(purgeAfter, start, clock, claims[..turn]);
      if claims[turn] && Due(purgeAfter, LastOf(start, before), clock(turn)) then before + [clock(turn)] else before
  }

  lemma SweepsSnoc(purgeAfter: string, start: nat, clock: nat -> nat, claims: seq<bool>, ok: bool)
    ensures var before := Sweeps(purgeAfter, start, clock, claims);
      Sweeps(purgeAfter, start, clock, claims + [ok])
      == if ok && Due(purgeAfter, LastOf(start, before), clock(|claims|)) then before + [clock(|claims|)] else before
  {
    assert (claims + [ok])[..|claims|] == claims;
  }

  /** Sweeps never come closer together than a minute, only turns that got their claim through sweep, and none of those
      lets a due sweep pass: after it, the last sweep is less than a minute ago. */
  lemma {:induction false} SweepsAreSpaced(purgeAfter: string, start: nat, clock: nat -> nat, claims: seq<bool>)
    ensures var sweeps := Sweeps(purgeAfter, start, clock, claims);
      && (PurgeAge(purgeAfter).None? ==> sweeps == [])
      && (sweeps != [] ==> start + 60 <= sweeps[0])
      && (forall i :: 0 < i < |sweeps| ==> sweeps[i - 1] + 60 <= sweeps[i])
      && (forall i :: 0 <= i < |sweeps| ==>
            exists turn :: 0 <= turn < |claims| && claims[turn] && sweeps[i] == clock(turn))
      && (PurgeAge(purgeAfter).Some? && claims != [] && claims[|claims| - 1] ==>
            clock(|claims| - 1) - LastOf(start, sweeps) < 60)
  {
    if claims != [] {
      var front := claims[..|claims| - 1];
      SweepsAreSpaced(purgeAfter, start, clock, front);
      var before, sweeps := Sweeps(purgeAfter, start, clock, front), Sweeps(purgeAfter, start, clock, claims);
      forall i | 0 <= i < |sweeps|
        ensures exists turn :: 0 <= turn < |claims| && claims[turn] && sweeps[i] == clock(turn)
      {
        if i < |before| {
          var turn :| 0 <= turn < |front| && front[turn] && before[i] == clock(turn);
          assert claims[turn] == front[turn];
        }
      }
    }
  }
}

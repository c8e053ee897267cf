# pgquarry: a verified model

pgquarry is a job queue inside Postgres with a C++ worker. SQL functions and triggers put texts into
`pgquarry.jobs`; workers claim rows, run an embedding or a text model over them, write the results back into the
users' tables (or into the job row, for ad hoc calls), and mark the rows done or error.

This project models the queue, the worker and its providers in Dafny and proves what they keep over every run.
`dafny verify dfyconfig.toml` checks all of it.

## How it fits together

| files | what they model |
|---|---|
| `Chunking`, `LlamaProvider`, `Sizing` | batched embedding: packing under two limits, batch layout, scattering, context sizing |
| `Generation` | the autoregressive token loop |
| `Decimals`, `Database`, `Registration`, `WritebackSql` | the tables, triggers and statements; `watch()` histories; the statement builders and the composite keys |
| `WorkerProgram` | one worker as an automaton over the statements it sends and the answers it gets |
| `JobStore`, `WatchCache`, `JobDispatcher`, `WorkerMain` | the worker's own code, imperative, proved to follow that automaton while anyone else changes the tables between its statements |
| `Weaving` | that code placed in the protocol: what it sends is a protocol run |
| `Protocol`, `Verdicts`, `ProtocolSafety`, `Resolution`, `Records` | any number of workers, clients, crashes and ticks, interleaved statement by statement; what holds in every reachable state |
| `LatestWins`, `InSync` | one worker at a time: the newest result stands, and the target column follows the source column |
| `Drain`, `Descent` | one worker left alone: the queue drains |
| `Service` | from every initial state any text with an embedding can be served |
| `Polling`, `Retention` | the synchronous SQL calls; the retention setting |

The bridge between code and protocol has three parts. Each method of the dispatchers and of the main loop keeps
`Conforms`: the statements it has sent are what the automaton may send, each with an answer the tables allowed at
that moment, whatever happened to the tables in between. `Weaving.ConformingCodeIsInProtocol` turns such a record,
with the others' actions in its gaps, into a run of the protocol. And the theorems about reachable states then hold
of it. The automaton pins the code down: which provider answer, which lookup and which failed write leads to which
mark, in which order, and with which count notified.

The promise of the product, that every change of a watched column gets its vector or text filled in, is
`InSync.TargetFollowsSource`: the newest job of a row carries the text that stands in the row now, and once it has
been written, the target cells hold what was answered for that very job. It rests on the triggers (whoever changes the
text enqueues the job that carries it), on exclusive claims, on the two caches, and on the write-back statements.

An embedding is a function of the text; a generation is not, since each call draws a fresh seed. So whose answer is
whose is told by the job id: the protocol records what each worker's providers answered for each job, and "its own
result" means the answer recorded for that job, which is one its worker's providers may give for its own input (for the
llama provider, a complete generation of its prompt under some seed, `JobDispatcher.LlamaMayGenerate`). Each worker
has its own models and limits, so workers of different configurations may share the queue.

What is assumed:

- Each SQL statement is atomic, and one reported as failed had no effect. The ids of one claim are the lowest
  pending ones not locked by others, and come back in any order (a theorem that needs id order says so).
- llama.cpp is foreign code. Tokenizing is a function of the text and the buffer size; the output for a sequence
  depends only on the tokens held under that sequence and their positions; sampling depends only on the tokens
  decoded so far and on the seed, which is arbitrary for each call; whether an encode or decode call succeeds is
  arbitrary each time.
- An `int` sum that does not fit wraps around. C++ leaves it undefined; the only place where this matters is the
  preflight check of generation. In the embedding provider the sums are proved to fit (see "Left out" for when).
- A `timestamptz` is a natural number, vectors are lists of reals, and a `bigserial` hands out 0, 1, 2, ...

## Findings

Three statements one might expect to hold do not; each is given with the exact condition.

- The "context exceeded mid-generation" check is described as unreachable. It can be reached if and only if prompt
  length plus `max_tokens` does not fit an `int` (`Generation.MidLoopThrowReachable`). At `max_tokens` 2147483647, a
  legal argument of `generate_async`, every generation that does not end by itself ends in it
  (`Generation.LargestLimitThrowsMidLoop`). This takes the sum to wrap, which C++ does not promise.
- Context sizing covers its own worst case if and only if `n_ctx * max(1, batch size)` is below 2^31
  (`Sizing.SizingIsExact`); at 65536 times 32768 every text is dropped (`Sizing.OversizedRequestDropsEverything`).
  Both read the capacities back as requested, that is, provided llama.cpp grants the request unchanged.
- The comment at `sql/pgquarry--1.0.sql:130` says that calling `watch()` after `watch_generate()` goes back to
  embed only. The code leaves the combined trigger in place, and every insert then enqueues the embed job twice.
  Inserts enqueue one job per registered type if and only if that order of calls did not happen
  (`Registration.InsertEnqueuesOncePerType`).

Also worth knowing: a turn whose claim fails skips the purge check (`src/worker_main.cpp:183`), so purging pauses
while claims fail; rows of a crashed worker, or whose last mark failed, stay in `processing` for good
(`Resolution.StrandedForever`); and a mapping that writes into the column it watches re-enqueues itself with every
write-back (`Drain.SelfWatchEchoes`).

## Model

| member | source | states |
|---|---|---|
| Chunking.KeptMembers | src/llama_provider.cpp:262-269 | the texts that reach the model are exactly those that tokenized, are not empty and fit the token capacity |
| Chunking.LongestIsLongest | src/llama_provider.cpp:271-277 | a prefix fits both limits if and only if it is no longer than the prefix the packing takes |
| Chunking.GreedyPartitions | src/llama_provider.cpp:261-282 | every chunk is non-empty and within both limits, and the chunks spell the kept texts in order |
| Chunking.LaterStartNoWorse | src/llama_provider.cpp:261-282 | packing from a later text on never needs more calls |
| Chunking.GreedyIsOptimal | src/llama_provider.cpp:261-282 | no order-preserving partition that respects both limits uses fewer encode calls |
| Chunking.ClosedChunk | src/llama_provider.cpp:273-277 | once the next text does not fit, the open chunk is the first greedy chunk of all that remains |
| LlamaProvider.LayoutPlaces | src/llama_provider.cpp:140-153 | every (sequence, position) pair has its slot, holding that token |
| LlamaProvider.LayoutOwners | src/llama_provider.cpp:140-153 | every slot belongs to exactly the pair it is labelled with, so layout is a bijection |
| LlamaProvider.LayoutSize | src/llama_provider.cpp:244-245 | a batch fills exactly the slots that were counted for it |
| LlamaProvider.SequenceReadsBack | src/llama_provider.cpp:163-166 | each sequence reads back as its own token list, whatever else the batch holds |
| LlamaProvider.LastSlotIsUnique | src/llama_provider.cpp:171-178 | the fallback search condition holds of one slot only: the sequence's final one |
| LlamaProvider.LlamaBatch.Fill | src/llama_provider.cpp:145-151 | one step of the cursor appends one slot, with position within its own sequence and output requested |
| LlamaProvider.LlamaProvider.TokenizeBatch | src/llama_provider.cpp:92-133 | entry i is ok if and only if the library's code for text i is between 0 and n_ctx, and then holds exactly that many tokens of the library's buffer, in order |
| LlamaProvider.LlamaProvider.BuildBatch | src/llama_provider.cpp:135-154 | the parallel arrays hold the layout of the items, skipping those that are not ok or empty |
| LlamaProvider.LlamaProvider.FindLastToken | src/llama_provider.cpp:171-178 | finds the sequence's final slot, and -1 exactly for an item without tokens |
| LlamaProvider.LlamaProvider.ExtractEmbeddings | src/llama_provider.cpp:156-194 | entry s is the embedding of item s on its own, pooled or from its last token, and empty for an item not ok |
| LlamaProvider.LlamaProvider.EmbedOne | src/llama_provider.cpp:196-220 | the pooled output of exactly the tokens the library gave for the text, each at its place, or without one the output at the last place; empty if tokenizing or encoding failed |
| LlamaProvider.LlamaProvider.FlushChunk | src/llama_provider.cpp:239-259 | one encode of the open chunk; its results land at their original indices and no other entry changes |
| LlamaProvider.LlamaProvider.ScatterResults | src/llama_provider.cpp:252-254 | result p goes to the original index of chunk entry p, everything else stays |
| LlamaProvider.LlamaProvider.EmbedBatch | src/llama_provider.cpp:222-286 | the encode calls are exactly the greedy chunks, one call each; a text whose code is positive and within window and capacity gets the vector of exactly its own tokens if its call succeeded, every other entry is empty |
| LlamaProvider.LlamaProvider.NoOverflow | src/llama_provider.cpp:273-280 | where a full chunk plus one window, or all texts together, fit an int, adding a text to the open chunk does not overflow |
| LlamaProvider.BatchedRefinesPointwise | src/llama_provider.cpp:222-286 | entry i is what embed() gives for text i with the outcome of the call that carried it, which is the vector of the tokens the library gave for it, and empty if it was not carried |
| LlamaProvider.BatchedEqualsPointwise | src/embedding_provider.cpp:23-31 | when every text is carried and every call succeeds the batched and the pointwise form return the same list |
| LlamaProvider.PointwiseEmbedBatch | src/embedding_provider.cpp:23-31 | the base class loop: one entry per text, each that text's own embedding |
| Sizing.SizingIsExact | src/llama_provider.cpp:66-72 | full-window texts for all sequences always fit the budget if and only if n_ctx times the batch size, at least 1, is below 2^31 |
| Sizing.OversizedRequestDropsEverything | src/llama_provider.cpp:69-72 | a request of 65536 by 32768 tokens reads back negative, and no text at all is carried |
| Sizing.WrappedRequests | src/llama_provider.cpp:69-72 | a product past 2^32 wraps: 65536 by 65537 comes back as the tokens of one sequence, 65536 by 65536 as none |
| Sizing.CallsRoundsUp | src/llama_provider.cpp:273-277 | the number of calls for n texts of at most k each is n over k rounded up |
| Sizing.CountAlone | src/llama_provider.cpp:273-277 | where the budget never binds, only the number of texts decides where a chunk ends |
| Sizing.ClaimIsOneEncode | src/llama_provider.cpp:233-282 | with the request granted and the product below 2^31, a call of embed_batch drops no text for its length and makes as many encode calls as there are kept texts over n_seq_max, rounded up; for one claim at most one, and no int sum overflows |
| Generation.SampledAt | src/llama_generation_provider.cpp:128-155 | token k is sampled with the seed of the call from the prompt and exactly the first k tokens, and is no end token |
| Generation.CompleteIsUnique | src/llama_generation_provider.cpp:134-158 | a seed, a prompt and a limit have one complete generation |
| Generation.CompleteMeans | src/llama_generation_provider.cpp:134-158 | complete is: every token sampled from the prompt and all before it, none of them an end token or without a piece, and then the limit reached or the next token an end token |
| Generation.PiecesInOrder | src/llama_generation_provider.cpp:149-154 | the response is the pieces of all tokens, in order |
| Generation.ResponseOfSeed | src/llama_generation_provider.cpp:118-158 | two calls that drew the same seed and return normally return the same text, however their decode calls went |
| Generation.MidLoopThrowIsDead | src/llama_generation_provider.cpp:118-139 | if the preflight sum fits an int, the check inside the loop never throws |
| Generation.MidLoopThrowReachable | src/llama_generation_provider.cpp:118-139 | some model, seed and course of decode calls reach the throw inside the loop if and only if the preflight sum does not fit an int |
| Generation.LargestLimitThrowsMidLoop | src/llama_generation_provider.cpp:118-139 | at max_tokens 2147483647 every non-empty prompt passes the preflight check, and a generation that does not end by itself ends in that throw |
| Generation.OverflowReachesMidLoopThrow | src/llama_generation_provider.cpp:118-139 | if the sum wraps, every generation that does not end by itself ends in that throw |
| Generation.LlamaGenerationProvider.Generate | src/llama_generation_provider.cpp:112-158 | a normal return is the text of the one complete generation of the seed drawn, within the window and the limit; a prompt is refused if and only if prompt plus limit exceed the window, where that sum fits an int; every other ending has its own cause |
| Decimals.DigitsReadBack | sql/pgquarry--1.0.sql:70 | what is written for a number is its usual numeral and reads back as that number |
| Database.TextOfReadsBack | sql/pgquarry--1.0.sql:70 | a watched text is taken as it is and a watched number as its numeral; nothing else has a text |
| Database.JobsForRegistered | sql/pgquarry--1.0.sql:58-74 | one job per trigger argument, in order, each for this table and registered |
| Database.FireRegistered | sql/pgquarry--1.0.sql:51-78 | what the triggers of a statement enqueue is for that table, of a fired type, and registered |
| Database.FiredFrom | sql/pgquarry--1.0.sql:58-74 | each job a statement enqueues carries the id and the text of one of the changed rows |
| Database.FiredFor | sql/pgquarry--1.0.sql:58-74 | each changed row gets its job of each fired type, with its id and text |
| Registration.CallRegisters | sql/pgquarry--1.0.sql:89-182 | one call that gives its target columns registers, for each type it gives, its own id, source and target columns, with the target table and id column given or else the watched table's; every other mapping stays, and a call that lacks one changes none |
| Registration.LastCallStands | sql/pgquarry--1.0.sql:107-114 | over any history the last call that gives a type on a table decides its mapping, field by field |
| Registration.NoCallKeeps | sql/pgquarry--1.0.sql:89-182 | without such a call the mapping of a table and type stays as it was |
| Registration.ApplyKeepsConsistent | sql/pgquarry--1.0.sql:89-184 | one call of watch() or watch_generate() keeps triggers and mappings consistent |
| Registration.RegistrationIsConsistent | sql/pgquarry--1.0.sql:89-184 | after every history every trigger argument has a mapping, and every mapping a trigger listening on its column |
| Registration.UnusableRowsRaise | sql/pgquarry--1.0.sql:61-73 | a trigger never raises for a row with an integer id and a text (numbers count as their digits), and raises for one whose text is null or whose id does not cast |
| Registration.MappedColumnFires | sql/pgquarry--1.0.sql:116-120 | an insert, and an update that names a mapped column, enqueues a job of the mapped type |
| Registration.UnnamedUpdateIsQuiet | sql/pgquarry--1.0.sql:116-180 | and conversely, over any history: an update that names none of the columns the calls on its table named is never refused and changes nothing but its row |
| Registration.UpdateEnqueues | sql/pgquarry--1.0.sql:116-182 | exactly how many jobs an update enqueues: one if the table was last registered by watch() on a named column, and two more if the last watch_generate() has a named column |
| Registration.TriggersAfter | sql/pgquarry--1.0.sql:115-120 | which triggers stand after a history: the combined one if watch_generate() was called, the plain one if watch() came last |
| Registration.InsertEnqueuesOncePerType | sql/pgquarry--1.0.sql:116-182 | an insert enqueues one job per registered type if and only if no watch() came last after a watch_generate(); otherwise two embed jobs |
| WritebackSql.BuiltStatementWrites | src/writeback_sql_builder.cpp:13-31 | run, it puts the very vector or text into the target column of the rows with this id and changes nothing else, adding a row only for a separate table without one |
| WritebackSql.WrittenBackHolds | src/writeback_sql_builder.cpp:13-31 | afterwards the cells of this id hold the value, and with a separate table there is such a row |
| WritebackSql.UpdateOfMissingRow | src/writeback_sql_builder.cpp:13-20 | a same-table write for a row that is gone changes nothing and enqueues nothing |
| WritebackSql.KeyInjective | src/watch_cache.cpp:13-16 | two composite keys are equal if and only if table and type are, even for table names that hold the separator |
| WritebackSql.KeyedLookup | src/watch_cache.cpp:21-28 | the keyed view answers for a table and type exactly what watched_tables holds for them |
| WorkerProgram.SplitPartitions | src/worker_main.cpp:198-201 | the type split neither loses nor repeats a claimed job |
| WorkerProgram.ClaimIsOfLowest | src/job_sql.hpp:8-14 | a claim is of pending jobs that nobody has locked, each once; every other such job has a higher id, and there is one only if the limit is reached |
| JobStore.Postgres.SelectClaim | src/job_sql.hpp:8-14 | a claim returns the lowest free pending ids up to the limit, each once, in any order |
| JobStore.LowestIds | src/job_sql.hpp:11-12 | the ids taken are below every free id left, and as many as there are up to the limit |
| JobStore.JobStore.ClaimPending | src/job_store.cpp:34-62 | the claimed rows as they were, now processing; a failed claim changes nothing |
| JobStore.JobStore.WriteBack | src/job_store.cpp:86-133 | runs the cached statement of the mapping's key, or builds and caches it; its success and effect are those of that statement |
| JobStore.JobStore.WriteAdHocResult | src/job_store.cpp:135-164 | status and result in one statement, or no effect |
| JobStore.JobStore.MarkDone | src/job_store.cpp:166-176 | the unguarded status update, or no effect; a failure is not reported |
| JobStore.JobStore.MarkError | src/job_store.cpp:178-188 | the unguarded status and reason update, or no effect; a failure is not reported |
| JobStore.JobStore.LoadWatchedTables | src/job_store.cpp:190-215 | exactly the rows of watched_tables at that moment, in any order |
| JobStore.JobStore.PurgeDone | src/job_store.cpp:229-257 | deletes the done rows older than the interval literal says and returns how many, or fails, as it does for a malformed literal |
| WatchCache.WatchCache.Load | src/watch_cache.cpp:21-28 | the cache becomes the keyed view of the table just read, and is empty after a failed query |
| WatchCache.WatchCache.BeginBatch | src/watch_cache.cpp:30-33 | permits one refresh again and leaves the cache alone |
| WatchCache.WatchCache.Find | src/watch_cache.cpp:35-52 | a lookup in a cache that is empty or the view of the last successful load; a miss reloads at most once per batch |
| JobDispatcher.EmbedAnswers | src/job_dispatcher.cpp:46-68 | entry i of the provider's answer is the verdict on job i and on no other |
| JobDispatcher.LlamaIsComplete | src/llama_provider.cpp:226 | the llama provider returns one entry per text, each that text's own embedding or empty |
| JobDispatcher.FinishWrite | src/job_dispatcher.cpp:21-33 | the write, then done for a mapped job; a failed write ends in an error; only a write counts |
| JobDispatcher.Lookup | src/job_dispatcher.cpp:77-78 | the mapping of the job's own table and type, after at most one refresh |
| JobDispatcher.DispatchEmbedJobs | src/job_dispatcher.cpp:37-89 | takes the automaton past all embed jobs with the count of those written; job i is judged by the provider's answer: thrown, wrong number, entry i empty, or entry i, its own text's vector; jobs stay untouched only if the provider returned no vectors at all |
| JobDispatcher.DispatchGenerateJobs | src/job_dispatcher.cpp:91-134 | takes the automaton past all generate jobs with the count of those written; each gets a non-empty text its provider may generate for its own prompt within its own max_tokens, or without one the default, or has failed |
| WorkerMain.MainLoop.constructor | src/worker_main.cpp:156-170 | after startup the worker is in the state in which the protocol starts workers |
| WorkerMain.MainLoop.SplitByType | src/worker_main.cpp:198-201 | the claimed jobs by type, in the order they came |
| WorkerMain.MainLoop.Batch | src/worker_main.cpp:177-211 | attempts one claim; with jobs, exactly one batch is begun, dispatched to its last job, and notified |
| WorkerMain.MainLoop.Sweep | src/worker_main.cpp:213-226 | purges exactly when retention is enabled and the last check is at least a minute ago, and then what is older than the setting says |
| WorkerMain.MainLoop.Run | src/worker_main.cpp:176-227 | all that the process sends follows the automaton, for any number of turns; a turn whose claim fails does not sweep |
| WorkerMain.SweepsAreSpaced | src/worker_main.cpp:176-226 | sweeps are at least a minute apart, only turns that got their claim through sweep, and none of those lets a due sweep pass |
| Weaving.ConformingCodeIsInProtocol | src/worker_main.cpp:176-211 | conforming code is a participant of the protocol in every environment that keeps to it, so what holds of reachable states holds of it |
| Protocol.LedgerKept | src/job_sql.hpp:8-57 | every statement keeps the ledger: each job ever enqueued is a row with its last status, or was purged when done |
| Protocol.ActOwns | src/job_sql.hpp:8-25 | after any statement a worker's list still holds distinct, processing, unchanged jobs, new ones only from pending |
| Protocol.ExclusiveKept | src/job_sql.hpp:8-25 | exclusive claims survive whatever one worker does |
| Protocol.RecordKept | sql/pgquarry--1.0.sql:14-30 | whatever is done to the jobs, the record of what was enqueued stays and stays true of every row |
| Verdicts.OwnVerdicts | src/job_dispatcher.cpp:46-134 | whatever a worker does, its verdicts on the jobs it holds are the recorded answers, and a delivery is under way only for a job with a result |
| Verdicts.OtherVerdicts | src/job_dispatcher.cpp:46-134 | an answer for one worker's jobs is never about a job another worker holds |
| Verdicts.ActAnswers | src/job_dispatcher.cpp:46-134 | only claimed jobs are ever answered, and each recorded result is one the answering worker's providers may give for the job's own input |
| ProtocolSafety.RunInv | src/worker_main.cpp:176-211 | every state of every interleaving satisfies the invariant |
| ProtocolSafety.ClaimsAreExclusive | src/job_sql.hpp:8-25 | no job is held twice, what is held is processing, and every history is a prefix of pending, processing, done or error |
| ProtocolSafety.Conservation | src/job_sql.hpp:52-57 | the jobs ever enqueued split exactly into pending, processing, done, error and purged |
| ProtocolSafety.DoneMeansDelivered | src/job_dispatcher.cpp:62-134 | a done embed job was answered with the vector of its text, a done generate job with a text that may be generated for its own input within its own limit or else its worker's; an ad hoc one carries that very answer and no other row carries one; a mapped one has exactly one write, of that very answer, to its own row id, by a statement that serves a mapping of its own table and type |
| ProtocolSafety.EveryWriteIsOwn | src/job_dispatcher.cpp:62-87 | the same of every write-back ever made, also for jobs that failed afterwards or were purged; no job is written twice |
| ProtocolSafety.NoWatchOnlyAfterLostRefresh | src/watch_cache.cpp:35-52 | a job is given up for want of a watch only if its worker's refresh failed in that batch |
| ProtocolSafety.LookupMissesIffRefreshLost | src/watch_cache.cpp:35-52 | past the batch's one refresh the lookup for a job with a result misses if and only if that refresh failed |
| ProtocolSafety.LostRefreshWritesNothing | src/watch_cache.cpp:43-49 | after a failed refresh the worker writes back nothing more in that batch |
| ProtocolSafety.SqlForJob | src/job_store.cpp:88-95 | the statement picked for a job is of the job's own kind and from a mapping registered under its own key |
| ProtocolSafety.StatementsStayRight | src/job_store.cpp:80-95 | every write-back statement in every run serves a mapping registered for its job's own table and type; the present one if there was never another |
| ProtocolSafety.SentIsKept | src/job_store.cpp:88-95 | a worker sends what it has kept for the key of the job in hand, else a fresh statement that it then keeps |
| ProtocolSafety.StatementsAreKept | src/job_store.cpp:88-95 | a kept statement stays as long as the worker lives, whatever is registered meanwhile |
| Resolution.FinalsFollowTodo | src/job_dispatcher.cpp:62-134 | jobs leave the worker's list in order with one terminal status each, and the counter counts the done ones |
| Resolution.BatchResolves | src/worker_main.cpp:198-208 | from claim to empty list each claimed job gets exactly one terminal status, and the one count that may be notified is the number done |
| Resolution.ProcessingIsHeldOrStranded | src/job_store.hpp:18-20 | in every run, what is processing is exactly what a live worker holds or a crash or failed last mark left behind |
| Resolution.StrandedForever | src/job_store.hpp:18-20 | a stranded job stays processing whatever happens later |
| Records.ErrorsAreHonest | src/job_dispatcher.cpp:21-86 | a job is in error exactly when its row has a reason, and the reason is what happened to that job (what was answered for it, a worker without a generation model, a failed refresh, a write that failed); a done job had a result and no failed write |
| Records.PurgeTakesOldDoneJobs | src/job_sql.hpp:52-57 | in every run a purge removes exactly the jobs that became done longer ago than the interval |
| LatestWins.SplitAscends | src/worker_main.cpp:198-205 | the type split keeps each type's jobs in id order |
| LatestWins.ActKeepsOrder | src/job_sql.hpp:8-14 | with claims in id order, writes of a kind ascend, the list lies above them and the pending jobs above that |
| LatestWins.OwnWrite | src/job_store.cpp:86-133 | after a write the rows of its own id show its very vector or text in the mapping's target column |
| LatestWins.OtherWrite | src/job_store.cpp:86-133 | a write leaves the cells of other ids, and of other statements' columns, as they are |
| LatestWins.NewestResultStands | src/job_sql.hpp:8-14 | after any solo run the cells of a source row show the very vector or text recorded for the highest-numbered job written to them, and no done job of that row is newer |
| InSync.NewJobCarries | sql/pgquarry--1.0.sql:69-73 | if a statement enqueued the row's newest job, that job carries the row's text as it is now |
| InSync.OldJobStays | sql/pgquarry--1.0.sql:116-120 | if it did not, it left the row's watched text alone |
| InSync.NewestWroteLast | src/job_sql.hpp:8-14 | the write of a row's newest job is the last write to its cells |
| InSync.TargetFollowsSource | README.md:5 | in every solo run the newest job of a row carries the text that stands in the row now, what was answered for it is a result for that text, and once it has been written the target cells hold that answer |
| InSync.EmbeddingFollowsText | README.md:5 | in particular, where all workers embed alike, the target cells then show the embedding of the text in the row |
| InSync.GenerationFollowsText | README.md:5 | and for a generate mapping they show a text that the writing worker's providers may generate for the text in the row within that worker's limit |
| Service.AnyTextCanBeServed | sql/pgquarry--1.0.sql:190-192 | from every initial state there is a run in which embed_async of a text with an embedding ends done with that embedding |
| Drain.RunEcho | sql/pgquarry--1.0.sql:117-120 | a write-back enqueues only jobs of the types its target's triggers pass, for the target table |
| Drain.SelfWatchEchoes | sql/pgquarry--1.0.sql:117-120 | a mapping that writes the column it watches enqueues a job with each write-back, and no ranking makes it acyclic |
| Drain.UnnamedWriteBackIsQuiet | sql/pgquarry--1.0.sql:117-120 | over any history, a write-back into a column that no call on its target table named enqueues nothing, if its row is there or the table is the watched one |
| Drain.OneWatchIsQuiet | sql/pgquarry--1.0.sql:89-122 | a table with one watch() that writes into another column of the same table: its write-backs enqueue nothing |
| Drain.NoFeedbackIsQuiet | sql/pgquarry--1.0.sql:89-182 | in every run, where no call asks for write-backs into a column a call named or a separate watched table, no write-back enqueues anything |
| Drain.ClaimTakes | src/job_sql.hpp:8-14 | a claim takes exactly its batch off the pending jobs |
| Drain.EchoIsLower | src/writeback_sql_builder.cpp:13-31 | a write-back takes its own job off the outstanding ones and adds only jobs of lower rank |
| Drain.StepFalls | src/worker_main.cpp:176-211 | every statement of a worker alone lowers the lexicographic measure, unless it only waits |
| Drain.Drains | src/worker_main.cpp:176-211 | with acyclic watches a worker left alone stops moving, and if it still claims then the queue is empty for good |
| Drain.EachClaimTakesABatch | src/worker_main.cpp:179 | with no echo, k claims take k batches off the queue or all that is left |
| Drain.TurnsToEmpty | src/worker_main.cpp:176-211 | with no echo nothing is pending exactly when the claims reach the pending count over the batch size, rounded up |
| Polling.Poll | sql/pgquarry--1.0.sql:240-256 | reports the first look that finds the job done or failed, or a timeout; looks again only while the timeout has not passed, so at most once per started 50 ms of it plus one |
| Polling.RunKeeps | src/job_sql.hpp:19-57 | while it exists a job's row keeps its id, source, text and type, and once gone it never comes back |
| Polling.DoneShowsOwnResult | sql/pgquarry--1.0.sql:240-256 | a look that finds the job done finds with it the answer recorded for that very job: the vector of the call's text, or a text that may be generated for it within the call's limit or else the worker's |
| Polling.EmbedSync | sql/pgquarry--1.0.sql:236-257 | a normal return is the vector some worker's model has for the caller's own text, as answered for this very call |
| Polling.GenerateSync | sql/pgquarry--1.0.sql:280-301 | a normal return is a text generated for the caller's own prompt within the caller's own limit, or without one the claiming worker's, as answered for this very call |
| Retention.AcceptsExactly | src/config.hpp:49-76 | accepted are exactly the empty string, "0", and digits with s, m, h or d; the last kind alone enables purging, with the literal of the same amount |
| Retention.LiteralsDiffer | src/config.hpp:66-75 | different amounts or units never give the same interval literal |
| Retention.ParserInjective | src/config.hpp:55-76 | on enabled settings the parser is injective |
| Retention.DisabledReadsAsZeroSeconds | src/config.hpp:49-57 | the disabled settings parse to the literal of the enabled "0s", so the literal alone does not tell them apart |
| Retention.LiteralLasts | src/config.hpp:66-75 | the literal handed to Postgres lasts as long as the setting names |
| Retention.PurgeAgeIsSetting | src/config.hpp:49-76 | the worker purges exactly for digits followed by s, m, h or d, and by the sum of the digits by their places in seconds, minutes, hours or days |

## Left out

- libpq, logging, signals, process startup other than the mapping load, `AppConfig::validate` and `load_config`: plumbing and one-branch checks. Limits are taken to be positive where the code needs them so.
- Vector literals: `vector_literal` prints floats with default precision, which loses digits. A stored vector is the vector itself here, and no round trip through text is claimed.
- SQL text: statements are values with table, key column, value column and kind. Quoting, schema-qualified names, grants and the 63-byte limit on trigger names are not modelled.
- Rows whose id is null or a string of digits, and watched columns that are not text or numbers: the source stores a null id as null and casts digit strings. `Registration.UnusableRowsRaise` claims nothing about them; in the other theorems such a row change does not succeed.
- Edits of `pgquarry.jobs` or `watched_tables` other than through the SQL functions and the worker's statements, and dropping tables, columns or triggers by hand.
- The order of two workers' writes for one source row: the source does not order them, so the newest-result theorem is about one worker at a time.
- LatestWins.NewestResultStands: assumes clients do not overwrite or delete the target rows, nor insert a second row for an id already written, and that no other registered statement writes the same cells; the source promises nothing about cells others write.
- InSync.TargetFollowsSource: assumes the same, and in addition that ids of the source table are unique and not changed, and that the mapping is the only one its table and type ever had. A row that was there before its table was watched has no job until its text changes, as in the source.
- LlamaProvider.LlamaProvider.EmbedBatch: token counts are unbounded integers. They fit an `int` where the capacity plus one context does, or all texts together do (`LlamaProvider.LlamaProvider.NoOverflow`); beyond that C++ leaves the sum undefined.
- LlamaProvider.LlamaProvider.BuildBatch: vectors a sequence returns are lists, so the fixed copy length `n_embd` of the source is not modelled.
- Generation.LlamaGenerationProvider.Generate: starts from the prompt as tokens; chat templating and tokenizing are not modelled. The batch of one token is a value, where the source keeps a pointer to a variable of the loop body. Which seed a call draws is left open, so a generation is one of the texts its prompt and limit allow.
- JobDispatcher.DispatchEmbedJobs: `skipped` marks the one case the automaton has no step for, a provider that returns no vectors for a non-empty batch; the llama provider never does (`JobDispatcher.LlamaIsComplete`), and the main loop is stated for a provider that is complete.
- WorkerMain.MainLoop.Dispatch: runs the embed dispatcher before the generate dispatcher; the source adds the two counts in one expression, whose order C++ leaves open.
- Retention.LiteralLasts: a day is 24 hours; Postgres intervals of days can differ from that across a change of daylight saving time.
- The mutex around the llama context, and two threads sharing one provider.
- Notifications: `pg_notify` is a statement without effect on the tables; who listens is not modelled. Polling clocks are assumed to advance by at least the 50 ms asked of each sleep.
- `demo/`, `docs/`, the superseded schemas and the provider factories.

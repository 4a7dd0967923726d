# A verified model of the prompt queue

The repository accepts prompts over an API, files each as a request with one job, and lets a
pool of worker slots claim the jobs under leases, answer them from a semantic cache or a
rate-limited language model, retry, defer or bury them, while heartbeats renew the leases and
a reaper takes back what has gone silent. This project models that system and proves what its
runs keep.

`Machine` is the whole system as a step machine. A state holds the two tables, the semantic
cache, the rate limiter's key, the worker slots (each at a place in the pipeline, with the
rows as they were when it claimed its job), the API calls in progress, and a history that no
step reads. One action is one database transaction, one Redis script, one call to the model,
or one event: a crash, an exception, a cancellation, a heartbeat that fails. An action carries
everything the state does not determine, among it the caller's own clock reading, so clocks
may disagree and go backwards unless a theorem says otherwise. A run is any sequence of enabled
actions, of any length.

Results come in three strengths.

* **Every run** (`Structure`, `Attempts`, `Recovery`, `Provenance`, `CacheWork`, collected in
  `AllRuns`; `CallsPerJob`; `Faults`, `Tiers`, `Answers`, `Priorities` and `Depth`, which say what
  exceptions, lookups, flags, priorities and the depth count come to; `Losing`, which says exactly
  when a queued request is lost for good): crashes, superseded workers, races and skewed clocks
  included.
* **Every run on one monotone clock** (`LlmBudget`, parts of `Recovery`, in `AllRuns`). That
  bounds are attained, and that documented claims fail, is shown by runs on one clock
  (`Deferrals`, `LateWork`, `Silence`, built with `Scenarios`).
* **Calm runs** (`Calm`, `CalmRuns`, `Agreement`, `Punctual`, `Backpressure`), which assume:
  (a) when the reaper runs, the last claim or renewal of each slot that still holds its job is
  at most one lease old, on one clock; (b) the two writes that complete or bury a job are not
  split by a crash, a cancellation or an exception; (c) a re-enqueue's check and its two writes
  act as one step; (d) the retry path writes its request before the job is due again; (e) worker
  ids are unique, which holds by construction because slots are keyed by them. The code needs
  them: completing and burying a job do not check who owns it, releasing does not check its
  status, and the reaper overwrites the request unconditionally. `Punctual` derives (a) from
  heartbeats. Without (b), (c) or (d) a request can be lost: `Witness` loses one in each of the
  three ways, from every calm state with a job about to be buried, a failed request, or a retry
  not yet written.

The programs are modelled in their own form. `Repositories`, `CacheStore` and `Limiters` are
classes over mutable tables, keys and buckets, whose methods are tied to the transactions of
the machine. `Pipeline`, `Workers` and `Processor` are the pipeline, the claimer, the worker
loop, the heartbeat, the reaper and the API call as imperative programs on those objects. They
share a `Cluster`, which keeps beside the objects the machine state they stand for and the
trace that led there. At every await a program calls `Yield`, whose contract lets all other
programs take any number of steps; only the program's own actions are excluded. A program can
take no actions but its own, and each only together with the write it stands for. What befalls
a program is not its to choose: exceptions, cancellations and failing calls come from methods
of the `Cluster`; what the vector index, Redis and the model reply to a task is given by its
constant `outside`, any function of the task; and the clock readings of the worker's loops are
inputs, one for each turn.

`Stories` reads off the trace what one program did, and what befell it, in order, and the
contracts of the programs say what their stories are. `Execute` went through the stages of one
of the pipeline's paths to its end, or into an exception and through the handling due for it,
or was cancelled. `Reaper.Run` reaped at every reading; `Beat` renewed at every reading until
its pipeline was over or its lease found lost. `WorkerLoop` claimed and executed its jobs one
after the other. `SubmitAndWait` took the steps that go with its outcome and with the row its
check found; an error has its cause in a state of the run; and what it waited for shows in the
states it found when it looked. A body that skipped a write, swapped two, or took the wrong branch
would have another story. And as whatever these programs do is a run of the machine, the theorems
about runs are theorems about them; `SubmitAndWait`, for one, hands back only answers whose origin
the every-run theorem vouches for.

`TokenBucket`, `SlidingWindow`, `SkipLocked`, `VectorLiteral`, `TextNormal`, `AutoId`,
`HonestIds` and `Idempotency` are the algorithms with laws of their own.

Conventions: times and tokens are reals; row ids and worker ids are integers; nullable columns
are `Option`s; statuses carry the names of the source with a prefix for requests (`ReqQueued` is
`queued` on a request, `Queued` on a job). SHA-256, the embedding and cosine similarity are
functions in `Config` about which nothing is assumed; where a result needs that two texts do not
collide, it says which texts. Lower-casing and white space are those of any character set in
which a blank is white space and its own lower case, lower-cased text consists of characters that
are their own lower case, and text of such characters stays as it is; a character may become
several, and the neighbours may matter.

## Where the code and its documentation differ

The model follows the code.

* Similarity must be strictly above the threshold; the documentation says at least 0.9.
* "300 calls per minute" is the refill rate. In a window of length t the bucket admits up to
  capacity + rate * t calls (`GrantBound`), and some sequence of calls gets all of them
  (`BoundAttained`).
* "Only one LLM call ever" for a prompt does not hold. One prompt can be called for any number of
  times (`CallsForOnePrompt`), at most once per claim (`CallsInEveryRun`). After its text is cached
  at most N - 1 calls follow with N slots (`DuplicateWorkInEveryRun`), and that many can
  (`LateWorkAttained`).
* `attempt_count` may exceed `max_attempts`, by any number (`AttemptsWithoutLimit`), because a claim
  does not look at it: the claims of jobs that have reached the maximum are exactly the steps past it
  (`MaximumPassedIff`), and such jobs have been deferred (`WaitingPastMaximumWasDeferred`). The exact
  account is `AttemptsInEveryRun`.
* "Reclaimed within 15 seconds" is the lease plus the reaper's gap (`SilenceInEveryRun`), and a job
  can be left silent for exactly that long (`SilenceAttained`).
* The request statuses `received` and `processing` are never written (`RequestShapeKept`,
  `TablesInEveryRun`).
* No database error is ever raised as `DatabaseUnavailableError`, so inside the pipeline every one of
  them is non-retryable and buries the job.
* The Redis bucket with its 120-second expiry behaves like the plain bucket only if the bucket
  refills within 120 seconds; `ExpiryRefinesIff` gives the exact condition.
* Two users can share a derived prompt id, although the id is meant to be user-scoped. They can
  exactly if one user id is the other, a colon, and something that with a colon after it reads as
  the start of a normalized text (`SharedSeedsIff`); then one of them meets a conflict
  (`SharingMeetsConflict`), and otherwise nobody does (`NoConflictForDerivedIds`).
* A queued request can be lost for good: its job is dead or completed, no re-enqueue is under way,
  and whoever still works on the job can only stop. That is exactly when no continuation completes or
  fails it (`SettlesIffNotLost`). A burial, a re-enqueue and a retry that are cut between their two
  writes can all end there (`BurialCanLose`, `ReenqueueCanLose`, `LateRetryCanLose`).

## Model

| member | source | states |
|---|---|---|
| AllRuns.TablesInEveryRun | src/db/repositories/prompt_request.py:69-80 | in every run requests and jobs are in bijection, prompt ids are unique, queued jobs have neither owner nor lease, processing jobs have both, and every request is queued, completed or failed |
| AllRuns.AttemptsInEveryRun | src/db/repositories/processing_job.py:47-55 | in every run, since a job's last reset: attempt_count = retries + deferrals + reaps + (1 if owned); and for max_attempts >= 1: claims <= max_attempts + deferrals, retries + reaps <= max_attempts - 1, and the total back-off is at most 2^(max_attempts-1) - 1 seconds for max_attempts up to 6 and 30 (max_attempts - 1) always |
| AllRuns.FencingInEveryRun | src/db/repositories/processing_job.py:110-194 | in every run, a slot that is still the row's owner holds the row's latest claim, and a superseded claim that renews or releases changes nothing |
| AllRuns.ProvenanceInEveryRun | src/services/prompt_pipeline.py:95-157 | in every run, every response on a request is an output the model gave for a text with the same hash or with cosine similarity strictly above the threshold |
| AllRuns.DuplicateWorkInEveryRun | src/services/prompt_pipeline.py:101-142 | in every run with N slots, at most N - 1 model calls and N - 1 stores happen for a hash after it is cached |
| LateWork.LateWorkAttained | src/services/prompt_pipeline.py:101-142 | the bound is attained: on one clock, with a capacity of at least one, for every text and every number N of slots up to max_queue_depth, some run makes N calls for it, N - 1 of them and N - 1 stores after it is cached |
| CallsPerJob.CallsSince | src/services/prompt_pipeline.py:121-138 | from any state on, the calls made for a job are at most the claims of it since then plus the claims that had not called yet |
| CallsPerJob.CallsWithoutReset | src/services/prompt_pipeline.py:121-138 | in every run, over any stretch in which the job is not reset, claims since its last reset and calls in the stretch together obey max_attempts + deferrals plus the claims still uncalled at its start |
| CallsPerJob.CallsInEveryRun | src/services/prompt_pipeline.py:121-138 | in every run a job is called for at most once per claim, and one that is never reset at most max_attempts + deferrals times |
| AllRuns.CachedForGood | src/db/repositories/semantic_cache.py:91-112 | from any state on, a cached text, answer and vector never change, and only claims already past their exact lookup can still call the model for that hash |
| AllRuns.CallsInEveryWindow | src/services/prompt_pipeline.py:121-136 | on one clock, with a bucket that refills within the expiry, the model calls of the whole system in any window (x, y] are at most capacity + rate (y - x) + the number of slots |
| AllRuns.SilenceInEveryRun | src/worker/reaper.py:24-37 | on one clock, with the reaper at most a gap behind, no job is processing whose last heartbeat is older than lease + gap |
| Silence.SilenceAttained | src/worker/reaper.py:24-37 | the bound is attained: on one clock, for every lease and gap, some run leaves a job processing whose last heartbeat is exactly lease + gap old, with the reaper exactly a gap behind |
| Silence.ReapedTooEarly | src/db/repositories/processing_job.py:274-276 | a reap at the very moment a lease ends leaves its job as it is |
| AllRuns.EveryRunSound | src/services/prompt_pipeline.py:52-231 | the joint invariant behind the results above holds after every legal sequence of actions |
| Faults.DeadOnlyWithoutAttempts | src/services/prompt_pipeline.py:184-203 | in every run in which nothing but transient faults and rate limits happens to a job and nobody resets it, the job is dead only with attempt_count >= max_attempts |
| Faults.ThrownIsHandled | src/services/prompt_pipeline.py:174-203 | whatever step an exception comes from: a rate limit releases the job for exactly the wait it names; an LLM timeout, a random failure, an unavailable database or Redis or an expired lease releases it for a retry while attempt_count < max_attempts; otherwise, and for any other exception, the job is buried |
| Faults.OnlyThrownIsHandled | src/services/prompt_pipeline.py:174-203 | conversely a slot comes to a burial, a retry or a deferral only through an exception, of exactly the kinds and with exactly the attempts left that ThrownIsHandled says |
| Faults.BackoffTable | src/services/prompt_pipeline.py:200 | the back-off is 1, 2, 4, 8, 16 seconds for the first five attempts and 30 for every later one |
| Faults.FailureRecorded | src/services/prompt_pipeline.py:184-219 | a failure and a retry leave the error and one more than the claim's retry count on the request, and its answer alone |
| Answers.AnswersInEveryRun | src/db/repositories/prompt_request.py:97-140 | in every run a completed request has an answer, a vector, a completion time and no error, and a failed one has an error; and an answer flagged as not cached the model gave for this very text, one flagged as cached is in a cache row of the text's hash or of one above the threshold |
| Answers.OutputsAreAnswers | src/services/prompt_pipeline.py:134-138 | the outputs the provenance results speak of are exactly what the model replied, under the text it was asked for |
| Priorities.PrioritiesInEveryRun | src/services/prompt_processor.py:98-112 | in every run a job has the priority of its request |
| Priorities.InsertFiles | src/services/prompt_processor.py:98-116 | an insert puts on file the call's user, id, text and priority and the text's hash, and one job of that priority, due at once and not tried yet |
| Structure.TablesKept | src/db/repositories/processing_job.py:22-308 | every action keeps the constraints, the bijection and the shape of every row |
| Structure.RequestShapeKept | src/db/repositories/prompt_request.py:52-140 | no action gives a request any status but queued, completed or failed |
| Structure.ColumnsKept | src/db/repositories/prompt_request.py:52-140 | no action deletes a row or changes an existing row's ids, user, text, hash or max_attempts |
| Structure.SnapshotsKept | src/worker/claimer.py:34-53 | what a slot remembers of the immutable columns stays true of the rows |
| Structure.SlotOrigin | src/worker/pool.py:85-135 | a busy slot has just claimed its job or goes on with the very claim it had |
| Structure.OwnerOrigin | src/db/repositories/processing_job.py:36-66 | a slot owns a row only by its own claim, and the attempt count of an owned row changes only by a claim |
| Structure.FencingKept | src/db/repositories/processing_job.py:110-194 | every action keeps fencing: an owner's snapshot carries the row's attempt count |
| Structure.SupersededIsHarmless | src/db/repositories/processing_job.py:110-194 | renewing or releasing for a superseded claim is the identity on both tables |
| Structure.SupersededStep | src/worker/heartbeat.py:68-100 | a superseded slot's heartbeat only marks its own loss, its release only frees its own slot, and it stays superseded |
| Attempts.AccountsKept | src/db/repositories/processing_job.py:47-55 | every action keeps the account of attempts, with retry numbers strictly rising and below max_attempts |
| Attempts.RetriesJudgedKept | src/services/prompt_pipeline.py:184-203 | a slot about to release for a retry has an attempt left and the back-off of its own attempt number |
| Attempts.ClaimsBounded | src/models/orm.py:74-75 | an accounted job has been claimed at most max_attempts times plus once per deferral |
| Attempts.RisingSum | src/services/prompt_pipeline.py:200-203 | the back-offs of distinct rising attempt numbers up to n sum to at most the back-offs of 1 to n |
| Attempts.CeilingClosed | src/services/prompt_pipeline.py:200 | the back-offs of 1 to n are 2^n - 1 in all for n up to 5 and at most 30 n always |
| Attempts.TotalBackoffBounded | src/services/prompt_pipeline.py:184-203 | all retry waiting between two resets is bounded by those sums at max_attempts - 1 |
| Recovery.ReapSettlesLeases | src/db/repositories/processing_job.py:257-308 | after a reap no lease is overdue; the returned ids are exactly the jobs that went back to the queue, the other overdue ones are dead, exactly their requests follow, every other row is unchanged |
| Recovery.LeaseOrigin | src/db/repositories/processing_job.py:22-135 | a processing row's lease and heartbeat come from one claim or renewal, and a reap leaves only leases that are not over |
| Recovery.LeasesDatedKept | src/db/repositories/processing_job.py:31-32 | on one clock every lease ends one lease after its heartbeat and after the last reap |
| Recovery.SilentClaimEnds | src/worker/reaper.py:24-37 | a claim silent since u is gone once the clock is past u + lease + reaper gap |
| Provenance.ProvenanceKept | src/services/cache.py:51-115 | every action keeps: cache rows hold the hash, embedding and a model output of their text, slots carry and requests store only justified answers |
| Provenance.HitJustified | src/services/cache.py:62-97 | an exact or nearest hit yields a justified answer, and an exact hit a vector of a text with the same hash |
| Provenance.AnswerSource | src/services/cache.py:46-97 | without collisions among the texts involved, the source of a stored answer has the request's normal form or is similar to it above the threshold |
| Provenance.StoredVectorIsOwn | src/services/embeddings.py:32-38 | with an embedding of the normal form only, and no other text of the same hash, the vector stored on a request is its own |
| CacheWork.EntryNeverChanges | src/db/repositories/semantic_cache.py:91-112 | first writer wins: an entry keeps text, vector and answer, and its hits never fall |
| Tiers.ExactDecides | src/services/cache.py:60-66 | a lookup hits exactly iff the cache holds the hash of the text's normal form, and goes on with that row's answer and vector |
| Tiers.NearestDecides | src/services/cache.py:90-97 | the vector tier hits iff there is a candidate whose similarity is strictly above the threshold, and goes on with its answer and the text's own vector; otherwise the slot goes to the rate limiter |
| Tiers.SameFormHits | src/services/cache.py:46-66 | once a text is cached, every text with the same normal form hits exactly, on the stored answer |
| Tiers.StoreKeepsFirst | src/services/cache.py:99-115 | a store changes nothing if the hash is there, and otherwise adds the text, its embedding, the answer and the prompt id, with no hits |
| Tiers.HitsInEveryRun | src/db/repositories/semantic_cache.py:114-124 | in every run an entry's hit count is the number of hits taken on it |
| CacheWork.NoNewWork | src/services/prompt_pipeline.py:101-142 | once a hash is cached no slot newly gets on the way to the model or to a store for it |
| CacheWork.FirstStore | src/services/cache.py:99-115 | when a hash is first stored at most N - 1 slots can still call or store for it |
| CacheWork.CacheWorkKept | src/services/prompt_pipeline.py:101-142 | every action keeps: late calls done plus late calls possible stay below N, and the same for stores |
| LlmBudget.CallLowersLevel | src/services/ratelimit.py:21-37 | a script run keeps the key sound and lowers what it holds by one exactly when it grants |
| LlmBudget.GrantsKept | src/services/ratelimit.py:15-38 | grants since any x plus the tokens left never exceed capacity + rate (clock - x) |
| LlmBudget.HoldersStep | src/services/prompt_pipeline.py:121-136 | each model call uses up the one grant its slot held, and only a grant makes a holder |
| LlmBudget.CallsKept | src/services/prompt_pipeline.py:121-136 | calls since x plus unused grants never exceed grants since x plus the number of slots |
| LlmBudget.BudgetKept | src/services/prompt_pipeline.py:121-136 | the budget invariant, over all windows at once, is kept by every action on one clock |
| Calm.CalmKept | src/services/prompt_pipeline.py:147-231 | every action of a calm run keeps the agreement of tables and slots and that no job has two slots |
| Calm.ReaperSpares | src/db/repositories/processing_job.py:274-276 | with leases fresh under the strict comparison, a reap leaves every executing slot's job and request alone |
| CalmRuns.ResubmitCalm | src/services/prompt_processor.py:142-147 | a re-enqueue in one piece keeps the calm invariant |
| CalmRuns.FailedIsIdle | src/services/idempotency.py:59-62 | in a calm run a failed request's job is dead and nobody works on it |
| CalmRuns.CalmRunOk | src/services/prompt_pipeline.py:52-231 | the calm invariant holds all along every calm run |
| CalmRuns.CalmRunIsRun | src/services/prompt_processor.py:142-147 | every calm run is a run of the machine, each re-enqueue spelled out as its three steps |
| Agreement.AgreementInEveryCalmRun | src/services/prompt_pipeline.py:147-219 | in every calm run a request is queued iff its job is queued or processing, completed iff completed, failed iff dead, except between the owner's paired writes, where it says which side is ahead |
| Agreement.TablesAgree | src/services/prompt_pipeline.py:147-219 | the same, from the invariant |
| Agreement.QueuedIsServed | src/services/prompt_pipeline.py:147-219 | a queued request has a job that can be claimed, is under a lease, or is about to fail it |
| Agreement.CompletedIsFinal | src/db/repositories/prompt_request.py:97-121 | a completed request's whole row stays the same for the rest of a calm run |
| Punctual.FreshByHeartbeat | src/worker/heartbeat.py:68-100 | beats every interval with at most k failures in a row and (k + 1) interval <= lease keep every lease fresh |
| Punctual.PunctualRunIsCalm | src/worker/heartbeat.py:68-100 | a run with such heartbeats meets assumption (a) |
| Punctual.PunctualExclusion | src/worker/heartbeat.py:68-100 | with such heartbeats no two slots ever execute the same job and no reap takes a job from an executing slot |
| Backpressure.NoReturn | src/db/repositories/processing_job.py:311-328 | in a calm run no job comes back into the depth count |
| Backpressure.QueueNeverDeeper | src/services/prompt_processor.py:94-129 | in calm runs without re-enqueue, with at most K submissions between check and insert, the depth never exceeds max_queue_depth + K - 1 |
| Depth.DepthMoves | src/db/repositories/processing_job.py:311-328 | for every action, exactly which jobs it brings into the set of queued and processing jobs and which it takes out |
| Depth.DepthSteps | src/db/repositories/processing_job.py:311-328 | in numbers: an insert raises the depth by one, completing or burying a counted job lowers it by one, a reap lowers it by the jobs it buries, and claims, renewals and releases of counted jobs leave it |
| Depth.AdmittedIff | src/services/prompt_processor.py:94-96 | a call at the depth check is admitted iff fewer than max_queue_depth jobs are queued or processing |
| Depth.SettledQueueAdmits | src/services/prompt_processor.py:94-96 | with every job completed or dead, however many, the depth is 0 and the call is admitted |
| SkipLocked.NoDoubleClaim | src/db/repositories/processing_job.py:36-66 | with selecting-and-locking, updating and rolling back as separate steps, in every interleaving two claims of one job never overlap, and in between the job went back to the queue |
| SkipLocked.DrainInOrder | src/db/repositories/processing_job.py:38-46 | claims repeated at one time return each job queued and due exactly once and then none; priority numbers never fall along the way, and due times never fall within one priority |
| HonestIds.NoConflictForDerivedIds | src/services/idempotency.py:45-47 | in every run of a population no two of whose users can share a seed, if nobody supplies a derived id of theirs by hand, a submission without an id never meets a conflict, barring a digest collision |
| HonestIds.SharingMeetsConflict | src/services/idempotency.py:45-47 | conversely, if two users can share a seed, and texts of theirs with one seed differ in hash, an honest run of three actions leads to a state in which one of them, submitting without an id, meets a conflict |
| Losing.SettlesIffNotLost | src/services/prompt_pipeline.py:147-231 | in every state a run can come to, with at least one slot allowed, a queued request has a continuation that completes or fails it if and only if it is not lost |
| Losing.LostForever | src/services/idempotency.py:54-57 | a lost request (queued, its job dead or completed, no re-enqueue under way, whoever works on the job only able to stop) stays lost in every continuation |
| Witness.BurialCanLose | src/services/prompt_pipeline.py:184-195 | without (b): from every calm state about to bury a job, the burial's first write, one heartbeat and the cancellation it asks for lose the request |
| Witness.BurialIsReachable | src/services/prompt_pipeline.py:184-195 | such a state is reached by a calm run of six actions |
| Witness.ReenqueueCanLose | src/services/prompt_processor.py:142-147 | without (c): from every calm state with a failed request, a resubmission that ends between its two writes loses the request |
| Witness.FailedRequestIsReachable | src/services/prompt_pipeline.py:184-195 | a calm run comes to a state with a failed request |
| Witness.LateRetryCanLose | src/services/prompt_pipeline.py:200-219 | without (d): from every calm state in which a job has been given back for a retry and its request not yet been written, with another slot free and a bucket capacity of at least one, the job can be claimed and completed before that write, which then loses the request |
| Witness.HalfRetryIsReachable | src/services/prompt_pipeline.py:200-219 | a calm run comes to such a state |
| Deferrals.DeferralsExceedMaximum | src/services/prompt_pipeline.py:121-132 | from every state where a slot is denied a token on its job's last attempt, two steps lead to attempt_count = max_attempts + 1 |
| Deferrals.LastAttemptDenied | src/services/prompt_pipeline.py:121-132 | on one clock, in every configuration with room for two jobs, a positive rate and max_attempts >= 1, some run leads to such a state |
| Deferrals.MaximumPassedIff | src/db/repositories/processing_job.py:36-56 | an action takes a job past max_attempts if and only if it claims it at max_attempts |
| Deferrals.WaitingPastMaximumWasDeferred | src/services/prompt_pipeline.py:174-181 | in every run a queued job with max_attempts >= 1 and no attempt left has been deferred |
| Deferrals.AttemptsWithoutLimit | src/services/prompt_pipeline.py:121-132 | on one clock, in every configuration with a positive rate, some run leads to attempt_count = n, for every n |
| Deferrals.CallsForOnePrompt | src/services/prompt_pipeline.py:134-138 | on one clock, with a positive rate and a capacity of at least one, some run calls the model n times for its only request, for every n |
| TokenBucket.Conservation | src/services/ratelimit.py:15-38 | tokens left plus grants never exceed capacity + rate (last stamp - first stamp), for stamps in any order |
| TokenBucket.GrantBound | src/services/ratelimit.py:15-38 | in any block of calls, stamps going backwards included, the grants up to a granted call are at most capacity + rate (its stamp - first stamp) |
| TokenBucket.NothingAfterLastGrant | src/services/ratelimit.py:28-36 | so the bound at the last granted call bounds all grants |
| TokenBucket.TokensInRange | src/services/ratelimit.py:25-26 | on a monotone clock tokens stay within 0 and capacity |
| TokenBucket.DeniedThenServed | src/services/ratelimit.py:76-78 | a denied caller is served after wait_time_seconds if nobody else asks and capacity >= 1 |
| TokenBucket.WaitIsExact | src/services/ratelimit.py:76-78 | from an empty bucket a call is served iff it waits at least wait_time_seconds |
| TokenBucket.BoundAttained | src/services/ratelimit.py:21-37 | the bound is attained for every rate and whole capacity, over arbitrarily long windows |
| TokenBucket.ExpiryRefines | src/services/ratelimit.py:21-37 | on a monotone clock, if the bucket refills within 120 seconds, the expiring Redis key decides every call as the in-memory bucket does |
| TokenBucket.ExpiryRefinesIff | src/services/ratelimit.py:21-37 | the two agree on all monotone call sequences iff capacity <= 120 rate |
| SlidingWindow.WindowBound | src/services/llm_mock.py:34-42 | every closed interval of window length holds at most limit grants |
| SlidingWindow.SlidingWindowGuard.constructor | src/services/llm_mock.py:29-32 | an empty deque |
| SlidingWindow.SlidingWindowGuard.TryAcquire | src/services/llm_mock.py:34-42 | on a monotone clock the trimmed deque answers exactly as a count over the full history, and holds only grants inside the window |
| VectorLiteral.RoundTrip | src/db/repositories/semantic_cache.py:11-28 | parsing what was printed gives the vector back iff it is non-empty, for any element printer that parses back and prints neither commas nor brackets |
| VectorLiteral.PgForm | src/db/repositories/semantic_cache.py:26-28 | the literal is the printed elements with commas between them, in square brackets |
| VectorLiteral.SplitOfCommas | src/db/repositories/semantic_cache.py:22-28 | splitting at commas undoes joining with them |
| TextNormal.NormalizeIdempotent | src/services/cache.py:46-49 | the normal form is a fixed point |
| TextNormal.SameNormalForm | src/services/cache.py:46-49 | two texts share a normal form iff their lowered words are the same |
| TextNormal.SplitJoin | src/services/cache.py:48 | splitting undoes joining with single spaces, for any words without white space |
| TextNormal.NormalFormsAreCanonical | src/services/cache.py:46-49 | a text is its own normal form iff it is lower case, neither starts nor ends with white space, and has white space inside only as single blanks |
| AutoId.SharedSeedsIff | src/api/schemas.py:44-50 | two different users have texts with one seed if and only if one user id is the other followed by a colon and some q for which q with a colon is its own normal form |
| AutoId.SharingTakesAColon | src/api/schemas.py:44-50 | which takes a colon in one of the two user ids |
| AutoId.PlainContinuationShares | src/api/schemas.py:44-50 | a user id continued with a colon and lower-case characters without white space can share a seed with the shorter one |
| AutoId.CapitalKeepsApart | src/api/schemas.py:44-50 | with one character that is not lower case in the continuation it cannot |
| AutoId.DerivedIdDetermines | src/api/schemas.py:44-50 | for users that cannot share a seed, and no collision of the two seeds, derived ids are equal iff users and normal forms are |
| AutoId.DifferentUsersDifferentIds | src/api/schemas.py:40-42 | on the same text, different users get different ids, colons or not, barring a collision |
| AutoId.IdResolved | src/api/schemas.py:44-50 | a given id is used as it is; left out or empty, the id depends on the user and the lower-cased words of the text alone |
| AutoId.UuidFormat | src/api/schemas.py:48-50 | a derived id is auto- and the first 32 digits of the digest in groups of 8, 4, 4, 4 and 12 |
| AutoId.SharedSeedsShareIds | src/api/schemas.py:44-50 | users that can share a seed do share an id, for texts with different normal forms, whatever the digest |
| Rows.Claimed | src/db/repositories/processing_job.py:48-55 | a fresh lease has not run out, the first start time is kept, and releasing gives back all but the attempt and the time stamps |
| Rows.Released | src/db/repositories/processing_job.py:178-185 | a released job can be claimed exactly from its due time on |
| Rows.JobReset | src/db/repositories/processing_job.py:237-255 | a reset job is as newly inserted |
| Repositories.ProcessingJobRepository.ClaimNext | src/db/repositories/processing_job.py:22-85 | takes a queued job that is due, with no other such job of a smaller priority number, nor of the same one and due earlier, and hands back it and its request; or no job is queued and due and nothing changes |
| Repositories.ProcessingJobRepository.ExtendLease | src/db/repositories/processing_job.py:110-135 | renews iff the row is this worker's and processing, else changes nothing |
| Repositories.ProcessingJobRepository.ReleaseLease | src/db/repositories/processing_job.py:162-194 | requeues iff the row is this worker's, else changes nothing |
| Repositories.ProcessingJobRepository.MarkCompleted | src/db/repositories/processing_job.py:196-207 | completes the row, whoever owns it |
| Repositories.ProcessingJobRepository.MarkDead | src/db/repositories/processing_job.py:223-235 | buries the row, whoever owns it |
| Repositories.ProcessingJobRepository.ResetJob | src/db/repositories/processing_job.py:237-255 | resets the job of a request and no other |
| Repositories.ProcessingJobRepository.RequeueExpired | src/db/repositories/processing_job.py:267-288 | the first statement of a reap, as a loop over rows: exactly the retryable overdue rows and their requests, and their ids once each |
| Repositories.ProcessingJobRepository.ReapExpiredLeases | src/db/repositories/processing_job.py:257-308 | both statements, as loops over rows, are together the reap of the machine: also exactly the overdue rows without attempts left are buried; the ids are the requeued jobs, once each |
| Repositories.ProcessingJobRepository.QueuedDepth | src/db/repositories/processing_job.py:311-328 | counts the jobs whose status is queued or processing |
| Repositories.PromptRequestRepository.GetByPromptId | src/db/repositories/prompt_request.py:16-21 | the row of the prompt id, or none because there is none |
| Repositories.PromptRequestRepository.InsertWithJob | src/db/repositories/prompt_request.py:52-80 | both rows go in, or neither because the prompt id is taken |
| Repositories.PromptRequestRepository.UpdateStatus | src/db/repositories/prompt_request.py:82-95 | requeues a request, with the retry count and the error, or leaving both |
| Repositories.PromptRequestRepository.MarkCompleted | src/db/repositories/prompt_request.py:97-121 | stores the answer, its vector and whether it was cached, and clears the error |
| Repositories.PromptRequestRepository.MarkFailed | src/db/repositories/prompt_request.py:123-140 | stores the error and the retry count |
| CacheStore.SemanticCacheRepository.FindNearest | src/db/repositories/semantic_cache.py:48-89 | the index's candidate if its similarity is strictly above the threshold |
| CacheStore.SemanticCacheRepository.Upsert | src/db/repositories/semantic_cache.py:91-112 | inserts, or leaves the existing row alone |
| CacheStore.SemanticCacheRepository.IncrementHitCount | src/db/repositories/semantic_cache.py:114-124 | one more hit on one row |
| Limiters.RedisTokenBucketLimiter.TryAcquire | src/services/ratelimit.py:65-74 | runs the script of the machine, or fails closed before it or after it |
| Limiters.InMemoryTokenBucketLimiter.TryAcquire | src/services/ratelimit.py:90-98 | one call of the bucket whose laws are proved in TokenBucket |
| Limiters.MockLLMProvider.Complete | src/services/llm_mock.py:58-70 | a call refused by the guard raises a rate limit of 0.2 seconds; otherwise it fails at random or answers |
| Cluster.Cluster.StartTask | src/worker/pool.py:86-111 | a claim starts a task whose number no other claim has, with the claimed rows as its snapshot |
| Cluster.OthersKeepSlot | src/worker/pool.py:85-135 | what others do, in any number of steps, leaves a slot's claim and its place in the program |
| Cluster.CancelsKept | src/worker/heartbeat.py:88-100 | a cancellation asked for stays one for a claim that is lost, whatever happens, and hits no later claim of the slot |
| Cluster.Cluster.CancelTask | src/worker/heartbeat.py:98-99 | only a pipeline whose claim is lost is cancelled |
| Cluster.Cluster.Suffer | src/services/prompt_pipeline.py:79-93 | an operation inside _run may raise any fault, which is the machine's exception and leaves the tables alone |
| Cluster.Cluster.Deliver | src/worker/heartbeat.py:98-99 | a cancellation arrives only at a task one was asked for |
| Cluster.Cluster.FailCall | src/services/prompt_processor.py:132-147 | an exception ends an API call where it stands and leaves the tables alone |
| Pipeline.PromptPipeline.Execute | src/services/prompt_pipeline.py:52-93 | under any interference, with exceptions and cancellations at any await: what this slot did is one of the paths of RunStages to its end; or stages into an exception, followed by the failure path due for that exception on this job; or it ends with the cancellation; and the slot is free |
| Pipeline.PromptPipeline.RunStages | src/services/prompt_pipeline.py:95-145 | _run to its end is a lookup that hits, a hit counted and both rows written with that answer; or two misses, a denied token and a release for the wait time; or two misses, a token, one call, the model's answer stored with the text's own embedding and both rows written with it; else it is cancelled or throws on the way |
| Pipeline.PromptPipeline.HandleFailure | src/services/prompt_pipeline.py:159-231 | by the kind of the exception: one deferral for the limiter's wait on a rate limit; for a transient kind with attempt_count < max_attempts a release with the attempt's back-off and, only then, the retry recorded with the error; in every other case the job buried, then the request failed |
| Pipeline.PromptPipeline.LookupExactly | src/db/repositories/semantic_cache.py:34-46 | the exact tier against the table of the run: the row of the text's hash sends the slot on to count the hit and finish with that row's answer and vector, no row to the vector tier, an exception into the failure path, a cancellation out |
| Pipeline.PromptPipeline.Lookup | src/services/cache.py:51-97 | hits exactly if the table has the text's hash in the state of the first lookup, on that row's answer and vector; else by similarity if the index's candidate is above the threshold in the state of the second, on its answer with the text's own vector; else misses; a hit is counted before it is handed on |
| Pipeline.PromptPipeline.LookupByVector | src/services/cache.py:90-97 | uses the row the index comes up with iff, in the state of the lookup, its similarity is strictly above the threshold |
| Pipeline.PromptPipeline.Store | src/services/cache.py:99-115 | stores the answer under the text's hash with the text's embedding |
| Pipeline.PromptPipeline.TryAcquire | src/services/prompt_pipeline.py:121-132 | a grant leads to the model, a denial to a release for one token's time, no answer or a zero rate to the failure path; it raises for the limiter only if Redis did not answer or the rate is zero |
| Pipeline.PromptPipeline.Complete | src/services/prompt_pipeline.py:134-138 | the call goes out once; it returns the model's answer, which goes to the store, or raises what the model raises |
| Pipeline.PromptPipeline.Finish | src/services/prompt_pipeline.py:147-157 | to its end: first the request's row, then the job's, both with the answer handed in |
| Pipeline.PromptPipeline.Release | src/db/repositories/processing_job.py:162-194 | the job's row is released as the guarded update says, in a state of the run; the result is whether this worker owned it then; only an owner goes on to record a retry |
| Workers.JobClaimer.NextJob | src/worker/claimer.py:34-53 | polls at each reading until it holds a claimed job with its request; comes back without one only after every poll, in a state of the run, found nothing due at its reading |
| Workers.JobClaimer.Poll | src/worker/claimer.py:41-44 | claims a job if in the state the statement runs in one is queued and due, with no other such job of a smaller priority number, nor of the same one and due earlier; it comes with its request and this worker as its owner |
| Workers.HeartbeatManager.Start | src/worker/heartbeat.py:34-57 | remembers the worker and the one task it may cancel |
| Workers.HeartbeatManager.Beat | src/worker/heartbeat.py:68-100 | one renewal or, on an error, one missed beat for every turn's reading, in order; it ends early only when its pipeline is over or a cancellation has been asked for |
| Workers.HeartbeatManager.Turn | src/worker/heartbeat.py:68-100 | a turn beats or misses as its reading says, unless the pipeline has ended meanwhile; after a beat it is the last turn only if the pipeline's cancellation has been asked for |
| Workers.HeartbeatManager.Renew | src/worker/heartbeat.py:72-100 | one beat on the trace, the guarded renewal on the table, and the answer whether it took; exactly if not, this pipeline task's cancellation, and no other, is asked for |
| Workers.OthersKeepBeat | src/worker/heartbeat.py:34-57 | between two beats the watched claim is the same one or over |
| Workers.WorkerPool.WorkerLoop | src/worker/pool.py:78-149 | opens its slot and then claims and executes jobs one after the other, each to its end or its cancellation; notifies of exactly the requests of those not cancelled; stops early only when every poll of a turn found nothing due |
| Workers.WorkerPool.Serve | src/worker/pool.py:85-146 | one turn: one claim followed by the execution of what was claimed, or no job after polls that found nothing due |
| Workers.Reaper.Run | src/worker/reaper.py:24-37 | exactly one reap, at its reading, for every turn that does not fail |
| Workers.Reaper.Reap | src/worker/reaper.py:28-29 | one reap step, whose ids are exactly the jobs put back into the queue |
| Processor.PromptProcessor.SubmitAndWait | src/services/prompt_processor.py:62-189 | by the row its check finds: none leads to the depth check and the insert, one of another hash to a conflict and nothing else does, a failed one back into the queue, any other to no write; a full queue means max_queue_depth jobs queued or processing in a state of the run, any other error an exception. Served is the one row of the prompt id as the table has it, for the submitted text unless the insert lost a race, with a justified answer: of a prompt completed at the check, marked as cached; of any other unchanged, and either settled or still open at each look before, through all turns and at the deadline |
| Processor.PromptProcessor.Wait | src/services/prompt_processor.py:154-189 | looks once, then after each of its turns until the request is completed or failed, then once more at the deadline; the states it found, in order, show it |
| Processor.PromptProcessor.Repeat | src/services/prompt_processor.py:74-84 | a prompt that was completed is read again and marked as cached if it still is |
| Processor.DecisionIsDue | src/services/idempotency.py:39-62 | the five decisions in columns: insert iff no row has the prompt id; else conflict iff the hash differs, return iff completed, re-enqueue iff failed, wait iff neither |
| Processor.PromptProcessor.Check | src/services/idempotency.py:39-62 | the decision due on the table in the state it was made in; but for an insert the row it is about is on file, with the same hash but for a conflict |
| Processor.PromptProcessor.PassDepthCheck | src/services/prompt_processor.py:94-96 | refused as full exactly when at least max_queue_depth jobs are queued or processing |
| Processor.PromptProcessor.Enqueue | src/services/prompt_processor.py:98-140 | the insert was made, or an exception ended the call; the race was lost exactly if the id was taken in the state before the insert; else the rows are new, with the call's user, text and priority |
| Processor.PromptProcessor.InsertNew | src/services/prompt_processor.py:89-140 | depth check, then insert; a refusal has its full queue in a state of the run |
| Processor.PromptProcessor.Reenqueue | src/services/prompt_processor.py:142-147 | the request's row and then its job's, as two steps, or an exception before either of them |
| Processor.PromptProcessor.Reread | src/services/prompt_processor.py:154-157 | a prompt id once on file is always found again, as the same request |

## Left out

- FastAPI routes, validation, HTTP status mapping, health checks, metrics, logging, migrations and containers.
- LISTEN/NOTIFY: a notification only ends a wait early; every wait is a turn of a loop after which the program looks again.
- PostgreSQL itself: transactions are atomic, row locks and unique indexes work, and a commit whose acknowledgement is lost is not modelled (an operation that raises has had no effect; Redis, where the script's effect can outlive a lost reply, is modelled both ways).
- The vector index: for each task it may come up with any row, or none, with its true similarity.
- SHA-256, MD5, NumPy, model inference and cosine arithmetic: uninterpreted functions.
- `SentenceTransformerProvider` embeds the raw text; `StoredVectorIsOwn` speaks only of embeddings of the normal form.
- Floating-point rounding and Redis number formatting: times and tokens are reals. Redis expiry runs on the callers' clock.
- Unicode's tables: the laws of the conventions above are taken as given for Python's `lower` and `split`.
- The model's latency and random failures, Redis outages and exceptions are free choices of a step.
- `ProcessingJobRepository.insert`, `ProcessingJobRepository.mark_failed` and `PromptRequestRepository.insert`, which nothing calls; the columns `created_at` and `last_hit_at`, which no logic reads.
- Loops without end: each is given its turns, any number of them, after which the shutdown event, the deadline or the end of the run is reached.
- An exception inside the failure handler ends the worker process; the machine has it as a crash, the pipeline program does not have it as a return path.
- A heartbeat that fires between the end of its pipeline and `stop()`: the row is no longer extendable then, so it would change nothing.
- A database error while an API call merely reads ends that call without effect; only errors at its writes are return paths of the program.
- `_parse_vector` on lists and arrays, which it passes through.
- Process-wide sharing of `MockLLMProvider`'s guard: the machine lets the model raise a rate limit at any call instead.
- Cluster.Cluster.Yield: the method's body takes no step, because other programs are not called from here; its contract allows them any, and callers know only the contract.
- Liveness beyond what is bounded above: that a queued job is eventually claimed needs a fair scheduler.

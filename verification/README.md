# OmegaCode, modelled and proved

A Dafny model of the parts of OmegaCode whose correctness is hardest to see by reading: a workflow engine
that replays interrupted runs, the protocol that moves agents' commits between two machines, the schema
rewriting for strict providers, and the streams, protocols and folds around them. `dafny verify
dfyconfig.toml` checks everything.

## How the model is laid out

**Record and replay.** A workflow body is any deterministic program over its own local state (`Engine`): it
calls agents, reads `now()` and `random()`, and opens `parallel()` and `pipeline()` fan-outs. A run is a
tree of branches, each with its own lineage and counters; a scheduler moves any branch at any time.
`Engine.Eval` is the reference: one branch at a time, depth first. `Attempt` adds what the runtime keeps in
place (display indices, the call count, the usage total) and the journal it appends to; an attempt may stop
after any step, and a later one starts from the journal. `Keys` and `Canonical` justify treating keys as
positions: the hashed texts are uniquely decodable, and a hash that does not collide on the texts of a run
then tells all its calls apart; `Prompts` says which JavaScript strings are hashed as one text. `Fanouts`
says what the two fan-outs compute, without schedules, `Bodies` what each call gives the body that made it, and
`Recording` which calls a journal makes final. `Journal` is what entries mean, `TornJournal` the file
they are in. `Runtime` holds the imperative forms (a branch's counters, `agentImpl` before the semaphore,
`withRetry` and the body of one agent).

**Remote agents.** `Commits` names a commit by its contents, so histories are acyclic by construction.
`Remote` is a state machine of one update a step: the run's side, the helper's commands under the
attempt's lock, and the sweep of abandoned attempts, with either side free to die at any step. `Mirror` is
the branch mirroring under the repository's lock. `RemoteSafety` says what no run loses, `RemoteLoss` what some
runs do, and `RemoteEnds` that every attempt can be brought to its end, and to which.

**Schemas.** `Schema` gives draft-07 validity, the tightening and its inverse over one recursive schema
type; `Spans` is the scan that finds JSON in prose.

**Streams and protocols.** `Tail` and `Stream` (log streaming by byte offset), `Frame` (lines and raw
segments), `JsonRpc` and `Turns` (promises over a child process), `Semaphore`.

**Folds.** `Transcript` (coalescing, and the feed made from it) and `Folds` (the server's and the viewer's
snapshot).

Objects whose methods update fields are classes whose methods are proved against specification functions;
the runs of those functions, over every sequence of events, carry the theorems.

## What does not hold

These statements one might expect are false of the code. Each has a lemma with a concrete run or input, and
the exact condition under which the statement does hold.

- A publish can drop earlier published commits (`RemoteLoss.SecondPublishDropsFirst`): it compares the
  branch with the tip recorded at prepare, but the agent started from the run's HEAD. A branch keeps its
  commits exactly when the tip is an ancestor of the published head (`RemoteLoss.PublishKeepsBranch`), and a
  run all of whose ref updates move forward loses nothing (`RemoteSafety.NoWorkIsLost`).
- A sweep can drop an earlier salvage (`RemoteLoss.SecondSweepDropsFirst`): if it died after deleting the
  worktree and before pruning it, and the next prepare on the machine is an older one, which does not prune
  either, then its sweep salvages the internal branch instead of the head. The earlier salvage survives exactly
  when that branch descends from it (`RemoteLoss.SalvageKeepsSalvage`).
- A source branch named `omegacode` makes every newer manifest fail once the machine holds an attempt's
  branch (`Mirror.OmegacodeBranchConflicts`, exactly when: `Mirror.ConflictsExactly`).
- `makeNullable` does not make a typed constant nullable (`Schema.TypedConstantRefusesNull`, exactly when:
  `Schema.NullableExactly`, `Schema.OptionalIsFillableExactly`).
- `allowsNull` overpromises when an `enum` without null sits under a nullable type
  (`Schema.OverpromisedNull`, exactly when: `Schema.OptionalNullIsSoundExactly`).
- Stripping is not harmless: it drops nulls of free-form objects (`Schema.FreeFormNullsAreDropped`) and nulls
  that `allowsNull` overlooks (`Schema.OverlookedNullIsDropped`), and loses members named `__proto__`
  (`Schema.ProtoIsLost`); exactly when, for every value and schema: `Schema.StripIsHarmlessExactly`. Below
  additionalProperties it can make valid answers invalid (`Schema.AdditionalNullsAreNeeded`, exactly when, for
  one property: `Schema.RequiredNullIsSoundExactly`; never for a tolerant schema: `Schema.TolerantIsSound`).
- A torn journal line takes the next append with it, so a success that lacked only its newline is replayed
  once and then forgotten (`TornJournal.SuccessCanBeForgotten`, `TornJournal.MetaIsForgotten`, exactly when:
  `TornJournal.AppendAddsExactlyWhenTerminated`).
- Two values that differ only in a member named `__proto__` have one key (`Canonical.ProtoIsNotKeyed`,
  exactly when two values do: `Canonical.FieldsIdentifyKeys`), and so have two prompts that differ only in
  unpaired surrogates (`Prompts.LoneSurrogatesShare`, exactly when: `Prompts.PromptsShareExactly`).
- An invocation that Ctrl-C or the agent's deadline overtakes reports too late to be billed
  (`Runtime.LateReportIsDropped`); the entry bills the invocations that ended before, so it bills all of them
  exactly when none was overtaken or the late report adds nothing (`Runtime.AgentRun.Run`,
  `Runtime.AddsNothingExactly`).
- A Codex turn can be settled by what was not about it, as turns are found by their threads alone: an
  extraction turn by a repeated completion of its working turn, come late (`Turns.CompletionRepeatedLater`) or
  held up by a file (`Turns.RepeatedCompletion`), or by a turn/start never answered (`Turns.UnansweredStart`);
  and any turn by an error for a thread that has none, although that rule is documented for errors without a
  thread (`Turns.ErrorForAnotherThread`). For each message and each settlement outstanding, exactly when:
  `Turns.TouchesItsOwnExactly`; runs without them: `Turns.EachSettledByItsOwn`.
- The server and the viewer can name a run differently (`Folds.NamesDiffer`, exactly when: `Folds.FoldsAgree`,
  `Folds.BaseNamesAgreeExactly`).

## Model

| member | source | states |
|---|---|---|
| Confluence.Forward | src/runtime/primitives.ts:923-980 | letting any branch of the tree take its next step leaves the sequential evaluation with that step's work done and the rest unchanged |
| Confluence.Backward | src/runtime/primitives.ts:923-980 | conversely, if the tree after a step evaluates, so did the tree before it, to the step's work followed by the rest |
| Attempt.EveryScheduleIsSequential | src/runtime/primitives.ts:202-217 | a run that ends under any interleaving has the result, keys, answers, times, draws and usage of one depth-first evaluation |
| Attempt.SchedulesAgree | src/runtime/primitives.ts:923-980 | two completed runs of one attempt agree on everything whatever their schedules |
| Fanouts.PipelineIsPointwise | src/runtime/primitives.ts:951-980 | the item lanes of a pipeline compute, each for its item alone, the stages run one after another: null stops the item and a failing stage nulls it and no other |
| Fanouts.ParallelIsPointwise | src/runtime/primitives.ts:923-949 | the lanes of a parallel compute each thunk's own value, or null for one that failed |
| Fanouts.LaneIsStages | src/runtime/primitives.ts:963-977 | an item's lane computes the fold of its stages |
| Bodies.ParallelResumes | src/runtime/primitives.ts:923-949 | a body that calls `parallel` goes on with the list of its thunks' own values, in their order, null for each that failed, and ends as that continuation does |
| Bodies.PipelineResumes | src/runtime/primitives.ts:951-980 | a body that calls `pipeline` goes on with the list of what its stages, from first to last, make of each item, in the items' order: each stage is given the value before it, the item and its index |
| Bodies.CallResumes | src/runtime/primitives.ts:379-441 | a body that calls `agent` goes on with the recorded value of the call's key, else with what the worker returned or threw, and the call, its answer and its usage are what the evaluation gains |
| Bodies.RefusedResumes | src/runtime/primitives.ts:379-397 | an agent call on a refused spec throws into the body and is neither keyed nor counted |
| Bodies.ReadResumes | src/runtime/primitives.ts:202-217 | a body that reads the time or draws goes on with the base time plus its reads so far, or its next draw |
| Bodies.TooWideResumes | src/runtime/primitives.ts:923-963 | a fan-out wider than the cap throws into its body an error that also aborts a fan-out around it |
| Completion.EveryScheduleCompletes | src/runtime/primitives.ts:407-413 | when the sequential evaluation ends within the call cap and repeats no explicit key, every schedule can be continued, ends after exactly as many steps, and ends in its outcome |
| Completion.CompletedIsAdmissible | src/runtime/primitives.ts:397-409 | only runs within the call cap and without repeated explicit keys complete |
| Resume.ReplayIsTransparent | src/runtime/primitives.ts:420-441 | a resumed run that completes, under any schedule, has the result, calls, answers, times, draws and usage of the uninterrupted sequential run under any oracle that extends the journal and otherwise answers as the worker did |
| Resume.WorkerOnlyForUnrecorded | src/runtime/primitives.ts:418-441 | no agent with a completed entry is started or journaled again, and each such call answers with the journaled value |
| Completion.SeedIsKept | src/runtime/run.ts:130-145 | an attempt journals its seed and clock, once and first of all, exactly when the journal has none, and whatever it appends, the next one reads the ones fixed first |
| Completion.CrashesDoNotShow | src/runtime/run.ts:124-145 | a run interrupted any number of times between journal appends and resumed each time, with workers that may answer differently each time, returns what one uninterrupted sequential run with the first seed and clock returns when every call gets its final answer |
| Recording.RecordedExactly | src/runtime/primitives.ts:418-421 | stopped anywhere, an attempt has made a call final exactly when it settled there and its worker answered it as completed, and then with that answer and its usage |
| Recording.FinalExactly | src/runtime/primitives.ts:690-753 | over any number of attempts, workers and schedules the final calls are exactly those that some attempt so settled |
| Recording.FailuresRunAgain | src/runtime/primitives.ts:418-504 | a call that failed, was rejected or was cut off is run again by the next attempt that settles it, whose worker's answer is what the body gets |
| Recording.EntriesSayWhatHappened | src/runtime/primitives.ts:688-753 | every result entry an attempt writes has its worker's status, answer and usage; failed or interrupted, without a value, if the worker threw so; interrupted if it was cut off |
| Recording.StartsAreJournaled | src/runtime/primitives.ts:495-504 | each call an attempt starts is journaled as started, once and under its index, and no other is |
| Recording.CutNeverAnswers | src/runtime/primitives.ts:467-477 | Ctrl-C can reach every running call; its entry has what it had billed, and it never answers after that |
| AttemptSafety.Reachable | src/runtime/primitives.ts:386-413 | in every reachable state keys are issued once, queued, running or settled once, asked for by one call, and journaled with their index |
| AttemptSafety.StepUnrepeated | src/runtime/primitives.ts:115-130 | an issued position stays behind the counters of every branch that could have issued it, repeated identical fan-outs included |
| Positions.StepNarrows | src/runtime/primitives.ts:936-972 | a step only gives up positions of its branch, and an issued key is one its branch owned before and no branch owns after |
| Positions.StepPending | src/runtime/primitives.ts:455-504 | the calls a tree waits for change by exactly what its step issued, started or settled |
| Resume.AttemptKeepsJournal | src/runtime/primitives.ts:690-753 | an attempt stopped anywhere leaves keys and indices in one-to-one correspondence and journals nothing after a success |
| Resume.IndicesIdentifyKeys | src/runtime/primitives.ts:413-413 | within an attempt distinct keys have distinct indices, journaled keys keep theirs, and fresh ones avoid every journaled one |
| Resume.JournalIsStable | src/runtime/journal.ts:159-163 | over any number of attempts, workers and schedules a recorded success keeps its value and usage and a journaled key its index |
| Resume.UsageConserved | src/runtime/primitives.ts:688-702 | at every moment the run total is the sum over replayed results plus that over result entries written, failures and interruptions included |
| Resume.TotalIsWork | src/runtime/primitives.ts:439-439 | without interruptions the total is the usage of the work done, whatever the schedule |
| Usage.AddIsCommutativeMonoid | src/dsl/types.ts:121-141 | adding usages is associative and commutative with the empty usage as unit, unreported counters included |
| Usage.SumConcat | src/dsl/types.ts:125-137 | summing usages does not depend on how a list of them is split |
| Journal.Stable | src/runtime/journal.ts:159-163 | a consistent extension of a consistent journal keeps every success and every index |
| TornJournal.JournalFile.Read | src/runtime/journal.ts:145-166 | the loading loop computes the meaning of the lines that parse: the last meta, the last result of each key, the last index of each key |
| TornJournal.JournalFile.AppendEntry | src/runtime/journal.ts:136-138 | an append writes one line, and adds one entry to what a load finds if the file was terminated |
| TornJournal.FormatExists | src/runtime/journal.ts:136-158 | whatever entries a file sees, there is a format with the properties assumed of JSON |
| TornJournal.AppendAddsExactlyWhenTerminated | src/runtime/journal.ts:136-138 | after a torn append the next one adds exactly its entry if and only if the file is empty or ends with a newline |
| TornJournal.AppendToTorn | src/runtime/journal.ts:151-158 | the entry appended after a torn line is lost with it |
| TornJournal.WholeAppendsLoad | src/runtime/journal.ts:145-166 | a file of whole appends, and at most one torn at its end, loads every entry written whole |
| TornJournal.SuccessIsForgotten | src/runtime/journal.ts:151-163 | on any terminated file, a success that lacked only its newline is loaded once, and after the next append only what was recorded before it is |
| TornJournal.SuccessCanBeForgotten | src/runtime/journal.ts:151-163 | there is such a file, a run's first line and all, for every success and every next entry |
| TornJournal.MetaIsForgotten | src/runtime/run.ts:138-145 | a torn first line loses the next attempt's seed and base time as well |
| Keys.UniquelyDecodable | src/runtime/keys.ts:135-173 | no two hashed texts coincide, within a kind of key or across kinds, even when a prompt contains NUL |
| Keys.DigestsIdentifyKeys | src/runtime/keys.ts:131-173 | with a hash that does not collide on their texts, two calls have one key exactly when they have one position, prompt and fields, or one explicit name |
| Keys.SameBranch | src/runtime/keys.ts:137-146 | equal branch digests come from equal lineages |
| Prompts.PromptsShareExactly | src/runtime/keys.ts:158-172 | two prompts, or two explicit names, are hashed as one text exactly when they are equal once unpaired surrogates are replaced |
| Prompts.LoneSurrogatesShare | src/runtime/keys.ts:164-164 | prompts that differ in an unpaired surrogate share a key |
| Keys.DecimalRoundTrip | src/runtime/keys.ts:143-144 | an index is determined by its decimal text |
| Canonical.SameSortsSame | src/runtime/keys.ts:34-47 | values equal up to the order of object members have one canonical form |
| Canonical.SortedSameIsSame | src/runtime/keys.ts:38-47 | values with one canonical form are equal up to the order of members, `__proto__` members aside |
| Canonical.FieldsIdentifyKeys | src/runtime/keys.ts:153-168 | at one position, two calls share a key exactly when prompts are equal and fields are equal up to member order and `__proto__` |
| Canonical.ProtoIsNotKeyed | src/runtime/keys.ts:43-43 | fields that differ only under `__proto__` share a key |
| Runtime.KeyContext.Now | src/runtime/primitives.ts:206-208 | `now()` is the base time plus the branch's own count of reads, and is the engine's reading step |
| Runtime.KeyContext.Random | src/runtime/primitives.ts:210-217 | the n-th draw of a branch is a function of its substream's start and of n alone, and is the engine's drawing step |
| Runtime.KeyContext.NextFanout | src/runtime/primitives.ts:930-936 | each fan-out call of a branch gets its own lineage node, the one the engine opens the fan-out under |
| Runtime.Bookkeeping.Begin | src/runtime/primitives.ts:379-441 | what agentImpl decides before the semaphore, and the fields it leaves, are those of the engine's issuing step, with its settling step for a replayed key; duplicates and the cap abort exactly when the engine says so |
| Runtime.AgentRun.WithRetry | src/worker/errors.ts:25-48 | at most four invocations, all but the last retryable failures; a retryable error is thrown only after the fourth; every retried attempt is billed and the last one is left to the caller |
| Runtime.AgentRun.Run | src/runtime/primitives.ts:651-753 | however an agent ends, the usage it journals is the sum of what the invocations that ended reported, each once, over at most eight; all that is missing is the report of one the deadline or Ctrl-C overtook; an answer that misses the schema is asked for once more, and refused only if that misses it again or could not be collected |
| Runtime.LateReportIsDropped | src/runtime/primitives.ts:467-477 | an invocation overtaken by Ctrl-C reports later, and its report is billed nowhere |
| Runtime.AddsNothingExactly | src/dsl/types.ts:125-141 | a missing report makes no difference exactly when it reports nothing and no counter the total lacks |
| RemoteSafety.NoWorkIsLost | src/remote/helper.ts:284-368 | whatever dies and in whatever order, as long as overwritten refs move forward, everything each agent left, committed or not, is in its worktree, under its base, or behind its salvage, incoming or published ref |
| RemoteSafety.SuccessIsPublished | src/runtime/primitives.ts:682-702 | in every run, a success is journaled only when what the agent left went onto its branch by a swap from the tip recorded at prepare, or was nothing beyond its base |
| RemoteSafety.RecordedAtPrepare | src/remote/agent.ts:146-158 | what a publish will compare with is the branch's tip at prepare, and the agent's base is the run's HEAD then |
| RemoteSafety.SwapTookPlace | src/remote/agent.ts:217-228 | a journaled swap happened at one step of the run, on a branch that was not checked out and stood at that tip |
| RemoteSafety.FailureIsFinal | src/remote/agent.ts:221-223 | once a failure is journaled, no collection of that agent publishes as a success |
| RemoteSafety.SalvageKeepsWork | src/remote/helper.ts:337-355 | a sweep secures an abandoned attempt's head before it may remove the worktree |
| RemoteSafety.CleanupKeepsWork | src/remote/helper.ts:443-454 | only collected work, or none, is cleaned up |
| RemoteSafety.IncomingKeepsWork | src/remote/agent.ts:231-234 | the incoming ref is dropped only once the branch has the work |
| RemoteSafety.ActKeepsSound | src/remote/helper.ts:394-454 | every step of either side keeps its invariant: a stopped agent, a sealed worktree, a reply that is about what the agent last left |
| RemoteLoss.PublishKeepsBranch | src/remote/agent.ts:224-228 | a publish keeps every commit its branch had exactly when the branch is new or its tip is an ancestor of the head |
| RemoteLoss.SalvageKeepsSalvage | src/remote/helper.ts:344-354 | a salvage from the internal branch keeps an earlier one exactly when it descends from it |
| RemoteLoss.SoloRun | src/remote/agent.ts:135-243 | an undisturbed agent is prepared, runs, is collected, published, journaled and cleaned up, and its branch ends at what it left |
| RemoteLoss.SoloFailure | src/runtime/primitives.ts:778-786 | an undisturbed agent that fails is journaled as failed, its branch ends at what it left all the same, and its worktree is cleaned up |
| RemoteLoss.PublishesExactly | src/remote/agent.ts:217-228 | fetched work can be published exactly when the branch is not checked out, stands at the tip recorded at prepare, and the collection is not an aborted agent's own success |
| RemoteEnds.CollectionFinishes | src/remote/agent.ts:199-243 | in any run, a collection whose run and worktree are still there can be brought to its end from wherever it stands: published and journaled if its branch is free, else given up with its worktree kept; no other branch moves |
| RemoteEnds.LostReplyLeavesAsking | src/remote/helper.ts:416-441 | a collection whose reply is lost leaves the run asking and the worktree with all its work, so that it can still be brought to its end |
| RemoteEnds.HeldBranchKeepsWorktree | src/remote/agent.ts:217-220 | work whose branch someone has checked out is not published, and its worktree stays |
| RemoteEnds.MovedBranchStands | src/remote/agent.ts:224-228 | a branch that someone moved while the agent ran stays where they moved it |
| RemoteEnds.LateSuccessFails | src/runtime/primitives.ts:778-786 | a success that loses its race against the deadline is journaled as failed and published all the same |
| RemoteEnds.VerdictIsFinal | src/runtime/primitives.ts:682-753 | in every run, a journaled success or failure of an agent never changes |
| RemoteEnds.FailedPrepareIsRemoved | src/remote/agent.ts:173-187 | an attempt that could not be prepared is removed, without a verdict or a salvage |
| RemoteEnds.DeadRunIsSwept | src/remote/helper.ts:284-368 | in any run, an attempt whose run is gone can be swept from wherever that left it: all of it goes from the machine but what the agent left, which is its base's or salvaged, even over a sweep that dies halfway, if HEAD was on the internal branch |
| RemoteEnds.IdleAgentLeavesNothing | src/remote/helper.ts:337-355 | an agent that left nothing is swept without a salvage |
| RemoteEnds.StepsInOrder | src/remote/helper.ts:394-454 | every step takes the run's stages in order, with one way back from a failed collection of a success, holds the attempt's lock to the end of one command, and lets the agent edit only while it runs |
| RemoteEnds.RefsGoLast | src/remote/helper.ts:358-368 | in every run the internal refs of an attempt are removed only after its worktree |
| RemoteLoss.SecondPublishDropsFirst | src/remote/agent.ts:158-166 | two agents on one branch both succeed and the first one's commit is on no branch and in no ref |
| RemoteLoss.SecondSweepDropsFirst | src/remote/helper.ts:336-362 | a sweep that died after deleting a worktree, before pruning it, is followed by one that overwrites its salvage, and what the agent left is nowhere |
| Commits.UpdateKeepsHistory | src/remote/agent.ts:224-228 | a ref update keeps all its ref reached exactly when the new commit descends from the old one |
| Mirror.Stamps.NextGeneration | src/remote/agent.ts:29-33 | stamps strictly increase and never fall behind the clock |
| Mirror.Cache.SyncCache | src/remote/helper.ts:217-264 | the synchronization, deletes before updates, leaves the refs and reports the outcome that the model of one synchronization says |
| Mirror.SyncMirrors | src/remote/helper.ts:243-263 | the applied generation never decreases, an older manifest moves no branch and is not refused, a newer one makes every branch but those of attempts and worktrees exactly its own, those never move, a manifest with a missing commit changes nothing, and a refused one only deletes |
| Mirror.NewestWins | src/remote/helper.ts:243-263 | over any arrival order, with worktrees coming and going, the open branches are those of the newest complete manifest |
| Mirror.ArrivalOrderIsIrrelevant | src/remote/agent.ts:146-155 | with distinct stamps, reordering the prepares changes neither the open branches nor the applied generation |
| Mirror.GenerationNeverDecreases | src/remote/helper.ts:247-263 | the applied generation never decreases over a run, refused and incomplete manifests included |
| Mirror.ConflictsExactly | src/remote/helper.ts:252-262 | a newer manifest is refused exactly when one of its branches and a protected branch are in each other's way as files and directories |
| Mirror.UnderIsBelow | src/remote/helper.ts:252-262 | one branch name is in the way of another exactly when the other is a path below it |
| Mirror.OmegacodeBranchConflicts | src/remote/helper.ts:252-252 | a branch named `omegacode` is, once the cache holds an attempt's branch |
| Schema.TighteningIsSound | src/worker/schema.ts:42-121 | on the supported fragment, as long as allowsNull never overpromises, whatever satisfies the tightened schema satisfies the author's once stripped |
| Schema.TolerantIsSound | src/worker/schema.ts:158-175 | below additionalProperties, dropping every null member is sound when no required property takes null, at any depth |
| Schema.RequiredNullIsSoundExactly | src/worker/schema.ts:164-173 | of one required property there, a null answer stays sound exactly when the property does not take null |
| Schema.FilledIsStrictlyValid | src/worker/schema.ts:99-114 | every declared-only answer valid for the author has a null-filled form valid under the tightened schema |
| Schema.StripUndoesFill | src/worker/schema.ts:158-175 | stripping the null-filled form gives the answer back, up to explicit nulls the author allows |
| Schema.NormalAddsOnlyNulls | src/worker/schema.ts:158-175 | at every depth that form is the answer itself, but for nulls at absent optional properties whose schemas allow null |
| Schema.UpToNullsIsValid | src/worker/schema.ts:158-175 | and any such form of a valid answer is valid for the author |
| Schema.StripIsHarmlessExactly | src/worker/schema.ts:158-175 | for every value and schema, stripping changes nothing exactly when no object, at any depth, has a `__proto__` member or a null at an optional member that allowsNull does not see as nullable |
| Schema.LostIsStray | src/worker/schema.ts:158-175 | for an answer valid for the author, when allowsNull overlooks no null, that is when no object has a `__proto__` member or a null its schema does not declare |
| Schema.OverlookedNullIsDropped | src/worker/schema.ts:178-189 | a property without keywords accepts a null that allowsNull overlooks and stripping drops |
| Schema.ProtoIsLost | src/worker/schema.ts:164-173 | stripping loses a member named `__proto__` |
| Schema.StripIsHarmless | src/worker/schema.ts:150-157 | so when allowsNull overlooks no null, a valid answer with only declared properties passes through unchanged |
| Schema.StrictifyIsStrict | src/worker/schema.ts:42-45 | the tightened schema lists every property as required and allows no others, at every depth |
| Schema.StrictExactly | src/worker/schema.ts:56-121 | tightening leaves alone exactly the schemas that are so already |
| Schema.StrictifyIsIdempotent | src/worker/schema.ts:56-121 | tightening twice is tightening once, for every schema |
| Schema.StripIsIdempotent | src/worker/schema.ts:158-175 | stripping twice is stripping once, for every schema and value |
| Schema.NullableExactly | src/worker/schema.ts:123-149 | makeNullable adds null and nothing else, and fails to add it exactly for a fixed value, a closed union, or a null type with an enum without null |
| Schema.NullableTwiceExactly | src/worker/schema.ts:123-149 | making a schema nullable a second time changes nothing exactly when it has a type or an enum |
| Schema.TypedConstantRefusesNull | src/worker/schema.ts:133-138 | a typed constant is among the schemas it does not make nullable |
| Schema.OptionalNullIsSoundExactly | src/worker/schema.ts:168-172 | a null answer for an optional property survives stripping validly exactly when allowsNull does not overpromise |
| Schema.OptionalIsFillableExactly | src/worker/schema.ts:106-112 | an absent optional property can be answered with null exactly when its schema takes null or can be given it |
| Schema.OverpromisedNull | src/worker/schema.ts:178-189 | a nullable type with an enum without null breaks soundness |
| Schema.PlainNullSurvivesExactly | src/worker/schema.ts:178-189 | a null answer for an optional property whose schema says nullability plainly (types, enums whose nulls agree with the type, unions of such) survives stripping exactly when that schema takes null |
| Schema.PlainIsHonestAndSeeing | src/worker/schema.ts:168-189 | so on schemas whose optional properties are such, at every depth, allowsNull neither overpromises nor overlooks |
| Schema.IntegerIsWhole | src/worker/schema.ts:42-121 | a number is valid as an integer exactly when it is one by its value |
| Schema.FreeFormNullsAreDropped | src/worker/schema.ts:164-173 | stripping drops the nulls of an object whose schema declares no properties |
| Schema.AdditionalNullsAreNeeded | src/worker/schema.ts:164-173 | under additionalProperties with a schema the dropped null may have been required |
| Spans.BalancedJsonSpans | src/worker/schema.ts:221-256 | the loop computes the scan's meaning character by character |
| Spans.SpansNest | src/worker/schema.ts:244-253 | on any text, spans are delimited by matching brackets and of two spans one contains the other or they are apart |
| Spans.ScansGroups | src/worker/schema.ts:227-253 | on prose with properly closed strings and brackets, exactly the bracketed groups are reported, in closing order, and what was open before stays open |
| Spans.FindsTheValue | src/worker/schema.ts:221-256 | an object or array among such prose is among the spans, whole |
| Tail.ReadNewLines | src/server/tail.ts:45-89 | one pass of bounded reads delivers, in order and each once, exactly the non-blank lines that end between its offsets, each with the offset past its LF and the text its bytes decode to, keeps the rest pending, restarts at 0 on a shrunk file, and reaches the end unless a read returns nothing |
| Tail.LinesAreAll | src/server/tail.ts:66-83 | the lines of a stretch of the file are, with strictly increasing offsets, exactly those its LFs end: the bytes since the LF before decode to the line's text |
| Tail.LinesConcat | src/server/tail.ts:66-83 | cutting the file anywhere and carrying the rest over does not change its lines |
| Tail.RestIsAfterLastLf | src/server/tail.ts:78-79 | the pending bytes are exactly those after the last LF |
| Tail.PassesCompose | src/server/tail.ts:45-89 | over any number of passes while the file grows, the results add up to exactly the lines that end after the start, in order and each once |
| Tail.Restart | src/server/tail.ts:76-81 | restarting at any emitted offset gives exactly the remaining lines, offsets and pending bytes |
| Stream.TailConnection.Drain | src/server/serve.ts:154-160 | one read at a time; a request during a read is remembered, and a closed connection begins none |
| Stream.TailConnection.Sends | src/server/serve.ts:161-181 | after a read the parseable lines are sent in order, nothing on a closed connection, and a remembered request reads again |
| Stream.DrainIsReadEnds | src/server/serve.ts:161-172 | a pass followed by the sending loop is one reading step of the streaming system |
| Stream.RequestIsDrain | src/server/serve.ts:154-160 | a request to drain begins a read of the file as it is, or, during a read, only remembers to repeat it |
| Stream.ConnectionStarts | src/server/serve.ts:140-181 | a new connection starts reading after the id it presents if the server minds it, and at the start of the file otherwise |
| Stream.EventSource.Receive | viewer/src/lib/hooks.ts:128-140 | the client's buffer is reset before the first frame of a replay and only then |
| Stream.NothingTwiceNothingSkipped | viewer/src/lib/hooks.ts:93-140 | over any appends, drains, drops and reconnections, honoured or not, the buffer is, in order and each once, exactly the parseable lines that end no later than the last id seen |
| Stream.NothingMissing | src/server/serve.ts:152-181 | once a drain requested after the last append is done and delivered, the buffer is, in order and each once, exactly the parseable lines the file's LFs end |
| Stream.CatchesUp | src/server/serve.ts:152-181 | from wherever a run has come to, whatever is appended next can be brought to the client: once noticed, or after a reconnection, honoured or not, some reads and deliveries leave it with every parseable line of the file |
| Stream.ResumedNeverResets | viewer/src/lib/hooks.ts:93-140 | over a connection resumed at the last id seen, the client never takes back a line, however long it lasts |
| Frame.FrameReader.Push | src/remote/protocol.ts:138-161 | pushing a chunk means feeding its bytes one by one |
| Frame.FeedConcat | src/remote/protocol.ts:138-161 | chunk boundaries do not matter |
| Frame.RoundTrip | src/remote/protocol.ts:111-161 | feeding the encoding of lines and declared segments, empty ones and segments with LFs included, emits exactly those and leaves nothing |
| Frame.StopsInside | src/remote/protocol.ts:133-136 | wherever a stream stops, exactly the items that arrived whole have been emitted, and inSegment holds exactly when it stops inside a segment |
| Frame.Receive | src/remote/protocol.ts:115-161 | every way of cutting an encoding into chunks, and of breaking it off, makes the reader emit exactly the items that arrived whole, and say whether it broke off inside a segment |
| JsonRpc.JsonRpcStdioClient.Request | src/worker/jsonrpc-stdio.ts:165-189 | a request is rejected at once without a child, taken back when its write fails, and pending under a new id otherwise |
| JsonRpc.JsonRpcStdioClient.MarkDead | src/worker/jsonrpc-stdio.ts:276-289 | a dying client rejects every pending request in order and empties its buffer |
| JsonRpc.JsonRpcStdioClient.OnStdout | src/worker/jsonrpc-stdio.ts:215-229 | the line loop computes the meaning of the buffered text, even when a message ends the client |
| JsonRpc.SettlesExactlyOnce | src/worker/jsonrpc-stdio.ts:165-206 | under any interleaving each request is pending and unsettled, or settled exactly once |
| JsonRpc.DeadHasNone | src/worker/jsonrpc-stdio.ts:269-289 | a dead client has none pending, has settled every request, and settles a new one at once |
| JsonRpc.ResponseSettlesItsOwn | src/worker/jsonrpc-stdio.ts:238-249 | a response, or a timeout, settles the request with its id and leaves every other pending; a late or unknown id changes nothing |
| JsonRpc.RequestIsTakenExactly | src/worker/jsonrpc-stdio.ts:165-189 | in every run, a request to a child whose stdin is open is pending under an id of its own; any other is rejected at once and leaves what is pending as it was |
| JsonRpc.DeathRejectsEach | src/worker/jsonrpc-stdio.ts:269-289 | a failed write, an exit or a shutdown rejects each pending request with its own reason, in the order they were made, and only the first two are reported |
| JsonRpc.LineIsDispatched | src/worker/jsonrpc-stdio.ts:215-249 | what is received waits for its line feed; the line is then parsed once, with what waited before it, and a response settles, a message may end the client, and anything else changes nothing |
| JsonRpc.ChunksDoNotMatter | src/worker/jsonrpc-stdio.ts:215-229 | two chunks mean what their concatenation means |
| Turns.CodexWorker.RunTurn | src/worker/codex.ts:854-903 | a turn takes its thread's entry with its watchdog armed, and is interrupted at once if aborted |
| Turns.CodexWorker.OnTurnCompleted | src/worker/codex.ts:1321-1358 | a completion settles the turn it finds by its thread with that turn's answer, or schedules that after a role check, started once, or pending writes |
| Turns.CodexWorker.OnError | src/worker/codex.ts:1268-1293 | a retried error is progress; a terminal one settles its thread's turn, or every turn when it names none that is live |
| Turns.CodexWorker.SettleEveryTurn | src/worker/codex.ts:919-924 | settling all turns settles each unsettled one, in the table's order |
| Turns.SettlesAtMostOnce | src/worker/codex.ts:1485-1499 | under any interleaving no turn settles twice, and its watchdog is armed until it settles |
| Turns.OnlyAnswersResolve | src/worker/codex.ts:1321-1358 | in any run, nothing but a completed turn resolves a promise, and it does so with the answer that the turn then on its thread had given so far |
| Turns.WhatSettlesIt | src/worker/codex.ts:1321-1499 | a live turn is rejected by an abort, a failed or interrupted completion, a failed start, the watchdog and an unproven role, each with its reason, and resolved with its answer by a completion, at once or once what that waits for is done |
| Turns.WhatSettlesAll | src/worker/codex.ts:909-926 | an error or a drifted completion that names no turn, and the end of the process, reject every live turn; a process end already expected, none |
| Turns.StallsExactly | src/worker/codex.ts:1453-1483 | in any run the watchdog can fire for a thread exactly when it has a live turn |
| Turns.CodexWorker.OnTurnStalled | src/worker/codex.ts:1466-1483 | the watchdog rejects its thread's turn |
| Turns.CodexWorker.OnFinally | src/worker/codex.ts:887-903 | a settled promise's finally handler removes whatever its thread has in the table |
| Turns.CodexWorker.OnLate | src/worker/codex.ts:1421-1451 | what a completion left to a role check or to writes addresses its thread again: an unproven role rejects, anything else settles as the completion said |
| Turns.AgentsAreOrderly | src/worker/codex.ts:642-685 | the turns agents run, an extraction turn after its working turn and on a thread of their own, never overlap on a thread |
| Turns.NoTurnIsStranded | src/worker/codex.ts:642-903 | in every run of agents each turn is settled exactly once or is in the table with its watchdog armed |
| Turns.GoneSettlesAll | src/worker/codex.ts:909-926 | process death and shutdown leave every turn agents started settled exactly once |
| Turns.TouchesItsOwnExactly | src/worker/codex.ts:1268-1451 | a completion, a drifted completion, an error, a late settlement or a failed start about a promise settles or schedules that promise and no other exactly when the turn it reaches by its thread is that promise's and, for an error naming a thread without a turn, no other turn is live |
| Turns.EachSettledByItsOwn | src/worker/codex.ts:1268-1499 | so in every run of agents in which each of these is so entitled, every settlement was made by something about its own promise, or about no one's |
| Turns.LateSettlesItsOwn | src/worker/codex.ts:1421-1432 | when extraction turns start with nothing outstanding on their threads, a completion left to a role check or to file writes settles the turn that it found completed, or none |
| Turns.StartFailsItsOwn | src/worker/codex.ts:899-901 | and a turn/start request that fails settles the turn it was to start, or none |
| Turns.StaleExactly | src/worker/codex.ts:1421-1499 | of the late settlements and unanswered starts outstanding when an extraction turn starts, exactly those that address its thread would settle it |
| Turns.CompletionRepeatedLater | src/worker/codex.ts:1321-1340 | a completion repeated after the extraction turn started resolves that one, though nothing was outstanding |
| Turns.RepeatedCompletion | src/worker/codex.ts:1427-1431 | a completion repeated while an image is written resolves the extraction turn with the working turn's result |
| Turns.UnansweredStart | src/worker/codex.ts:899-901 | a turn/start that times out after its turn completed rejects the extraction turn |
| Turns.ErrorForAnotherThread | src/worker/codex.ts:1268-1292 | an error that names a thread without a turn, to be retried or not, rejects another agent's turn |
| Semaphore.Semaphore.Acquire | src/runtime/semaphore.ts:11-33 | a slot is granted at once below the limit, else the call waits in line; an aborted call takes nothing |
| Semaphore.Semaphore.Abort | src/runtime/semaphore.ts:22-27 | an abort removes its own waiter |
| Semaphore.Semaphore.Release | src/runtime/semaphore.ts:35-49 | a first release hands its slot to the next waiter without lowering the count, or lowers it |
| Semaphore.NeverOverAdmitsNorLosesASlot | src/runtime/semaphore.ts:11-49 | the count is the number of holders and at most the limit, and while anyone waits it is the limit and any holder's release wakes the first in line |
| Semaphore.GrantsAreFifo | src/runtime/semaphore.ts:28-47 | slots are granted in call order, aborted calls aside |
| Semaphore.AbortRemovesOnlyItsOwn | src/runtime/semaphore.ts:22-27 | an abort leaves every other waiter, and every slot, where it was |
| Semaphore.ReleaseIsIdempotent | src/runtime/semaphore.ts:36-39 | releasing again changes nothing |
| Transcript.AgentTranscript.Write | src/runtime/transcript.ts:61-78 | a write coalesces deltas of one kind, flushes at a boundary or at the size limit, and keeps a timer exactly while something is pending |
| Transcript.ToThreadFeed | viewer/src/lib/to-thread-events.ts:220-337 | the loop computes the feed's meaning chunk by chunk |
| Transcript.DeltasMerge | viewer/src/lib/to-thread-events.ts:251-258 | two deltas of one kind, even empty ones, feed like their concatenation |
| Transcript.CoalescingIsInvisible | src/runtime/transcript.ts:61-104 | with tool input and output under the caps, any placement of flushes shows the feed of the raw chunks, ids included |
| Transcript.TimersDoNotMatter | src/runtime/transcript.ts:80-104 | so two placements of flushes among the same chunks show the same feed |
| Transcript.NoTextIsLost | viewer/src/lib/to-thread-events.ts:233-258 | the feed shows every character of prose and of reasoning once, in order |
| Transcript.UnnamedResultsPair | viewer/src/lib/to-thread-events.ts:299-316 | a result without an id, or with an empty one, settles the last tool still open, and a second one is an orphan |
| Transcript.AlwaysPlaced | viewer/src/lib/to-thread-events.ts:299-311 | the tools the feed remembers are tools it has listed |
| Transcript.OrphansTouchNoTool | viewer/src/lib/to-thread-events.ts:304-330 | a result with an unseen id is listed by itself, with its status and output, and changes no other item |
| Transcript.ResultsPairOnce | viewer/src/lib/to-thread-events.ts:308-316 | a result settles its own tool's item and no other, and its id is then forgotten |
| Transcript.ToolIsAnswered | viewer/src/lib/to-thread-events.ts:259-325 | a tool call is listed as pending after the prose before it, and its result turns that item into its answer: a command's exit code and output, a file change's status, anything else's output and error |
| Transcript.AnsweredAgain | viewer/src/lib/to-thread-events.ts:302-316 | a named tool that an unnamed result settled can still get its own result, which keeps what only the first one said |
| Transcript.UnnamedToolIsAnswered | viewer/src/lib/to-thread-events.ts:259-325 | an unnamed pair of call and result likewise, under an id of the feed's own |
| Transcript.ShownIdsDiffer | viewer/src/lib/to-thread-events.ts:231-244 | no two items of prose or of reasoning that are shown have one id |
| Transcript.HeaderIsLast | viewer/src/lib/to-thread-events.ts:248-337 | the header shown is the last meta's, the last status's, and the error of the last status that gave one |
| Transcript.DeltasCoalesce | src/runtime/transcript.ts:61-78 | two deltas of one kind that stay under the limit are pending as one, and nothing is written |
| Transcript.WrittenIsCapped | src/runtime/transcript.ts:70-77 | no line of a transcript exceeds the caps by more than a marker |
| Transcript.TruncationKeepsEnds | src/runtime/transcript.ts:107-113 | an oversized text keeps three quarters of the limit from its start and the rest from its end, around the marker |
| Folds.FoldSnapshot | src/runtime/run-store.ts:131-220 | the server's fold describes its events and names the run after the workflow's own name, else its file; its counts are the numbers of agents of the current attempt in each state |
| Folds.FoldEvents | viewer/src/lib/fold.ts:19-106 | the viewer's fold, with its own updates, describes its events and names the run after its file |
| Folds.OneSnapshot | src/runtime/run-store.ts:131-220 | events admit one such snapshot only, up to the name |
| Folds.FoldsAgree | viewer/src/lib/fold.ts:19-106 | so the two folds agree on every event list, on status, times, file, error, agents, phases and logs; and on the name exactly when the workflow's own name or, if it has none, the server's base name of its file is the viewer's base name of the file |
| Folds.BaseNamesAgreeExactly | viewer/src/lib/fold.ts:14-17 | the two ways of taking a file's base name agree exactly when it has no backslash and the path no trailing slash, slashes alone aside |
| Folds.NamesDiffer | src/runtime/run-store.ts:217-217 | a workflow that names itself otherwise than its file does has two names |
| Folds.AgentsAreSticky | src/runtime/run-store.ts:174-199 | each agent heard of appears, with its last state and time and every optional field at its last carried value |
| Folds.EachAgentInItsPhase | src/runtime/run-store.ts:203-216 | an agent with a phase is in that phase and no other, and a phase with agents is not pending |
| Folds.CountAgentStates | src/runtime/run-store.ts:38-45 | the counting loop counts each state |
| Folds.CountsAddUp | src/runtime/run-store.ts:146-172 | the four counts add up to the agents heard of since the last start |

## Left out

- Aborts of a whole run: a repeated explicit key, the call cap, the token budget and Ctrl-C end an attempt
  here; a body that catches such an error and goes on is not modelled, nor reads of `budget.spent()`.
- The concurrency limit in the engine: every schedule is allowed, a superset of those the semaphore admits.
- Bare `Promise.all`, un-awaited agents and state shared between thunks of one fan-out: order-dependent by
  design. A body's thunks start from values fixed at the fan-out.
- Agent timeouts in the engine: when one fires is not modelled; a timed-out agent is a failed outcome.
- Resume.JournalIsStable: assumes crashes between appends; `TornJournal` says exactly what a torn append costs.
- Completion.CrashesDoNotShow: assumes crashes between appends, like Resume.JournalIsStable.
- checkResumePreconditions and its key-version and file-hash checks: settled branch by branch.
- Keys.UniquelyDecodable: about texts as hashed; which JavaScript prompts share a text is said in `Prompts`.
- Keys.DigestsIdentifyKeys: likewise about texts as hashed.
- Keys: SHA-256 is any function without collisions on the texts of a run, and JSON text any injective
  encoding without control characters. Costs are real numbers.
- Runtime.KeyContext.Random: the draw is a 32-bit word; its division by 2^32 is left out.
- Remote: git's object store, transfer and hashing; request validation; breaking locks of dead helpers.
  `RemoveWorktree` is the deletion of the directory; that git no longer lists a pruned worktree is not
  modelled, nor that a newer prepare prunes, so sweeps may come to attempts they would not find. A lease older than a day is taken to mean that the run is
  gone, and no `run` call is taken to begin after its attempt's collection began.
- Remote: the set that keeps two running agents of one run off one branch, which only removes schedules;
  deletion of local branches by the user.
- Mirror: `have`, and a crash in the middle of a synchronization. A generation that is not positive is taken as old.
- Schema: `oneOf`, `allOf`, `not`, `$ref`, `patternProperties`, tuple items and length or range keywords;
  `anyOf` around objects and arrays, and enums and constants of such, are outside the fragment of the
  soundness and completeness lemmas, as are additional members whose schema requires a property that takes
  null, and schemas with a property named `__proto__`, which tightening loses. What an answer's `__proto__`
  member would make another object inherit. Object members are unordered. `parseJsonLoose`'s choice among spans.
- Tail: decoding and trimming are one function of a line's bytes; transient failures to open the file.
- Stream: a file that shrinks within one live connection, where the server restarts but the client does not
  reset; parsing of the Last-Event-ID header; heartbeats, and when steps are taken.
- JsonRpc: exit events of an earlier child after a restart are those of the present one; stderr; handlers
  that do more to the client, synchronously, than shut it down.
- Turns: messages of a turn that arrive during its role check; which error code an outcome carries; the paging
  of the role check; approvals; image writes. The provider is taken never to give one thread id twice.
- Semaphore: `run`, which is acquire, the body, and release on every way out.
- Transcript: tool output over the caps, where the written transcript is truncated; command and diff
  extraction, which are functions of a tool's name and input.
- Folds: the heartbeat deadman; the server's base name is that of a POSIX machine. Grouping agents by phase,
  which the two files share line by line, is modelled once.
- Provider processes, SSH, HTTP, rendering, telemetry, sandbox and permission gates, the determinism lint,
  option parsing and formatting.

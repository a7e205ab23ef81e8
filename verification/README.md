# Verified models of the knowledge pipeline

Dafny models of the stateful and textual cores of the repository, with proofs of what they keep. `dafny verify
dfyconfig.toml` checks all of them.

| files | part of the system |
|---|---|
| `FormatGrammar`, `FormatPrinter`, `PromptTokens`, `PromptEscaper`, `PromptExact`, `PromptValidator` | checking and escaping user prompt templates before they are stored |
| `TaskStates`, `TaskInvariants`, `TaskRuns`, `TaskEffects`, `TaskSlots`, `TaskExamples`, `TaskManager` | the task engine behind the sidecar actions: idempotent submission, queue, workers, cancellation, recovery after a restart |
| `WorkerQueue`, `WorkerSessions` | the task manager of the first service: bounded queue, workers, progress, callback |
| `DetailTrim`, `SearchBackfill`, `SearchRows`, `ProcessingBackfill` | replaying history into the search and processing event tables |
| `ModelRewrite`, `Migration` | rewriting the model line of configuration files while they are in use |
| `SidecarRetry`, `WikiStream` | the gateway: calls with retries, and the event stream of a Wiki search |
| `Options`, `Sequences`, `Texts`, `Decimals` | shared helpers |

Code that changes state step by step is modelled by methods, most of them of a class with the same fields, whose contracts
equate the new state with a function of the old one. The theorems are about those functions, over every input or every run.
A run is any sequence of events each of which is enabled when it happens; an event is what happens between two suspension
points. What comes from outside (clocks, random draws, serialisers, hashes, the YAML reader, the database, the file system's
failures) is a parameter or an event, so every theorem holds for all of it.

What the models bring out:

- The escaper's three passes with numbered keys are a one-pass escaping, and its output parses back to the template, exactly for
  the templates in which no key collides; templates without NUL, and without placeholders, are among them. Whatever the template
  holds, the result is well-formed, so the validator's escape branch never refuses: its second error message is unreachable.
- When no key collides, validating a stored template again is stable exactly when its placeholders are plain identifiers or no
  brace was doubled; otherwise every validation makes it longer.
- Five properties of the task engine (one live task per key, no stranded task, an exact slot count, slots within the capacity, one
  pipeline per key) hold throughout a run exactly when every event of it meets a guard on the state before. Some events do not:
  a direct creation after its cache entry expired, a restart that finds an unsaved cancellation, a resume coroutine without a
  verdict. A cancellation itself is not saved; it reaches the repository only with a later save of the task, such as the end of
  an inconclusive polling.
- A field with a conversion or a specifier is a field like any other: a template of allowed identifiers is never changed.
- Expiry takes a task out of registry and repository together, but a pipeline or resume coroutine that still holds its object may
  save it into the repository again.
- An ended status can still be overwritten: a cancelled task whose pipeline completes becomes completed.
- A trimmed detail holds at most twenty items in each top-level list; a list in the value of a kept key of a hit or a recall is
  not limited.
- A forced backfill whose transaction fails loses the rows it had deleted before. The message "written" counts rows the
  uniqueness constraint ignored.
- A migration can stop at any point, if no file that is to be rewritten has a backup or temporary file named like another target:
  every file has its old text or the new one with a backup, and running again finishes the job. If one has, every run in which
  nothing fails passes through a state without the text of that target. The header of the script promises that all other bytes
  stay; the code reads with universal newlines, so that is so exactly for files without carriage returns. A file that is no UTF-8
  ends the run.
- In the first service a completed task turns failed when announcing its completion raises something else than an HTTP error,
  and a worker is lost when reporting a failure raises so too.
- An attempt cut in the wait behind it leaves no attempt marked final. The internal route records no attempt when its client
  cannot be opened. A transport error may come after the request was received, and is tried again; a timeout is not.
- A Wiki search whose start replies without a session id, or whose response is never iterated, never closes its client.

Where code and documentation disagree, as in the newline case, the models follow the code.

## Model

| member | source | states |
|---|---|---|
| `PromptTokens.MatchPlaceholder` | Reference/Rag-anything/atomic-rag-server-v2.py:48-50 | a match of the placeholder pattern is a well-formed placeholder and the text splits into it and the rest |
| `PromptTokens.PlaceholderComplete` | Reference/Rag-anything/atomic-rag-server-v2.py:48-50 | every well-formed placeholder at the front of a text is matched, whole, whatever follows: with the row above, the scanner is the pattern |
| `PromptTokens.TokensSound` | Reference/Rag-anything/atomic-rag-server-v2.py:63-75 | a template is cut into allowed placeholders and single characters without losing anything |
| `PromptTokens.PassOver` | Reference/Rag-anything/atomic-rag-server-v2.py:65-68 | a placeholder that is not allowed may be passed over whole, as the substitution does |
| `PromptTokens.EscapedParsesBack` | Reference/Rag-anything/atomic-rag-server-v2.py:53-78 | the one-pass escaping of any token list parses, spells the original text, and shows exactly its placeholders in order |
| `PromptTokens.TokensOfEscaped` | Reference/Rag-anything/atomic-rag-server-v2.py:53-78 | cutting escaped text up again finds the same placeholders and each literal brace twice: doubling never makes or hides a placeholder |
| `PromptTokens.EscapedLength` | Reference/Rag-anything/atomic-rag-server-v2.py:75 | escaping lengthens a text by its literal braces, so it is the identity exactly on texts without any |
| `PromptEscaper.NulFreeIsSentinelFree` | Reference/Rag-anything/atomic-rag-server-v2.py:70 | text without NUL holds no piece of a sentinel key |
| `PromptEscaper.NoKeyAfterNul` | Reference/Rag-anything/atomic-rag-server-v2.py:70-77 | no key starts at a NUL of the template or at the end of another key |
| `PromptEscaper.SkipKey` | Reference/Rag-anything/atomic-rag-server-v2.py:76-77 | replacing one key passes over every other key whole |
| `PromptEscaper.RestoreOne` | Reference/Rag-anything/atomic-rag-server-v2.py:76-77 | restoring key j restores placeholder j and nothing else, for any number of placeholders |
| `PromptEscaper.ThreePassesIsOnePass` | Reference/Rag-anything/atomic-rag-server-v2.py:60-78 | saving, doubling and restoring compute the direct one-pass escaping |
| `PromptEscaper.EscapeRoundTrip` | Reference/Rag-anything/atomic-rag-server-v2.py:53-78 | the output parses, spells the content, and its fields are exactly the allowed placeholder occurrences in order |
| `PromptExact.KeyTailIff` | Reference/Rag-anything/atomic-rag-server-v2.py:70-77 | the text of a pass continues a NUL to key j exactly when the template spells the rest of it, up to a NUL or to a key not yet restored |
| `PromptExact.PassIsRightIff` | Reference/Rag-anything/atomic-rag-server-v2.py:76-77 | pass j restores placeholder j and nothing else exactly unless key j is met where it was not put; then it spoils a token |
| `PromptExact.OffStays` | Reference/Rag-anything/atomic-rag-server-v2.py:76-77 | no later pass mends a spoilt token |
| `PromptExact.ThreePassesIff` | Reference/Rag-anything/atomic-rag-server-v2.py:53-78 | for all content: the three passes are the one-pass escaping exactly when no key collides |
| `PromptExact.TokensAreMost` | Reference/Rag-anything/atomic-rag-server-v2.py:63-75 | no other cut of a text keeps as many allowed placeholders as the substitution |
| `PromptExact.EscapeLawIff` | Reference/Rag-anything/atomic-rag-server-v2.py:53-78 | for all content: the output parses, spells the content and shows exactly the allowed placeholders if and only if no key collides |
| `PromptExact.NoCollision` | Reference/Rag-anything/atomic-rag-server-v2.py:53-78 | content without a piece of a key, or without kept placeholders, has no collision |
| `PromptExact.EscapedCollisionIff` | Reference/Rag-anything/atomic-rag-server-v2.py:53-78 | doubling the braces neither makes nor removes a collision |
| `PromptExact.SpelledCollides` | Reference/Rag-anything/atomic-rag-server-v2.py:70-77 | content that spells the key of a kept placeholder in front of it is escaped wrongly |
| `PromptEscaper.ThreePassesForm` | Reference/Rag-anything/atomic-rag-server-v2.py:53-78 | for all content, keys in it or not: the output is the escaped form of some template with allowed placeholders only |
| `PromptEscaper.SentinelInContent` | Reference/Rag-anything/atomic-rag-server-v2.py:70-77 | content that spells a key is corrupted: the two computations differ on it |
| `PromptEscaper.SavePlaceholders` | Reference/Rag-anything/atomic-rag-server-v2.py:60-74 | the first pass leaves the template with numbered keys and a map from key to placeholder, in order of entry |
| `PromptEscaper.AutoEscapeBraces` | Reference/Rag-anything/atomic-rag-server-v2.py:53-78 | the three passes as run: escaped form always, round trip for content free of key pieces |
| `PromptValidator.AllowedNames` | Reference/Rag-anything/atomic-rag-server-v2.py:518-542 | the allowed names are the top-level names of the built-in templates, none when there is no template |
| `PromptValidator.ScanFields` | Reference/Rag-anything/atomic-rag-server-v2.py:557-565 | one scan gives the used names, whether a field is no identifier, and whether parsing raised |
| `PromptValidator.ValidatePromptTemplate` | Reference/Rag-anything/atomic-rag-server-v2.py:545-592 | the verdict, whose meaning `NeedsEscapeIff`, `WrittenVerdict` and `EscapeBranchAccepts` give; the second parse never raises, and the escape branch always accepts |
| `FormatPrinter.PrintParses` | Reference/Rag-anything/atomic-rag-server-v2.py:558-563 | what is written from characters and fields, with any conversions and specifiers, is read back as those characters and fields, in order |
| `FormatPrinter.ParsesIffPrinted` | Reference/Rag-anything/atomic-rag-server-v2.py:558-566 | the parser accepts exactly the texts that can be written so: doubled braces, and fields of well-formed name and balanced specifier |
| `PromptValidator.NeedsEscapeIff` | Reference/Rag-anything/atomic-rag-server-v2.py:555-567 | the escape branch is taken exactly when the content cannot be written so, or writes a field whose name is no identifier |
| `PromptValidator.WrittenVerdict` | Reference/Rag-anything/atomic-rag-server-v2.py:545-592 | content whose field names are identifiers, whatever their conversions and specifiers, is accepted unchanged when the names are allowed, and refused for exactly those that are not |
| `PromptValidator.AllowedWritten` | Reference/Rag-anything/atomic-rag-server-v2.py:518-542 | the allowed names are those written in the two built-in templates |
| `PromptValidator.EscapeBranchAccepts` | Reference/Rag-anything/atomic-rag-server-v2.py:567-592 | all non-blank content that takes the escape branch is accepted, NUL in it or not |
| `PromptValidator.AcceptedIsSound` | Reference/Rag-anything/atomic-rag-server-v2.py:545-592 | accepted content parses and uses allowed names only |
| `PromptValidator.BuiltInAccepted` | Reference/Rag-anything/atomic-rag-server-v2.py:518-592 | a built-in template of identifier fields passes its own check unchanged |
| `PromptValidator.RevalidationIff` | Reference/Rag-anything/atomic-rag-server-v2.py:545-592 | when no key collides, validating an escaped result again returns it unchanged exactly when all kept placeholders are plain identifiers or no brace was doubled |
| `PromptValidator.UnescapedIsStable` | Reference/Rag-anything/atomic-rag-server-v2.py:545-592 | content accepted without escaping stays as it is |
| `PromptValidator.RevalidationGrows` | Reference/Rag-anything/atomic-rag-server-v2.py:557-570 | an attribute placeholder beside a literal brace: every validation doubles the brace again |
| `PromptValidator.EscapeTwiceIff` | Reference/Rag-anything/atomic-rag-server-v2.py:53-78 | when no key collides, none collides in the output, and escaping twice is escaping once exactly when there was no literal brace |
| `TaskStates.FirstLive` | Reference/Rag-anything/atomic-rag-server-v2.py:141-148 | the scan finds a live task of the key, and finds none only if there is none |
| `TaskStates.FirstSettled` | Reference/Rag-anything/atomic-rag-server-v2.py:869-898 | the ontology scan stops at a live task, or at a completed one unless forced, and at none only if there is none |
| `TaskManagers.TaskManager.CheckIdempotency` | Reference/Rag-anything/raganything/service/task_manager.py:3349-3362 | the cached live task of a key, or none with the entry dropped |
| `TaskManagers.TaskManager.CreateTask` | Reference/Rag-anything/raganything/service/task_manager.py:1343-1420 | answer and whole new state of a creation |
| `TaskManagers.TaskManager.ReuseOrCreate` | Reference/Rag-anything/atomic-rag-server-v2.py:136-152 | answer and whole new state of a submission |
| `TaskManagers.TaskManager.RetryOntologyExtract` | Reference/Rag-anything/atomic-rag-server-v2.py:864-918 | answer and whole new state of an ontology retry |
| `TaskManagers.TaskManager.ValidateAndEnqueue` | Reference/Rag-anything/raganything/service/task_manager.py:1516-1594 | whole new state when the enqueue coroutine ends, whose meaning `EnqueueMeans` gives |
| `TaskEffects.EnqueueMeans` | Reference/Rag-anything/raganything/service/task_manager.py:1516-1594 | an invalid task fails in registry and repository, gives its slot back and is not queued; a valid one is queued in both and last in the queue; a cancelled one is left alone |
| `TaskManagers.TaskManager.WorkerTake` | Reference/Rag-anything/raganything/service/task_manager.py:1595-1641 | whole new state when a worker takes the head of the queue |
| `TaskManagers.TaskManager.WorkerFinish` | Reference/Rag-anything/raganything/service/task_manager.py:1595-1641 | whole new state when a pipeline ends |
| `TaskManagers.TaskManager.CancelTask` | Reference/Rag-anything/raganything/service/task_manager.py:1481-1515 | whole new state of a cancellation: the registry changes, the repository does not |
| `TaskManagers.TaskManager.CleanUp` | Reference/Rag-anything/raganything/service/task_manager.py:3277-3295 | whole new state when old ended tasks are dropped, by age alone |
| `TaskManagers.TaskManager.FinishResume` | Reference/Rag-anything/raganything/service/task_manager.py:3178-3245 | whole new state when a resume coroutine settles its task, saves it with tracks pending, or breaks off |
| `TaskManagers.TaskManager.Start` | Reference/Rag-anything/raganything/service/task_manager.py:1032-1138 | reading the repository task by task builds exactly the restarted state |
| `TaskManagers.OntologyKeyClashIff` | Reference/Rag-anything/atomic-rag-server-v2.py:864-865 | two documents share a key exactly when their versions agree and tenant, knowledge base and document id are the same text when joined by colons |
| `TaskManagers.OntologyKeyInjective` | Reference/Rag-anything/atomic-rag-server-v2.py:864-865 | the ontology key tells documents apart when tenant and knowledge base hold no colon; the document id may hold any |
| `TaskManagers.OntologyKeyCollision` | Reference/Rag-anything/atomic-rag-server-v2.py:864-865 | with a colon in the tenant two documents share a key |
| `TaskInvariants.ShapeStep` | Reference/Rag-anything/raganything/service/task_manager.py:910-3362 | every event keeps registry, dictionary order, repository, handles, queue and workers consistent |
| `TaskRuns.RunShape` | Reference/Rag-anything/raganything/service/task_manager.py:910-3362 | the same over every run |
| `TaskRuns.CacheAddsNothing` | Reference/Rag-anything/raganything/service/task_manager.py:1347-1352 | behind the scan of the registry the cache never finds anything more |
| `TaskRuns.AlwaysIffGuarded` | Reference/Rag-anything/raganything/service/task_manager.py:910-3362 | a property that a guard decides event by event holds throughout a run exactly when every event meets the guard |
| `TaskRuns.DirectCreateIff` | Reference/Rag-anything/raganything/service/task_manager.py:1343-1420 | a direct creation keeps one live task per key exactly when it has no key, is answered from the cache, finds no slot, or no task of the key is alive |
| `TaskRuns.UniqueStepIff` | Reference/Rag-anything/atomic-rag-server-v2.py:136-152 | an event keeps one live task per key exactly when it is no direct creation or restart that breaks its guard |
| `TaskRuns.OneLiveTaskIff` | Reference/Rag-anything/atomic-rag-server-v2.py:136-152 | throughout any run a key has at most one live task exactly when every direct creation and restart meets its guard |
| `TaskRuns.OneLiveTaskPerKey` | Reference/Rag-anything/atomic-rag-server-v2.py:136-152 | in every run of the three submitting actions, workers, cancellations, expiry, and restarts that find all ends saved, a key has at most one live task |
| `TaskRuns.UnsavedStep` | Reference/Rag-anything/raganything/service/task_manager.py:1481-1512 | which ends the repository lacks after an event: a cancellation adds one, every save of the object takes it away |
| `TaskRuns.RestartUniqueIff` | Reference/Rag-anything/raganything/service/task_manager.py:1032-1138 | a restart keeps that exactly when the repository has one live task per key among those recovery does not give up |
| `TaskRuns.OneLiveTaskPerKeyAcrossRestarts` | Reference/Rag-anything/raganything/service/task_manager.py:1032-1138 | the same in every run with any restarts, when nothing is cancelled |
| `TaskRuns.WindowUnique` | Reference/Rag-anything/raganything/service/task_manager.py:1347-1352 | within one cache lifetime direct creations keep one live task per key too |
| `TaskRuns.SubmitAnswer` | Reference/Rag-anything/atomic-rag-server-v2.py:136-152 | reuse names the live task of the key; a new task is made only when there is none and a slot is free |
| `TaskRuns.RetryAnswer` | Reference/Rag-anything/atomic-rag-server-v2.py:869-918 | what an ontology retry answers: completed only if unforced, reused with the status of a live task, and otherwise all tasks of the key have ended |
| `TaskRuns.CreateAnswer` | Reference/Rag-anything/raganything/service/task_manager.py:1343-1420 | what a direct creation answers: a cached live task of the key with an entry not too old, a new task, or no slot |
| `TaskRuns.RetryCreatesIff` | Reference/Rag-anything/atomic-rag-server-v2.py:864-918 | an ontology retry creates exactly when all tasks of the key have ended, force is set or none completed, and a slot is free |
| `TaskRuns.EndedForGood` | Reference/Rag-anything/raganything/service/models.py:423-440 | without a restart a task that has ended never becomes live again |
| `TaskRuns.StatusStepIff` | Reference/Rag-anything/raganything/service/task_manager.py:1595-1641 | an event leaves an ended status as it is exactly unless the pipeline of the task finishes with another one, its resume coroutine settles it to another one, or a restart reads or sets another one |
| `TaskRuns.EndStaysIff` | Reference/Rag-anything/raganything/service/task_manager.py:910-3362 | throughout any run with restarts an ended task keeps its status exactly when no event of it does so |
| `TaskRuns.EndedChangesIff` | Reference/Rag-anything/raganything/service/task_manager.py:1595-1641 | without a restart an ended status changes exactly when the pipeline of the task or its resume coroutine ends with another one |
| `TaskRuns.RevivedIff` | Reference/Rag-anything/raganything/service/task_manager.py:1032-1138 | a restart revives an ended task exactly when its end is unsaved and recovery does not give it up |
| `TaskEffects.LiveStepIff` | Reference/Rag-anything/raganything/service/task_manager.py:1516-1641 | which event brings a live task to which status: it completes exactly when its pipeline succeeds or its resume coroutine settles it so, fails exactly on an invalid validation, a broken pipeline or a resume settled so, and is cancelled exactly by its cancellation or a pipeline that stops on one |
| `TaskEffects.RestartIs` | Reference/Rag-anything/raganything/service/task_manager.py:1032-1138 | status, queue, resume coroutine and handle of every task of the repository after a restart |
| `TaskEffects.LiveRestartIff` | Reference/Rag-anything/raganything/service/task_manager.py:1032-1138 | across a restart a live task fails exactly when recovery gives it up, and neither completes nor is cancelled |
| `TaskEffects.RequeuedInOrder` | Reference/Rag-anything/raganything/service/task_manager.py:1116-1131 | recovered tasks are queued in the order in which the repository is read |
| `TaskEffects.HandleStepIff` | Reference/Rag-anything/raganything/service/task_manager.py:1481-1641 | a handle is cancelled exactly by the cancellation of its live task, and released exactly by that, by an invalid validation, or by the end of the pipeline |
| `TaskEffects.RegistryStepIff` | Reference/Rag-anything/raganything/service/task_manager.py:3277-3295 | which tasks registry and repository have after an event; an expired task whose object a coroutine still holds may come back to the repository alone |
| `TaskEffects.PlacesStep` | Reference/Rag-anything/raganything/service/task_manager.py:1595-1641 | what joins and leaves the queue, and who runs what, event by event |
| `TaskEffects.FirstComeFirstServed` | Reference/Rag-anything/raganything/service/task_manager.py:1595-1641 | over any run without a restart tasks leave the queue in the order in which they joined it, none twice and none passed over |
| `TaskEffects.StaleStep` | Reference/Rag-anything/raganything/service/task_manager.py:1481-1512 | which copies in the repository are out of date after an event |
| `TaskEffects.OnlyCancelsAreMissed` | Reference/Rag-anything/raganything/service/task_manager.py:1481-1512 | in every run of a fresh engine every copy that is out of date is that of a cancelled task, which the repository still has alive |
| `TaskRuns.RecoveryStepIff` | Reference/Rag-anything/raganything/service/task_manager.py:3178-3245 | recovered tasks stay attended exactly when no resume coroutine leaves a live task without a verdict |
| `TaskRuns.AttendedIff` | Reference/Rag-anything/raganything/service/task_manager.py:3178-3245 | recovered tasks are attended exactly when no live task is stranded |
| `TaskRuns.NoTaskIsLost` | Reference/Rag-anything/raganything/service/task_manager.py:1516-1641 | every live task is at exactly one place where someone carries it on, in any run in which no resume coroutine leaves a live task without a verdict |
| `TaskRuns.StrandedBlocksKey` | Reference/Rag-anything/raganything/service/task_manager.py:3178-3250 | a stranded task answers every submission of its key and nothing moves it until a restart or its own cancellation |
| `TaskSlots.SlotsStepIff` | Reference/Rag-anything/raganything/service/task_manager.py:1172-1174 | after an event the slot count is the number of holders exactly unless a live recovered task that took no slot is cancelled while slots are taken |
| `TaskSlots.SlotsAlwaysIff` | Reference/Rag-anything/raganything/service/task_manager.py:1165-1174 | the same throughout a run |
| `TaskSlots.SlotsNeverLeak` | Reference/Rag-anything/raganything/service/task_manager.py:1165-1174 | in such a run slots neither leak nor are given back twice |
| `TaskSlots.CapacityAlwaysIff` | Reference/Rag-anything/raganything/service/task_manager.py:1353-1363 | throughout a run the slots taken stay within the capacity exactly when no restart queues more tasks than that |
| `TaskSlots.PipelineStepIff` | Reference/Rag-anything/raganything/service/task_manager.py:1595-1641 | an event keeps one pipeline per key exactly unless a worker takes a registered task whose key a running task has |
| `TaskSlots.PipelineAlwaysIff` | Reference/Rag-anything/raganything/service/task_manager.py:1595-1641 | the same throughout a run |
| `TaskSlots.BreachIsCancelled` | Reference/Rag-anything/raganything/service/task_manager.py:1595-1641 | with one live task per key that happens only when one of the two was cancelled |
| `TaskSlots.OnePipelinePerKey` | Reference/Rag-anything/raganything/service/task_manager.py:1595-1641 | without cancellations no two workers run tasks of one key, restarts or not |
| `TaskSlots.FreshIsGood` | Reference/Rag-anything/raganything/service/task_manager.py:911-951 | a fresh engine meets every starting condition of these theorems |
| `TaskSlots.EveryRun` | Reference/Rag-anything/raganything/service/task_manager.py:910-3362 | every run of a fresh engine keeps the shape, and each of the five properties throughout exactly as far as its guard is met |
| `TaskExamples.CancelledTaskReturns` | Reference/Rag-anything/raganything/service/task_manager.py:1481-1515 | a cancellation is not saved: after a restart the cancelled task is live beside its successor |
| `TaskExamples.CancellationSavedByResume` | Reference/Rag-anything/raganything/service/task_manager.py:3226-3240 | a cancellation during the polling of a recovered task does reach the repository |
| `TaskExamples.RestartOverfills` | Reference/Rag-anything/raganything/service/task_manager.py:1122-1129 | a restart may take more slots than there are |
| `TaskExamples.DirectCreateDuplicates` | Reference/Rag-anything/raganything/service/task_manager.py:3349-3362 | a direct creation after the cache entry expired makes a second live task |
| `TaskExamples.InconclusiveResumeStrands` | Reference/Rag-anything/raganything/service/task_manager.py:3178-3250 | a resume coroutine without a verdict strands its task |
| `TaskExamples.RecoveredCancelUndercounts` | Reference/Rag-anything/raganything/service/task_manager.py:1018-1031 | cancelling a recovered task gives back a slot it never took |
| `TaskExamples.TwoPipelinesForOneKey` | Reference/Rag-anything/raganything/service/task_manager.py:1481-1515 | a cancelled task may still be running when its successor starts |
| `DetailTrim.TrimDetail` | scripts/backfill_search_events.py:273-328 | the loops compute the trimmed detail |
| `DetailTrim.TrimOutcome` | scripts/backfill_search_events.py:273-328 | nothing, or an object within 8192 bytes, or the list of key names; in the object an object holds scalars, and a list one to twenty items, each a scalar, an object of scalars and flat objects, or, under the two keys with kept keys, an object of no other keys; only the list of key names loses a top-level scalar |
| `DetailTrim.TrimIs` | scripts/backfill_search_events.py:292-328 | which of the three a detail becomes, by size alone; the first stage keeps all fields in order but lists that begin with nothing but lists, each scalar as it is, of each object the scalars, of each list the trimmed items; the second drops the lists |
| `DetailTrim.ElementsAre` | scripts/backfill_search_events.py:265-270 | the items of a trimmed list are those of the list but for lists, in order; a scalar stays, an object keeps its scalars, or its kept keys with their values untouched |
| `DetailTrim.ListFieldIs` | scripts/backfill_search_events.py:296-312 | a list field keeps its first twenty items, trimmed, unless all of them are lists |
| `DetailTrim.ListsBelowIff` | scripts/backfill_search_events.py:265-270 | below a top-level list a list remains exactly in the value of a kept key |
| `DetailTrim.LongListStays` | scripts/backfill_search_events.py:265-270 | such a list is not limited: one of any length stays when the detail fits |
| `DetailTrim.ScalarsKept` | scripts/backfill_search_events.py:251-262 | both trimming stages keep exactly the scalar fields that were there |
| `DetailTrim.TrimTwice` | scripts/backfill_search_events.py:273-328 | trimming a result again returns it unchanged unless it is the list of key names |
| `DetailTrim.ManifestTwiceIff` | scripts/backfill_search_events.py:318-328 | the list of key names is stable exactly when it has between one and twenty keys and fits |
| `SearchBackfill.EventStore.DedupRows` | scripts/backfill_search_events.py:331-341 | the loop computes the deduplicated rows |
| `SearchBackfill.DedupIs` | scripts/backfill_search_events.py:331-341 | deduplicated rows have different keys, and every key keeps its first row |
| `SearchBackfill.EventStore.BuildSearchRows` | scripts/backfill_search_events.py:666-774 | the rows of one history for the four tables, whose content the next eight rows give |
| `SearchRows.RequestRowIs` | scripts/backfill_search_events.py:674-695 | the one request row, field by field |
| `SearchRows.StepRowIff` | scripts/backfill_search_events.py:697-715 | there is a step row of a stage and title exactly when a step has them |
| `SearchRows.StepRowTells` | scripts/backfill_search_events.py:697-715 | a step row tells the first step of its stage and title, field by field |
| `SearchRows.HitRowIff` | scripts/backfill_search_events.py:722-751 | there is a hit row of a target exactly when a hit with name, type and knowledge base under an ontology match has it |
| `SearchRows.HitRowTells` | scripts/backfill_search_events.py:722-751 | a hit row tells the first such hit of its target, field by field |
| `SearchRows.AdoptionRowIff` | scripts/backfill_search_events.py:755-772 | there is an adoption row of a target exactly when a reference to a document has it |
| `SearchRows.AdoptionRowTells` | scripts/backfill_search_events.py:755-772 | an adoption row tells the first reference to its document, field by field |
| `SearchRows.NoRowTwice` | scripts/backfill_search_events.py:331-341 | no table has a row of the history twice |
| `SearchBackfill.RowsOwn` | scripts/backfill_search_events.py:666-774 | all rows of a history carry its request id |
| `SearchBackfill.EventStore.BackfillSearch` | scripts/backfill_search_events.py:794-859 | the tables after a run; done, failed and skipped add up to the histories loaded |
| `SearchBackfill.AfterRun` | scripts/backfill_search_events.py:794-859 | what a run leaves at a request id: its old group, the new group, both, or nothing |
| `SearchBackfill.RunKeepsSettled` | scripts/backfill_search_events.py:794-859 | a history written once is there exactly once after any further run, forced, failing or not |
| `SearchBackfill.RunLeavesOthers` | scripts/backfill_search_events.py:808-819 | rows of other requests stay as they are, in order, forced or not |
| `SearchBackfill.StillToDo` | scripts/backfill_search_events.py:797-806 | after a run exactly the selected histories whose transaction failed are still to do |
| `SearchBackfill.CountBrokenIs` | scripts/backfill_search_events.py:850-852 | the failures counted are the jobs whose transaction fails |
| `SearchBackfill.SecondRunIdle` | scripts/backfill_search_events.py:794-859 | a second plain run after one without failures writes nothing |
| `SearchBackfill.ForcedFailureLoses` | scripts/backfill_search_events.py:808-859 | a forced run whose transaction fails has removed the rows that were there |
| `SearchBackfill.RequestIdClashIff` | scripts/backfill_search_events.py:648-649 | two histories share a request id exactly when their ids agree in the first 59 characters |
| `SearchBackfill.ShortIdsAreDistinct` | scripts/backfill_search_events.py:648-649 | different ids of at most 59 characters have different request ids |
| `ProcessingBackfill.TaskStore.BuildTaskRows` | scripts/backfill_search_events.py:893-951 | the branches build the rows of a document and count it, whose meaning the next three rows give |
| `ProcessingBackfill.RowsOfColumns` | scripts/backfill_search_events.py:893-947 | which rows a document has: a parse success exactly for status ready and a failure for failed, extraction so for ontology status and known non-wiki type, compilation for compiled and failed |
| `ProcessingBackfill.RowsTellColumns` | scripts/backfill_search_events.py:867-890 | every row carries tenant, asset, clipped knowledge base, times and task id, and a failed one the first 1000 characters of the error of its own stage |
| `ProcessingBackfill.CountsOfColumns` | scripts/backfill_search_events.py:919-950 | what a document adds to the counters of documents in flight, of unknown type, and without knowledge base |
| `ProcessingBackfill.PendingIff` | scripts/backfill_search_events.py:962-964 | the pending rows are the rows of all documents |
| `ProcessingBackfill.TaskIdInjective` | scripts/backfill_search_events.py:882 | a task id determines document, stage and generation, for any characters in the document id |
| `ProcessingBackfill.DocRowsMean` | scripts/backfill_search_events.py:893-951 | at most three rows, of distinct stages; each tells the outcome the document state has for its stage, and every stage with an outcome has its row |
| `ProcessingBackfill.NoFalseRows` | scripts/backfill_search_events.py:926-938 | wiki documents and documents of unknown type get no extraction row, documents in flight no parse row |
| `ProcessingBackfill.PendingUnique` | scripts/backfill_search_events.py:962-964 | distinct documents have rows of distinct keys |
| `ProcessingBackfill.TaskStore.WriteBatches` | scripts/backfill_search_events.py:979-991 | the batches cover every pending row once: the table gets the rows of the batches that were not rolled back, and written plus failed is the number pending |
| `ProcessingBackfill.SurvivorsBatch` | scripts/backfill_search_events.py:980-991 | a batch is written as a whole or not at all |
| `ProcessingBackfill.TaskStore.BackfillProcessing` | scripts/backfill_search_events.py:954-993 | table and counters after a run |
| `ProcessingBackfill.InsertKeeps` | scripts/backfill_search_events.py:451-461 | ignoring conflicts leaves existing rows in place and keys unique |
| `ProcessingBackfill.InsertKeys` | scripts/backfill_search_events.py:451-461 | afterwards exactly the keys of the table and of the rows are there |
| `ProcessingBackfill.WrittenIsAddedIff` | scripts/backfill_search_events.py:985-986 | the count of written rows is the number of rows added exactly when nothing conflicted |
| `ProcessingBackfill.PlainRunOnlyAdds` | scripts/backfill_search_events.py:954-993 | a run without force only adds the surviving keys |
| `ProcessingBackfill.RerunIdle` | scripts/backfill_search_events.py:954-993 | after an undisturbed run, forced or not, a plain run changes nothing, whatever fails in it |
| `ProcessingBackfill.RunsOnlyAdd` | scripts/backfill_search_events.py:954-993 | over any sequence of plain runs no row is changed or lost |
| `ProcessingBackfill.ForceReplaces` | scripts/backfill_search_events.py:972-991 | a forced run leaves all rows but the backfill rows of the documents it writes, and in place of those stand exactly the surviving rows |
| `ProcessingBackfill.RunKeepsTable` | scripts/backfill_search_events.py:954-993 | every run keeps keys unique and backfill ids true to their assets |
| `ModelRewrite.MatchIsLine` | scripts/migrate_openkb_model.py:220-225 | what the pattern matches is a whole model line |
| `ModelRewrite.LineIsMatched` | scripts/migrate_openkb_model.py:220-225 | every model line is matched where it starts, with the same reading when the quotes agree |
| `ModelRewrite.FoundIff` | scripts/migrate_openkb_model.py:226 | for a one-line value the matches are exactly the model lines |
| `ModelRewrite.OneMatchIff` | scripts/migrate_openkb_model.py:226-231 | there is exactly one match exactly when there is exactly one model line |
| `ModelRewrite.NoChangeIff` | scripts/migrate_openkb_model.py:200-218 | no change is answered exactly when nothing is stale and nothing is unreadable |
| `ModelRewrite.FirstReadableIs` | scripts/migrate_openkb_model.py:233-246 | one of the three quotings is chosen exactly when one reads back, the line's own first |
| `ModelRewrite.RewriteIff` | scripts/migrate_openkb_model.py:200-250 | a rewrite is planned exactly for a stale value found once that can be quoted readably |
| `ModelRewrite.StaleOnOneLineIff` | scripts/migrate_openkb_model.py:214-250 | a stale one-line value is reported unless exactly one model line has it; that line is rewritten exactly when it can be quoted |
| `ModelRewrite.RewriteChangesValueOnly` | scripts/migrate_openkb_model.py:233-246 | the new text reads back as the target and differs from the old in the quoted value of one model line alone |
| `ModelRewrite.ReplanIff` | scripts/migrate_openkb_model.py:168-250 | planning again asks for nothing exactly when the target is stripped, blank, or not among the values to replace |
| `ModelRewrite.LineStays` | scripts/migrate_openkb_model.py:233-246 | the rewritten line is a model line of the target at the same place |
| `ModelRewrite.WayBack` | scripts/migrate_openkb_model.py:168-250 | planning the way back restores the text exactly, unless other model lines of the target stand in the way |
| `Migration.FileSystem.WriteAtomically` | scripts/migrate_openkb_model.py:253-270 | at every moment the file is the old or the new one, and other files are untouched |
| `Migration.FileSystem.MigrateOne` | scripts/migrate_openkb_model.py:296-326 | fate, report and every intermediate disk state of one target; `FateTells` gives the meaning of the fates |
| `Migration.FateTells` | scripts/migrate_openkb_model.py:296-326 | a file is listed exactly when it is missing or unreadable, cannot be rewritten safely, or its backup or text could not be written; it ends rewritten with its backup exactly when that was planned, wanted and nothing failed |
| `Migration.FileSystem.Migrate` | scripts/migrate_openkb_model.py:273-328 | when no file that is to be rewritten has a backup or temporary file named like a target: in every state the disk passes through, every target holds its old text, or its new text with a backup of the old; at the end each is rewritten or as it was, and the report lists exactly the files that need a person, the backups, and the numbers of matches and rewrites. When nothing fails, that safety holds if and only if. Always: other files are untouched, and a rehearsal changes nothing |
| `Migration.StaleIsNoticed` | scripts/migrate_openkb_model.py:196-198 | no stale file is passed over: it is planned in a rehearsal, rewritten with its backup listed, or listed for a person; what is neither stale nor unreadable is not listed |
| `Migration.ClashIsSeen` | scripts/migrate_openkb_model.py:318-323 | rewriting a file whose backup or temporary file is a target passes through a state in which that target is lost |
| `Migration.ClashingRun` | scripts/migrate_openkb_model.py:273-328 | a run over a file that is to be rewritten and the name of its backup, or of its temporary file, passes through such a state |
| `Migration.SomethingIsPlanned` | scripts/migrate_openkb_model.py:168-250 | there are texts that are to be rewritten, so these runs exist |
| `Migration.ClearIsPlannedClear` | scripts/migrate_openkb_model.py:318 | targets none of which has the name of a backup or temporary file meet the condition whatever they hold |
| `Migration.OneStep` | scripts/migrate_openkb_model.py:296-326 | migrating one target disturbs no other target and no other backup |
| `Migration.ListTargets` | scripts/migrate_openkb_model.py:290-293 | the targets are the configurations found and the existing extra files, each once |
| `Migration.UsualNamesClear` | scripts/migrate_openkb_model.py:318 | the usual file names never clash with backup or temporary names |
| `Migration.NamesApart` | scripts/migrate_openkb_model.py:263-263 | a file, its backup and its temporary file are three files; backups of different files differ |
| `Migration.ReportAddsUp` | scripts/migrate_openkb_model.py:294-328 | every scanned file is counted once; matches of a real run are rewrites and write failures; backups are rewrites |
| `Migration.BackupsListed` | scripts/migrate_openkb_model.py:325-326 | the listed backups are those of the rewritten files |
| `Migration.BytesKeptIff` | scripts/migrate_openkb_model.py:299-299 | the file keeps every byte around the value exactly when it has no carriage return |
| `Migration.RewrittenStays` | scripts/migrate_openkb_model.py:273-328 | a rerun matches no rewritten file |
| `Migration.StoppedRunResumes` | scripts/migrate_openkb_model.py:273-328 | a run stopped in any state can be repeated and gives every target the text the run would have given it |
| `WorkerQueue.BeginIs` | Reference/Rag-anything/atomic-rag-server.py:377-391 | a taken task is processing, and the worker waits with a true picture of it |
| `WorkerQueue.ContinueIs` | Reference/Rag-anything/atomic-rag-server.py:377-518 | a reply keeps that picture true, never lowers the progress, and changes an ended status only when announcing completion raises |
| `WorkerSessions.CompletedSession` | Reference/Rag-anything/atomic-rag-server.py:377-507 | a task announced as completed went through the phases its source calls for, in order; every text they brought was uploaded once, and it has the document ids received, in order |
| `WorkerSessions.FailedSession` | Reference/Rag-anything/atomic-rag-server.py:512-516 | a task set failed carries the error of its last reply |
| `WorkerSessions.PlaysCount` | Reference/Rag-anything/atomic-rag-server.py:487-504 | texts collected, texts uploaded and document ids after any replies |
| `WorkerQueue.ExecKeeps` | Reference/Rag-anything/atomic-rag-server.py:307-518 | the invariant of tasks, queue, workers and counters holds in every run |
| `WorkerQueue.EveryTaskInOnePlace` | Reference/Rag-anything/atomic-rag-server.py:307-518 | every task is queued, held by one worker, over, or refused, exactly one of them; queue bounded by 200, served in order, none started twice, unfinished count right |
| `WorkerQueue.StepChanges` | Reference/Rag-anything/atomic-rag-server.py:377-518 | a step changes one task at most, no progress drops, and an ended status changes exactly when its announcement raises |
| `WorkerQueue.RunChanges` | Reference/Rag-anything/atomic-rag-server.py:377-518 | over any run refused and finished tasks stay as they are, and a completed status stays exactly when the announcement never raises |
| `WorkerQueue.FullProgress` | Reference/Rag-anything/atomic-rag-server.py:505-507 | completed tasks have full progress; full progress means completed, or failed after completion |
| `WorkerQueue.RefusedIff` | Reference/Rag-anything/atomic-rag-server.py:338-361 | a full queue refuses a task and leaves it registered, pending for ever |
| `WorkerQueue.WorkersLost` | Reference/Rag-anything/atomic-rag-server.py:512-518 | a worker ends exactly when reporting a failure raises; with no worker left the queue is never served |
| `WorkerQueue.CompletedTurnsFailed` | Reference/Rag-anything/atomic-rag-server.py:505-516 | a run in which a completed task turns failed |
| `WorkerQueue.TaskManager.CreateTask` | Reference/Rag-anything/atomic-rag-server.py:338-361 | whole new state of a creation, and the answer |
| `WorkerQueue.TaskManager.GetStatus` | Reference/Rag-anything/atomic-rag-server.py:363-375 | not found, forbidden for other tenants, or the fields of the task |
| `WorkerQueue.TaskManager.TakeTask` | Reference/Rag-anything/atomic-rag-server.py:379-391 | whole new state when a worker takes a task |
| `WorkerQueue.TaskManager.Work` | Reference/Rag-anything/atomic-rag-server.py:392-518 | the worker code between two suspensions, branch by branch |
| `WorkerQueue.TaskManager.ResumeWorker` | Reference/Rag-anything/atomic-rag-server.py:392-518 | whole new state when a worker resumes |
| `SidecarRetry.InvokeKnowledgeBase` | api_gateway/routes/knowledge_base.py:188-262 | attempts, monitor records, waits and answer of this route, from raw replies and exceptions through its own clauses |
| `SidecarRetry.InvokeInternal` | api_gateway/routes/internal.py:170-246 | the same for this route, with settings from the import and one client for all attempts |
| `SidecarRetry.InvokeBusinessDomain` | api_gateway/routes/business_domain.py:81-133 | the same for this route |
| `SidecarRetry.InvokeTaskCenter` | api_gateway/routes/task_center.py:99-180 | the same for this route |
| `SidecarRetry.AnswerIff` | api_gateway/routes/task_center.py:99-180 | the answer of a call, exactly, by what its last attempt raised or returned: data, business error passed on, time-out, unavailable, or cancelled |
| `SidecarRetry.RecordIff` | jonex_core/common/monitor_collector.py:736-742 | number, status, code, wait and final mark of every attempt, by what the attempt raised or returned |
| `SidecarRetry.SameCall` | api_gateway/routes/task_center.py:99-180 | two routes that see the same outcomes under the same settings make the same records and waits, for every sequence of outcomes |
| `SidecarRetry.InternalAgreesIff` | api_gateway/routes/internal.py:170-246 | the internal route agrees with another one exactly when its client opens, its settings allow an attempt, and at every attempt the other reaches the client opens or fails like the reply, and a transport failure is within the retries of both settings or of neither; when no attempt is allowed, exactly when the client cannot be opened or its settings allow none either |
| `SidecarRetry.SitesAgree` | api_gateway/routes/task_center.py:99-180 | in consequence the routes make the same attempts and waits, the internal one if its settings are still current and opening clients does not fail |
| `SidecarRetry.UnopenedDiffers` | api_gateway/routes/internal.py:172-173 | when the client cannot be opened the internal route records nothing, and agrees with the others exactly when the settings allow no attempt |
| `SidecarRetry.NoResendAfterTimeout` | api_gateway/routes/internal.py:190-232 | at most retries plus one attempts, all but the last failed in transport, none after a timeout |
| `SidecarRetry.FinalIsLastIff` | jonex_core/common/monitor_collector.py:736-742 | exactly the last attempt is marked final, unless the call is cut in the wait behind it |
| `SidecarRetry.TotalWait` | api_gateway/routes/business_domain.py:114-123 | the waits add up to at most the cap per retry and at most the doubling delays |
| `SidecarRetry.DoublingIs` | api_gateway/routes/business_domain.py:116 | the doubling delays sum up to base times two to the n less one |
| `WikiStream.Events` | api_gateway/routes/knowledge_base.py:1085-1114 | the frames sent and whether the end of the session was seen |
| `WikiStream.StreamShape` | api_gateway/routes/knowledge_base.py:1085-1114 | one opening frame, at most 1200 progress frames and heartbeats, at most one completion or error, last |
| `WikiStream.StateIsShown` | api_gateway/routes/knowledge_base.py:1107-1113 | after every round the last progress frame shows the polled state; a heartbeat means exactly that it is the one of the round before |
| `WikiStream.FrameOfRound` | api_gateway/routes/knowledge_base.py:1085-1113 | frame by frame: behind the opening every round that goes on has one frame, the events and status polled, or a heartbeat exactly when neither changed |
| `WikiStream.EndIsShown` | api_gateway/routes/knowledge_base.py:1093-1106 | what is sent at the end of a session; its last state is always shown before the result |
| `WikiStream.StreamNoRepeats` | api_gateway/routes/knowledge_base.py:1096-1113 | no progress frame repeats the one before |
| `WikiStream.LastFrameMeans` | api_gateway/routes/knowledge_base.py:1091-1114 | when the result, and when an error, is the last frame |
| `WikiStream.EndSeenIff` | api_gateway/routes/knowledge_base.py:1091-1106 | the end is seen exactly when some round is reached whose poll answers with it |
| `WikiStream.Stream` | api_gateway/routes/knowledge_base.py:1073-1131 | the frames sent, and how often the session is started and cancelled and the client closed, for every start, exit and course of the cleanup |
| `WikiStream.CleanupOnEveryExit` | api_gateway/routes/knowledge_base.py:1115-1128 | for every exit, outcome of the cancel call and of the closing, and interruption of the wait: closed and cancelled at most once, the cancellation first, and exactly once when the cleanup task is through, which takes two or three moves |
| `WikiStream.ExitAfterCleanup` | api_gateway/routes/knowledge_base.py:1124-1128 | the generator leaves by an exception of the cleanup exactly when it waited to the end and the cleanup failed; an interruption, or a cancellation of the cleanup itself, is swallowed |

## Left out

- PromptEscaper.EscapeRoundTrip: for templates without `P`, `H`, NUL in a row; `PromptExact.EscapeLawIff` has the exact condition for all.
- PromptValidator.RevalidationIff: for templates in which no key collides; others are accepted all the same (`EscapeBranchAccepts`).
- PromptValidator.EscapeTwiceIff: for the same templates.
- PromptValidator.ValidatePromptTemplate: the identifier characters outside ASCII are a parameter; import failures of the built-in
  templates count as having none.
- FormatGrammar models the standard library's format string parser (PEP 3101, section "Format Strings"), which is not part of the
  repository, with nested specifications kept as text; `FormatPrinter.ParsesIffPrinted` says what it accepts.
- TaskManagers.TaskManager.CreateTask: one step, as the slot lock is never held across a suspension; the fields of a task other than
  key and status are not modelled, nor is shutdown.
- TaskManagers.TaskManager.Start: which tasks are given up, resumed or queued again is a parameter of the event, since it depends on fields
  not modelled; saving is taken to succeed.
- TaskManagers.TaskManager.ValidateAndEnqueue: one step with a verdict, as nothing in it suspends: the queue is unbounded.
- TaskRuns.WindowUnique: a sufficient condition on a whole run; `DirectCreateIff` has the exact one for each creation.
- TaskRuns.EndedForGood: about ended tasks as a class; `StatusStepIff` and `RevivedIff` have the exact conditions for one status.
- DetailTrim.TrimDetail: the size of a serialised value is a parameter, and no law relates it to the value.
- SearchBackfill.EventStore.BackfillSearch: the knowledge bases of a history are resolved outside; row ids and the counters of missing
  knowledge bases, steps and rows are not kept.
- SearchBackfill.AfterRun: stated for histories of different request ids, which `RequestIdClashIff` characterises.
- SearchBackfill.SecondRunIdle: stated for first runs whose selected histories have no failing transaction; `StillToDo` tells what is left to do after other runs.
- ProcessingBackfill.ForceReplaces: stated for tables whose backfill ids name their assets, which `RunKeepsTable` shows every run to keep.
- ModelRewrite.OneMatchIff: stated for values on one line; for others the matches are still model lines (`MatchIsLine`).
- ModelRewrite.RewriteIff: the YAML reader either parses or raises its own error; other exceptions of it are not modelled.
- Migration.FileSystem.Migrate: paths are compared as written, so links and aliases between targets are not seen; when a file to be
  rewritten has a backup or temporary file named like a target and some read or write fails, only the files outside are described.
- Migration.FileSystem.WriteAtomically: a rename replaces its target in one step, as on one POSIX file system, and line feeds are written as such.
- WorkerQueue.TaskManager.ResumeWorker: texts are counted, not stored; whether the callback address is set is not distinguished from a
  callback that succeeds.
- SidecarRetry.InvokeKnowledgeBase: delays are real numbers, so overflow of a very large power is not modelled, nor are settings that
  are no numbers and exceptions on closing a client, here and in the other routes; monitor rows keep no times or messages.
- WikiStream.Events: a state and its frame are compared as values instead of by their JSON texts.
- WikiStream.Stream: the cleanup task is taken to be left to run; a process that ends before it is through closes nothing.
- Filtering of knowledge bases by grants, the sweep throttle, lineage pruning and the two-salt key lookup: each is a filter or a
  comparison whose theorem is short and independent of the machines above.
- Query handling, storage readers, preset files, routing, authentication and error message sanitising: calls passed through, or
  text replacement without an invariant.

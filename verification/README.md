# Fala: a verified model of its hard core

Fala runs paths of effectors over a conduction graph, keeps every process as a durable row, scrubs the streams of
child processes, supervises those processes, and builds its own native extension.  This project models the parts
where that is hard, each in the form its code has (loops, stacks and fields where the code works by changing them,
functions where it computes), and proves what they promise over all inputs and all runs.

| files | what they model |
|---|---|
| ConductionGraph, Ancestors, Readiness, Sweep | the graph searches: transitive upstreams, readiness, deadlock diagnosis |
| Plan, Instantiation | plans, their two validators, and how a declared path becomes a plan |
| Conveyance, Conduct, Journal | what flows between processes (conduction, regulation, reactions, conditions), told by relations and as computed, and the guarded durable writes |
| Confluence, Settlement, Movement, Outcomes, RoundBound, Completion, Advance | advancement to a fixed point: as single steps, what it does to rows, when its rounds run out, when it raises, and as it runs |
| Matching, Refresh | replay: which row belongs to which planned process, scheduling and refresh |
| Runs, RunInputs | whole runs of scheduling, readiness, advancement and execution, and what processes carry in them |
| Bindings | adapter bindings and the tally of a finished run |
| Utf8, Redaction | stream redaction over UTF-8 bytes |
| ProcessHost, ProcessLaunch | the child-process handle over a nondeterministic operating system; argument vectors and the executable search |
| JsonPointer, PayloadCheck | schema checking with error pointers |
| Effects | intent, observation, act and confirmation with crashing and racing callers |
| NativeBuild | the build cache with racing and crashing builders |
| Json, Text, Sets, Wrappers | JSON values, text splitting, set sizes, options and outcomes |

How the main results fit together.  `Advance.AdvanceCorrelation` is proved to move rows only by single ready or skip
steps, to stop where no step is left, and to fail only where single steps lead to a journal that raises or to a dead
end; `Confluence.Confluent` says that any two such sequences meet; so the outcome
does not depend on order, and `Refresh.RefreshAgreesWithAdvance` follows.  The same single steps keep the order of
completion, which `Runs.RunInvariant` carries through every run, together with the matching of rows to plans and the
decisions of conditions, and `RunInputs` the inputs.  What flows is told twice: `Conveyance` says by relations on rows
and states which view of an output is conducted, how a condition is answered and what a merged input holds, and
`Conduct`, `Matching` and `Refresh` compute it.  The method of a loop is always proved against a function or predicate
written without it, and that function's own properties are proved beside it.

## Where the code does less than it says

- The round bound of advancement is not always enough: `apply_correlation_children` and `skip_process` replay a
  recorded command without touching the row, so a pending row under such a command is decided again in every round.
  Told from the journal before the call: an advancement runs out of rounds only if steps with commands still to write
  lead to a released row with its command on record, and completes only if they do not (`RoundBound.BoundFails`,
  `Advance.AdvanceCorrelation`).  Without conditions that is a released row with its readiness on record
  (`RoundBound.UnconditionalBound`), and no run of the engine reaches such a journal (`Runs.RunsConverge`).
- A plan whose inputs have a field named `""`, `__correlation_config`, `__correlation_output_schema`,
  `__correlation_conduction` or `__correlation_timeout_seconds` can be persisted, but every advancement of it is
  refused (`Advance.ShapeOfAuthored`).
- docs/PROCESS_RUNTIME.md has a non-successful condition source fail closed.  The code raises only for a source that
  is still unfinished; a source that finished without success is a miss, and the conditional process is skipped.
- docs/RUNTIME_SEMANTICS.md has terminal rewrites rejected except idempotent replays.  The journal reopens failed
  rows for retry and homeostat rows for waiting, and status.mojo lets an operator move pending rows.
  `Runs.ReopeningFinishedRow` and `Runs.MovingPendingRow` say exactly when that keeps the order of completion.
- Poll and wait part company when the clock reads the largest 64-bit integer and the deadline saturates there: wait
  takes that deadline for "never" (`ProcessHost.DeadlinesPart`).
- A wait that fails for a reason other than an interruption leaves the child unreaped, after which a handle can be
  both timed out and cancelled (`ProcessHost.BothFlags` says exactly when) and its verdict can differ from an answer
  given before the child is reaped.
- Pruning spares one digest only, though all digests share a cache and a lock: `NativeBuild.OtherDigestPrunes`
  against `NativeBuild.PublishedOnce`.
- Effects are performed at most once only while callers of a key take turns: `Effects.RacingCallersActTwice` against
  `Effects.EffectsHappenOnce`.
- `additionalProperties: false` is ignored by `check_payload` unless `properties` is given; the model does the same.

## Model

| member | source | states |
|---|---|---|
| `Ancestors.AncestorEffectors` | mojo/fala/correlation_advance.mojo:337-367 | the search with two parallel stacks and finish markers, for every graph, cyclic or not, yields exactly the listing of the recursive depth-first search |
| `Ancestors.AncestorsExact` | mojo/fala/correlation_advance.mojo:337-367 | that listing holds every declared transitive upstream except the effector itself, and nothing else, each once |
| `Ancestors.AncestorsAfterTheirUpstreams` | mojo/fala/correlation_advance.mojo:337-367 | when the graph is acyclic every listed effector comes after all of its own upstreams |
| `Readiness.FeedbackCycleMember` | mojo/fala/correlation.mojo:377-393 | the duplicate-tolerant search answers yes exactly when the start lies on a conduction cycle all of whose members are blocked |
| `Readiness.Inspect` | mojo/fala/correlation.mojo:407-421 | the unmet and the terminal upstreams of one process, in declaration order; an upstream never instantiated counts as met |
| `Readiness.AdvanceStates` | mojo/fala/correlation.mojo:396-441 | what is readied, projected and blocked of any list of states, and which blocked entries carry the cycle reason (`Sweep.SweepExact` tells what these are) |
| `Readiness.DiagnoseWait` | mojo/fala/correlation.mojo:443-452 | the diagnosis names, in order, the blocked entries marked as cycle waits that lie on a blocked cycle |
| `Readiness.DiagnosisExact` | mojo/fala/correlation.mojo:377-452 | a process is named by the diagnosis of the computed states if and only if it is held back and lies on a conduction cycle whose members are all held back |
| `Sweep.SweepExact` | mojo/fala/correlation.mojo:396-452 | one sweep, told from the states: ready are exactly the pending processes no declared upstream of which still runs, each with one value per upstream; blocked are exactly the others, each with the upstreams that still run; and the deadlock names exactly those waiting on a cycle of waiting processes |
| `Readiness.FedSetHasCycle` | mojo/fala/correlation.mojo:377-452 | in a finite graph, a set whose every member has an upstream in the set contains a cycle (by pigeonhole on a long walk) |
| `Readiness.StandstillIsNamed` | mojo/fala/correlation.mojo:443-452 | whenever nothing is readied, something is pending and every unfinished process is pending, at least one process is named |
| `CorrelationPlan.ValidateForAdvance` | mojo/fala/correlation_advance.mojo:97-133 | reports no fault exactly when the plan is advanceable: identities, path prefix, distinctness and sound references |
| `CorrelationPlan.ValidateForPersistence` | mojo/fala/correlation_persistence.mojo:64-115 | reports no fault exactly when the plan is persistable, which adds positive attempts and well-formed conditions |
| `CorrelationPlan.PersistableIsAdvanceable` | mojo/fala/correlation_persistence.mojo:64-115 | every nonempty plan the persistence validator accepts is one the advancement validator accepts |
| `Instantiation.ValidateGraph` | mojo/fala/correlation.mojo:43-66 | accepts exactly the graphs with named, distinct ids and sound references; cycles are accepted |
| `Instantiation.ValidateInputs` | mojo/fala/correlation.mojo:209-217 | accepts exactly the field lists with named, distinct, unreserved keys |
| `Instantiation.EffectorInput` | mojo/fala/correlation.mojo:236-254 | succeeds exactly when both scopes are sound, and yields the global fields overridden by the effector's own |
| `Instantiation.Instantiate` | mojo/fala/correlation.mojo:267-340 | succeeds exactly on sound requests; every process is what the path declares and the request overrides, field by field, and the plan counts as replayed exactly when all its ids exist |
| `Instantiation.PlannedAsRequested` | mojo/fala/correlation.mojo:305-340 | overrides win over what is declared key by key, own fields over global ones, and the regulation's own limit on attempts over both override and default |
| `Instantiation.InstantiatedIsAdvanceable` | mojo/fala/correlation.mojo:267-340 | a plan made from a valid path always passes the advancement validator, and the persistence validator exactly when its conditions are sound |
| `Instantiation.InstantiatedIsSchedulable` | mojo/fala/correlation.mojo:305-340 | planned inputs carry no reserved key; metadata is accepted by scheduling exactly when the schema is well formed, and carries the process's number and effector id |
| `Instantiation.InstantiatedDescribesItself` | mojo/fala/correlation.mojo:305-340 | an instantiated plan with object schemas describes itself as advancement wants it: numbers, effector ids and input names |
| `Instantiation.InstantiatedRowsMatch` | mojo/fala/correlation.mojo:305-340 | a row freshly scheduled from an instantiated plan is accepted by replay and by advancement |
| `Conduct.LoadStates` | mojo/fala/correlation_advance.mojo:231-259 | loads one state per planned process, showing the error of a row that failed, was cancelled or timed out, and fails exactly when a row is missing or its output cannot be presented |
| `Conduct.ProjectionExact` | mojo/fala/correlation_advance.mojo:287-306 | projection yields a view exactly when the output has it: the payload of a protocol result, else everything but the execution envelope, in full or cut to the properties the schema projects |
| `Conduct.PresentableMeans` | mojo/fala/correlation_advance.mojo:231-259 | a row stops every advancement exactly when its succeeded output has no accepted view or its skipped output is no object |
| `Conduct.SelectExact` | mojo/fala/correlation_advance.mojo:592-600 | selection along a dotted path finds a value exactly when a chain of object members under the path's keys leads to it |
| `Conduct.ConditionMatches` | mojo/fala/correlation_advance.mojo:555-605 | a source that finished without success answers false, an unfinished one or a malformed condition raises, and a succeeded one answers whether the scalar its projected output shows at the path is the declared one, raising when there is none |
| `Conduct.FinishedUpstreams` | mojo/fala/correlation.mojo:360-373 | the terminal upstreams of a process in declaration order, each once; an unknown upstream raises |
| `Conduct.MergeInput` | mojo/fala/correlation_advance.mojo:370-466 | the input holds, for each finished direct upstream and no other, the accepted view of its output, or its error wrapped as an object; the regulation that governs the process; the reactions of its transitive upstreams where asked for; and everything authored |
| `Conduct.MergedInputContents` | mojo/fala/correlation_advance.mojo:370-466 | a merged input holds the payload of every finished direct upstream and of no other, the path's own regulation over the inherited one, and every authored field |
| `Conduct.InheritedFromLast` | mojo/fala/correlation_advance.mojo:370-466 | a regulation key is inherited exactly when some finished upstream regulates it, with the value of the last that does |
| `Conduct.MergedInputFrame` | mojo/fala/correlation_advance.mojo:370-466 | the merged input depends only on the states of the transitive upstreams |
| `RunJournals.RunJournal.SkipProcess` | mojo/fala/journal.mojo:1214-1310 | skips an unfinished row and records the command in one write, or replays a recorded skip without writing |
| `RunJournals.RunJournal.ApplyChildren` | mojo/fala/journal.mojo:1134-1184 | readies all children in one transaction, or none; a recorded readiness is replayed without writing |
| `RunJournals.RunJournal.PersistWaitDiagnostic` | mojo/fala/correlation_advance.mojo:506-545 | moves the wait marker, which spells out the diagnosis, to the first process named if that is pending, all or nothing |
| `RunJournals.OneMarker` | mojo/fala/correlation_advance.mojo:506-545 | marking is idempotent and leaves exactly the holder marked |
| `Confluence.Confluent` | mojo/fala/correlation_advance.mojo:629-661 | two maximal sequences of single ready-or-skip steps from the same rows, in any order, end in the same statuses, outputs and errors |
| `Confluence.ReachedIsExplained` | mojo/fala/correlation_advance.mojo:629-661 | along any such sequence every changed row was decided by its finished upstreams, and finished rows are frozen |
| `Confluence.DecisionIsCondition` | mojo/fala/correlation_advance.mojo:555-605 | the decision used by single steps is the condition the code evaluates on the loaded states |
| `Confluence.EligibleIsReleased` | mojo/fala/correlation.mojo:396-441 | the code's readiness test on states is the release test on rows |
| `Settlement.PastPendingMeansAncestorsFinished` | mojo/fala/correlation_advance.mojo:629-661 | where every process past pending has finished upstreams, it has finished transitive upstreams |
| `Settlement.ReachedKeepsSettled` | mojo/fala/correlation_advance.mojo:629-661 | advancement steps keep that order of completion |
| `Advance.Admit` | mojo/fala/correlation_advance.mojo:607-626 | lets an advancement start exactly on an advanceable plan whose items are well formed and whose rows are there and its own |
| `Advance.Round` | mojo/fala/correlation_advance.mojo:629-661 | one pass: only single steps of released processes; an unchanged pass leaves nothing released and reports the wait of the final rows, a changed one lowers the number of pending rows or leaves a stuck row, and it raises only where single steps lead to a journal that raises |
| `Advance.AdvanceCorrelation` | mojo/fala/correlation_advance.mojo:607-666 | invalid and refused exactly on plans and rows that are not admissible; interrupted only where single steps lead to a journal that raises, out of rounds only where the bound fails, and complete everywhere else; whoever it moved has finished upstreams and was readied with what they conduct or skipped on a condition answered with false; a completed one leaves nobody due, has every missed condition skipped, and reports and marks the wait of the final rows |
| `Outcomes.ProgressDecides` | mojo/fala/correlation_advance.mojo:640-655 | whatever part of an advancement was carried out, every row that left pending has finished upstreams, and was readied with a true condition and the input they determine, or skipped with a false one on record |
| `Outcomes.MissIsSkipped` | mojo/fala/correlation_advance.mojo:577-588 | after a complete advancement a process whose source finished without success is skipped |
| `Advance.WaitIsReported` | mojo/fala/correlation_advance.mojo:547-553 | the reported wait is the deadlock when there is one, else every process that waits |
| `Advance.StandstillIsMarked` | mojo/fala/correlation_advance.mojo:506-553 | when nothing can move and something is pending, the rows left behind carry the marker of a deadlock on a process of it |
| `RoundBound.StuckMeansBoundFails` | mojo/fala/correlation_advance.mojo:627-663 | moves end in a stuck row only from a journal whose bound fails: steps with commands still to write lead from it to a released row with its command on record |
| `RoundBound.QuietMeansBoundHolds` | mojo/fala/correlation_advance.mojo:627-663 | moves that leave nothing released start only from a journal whose bound holds |
| `RoundBound.UnconditionalBound` | mojo/fala/correlation_advance.mojo:627-663 | for plans without conditions the bound fails exactly where a released row has its readiness on record before the call |
| `RoundBound.CleanBoundHolds` | mojo/fala/correlation_advance.mojo:627-663 | the bound holds wherever no pending row stands under a recorded command |
| `Completion.QuietMeansNoRaise` | mojo/fala/correlation_advance.mojo:607-666 | where moves leave nothing released and the rows are presentable, no journal reached from the start by single steps raises, in settled journals and for plans that accumulate no reactions |
| `Completion.ReleasedCanMove` | mojo/fala/correlation_advance.mojo:629-661 | a process released anywhere along single steps has a condition that decides, a skip that is accepted and an input that merges, if moves from the start leave nothing released |
| `Advance.ShapeOfAuthored` | mojo/fala/correlation_advance.mojo:136-152 | of the plans that can be persisted, advancement refuses exactly those whose inputs use one of five more names |
| `Movement.ProgressTransitive` | mojo/fala/correlation_advance.mojo:627-663 | progress composes, and inputs written in earlier rounds are still what the final rows determine, but for accumulated reactions in journals that are not settled |
| `Movement.StuckStays` | mojo/fala/correlation_advance.mojo:627-663 | a released row whose ready or skip command is already on record is never moved: it stays stuck whatever an advancement does |
| `Movement.StuckFromTheStart` | mojo/fala/correlation_advance.mojo:627-663 | a row stuck in the end was pending under a recorded command before the call |
| `Advance.StuckRowsExist` | mojo/fala/correlation_advance.mojo:627-663 | a one-process journal with such a row, whose bound fails |
| `Matching.FreshRowMatches` | mojo/fala/correlation_persistence.mojo:285-297 | a row just scheduled from a plan matches it |
| `Matching.FreshRowIsFresh` | mojo/fala/correlation_persistence.mojo:299-310 | a row just scheduled holds each authored field and no other authored key, its regulation is the nonempty object in its plan's metadata or as authored, a root is ready and anything else pending, and nothing has been tried or produced |
| `Matching.DurableExact` | mojo/fala/correlation_advance.mojo:161-229 | advancement takes a row for a process's own exactly when settings, authored input, plan and every other authored metadata key agree |
| `Matching.SameRowExact` | mojo/fala/correlation_persistence.mojo:236-296 | replay takes a row for a process's own exactly when these and the stored schema agree and nothing authored is reserved |
| `Matching.MatchingIsStable` | mojo/fala/correlation_persistence.mojo:236-296 | readiness merges, wait markers, adapter bindings and execution leave a matching row matching, for replay and for advancement |
| `Matching.PersistedRowsAdvance` | mojo/fala/correlation_advance.mojo:161-229 | a row that replay accepts is also the row that advancement accepts, given the plan's own number and effector id in its metadata |
| `Matching.MatchingDiscriminates` | mojo/fala/correlation_persistence.mojo:236-296 | a row matching two planned processes forces them to agree on input, config, schema, conduction, condition, timeout, priority, attempts and metadata |
| `Matching.MatchingIdentifies` | mojo/fala/correlation_persistence.mojo:236-296 | together with equal ids, effectors and numbers, the two planned processes are one |
| `Refresh.MergeRowInput` | mojo/fala/correlation_persistence.mojo:361-426 | the input that refresh merges holds what the finished upstreams conduct and pass on, the reactions read from the rows, and everything authored |
| `Refresh.MergesAgree` | mojo/fala/correlation_persistence.mojo:361-402 | for a released process the inputs merged by refresh and by advancement are equal, or differ in accumulated reactions alone |
| `Refresh.RefreshReadiness` | mojo/fala/correlation_persistence.mojo:477-524 | completes exactly on a persistable, authored, scheduled plan whose released processes have no condition and inputs that merge; then readies exactly those whose upstreams have finished, with what these conduct, leaving nobody due, and otherwise changes nothing |
| `Refresh.RefreshIsQuiescent` | mojo/fala/correlation_persistence.mojo:477-524 | for a plan without conditions on released rows, one refresh is a maximal sequence of single steps |
| `Refresh.RefreshDecides` | mojo/fala/correlation_persistence.mojo:477-524 | whoever a refresh readied had all its upstreams finished and carries what they conduct, and afterwards nobody is due |
| `Refresh.RefreshAgreesWithAdvance` | mojo/fala/correlation_persistence.mojo:477-524 | hence one refresh and a complete advancement, of any rows, leave the same statuses, outputs and errors and inject the same conduction and regulation |
| `Refresh.PersistPlan` | mojo/fala/correlation_persistence.mojo:534-552 | completes exactly when the plan is valid, the rows there match it and the rows with the missing ones scheduled can be refreshed; missing rows are scheduled with the authored input and the path's own regulation, roots ready and the rest pending, and a refresh follows; conflicts without writing, and never over matching rows |
| `Refresh.ReplayOnlyRefreshes` | mojo/fala/correlation_persistence.mojo:534-552 | persisting a fully scheduled plan again over matching rows schedules nothing, and completes exactly when the rows can be refreshed |
| `Refresh.AdvanceKeepsMatching` | mojo/fala/correlation_advance.mojo:607-666 | rows still match their plan after any advancement |
| `Refresh.RefreshKeepsMatching` | mojo/fala/correlation_persistence.mojo:477-524 | rows still match their plan after any refresh |
| `Runs.RunInvariant` | mojo/fala/correlation_advance.mojo:629-661 | over every run of schedule, refresh, advance, execute and bind steps: processes past pending have finished upstreams, conditions were decided by their sources, commands agree with rows, rows match the plan, and a plan with rows is authored |
| `Runs.RunForward` | mojo/fala/status.mojo:152-204 | rows never vanish or return to pending, and finished rows never change |
| `Runs.NothingStartsEarly` | mojo/fala/correlation_advance.mojo:629-661 | in every run a process past pending has all its transitive upstreams finished |
| `Runs.CyclesNeverStart` | mojo/fala/correlation.mojo:377-452 | in every run the members of a conduction cycle, and whatever waits on one, stay pending |
| `Runs.DiagnosedNeverReadied` | mojo/fala/correlation.mojo:407-452 | a process once named in a deadlock diagnosis is pending at every moment of the run |
| `Runs.OnlyMatchedRun` | mojo/fala/correlation_advance.mojo:640-655 | a conditional process past pending and not skipped has a succeeded source whose selected scalar equals the declared value |
| `Runs.ExclusiveConditions` | mojo/fala/correlation_advance.mojo:555-605 | two processes comparing the same upstream value with different scalars never both leave pending without being skipped |
| `Runs.MovingPendingRow` | mojo/fala/status.mojo:152-165 | an operator's move of a pending row keeps the order of completion if and only if the row's upstreams had finished before |
| `Runs.ReopeningFinishedRow` | mojo/fala/journal.mojo:1262-1262 | reopening a finished row, as retry of a failed row does, keeps the order of completion if and only if none of its dependents has left pending |
| `Runs.ReplayNeverConflicts` | mojo/fala/correlation_persistence.mojo:534-552 | at every moment of every run all rows match the plan, so persisting it again cannot conflict; once scheduled it completes exactly when the rows can be refreshed |
| `Runs.RunsConverge` | mojo/fala/correlation_advance.mojo:627-663 | at every moment of every run the journal is coherent and settled and its bound holds, and a scheduled plan that describes itself is admitted, so that an advancement completes unless something reached by single steps raises |
| `RunInputs.RunnersCarryWhatWasConducted` | mojo/fala/correlation_advance.mojo:370-466 | at every moment of every run a process with upstreams that is past pending and not skipped carries what its finished upstreams conduct and pass on beside what was authored |
| `RunInputs.RootsCarryWhatWasAuthored` | mojo/fala/correlation_persistence.mojo:299-310 | at every moment of every run a root carries its authored input and its own regulation |
| `RunInputs.RegulationReaches` | mojo/fala/correlation_advance.mojo:420-444 | a key that a finished upstream's input regulates is regulated in the merged input, with its value unless the path itself or a later upstream says otherwise |
| `RunInputs.RootRegulationReaches` | mojo/fala/correlation_advance.mojo:420-444 | in every run what a root's path regulates is regulated for each direct dependent that runs, with the root's value when nothing else regulates it |
| `RunInputs.MissedNeverRuns` | mojo/fala/correlation_advance.mojo:577-588 | in every run a conditional process whose source finished without success is skipped once it is past pending |
| `RunInputs.RunnersMatched` | mojo/fala/correlation_advance.mojo:577-605 | in every run a conditional process that runs has a succeeded source whose projected output shows the declared scalar at the path |
| `Bindings.BindingIndex` | mojo/fala/correlation_runtime.mojo:53-61 | finds the sole binding of a process, and tells none from several |
| `Bindings.ValidateBindings` | mojo/fala/correlation_runtime.mojo:64-83 | accepts exactly when the counts agree, every binding is sound and every process is bound once |
| `Bindings.CoveringIsBijection` | mojo/fala/correlation_runtime.mojo:64-83 | which holds if and only if the bound ids and the planned ids are the same multiset: no stray binding has room |
| `Bindings.TallyRows` | mojo/fala/correlation_runtime.mojo:175-192 | the counts of completed, failed, waiting and incomplete rows |
| `Utf8.BoundaryIff` | mojo/fala/adapters.mojo:272-286 | in valid UTF-8 (sections 3 and 4 of RFC 3629) the codepoint boundaries are exactly the positions not inside a codepoint |
| `Utf8.OccurrenceIsAligned` | mojo/fala/adapters.mojo:288-302 | valid nonempty text occurs in valid text only from one boundary to another |
| `Redaction.SortLongestFirst` | mojo/fala/adapters.mojo:237-245 | the in-place insertion sort computes the recursive longest-first sort |
| `Redaction.LongestFirstSorts` | mojo/fala/adapters.mojo:237-245 | that sort is non-increasing in length, a permutation, and stable |
| `Redaction.RedactionValues` | mojo/fala/adapters.mojo:225-246 | collects the nonempty non-ambient values, longest first |
| `Redaction.CodepointEnd` | mojo/fala/adapters.mojo:272-286 | the end of the codepoint at a boundary is the next boundary |
| `Redaction.BytesEqualAt` | mojo/fala/adapters.mojo:288-302 | says exactly whether the secret occurs at the position |
| `Redaction.RedactOne` | mojo/fala/adapters.mojo:316-328 | one codepoint walk equals naive leftmost non-overlapping byte replacement; the result is valid UTF-8 and every slice taken lies between boundaries |
| `Redaction.RedactEnvironment` | mojo/fala/adapters.mojo:304-329 | the whole scrub equals one byte replacement per secret, longest first |
| `Redaction.PassRemoves` | mojo/fala/adapters.mojo:304-329 | one pass removes its secret and creates no occurrence of any value foreign to the marker |
| `Redaction.NoSecretSurvives` | mojo/fala/adapters.mojo:304-329 | after all passes no secret sharing no byte with the marker occurs anywhere, not even across inserted markers |
| `Redaction.StreamsAreClean` | mojo/fala/adapters.mojo:225-329 | hence no nonempty, non-ambient environment value foreign to the marker occurs in the scrubbed stream |
| `Redaction.UntouchedWithoutSecret` | mojo/fala/adapters.mojo:304-329 | text in which the secret does not occur passes unchanged |
| `ProcessHost.OneDeadline` | mojo/fala/native_process_host.c:397-430 | below the largest 64-bit integer poll and wait time out at the same readings: those at or past started + timeout over the integers |
| `ProcessHost.DeadlinesPart` | mojo/fala/native_process_host.c:397-430 | poll and wait disagree exactly when the clock reads the largest integer and the deadline saturates |
| `ProcessHost.LateForBoth` | mojo/fala/native_process_host.c:385-438 | whole call logs: whether a probe was late does not depend on which of the two asks |
| `ProcessHost.Process.RecordWait` | mojo/fala/native_process_host.c:69-82 | the report of a reaped child: status, exit code and signal from how it ended and which flags are up |
| `ProcessHost.Process.ReapBlocking` | mojo/fala/native_process_host.c:84-97 | reaps the child, retrying interruptions, or leaves a failed wait behind |
| `ProcessHost.Process.TerminateGroup` | mojo/fala/native_process_host.c:99-139 | SIGTERM first; SIGKILL exactly when a reading of the clock finds the grace period over, and only the full period after the SIGTERM; ends reaped unless a wait fails |
| `ProcessHost.Process.Start` | mojo/fala/native_process_host.c:312-381 | options out of range give no handle; a failed start gives a finished one |
| `ProcessHost.Process.Poll` | mojo/fala/native_process_host.c:385-408 | answers "timed out" exactly when its probe finds the child alive past the deadline, and an error exactly when its wait fails; for a child reaped before it answers, from the calls on record, "timed out" exactly when a SIGTERM was sent right after a late probe, "cancelled" exactly when one was sent only without, an error exactly for a failed start, and OK otherwise |
| `ProcessHost.Process.Wait` | mojo/fala/native_process_host.c:410-438 | the same over all its probes, returning OK only for a reaped child, and the same answers from the record for a child reaped before |
| `ProcessHost.Process.Cancel` | mojo/fala/native_process_host.c:440-447 | starts ending a live child with SIGTERM, reaps it unless a wait fails, leaves a reaped one as it is, and answers "cancelled" exactly for a reaped child |
| `ProcessHost.Process.Destroy` | mojo/fala/native_process_host.c:449-456 | leaves the child reaped unless a wait fails |
| `ProcessHost.BothFlags` | mojo/fala/native_process_host.c:69-456 | both flags are up exactly when SIGTERM was sent once right after a late probe and once without one, and then a wait had failed |
| `ProcessHost.StatusIsOnRecord` | mojo/fala/native_process_host.c:69-82 | the report of a reaped child told from the calls on record: its own exit code, or the signal with "timed out", "cancelled" or neither as the SIGTERMs sent before say |
| `ProcessHost.Life` | mojo/fala/native_process_host.c:69-456 | over every sequence of calls from start to destruction: reaped at most once and never asked about or signalled afterwards, every SIGKILL the grace asked for, or 100 milliseconds by default, after the SIGTERM before it, never both answers "timed out" and "cancelled", and after reaping the one answer that the calls on record give |
| `ProcessLaunch.HoldsOne` | mojo/fala/native_process_host.c:264-276 | a buffer holds at most one vector of a given length, so packing loses nothing |
| `ProcessLaunch.BlobVector` | mojo/fala/native_process_host.c:264-276 | recovers exactly the packed strings |
| `ProcessLaunch.ResolveExecutable` | mojo/fala/native_process_host.c:188-262 | the answer is the first executable candidate in search order, or none when no candidate is executable |
| `ProcessLaunch.SearchPathExact` | mojo/fala/native_process_host.c:207-217 | the search path is what follows the first PATH= of the environment, and a fixed default without one |
| `ProcessLaunch.CandidatesAreAbsolute` | mojo/fala/native_process_host.c:173-262 | from an absolute current directory only absolute files are considered |
| `ProcessLaunch.PathIsItsDirectories` | mojo/fala/native_process_host.c:225-258 | the candidates are one per directory of the search path, empty directories standing for the working one |
| `JsonPointer.EscapeRoundTrip` | python/fala/conformance.py:132-133 | unescaping as section 4 of RFC 6901 prescribes undoes the token escaping exactly |
| `JsonPointer.PointerRoundTrip` | python/fala/conformance.py:132-133 | a pointer splits and unescapes (sections 3 and 4 of RFC 6901) to the tokens it was made from |
| `JsonPointer.PointersDiffer` | python/fala/conformance.py:132-133 | distinct key paths have distinct pointers |
| `JsonPointer.DecimalRoundTrip` | python/fala/conformance.py:238-240 | an array index token reads back as that index under the standard's syntax |
| `PayloadCheck.CheckPayload` | python/fala/conformance.py:188-279 | the loops with early raises report nothing exactly when the payload conforms, and otherwise the pointer of the first fault: the steps lead through items and properties of payload and schema alike to a node at fault, and everything checked before it conforms |
| `PayloadCheck.CheckExact` | python/fala/conformance.py:188-279 | no error is reported if and only if the payload conforms to the schema, defined without order, paths or counters; the base path is irrelevant |
| `PayloadCheck.MatchesExact` | python/fala/conformance.py:259-279 | the match counter decides "exactly one", "some" and "all" of the branches |
| `PayloadCheck.ErrorIsFirstFault` | python/fala/conformance.py:188-279 | the reported pointer is the base path followed by the steps to the first fault and the token at fault there, if it is one |
| `PayloadCheck.FaultIsUnique` | python/fala/conformance.py:188-279 | a payload has one first fault, so the pointer is determined |
| `PayloadCheck.FaultFails` | python/fala/conformance.py:188-279 | a value with a fault anywhere below does not conform |
| `PayloadCheck.ErrorPointersResolve` | python/fala/conformance.py:188-279 | every error pointer extends the base path and reads back as tokens that, after dropping at most the last, lead to a node of the payload |
| `Effects.CommandJournal.RecordEffectIntent` | mojo/fala/effect_protocol.mojo:48-58 | records the intent, accepts the same one again and refuses a different one under its key |
| `Effects.CommandJournal.ReconcileEffect` | mojo/fala/effect_protocol.mojo:61-77 | act, confirm or fail closed, with the log it leaves in each case |
| `Effects.Reconciled` | mojo/fala/effect_protocol.mojo:61-77 | any decision has its intent on record; act exactly on an absent observation; a confirmation only of a matching identity with evidence, durably recorded |
| `Effects.ReconciledExact` | mojo/fala/effect_protocol.mojo:48-77 | it acts exactly when the intent can stand on record and the effect is absent, confirms exactly when a matching observation has the desired identity and evidence and nothing else is on record, and puts exactly these commands there |
| `Effects.ReplayIsStable` | mojo/fala/effect_protocol.mojo:61-77 | the same observation gets the same answer again, from any later log, and writes nothing |
| `Effects.EffectsAreSafe` | mojo/fala/effect_protocol.mojo:48-77 | over every run of racing and crashing callers: who may act has its intent on record, effects carry the recorded identity, and all confirmations for a key are identical and carry it |
| `Effects.EffectsHappenOnce` | mojo/fala/effect_protocol.mojo:48-77 | with truthful observations and one caller at a time per key, each effect takes place at most once, and a confirmed one exactly once with the confirmed identity |
| `Effects.RacingCallersActTwice` | mojo/fala/effect_protocol.mojo:61-77 | two callers at once, both observing the truth, perform the effect twice |
| `Effects.AloneIsReconciled` | mojo/fala/effect_protocol.mojo:48-77 | a caller left alone for five transactions does exactly one uninterrupted reconciliation |
| `NativeBuild.NamesApart` | python/fala/_build.py:377-381 | no artifact of a dotless digest passes for a temporary file, and every temporary file is globbed as one |
| `NativeBuild.CacheDirectory.PruneStale` | python/fala/_build.py:410-422 | the two pruning loops leave the kept artifact and whatever the pattern does not match, and nothing else |
| `NativeBuild.CacheIsSafe` | python/fala/_build.py:289-461 | over every run of racing and crashing builders: one past the lock at most, artifacts complete, temporary files of live builders never pruned, never a publish over a present artifact, and publishes and removals balance |
| `NativeBuild.OnlyOthersPrune` | python/fala/_build.py:372-422 | a step removes a published artifact if and only if it is a prune by a builder of another digest; no step changes one |
| `NativeBuild.PublishedOnce` | python/fala/_build.py:425-461 | when all want one digest, at most one build is published and what a process was given stays, complete |
| `NativeBuild.OtherDigestPrunes` | python/fala/_build.py:410-461 | with two digests in one cache, a process is given an artifact that the other then prunes |

## Left out

- JSON text: parsing, printing and canonical text are structural equality of JSON values; integers and floats are distinct values.
- Calls into code outside these files (schema property names and validation in the journal's validator, the reaction filter) are function parameters of `Conveyance.Boundary`; nothing is assumed of them.
- SQLite, leases, timestamps, run rows, events and the rest of journal.mojo: journal calls are atomic guarded writes; conflicts of a replayed command over its timestamp or actor are not modelled.
- The crash window between the two transactions that schedule new rows (mojo/fala/correlation_persistence.mojo:428-460): `Refresh.ScheduleMissing` is one atomic step, and nothing is claimed about an interrupted scheduling.
- Refresh.RefreshAgreesWithAdvance: says nothing of `upstream_reactions`, because advancement reads the errors of failed ancestors there and refresh their outputs.
- Runs.RunInvariant: its runs have no operator move of a pending row and no reopening of a finished one; `Runs.MovingPendingRow` and `Runs.ReopeningFinishedRow` give the exact conditions for these.
- Advance.AdvanceCorrelation: that completing shows nothing reachable to raise is stated for settled journals and for plans that accumulate no reactions; in a journal that is not settled the reactions a process gets depend on the moment it is readied, and so may an error of the reaction filter.
- Movement.ProgressTransitive: in journals that are not settled the accumulated reactions of an input are those of the moment it was written.
- Redaction.NoSecretSurvives: secrets that share a byte with the marker are excluded, since for them it is false by construction.
- ProcessHost.Life: termination rests on an environment that lets fruitless probes happen only finitely often; safety holds of every prefix of calls. Null handles, memory exhaustion, descriptors, redirects and file actions, and the conversion of clock structures to milliseconds are not modelled; an interrupted sleep is a longer one.
- ProcessLaunch.ResolveExecutable: the environment is always the child's own, as both start functions pass it; `getcwd` and `access` are parameters.
- Instantiation.Instantiate: metadata is built as a JSON object, which is what the code's unescaped text reads as for ids and capabilities without quotes, backslashes and control characters; the order in which several faults of one request are reported is not modelled.
- PayloadCheck.CheckPayload: schemas are well typed (a property that is not a schema is allowed and ignored), NaN does not occur, and Python equality, where true equals 1 and 1.0, is written out.
- Effects.EffectsAreSafe: other parts of the runtime are taken to add only commands of other kinds.
- NativeBuild.CacheIsSafe: a compiler reporting success with a nonempty file is taken to have written it completely, names of temporary files never repeat, only one cache directory is modelled and sources do not change during a build; orphaned compilers of crashed builders may go on writing.
- native_driver.mojo, host_journal.mojo, ops_bridge.mojo and the worker loop appear only as the execution steps of `Runs.Executes`.
- correlation_runtime.mojo's run identity checks and its sequence of journal calls: field comparisons and delegation.
- protocol.py, effector_protocol.mojo, compensation.mojo, bridge_transport.mojo, domain.mojo, execution_metadata.mojo, graph_compatibility.mojo: they would add field checks and single-function claims only.
- The command line, SDK, reading, inspection and rehearsal modules: input, output and packaging.

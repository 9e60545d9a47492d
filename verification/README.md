# A verified model of the SkyWalking Python agent's core

The project models the parts of the agent in which several things have to agree at once: the engine
that turns nested and concurrent spans into segments, the headers that carry a trace from one process
to the next, the allocator of profiling slots, the compiler of ignored paths, the reporter pipeline and
its shutdown, and a few codecs. To verify: `dafny verify dfyconfig.toml`.

## The files

| file | what it holds |
|---|---|
| `TraceEngine.dfy` | spans, contexts, segments and span stacks of any number of tasks, as steps on one value |
| `TraceInvariant.dfy` | the invariant of the engine, and that starting, stopping and creating keep it |
| `TraceRuns.dfy` | whole runs: when and with what a segment is archived, what happens to the stacks |
| `TraceLineage.dfy` | headers and snapshots between tasks and processes: suppression and trace ids |
| `TraceReferences.dfy` | what the references of a segment name |
| `TraceParents.dfy` | what an entered span is, and that parent ids are those of the nesting |
| `TraceFrames.dfy` | what creating, starting and stopping leave alone |
| `TraceFirstRefs.dfy`, `TraceChains.dfy` | the first reference of every segment, and chains of first references |
| `TraceFinality.dfy` | what happens to a segment after it has been handed over |
| `TraceLateStart.dfy` | creating and starting a span as two steps |
| `TraceExamples.dfy` | runs from the initial state that reach the situations in which a property fails |
| `TraceObjects.dfy` | the same operations on mutable objects, with the span lists that tasks share |
| `TraceRuntime.dfy` | all objects together: the world they show changes as the engine's steps say |
| `Carrier.dfy`, `Base64.dfy`, `Text.dfy` | the `sw8` and `sw8-correlation` headers, base64, strings |
| `ProfileSlots.dfy` | request threads and the profiler thread racing for profiling slots |
| `ProfileService.dfy` | admission, start and stop of profile tasks |
| `AntCompiler.dfy`, `AntMatcher.dfy` | ignored paths: from pattern to regular expression to meaning |
| `Reporter.dfy` | queue, batches, drops, shutdown |
| `BatchWindow.dfy` | how long a batch may wait |
| `Supervisor.dfy` | the asyncio root and its background tasks |
| `Backends.dfy` | collector addresses |
| `Pkcs8.dfy` | wrapping of RSA keys |
| `Histogram.dfy` | histogram meters |

Concurrent code is modelled as a state machine whose steps are the atomic accesses of the original (one
compare-and-set, one queue operation, one section under a lock); a run is any sequence of enabled steps,
and the main theorems hold at the end of every run, hence at every moment. Where the original changes
objects in place there is a class beside the state machine, with contracts stated by the same functions.

Clocks, random ids, operation filters, lookups and RPC outcomes are parameters or choices of a step.
Identities of Python objects are numbers. Text in headers is given by its bytes.

## Where the code does not do what one would expect

* A parent of the same kind is reused without a test that it is still open
  (`skywalking/trace/context.py:158`, `:181`). The invariant survives a reuse exactly when the parent is
  open (`TraceRuns.ReuseNeedsLiveParent`); a reused parent whose segment has been archived archives it a
  second time (`TraceRuns.ReusedFinishedParentArchivesTwice`), which a run of five steps reaches
  (`TraceExamples.FinishedParentIsReused`). Runs in the other theorems do not reuse finished parents.
* A span that is created under an open parent and started after the parent's segment has been handed
  over hands it over again, and a segment is handed over without the spans that have been created and not
  started. `TraceLateStart.ActKeepsSettled` and `TraceLateStart.HandOverIsComplete` give the exact
  conditions for creating and starting as separate steps, `TraceLateStart.LateStartIsReached` a run. In
  the other theorems a span is started where it is created.
* A finished parent is referred to through a carrier whose validity test takes the length of the
  parent's peer, and raises when there is none and no earlier field is empty
  (`TraceReferences.SplitNamesParent`).
* A segment whose made-up trace id has been injected or captured and that is then related to another
  trace leaves two ids behind for one trace; `TraceLineage.OneTraceUnlessRewritten` gives the exact
  condition, `TraceExamples.SentTraceIsRewritten` a run.
* A carrier that is not valid relates a segment to a trace without adding a reference
  (`skywalking/trace/span.py:128-132`). That is harmless by itself, but the first reference that comes
  later may then name another trace than the segment's, as when a Kafka consumer extracts a record
  without a header before one with it (`TraceExamples.DrawnIdBeforeReference`,
  `TraceExamples.SecondMisnames`). `TraceFirstRefs.FirstReferenceNamesTrace` gives the exact condition;
  the shared trace id is proved for the runs that keep both conditions.
* A segment that has been handed over changes when a task that inherited one of its spans as its topmost
  one continues a snapshot in it, or when one of its spans is extracted into or altered, and not otherwise
  (`TraceFinality.ArchivedSegmentIsFinal`, `TraceFinality.ArchivedSegmentIsChanged`).
* Suppression travels with stacks and headers, not with snapshots: a snapshot of a suppressed context is
  ignored where it is resumed (`TraceLineage.SuppressedSnapshotIsIgnored`).
* Leaving a span takes it off the stack exactly when its depth is one
  (`TraceRuns.LeaveRestoresStack`), so a block is properly nested only if its span is left at the depth
  it was entered with.
* Each chunk of a path pattern is stripped of white space, so compilation is one tokenisation exactly
  when no chunk begins or ends with it (`AntCompiler.CompilesAsOnePass`, with `AntCompiler.BlankIsLost`). A path that
  ends in a line feed also matches when the path without it does (`AntMatcher.CompiledTextMatches`).
* The drop total is read and written back without a lock; `Reporter.OverlappingReportsLoseACount` shows
  the loss, `Reporter.TotalExactUnlessOverwritten` when there is none.
* A profile task is checked against the queue and put into it in two steps, and a removal takes the queue
  apart meanwhile. Either can spoil the order of finish times; `ProfileService.MoveKeepsOrder` gives the
  exact condition, `ProfileService.AdditionDuringRemovalBreaksOrder` and
  `ProfileService.RacingAdditionsBreakOrder` a run each.
* The last command time is compared and assigned without a lock (`skywalking/profile/profile_service.py:93-94`),
  so an older create time can replace a newer one; `ProfileService.MoveKeepsLast` gives the exact
  condition, `ProfileService.RacingUpdatesLoseNewest` a run.
* A PKCS#1 body that consists of the words of the closing line is taken for an empty key, because the
  closing line is then found in the dashes of the opening line (`Pkcs8.NormalizesEveryLayout`).
* The PKCS#8 header always uses two length bytes, so readers that insist on the shortest form accept it
  only from 256 key bytes on (`Pkcs8.WrappedUnwraps`).
* A host name with a colon can be parsed out of brackets but is printed without them
  (`Backends.ParsedAddresses`).
* The comment on the RPC timeout promises more than the queue window plus the margin; it is equal to it
  from five seconds on (`BatchWindow.CallOutlivesWindow`).

## Model

| member | source | states |
|---|---|---|
| `TraceRuns.StepKeepsInv` | skywalking/trace/context.py:113-229 | every step of any task keeps the engine's invariant: live counts equal the number of open spans, span ids are dense, parents are earlier spans of the same segment, stacks are duplicate-free, a traced context is archived exactly when it has no open span |
| `TraceRuns.EverySegmentArchivedOnce` | skywalking/trace/context.py:203-229 | after every run each archived segment holds every span of its context exactly once, with span ids exactly 0 to n-1, one root and every other parent an earlier span of the segment; no segment is archived twice; a traced context is archived exactly when none of its spans is open; suppressed ones never |
| `TraceRuns.RunExtendsArchive` | skywalking/trace/context.py:223-227 | hand-overs are only ever added |
| `TraceFinality.ArchivedSegmentIsFinal` | skywalking/trace/context.py:276-284 | a step leaves a segment that was handed over, its trace ids and its spans unchanged if and only if it neither continues a snapshot in it nor extracts into or alters one of its spans |
| `TraceFinality.ArchivedSegmentStays` | skywalking/trace/context.py:214-229 | so does every run without such a step |
| `TraceFinality.ArchivedSegmentIsChanged` | skywalking/trace/context.py:279-283 | a run from the initial state that ends in such a step |
| `TraceLateStart.ActKeepsSettled` | skywalking/trace/context.py:203-229 | with creating and starting as separate steps, every act keeps live counts right and every hand-over single and final if and only if it does not start a span that is not open in a segment that was handed over |
| `TraceLateStart.HandedOverOnce` | skywalking/trace/context.py:203-229 | so over every run without such a start no segment is handed over twice or while a span of it is open |
| `TraceLateStart.ActKeepsTidy` | skywalking/trace/context.py:214-221 | every act keeps each segment's finished spans distinct and its own, and what was handed over what the segment holds, if and only if it does not start a finished span again |
| `TraceLateStart.HandOverIsComplete` | skywalking/trace/context.py:223-226 | a hand-over holds spans of its context, each once, and all of them if and only if none is waiting to be started |
| `TraceLateStart.HandOvers` | skywalking/trace/context.py:203-229 | both, and single hand-over, for every run from the initial state without a late or repeated start |
| `TraceLateStart.LateStartArchivesTwice` | skywalking/trace/context.py:203-226 | such a start, once stopped, hands the segment over a second time |
| `TraceLateStart.LateStartIsReached` | skywalking/trace/context.py:113-119 | a run from the initial state that reaches it |
| `TraceRuns.PrimaryIsFirstEntry` | skywalking/trace/context.py:77-93 | the primary endpoint is the first entry span of the context, or span 0 when there is no entry span |
| `TraceRuns.ReuseNeedsLiveParent` | skywalking/trace/context.py:158-164 | reuse of a parent keeps the invariant if and only if the parent is open |
| `TraceRuns.ReusedFinishedParentArchivesTwice` | skywalking/trace/context.py:181-185 | reuse of a parent whose segment is archived ends in a second archive of that segment |
| `TraceExamples.FinishedParentIsReused` | skywalking/trace/context.py:181-185 | a run from the initial state after which a request takes over a finished parent, the invariant fails and the segment is archived twice |
| `TraceRuns.LeaveRestoresStack` | skywalking/trace/context.py:214-221 | leaving the topmost span restores the stack below it if and only if its depth is one |
| `TraceRuns.NestedBlocksRestoreStack` | skywalking/trace/span.py:141-151 | a properly nested block, with any steps of other tasks in between, leaves its task's stack as it found it |
| `TraceInvariant.StartKeepsInv` | skywalking/trace/context.py:203-212 | starting a pending span keeps the invariant |
| `TraceInvariant.StopKeepsInv` | skywalking/trace/context.py:214-229 | the stop that ends a span keeps the invariant, including what is archived and when |
| `TraceLineage.SuppressionReachesTheWholeCallTree` | skywalking/trace/context.py:107-111 | after every run over tasks and processes, each span downstream of a suppressed span, through stacks and headers, is suppressed and in no archived segment |
| `TraceLineage.EmptyHeaderSuppresses` | skywalking/trace/span.py:226-234 | the header a suppressed span injects is received as a suppressed carrier |
| `TraceLineage.OneTraceUnlessRewritten` | skywalking/trace/segment.py:89-92 | a step keeps everything read from a segment in agreement with the segment's trace id if and only if it does not relate a segment whose made-up id has already been read to a different id |
| `TraceLineage.AdoptedTracesAgree` | skywalking/trace/segment.py:89-92 | after every run without such a step, segments that took their trace ids from each other have the same |
| `TraceExamples.SentTraceIsRewritten` | skywalking/trace/span.py:128 | for any names and ids, a run from the initial state and such a step, after which a header on the wire disagrees with its segment |
| `TraceFirstRefs.StepRefs` | skywalking/trace/span.py:124-139 | which references every step adds to which span, and that all others stay in place and order |
| `TraceFirstRefs.FirstReferenceNamesTrace` | skywalking/trace/span.py:128-137 | a step keeps every segment's first reference in the segment's own trace if and only if it does not give a segment without references a first one that names another trace: a segment whose id is settled and a carrier or snapshot with another id, a split whose parent's carrier is not valid and a carrier with another id, a snapshot without a trace id |
| `TraceChains.FirstReferenceSharesTrace` | skywalking/trace/segment.py:31-40 | after every run that keeps both conditions, a segment's first reference stands first in one of its spans, names the segment's trace, and any segment whose id it names is in the same trace |
| `TraceChains.LinkedSegmentsShareTrace` | skywalking/trace/span.py:124-139 | after every such run, segments joined by a chain of first references, across processes, threads and finished parents, have the same trace id |
| `TraceExamples.SecondMisnames` | skywalking/trace/span.py:131-137 | in the run below the extraction without a header satisfies that condition, and the one with a header does if and only if it names the drawn id |
| `TraceExamples.DrawnIdBeforeReference` | skywalking/trace/span.py:128-132 | for any names and ids, a run from the initial state that rewrites nothing and after which a segment's first reference names another trace than its own |
| `TraceLineage.TraceIdChangesAtMostOnce` | skywalking/trace/segment.py:89-92 | over any run the trace id of a segment changes only from made-up to received, never again |
| `TraceLineage.SuppressedSnapshotIsIgnored` | skywalking/trace/context.py:319-326 | a snapshot of a suppressed context changes nothing where it is resumed |
| `TraceReferences.DeliveredRequestNamesSender` | skywalking/trace/span.py:212-222 | the header of an exit span, received in a task without spans, gives a segment whose root's only reference names that very span, segment, service and peer and which belongs to the sender's trace; an incomplete sender suppresses it instead |
| `TraceReferences.SplitNamesParent` | skywalking/trace/context.py:113-136 | the child of a finished parent is the root of a new segment of the parent's trace whose first reference names the parent, followed by that of a carrier brought along; creation raises if and only if the parent has no peer and everything else is non-empty |
| `TraceReferences.ResumedNamesCaptured` | skywalking/trace/context.py:263-284 | a snapshot resumed in another segment adds a reference to the captured span and relates the segment to its trace |
| `TraceReferences.ContinuesForeignSnapshots` | skywalking/trace/context.py:276-283 | a snapshot that is incomplete, of the same segment or resumed in a suppressed context changes nothing; any other adds exactly one reference and relates the segment |
| `TraceParents.UnwantedIsSuppressed` | skywalking/trace/context.py:106-111 | an ignored operation, a suppressed carrier on an entry span, a suppressed context or a refused sample each give an untraced span in a suppressed context and change no other span |
| `TraceParents.KinTakesOver` | skywalking/trace/context.py:158-191 | exactly an entry parent whose component the request inherits, or an exit parent whose inheritance is the request's component, takes over: it keeps its ids and gets the operation, an exit span also peer, component and inheritance, and no span is made |
| `TraceParents.EntryMakesChild` | skywalking/trace/context.py:113-119 | in every other case a span is made with the request's operation, kind and peer: under an open topmost span its parent id is that span's id and its own the next of that context, otherwise they are -1 and 0 in a new context |
| `TraceParents.EntryCounts` | skywalking/trace/context.py:96-119 | the context counts one span id and one open span more; a new one holds the ids drawn, no finished span, and the span as primary endpoint |
| `TraceParents.StepKeepsIds` | skywalking/trace/context.py:116-119 | no step changes context, ids or kind of a span, and only an entry makes one |
| `TraceParents.SegmentIsTheNesting` | skywalking/trace/context.py:113-119 | in every run, every span of an archived segment but span 0 was entered on top of another span of it, whose span id is its parent id; span 0 was entered on top of none of them |
| `TraceObjects.Task.Spawn` | skywalking/trace/context.py:40-49 | a new task starts with the very list of its parent |
| `TraceObjects.Task.Dup` | skywalking/trace/context.py:51-55 | a task that is about to change its list gets its own copy |
| `TraceObjects.Segment.Relate` | skywalking/trace/segment.py:89-92 | the list of related traces becomes what the engine's function says, the made-up id replaced |
| `TraceObjects.SpanContext.NewChild` | skywalking/trace/context.py:113-119 | the child has the parent's span id as parent id, or -1, the next span id, and operation, kind, peer and component of the request; nothing else of the context changes |
| `TraceObjects.SpanContext.SplitOff` | skywalking/trace/context.py:121-136 | a finished parent's child gets a fresh context and segment, related and referring to the parent; or the reference raises |
| `TraceObjects.GetContext` | skywalking/trace/context.py:332-341 | the topmost span's context, or a fresh traced or suppressed one |
| `TraceObjects.SpanContext.IgnoreCheck` | skywalking/trace/context.py:106-111 | a suppressed span in a context of its own, exactly when the operation is ignored or the carrier suppressed |
| `TraceObjects.SpanContext.NewSpan` | skywalking/trace/context.py:113-136 | a child of this context with its parent's span id or, under a finished parent, the root of a fresh one; operation, kind and peer are the request's |
| `TraceObjects.SpanContext.NewLocalSpan` | skywalking/trace/context.py:138-144 | the outcome in every case: suppressed context, ignored, finished parent, open parent or none |
| `TraceObjects.SpanContext.NewEntrySpan` | skywalking/trace/context.py:146-172 | the same with reuse of an entry parent and the extraction of a valid carrier |
| `TraceObjects.SpanContext.NewExitSpan` | skywalking/trace/context.py:174-193 | the same with reuse of an exit parent and inheritance |
| `TraceObjects.OutcomeIsCreate` | skywalking/trace/context.py:138-193 | that outcome, on the context `get_context` returned, is the span and the context of the engine's step on values, and raises exactly when the step does |
| `TraceRuntime.Begin` | skywalking/trace/context.py:40-49 | a thread with an empty list of its own; all objects together show the world with its stack added |
| `TraceRuntime.Spawn` | skywalking/trace/context.py:40-49 | a task that shares its parent's list object; all objects together show the world with the parent's stack copied |
| `TraceRuntime.Create` | skywalking/trace/context.py:113-193 | for any number of tasks that share lists, `get_context` and `new_*_span` make all objects show exactly the world of the engine's step, or raise exactly when it does and leave the old one |
| `TraceRuntime.Start` | skywalking/trace/context.py:203-212 | `start` makes all objects show exactly the world of the engine's step: every other task's stack, span and context unchanged |
| `TraceRuntime.Leave` | skywalking/trace/context.py:214-229 | the same for `stop` |
| `TraceRuntime.AllIdentified` | skywalking/trace/context.py:206 | in every world shown, ids identify spans in all lists, as starting and stopping need |
| `TraceRuntime.ShowOne` | skywalking/trace/context.py:40-55 | objects show at most one world |
| `TraceObjects.SpanContext.Capture` | skywalking/trace/context.py:263-274 | the snapshot names the active span, its segment, its trace and the first span's operation; nothing without spans; no ids from a suppressed context |
| `TraceObjects.SpanContext.Continued` | skywalking/trace/context.py:276-284 | a valid snapshot of another segment adds a reference and relates the segment; any other changes nothing |
| `TraceObjects.SpanContext.Start` | skywalking/trace/context.py:203-212 | live count, span list and primary endpoint after a start |
| `TraceObjects.SpanContext.Stop` | skywalking/trace/context.py:214-229 | live count, segment, span list and hand-over to the agent after a stop, traced or suppressed |
| `TraceObjects.Span.Start` | skywalking/trace/span.py:70-76 | the objects change as the engine's step does on values, and the list other tasks may share stays as it was |
| `TraceObjects.Span.Stop` | skywalking/trace/span.py:78-88 | the same for a stop, including what the agent is handed |
| `TraceObjects.Span.Extract` | skywalking/trace/span.py:124-139 | the segment is related and an equal reference is not added twice |
| `Carrier.HeaderRoundTrip` | skywalking/trace/carrier.py:65-92 | decoding an encoded header never raises and restores all seven fields if and only if the span id holds no dash |
| `Carrier.HeaderParts` | skywalking/trace/carrier.py:66-76 | the header's eight parts are the version 1 and the seven fields in their order, the span id as it is and the others in base64 |
| `Carrier.ValidityCrossesWire` | skywalking/trace/carrier.py:94-107 | for all field values, the received carrier is valid exactly when the sent one was, and otherwise suppressed |
| `Carrier.CorrelationCarrier.SetVal` | skywalking/trace/carrier.py:136-147 | the loop leaves the dictionary the specification function says, also when a malformed part raises |
| `Carrier.CorrelationParts` | skywalking/trace/carrier.py:127-133 | the header lists the entries in order, key before and value after a colon |
| `Carrier.CorrelationRoundTrip` | skywalking/trace/carrier.py:126-147 | an encoded dictionary restores exactly its first max + 1 entries in order, so all of it if and only if it has no more |
| `Text.DecimalDenotes` | skywalking/trace/span.py:216 | the digits of a span id denote it, each worth its place in the row of digits, without a leading zero |
| `Base64.DecodeOfEncode` | skywalking/utils/lang.py:28-33 | decoding restores every encoded byte string |
| `Base64.EncodingIsTheTables` | skywalking/utils/lang.py:28-29 | the encoding is the one text whose groups of four characters, by their places in the table of section 4 of RFC 4648, make the same number as three bytes, with one or two padding characters for two or one last bytes |
| `Base64.SymbolIs` | skywalking/utils/lang.py:28-29 | the symbol of a value is the character at that place of the table |
| `Base64.DecodeSkipsForeign` | skywalking/utils/lang.py:32-33 | in ASCII text characters outside the alphabet never change what is decoded; other text raises |
| `ProfileSlots.EveryReservationFindsASlot` | skywalking/profile/profile_context.py:94-136 | with any number of request threads and a stopping profiler thread, a thread that won the counter always finds a slot in its single scan, at rest the counter equals the number of taken slots, and the slot about to be cleared holds a profiler of the context to be stopped |
| `ProfileSlots.StepKeepsInv` | skywalking/utils/array.py:50-63 | every atomic step keeps, for each index, at most as many placed or scanning profilers at or beyond it as there are slots |
| `ProfileSlots.SamplingIsLimited` | skywalking/profile/profile_context.py:232-263 | over the life of a task exactly as many profilers build snapshots as made a first dump, up to the configured number, each numbered 0, 1, 2, ... without gaps |
| `ProfileSlots.DumpSamplesUnlessUsedUp` | skywalking/profile/profile_context.py:158-159 | a first dump before the limit is used up and every later dump adds the profiler's next snapshot; a first dump after it adds nothing and has the context stopped |
| `ProfileSlots.NoProfilerIsPlacedTwice` | skywalking/profile/profile_context.py:130-134 | however threads race, no profiler is in two slots, or in one while a thread still looks for one for it |
| `ProfileSlots.AttemptFillsFirstFree` | skywalking/profile/profile_context.py:94-134 | left alone while a slot is free, the atomic steps of an attempt put its profiler into the first free slot |
| `ProfileSlots.StopClearsFirst` | skywalking/profile/profile_context.py:147-156 | left alone, the atomic steps of a stop clear the first slot of the context and count it off, or change nothing |
| `ProfileSlots.FailedDumpStopsContext` | skywalking/profile/profile_context.py:191-196 | a dump that fails has its own context stopped |
| `ProfileSlots.ExecutionContext.CompareAndSet` | skywalking/utils/array.py:50-63 | the slot changes exactly when it held the expected value |
| `ProfileSlots.ExecutionContext.AttemptProfiling` | skywalking/profile/profile_context.py:87-136 | alone, an attempt takes the first free slot exactly when the name matches, the total allows it and the counter is below the limit |
| `ProfileSlots.ExecutionContext.StopTracing` | skywalking/profile/profile_context.py:147-156 | alone, the first slot of the context is cleared and the counter still equals the number of taken slots |
| `ProfileService.ContextsTakeTurns` | skywalking/profile/profile_service.py:127-158 | however timers, profiler threads and starts race, nothing is started, stopped or reported twice, a stop follows its start and a report its stop, and every earlier context is reported before a later one starts |
| `ProfileService.OnlyCurrentRuns` | skywalking/profile/profile_service.py:144-158 | between calls a context is current if and only if it has been neither stopped nor reported |
| `ProfileService.StopSettles` | skywalking/profile/profile_service.py:144-158 | a stop run step by step stops, removes and reports its context when it is the current one and changes nothing otherwise |
| `ProfileService.ProcessSettles` | skywalking/profile/profile_service.py:127-142 | a start run step by step first stops and reports the current context and then starts the new one |
| `ProfileService.ExecutionService.RemoveFromTaskList` | skywalking/profile/profile_service.py:66-86 | draining and refilling leave the list without the task, and tell whether it was there |
| `ProfileService.WithoutIsFilter` | skywalking/profile/profile_service.py:66-86 | removal drops all occurrences of the task and nothing else and keeps the finish times increasing |
| `ProfileService.ExecutionService.CheckProfileTask` | skywalking/profile/profile_service.py:160-206 | a task is admitted if and only if its fields are in range and it finishes after everything queued |
| `ProfileService.ExecutionService.AddProfileTask` | skywalking/profile/profile_service.py:91-107 | the list grows exactly by an admitted task, stays ordered, and the last command time is the maximum |
| `ProfileService.ExecutionService.CompareAndSet` | skywalking/utils/atomic_ref.py:34-44 | the reference changes exactly when it held the expected value |
| `ProfileService.ExecutionService.StopCurrentProfileTask` | skywalking/profile/profile_service.py:144-158 | only the current context is stopped, removed and reported, once |
| `ProfileService.ExecutionService.ProcessProfileTask` | skywalking/profile/profile_service.py:127-142 | the previous context is stopped and reported before the new one becomes current and starts |
| `ProfileService.MoveKeepsOrder` | skywalking/profile/profile_service.py:66-107 | with check and put as separate steps of any number of callers, and removals step by step, finish times stay strictly increasing if and only if a task is put after what is in line before it and before what a removal puts back |
| `ProfileService.FinishTimesIncrease` | skywalking/profile/profile_service.py:160-209 | over every run in which tasks are put only so, finish times are strictly increasing in insertion order |
| `ProfileService.MoveKeepsLast` | skywalking/profile/profile_service.py:93-94 | with comparison and assignment as separate steps of any number of callers, the last command time stays the newest seen if and only if no caller writes over a newer one |
| `ProfileService.LastIsNewest` | skywalking/profile/profile_service.py:91-94 | over every run the last command time is at most the newest create time of the tasks whose update is over, and equal to it when no caller writes over a newer one |
| `ProfileService.OfferedIsWritten` | skywalking/profile/profile_service.py:91-94 | every task offered has its update over once its caller has come further |
| `ProfileService.NewestIsMaximum` | skywalking/profile/profile_service.py:93-94 | the newest create time is an upper bound of those written and one of them |
| `ProfileService.SequentialIsHarmless` | skywalking/profile/profile_service.py:91-107 | runs with one addition at a time and no removal meanwhile put and write only where it does no harm |
| `ProfileService.SequentialRuns` | skywalking/profile/profile_service.py:66-107 | so every such run keeps finish times strictly increasing and ends with the newest create time |
| `ProfileService.RacingUpdatesLoseNewest` | skywalking/profile/profile_service.py:93-94 | for any two create times, a run in which two callers leave the older one |
| `ProfileService.RemovalFilters` | skywalking/profile/profile_service.py:70-86 | an uninterrupted removal, step by step, ends with the filtered queue |
| `ProfileService.AdditionDuringRemovalBreaksOrder` | skywalking/profile/profile_service.py:83-103 | for any two tasks, a run in which an addition during a removal leaves decreasing finish times |
| `ProfileService.RacingAdditionsBreakOrder` | skywalking/profile/profile_service.py:96-103 | for any two admissible tasks, a run in which two callers leave decreasing finish times |
| `AntCompiler.CompilesToTokens` | skywalking/config.py:314-325 | the nested split and join stages emit exactly the text of the pattern's tokens |
| `AntCompiler.CompilesAsOnePass` | skywalking/config.py:316-324 | compilation equals one left-to-right tokenisation if and only if no chunk between slashed wildcards begins or ends with a white-space character |
| `AntCompiler.SpaceFreeCompilesAsOnePass` | skywalking/config.py:316-324 | so it does for every pattern without white space |
| `AntCompiler.BlankIsLost` | skywalking/config.py:322 | a pattern with a blank for which it does not |
| `AntCompiler.BlanksAroundPattern` | skywalking/config.py:322-324 | white space around a pattern of the list does not change what it compiles to |
| `Text.StripIs` | skywalking/config.py:322 | the stripped text is the one text without white space at either end that lies between white space in the original |
| `AntMatcher.ReadsEmittedText` | skywalking/config.py:310-325 | a regular-expression parser reads the emitted text of any tokens as the intended expression, escapes included |
| `AntMatcher.RegexMeans` | skywalking/config.py:316-320 | that expression accepts exactly the Ant meaning: any string between two slashes, non-empty segments joined by single slashes, no slash, one character, the literal |
| `AntMatcher.CompiledTextMatches` | skywalking/config.py:314-325 | for every pattern list and every path, the compiled text matches if and only if some pattern means the path, or the path without its final line feed |
| `Reporter.NoItemIsLostOrDuplicated` | skywalking/agent/protocol/grpc.py:169-238 | under any interleaving of archiving, batches, failures and abandoning, each archived item is in exactly one of queued, held by one thread, delivered, dropped; delivered are exactly the items of successful batches, dropped or about to be exactly those of failed batches, the abandoned and the refused; unfinished tasks equal queued items plus items taken and not marked done, so joining ends exactly when both are none |
| `Reporter.OutcomeDecidesFate` | skywalking/agent/protocol/grpc.py:232-238 | over every run from any state, delivered grows by exactly the batches that succeeded; the items of failed batches, the abandoned and the refused are never delivered and are dropped once their thread has left |
| `Reporter.QueueIsFirstInFirstOut` | skywalking/agent/protocol/grpc.py:181-186 | over every run, items are taken in the order in which they were archived |
| `Reporter.AbandonLoopEnds` | skywalking/agent/__init__.py:52-62 | without producers the abandon loop can always go on, makes at most two steps for each item queued and one more whatever a flush takes away, and when it has ended the queue is empty for good |
| `Reporter.NobodyWorksForever` | skywalking/agent/__init__.py:88-109 | without producers every thread that begins nothing new leaves after a number of its own steps that the queue bounds, and is never blocked before |
| `Reporter.ShutdownSettlesEverything` | skywalking/agent/__init__.py:77-117 | after any run followed by a shutdown, once all threads have left, the queue is empty, joining it ends, and every item ever archived has been delivered, exactly if its batch succeeded, or dropped, not both |
| `Reporter.TakesShrinkQueue` | skywalking/agent/__init__.py:55-59 | without producers the items taken and those left are those that were queued |
| `Reporter.TotalExactUnlessOverwritten` | skywalking/utils/reporter_log.py:57-66 | writing the total back keeps it exact if and only if nobody wrote since it was read |
| `Reporter.UndisturbedTotalIsExact` | skywalking/utils/reporter_log.py:57-66 | in runs without overlapping reports the total equals the number of dropped items |
| `Reporter.TotalNeverOvercounts` | skywalking/utils/reporter_log.py:57-66 | in every run the total is at most the number of dropped items |
| `Reporter.OverlappingReportsLoseACount` | skywalking/utils/reporter_log.py:65-66 | two overlapping reports count only the second |
| `Reporter.SyncQueue.PutNowait` | skywalking/agent/__init__.py:791-797 | an item is queued exactly when the queue is not full |
| `Reporter.SyncQueue.Abandon` | skywalking/agent/__init__.py:52-62 | everything is dropped and counted and the unfinished count is balanced |
| `Reporter.DropLog.LogDropped` | skywalking/utils/reporter_log.py:57-80 | totals grow by the count; the increments of the written lines always add up to what has been logged of a kind, all of it after a forced line; a line is written exactly when forced or after the interval |
| `BatchWindow.GrpcBatch` | skywalking/agent/protocol/grpc.py:48-68 | every wait of a batch starts where the last ended and is over by start + window, except a late first attempt, which returns at once; the batch stops only at an empty queue or past the deadline |
| `BatchWindow.HttpBatch` | skywalking/agent/protocol/http.py:45-66 | every wait of a batch is over before start + window + 1, the first has the whole window, and the batch stops only at an empty queue or when the window is over |
| `BatchWindow.HttpOverrunIsTight` | skywalking/agent/protocol/http.py:54-57 | and no smaller bound holds |
| `BatchWindow.CallOutlivesWindow` | skywalking/utils/grpc_channel.py:105-116 | the call deadline is the window and five seconds or ten seconds, whichever is more, so more than the margin exactly below five seconds |
| `Supervisor.Root.LogOutcome` | skywalking/agent/__init__.py:150-198 | exactly the outcomes asked for are logged, and none twice |
| `Supervisor.Root.Supervise` | skywalking/agent/__init__.py:201-242 | the first wake-up that brings the shutdown event or an ended task ends the wait; the first task it reports is logged unless the event is set, nothing else is logged, and a log implies that shutdown is signalled |
| `Supervisor.Root.CancelPendingTasks` | skywalking/agent/__init__.py:244-288 | after cleanup the log holds what it held and exactly the failed tasks, whether they failed before or after cancellation |
| `Supervisor.Live` | skywalking/agent/__init__.py:936-940 | supervision ends with the first wake-up that brings the shutdown event or an ended task; over supervision and cleanup each failed task is logged exactly once unless it outlives the cancel timeout, nothing is logged twice, and apart from failures only the outcome that ended supervision is logged |
| `Backends.EndpointRoundTrip` | skywalking/utils/grpc_channel.py:168-224 | printing and parsing an address gives it back if and only if its host is delimited by the print-out |
| `Backends.ParsedAddresses` | skywalking/utils/grpc_channel.py:189-224 | parsed addresses are well formed, and print back under the same condition |
| `Backends.ClassifiesUsableHosts` | skywalking/utils/grpc_channel.py:173-187 | a host is refused if and only if it is empty or holds a slash, a percent sign, white space or a control character |
| `Backends.BlanksAroundParts` | skywalking/utils/grpc_channel.py:189-211 | white space around host, port and colon does not matter |
| `Backends.Expand` | skywalking/utils/grpc_channel.py:341-360 | the expansion lists all addresses in first-seen order |
| `Backends.FirstSeenIs` | skywalking/utils/grpc_channel.py:354-359 | first-seen order has no repeats and reads the list at the places of first occurrence |
| `Backends.Prepare` | skywalking/utils/grpc_channel.py:400-457 | for several backends the target encodes the same expansion and the authority is the first entry with a usable address; it raises exactly when the target cannot be encoded |
| `Backends.EncodeTarget` | skywalking/utils/grpc_channel.py:367-397 | the loops build the specified target text or raise |
| `Backends.TargetRoundTrip` | skywalking/utils/grpc_channel.py:381-397 | the target reads back as the list, with IPv4 in mapped form where IPv6 is present (section 2.5.5.2 of RFC 4291) |
| `Pkcs8.WrappedUnwraps` | skywalking/utils/tls.py:218-241 | an independent reader of armour and elements finds version 0, rsaEncryption with a null parameter and exactly the PKCS#1 bytes, nothing left over; one that wants shortest lengths does so from 256 bytes on |
| `Pkcs8.NormalizesFirstBlock` | skywalking/utils/tls.py:213-223 | whatever stands between the first opening line and the first closing line after it, its key bytes are wrapped if and only if it is ASCII and they fit 65513 bytes |
| `Pkcs8.NormalizesEveryLayout` | skywalking/utils/tls.py:199-223 | for a body without a dash, whatever surrounds it and whatever line ends, blanks or other characters it holds, the closing line is found behind it and its key bytes are wrapped if and only if it is ASCII and they fit; the one body that reads as the closing line is taken for an empty key |
| `Pkcs8.EncryptedKeysRaise` | skywalking/utils/tls.py:200-211 | a text with the opening line of an encrypted key, or with the older header field and the word ENCRYPTED in any case, raises |
| `Pkcs8.NormalizeIsIdempotent` | skywalking/utils/tls.py:185-241 | normalising a normalised key changes nothing |
| `Pkcs8.NormalizedKeysAreReadable` | skywalking/utils/tls.py:199-241 | every accepted text with a PKCS#1 header becomes a readable PKCS#8 key, every other is returned as it is |
| `Histogram.BoundariesAre` | skywalking/meter/histogram.py:29-42 | construction succeeds exactly for non-empty steps not below the minimum, and the boundaries are the minimum and the distinct steps in order |
| `Histogram.Histogram.FindBucket` | skywalking/meter/histogram.py:52-66 | the binary search finds the one bucket b_i < v <= b_{i+1} the value falls into, or none at or below the minimum |
| `Histogram.Histogram.AddValue` | skywalking/meter/histogram.py:45-50 | each bucket counts exactly the added values that fall into it and the counts sum to the number of values above the minimum |

## Left out

- UTF-8: header fields and keys are bytes or text that is taken to encode and decode without loss; decoding errors are not modelled.
- Numeric characters outside ASCII, which `isnumeric` and `int` accept.
- Correlation dictionaries inside contexts: that an extracted carrier shares its dictionary with the context, and `put_correlation` (`skywalking/trace/context.py:245-261`).
- The thread-local fallback for span lists (`skywalking/trace/context.py:59-74`), in which lists are never shared.
- Times, tags, logs, layers and component details of spans; sampling; the profiling calls made while a span is created.
- Batch consumers that extract many headers into one span do not pass suppression on; suppression is stated for spans created from a header.
- Carrier.SetHeader: a malformed header raises; the fields assigned before the failure are not part of the result.
- The suffix and HTTP/gRPC method expressions of `finalize_regex`, and regular expressions outside the fragment the compiler emits.
- Greenlet profiling, stack extraction and the sleep between snapshots.
- ProfileService.ExecutionService.AddProfileTask: states what one caller alone does; racing callers are the subject of `ProfileService.MoveKeepsOrder` and `ProfileService.MoveKeepsLast`.
- TraceRuntime: extraction, annotation and snapshots are proved object by object in `TraceObjects`, not for all objects together.
- Logs, meters and snapshots follow the same pipeline as segments; the HTTP, Kafka and asyncio reporters, whose failed batches are not counted, are not modelled.
- Reporter.ShutdownSettlesEverything: the time-outs of flush and join are not modelled; a flush may take as long as it likes between its steps.
- The calls that gRPC makes: a call is the pulling of finitely many items and then success or failure.
- BatchWindow.HttpBatch: clock readings are real numbers that do not decrease.
- Host name lookup, the recognition of literal addresses and the list syntax of the configuration (`skywalking/utils/grpc_channel.py:227-338`).
- The rest of `skywalking/utils/tls.py`: files, SSL contexts, certificates.
- Command de-duplication (`skywalking/command/command_service.py`), gauges, PVM data sources and configuration loading.
- All plugins: the libraries they patch are not part of this model; what they owe the engine is stated as the conditions under which its steps are enabled.

# OpenRealtime, verified

A Dafny model of the parts of OpenRealtime that keep state across steps or transform sequences, with
proofs that hold for every input, every run or every interleaving.

| file | what it models |
|---|---|
| `Governor.dfy`, `GovernorLaws.dfy` | the admission scheduler: priorities, deadlines, an interactive reservation, backfilling, cooperative preemption and cancellable waiters |
| `Ledger.dfy`, `Tools.dfy`, `Speech.dfy`, `SpeechAccount.dfy` | the commit boundary: the ledger of irreversible outputs and its two concurrent clients |
| `ToolRuns.dfy`, `SpeechRuns.dfy`, `SpeechCancels.dfy` | what one call of those clients comes to when nobody disturbs it |
| `AsrBuffer.dfy`, `Accumulator.dfy` | audio re-chunking in front of a recogniser, and its process-level counters |
| `AnnotationFilter.dfy`, `ObservationFence.dfy` | the streaming text filter and the fence around observed content |
| `Trajectory.dfy`, `ProviderRuns.dfy`, `Projection.dfy`, `ProjectionLaws.dfy`, `Continuation.dfy`, `ContinuationLaws.dfy` | the log's items, the projections of it, and how a continuation enters it |
| `Lineage.dfy`, `TypeExpr.dfy`, `EventBatch.dfy`, `BatchLaws.dfy` | catalog lineage, the type printer, and the compilation of events into the log |
| `Prelude.dfy` | shared vocabulary: options, sorting and filtering with their laws |

`dafny verify dfyconfig.toml` checks the whole project.

Objects that the program updates in place are classes; each of their methods is one critical section, so
an arbitrary sequence of calls is an interleaving of concurrent clients. The governor, the accumulator,
the ledger and the audio buffer are proved directly in that form. Tool dispatch and speech are protocols
of many threads: a pure step function says what each section does, the theorems are about all its runs,
and the methods of `Tools` and `Speech` are proved to do exactly what the step function says and to keep
the protocol's invariant.
Strings are sequences of bytes. Clocks, identities, providers, confirmers, sinks and cancelled contexts
are arbitrary inputs, so they can do anything at any step.

Where the code and its documentation disagree, the model follows the code:

- `Ledger.Outstanding` is documented to return everything that is not terminal. It leaves out what is
  being emitted (`Ledgers.OutstandingIsUnfinished`).
- `Speech.stop` is documented to return a commitment only when its own call moved it. A concurrent
  cancellation between its lookup and its cancel makes it report somebody else's work
  (`SpeechPlan.StopReportsItsOwnMove`, `SpeechPlan.SecondStopReportsToo`).
- `CancelMatching` is documented to leave other queued speech alone. An utterance it set aside is dropped,
  still queued in the ledger, when the queue fills before it is put back (`SpeechPlan.KeptCanBeLost`,
  `SpeechPlan.UndisturbedPutsBack`).
- `Tools` is documented to enforce idempotency. It does so exactly when other ledger clients are harmless: a
  commitment named `action_` followed by a non-empty call identity is prepared by nobody else unless it
  carries that very call (`ToolDispatch.AtMostOneEffect`, `ToolDispatch.HarmfulCommitmentTwoEffects`).
- Successive snapshots of the accumulator are documented never to go back. They do if a buffer makes a
  recogniser call after it was closed (`Accumulator.LateCallGoesBack`), and only then
  (`Accumulator.Accumulator.EndSnapshot`).
- A frame refused because it would pass the last 64-bit sample has already used up its input index
  (`AsrBuffer.Buffer.PushFrame`).
- Observed content is neutralised but the observer's label is not (`ObservationFence.BlockHasOneFence`).
- Native provider state is withheld when a proposal was streamed, even if the interruption then keeps that
  proposal out of the log (`Continuations.InterruptedProposalWithholdsState`).

## Model

| member | source | states |
|---|---|---|
| `Admission.CompareIsTotalOrder` | admission/governor.go:299-323 | the waiter comparison is a strict total order on waiters with distinct sequence numbers: irreflexive, transitive, and any two compare |
| `Admission.SoundMeans` | admission/governor.go:266-297 | in every sound state `used` is the summed cost of the running leases and within capacity, the background and speculative sum is within capacity minus the reservation, admitted = released + running, and every request is counted in exactly one of waiting, admitted, cancelled or deadline-missed |
| `Admission.TallyPartition` | admission/governor.go:244-264 | the four fates partition the requests ever enqueued |
| `Admission.WaitingTally` | admission/governor.go:266-297 | the requests counted as waiting are exactly those in the line |
| `Admission.Governor.constructor` | admission/governor.go:166-184 | an empty governor is sound |
| `Admission.Governor.FirstAdmissible` | admission/governor.go:325-346 | returns the first waiter found in time that fits; every open waiter it passed was judged by one clock reading of this scan, expired exactly when that reading is at or past its deadline; with none, the line keeps exactly the unexpired, and none of them fits |
| `Admission.Governor.Expires` | admission/governor.go:325-346 | one clock reading decides whether an open waiter has missed its deadline, and only then is it charged |
| `Admission.Governor.Admit` | admission/governor.go:266-297 | one grant: the waiter leaves the line, becomes a running lease charged to both sums, and the state stays sound |
| `Admission.Governor.Schedule` | admission/governor.go:266-297 | a scheduling pass terminates; each of its grants goes to the first admissible waiter of the line as it then stood, in comparison order, the waiter granted and each one passed over having been found in time or expired by a clock reading taken before that grant; every waiter it began with was judged by a reading of the pass, and counted as missed exactly when that reading was at or past its deadline; on return no unexpired waiter fits; the leases asked to stop are the minimal prefix chosen among the leases it found and those it granted, each with the flag it had, no lease loses that flag, and every other field is accounted for |
| `Admission.RankCandidates` | admission/governor.go:348-392 | ranks exactly the preemptible leases of strictly lower class that are not already preempting, whatever order the map is read in |
| `Admission.VictimsAreDetermined` | admission/governor.go:356-392 | the set of leases asked to stop does not depend on map iteration order |
| `Admission.ChooseVictims` | admission/governor.go:370-392 | flags a minimal prefix of the ranking for the computed shortfall, and nothing else |
| `Admission.CoveredHeadFits` | admission/governor.go:348-392 | if the prefix covers the shortfall, releasing exactly those leases makes the head fit under both the capacity and the reservation |
| `Admission.Governor.RequestPreemption` | admission/governor.go:348-392 | asks exactly the minimal prefix for the head of the line to stop, or nobody when the head is not short |
| `Admission.AskedOnce` | admission/governor.go:348-392 | over any history a lease is asked to stop at most once: what one pass asked, no later pass asks |
| `Admission.Governor.Enter` | admission/governor.go:186-212 | refuses exactly the unacceptable requests, counts a deadline already passed exactly when the clock says so, or enqueues under a new sequence number and schedules; in that pass everyone waiting, the new request included, is judged by a clock reading of the pass; nobody else's request is lost |
| `Admission.Governor.Join` | admission/governor.go:203-208 | a request joins the line under a new sequence number, and nobody else is affected |
| `Admission.Governor.CancelWaiter` | admission/governor.go:244-264 | a waiting request becomes cancelled or missed, exactly once, and the line is rescheduled, everyone left in it being judged by a clock reading of that pass; a grant that raced the cancellation is handed back; a settled request is left alone |
| `Admission.Governor.Release` | admission/governor.go:398-426 | a running lease gives its cost back once and the line is rescheduled, every waiter being judged by a clock reading of that pass; releasing it again changes nothing |
| `Admission.Governor.Acquire` | admission/governor.go:186-264 | under any interference by other clients an acquisition, whose ticket is the next sequence number unless it is refused or overdue at once, ends holding the lease granted to that ticket, or with that ticket settled and no lease of it running, even when the grant raced the cancellation; a request without a deadline is never counted as missing one |
| `Admission.NothingHeldForGood` | admission/governor.go:244-264 | a settled request whose lease is not running never holds capacity again |
| `AdmissionLaws.GrantGoesToMostUrgent` | admission/governor.go:266-346 | each grant goes to a request there is room for, and of those in the line that had not expired and there was room for, nobody was more urgent: of a higher class; in one class, with an earlier deadline, any deadline before none; otherwise first come |
| `AdmissionLaws.LeftForWantOfRoom` | admission/governor.go:266-346 | whoever is left waiting after a pass lacks room within the capacity or, for background and speculative work, outside the reservation, and they wait in order of urgency |
| `AdmissionLaws.RoomIsGiven` | admission/governor.go:186-297 | a request without a deadline that finds nobody waiting and has room is granted in the pass it starts |
| `AdmissionLaws.AsksTheRightOnes` | admission/governor.go:348-392 | only preemptible leases of a lower class than the head of the line, not yet asked, are asked to stop, and none that should have been asked sooner is spared: lowest class first, then the most expensive, then the newest |
| `AdmissionLaws.AsksNobodyElse` | admission/governor.go:348-392 | every other lease is as it was |
| `AdmissionLaws.AsksEnough` | admission/governor.go:348-392 | if one that could be asked is spared, the head of the line has room once those asked have stopped |
| `AdmissionLaws.AsksNoMoreThanNeeded` | admission/governor.go:348-392 | without the last of those asked the head of the line would still lack room |
| `AdmissionLaws.RequestsInPlainTerms` | admission/governor.go:229-242 | which requests may queue, when one has missed its deadline, and which limits are good, in numbers |
| `AnnotationFilter.EqualASCIIFold` | continuation/continuation.go:202-219 | equality up to ASCII case, byte by byte |
| `AnnotationFilter.IndexASCIIFold` | continuation/continuation.go:187-200 | the first place where the marker occurs up to ASCII case, or -1 when it occurs nowhere |
| `AnnotationFilter.RetainFrom` | continuation/continuation.go:133-165 | how much must be withheld: the longest suffix that could begin a marker, and the white space before it |
| `AnnotationFilter.RuntimeAnnotationFilter.Push` | continuation/continuation.go:133-165 | what has been released and withheld after each chunk depends only on the text so far: withheld text is white space followed by a proper marker prefix |
| `AnnotationFilter.RuntimeAnnotationFilter.Finish` | continuation/continuation.go:167-175 | releases what was withheld when no marker came, and nothing when one did |
| `AnnotationFilter.Stream` | continuation/continuation.go:133-181 | for every text and every split into chunks the concatenated output is the text unchanged when the marker never occurs, and otherwise the text before the first marker without trailing white space |
| `AnnotationFilter.ReleasedIsSafe` | continuation/continuation.go:120-165 | no marker can begin inside released text, whatever arrives later |
| `AnnotationFilter.ReleasedIsKept` | continuation/continuation.go:120-165 | released text is never taken back: it is a prefix of what the whole stream must deliver |
| `AnnotationFilter.ReleasedIsMost` | continuation/continuation.go:120-165 | nothing more could have been released: some continuation would make it wrong |
| `AnnotationFilter.WithheldIsUnique` | continuation/continuation.go:120-165 | there is only one amount of text the filter may be withholding |
| `AnnotationFilter.StreamAgreesWithBatch` | continuation/continuation.go:105-115 | the streaming output, trimmed, is the batch function's output, and both find the marker or neither does |
| `AnnotationFilter.StrippedIsClean` | continuation/continuation.go:88-115 | nothing the batch function lets through contains the marker |
| `ObservationFence.NeutraliseFences` | continuation/continuation.go:437-442 | the four replacements in order |
| `ObservationFence.NeutraliseIsSafe` | continuation/continuation.go:431-442 | the result contains no triple opening or closing bracket, for every text |
| `ObservationFence.NeutraliseKeeps` | continuation/continuation.go:431-442 | a text without triple brackets is unchanged, and neutralising twice is neutralising once |
| `ObservationFence.BlockHasOneFence` | continuation/continuation.go:391-429 | the rendered observer block has exactly one opening and one closing fence if and only if its label has no triple brackets; the label itself is not neutralised |
| `TypeExpr.UniqueReading` | element/type.go:150-163 | a printed type followed by a delimiter can be read back in only one way |
| `TypeExpr.UniqueList` | element/type.go:150-163 | so can a printed, nested argument list |
| `TypeExpr.RenderIsInjective` | element/type.go:87-111 | two valid types print the same exactly when they are `Equal` |
| `TypeExpr.EqualIsStructural` | element/type.go:165-176 | `Equal` is equality of type trees |
| `TypeExpr.InvalidTypesCollide` | element/type.go:87-111 | validity is needed: two different invalid types that print the same |
| `TypeExpr.VariableShows` | element/type.go:179-189 | a valid type contains a variable exactly when its printed form shows one |
| `Lineage.Search.Visit` | architecture/catalog.go:519-543 | a search from one reference reports a cycle only when there is one, and otherwise finishes every reference it can reach |
| `Lineage.FindCycle` | architecture/catalog.go:519-543 | for every iteration order, a cycle is reported if and only if the lineage has one |
| `Lineage.CollectDefinitions` | architecture/catalog.go:483-500 | accepts exactly catalogs of proper definitions with distinct references, and names the fault otherwise |
| `Lineage.CheckLineage` | architecture/catalog.go:501-518 | accepts exactly when every named parent exists and every later revision continues its own id from an older revision |
| `Lineage.Validate` | architecture/catalog.go:483-544 | a catalog is accepted if and only if it meets every rule, acyclic lineage included, and each rejection names a rule that is broken |
| `Lineage.RevisionOneExists` | architecture/catalog.go:198-204 | in an accepted catalog every revision reaches revision 1 of its id through strictly decreasing revisions |
| `AsrBuffer.DurationSamples` | asrbuffer/buffer.go:430-441 | no 64-bit overflow and at least one sample, for every admitted duration and rate |
| `AsrBuffer.LongerChunksAreLarger` | asrbuffer/buffer.go:430-441 | a longer duration is never fewer samples, so the minimum chunk never exceeds the maximum |
| `AsrBuffer.ChopContinues` | asrbuffer/buffer.go:252-322 | cutting a stream in two pieces is cutting it whole: the reference chunker resumes where it stopped |
| `AsrBuffer.ChopConserves` | asrbuffer/buffer.go:357-389 | audio given to the recogniser, then the audio left, is the audio cut |
| `AsrBuffer.ReferenceLaws` | asrbuffer/buffer.go:357-389 | the reference chunks are contiguous, consecutively indexed, and each has size min(minimum times 2 to the k, maximum), where k counts the chunks without a revision since the last revision |
| `AsrBuffer.Buffer.PushFrame` | asrbuffer/buffer.go:252-322 | refuses exactly what is not a valid continuation, changing nothing; otherwise the recogniser has been given exactly the reference chunks of all audio accepted, at the frame's sample rate and positioned from the first frame's offset, what is returned is exactly the recogniser's answers to the chunks this push handed over, in order, and the stream stands at this frame's end; `needed` never underflows; a frame past the last 64-bit sample is refused after using up an index |
| `AsrBuffer.Buffer.Accept` | asrbuffer/buffer.go:291-322 | takes a frame that continues the stream, keeping the agreement with the reference, or meets the reference's failure |
| `AsrBuffer.Buffer.Configure` | asrbuffer/buffer.go:261-283 | fixes the chunk sizes from the first frame's rate |
| `AsrBuffer.Buffer.TakePiece` | asrbuffer/buffer.go:298-318 | moves as much of a frame as the current chunk can hold and flushes a full chunk |
| `AsrBuffer.Buffer.Consume` | asrbuffer/buffer.go:298-322 | the consuming loop of one frame takes all of it, or stops at a recogniser failure that the reference also meets |
| `AsrBuffer.Buffer.Flush` | asrbuffer/buffer.go:357-389 | one chunk goes out with the next index, the answer is the recogniser's answer to it, and the size law decides the next one |
| `AsrBuffer.Buffer.Finalize` | asrbuffer/buffer.go:324-355 | the recogniser has then been given exactly the chunks of the complete stream; it fails exactly when the recogniser failed on the remainder or in its own finalisation; after success nothing is pending and everything accepted has reached the recogniser |
| `AsrBuffer.Buffer.EndUtterance` | asrbuffer/reusable.go:30-48 | restores the buffer's invariant for a new utterance; the failure, and what the recogniser remembers, is cleared only when the recogniser agreed |
| `AsrBuffer.SlicingDoesNotMatter` | asrbuffer/buffer.go:252-322 | two buffers that accepted the same audio, however it was sliced, gave the recogniser the same chunks and hold the same remainder |
| `AsrBuffer.Feed` | asrbuffer/buffer.go:252-322 | a fresh buffer takes the next frame exactly when the frames so far slice one stream |
| `AsrBuffer.Stream` | asrbuffer/buffer.go:252-389 | for every slicing of a stream into frames, pushing them all and finalizing gives the recogniser exactly the chunks of the whole stream cut at once, even when it fails part way; what the pushes return together is its answers to every chunk due, or to a beginning of them if one failed; only a slicing is ever finalized |
| `AsrBuffer.SliceTwice` | asrbuffer/buffer.go:252-389 | two slicings of one stream, each into a fresh buffer, give the recogniser the same and, unless it fails, return the same |
| `AsrBuffer.CompletedConserves` | asrbuffer/buffer.go:324-355 | a complete stream that meets no failure reaches the recogniser whole |
| `AsrBuffer.ReferenceAnswers` | asrbuffer/buffer.go:312-318 | the revisions of the reference are the recogniser's answers to its chunks, one after the other |
| `Accumulator.SnapshotIsBracketed` | asrbuffer/accumulator.go:94-112 | a snapshot lies between the true totals at its beginning and at its end, in every sum and every maximum |
| `Accumulator.SnapshotsNeverDecrease` | asrbuffer/accumulator.go:94-112 | a snapshot that begins after another ended is no smaller, in any sum or maximum |
| `Accumulator.SumInsert` | asrbuffer/accumulator.go:116-125 | folding one more buffer in adds its counters exactly once, sums by addition and maxima by maximum |
| `Accumulator.TallyMeans` | asrbuffer/buffer.go:357-389 | a buffer's eight figures are the number of its calls of each kind, of those that failed, the time they took together and the longest any one took |
| `Accumulator.TallyJoins` | asrbuffer/accumulator.go:116-125 | adding two buffers' figures gives those of one that had made the calls of both |
| `Accumulator.TotalTallies` | asrbuffer/accumulator.go:94-112 | the true total is the figures of every call of every buffer |
| `Accumulator.Accumulator.New` | asrbuffer/accumulator.go:42-55 | a new buffer is live and not folded |
| `Accumulator.Accumulator.Observe` | asrbuffer/buffer.go:226-238 | a recogniser call moves only its own buffer's counters, is added to its calls, and a call made after the buffer closed is noted as late |
| `Accumulator.LateCallGoesBack` | asrbuffer/accumulator.go:94-112 | whatever the call, an accumulator whose only buffer makes it after `Close` publishes a snapshot smaller than one that ended before it began |
| `Accumulator.Accumulator.Close` | asrbuffer/accumulator.go:62-71 | a buffer folds in the first time it closes and never again |
| `Accumulator.Accumulator.BeginSnapshot` | asrbuffer/accumulator.go:85-95 | the totals and the live buffers are copied in one critical section |
| `Accumulator.Accumulator.ReadBuffer` | asrbuffer/accumulator.go:109-111 | each copied buffer is read once, whether or not it has closed meanwhile |
| `Accumulator.Accumulator.EndSnapshot` | asrbuffer/accumulator.go:85-112 | unless a call had followed a `Close` before it began, each buffer that existed at the beginning is counted exactly once, folded plus in-flight is their number, the total lies between the true ones at both ends, no earlier such snapshot was larger, and if nothing happened meanwhile it holds the figures of exactly the calls made |
| `Ledgers.RunKeeps` | action/ledger.go:165-385 | over any sequence of operations the ledger stays sound and nothing recorded is undone |
| `Ledgers.HistoryIsIrreversible` | action/ledger.go:210-259 | what crossed at any earlier moment is crossed now, what had ended is as it was, and what is cancelled now had crossed at no earlier moment |
| `Ledgers.CallsAreUnique` | action/ledger.go:165-197 | two commitments never share a call identity, over any history |
| `Ledgers.ApplyKeeps` | action/ledger.go:165-421 | every operation keeps entries filed once under their own names, call identities one to one, and at most one open obligation per commitment, always on one that crossed |
| `Ledgers.ApplyFollows` | action/ledger.go:165-421 | every operation keeps crossed entries crossed, ended entries ended, identities fixed and resolved obligations resolved |
| `Ledgers.OthersUntouched` | action/ledger.go:165-421 | no operation changes any commitment but its own, any repair owed for another, or any other call identity |
| `Ledgers.OwnEntryChanges` | action/ledger.go:165-421 | of its own commitment an operation changes at most the stage, the time played and the reason, each exactly when this says |
| `Ledgers.OwnRepairsChange` | action/ledger.go:264-365 | resolving changes nothing but the flag of its own commitment's open repairs, a truncation nothing but their figure, and nothing else changes any |
| `Ledgers.RepairIsRaised` | action/ledger.go:264-282 | a repair is raised by an invalidation alone, exactly when its commitment crossed and all earlier ones for it are resolved, with that commitment's items and figure |
| `Ledgers.StepsFrom` | action/ledger.go:200-231 | the stages each step may be taken from, and what each error means |
| `Ledgers.RepairUsesHeardFigure` | action/ledger.go:351-365 | once a truncation is accepted, the repair owed next carries the reported figure |
| `Ledgers.RepairUsesCompletedFigure` | action/ledger.go:218-282 | a repair owed after a completion carries the figure the completion reported |
| `Ledgers.BoundaryPartitions` | action/ledger.go:328-385 | crossed, cancellable and cancelled commitments are the whole ledger, each commitment in exactly one of them |
| `Ledgers.OutstandingIsUnfinished` | action/ledger.go:387-390 | `Outstanding` returns everything not terminal, as documented, exactly when nothing is being emitted |
| `Ledgers.Ledger.Prepare` | action/ledger.go:165-197 | records a new commitment, or changes nothing and gives the first of the five refusals that applies |
| `Ledgers.Ledger.Transition` | action/ledger.go:403-421 | a step to the present stage succeeds without change, an allowed one moves, and the error tells crossed from invalid |
| `Ledgers.Ledger.Queue` | action/ledger.go:200-204 | only a prepared commitment is queued |
| `Ledgers.Ledger.Emit` | action/ledger.go:210-214 | success means crossed from now on and not ended before |
| `Ledgers.Ledger.Complete` | action/ledger.go:218-231 | ends whatever had not ended |
| `Ledgers.Ledger.Cancel` | action/ledger.go:237-259 | the flag says whether it had crossed; otherwise it is cancelled, and what crossed ends as played |
| `Ledgers.Ledger.Invalidate` | action/ledger.go:264-282 | an obligation is raised if and only if the commitment crossed and none is open |
| `Ledgers.Ledger.ResolveObligation` | action/ledger.go:285-295 | resolving leaves none open for that commitment and touches no other commitment and no other repair |
| `Ledgers.Ledger.Truncated` | action/ledger.go:351-365 | accepted exactly for what crossed; the commitment and all its open obligations take the figure |
| `Ledgers.Ledger.Obligations` | action/ledger.go:298-308 | the open obligations in order of creation |
| `Ledgers.Ledger.Choose` | action/ledger.go:328-385 | the matching crossed, or cancellable, commitments in order of arrival |
| `ToolDispatch.AtMostOneEffect` | action/tools.go:368-473 | over every interleaving in which other clients prepare only harmless commitments, a call identity causes at most one external effect, counting local dispatch and remote emission together |
| `ToolDispatch.EffectsAreAuthorised` | action/tools.go:368-513 | whatever others do to the ledger, before each effect its thread was admitted for that very call, declared and with authority in the log, and an answer given to it while confirming granted it; a result comes from a `Dispatch` with a local dispatcher, a bare emission from `EmitRemote` |
| `ToolDispatch.EffectsFollowPrepare` | action/tools.go:483-495 | with harmless clients, each effect follows a `Prepare` by its own thread that made the commitment |
| `ToolDispatch.EffectsAreCommitted` | action/tools.go:405-411 | and the ledger says that commitment crossed |
| `ToolDispatch.RefusedNeverActs` | action/tools.go:497-507 | once confirmation is refused to the thread that committed a call, its commitment is ended and the call has no effect, then or ever |
| `ToolDispatch.StoredResultIsFinal` | action/tools.go:376-384 | a stored result is that of the call's one effect, names that call and tool, never changes, and is what every later successful dispatch of the call returns |
| `ToolDispatch.OneDispatchAtATime` | action/tools.go:380-399 | at most one `Dispatch` is at work on a call at any moment of any run, whatever others do to the ledger |
| `ToolDispatch.HarmfulCommitmentTwoEffects` | action/tools.go:483-495 | and the condition is exact: for every commitment that is not harmless there is a run, disciplined but for preparing it, in which one call has two effects |
| `ToolDispatch.NothingToQueue` | action/tools.go:489-512 | a thread whose call is committed under another name finds no commitment to queue |
| `ToolDispatch.StepKeeps` | action/tools.go:368-513 | every step of every thread, of `Complete` and of any other ledger client keeps the invariant |
| `ToolDispatch.RunKeeps` | action/tools.go:368-513 | so does every run |
| `ToolDispatch.CheckAuthority` | action/tools.go:556-575 | authoritative exactly when the call is in the log and no matching item is derived |
| `ToolDispatch.Tools.Begin` | action/tools.go:368-378 | a thread starts only for a declared, unnormalised, authoritative call |
| `ToolDispatch.Tools.Claims` | action/tools.go:380-391 | returns the stored result, refuses a call already in flight, or claims it |
| `ToolDispatch.Tools.Commits` | action/tools.go:483-495 | a new commitment, the duplicate-call path, or failure |
| `ToolDispatch.Tools.Asks` | action/tools.go:535-550 | granted when no confirmation is required, the policy agrees, or the confirmer does |
| `ToolDispatch.Tools.Refuses` | action/tools.go:497-507 | a refusal cancels the commitment |
| `ToolDispatch.Tools.Queues` | action/tools.go:397-404 | only an invalid transition is overlooked, and a local dispatch without a dispatcher stops here |
| `ToolDispatch.Tools.Emits` | action/tools.go:405-411 | the crossing is recorded before the effect |
| `ToolDispatch.Tools.Completes` | action/tools.go:411-424 | a result for another call or tool is not stored |
| `ToolDispatch.Tools.Proceeds` | action/tools.go:368-473 | the code of a thread, section by section, does exactly what the protocol step says, and keeps the protocol's invariant of the object |
| `ToolDispatch.Tools.Other` | action/tools.go:483-513 | so does anything else done to the shared ledger, short of preparing a harmful commitment |
| `ToolDispatch.Tools.Complete` | action/tools.go:479-481 | closes the commitment of that call and keeps the invariant |
| `ToolRuns.DispatchActs` | action/tools.go:368-435 | a local call left alone, that nobody has touched, declared, in the log and granted, has exactly one effect, its dispatcher's, and leaves its commitment played and `inFlight` as it was; a result that names the call is stored and returned, any other is neither |
| `ToolRuns.EmitRemoteActs` | action/tools.go:440-473 | a client's call left alone is handed over exactly once, its commitment crossed, nothing stored |
| `ToolRuns.UngrantedDoesNothing` | action/tools.go:497-507 | a call whose confirmation neither the declaration, the policy nor the confirmer grants has no effect, and its commitment is cancelled for the reason given |
| `ToolRuns.NoDispatcherDoesNothing` | action/tools.go:401-404 | a granted call of a tool without a dispatcher has no effect and stays queued |
| `ToolRuns.AgainOnlyAnswers` | action/tools.go:380-391 | a call already answered gets the same answer, one in flight is refused, and nothing else changes |
| `ToolRuns.UnfitNeverBegins` | action/tools.go:368-378 | an undeclared or normalising tool, a local one asked of the client, and a call that is not in the log or is derived there, start nothing |
| `SpeechPlan.ReportedIsNeverSent` | action/speech.go:275-397 | over every interleaving, a commitment returned as cancelled has no frame given to the sink, before or after |
| `SpeechPlan.SentAfterEmit` | action/speech.go:520-543 | every frame given to the sink follows a successful `Emit` of its utterance, and one of its own: that emit happened after all the frames before it |
| `SpeechPlan.EndedFallsSilent` | action/speech.go:520-543 | once the ledger has an utterance ended, by whomever, at most one more frame of it reaches the sink, and none unless one was already past its `Emit` |
| `SpeechPlan.StopFallsSilent` | action/speech.go:317-331 | so it is from the cancel of `stop` on |
| `SpeechPlan.EmissionsAreSettled` | action/speech.go:462-506 | when an emission is over, however it ended, the ledger has its commitment ended |
| `SpeechPlan.CancelSilencesQueue` | action/speech.go:275-303 | an utterance in the queue when `Cancel` begins is never spoken, whichever thread takes it out and whatever happens |
| `SpeechPlan.AudioIsConserved` | action/speech.go:508-601 | frames taken by the sink, then what is left, are exactly the audio accepted from the provider; nothing is left of a completed utterance; every frame but a final one is full; the time reported is that of the frames taken |
| `SpeechPlan.BeginsOnce` | action/speech.go:200-267 | no utterance begins twice, what is reported heard has crossed, and the queue keeps to its depth |
| `SpeechPlan.StopReportsItsOwnMove` | action/speech.go:305-331 | `stop` returns a commitment it did not itself move exactly when somebody else cancelled it between its lookup and its cancel |
| `SpeechPlan.SecondStopReportsToo` | action/speech.go:305-331 | and this happens for any two callers that both looked first |
| `SpeechPlan.StopStepsReport` | action/speech.go:317-331 | the three ledger calls of `stop` report exactly in that case |
| `SpeechPlan.KeptIsLostWhenFull` | action/speech.go:386-394 | an utterance `CancelMatching` set aside is lost if and only if the queue is full when it is put back, and the ledger is not told |
| `SpeechPlan.KeptCanBeLost` | action/speech.go:377-394 | this happens from the start: for any two utterances, a run of a planner of depth one ends with the first lost and still queued in the ledger |
| `SpeechPlan.DrainedLateIsLost` | action/speech.go:377-394 | an utterance queued while `CancelMatching` is still draining can be the one lost, with nobody pushing after the queue was found empty |
| `SpeechPlan.UndisturbedPutsBack` | action/speech.go:377-394 | a `CancelMatching` that has set nothing aside yet puts everything back unless somebody else puts an utterance into the queue meanwhile |
| `SpeechPlan.EnqueueSucceeds` | action/speech.go:200-244 | an undisturbed `Enqueue` with room in the queue puts its utterance there and leaves it queued in the ledger |
| `SpeechPlan.LostIsNeverSpoken` | action/speech.go:386-394 | a lost utterance never begins |
| `SpeechAccount.DroppedIsEnded` | action/speech.go:200-506 | over every run, once nobody has an utterance in hand its commitment has ended in the ledger, unless a full queue lost it or another client had moved it before `Queue` |
| `SpeechAccount.GivenUpWhen` | action/speech.go:200-397 | an utterance is lost only when put back into a full queue, and refused only when the ledger will not queue what its own `Enqueue` prepared |
| `SpeechAccount.EmittedElsewhereStaysOpen` | action/speech.go:208-217 | the second exception is real: any utterance another client emits between `Prepare` and `Queue` is neither spoken nor ended |
| `SpeechAccount.AccountedStep` | action/speech.go:200-601 | every event keeps each committed utterance where it is said to be: with a thread, in the queue, at the worker, or ended |
| `SpeechRuns.QueuedIsSpoken` | action/speech.go:249-601 | left alone with a good sink and a provider of one rate, an utterance of the present epoch begins, the sink gets exactly the bytes synthesised, in frames of rate times frame milliseconds over 1000 samples but for a shorter last one, and the ledger has it played for as long as they took |
| `SpeechRuns.EnqueuedIsSpoken` | action/speech.go:200-601 | so it is from `Enqueue` in an idle planner with an empty queue |
| `SpeechRuns.StaleIsDropped` | action/speech.go:255-262 | an entry of another epoch is cancelled in the ledger and nothing is given out |
| `SpeechRuns.BrokenIsNotCompleted` | action/speech.go:573-601 | a provider that breaks off leaves an emission not completed: the full frames were given out, the rest was not, and the ledger has it played if anything crossed and cancelled if nothing did |
| `SpeechRuns.NothingIsSpoken` | action/speech.go:508-519 | a sink that refuses the beginning, or a provider with nothing to say, leaves it cancelled with nothing given out |
| `SpeechRuns.ChunkIsAccepted` | action/speech.go:554-572 | a chunk is accepted exactly when its rate is the stream's or, for the first, makes frames of at least a sample |
| `SpeechRuns.EnqueueRefuses` | action/speech.go:218-243 | a closed planner, a sink that will not reserve and a full queue refuse: nothing is queued and the commitment is cancelled |
| `SpeechRuns.SessionEnds` | action/speech.go:444-455 | when the session ends everything still queued is ended in the ledger and nothing of it given out |
| `SpeechCancels.DrainingSorts` | action/speech.go:376-390 | whatever else goes on, an utterance taken out of the queue goes to `stop` exactly when the caller asked for it, and is otherwise set aside |
| `SpeechCancels.ReadingLooks` | action/speech.go:275-290 | and so the active utterance; `Cancel` alone begins an epoch |
| `SpeechCancels.MatchingIsStopped` | action/speech.go:346-397 | a `CancelMatching` nobody disturbs leaves each queued utterance of the caller's set ended, reported if it could still be stopped, and never spoken afterwards, the other entries queued in order, and every other commitment unchanged |
| `SpeechCancels.ActiveIsStopped` | action/speech.go:356-374 | and the active one, if asked for, cancelled and reported when nothing of it had crossed, ended as played and returned as heard when something had; otherwise untouched |
| `SpeechCancels.CancelEmptiesQueue` | action/speech.go:275-303 | a `Cancel` nobody disturbs leaves an empty queue, a new epoch, and all that was queued ended in the ledger |
| `SpeechCancels.CancelDoes` | action/speech.go:275-397 | all that either call has done, against the world it found |
| `SpeechCancels.GoneIsNeverSpoken` | action/speech.go:275-397 | an utterance dropped, refused or lost is spoken in no later run |
| `SpeechPlan.NextKeeps` | action/speech.go:200-601 | every event keeps all three invariants: the boundary, the audio account and the place of each utterance |
| `SpeechPlan.RunKeeps` | action/speech.go:200-601 | so does every run |
| `SpeechPlan.Speech.constructor` | action/speech.go:170-193 | an empty planner over an empty ledger satisfies the protocol's invariant, which every method below keeps |
| `SpeechPlan.Speech.BeginEnqueue` | action/speech.go:200-208 | a silent producer, a blank text and a missing identity are refused before anything is shared |
| `SpeechPlan.Speech.BeginCancel` | action/speech.go:275-280 | a cancellation begins having stopped and kept nothing |
| `SpeechPlan.Speech.Shuts` | action/speech.go:436-442 | the planner takes no more utterances |
| `SpeechPlan.Speech.Other` | action/speech.go:275-397 | anything else done to the shared ledger keeps the invariant |
| `SpeechPlan.Speech.Enters` | action/speech.go:200-244 | the sections of `Enqueue` |
| `SpeechPlan.Speech.Stops` | action/speech.go:317-331 | the sections of `stop` |
| `SpeechPlan.Speech.Ceases` | action/speech.go:275-397 | the sections of `Cancel` and `CancelMatching`, requeueing included |
| `SpeechPlan.Speech.Streams` | action/speech.go:462-601 | the sections of `emit` and `stream` |
| `SpeechPlan.Speech.Receives` | action/speech.go:554-572 | the sample rate is fixed by the first chunk, and a chunk of another rate is not accepted |
| `SpeechPlan.Speech.Sends` | action/speech.go:520-552 | one frame leaves the buffer only if the sink took it |
| `SpeechPlan.Speech.Works` | action/speech.go:249-267 | the worker: a stale entry is cancelled and not emitted, and the end of the session drains the queue |
| `Trajectory.ResolveIsCanonical` | trajectory/trajectory.go:1248-1294 | a resolved claim names an older revision of the same stream, the newest of both, cited as a cause |
| `ProviderRuns.Project` | continuation/projection.go:102-131 | the log is partitioned in order into maximal user-observation runs and single items; no run is empty; each run shows exactly the observations nothing in it replaced |
| `ProviderRuns.CurrentUserObservations` | continuation/projection.go:143-186 | exactly the unreplaced observations of the run, in order, with the marker cleared just where the target was in the run |
| `ProviderRuns.MarkReplacements` | continuation/projection.go:155-170 | marks exactly the observations a later one of the run replaces, and exactly the replacements whose target is in the run |
| `ProviderRuns.SplitIsUnique` | continuation/projection.go:102-131 | there is only one such partition |
| `ProviderRuns.HiddenLeadsToVisible` | continuation/projection.go:143-186 | a hidden observation leads through later replacements of the same run to a visible one |
| `ProviderRuns.VisibleAre` | continuation/projection.go:143-186 | what is shown is the unhidden observations, once each, in the log's order |
| `ProviderRuns.LastIsVisible` | continuation/projection.go:143-186 | the last observation of a run is always shown |
| `Projection.ValidateProjection` | continuation/runner.go:458-506 | accepts exactly the projections that select items in order without fabrication or change beyond shed causes and native state, leaving no dangling cause or assistant state |
| `Projection.CheckGrounded` | continuation/runner.go:492-504 | every cause and every assistant state's item is retained |
| `Projection.CompactVisualProjection` | cognition/reflex.go:343-419 | exactly the user's latest words, the newest observation of each image source, and up to eight telling actions with their results |
| `Projection.CompactAccepted` | cognition/reflex.go:343-419 | accepted by the validator for every log with unique identities |
| `Projection.CompactHasNoOrphans` | cognition/reflex.go:397-407 | no result without its call |
| `Projection.CompactKeepsFewActions` | cognition/reflex.go:393-396 | at most eight actions |
| `Projection.CompactKeepsNewest` | cognition/reflex.go:343-419 | the newest observation of every image source, the user's latest words and the newest action are kept |
| `Projection.KeepActions` | cognition/reflex.go:386-396 | unresolved actions other than the newest go first, then all but the last eight |
| `Projection.FilterAccepted` | cognition/reflex.go:262-338 | any part of an accepted bare projection is accepted |
| `Projection.WithoutHasNoOrphans` | cognition/reflex.go:262-338 | removing calls together with their results leaves no result alone |
| `Projection.OnlyCurrentIntent` | cognition/reflex.go:262-299 | removes exactly the computer actions of other intents, with everything that carries their call identity |
| `Projection.WithoutResolvedCoordinates` | cognition/reflex.go:301-338 | removes exactly the computer actions that have a result, with their results |
| `Projection.ReflexProjection` | cognition/reflex.go:194-222 | exactly the compact view less, in turn, the user's words for a reflex with its own task, the computer actions of other intents, and the computer actions with a result; accepted by the validator for every log with unique identities, no orphan result, at most eight actions, and the newest observation of each image source kept |
| `Projection.ThinsKeepsNewest` | cognition/reflex.go:194-222 | the newest observation of every image source is kept unless it is the user's own and the reflex has its own task; so are the user's latest words |
| `ProjectionLaws.ShownExactly` | cognition/reflex.go:343-419 | the compact view shows exactly the user's latest words, the newest observation of each image source, each action that is the newest or has been answered and has fewer than eight such after it, and the first reply to each action shown |
| `ProjectionLaws.AcceptedIsSelected` | continuation/runner.go:458-506 | for a log with unique identities a projection is accepted if and only if it selects items of the log in order, none invented, altered but for causes and native state, repeated or moved, with no reference left dangling |
| `ProjectionLaws.IntentLeaves` | cognition/reflex.go:262-299 | the filter for one intent leaves out exactly the items of computer calls the intent does not name |
| `ProjectionLaws.OpenLeaves` | cognition/reflex.go:301-338 | the filter for a reflex part way through leaves out exactly the items of computer calls that were answered |
| `ProjectionLaws.TaskLeaves` | cognition/reflex.go:194-213 | a reflex with its own task is not shown the user's words, and loses nothing else |
| `Continuations.Collect` | continuation/runner.go:287-330 | the segments hold exactly what the events carried, across kinds and in order, neighbouring deltas of one kind in one segment; undeclared calls are marked; an empty delta and a call without tool authority are refused |
| `Continuations.AtomsAreFaithful` | continuation/runner.go:287-330 | what a provider emitted can be collected in only one way |
| `Continuations.SegmentsAskTheSame` | continuation/runner.go:347-362 | the calls and the proposals of the segments are those of the provider's events, in order |
| `Continuations.StripMarkers` | continuation/runner.go:521-543 | every assistant segment, and no other, has its control text removed |
| `Continuations.BuildItems` | continuation/runner.go:545-642 | the items are, in order, the segments worth recording; they form one causal chain from the instruction; native state is on the first item alone if present and no proposal segment exists, and on none otherwise; identities and times are drawn in order |
| `Continuations.BuiltCalls` | continuation/runner.go:545-642 | the executable calls and the proposals among the items are, in order, those of the segments, and none when interrupted |
| `Continuations.BuiltTextIsClean` | continuation/runner.go:521-543 | no assistant item carries the runtime marker |
| `Continuations.InterruptedProposalWithholdsState` | continuation/runner.go:560-569 | an interrupted proposal withholds native state although it becomes no item |
| `Continuations.Report` | continuation/runner.go:347-362 | the result's calls and proposals are the segments' own, and none when interrupted |
| `Continuations.RequestsAreVetted` | continuation/runner.go:305-320 | an executable call names a declared tool and comes from a provider with execution authority |
| `Continuations.Runner.Generate` | continuation/runner.go:186-381 | the items are the instruction and what is built from the provider's events and nothing else; the result's `ToolCalls` and `ToolProposals` are the calls of those events and equal, in order, the executable and proposal items, empty when interrupted, in one causal chain from the instruction |
| `Continuations.Store.AppendBatchAfter` | trajectory/trajectory.go:621-642 | all of the batch or none; refused exactly when it is empty, its base is ahead of the log, evidence arrived after the base, or the log's own checks refuse |
| `Continuations.Runner.Commit` | continuation/runner.go:423-456 | committed whole, each item at the later of its own time and the entry time, or nothing appended and no calls returned |
| `Continuations.Runner.Run` | continuation/runner.go:186-381 | what is committed is built from the provider's events, with identities and times drawn in order and the entry time applied; calls are returned only if they are in the log as executable calls; otherwise the log has gained only what other writers appended; evidence arriving meanwhile prevents the commit |
| `Continuations.Runner.Prepare` | continuation/runner.go:692-713 | the log gains only what other writers appended; what it keeps is built from the provider's events, and it keeps nothing only if interrupted or if nothing was worth recording |
| `Continuations.Runner.Adopt` | continuation/runner.go:723-746 | an adoption succeeds exactly when the preparation is ready, the log has not shrunk, no evidence arrives meanwhile and the log admits the items; it appends the prepared items, the instruction included, as they were but for the present time and the instruction's cause, which is the log's last item, and makes any other adoption fail; after a failed one the log has gained at most what other writers appended, and it can be repeated |
| `ContinuationLaws.RequestedAre` | continuation/runner.go:287-362 | a provider with execution authority executes its calls of the tools offered and proposes the others, one that may propose proposes them all, one without authority does neither, each in order |
| `ContinuationLaws.BuiltSays` | continuation/runner.go:571-625 | every word that is not blank is kept in order, or none when a completed run made a call; of the thoughts, all or none as configured |
| `ContinuationLaws.StateIsCarried` | continuation/runner.go:560-642 | native state is on the first item and no other exactly when nothing streamed was only a proposal, and there is then an item for it |
| `ContinuationLaws.UnmarkedIsKept` | continuation/runner.go:521-543 | text in which nothing is found to remove is kept as it is |
| `ContinuationLaws.EvidenceIs` | trajectory/trajectory.go:621-642 | a new observation, repair or tool result prevents a commit, and nothing else does |
| `EventBatch.Merge` | eventloop/batch.go:57-88 | events and items in commit order; cancel dominates, parallel needs unanimity; deferred if any group was, or if there is more than one |
| `EventBatch.MergeIsAssociative` | eventloop/batch.go:57-88 | `merge(xs ++ ys)` equals `merge([merge(xs), merge(ys)])` for non-empty groups |
| `EventBatch.Compile` | eventloop/batch.go:111-273 | refuses exactly when some event is unresolvable in the log it meets: no earlier item of the revision it supersedes, no such call, or incomplete results; otherwise the log followed by the items is the reference compilation; each event's item carries the event's content, revision, provenance and marker, and has among its causes what the event refers to; times never decrease, the preceding item is the first cause, and items stand for the events in order |
| `EventBatch.CompiledSound` | eventloop/batch.go:111-223 | times never go below the log's last or decrease, causes are distinct, everything an item refers to is among its causes, and what it supersedes, holds or answers is in the log before it |
| `EventBatch.CompiledRepresents` | eventloop/batch.go:136-257 | an observation that supersedes carries the event's marker, revision and content and links the latest item of that revision in the log as it stood, even one of the same group; placeholders and results link their calls, states and repairs what they name |
| `EventBatch.StuckSomewhere` | eventloop/batch.go:136-257 | a group is refused exactly when one of its events, after all before it compiled, finds nothing in the log to refer to |
| `EventBatch.CompiledSources` | eventloop/batch.go:111-223 | every event but a signal is represented, in arrival order, by exactly its items |
| `EventBatch.MatchUsesEveryResult` | trajectory/trajectory.go:466-527 | a matched event answers every unanswered call of the invocation and uses every result |
| `EventBatch.Compiler.CompileEvent` | eventloop/batch.go:136-221 | one event compiled, or refused with nothing changed |
| `EventBatch.Compiler.CompileResults` | eventloop/batch.go:225-257 | accepted exactly when the results are complete for the invocation, then entered in the log's call order |
| `EventBatch.Compiler.Append` | eventloop/batch.go:120-134 | a new identity, a time no earlier than the last, and the preceding item as first cause |
| `EventBatch.CollectParents` | eventloop/batch.go:259-273 | causes without blanks or repetition, in order |
| `EventBatch.FindRevision` | eventloop/batch.go:150-162 | the latest earlier observation of a revision |
| `EventBatch.MarkBatch` | eventloop/batch.go:96-108 | a group of two or more is stamped with its identity, its size and each item's index |
| `BatchLaws.MergedMeans` | eventloop/batch.go:57-88 | the rejoined group cancels if any does, runs alongside if all do, is deferred if any was or there is more than one, and spans first to last |
| `BatchLaws.MergedJoins` | eventloop/batch.go:57-88 | its events and items are those of the groups, one after the other |
| `BatchLaws.CompleteIsOneForOne` | trajectory/trajectory.go:463-527 | call identities being distinct in an invocation, a result event is accepted if and only if it names an invocation and brings exactly one result of the right tool for each of its unanswered calls, and no others |
| `BatchLaws.CompiledDraws` | eventloop/batch.go:111-135 | every item entered has the next identity and the time of its own clock reading, or that of the item before it if the clock went back |
| `BatchLaws.CausesKeepOrder` | eventloop/batch.go:259-273 | causes are in the order in which they were first named |

## Left out

- Timing telemetry, audit records and operational counters beyond those named above.
- Unsigned 64-bit wrap-around of sequence numbers, versions, epochs and metric counters, except in `AsrBuffer`, where offsets and indices are bounded.
- Nil receivers and nil configuration, which constructors refuse.
- ToolDispatch.EffectsAreAuthorised: authority is that of the log as it was when the thread began; the log's later growth is not modelled.
- `Tools.DispatchAll` and the tool registry, which are a loop over `Dispatch` and a map.
- Ledgers.Ledger.Prepare: how the declared confirmation requirement is spelled; its reading is an input.
- SpeechPlan.AudioIsConserved: a provider that goes on calling back after a zero frame size was refused keeps the frame loop spinning; no progress is claimed.
- `CancelMatching` without a predicate, which looks the active utterance up a second time to report it as heard.
- Freedom from starvation in the scheduler and minimality of preemption across passes, which the code does not provide.
- The words heard of an assistant turn (`AssistantHeardContent`, `spoken.Tracker`): their text is an input of `ProviderRuns.Project`.
- Trajectory.ResolveIsCanonical: the checks every item must pass are one Boolean of the item.
- Projection.ValidateProjection: says whether a projection is accepted, not which error it is given.
- Continuations.Store.AppendBatchAfter: the log's own checks on a batch are an input, as is everything other writers append.
- Continuations.StripMarkers: the completion marker is removed by an arbitrary function; the program's own removes one occurrence and may leave another.
- `WithoutSupersededPartials` and the provider-visible prefix of a run, which nothing committed depends on.
- Lineage.Validate: the checks inside one definition are one Boolean of the definition; `ParseRef` is not modelled.
- EventBatch.Compile: events are taken as already validated, and the payload details it copies are opaque strings.
- Fingerprints, JSON, sockets, wall clocks, prompt text and benchmark code.

# nightme: verified models of its stateful core

Dafny models of five parts of the nightme daemon, with proofs about every input, every history of calls or every
interleaving. `dafny verify dfyconfig.toml` checks all of them.

**Review fan-out.** `/review` runs one turn per rule group, at most four at a time, and folds all their events into
one outer log through an aggregator with three phases. `AggregatorSpec` gives one function per critical section of the
aggregator's two locks; `EventAggregator` is the aggregator as a mutable object, each method proved equal to its
section. `Fanout` composes the sections and the orchestrator's goroutines into a transition system: a schedule is any
list of enabled steps, so a lemma about all lists is a lemma about all interleavings, for any number of groups and any
event traces. Map iteration order is a free choice of the schedule. `FanoutShape`, `FanoutDelivery`, `FanoutOutcome`,
`FanoutTools`, `FanoutTasks`, `FanoutMerges`, `FanoutSnapshots` and `FanoutProgress` each carry one invariant over all
runs; `FanoutResults` says what every run delivers. `FanoutOrder`, `FanoutBacklog` (phase 1) and `FanoutReplay` (phase
2) follow one job's events through one of three channels: passed-through events to the log, everything forwarded to
the log, or task events to the task table; `FanoutInOrder` says in which order they can arrive. `FanoutDue` follows
what each goroutine has still to merge. `FanoutPlans` and `FanoutOpening` build the schedules that bring every group
to a chosen point and show that phase 2 opens at no other, `FanoutBeside` those of phase 2 that hold a few goroutines
back; with them `FanoutLimits` and `FanoutOvertaking`, `FanoutReorder`, `FanoutReadyFirst`, `FanoutLatest` and
`FanoutStale`, `FanoutLag` and `FanoutLagging` each turn a promise of the comments that does not always hold into an
if-and-only-if on the turns.

**Message queue.** `MessageQueue` is the linked list with its in-flight cursor, pointer by pointer; every method is
proved to do one step of `QueueSpec`, where histories of calls are studied on two sequences.

**Diff budget.** `DiffQuotas` proves the round-by-round allocator equal to its closed form; `DiffRender` proves what
the renderer makes of the quotas, byte for byte.

**Heartbeat tracker.** `HeartbeatTracker` is the bounded LRU of turn activity; `HeartbeatSpec` says, from the history
of observations alone, which ids it holds and what each entry says, `HeartbeatHistory` says it observation by
observation.

**Turn lifecycle.** `DrainSession` is the one-shot drain loop, `DrainOutcome` what it answers, in the fields of the
events. `PromptProtocol` and `CloseRace` are the prompt/override and the restart/close protocols of an `AgentSession`,
one step per critical section of its mutex and per store outside it, for any number of callers; `PromptReady` and
`PromptDisplaced` say exactly which callers can bring the first out of step, `RestartRace` which restarts the second;
`AgentSession` is the object whose methods are those sections.

## Where the code differs from its comments

- A ToolEnd that finds no Start in phase 1 is forwarded at once *and* stays in its job's buffer, so the transition
  replays it (`internal/agent/aggregate_sink.go:390`, `:441-455`). `ToolEndDelivery` counts these duplicates in every
  run, and `ExactlyOnceIff` gives the exact condition on the turns under which none can occur.
- The file header says per-job Result and Error events are counted when the sink sees them and that `terminalSeen`
  guards the count. The code counts jobs only in `markJobDone`, and per-job terminals never leave the aggregator.
- Phase 1 is documented to send the outer sink nothing (`internal/agent/aggregate_sink.go:19-20`, `:65-66`), which
  would make the outer Ready its first entry. A ToolEnd leaves phase 1 before it, and the phase is streaming before
  the Ready is appended, so a live event can slip in. `ReadyFirstExactly` says for which turns it is always first;
  `ToolBeforeReady` and `TextInTheGap` are the smallest fan-outs for which it is not.
- A job's events are documented to be replayed in arrival order (`:364-367`). They are (`ReplayCarries`), but a
  ToolEnd of phase 1 overtakes everything buffered, and a live event of the job can be logged before the replay
  reaches the earlier ones. `PartsInOrder` bounds what can happen, `InOrderExactly` says for which turns
  passed-through events and merges stay in order.
- The task table is documented to keep the latest write under an id, so that an Update overwrites an earlier Create
  (`:130-132`). A group's live Update can be merged before the replay of its buffered Create, which then wins.
  `LatestExactly` says for which turns every item left is the last some group sent; `OlderItemStays` is an instance.
- A forwarded task list is documented to be one merged snapshot of the table (`:14-16`, `:665-670`). Merging and
  forwarding are two sections, so the snapshot forwarded last need not be the one merged last, and misses what came in
  between. `LastFullExactly` says for which turns the last one always lists the whole table, `OneTaskMissing` is an
  instance; by `FullTableForwarded` the whole table is always among the last few.
- `Rewind` is documented to roll back the most recent Peek. It rolls back every Peek since the last Commit
  (`RewindUndoesAllPeeks`), and restores the queue exactly when nothing was in flight before them
  (`RewindRestoresExactly`).
- A cut diff body is documented to keep the longest prefix of whole lines that fits beside the marker. The code
  reserves room for the widest marker the section could need, so a line can be lost whose own, shorter marker would
  have fitted: `LongestBesideOwnMarker` says exactly when, `WidestMarkerCostsALine` is an instance.
- `endPrompt` is documented to anchor a turn's end to the reply-to override when no prompt is installed. Without a
  prompt there is never an override: that end is published without an anchor (`EndWithoutPrompt`).
- `IsReady` is documented to mean that no prompt is in flight (`internal/agentsession/session.go:1239-1242`). The flag
  is stored outside the lock, and a respawn, a Submit's own included, sets it, so it can stay false without a prompt
  and be true with one. `ReadyMeansIdleExactly` says which tasks keep the promise, `ReadyMeansIdleWhenGentle` which
  runs do.
- A failed respawn is documented to mark the session exited so that no stale handle is left dangling
  (`internal/agentsession/session.go:1060-1062`). It does so only if the session was running before the fork, so one
  that fails after another landed leaves it running without a handle: `AttachedExactly` says from which sessions that
  can happen.
- The guard of an injected `SendBlocks` and the installation of its prompt are two critical sections, so a submitted
  turn can lose its place to it: in some run exactly if there are an injection and a Submit (`DisplacesExactly`), and
  `DisplacedTurn` says which turns of a run can.

## Model

| member | source | states |
|---|---|---|
| EventAggregators.EventAggregator.constructor | internal/agent/aggregate_sink.go:160-167 | a new aggregator is in phase 1 with nothing counted, buffered, merged or emitted |
| EventAggregators.EventAggregator.WrapJob | internal/agent/aggregate_sink.go:181-193 | registering a job installs an empty buffer and tool table and changes nothing else |
| EventAggregators.EventAggregator.HandleBuffering | internal/agent/aggregate_sink.go:376-471 | the whole effect of the phase-1 section, lookup, pop-back and duplicate included |
| EventAggregators.EventAggregator.Relock | internal/agent/aggregate_sink.go:457-470 | the second section after a phase-1 ToolEnd runs the gate only if phase 1 still lasts |
| EventAggregators.EventAggregator.LeavePhase1 | internal/agent/aggregate_sink.go:477-510 | the transition fires once, when enough Readys were counted, and takes all buffers |
| EventAggregators.EventAggregator.SnapshotReplay | internal/agent/aggregate_sink.go:488-508 | the replay loop lists every buffered event, job by job in the order of the map iteration |
| EventAggregators.EventAggregator.HandleStreaming | internal/agent/aggregate_sink.go:589-611 | phase 2 routes each kind: store, match, merge, forward or suppress |
| EventAggregators.EventAggregator.StoreStart | internal/agent/aggregate_sink.go:612-618 | a ToolStart is stored under its id |
| EventAggregators.EventAggregator.MatchEnd | internal/agent/aggregate_sink.go:621-662 | a ToolEnd takes its stored Start and emits the pair as one block, or itself alone |
| EventAggregators.EventAggregator.MergeTasks | internal/agent/aggregate_sink.go:665-694 | items are merged by id, the latest winning, and one snapshot listing the whole table follows |
| EventAggregators.EventAggregator.EmitBlock | internal/agent/aggregate_sink.go:646-651 | one emission section appends its block contiguously |
| EventAggregators.EventAggregator.MarkJobDone | internal/agent/aggregate_sink.go:260-303 | the job that completes the count closes the aggregator and owes the outer Result, once |
| EventAggregators.EventAggregator.Finalize | internal/agent/aggregate_sink.go:315-349 | finalize closes and owes the Result only if nothing has |
| Fanout.RunLifecycle | internal/agent/review_with_ocr.go:158-216 | over every run: slots equal the turns in progress and stay within four, phases match the flags, closing waits for every goroutine to be counted |
| FanoutShape.OuterLogShape | internal/agent/aggregate_sink.go:6-16 | in every interleaving every outer ToolStart is directly followed by its own ToolEnd; no per-job Ready, Result or Error gets out; everything else came from a turn |
| FanoutDelivery.ReplaySum | internal/agent/aggregate_sink.go:488-508 | whatever order the map iteration picks, the replay carries exactly the buffered events, each as often as buffered |
| FanoutDelivery.NotClosed | internal/agent/review_with_ocr.go:166-203 | while a goroutine is inside a sink call the aggregator cannot be closed, so no replay is cut short |
| FanoutDelivery.RoutingAccount | internal/agent/aggregate_sink.go:212-229 | while the aggregator is open, reading the phase and redirecting a stale event each hand the whole event on to exactly one further section |
| FanoutDelivery.ExecAccount | internal/agent/aggregate_sink.go:369-733 | every section passes on what it takes in: to the log, a buffer, or the operations that follow |
| FanoutDelivery.RunAccount | internal/agent/aggregate_sink.go:369-733 | conservation over every schedule |
| FanoutDelivery.FinalAccount | internal/agent/aggregate_sink.go:369-733 | at the merge, forwarded plus never replayed equals sent plus duplicated |
| FanoutResults.AtMostOnce | internal/agent/aggregate_sink.go:6-9 | at every moment of every run: at most one outer Ready, at most one outer Result, and the Result is last |
| FanoutResults.CompleteRun | internal/agent/aggregate_sink.go:260-349 | every complete run ends with exactly one Result as its last entry, and has one Ready exactly when the turns sent at least as many Readys as there are groups |
| FanoutResults.PassThroughDelivery | internal/agent/aggregate_sink.go:717-733 | how often: text, permissions and all other passed-through events are in the outer log exactly as often as sent if enough Readys were sent, and not at all otherwise |
| FanoutResults.ToolEndDelivery | internal/agent/aggregate_sink.go:418-456 | a keyed ToolEnd is forwarded as often as sent plus once per failed phase-1 lookup that a transition followed |
| FanoutResults.SnapshotPerTaskEvent | internal/agent/aggregate_sink.go:665-694 | one snapshot of the same kind per task event sent, per job |
| FanoutResults.FinalizeAddsNothing | internal/agent/review_with_ocr.go:204-218 | after wg.Wait finalize finds everything done |
| FanoutResults.RunMonotone | internal/agent/aggregate_sink.go:59-88 | the phase only moves forward and the outer log only grows |
| FanoutResults.StraysAreEnds | internal/agent/aggregate_sink.go:441-455 | nothing but keyed ToolEnds is ever forwarded twice |
| FanoutTools.EveryEndPaired | internal/agent/aggregate_sink.go:412-456 | if each End follows its Start, every End in the log stands right behind a Start of its id from its own turn, at every moment, stale re-stored Starts and live overtaking included |
| FanoutTools.EveryEndOnce | internal/agent/aggregate_sink.go:498-508 | and every End is forwarded exactly once |
| FanoutTools.OwnStart | internal/agent/aggregate_sink.go:612-663 | with ids unique in the turn that Start is the very one the turn sent |
| FanoutTasks.LatestWins | internal/agent/aggregate_sink.go:671-677 | the table holds exactly the last item merged under each id |
| FanoutTasks.ForwardedSnapshots | internal/agent/aggregate_sink.go:665-694 | every forwarded snapshot has distinct ids and is the table after some number of the merges of all jobs in lock order, each merge taking the items of one task event in order |
| FanoutMerges.ExecKeeps | internal/agent/aggregate_sink.go:598-694 | every section keeps a task event on its way to the one section that merges it |
| FanoutMerges.EveryTaskMergedOnce | internal/agent/aggregate_sink.go:665-694 | over a complete run the merges are, as a multiset, exactly the task events all turns sent if enough Readys were sent, and none otherwise |
| FanoutProgress.AtMostFourTurns | internal/agent/review_with_ocr.go:163-191 | at most four turns run at once and every slot is given back |
| FanoutPlans.FourAtOnce | internal/agent/review_with_ocr.go:163-191 | with four groups or more four turns can be under way at once |
| FanoutProgress.Progress | internal/agent/review_with_ocr.go:163-216 | a state before the merge always has an enabled step: no deadlock |
| FanoutProgress.StepCost | internal/agent/review_with_ocr.go:163-216 | every step decreases a measure |
| FanoutProgress.RunsAreBounded | internal/agent/review_with_ocr.go:163-216 | no run is longer than the measure of its start |
| FanoutProgress.CanFinish | internal/agent/review_with_ocr.go:203-218 | from every reachable state the merge can be reached |
| FanoutProgress.StuckOnlyWhenMerged | internal/agent/review_with_ocr.go:203-218 | a run that cannot be continued has merged its results |
| FanoutLimits.StraysAreEarlyUnmatched | internal/agent/aggregate_sink.go:418-456 | every failed phase-1 lookup is an unmatched End of its turn that came while the Readys of the returned earlier groups and its own were too few |
| FanoutLimits.ExactlyOnce | internal/agent/aggregate_sink.go:418-456 | without such an End every keyed ToolEnd is forwarded exactly once, for any number of groups |
| FanoutOvertaking.DuplicatedEnd | internal/agent/aggregate_sink.go:418-508 | with such an End and enough Readys some complete run forwards it once too often |
| FanoutOvertaking.ExactlyOnceIff | internal/agent/aggregate_sink.go:418-508 | the condition is exact for every fan-out |
| FanoutOrder.ReplayCarries | internal/agent/aggregate_sink.go:488-508 | in whatever order the jobs are replayed, each job's buffered events of every forwarded or merged kind are replayed in arrival order |
| FanoutOrder.ExecCarries | internal/agent/aggregate_sink.go:369-733 | every section that runs once phase 1 is over passes a job's events on in order: to its follow-ups, the log or the task table |
| FanoutBacklog.PartsCut | internal/agent/aggregate_sink.go:376-471 | at every moment before phase 2, of every job: what was logged of it are the first ToolEnds of a prefix of its turn, what is buffered is the rest of that prefix but for the matched ToolEnds, and its goroutine holds the remaining ToolEnds and the rest of the turn |
| FanoutBacklog.OpensReplay | internal/agent/aggregate_sink.go:477-508 | the goroutine whose section opens phase 2 takes over exactly what was buffered of each job, in order, and logs or merges none of it in that section |
| FanoutInOrder.OrderAfterOpening | internal/agent/aggregate_sink.go:364-367 | for every forwarded or merged kind: once a section has opened phase 2, at every later moment a job's entries are the ToolEnds logged before, and then an interleaving of a prefix of what was buffered with a prefix of what its own goroutine had, each in sent order |
| FanoutInOrder.PartsInOrder | internal/agent/aggregate_sink.go:364-367 | at every moment of every run there is a cut of the job's turn of which that holds, phase-1 tool pairs, snapshots and merges included |
| FanoutInOrder.CompleteParts | internal/agent/aggregate_sink.go:364-367 | in a complete run with enough Readys a job's passed-through events, and its merges, interleave all those before a cut of its turn with all those behind it |
| FanoutInOrder.OpenerInOrder | internal/agent/aggregate_sink.go:477-508 | the job whose own section opened phase 2 has its passed-through events logged, and its task events merged, exactly in the order sent |
| FanoutPlans.ReachInTime | internal/agent/review_with_ocr.go:158-203 | an event before which the returned earlier groups and its own turn send too few Readys can be sent in phase 1 |
| FanoutOpening.ReachOpening | internal/agent/aggregate_sink.go:477-486 | phase 2 can open with every group at its place in any plan that is one Ready short, the next of a launched group, and with any order of the replay |
| FanoutOpening.OpeningPlan | internal/agent/aggregate_sink.go:477-486 | where the groups stand when a run opens phase 2 is always such a plan |
| FanoutReorder.InOrder | internal/agent/aggregate_sink.go:364-367 | for passed-through events and for merges: unless phase 2 can open between two different ones of another group, every run has every job's in the order sent at every moment, and all of them in the end |
| FanoutReorder.Reordered | internal/agent/aggregate_sink.go:488-508 | if it can, some complete run logs or merges that group's in another order |
| FanoutReorder.InOrderExactly | internal/agent/aggregate_sink.go:364-367 | the condition is exact for every fan-out |
| FanoutLatest.LastGroup | internal/agent/aggregate_sink.go:671-677 | what a list of merges leaves under an id is what the merges of one group alone leave there |
| FanoutLatest.FindStale | internal/agent/aggregate_sink.go:130-132 | if a complete run leaves an item under an id that no group sent last, phase 2 could open between two items of a group under that id, the earlier no group's last, from a group that lists the id no more |
| FanoutStale.GoStale | internal/agent/aggregate_sink.go:488-508 | and if it can, some complete run leaves that earlier item |
| FanoutStale.LatestExactly | internal/agent/aggregate_sink.go:130-132 | the condition is exact for every fan-out |
| FanoutStale.OlderItemStays | internal/agent/aggregate_sink.go:665-677 | a group that creates a task, gets ready and updates it, beside one that only gets ready, meets it |
| FanoutSnapshots.FullTableForwarded | internal/agent/aggregate_sink.go:665-694 | in every complete run that merged anything some forwarded snapshot lists the whole final table, and fewer snapshots follow it than turns run at once; for a single group it is the last |
| FanoutDue.StepDue | internal/agent/aggregate_sink.go:589-694 | in phase 2 a merge takes the front of its goroutine's own list of task events, and no other step changes any list or the history |
| FanoutDue.LastBy | internal/agent/aggregate_sink.go:671-677 | over any stretch of phase 2, what is left under an id is the last that one goroutine took off its list |
| FanoutLag.OpensShared | internal/agent/aggregate_sink.go:477-508 | when phase 2 opens, the goroutine that opened it has all buffered task events to merge in replay order and then its own rest, every other the rest of its turn, and no snapshot is logged or pending |
| FanoutLag.FindSnap | internal/agent/aggregate_sink.go:679-694 | the last snapshot of a log was taken by the last merge of its goroutine |
| FanoutLag.FindLag | internal/agent/aggregate_sink.go:665-694 | a complete run whose last snapshot does not list the whole table has turns where one goroutine's last merge can precede another's last item under an id, the table then holding another item there or none |
| FanoutLagging.LastLags | internal/agent/aggregate_sink.go:665-694 | with such turns some complete run ends so |
| FanoutLagging.LastFullExactly | internal/agent/aggregate_sink.go:14-16 | the condition is exact for every fan-out |
| FanoutLagging.OneTaskMissing | internal/agent/aggregate_sink.go:665-694 | two groups that each create a task after their Readys meet it |
| FanoutReadyFirst.ReadyFirst | internal/agent/aggregate_sink.go:19-20 | with enough Readys, no ToolEnd in time for phase 1 and nothing left to forward in another group when phase 2 opens, the first entry of the log is the outer Ready, at every moment of every run |
| FanoutReadyFirst.EndFirst | internal/agent/aggregate_sink.go:418-456 | a ToolEnd in time for phase 1 comes before the Ready in some run |
| FanoutReadyFirst.LiveFirst | internal/agent/aggregate_sink.go:480-501 | an event left over is logged before the Ready in some run |
| FanoutReadyFirst.ReadyFirstExactly | internal/agent/aggregate_sink.go:65-66 | the condition is exact for every fan-out, empty ones and ones with too few Readys included |
| FanoutReadyFirst.ToolBeforeReady | internal/agent/aggregate_sink.go:418-456 | one group that runs one tool before its Ready breaks it |
| FanoutReadyFirst.TextInTheGap | internal/agent/aggregate_sink.go:480-501 | two groups without tools break it, one speaking after its Ready |
| QueueSpec.NothingLost | internal/chatsession/message_queue.go:203-422 | over any history, accepted messages are, as a multiset, those committed, removed, cleared, in flight and pending |
| QueueSpec.FirstInFirstOut | internal/chatsession/message_queue.go:160-358 | with pushes, peeks, commits and rewinds only, committed then in flight then pending is the accepted sequence in order |
| QueueSpec.NeverOverCapacity | internal/chatsession/message_queue.go:203-299 | the capacity bounds in-flight and pending messages together over any history |
| QueueSpec.RemoveTakesOne | internal/chatsession/message_queue.go:367-399 | Remove takes out the first message with the id and only that, or nothing when there is none |
| QueueSpec.SegmentationUnique | internal/chatsession/message_queue.go:160-193 | the cut into lone barriers and maximal barrier-free runs is unique |
| QueueSpec.DrainSegments | internal/chatsession/message_queue.go:160-193 | repeated Peek and Commit hand out that cut |
| QueueSpec.RetryBatch | internal/chatsession/message_queue.go:351-358 | Rewind undoes Peek; after any pushes the next batch extends the old one, and equals it exactly when a barrier closed it or no plain message follows |
| QueueSpec.RewindUndoesAllPeeks | internal/chatsession/message_queue.go:347-358 | one Rewind takes back any number of uncommitted Peeks |
| QueueSpec.RewindRestoresExactly | internal/chatsession/message_queue.go:347-358 | that gives back the queue as it was before those Peeks exactly when nothing was in flight then |
| QueueSpec.SteerGoesFirst | internal/chatsession/message_queue.go:256-314 | a message pushed to the front leads the next batch |
| QueueSpec.AcceptsExactly | internal/chatsession/message_queue.go:203-231 | a message is accepted exactly if it has an id and the queue is unbounded or holds fewer than its capacity, in flight and pending together |
| QueueSpec.PushesMean | internal/chatsession/message_queue.go:203-314 | what a push at either end does to the two regions, and that a refused one does nothing |
| QueueSpec.PeekMeans | internal/chatsession/message_queue.go:142-193 | a batch is a lone barrier, or every message up to the next one, and moves over unchanged |
| QueueSpec.RemoveMeans | internal/chatsession/message_queue.go:367-399 | the first message with the id is taken out, all others keep their places and regions |
| QueueSpec.NoneRefused | internal/chatsession/message_queue.go:133-231 | over any history, with room for every message pushed with an id, or no bound, exactly those are accepted, in order |
| QueueSpec.AllDelivered | internal/chatsession/message_queue.go:160-342 | rounds of Peek and Commit deliver everything pending, in order, in as many rounds as there are messages |
| MessageQueues.MessageQueue.constructor | internal/chatsession/message_queue.go:135-140 | a new queue is empty, a capacity that is not positive meaning none |
| MessageQueues.MessageQueue.Peek | internal/chatsession/message_queue.go:160-193 | the list stays well linked and the cursor moves over exactly the specified batch |
| MessageQueues.MessageQueue.CollectRun | internal/chatsession/message_queue.go:170-180 | the walk collects the plain messages up to a barrier or the end |
| MessageQueues.MessageQueue.Push | internal/chatsession/message_queue.go:203-231 | appended as pending exactly if it has an id and the list is shorter than the capacity or unbounded; ignored without an id, refused otherwise |
| MessageQueues.MessageQueue.PushFront | internal/chatsession/message_queue.go:256-314 | accepted on the same condition, and inserted in front of the pending region, all link and cursor cases |
| MessageQueues.MessageQueue.Predecessor | internal/chatsession/message_queue.go:286-304 | the walk ends at the node before the cursor; its panic is unreachable |
| MessageQueues.MessageQueue.Commit | internal/chatsession/message_queue.go:316-342 | the in-flight nodes are unlinked and the rest is kept |
| MessageQueues.MessageQueue.Rewind | internal/chatsession/message_queue.go:351-358 | the cursor returns to the head: every uncommitted Peek is undone |
| MessageQueues.MessageQueue.Remove | internal/chatsession/message_queue.go:367-399 | unlinks the first node with the id wherever it is, cursor and tail adjusted |
| MessageQueues.MessageQueue.Clear | internal/chatsession/message_queue.go:404-422 | returns everything from head to tail and leaves the queue empty |
| MessageQueues.MessageQueue.Len | internal/chatsession/message_queue.go:426-430 | counts in-flight and pending messages |
| DiffQuotas.AllocateDiffQuotas | internal/agent/review_with_ocr.go:698-745 | the quotas are the fair share, for any sizes and any budget, through growing shares and truncating division; the loop ends |
| DiffQuotas.FairLevelIsLargest | internal/agent/review_with_ocr.go:689-697 | the level is the largest the budget affords: a level is affordable exactly up to it |
| DiffQuotas.FairShareUnique | internal/agent/review_with_ocr.go:689-697 | the promise determines the quotas |
| DiffQuotas.FairShareFits | internal/agent/review_with_ocr.go:695-697 | no quota exceeds its section, and together they stay in a non-negative budget |
| DiffQuotas.FairShareCuts | internal/agent/review_with_ocr.go:689-697 | when not everything fits some section is cut |
| DiffQuotas.FairShareMeans | internal/agent/review_with_ocr.go:689-697 | a fair share, number by number: everything if it fits, else each size or one level for all larger, within the budget, one byte more for each of those going over it |
| DiffQuotas.ShareOfRound | internal/agent/review_with_ocr.go:718-721 | the share never shrinks from round to round, and a share of nothing ends the split correctly |
| DiffRender.MarkerNames | internal/agent/review_with_ocr.go:651-654 | the dropped count can be read back out of the marker |
| DiffRender.DecimalDigits | internal/agent/review_with_ocr.go:651-654 | counts are printed in decimal digits without a leading zero |
| DiffRender.DecimalGrows | internal/agent/review_with_ocr.go:819-824 | a smaller count never prints wider |
| DiffRender.TruncateDiffToBytes | internal/agent/review_with_ocr.go:662-687 | the line-scanning loop finds the specified cut |
| DiffRender.LinesWithin | internal/agent/review_with_ocr.go:656-661 | that cut is the longest run of whole lines within the limit |
| DiffRender.BodyFits | internal/agent/review_with_ocr.go:815-830 | a body is verbatim, or empty, or the longest whole lines beside the reserved marker plus the marker, and fits |
| DiffRender.LongestBesideOwnMarker | internal/agent/review_with_ocr.go:806-830 | for every content that is cut, a marker too wide for its allowance included: the kept lines are the longest that fit beside their own marker exactly when no line ends in a window given by two digit counts |
| DiffRender.SameDigitsLoseNothing | internal/agent/review_with_ocr.go:819-824 | that window is empty whenever every possible dropped count has as many digits as the content length |
| DiffRender.WidestMarkerCostsALine | internal/agent/review_with_ocr.go:806-830 | an input where they are not |
| DiffRender.DiffSectionSizes | internal/agent/review_with_ocr.go:775-784 | a section's size is what it takes when rendered in full, and nothing when empty |
| DiffRender.VerbatimLength | internal/agent/review_with_ocr.go:771-784 | those sizes are the exact lengths of the unabridged blocks |
| DiffRender.RenderFits | internal/agent/review_with_ocr.go:790-804 | a block stays in its quota, accounts for every content byte as kept or dropped, and is cut exactly when the section is larger than its quota |
| DiffRender.RenderPrints | internal/agent/review_with_ocr.go:786-830 | the block of every section and quota: all of it when it fits, nothing when the quota holds no marker, else head, the longest whole lines that leave room for the widest marker, the marker, and tail |
| DiffRender.OmittedExactly | internal/agent/review_with_ocr.go:786-804 | a section that is not empty leaves no block exactly if its allowance holds neither it nor the widest marker |
| DiffRender.BlocksPrint | internal/agent/review_with_ocr.go:950-960 | the blocks of a group are those of its sections, in order, without the empty ones, and the dropped bytes add up |
| DiffRender.GroupFits | internal/agent/review_with_ocr.go:947-961 | under a fair split: total within budget; dropped is zero exactly when the sizes fit, and exactly when every section is verbatim |
| DiffRender.RenderSections | internal/agent/review_with_ocr.go:950-960 | the loop prints the non-empty blocks in order and adds up their bytes and what was dropped |
| DiffRender.AssembleDiffs | internal/agent/review_with_ocr.go:942-966 | what is printed of each section under a fair split of 1 MiB, in order; the total stays within it, and nothing is dropped exactly when everything is printed unabridged |
| HeartbeatSpec.BeatsMeaning | internal/chatsession/heartbeat.go:131-173 | counters count, the first terminal event fixes the verdict, the last observation dates the entry |
| HeartbeatSpec.OneVerdictPerStay | internal/chatsession/heartbeat.go:190-196 | of a stay's terminal observations exactly the first reports a change |
| HeartbeatSpec.RecentSeen | internal/chatsession/heartbeat.go:220-236 | the full most-recently-used list holds exactly the ids seen |
| HeartbeatSpec.RecentOrder | internal/chatsession/heartbeat.go:220-236 | in front of an id stand exactly the ids observed since it was |
| HeartbeatSpec.OrderIsRecent | internal/chatsession/heartbeat.go:220-236 | the order list is the first cap entries of that list |
| HeartbeatSpec.KeysMatch | internal/chatsession/heartbeat.go:220-236 | the order list has no duplicates and lists exactly the map's keys |
| HeartbeatSpec.TrackedExactly | internal/chatsession/heartbeat.go:26-33 | an id is held exactly while fewer than cap other ids were observed since it was |
| HeartbeatSpec.LargerContainsSmaller | internal/chatsession/heartbeat.go:220-236 | a larger tracker holds everything a smaller one does, in the same order |
| HeartbeatSpec.SnapshotIsStay | internal/chatsession/heartbeat.go:202-209 | a snapshot is the fold of the observations since the id last entered |
| HeartbeatSpec.OneReportPerStay | internal/chatsession/heartbeat.go:124-196 | of the terminal observations of an id's current stay Observe reported, in the state it then had, exactly the first |
| HeartbeatSpec.WholeHistoryExactly | internal/chatsession/heartbeat.go:59-64 | that is the id's whole history exactly if it was never evicted |
| HeartbeatSpec.StayGrows | internal/chatsession/heartbeat.go:202-236 | a larger tracker's entry only ever reaches further back |
| HeartbeatHistory.SinceMeans | internal/chatsession/heartbeat.go:220-236 | an id counts as observed since another exactly if one of its observations has none of the other behind it |
| HeartbeatHistory.StayAtMeans | internal/chatsession/heartbeat.go:202-236 | an entry counts exactly the observations of its id since which fewer than cap other ids were observed, at every moment |
| HeartbeatHistory.CountersSay | internal/chatsession/heartbeat.go:131-141 | the counters of a snapshot are the numbers of those observations that were thinking and tool starts |
| HeartbeatHistory.VerdictExactly | internal/chatsession/heartbeat.go:142-166 | a stay has failed exactly if its first terminal observation is an errored result or an error end, and is done exactly if that is a clean result, a clean end or an end without a reason |
| HeartbeatHistory.StatusSays | internal/chatsession/heartbeat.go:190-196 | a snapshot is running exactly while the entry counts no terminal observation |
| HeartbeatHistory.VerdictSays | internal/chatsession/heartbeat.go:142-166 | of any history, the first terminal observation an entry counts decides the verdict of the snapshot |
| HeartbeatHistory.DateSays | internal/chatsession/heartbeat.go:124-131 | the last observation counted dates the snapshot; with none it reads as zero |
| HeartbeatHistory.ReportsExactly | internal/chatsession/heartbeat.go:131-196 | for which events, after any history, a change is reported |
| HeartbeatTrackers.HeartbeatTracker.constructor | internal/chatsession/heartbeat.go:76-84 | a capacity that is not positive becomes the default |
| HeartbeatTrackers.HeartbeatTracker.Observe | internal/chatsession/heartbeat.go:124-174 | the new state is the specified one for the extended history, and it reports a change exactly for thinking, a tool start and the first terminal observation among those the entry still counts |
| HeartbeatTrackers.HeartbeatTracker.FlipTerminal | internal/chatsession/heartbeat.go:190-196 | only a running entry takes a verdict |
| HeartbeatTrackers.HeartbeatTracker.Touch | internal/chatsession/heartbeat.go:220-236 | search, splice, push and eviction amount to move-to-front and cut |
| HeartbeatTrackers.HeartbeatTracker.Evict | internal/chatsession/heartbeat.go:231-235 | the eviction loop cuts the order to the capacity and deletes exactly the entries cut off |
| HeartbeatTrackers.HeartbeatTracker.Snapshot | internal/chatsession/heartbeat.go:202-209 | reads the fold of the id's current stay, the zero value when there is none |
| HeartbeatTrackers.HeartbeatTracker.Len | internal/chatsession/heartbeat.go:240-247 | as many ids as were seen, up to the capacity |
| DrainSession.TrimSpaceMeaning | internal/agent/run_session.go:236-248 | trimming removes the outer white space and nothing else |
| DrainSession.SessionText | internal/agent/run_session.go:290-301 | the reply is the non-blank pieces, trimmed, streamed first, joined by newlines |
| DrainSession.ReplyExists | internal/agent/run_session.go:242-252 | there is a reply exactly when some piece is more than white space |
| DrainSession.PrefixDecides | internal/agent/run_session.go:123-214 | the prefix up to the first terminator fixes the outcome |
| DrainSession.SuccessExactly | internal/agent/run_session.go:170-207 | success is exactly a result with a payload and no error, or an end whose reason is "settled", with a non-blank reply |
| DrainOutcome.TurnEnds | internal/agent/run_session.go:170-207 | of a whole turn, in the fields of its first terminator: it succeeds exactly with an error-free result or a settled end and a reply; a result with an error, one without a payload, an unsettled end, an error event and a missing reply each fail in their own way |
| DrainOutcome.TurnUnended | internal/agent/run_session.go:135-143 | without a terminator the turn fails as the stream or the context ended, with no reply |
| DrainOutcome.ReplyIs | internal/agent/run_session.go:243-256 | the reply is the exact text without its outer white space if that holds anything; otherwise it is the trimmed texts that hold anything, in order, with exactly one newline between neighbours |
| DrainOutcome.IdentityIs | internal/agent/run_session.go:144-160 | session and model are what the last event to name one said, events behind the first Ready not asked |
| DrainOutcome.AnswersAre | internal/agent/run_session.go:163-169 | every permission request with options is answered once, in order, by its first option or to allow it once |
| DrainOutcome.SpacesAre | internal/agent/run_session.go:246-248 | white space is exactly the 25 characters of the Unicode property |
| DrainSession.IdentityAlways | internal/agent/run_session.go:217-226 | win or lose the session identity is reported, and a failed turn reports nothing else |
| DrainSession.LastNonEmptyMeaning | internal/agent/run_session.go:144-155 | the identity reported stands in the stream with only empty ones behind it |
| DrainSession.AfterMeaning | internal/agent/run_session.go:144-169 | the loop's variables are the identity up to the first Ready, the texts and the answers of the events read |
| DrainSession.Note | internal/agent/run_session.go:144-169 | what one iteration takes from an event, permission answer included |
| DrainSession.EndTurn | internal/agent/run_session.go:170-207 | which outcome each terminator has, field by field, the malformed ones included, and what a success carries over from it |
| DrainSession.ReadTurn | internal/agent/run_session.go:135-214 | the loop hands the sink exactly the prefix, answers its permission requests and ends with the specified outcome |
| DrainSession.DrainSessionEvents | internal/agent/run_session.go:123-214 | a refused send is a failure that read nothing; otherwise as above |
| DrainSession.Drain | internal/agent/run_session.go:105-115 | without a session id in the stream the agent's own is reported, and nothing else of the outcome changes |
| PromptProtocol.OverrideAlwaysInjected | internal/agentsession/session.go:1341-1364 | at every point of every run a non-empty override means the injected prompt is current and carries it, so the anchor is always the current prompt's |
| PromptProtocol.AnchorsHold | internal/agentsession/readpump.go:163-204 | every published event is anchored to the message of the prompt it carries, then and ever after |
| PromptProtocol.TaskStepKeeps | internal/agentsession/session.go:1341-1510 | every section keeps that invariant and leaves every existing prompt as it is |
| PromptProtocol.EndPromptKeeps | internal/agentsession/readpump.go:269-303 | endPrompt's rewrite of LastMessageID never has an effect |
| PromptProtocol.EndWithoutPrompt | internal/agentsession/readpump.go:264-305 | a turn end with no prompt installed is published without an anchor |
| PromptProtocol.FailedTurnNeverReturns | internal/agentsession/session.go:1349-1366 | a prompt whose failed send was rolled back, submitted or injected, is never current again in any interleaving unless another task submits it again |
| PromptDisplaced.DisplacesExactly | internal/agentsession/session.go:1440-1487 | for every session: some run installs an injected prompt over a submitted one exactly if there are an injection with a message to reply to and a Submit |
| PromptDisplaced.DisplacedTurn | internal/agentsession/session.go:1440-1487 | in any run, the turn an injection displaces was committed after the guard looked, or before it with its own store of isReady still to come or already overwritten |
| PromptReady.ReadyMeansIdleWhenGentle | internal/agentsession/session.go:1239-1242 | in any run in which no step falls between another task's section and its store, no respawn comes with a prompt and no failed Submit finds a foreign one, isReady means "no prompt" whenever no such store is pending |
| PromptReady.ReadyMeansIdleExactly | internal/agentsession/session.go:1239-1242 | for every session: that holds in all runs exactly if a turn shares the session with no other turn, no turn end and no respawn |
| PromptReady.BusyWithoutPrompt | internal/agentsession/session.go:1341-1345 | from any two turns, or a turn and a turn end: a run that ends not ready with no prompt |
| PromptReady.ReadyWithPrompt | internal/agentsession/session.go:1176-1189 | from any turn and a respawn: a run that ends ready with the prompt in flight |
| PromptReady.LateStoreReadies | internal/agentsession/session.go:1359-1364 | from any Submit and another turn: the failed Submit's late store marks the session ready during the other turn |
| CloseRace.StepKeeps | internal/agentsession/session.go:1133-1162 | every section keeps the account of forked handles and the exited status |
| CloseRace.CloseWins | internal/agentsession/session.go:1610-1711 | once all restarts and closes returned the session is exited, and a forked handle is closed exactly unless another restart replaced it before the first close |
| CloseRace.SingleRestartLeavesNothing | internal/agentsession/session.go:1682-1711 | the handle of a restart racing closes is always closed in the end |
| CloseRace.ClosedStaysClosed | internal/agentsession/session.go:1686-1690 | a session the user closed keeps its handle and forks no new one, whatever races |
| CloseRace.RolledBackIsDetached | internal/agentsession/session.go:1133-1152 | a restart that lost to a close leaves the session exited and without a handle |
| CloseRace.RestartOutcome | internal/agentsession/session.go:1074-1137 | without a close a restart ends running with its bridge attached, or without a handle, exited if it was running before and otherwise as it was, or unchanged |
| CloseRace.TwoRestartsLeaveAHandle | internal/agentsession/session.go:1074-1162 | from every session not yet closed with two restarts and a close: a complete run in which the first restart's handle is never closed |
| CloseRace.AllClosedExactly | internal/agentsession/session.go:1074-1162 | with a close taking part, every forked handle is closed in every complete run exactly if the session was closed to begin with or there is at most one restart |
| CloseRace.NeverStuck | internal/agentsession/session.go:1610-1711 | a thread that has not returned can always move |
| RestartRace.AttachedExactly | internal/agentsession/session.go:1090-1103 | while nobody closes it, in every run a running session has a handle exactly if it has one at the start and the user had closed it, or at most one restart is under way, or two of a session that was running |
| RestartRace.RunningWithoutHandle | internal/agentsession/session.go:1071-1103 | from any other such session with its restarts: a run that ends running without a bridge |
| AgentSessions.AgentSession.CommitSubmit | internal/agentsession/session.go:1341-1344 | installs the prompt and clears the override, keeping the invariant |
| AgentSessions.AgentSession.RollBackSubmit | internal/agentsession/session.go:1359-1363 | a failed Submit withdraws its own prompt only |
| AgentSessions.AgentSession.InstallInjected | internal/agentsession/session.go:1483-1486 | prompt and override are installed together |
| AgentSessions.AgentSession.RollBackInjected | internal/agentsession/session.go:1498-1510 | a failed injection withdraws its prompt and its override |
| AgentSessions.AgentSession.Enrich | internal/agentsession/readpump.go:163-204 | an event gets the override, else the prompt's message, else nothing |
| AgentSessions.AgentSession.EndPrompt | internal/agentsession/readpump.go:269-303 | prompt and override are cleared together, and no prompt changes |
| AgentSessions.AgentSession.FailSpawn | internal/agentsession/session.go:1090-1103 | a failed fork drops the handle and demotes only a running session |
| AgentSessions.AgentSession.LandSpawn | internal/agentsession/session.go:1133-1152 | a landed fork is attached, or handed back for closing if a close came first |

## Left out

- Locks as such: each critical section is one atomic step, and no modelled section takes the other lock; the memory
  model below a mutex is not modelled.
- EventAggregators.EventAggregator.LeavePhase1: does not model the metadata (session id, model, agent name, workspace,
  branch) copied from a buffered Ready onto the outer one.
- EventAggregators.EventAggregator.MergeTasks: does not model the session metadata copied onto the snapshot.
- FanoutDelivery.ReplaySum: counts only; the order of the replay is `FanoutOrder.ReplayCarries`.
- FanoutResults.PassThroughDelivery: counts only; the order is `FanoutInOrder.PartsInOrder` and
  `FanoutReorder.InOrderExactly`.
- FanoutMerges.EveryTaskMergedOnce: a multiset; the order of a job's merges is `FanoutInOrder.PartsInOrder` and
  `FanoutReorder.InOrderExactly`, what is left in the table `FanoutStale.LatestExactly`.
- FanoutTasks.ForwardedSnapshots: which events were merged is `FanoutMerges.EveryTaskMergedOnce`; which snapshot is
  the last is `FanoutLagging.LastFullExactly`.
- The merging of the groups' results and the per-group observer; a fan-out without an outer sink, which has no
  aggregator.
- PromptProtocol.AnchorsHold: events are listed in the order their anchors were read; the event queue may publish them
  in another order, or drop one on shutdown.
- AgentSessions.AgentSession.RollBackInjected: prompts are entries of a map keyed by identity rather than shared
  objects.
- CloseRace.CloseWins: Spawn, which clears the closed-by-user mark, HandlePTYRestart and respawnFromDeadHandle are not
  among the racing threads; waiting for the read pump inside Close always ends in the model.
- CloseRace.AllClosedExactly: likewise over restarts and closes only, without Spawn and HandlePTYRestart.
- CloseRace.TwoRestartsLeaveAHandle: bridges do not die in the model. The source restarts on an exit event, so the
  handle that is never closed need not belong to a live bridge.
- Starting the read pump after a restart, the stall timer, the prober and Keepalive.
- Error texts: failures are told apart by kind and by the error they wrap.
- Token usage is carried along unread; Duration and subtype likewise.
- DrainSession.Note: a failed permission answer is only logged by the source, so sending one always succeeds here.
- DrainSession.ReadTurn: a stream that neither ends nor is cancelled keeps the loop waiting and is no finite input.
- HeartbeatTrackers.HeartbeatTracker.Observe: the clock is a parameter, so nothing is said about its monotonicity; a
  nil tracker is not modelled.
- Diff contents and titles are arbitrary byte sequences: running git, the rest of the prompt and its logging are not
  modelled.
- 64-bit overflow of counters and byte counts.
- Persistence callbacks, logging, bridges, channels, command handling and process management.

# Sub-agent coordination, conversation repair, stream framing, recall index and model migration

This project models the stateful core of an agent runtime and proves what its parts keep
over every input and every run.

* **Coordinator.** `Agents`, `Lifecycle` and `Coordinator` describe the coordinator as a
  state machine whose steps are its critical sections: scopes with permits and terminal
  outcomes, the agent store, and any number of calls in progress (`reserve_child` waiting
  for its permit, `finish_child` between its scope, store and group steps). `GroupProtocol`
  is the side serialised by `group_operations`: the task-group store with the owner index,
  the child index and the readiness pings. `CoordinatorRuns`, `DepthLimit`, `NodeTypes`,
  `LeafNodes` and `DeadSlots` state what holds over whole runs, for every interleaving.
  `AgentCoordinators.AgentCoordinator` is the class with the compound calls (finishing,
  cancelling, joining, collecting, finalizing, reserving) written as sequences of those same
  steps; what an awaited task does is left open. It keeps the `history` of all states it has
  gone through, which is a run of the state machine (`History`), and the order in which
  things happen during a call is stated over that history. `CancelTree`, `JoinTree`,
  `FailFast` and `CoordinatorSteps` hold what single steps and loops do. `JoinRuns` is the join with any
  other calls in between; `RaceRun` and `LeafRun` are runs that show what can go wrong.
* **Task groups.** `TaskGroups` holds the store's operations as functions with their
  invariant; `TaskGroupStores.TaskGroupStore` is the mutable store proved against them.
* **Agent store.** `AgentStore` (records and child index) and `AgentDirectory` (the
  recursive directory projection and the worklist of descendants).
* **Conversation repair.** `Repair` and `Demotion`: the two passes over a message history.
* **Streams.** `Stream` (framing, accumulation) and `StreamProcessors.StreamProcessor`.
* **Recall index.** `MemoryIndexes` (postings, table, scores) and `TfIdfIndexes.MemoryIndex`.
* **Model configuration.** `ProfileKeys` and `Migration`.

`dafny verify dfyconfig.toml` checks everything.

Facts about the code that the proofs brought out:

* `finalize_scope` writes `Finalizing` unconditionally. On a scope that has finished, the
  write hides the stored terminal and the finish that follows replaces it
  (`Lifecycle.FinalizeKeepsTerminalIff`, `Lifecycle.FinalizeReplacesTerminal`). The state
  machine therefore lets only unfinished scopes be finalized; the class covers the other
  call too, without promising the invariant afterwards.
* `await_child_terminal` returns what the child's own task reports even when another
  finisher has stored a different terminal before. Every possible answer is the stored
  terminal exactly if the child had finished or had no registered task
  (`JoinTree.AnswerIsStoredIff`). If no task is registered and no child is spawned
  meanwhile, a claimed delivery is the filtered joined list exactly if no member was
  unfinished with a task when the join began (`JoinTree.JoinAgreesIff`). With any other calls
  in between it is, exactly if every member was among the joined children and none could be
  awaited while unfinished with a task (`JoinRuns.ClaimAgreesOverRuns`).
  `RaceRun.DeliveryCanDiffer` is a run in which they differ.
* `cancel_descendants` neither descends through a finished scope nor through one that is
  already `Cancelling`; `CancelTree.AllFinishedIff` gives the exact condition under which
  the whole subtree ends up finished.
* The sweep drops empty groups without touching `owner_groups`. From then on creating a
  group for that owner and turn answers the identifier of a group that does not exist, and
  every registration into it is refused, until the session's generation is advanced or that
  generation is cancelled (`DeadSlots.SlotCanDie`, `DeadSlots.DeadAfterIff`,
  `DeadSlots.DeadForTheGeneration`). Only "stored group implies owner entry" is an invariant.
* A result forced for an agent that has not finished drops its node type, so a leaf then
  counts as general-purpose and may spawn (`LeafNodes.LiftedLeafSpawnsIff`);
  `LeafRun.LiftedLeafSpawns` is a run in which it gets a child. The one caller in the
  repository (src/tools/meta/task.rs:1033-1044) forces a result only after `finish_child`
  has finished the scope, so only another caller could bring this about.
* `add_entry` reweighs only the words of the new entry. However many entries were added
  since the table was last computed, the stale words are exactly those missing from the
  last one, and their weights are too low (`MemoryIndexes.StaleIff`).
* The comment on `ensure_root` says that an existing root is returned; the code generates a
  new identifier on every call, and the model follows the code.
* A repaired history need not be a fixed point of the repair: see
  `Demotion.RepairFixedPointIff` and `Demotion.LateResult`.
* Content in a chunk that also carries a finish reason is accumulated but reported by no
  content event (`Stream.RenderedContent`).
* `migrate_legacy` is documented as idempotent; `Migration.MigrateTwiceIff` gives the exact
  condition. What each tier and the planner resolve to is preserved under exact conditions on
  the file, by which key, its own or one the migration makes, comes first
  (`Migration.TierPreservedIff`, `Migration.PlannerPreservedIff`). A planner slot tagged
  light takes over the light tier from the small slot, because its key sorts first
  (`Migration.LightPlannerTakesOver`). A planner role that names no profile makes the planner
  slot unreachable, unless it happens to be a key the migration makes: with that of `main` or
  `small` the planner silently becomes that profile, with that of the slot itself the slot
  stays (`Migration.DanglingRole`). A profile that shares the name of `main` replaces it
  (`Migration.UndeclaredTierIff`).

## Model

| member | source | states |
|---|---|---|
| CoordinatorRuns.FirstTerminalWins | src/agent/coordinator.rs:871-893 | over every run, with any number of concurrent finishers, cancel marks and status transitions, a stored terminal never changes |
| CoordinatorRuns.StoreSettlesOnWinner | src/agent/coordinator.rs:894-976 | once no writer is on its way the store shows the status and summary of the terminal that won, and every finisher about to record carries that terminal |
| CoordinatorRuns.StepKeepsTerminal | src/agent/coordinator.rs:871-893 | no single critical section changes a finished scope |
| CoordinatorRuns.PermitsOverRuns | src/agent/coordinator.rs:600-718 | in every reachable state available permits, held permits and permits in flight add up to the maximum, and a scope holds a permit exactly while it is an unfinished non-root scope |
| CoordinatorRuns.RegistrationsOverRuns | src/agent/coordinator.rs:1312-1363 | in every reachable state each registration is in exactly one place: stored, dropped with its generation, or in exactly one delivery |
| CoordinatorRuns.LedgerGrows | src/agent/coordinator.rs:827-868 | no registration and no delivery is ever forgotten over a run |
| CoordinatorRuns.OutstandingOverRuns | src/agent/coordinator.rs:720-868 | in every reachable state the children mapped to an open group are exactly those without a result, every stored group has its owner entry, and its generation is current |
| CoordinatorRuns.ForestOverRuns | src/agent/coordinator.rs:645-685 | every reachable store is a forest with an exact child index and every agent has a scope |
| JoinTree.JoinAgreesIff | src/agent/coordinator.rs:1429-1486 | for every way a join can end during which no task is registered and no child is spawned, an open group's delivery equals the joined list filtered to its members, in the same order, if and only if when the join begins no member is both unfinished and backed by a registered task |
| JoinRuns.ClaimAgreesOverRuns | src/agent/coordinator.rs:1429-1486 | with any interleaving of other calls, registrations and spawns, the claim after a join delivers, for an open, unforced group, the joined list filtered to the members for everything the join can have observed, if and only if every member was joined and none could be awaited while unfinished with a registered task |
| JoinRuns.StoredAgreesIff | src/agent/coordinator.rs:1620-1645 | the same condition for the stored terminals of any set of members |
| JoinRuns.AnsweredIff | src/agent/coordinator.rs:1665-1720 | what a child awaited between two states of a run can be answered with is exactly what the race of a finisher and its task allows |
| JoinTree.AnswerIsStoredIff | src/agent/coordinator.rs:1665-1720 | every possible answer of an await is the stored terminal if and only if the child had finished or had no registered task |
| JoinTree.FilterMembers | src/agent/coordinator.rs:1620-1645 | filtering the joined list, in id order, to a group's members lists the members in the order of the delivery |
| RaceRun.DeliveryCanDiffer | src/agent/coordinator.rs:1665-1720 | for any two outcomes a parent can tell apart, a run from the start and a way to join in it after which the claimed delivery of an open group differs from the filtered joined list |
| CoordinatorRuns.ClaimedGroup | src/agent/task_group.rs:332-381 | a claimed group belongs to the claimant and is complete, and without forced results an open one holds each member's stored terminal, sanitized |
| CoordinatorRuns.DeliveriesOverRuns | src/agent/task_group.rs:363-381 | in every reachable state every delivery ever made holds one result for exactly the registered children of its group, strictly sorted by child id |
| NodeTypes.NodeTypesOverRuns | src/agent/coordinator.rs:927-943 | in every reachable state an agent keeps its node type only while it has not finished or some finisher has yet to record it |
| DepthLimit.DepthOverRuns | src/agent/coordinator.rs:645-658 | in every reachable state no agent is deeper than any bound respected by the configured limit and all contract limits |
| Coordinator.StepKeepsInv | src/agent/coordinator.rs:600-976 | every critical section keeps the invariant that ties scopes, store, permits, groups, indexes and the provenance of results together |
| Coordinator.ReachableInv | src/agent/coordinator.rs:600-976 | the invariant holds after any interleaving from the start |
| Coordinator.RecordingKeepsGroups | src/agent/coordinator.rs:927-976 | a recorded result is the sanitized stored terminal of its child, or was forced, or is a timeout |
| Coordinator.JoinKeepsCross | src/agent/coordinator.rs:827-868 | after a join, granted or refused, members are direct children of the group's owner and a child is mapped only once it has joined |
| Lifecycle.MoveKeepsInv | src/agent/coordinator.rs:600-718 | every scope-side section keeps hierarchy, agreement of scopes with store and finishers, and all permits |
| LeafNodes.LeafNeverSpawns | src/agent/coordinator.rs:605-645 | over every run an agent of a leaf node type never gets a child, before or after it finishes, unless a result is forced for it while it is unfinished |
| LeafNodes.NewLeafIsBarren | src/agent/coordinator.rs:668-718 | a freshly reserved agent of a leaf type has no child and nobody on the way to make one |
| LeafNodes.LiftedLeafSpawnsIff | src/agent/coordinator.rs:927-943 | after a forced result an unfinished leaf is admitted to spawn exactly as the general-purpose contract allows |
| LeafRun.LiftedLeafSpawns | src/agent/coordinator.rs:990-1006 | two states reached by runs: one in which an agent runs as a leaf without children, and one that differs in the store by a child of that agent, after a result was forced for it |
| DeadSlots.CreateAnswersStoredIff | src/agent/coordinator.rs:721-797 | creation always answers, and the answered group is stored if and only if the owner's slot does not point to a missing group |
| DeadSlots.DeadAfterIff | src/agent/coordinator.rs:1312-1418 | after an operation a slot points to a missing group exactly if it did before or the sweep has just dropped its overdue empty group, and the operation does not clear it |
| DeadSlots.DeadOverRuns | src/agent/coordinator.rs:1312-1418 | over every run such a slot keeps its missing group until its session's generation is advanced or its generation is cancelled |
| DeadSlots.DeadForTheGeneration | src/agent/coordinator.rs:721-868 | all that time creation answers the missing group, changing nothing, and every registration into it is refused |
| DeadSlots.SlotCanDie | src/agent/task_group.rs:254-256 | a run from the start that ends with such a slot and a creation answering a group that is not stored |
| Lifecycle.TerminalIsAbsorbing | src/agent/coordinator.rs:871-893 | no move changes or removes a stored terminal |
| Lifecycle.WinKeepsCoherent | src/agent/coordinator.rs:879-893 | the scope step of the winning finisher keeps scopes, permits, store and all other finishers in agreement |
| Lifecycle.StatusWriteKeepsCoherent | src/agent/coordinator.rs:899-902 | the status write leaves the store consistent with the terminal that won |
| Lifecycle.SummaryWriteKeepsCoherent | src/agent/coordinator.rs:904-920 | the summary write leaves the store consistent with the terminal that won |
| Lifecycle.InsertionKeepsCoherent | src/agent/coordinator.rs:668-718 | a reserved child enters store and scopes together, one level below its parent |
| Lifecycle.FinalizeKeepsTerminalIff | src/agent/coordinator.rs:1886-1900 | the unconditional write keeps scopes coherent if and only if the scope has not finished |
| Lifecycle.FinalizeReplacesTerminal | src/agent/coordinator.rs:1886-1908 | finalizing and finishing installs the new outcome over any stored one |
| Agents.SanitizeEqualIff | src/agent/coordinator.rs:1019-1041 | two sanitized results are equal exactly when child, kind, code and bounded texts are |
| CancelTree.AllFinishedIff | src/agent/coordinator.rs:1957-1969 | after a successful cancellation the whole subtree is finished if and only if finished scopes had only finished descendants and none below was being cancelled |
| CancelTree.LogIsUnfinished | src/agent/coordinator.rs:1741-1784 | in such a subtree the scopes that finish are exactly the unfinished ones |
| CancelTree.MarkChild | src/agent/coordinator.rs:1767-1774 | the recursion into one more live child cancels exactly the live paths below it and leaves its siblings alone |
| CancelTree.FinishKid | src/agent/coordinator.rs:1776-1781 | one more awaited child keeps the partial effect and stands after everything below it in the log |
| CancelTree.Complete | src/agent/coordinator.rs:1741-1784 | both loops together have logged exactly the live paths below a scope, bottom-up, and touched nothing else |
| CancelTree.FinishRoot | src/agent/coordinator.rs:1964-1968 | with the scope itself at its end the log is still bottom-up and holds exactly the scope and the live paths below it |
| History.StagedIsOrdered | src/agent/coordinator.rs:1776-1784 | if the scopes of a bottom-up log ended one after the other in its order, then in every state of the history a scope has ended only if all logged scopes below it have |
| History.TraceIsRun | src/agent/coordinator.rs:600-976 | every state a compound call goes through is reached by a run from the start, so everything proved over runs holds in it |
| CoordinatorSteps.CancelledInOrder | src/agent/coordinator.rs:1957-1969 | the scopes that `cancel_scope` finishes end descendants first in every state of the history |
| AgentCoordinators.AgentCoordinator.CancelScope | src/agent/coordinator.rs:1957-1969 | once everything below has been awaited, and also when the call then fails because the caller's group refuses its result, exactly the caller and the live paths below it have finished and released one permit each; in every state of the history one of them has finished only if all those below it have; everything else is untouched, and the subtree is finished exactly under the stated condition |
| AgentCoordinators.AgentCoordinator.CancelDescendants | src/agent/coordinator.rs:1741-1784 | terminates, and on success has cancelled exactly the live paths below the scope, one permit each, in the states of the history one after the other in the order of a bottom-up log |
| AgentCoordinators.AgentCoordinator.AwaitCancelledChild | src/agent/coordinator.rs:1790-1837 | an unfinished child ends with its task's terminal, or as cancelled without a task or on timeout, releasing one permit, and the call fails exactly if the group refuses that result; exactly a panicking task leaves it as it was and is an error; a finished child is left alone |
| AgentCoordinators.AgentCoordinator.FinishChild | src/agent/coordinator.rs:871-925 | whatever it returns, the child is finished with the first terminal reported, only the winner releases a permit, and the group receives the stored terminal |
| AgentCoordinators.AgentCoordinator.AwaitChildTerminal | src/agent/coordinator.rs:1665-1720 | answer and new scope are related by the race between another finisher and the child's task; nobody else changes |
| AgentCoordinators.AgentCoordinator.RegisterTask | src/agent/coordinator.rs:1527-1540 | a task is registered exactly for an agent with a scope |
| AgentCoordinators.AgentCoordinator.JoinChildren | src/agent/coordinator.rs:1620-1645 | on success every direct child was awaited and has finished, nobody else changed, permits rose by the number that finished meanwhile, and the result lists the answers in id order |
| AgentCoordinators.AgentCoordinator.CollectChildrenForSynthesis | src/agent/coordinator.rs:1429-1486 | when only finishers of the awaited child interfere: an active owner is Running afterwards whatever happens; on success its children are finished and the result is the joined list, or what was claimed in the state of the history that followed the join, which is the filtered joined list if no member could be raced |
| CoordinatorSteps.ClaimRefines | src/agent/coordinator.rs:1449-1475 | after a join, the claimed delivery of an open, unforced group is the joined list filtered to the members when none of them was unfinished with a task as the join began |
| CoordinatorSteps.ClaimDelivers | src/agent/task_group.rs:332-381 | an open, unforced group delivers the sanitized stored terminal of each member in id order |
| AgentCoordinators.AgentCoordinator.JoinChildrenFailFast | src/agent/coordinator.rs:1913-1950 | on success all direct children are finished and so is every live path below each child that comes after a failed one; nothing outside their subtrees changed |
| FailFast.Next | src/agent/coordinator.rs:1922-1947 | one more child handled keeps that, although siblings may have been cancelled meanwhile |
| AgentCoordinators.AgentCoordinator.FinalizeScope | src/agent/coordinator.rs:1845-1909 | on success a spawned owner has finished with the requested outcome after its children were observed, and its group has accepted the result or had none to record; an unfinished owner releases its permit and in no state of the history has it finished while a direct child had not; a finished owner's terminal is replaced and no permit is released |
| AgentCoordinators.AgentCoordinator.TransitionIfCurrent | src/agent/coordinator.rs:1270-1288 | a missing scope is an error; otherwise the answer says whether the status was the expected one, and exactly then it is replaced |
| AgentCoordinators.AgentCoordinator.ReserveChild | src/agent/coordinator.rs:600-718 | a refusal leaves scopes, records and permits as they were; a reservation takes one permit for one new running scope |
| AgentCoordinators.AgentCoordinator.ReserveChildInGroup | src/agent/coordinator.rs:827-868 | when it fails after reserving, permits and indexes are restored and the only trace is a cancelled scope without permit; when it succeeds the child waits in exactly that group |
| CoordinatorSteps.LiveChildrenComplete | src/agent/coordinator.rs:1554-1588 | the live direct children are listed exactly, each once |
| GroupProtocol.StepKeepsInv | src/agent/coordinator.rs:720-1426 | every group-side operation keeps both indexes and the conservation of registrations |
| GroupProtocol.ExactlyOneFate | src/agent/task_group.rs:224-416 | a registration is stored, dropped or delivered, never two of these, delivered once and with one result |
| GroupProtocol.RecordOutcome | src/agent/coordinator.rs:927-976 | for a mapped child the group accepts the result exactly when it is stored and open, a second result cannot occur, and a ping is sent exactly when the group turns ready |
| GroupProtocol.CreateIsFresh | src/agent/coordinator.rs:721-797 | without an owner entry there is no such group, so creation makes a new one |
| GroupProtocol.RegisterJoins | src/agent/coordinator.rs:834-867 | an accepted child joins an open group of its parent that did not list it |
| GroupProtocol.ExpireKeepsIndex | src/agent/coordinator.rs:1312-1337 | the sweep keeps both indexes although it does not touch them |
| GroupProtocol.HandOutReady | src/agent/task_group.rs:363-381 | a claim moves a complete group from the store to the deliveries |
| GroupProtocol.GenerationKeepsLedger | src/agent/coordinator.rs:1345-1418 | advancing or cancelling a generation drops its groups with their mappings and nothing else |
| GroupProtocol.GenerationCleans | src/agent/coordinator.rs:1399-1418 | no owner entry of a removed generation and no child mapped to a removed group is left |
| TaskGroups.RunsKeepInv | src/agent/task_group.rs:94-506 | over any sequence of store operations results belong to children, every group is current, expired groups are complete, and there is one group per slot |
| TaskGroups.ReadyMeansComplete | src/agent/task_group.rs:359-361 | the cardinality test means that there are children and each has a result |
| TaskGroups.OpenOutcomes | src/agent/task_group.rs:483-506 | a stale generation is never reported by adding or recording |
| TaskGroups.DeliveryIsComplete | src/agent/task_group.rs:363-381 | a delivery holds one result per child, strictly sorted by child id |
| TaskGroups.SweepDelivers | src/agent/task_group.rs:224-259 | after a sweep every surviving due group is ready, only childless groups disappear, no result is overwritten and new ones are timeouts |
| TaskGroups.DrainInOrder | src/agent/task_group.rs:296-329 | repeated claims yield every ready group once, in increasing id order |
| TaskGroups.DrainContents | src/agent/task_group.rs:296-329 | each of them is delivered whole |
| TaskGroups.TotalUpdate | src/agent/task_group.rs:224-259 | replacing one group changes the total number of results by the difference |
| TaskGroupStores.SweepLoop | src/agent/task_group.rs:224-253 | the expiry loop over all groups |
| TaskGroupStores.TaskGroupStore.CreateGroup | src/agent/task_group.rs:94-154 | creation or reuse of the one group of a slot |
| TaskGroupStores.TaskGroupStore.AddChild | src/agent/task_group.rs:156-178 | registration with all its refusals |
| TaskGroupStores.TaskGroupStore.RecordResult | src/agent/task_group.rs:180-208 | recording with all its refusals |
| TaskGroupStores.TaskGroupStore.ExpireDueGroups | src/agent/task_group.rs:224-259 | the sweep, and the count it returns is the growth of recorded results |
| TaskGroupStores.TaskGroupStore.ClaimReady | src/agent/task_group.rs:262-329 | the least ready group of the current generation is handed out and removed |
| TaskGroupStores.TaskGroupStore.ClaimSpecific | src/agent/task_group.rs:332-357 | the named group is handed out exactly if it matches and is ready |
| TaskGroupStores.TaskGroupStore.AdvanceGeneration | src/agent/task_group.rs:395-407 | afterwards the session has no group left |
| TaskGroupStores.TaskGroupStore.CancelGeneration | src/agent/task_group.rs:409-416 | removes that generation's groups and returns how many there were |
| AgentStore.InsertKeepsForest | src/agent/store.rs:176-190 | inserting below an existing parent keeps parents, depths and the child index exact |
| AgentStore.DirectChildrenComplete | src/agent/store.rs:357-382 | the direct children are exactly the agents with that parent, once, in order |
| AgentDirectory.Descendants | src/agent/store.rs:385-412 | the worklist terminates without a visited set and returns every proper descendant once |
| AgentDirectory.EntryUnder | src/agent/store.rs:457-508 | on any child index the recursion terminates and emits each newly visited agent exactly once |
| AgentDirectory.Directory | src/agent/store.rs:336-354 | each id at most once and only with a record; on a forest exactly the root and its descendants down to the depth cap |
| AgentDirectory.InMemoryAgentStore.Insert | src/agent/store.rs:176-190 | a taken key is refused and changes nothing; a record placed below an existing parent keeps the forest and is listed under that parent and nowhere else; all other records stay |
| AgentDirectory.InMemoryAgentStore.UpdateStatus | src/agent/store.rs:415-430 | refused exactly for unknown agents; otherwise sets that status and keeps the forest, every agent's place, all direct-children lists and all other records |
| AgentDirectory.InMemoryAgentStore.SetSummary | src/agent/store.rs:432-447 | refused exactly for unknown agents; otherwise sets that summary and keeps the forest, every agent's place, all direct-children lists and all other records |
| Repair.SanitizeToolCallPairing | src/api/types.rs:141-187 | every call is answered before the next assistant message and the input is kept with only synthetic results added |
| Repair.SanitizedTwice | src/api/types.rs:141-187 | sanitizing is idempotent |
| Repair.SanitizedIdentityIff | src/api/types.rs:141-187 | it is the identity exactly on histories whose calls are all answered in their window |
| Repair.SanitizedInserts | src/api/types.rs:141-187 | the input is a subsequence of the output and everything else is synthetic |
| Repair.AnsweredInWindow | src/api/types.rs:156-166 | an answered call has its result before any other assistant message |
| Demotion.DemoteOrphanToolResults | src/api/types.rs:204-247 | the loop computes the demoted history, message by message |
| Demotion.DemoteKeepsIff | src/api/types.rs:204-247 | a tool message is kept exactly when its call was made earlier and has had no result since; all other messages are kept |
| Demotion.DemotedTwice | src/api/types.rs:204-247 | demoting is idempotent |
| Demotion.SanitizedFixedIff | src/api/types.rs:141-247 | a sanitized history has no orphans exactly when results only follow their own call's message, once each, and no repeated call is unanswered |
| Demotion.RepairFixedPointIff | src/agent/runtime/loop_.rs:335-348 | the repaired history is a fixed point of both passes exactly under two conditions on the demoted history |
| Demotion.LateResult | src/agent/runtime/loop_.rs:335-348 | a result after another assistant message survives one repair and is demoted by the next |
| Demotion.RepairHistory | src/agent/runtime/loop_.rs:335-348 | after both passes every tool message carries the id of a call in some message before it and every call is answered in its window |
| Demotion.IssuedMeans | src/api/types.rs:204-247 | what the recursive form of that says of each position: the id is known beforehand or called in an earlier message |
| Stream.ChunkingInvariance | src/agent/core.rs:46-68 | however a stream is cut into chunks, events, state and buffer are those of one feed |
| Stream.FramingLossless | src/agent/core.rs:52-68 | lines and rest together are the bytes, and no line holds a newline |
| Stream.FramingConcat | src/agent/core.rs:46-68 | framed lines stay framed, only the rest meets the next bytes |
| Stream.AccumulationLossless | src/agent/core.rs:87-141 | content and reasoning are the in-order concatenation of all deltas, finishing chunks included, and calls are built from all fragments |
| Stream.RenderedContent | src/agent/core.rs:135-146 | the content events render exactly the content of chunks without a finish reason |
| Stream.PerIndex | src/agent/core.rs:104-133 | each call is built from the fragments of its own index alone |
| Stream.ArgumentsInOrder | src/agent/core.rs:124-130 | its arguments are the concatenation of its fragments' arguments |
| Stream.InterleavingIndependent | src/agent/core.rs:104-133 | the interleaving of fragments of different calls does not matter |
| Stream.SameProjectionsSameResult | src/agent/core.rs:184-215 | two streams with equal texts and equal per-call fragments give equal results |
| Stream.WholeStream | src/agent/core.rs:46-181 | a whole stream in any chunks and a final newline leave an empty buffer and the accumulation of all its lines |
| StreamProcessors.StreamProcessor.FeedBytes | src/agent/core.rs:46-49 | frames and processes the bytes, and the buffer holds no newline |
| StreamProcessors.StreamProcessor.DrainBuffer | src/agent/core.rs:52-68 | processes all complete lines in order |
| StreamProcessors.StreamProcessor.ProcessLine | src/agent/core.rs:71-162 | accumulates one line and reports its event |
| StreamProcessors.StreamProcessor.AccumulateCalls | src/agent/core.rs:104-133 | adds all fragments of a delta |
| StreamProcessors.StreamProcessor.Flush | src/agent/core.rs:165-181 | has the effect of feeding one newline, whatever is buffered |
| StreamProcessors.StreamProcessor.FinishStream | src/agent/core.rs:184-215 | reports identified calls in index order |
| MemoryIndexes.ListsIsScan | src/context/index.rs:48-58 | a posting list is, as a set, the naive scan of all documents, and its length is the document frequency |
| MemoryIndexes.PostKeepsIndex | src/context/index.rs:108-113 | posting a document keeps every list exact |
| MemoryIndexes.RemoveKeepsIndex | src/context/index.rs:132-137 | dropping a document's postings leaves an exact index without it |
| MemoryIndexes.TableFromPostings | src/context/index.rs:60-67 | a table computed from the lists is the one computed from the documents |
| MemoryIndexes.AddKeepsTableIff | src/context/index.rs:100-121 | an addition keeps the table equal to a rebuild's exactly when every indexed word occurs in the new entry |
| MemoryIndexes.AddKeepsSince | src/context/index.rs:100-121 | through any additions each word keeps the weight of its last weighing: its true frequency under the total of that time |
| MemoryIndexes.StaleIff | src/context/index.rs:60-121 | after any additions to a computed table a word is weighed too low exactly if something was added and the last entry lacks it, and otherwise as a rebuild would |
| MemoryIndexes.TableCurrentIff | src/context/index.rs:60-121 | the whole table is a rebuild's exactly if nothing was added since it was computed or the last entry has every indexed word |
| MemoryIndexes.NextScores | src/context/index.rs:82-90 | accumulating one more query term gives the naive scores |
| MemoryIndexes.TopIsAll | src/context/index.rs:92-96 | with room for all matches the ranking lists exactly the matching documents |
| TfIdfIndexes.CountTokens | src/context/index.rs:49-52 | the term frequencies of one document |
| TfIdfIndexes.MemoryIndex.Rebuild | src/context/index.rs:38-68 | lists and table are those of the given entries, and the table counts as computed over all of them |
| TfIdfIndexes.MemoryIndex.AddEntry | src/context/index.rs:100-121 | for any index the entry's words are posted and reweighed and nothing else; with the next index the lists stay the naive counts and every word has the weight of its last weighing |
| TfIdfIndexes.MemoryIndex.ReplaceEntry | src/context/index.rs:131-160 | for any index its postings are exchanged and the table is recomputed; for an indexed document lists and table are those of a rebuild over the documents with it exchanged |
| TfIdfIndexes.MemoryIndex.Search | src/context/index.rs:73-97 | the best matches by naive score, descending, nothing left out that scores higher |
| TfIdfIndexes.RankAll | src/context/index.rs:92-96 | a descending ranking of exactly the scored documents |
| ProfileKeys.UniqueProfileKey | src/config/models.rs:617-625 | finds the first free key within one more try than there are profiles |
| ProfileKeys.TakenBound | src/config/models.rs:617-625 | no more candidates can be taken than there are keys |
| Migration.MigrateTwiceIff | src/config/models.rs:538-613 | a second migration changes nothing exactly when the first had legacy fields or profiles, or had nothing to move and sees no legacy fields |
| Migration.MigrationSyncsIff | src/config/models.rs:538-576 | the active key names a profile and `main` equals it exactly when there were legacy fields or profiles |
| Migration.MigrationKeepsProfiles | src/config/models.rs:538-613 | every existing profile is still there, unchanged |
| Migration.MigrationPreservesResolution | src/config/models.rs:538-613 | for a clean legacy file every tier resolves as before up to the light tag, and the planner exactly |
| Migration.UndeclaredTierIff | src/config/models.rs:455-485 | an undeclared medium or heavy tier resolves as before exactly when `main` agrees with the profile its key or name points to |
| Migration.PlannerPreservedIff | src/config/mod.rs:240-261 | the planner resolves as before if and only if a condition on the file holds, by whether its role is unset, valid or dangling, by keys the migration makes, by name clashes and by what the slot inherits |
| Migration.DanglingRole | src/config/mod.rs:240-261 | with a role that names no profile the slot was the fallback; afterwards the planner is the profile made for `main`, `small` or the slot itself when the role is that key, and otherwise it is lost |
| Migration.TierPreservedIff | src/config/models.rs:455-485 | every tier resolves as before, up to its tag, if and only if a condition on the file holds, by whether no key declares it, the first is one of the file's own, or one the migration makes for `small`, `main` or the planner slot |
| Migration.DeclaringAll | src/config/models.rs:538-613 | the keys that declare a tier after the migration are the file's own and exactly those it makes for that tier |
| Migration.LightPlannerTakesOver | src/config/models.rs:578-613 | a planner slot tagged light takes over the light tier from the small slot |
| Migration.TierKeyAgrees | src/config/models.rs:455-522 | the tier's profile key and the tier's endpoint name the same profile |
| Migration.OverlayInherits | src/config/models.rs:138-155 | a complete slot inherits nothing, an empty one everything but name, display name and tier |
| Migration.ModelsConfig.MigrateLegacy | src/config/models.rs:538-613 | the in-place migration computes the specified configuration |

## Left out

- Interleavings inside the compound calls: in the class `AgentCoordinator` only finishers of the awaited child run between two steps of a call; every other interleaving is covered by the state machine and its theorems over runs.
- AgentCoordinators.AgentCoordinator.ReserveChild: a call without a free permit is reported as still waiting, because real time and the fairness of the semaphore are not modelled.
- AgentCoordinators.AgentCoordinator.CollectChildrenForSynthesis: covers calls in which only finishers of the awaited child interfere; the join with any interference is `JoinRuns`.
- AgentCoordinators.AgentCoordinator.FinalizeScope: for a finished caller the invariant is not promised afterwards, because its new terminal need not be the one its group holds.
- Reserving: the checks before the permit are one admission step, and the `Pending` insert followed by `Running` is one step; the parent is not checked again after the wait, as in the code.
- Liveness, timeouts as durations, cancellation tokens and task abortion: an await may end in any way its `select!` allows, or not at all.
- Results recorded through `force_record_child_result` are tracked, but no claim is made about where they come from.
- `recover_non_terminal_scopes`: it sets a terminal status without a stored terminal, so the coherence of scopes does not hold for it.
- `begin_finalizing`, `cancel_root_children` and `cancel_subtree`: compare-and-set or authorization in front of the modelled calls.
- Result handles, transcripts, viewer capabilities, local views and authorization of targets: single-branch checks, randomness and hashing.
- Overflow of the 64-bit generation counter; a group's identifier is its key in the map, and generated identifiers are new.
- Repair.SanitizeToolCallPairing: a role is one of assistant, tool or any other name, and the history is returned instead of written back.
- Stream.PerIndex: tool-call indices are not negative; the code casts a negative index to a huge one and would pad the list up to it.
- Decoding of a line (UTF-8, trimming, JSON, error payloads) is a parameter; only that blank lines decode to nothing is fixed.
- TfIdfIndexes.MemoryIndex.Search: scores are exact reals, so rounding and the order of ties are not modelled; tokenizer, term scaling and logarithm are parameters.
- `ensure_small_profile_tier`, settings files, environment fallbacks of endpoints, logging and the watcher.
- File locks, consolidation heuristics, entry decay, HTTP, providers, command line, terminal, web and voice front ends.

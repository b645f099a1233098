# Verification of the dispatcher

A Dafny 4.11 model of the parts of the dispatcher whose correctness depends on many steps at once, with
machine-checked proofs. `dafny verify dfyconfig.toml` checks everything.

The model has three groups.

**Cluster operations.** A row of the cluster-operation journal is an immutable `Record` in one of 16
statuses (`ClusterLifecycle`). Writers go through a generation check. `ClusterOperationRunner` drives the
row through dry-runs, Helm upgrades, readiness probes and port-forward/TLS pairs, with write-ahead intents
and compensating rollback (`ClusterRunner`); `ClusterOperationCoordinator` takes a row from review to its
end and meets it again after a crash (`ClusterCoordinator`). Everything outside (commands, child processes,
probes, the clock, the store, other writers) is `ClusterWorld.World`: every answer is read from a script
that nothing constrains, so each contract holds for every behaviour of the environment. A journal write can
be accepted, refused, or become durable without the caller learning of it. `ClusterSystem` puts any number
of such executions on one row, crashes and restarts included.

**Plans, scheduling, completion, worktrees.** The dependency graph of a plan and its write locks
(`PlanGraph`), writable path scopes (`WritableScopes`), batch admission (`Scheduler`), the autonomous scope
and its rebuild (`AutonomousScope`), review policy and completion guard (`Completion`), historical
baselines (`Baseline`), and the worktree barrier over an abstract commit DAG (`Worktrees`).

**Small exact algorithms.** Semantic version precedence (`Semver`), the incremental JSONL splitter and
decoder (`EventStream`), and the NUL-separated Git status parser (`GitStatus`).

How the cluster contracts are built: a `Trace` lists one execution's journal writes, commands, spawns, waits,
probes and close attempts in order, each with the answer that was observed. `Disciplined(trace)` says what
every prefix of it obeys, so it survives a crash at any point; it also ties what is written to what was
observed (`MayWrite`: evidence directly behind its command, a started identity directly behind the spawn that
gave it, probe evidence directly behind the probe of a ready child, STOPPED only behind a confirmed close).
`Finished` is the contract of a whole execution: exactly the commands and the adapter answers of its `Account`
were issued and observed, only the releases of the started upgrades were touched, a returned status is durable
and true, and the end is the one that the answers demand: `Exact` (`ClusterVerdict`) says how far an execution
goes, when it rolls back and with which status it ends, as a function of the answers alone. `World.faults`
counts the journal accesses that did not succeed; only behind such a fault an end may differ from `Exact`, and
then it is an exception, or reconciliation in the forward phase (`Troubled`). In a quiet journal (`Steady`: no
other writer, accepted writes, unexpired approval) no access fails at all, so no status write is refused,
unless more commands report a result than the row can hold evidence of (`QuietEnd`, `QuietlyExact`).
`Executions` puts any number of such executions, each in its own world and each possibly cut short by a crash,
over one journal; `ExecutionsAreARun` orders their events into one run of the system, from which the
at-most-once results follow.

## What the proofs show about the code

- At most once, over all executions of a row: each upgrade, readiness probe and rollback command, and each
  spawn, and never before its MUTATION_STARTED or intent write is durable. Dry-runs may be issued again by a
  second `execute` of an APPROVED row; through the coordinator they are not, because only one execution can
  attach the snapshot (`OneCoordinatedExecution`).
- Rollback is itself an execution state, so an approval that expires while upgrades run also shuts rollback
  out (`RollbackNeedsActiveApproval`): behind a failing upgrade or readiness probe the row stays where it is and
  the runner raises (`Rollback`); in the forward phase the exception is caught and becomes reconciliation
  (`PortForwardFailure`).
- A row that still has a forward in CLEANUP_AMBIGUOUS, or a bare intent in reconciliation, can never be
  closed as SUCCEEDED, FAILED or ROLLED_BACK (`AmbiguityIsATrap`). A row in RECONCILIATION_REQUIRED can be
  closed as FAILED exactly when every forward is STARTED or STOPPED (`ReconciliationCloses`).
- Command evidence is capped at 200 entries while a manifest may plan more (20 actions with 50 probes).
  `NeverSucceeds` gives a valid manifest of five actions, approved in full and launched, no execution of which
  ends in SUCCEEDED. Exactly: in a quiet journal, and when every answer is good, an execution ends in SUCCEEDED
  if and only if the evidence of the whole plan fits beside what the row already holds (`SucceedsIffItFits`).
- A crash between the evidence of a dry-run and SERVER_DRY_RUN_PASSED is final: no later execution of the
  APPROVED row gets past its dry-runs, because the evidence of the repeated one is refused. In a quiet journal
  with room for the evidence, and when all dry-runs succeed, the upgrades are reached if and only if the row
  holds the evidence of none of them (`RunPlan`).
- A child that was spawned while its started write was not acknowledged is never closed by the runner; the
  row goes to reconciliation if the writes for that succeed, and otherwise the runner raises (`StartChild`).
- The coordinator's safe failure does not always settle the row. It hands over the approved record, which is
  stale once the runner has written anything and then raised, so the write is refused and the refusal is
  swallowed. For a first run in a quiet journal the row is left unsettled if and only if the runner started and
  either a dry-run other than the first reported no usable result, or, before the forwards, more commands
  reported a result than the row can hold evidence of (`ExecuteAfterReview`, `Stranded`); otherwise it ends in
  SUCCEEDED, FAILED, ROLLED_BACK or RECONCILIATION_REQUIRED. `UnsettledRun` is such a run: the second of two
  dry-runs reports nothing. The next call settles the row without issuing anything.
- Behind the ordinal check of a plan the cycle check never fires (`AcceptedPlans`), though on an arbitrary
  step map it is exact (`HasCycle`).
- `validate_batch` does not look at dependencies (`AdmissionIgnoresDependencies`); `validate_workspace_batch`
  does (`WorkspaceStepsAreReady`).
- `integrate` can fail after the source branch has moved: the read of the new head comes behind the
  promotion, and a fast-forward that is cut off may have taken effect (`WorktreeManager.Integrate`,
  `FailedAfterPromotion`). Then the head already reaches the base and every owned branch.
- A failed `provision` restores the repository exactly when the worktree that could not be added left
  nothing behind, since that one is not among those rolled back, and every removal took place
  (`WorktreeManager.Provision`).
- A repeated `cleanup` can still succeed when a partial removal took worktrees but kept the child branches,
  and never once a child branch is gone; `CleanupWorks` is the exact condition (`WorktreeManager.Cleanup`,
  `RetriedCleanup`).
- The Git output is read as text, so a carriage return in a path becomes a newline before the parser sees it:
  the status parser is exact for all other paths and for no such path (`GitStatus.PrintParses`).
- The version comparison is an order only because the parser bans leading zeros
  (`LeadingZerosBreakTheOrder`).

## Model

| member | source | states |
|---|---|---|
| ClusterManifest.TrailingPairs | src/dispatcher/cluster_operations.py:286-334 | in a manifest that passes validation, everything from the first forward on is alternating forwards and their own probes |
| ClusterManifest.KeptMembers | src/dispatcher/cluster_operation_runner.py:437-456 | the filtered list is exactly the approved positions of the manifest, in manifest order |
| ClusterManifest.ApprovedActions | src/dispatcher/cluster_operation_runner.py:437-456 | accepts exactly when digests agree, no forward or probe is dropped and something is left; the result is the approved sublist |
| ClusterManifest.PortForwardPairs | src/dispatcher/cluster_operation_runner.py:458-476 | fails exactly when some forward is not directly followed by its linked probe; otherwise lists all pairs in order |
| ClusterManifest.ApprovedShape | src/dispatcher/cluster_operation_runner.py:255-282 | a valid manifest and an accepted approval give dry-runs, then upgrades, then alternating pairs; pairing never fails and uses every forward and probe once |
| ClusterHistory.WriteEffect | src/dispatcher/state_store.py:661-726 | any accepted write yields a valid record, bumps the generation by one, keeps the identity and moves the status along the table |
| ClusterHistory.HistoryRank | src/dispatcher/cluster_operation_lifecycle.py:69-154 | over any history the statuses never fall back below a phase once passed, and every version is valid |
| ClusterHistory.HistoryBasics | src/dispatcher/state_store.py:661-726 | version i carries generation i + 1 and the immutable fields of the first |
| ClusterHistory.MutationOpensOnce | src/dispatcher/cluster_operation_lifecycle.py:69-154 | a row enters MUTATION_STARTED at most once, from SERVER_DRY_RUN_PASSED |
| ClusterHistory.SnapshotAttachesOnce | src/dispatcher/cluster_operation_lifecycle.py:708-732 | a row gets its snapshot at most once |
| ClusterHistory.WriteForward | src/dispatcher/cluster_operation_lifecycle.py:936-1027 | one write changes a forward by at most one step of its ownership, and a new forward starts as a bare intent |
| ClusterHistory.IntentOnce | src/dispatcher/cluster_operation_lifecycle.py:936-956 | each forward is declared at most once in the life of a row |
| ClusterHistory.EarlyRecordsHoldNoForward | src/dispatcher/cluster_operation_lifecycle.py:936-956 | no version before the forward phase holds a forward or probe evidence |
| ClusterHistory.AmbiguityIsATrap | src/dispatcher/cluster_operation_lifecycle.py:591-596 | after cleanup ambiguity, or a bare intent in reconciliation, no sequence of operations reaches SUCCEEDED, FAILED or ROLLED_BACK |
| ClusterHistory.ReconciliationCloses | src/dispatcher/cluster_operation_lifecycle.py:990-1008 | a row in reconciliation can reach FAILED if and only if every forward is STARTED or STOPPED |
| ClusterHistory.StopAccepted | src/dispatcher/cluster_operation_lifecycle.py:990-1008 | a STARTED forward can always be marked stopped, with exactly this effect |
| ClusterHistory.HistoryBound | src/dispatcher/cluster_operation_lifecycle.py:708-773 | in every version the approval expires no later than the snapshot, and the snapshot no later than the maximum age |
| ClusterHistory.EnteredFresh | src/dispatcher/cluster_operation_lifecycle.py:690-705 | every execution state entered by a transition is entered less than the maximum snapshot age after capture |
| ClusterHistory.RollbackNeedsActiveApproval | src/dispatcher/cluster_operation_lifecycle.py:690-705 | where the table allows ROLLBACK_STARTED it is accepted if and only if the approval is still active |
| ClusterHistory.ExpiredApproval | src/dispatcher/cluster_operation_lifecycle.py:690-705 | a row, built by six accepted writes, whose approval expired behind MUTATION_STARTED: rollback is refused, reconciliation is accepted |
| ClusterHistory.ApprovedSublist | src/dispatcher/cluster_operation_lifecycle.py:1104-1154 | the allowed actions of a valid record are static actions at strictly increasing positions |
| CommandNames.NamesAreDistinct | src/dispatcher/cluster_operation_runner.py:338-350 | the textual command identities of different commands differ |
| ClusterTrace.DisciplinedPrefix | src/dispatcher/cluster_operation_runner.py:231-361 | discipline survives a crash at any point |
| ClusterTrace.CommandOnce | src/dispatcher/cluster_operation_runner.py:284-352 | a disciplined execution repeats no command |
| ClusterTrace.GuardedCommand | src/dispatcher/cluster_operation_runner.py:312-330 | a command that is not a dry-run has this execution's own acknowledged MUTATION_STARTED write before it |
| ClusterTrace.ProbeEvidenceIsTrue | src/dispatcher/cluster_operation_runner.py:505-608 | behind every probe evidence stand the intent, the spawn of exactly the child whose identity was written, its readiness, and the probe that gave this answer |
| ClusterTrace.ClosureIsTrue | src/dispatcher/cluster_operation_runner.py:642-679 | a forward is marked STOPPED only behind a confirmed close of a child this execution started, CLEANUP_AMBIGUOUS only behind an unconfirmed one |
| ClusterWorld.World.Load | src/dispatcher/state_store.py:429-446 | a loaded record is the newest version, after any writes by others |
| ClusterWorld.World.Update | src/dispatcher/state_store.py:661-726 | a write is stored only on top of the newest version; refusal leaves no trace; an unacknowledged write is durable and makes later writes of the old generation fail; the writes of one execution are in generation order |
| ClusterCommands.FreshUndo | src/dispatcher/cluster_operation_runner.py:842-850 | rollback commands repeat none of the planned commands and none of each other |
| ClusterCommands.ProbePrefix | src/dispatcher/cluster_operation_runner.py:334-352 | probing action by action enumerates exactly the planned probes, in order |
| ClusterPlan.PlanFacts | src/dispatcher/cluster_operation_runner.py:429-476 | validation, approval filter and rollback check make a plan with distinct positions and targets, a rollback entry for each upgrade, and pairs that fit one row |
| ClusterPlan.RestartUnrecorded | src/dispatcher/cluster_operation_runner.py:284-299 | the dry-run evidence of a row that restarts at SERVER_DRY_RUN_PASSED collides with no command and no rollback still planned |
| ClusterPlan.CompensationRestores | src/dispatcher/cluster_operation_runner.py:832-864 | if every started upgrade is restored to its snapshot and nothing else was touched, the cluster equals its state before |
| ClusterRunner.ClusterOperationRunner.Transition | src/dispatcher/cluster_operation_runner.py:866-878 | moves only the status; in a quiet journal an allowed transition succeeds |
| ClusterRunner.ClusterOperationRunner.RunFixedCommand | src/dispatcher/cluster_operation_runner.py:786-830 | issues exactly one command; what the environment answered is what is journaled; does not complete exactly when there is no usable result; in a quiet journal evidence that is not recorded already is stored unless the row is full |
| ClusterRunner.ClusterOperationRunner.UndoAll | src/dispatcher/cluster_operation_runner.py:841-857 | undoes the started upgrades in reverse order, each to its own snapshot entry; a failing one does not stop the rest |
| ClusterRunner.ClusterOperationRunner.Rollback | src/dispatcher/cluster_operation_runner.py:832-864 | ROLLED_BACK if and only if all rollbacks returned 0, otherwise RECONCILIATION_REQUIRED; then every started release is restored, no other is touched, and the row holds the evidence of exactly the rollbacks that reported; without an active approval nothing is undone and it raises |
| ClusterRunner.ClusterOperationRunner.Reconcile | src/dispatcher/cluster_operation_runner.py:695-707 | a returned result is a durable RECONCILIATION_REQUIRED |
| ClusterRunner.ClusterOperationRunner.CleanupPortForward | src/dispatcher/cluster_operation_runner.py:642-679 | exactly one close attempt with the durable identity; without a failing journal access the forward is marked STOPPED if and only if the adapter confirmed the close, and CLEANUP_AMBIGUOUS otherwise |
| ClusterRunner.ClusterOperationRunner.PortForwardFailure | src/dispatcher/cluster_operation_runner.py:681-693 | without a failing journal access: FAILED when nothing was started, else every started upgrade is rolled back, ROLLED_BACK if and only if all succeeded; a failing access, an expired approval among them, leaves at most reconciliation |
| ClusterRunner.ClusterOperationRunner.Declare | src/dispatcher/cluster_operation_runner.py:492-516 | the durable intent of exactly this forward, while all others are stopped |
| ClusterRunner.ClusterOperationRunner.StartChild | src/dispatcher/cluster_operation_runner.py:488-544 | intent, spawn and identity in this order; without a failing journal access it goes on if and only if the child is the one asked for, and then the durable identity is that of the spawned child; otherwise it stops in reconciliation or raises |
| ClusterRunner.ClusterOperationRunner.NoteProbe | src/dispatcher/cluster_operation_runner.py:566-623 | the durable probe result is what the probe answered, ambiguous when it raised |
| ClusterRunner.ClusterOperationRunner.ServePair | src/dispatcher/cluster_operation_runner.py:488-638 | goes on exactly when the child fits, was ready, gave an accepted probe answer and was confirmed closed, and all that is durable; otherwise, without a failing journal access, ends as the observations demand: rollback or FAILED for a definite failure, reconciliation for a doubtful one |
| ClusterRunner.ClusterOperationRunner.RunPortForwardPairs | src/dispatcher/cluster_operation_runner.py:478-640 | SUCCEEDED only with every pair observed as served, in order; otherwise every pair before the last tried one was served, and the end is the one that pair demands; every returned result has tried to close every child whose started write was acknowledged |
| ClusterRunner.ClusterOperationRunner.Prepare | src/dispatcher/cluster_operation_runner.py:255-282 | launches exactly when all checks hold, with exactly the approved plan |
| ClusterRunner.ClusterOperationRunner.LaunchPlan | src/dispatcher/cluster_operation_runner.py:255-282 | a launch that passes has a plan the execution can rely on |
| ClusterRunner.ClusterOperationRunner.RunDryRuns | src/dispatcher/cluster_operation_runner.py:284-299 | the dry-runs in order, each answered by every third request; proceeds only when all answers were successes; otherwise the last answer was not one, or a journal access failed; without a failing access a definite failure ends in FAILED and a missing result in a raise |
| ClusterRunner.ClusterOperationRunner.UpgradeNext | src/dispatcher/cluster_operation_runner.py:315-330 | without a failing journal access: a failing upgrade rolls back all started ones including itself, one without a usable result ends in reconciliation with nothing undone, and it proceeds exactly on success |
| ClusterRunner.ClusterOperationRunner.RunMutations | src/dispatcher/cluster_operation_runner.py:312-330 | proceeds only when all upgrades succeeded; otherwise every command before the last succeeded and, without a failing journal access, the end is the exact one |
| ClusterRunner.ClusterOperationRunner.RunProbes | src/dispatcher/cluster_operation_runner.py:334-352 | proceeds only when all readiness probes succeeded; without a failing journal access a failed one rolls back every upgrade and one without a usable result ends in reconciliation |
| ClusterRunner.ClusterOperationRunner.RunPlan | src/dispatcher/cluster_operation_runner.py:284-361 | every execution of a plan, in every environment, ends as `Finished` says, exactly as the answers demand when no journal access fails; in a quiet journal whose evidence collides with nothing planned none fails before the row is full; with room and succeeding dry-runs an APPROVED row reaches its upgrades if and only if it holds the evidence of no dry-run |
| ClusterRunner.ClusterOperationRunner.Recover | src/dispatcher/cluster_operation_runner.py:236-253 | a row that is not launched gets its recovery disposition; nothing is issued, spawned or closed |
| ClusterRunner.ClusterOperationRunner.ExecuteLoaded | src/dispatcher/cluster_operation_runner.py:231-361 | the whole of an execution: launched if and only if the row and the environment allow it, then as `Finished` says, otherwise recovery or a refusal without effect; in a quiet journal no access fails before the row is full |
| ClusterRunner.ClusterOperationRunner.Execute | src/dispatcher/cluster_operation_runner.py:197-213 | the same for the row as it is stored, which in a quiet journal is always found |
| ClusterRunner.ClusterOperationRunner.ExecuteRecord | src/dispatcher/cluster_operation_runner.py:215-229 | the same after reloading a caller's record; a row of another identity is refused without effect, one of the same identity is not |
| ClusterRunner.ClusterOperationRunner.SucceededIsComplete | src/dispatcher/cluster_operation_runner.py:353-361 | SUCCEEDED: every planned command was issued and reported success and is recorded exactly once, every pair was observed as served, and the durable identity and probe result of each pair are the observed ones; the evidence stays within 200 entries, so a longer plan never succeeds |
| ClusterRunner.ClusterOperationRunner.QuietlyExact | src/dispatcher/cluster_operation_runner.py:231-361 | in a quiet journal the end of an execution is the one its answers demand, and no journal access failed, unless more commands reported a result than fit the row |
| ClusterRunner.ClusterOperationRunner.SucceedsIffItFits | src/dispatcher/cluster_operation_runner.py:284-361 | in a quiet journal, with only good answers, SUCCEEDED is returned if and only if the evidence of the whole plan fits the row |
| ClusterRunner.ClusterOperationRunner.RaisesExactly | src/dispatcher/cluster_operation_runner.py:284-352 | in a quiet journal the runner raises exactly when a dry-run reports nothing or, before the forwards, more results come than fit the row |
| ClusterRunner.ClusterOperationRunner.RolledBackIsRestored | src/dispatcher/cluster_operation_runner.py:832-864 | ROLLED_BACK: the rollbacks are the reverse of the started upgrades, all succeeded, and the cluster equals its state before |
| ClusterRunner.ClusterOperationRunner.FailedIsUntouched | src/dispatcher/cluster_operation_runner.py:296-298 | FAILED: only dry-runs were issued and no release changed |
| ClusterRunner.ClusterOperationRunner.EndIsForwardFree | src/dispatcher/cluster_operation_lifecycle.py:591-596 | in every durable SUCCEEDED, FAILED or ROLLED_BACK all forwards are STOPPED |
| ClusterRunner.ClusterOperationRunner.ReturnedIsDurable | src/dispatcher/cluster_operation_runner.py:231-361 | every returned record is a durable version, and a returned SUCCEEDED is a durable SUCCEEDED |
| ClusterVerdict.SucceedsExactly | src/dispatcher/cluster_operation_runner.py:284-361 | an exact end is SUCCEEDED if and only if there is something to upgrade or to serve, everything was issued, every command succeeded and every pair was served |
| ClusterVerdict.CompensatesExactly | src/dispatcher/cluster_operation_runner.py:312-352 | an exact end rolls back every started upgrade if and only if an upgrade, a readiness probe or a pair definitely failed, and is then ROLLED_BACK if and only if all rollbacks succeeded; FAILED if and only if such a failure came before any upgrade; a raise if and only if a dry-run reported nothing |
| ClusterSystem.Reachable | src/dispatcher/state_store.py:661-726 | in every state of any interleaving of executions and other writers: one valid history, disciplined traces, no version written twice |
| ClusterSystem.ExecutionsAreARun | src/dispatcher/state_store.py:661-726 | what executions over one journal did together, each version having one author, is a run of the system: their events can be ordered so that each is a step |
| ClusterSystem.AnyExecution | src/dispatcher/cluster_operation_runner.py:231-361 | whatever an execution did up to its end or a crash counts as one of these executions |
| ClusterSystem.ExecutionsReachable | src/dispatcher/cluster_operation_runner.py:231-361 | executions of the runner or the coordinator, each in a world of its own, crashed at any point, end together in a reachable state of the system |
| ClusterSystem.CommandAtMostOnce | src/dispatcher/cluster_operation_runner.py:312-352 | over all executions of a row, crashed or not, every upgrade, readiness probe and rollback is issued at most once |
| ClusterSystem.MutationNeedsDurableBoundary | src/dispatcher/cluster_operation_runner.py:312-314 | such a command needs a durable MUTATION_STARTED by the same execution, and only one execution ever issues any |
| ClusterSystem.SpawnAtMostOnce | src/dispatcher/cluster_operation_runner.py:505-529 | over all executions every forward is spawned at most once, directly behind its durable intent |
| ClusterSystem.AtMostOneOpenForward | src/dispatcher/cluster_operation_runner.py:488-640 | where only executions declare forwards, at most one forward of any stored version is not STOPPED |
| ClusterSystem.OneCoordinatedExecution | src/dispatcher/execution.py:689-760 | of all coordinated executions only one issues or spawns anything, so dry-runs are issued once too |
| ClusterCoordinator.ClusterOperationCoordinator.FailSafely | src/dispatcher/execution.py:805-843 | at most one write; for the newest record of a quiet journal the row is marked for reconciliation exactly when it had reached the mutation boundary or the forwards, fails if it had not, and stays if it was settled; a record that is no longer the newest changes nothing |
| ClusterCoordinator.ClusterOperationCoordinator.ExecuteAfterReview | src/dispatcher/execution.py:624-784 | acceptance means a durable SUCCEEDED; nothing is issued before this execution's own snapshot; another operation's row is refused, and a row met again after a crash is settled without issuing anything; for a first run in a quiet journal, the row is settled if and only if the runner did not raise behind its own first accepted write, in terms of the answers (`Stranded`), and accepted if and only if it is SUCCEEDED |
| ClusterCoordinator.SucceededStays | src/dispatcher/cluster_operation_lifecycle.py:69-154 | SUCCEEDED is for good |
| ClusterSamples.NeverSucceeds | src/dispatcher/cluster_operation_lifecycle.py:529-531 | a valid manifest of five actions, approved and launched, with 205 commands: no execution of it ends in SUCCEEDED |
| ClusterSamples.UnsettledRun | src/dispatcher/execution.py:756-784 | a first run in a quiet journal whose second dry-run reports nothing: not accepted, and left unsettled by the safe failure |
| PlanGraph.CycleCheck.Visit | src/dispatcher/plan.py:415-424 | terminates, reports a cycle only if there is one, and otherwise leaves a topological order of the visited steps |
| PlanGraph.HasCycle | src/dispatcher/plan.py:411-427 | on every step map: terminates, and reports a cycle if and only if the dependency relation has one |
| PlanGraph.AncestorSteps | src/dispatcher/plan.py:588-593 | exactly the transitive closure |
| PlanGraph.LocksOrdered | src/dispatcher/plan.py:429-445 | passes if and only if the writers of every resource form a chain under ancestry |
| PlanGraph.ValidateGraph | src/dispatcher/plan.py:349-391 | accepts exactly the well-shaped plans whose writers form chains |
| PlanGraph.AcceptedPlans | src/dispatcher/plan.py:349-391 | a well-shaped plan has no cycle; the chain condition means that every later writer depends on every earlier one |
| WritableScopes.PrintParses | src/dispatcher/plan.py:596-611 | parsing the printed form of a canonical scope gives it back |
| WritableScopes.ParsePrints | src/dispatcher/plan.py:596-611 | a text that parses is canonical and the only text of its scope |
| WritableScopes.OverlapIsExact | src/dispatcher/scheduler.py:231-246 | the overlap test fails if and only if no repository path is allowed by both scopes |
| WritableScopes.ValidWritablePaths | src/dispatcher/plan.py:95-107 | accepted exactly when every text parses and no path belongs to two scopes |
| Scheduler.ValidateBatch | src/dispatcher/scheduler.py:65-123 | admits, in plan order, exactly the batches whose every child is free of conflicts and within capacity |
| Scheduler.SortedIsOrdered | src/dispatcher/scheduler.py:85-85 | the admitted children are a permutation of the given ones, sorted by ordinal |
| Scheduler.EveryScheduleIsBounded | src/dispatcher/scheduler.py:65-123 | over any interleaving of admitted batches and transitions: disjoint keys, role capacities and the total limit hold |
| Scheduler.OnePerRepository | src/dispatcher/scheduler.py:65-123 | over any such interleaving a repository never has two active dispatches |
| Scheduler.NeverActiveAgain | src/dispatcher/workflow.py:136-173 | an inactive dispatch never becomes active again |
| Scheduler.AdmissionIgnoresDependencies | src/dispatcher/scheduler.py:65-123 | admission by `validate_batch` does not depend on dependencies |
| Scheduler.ValidateWorkspaceBatch | src/dispatcher/scheduler.py:126-206 | admits exactly the fitting batches of one committing repository |
| Scheduler.NoPathTwice | src/dispatcher/scheduler.py:194-202 | in an admitted workspace batch no path is authorized to two children |
| Scheduler.WorkspaceStepsAreReady | src/dispatcher/scheduler.py:175-183 | no admitted workspace step has an open dependency or producer |
| AutonomousScope.AutonomousExecutionScope | src/dispatcher/operation.py:288-303 | the scope from the first pending or ready step on; empty exactly when there is none or that step has to wait |
| AutonomousScope.ContiguousScope | src/dispatcher/operation.py:304-344 | the longest run of steps from the start in which each may follow the ones before it |
| AutonomousScope.ScopeIsUnique | src/dispatcher/operation.py:304-344 | the scope is determined by the records and the start |
| AutonomousScope.ScopeIsClosed | src/dispatcher/operation.py:331-341 | every dependency and producer of a scoped step is settled or earlier in the scope |
| AutonomousScope.RebuiltScope | src/dispatcher/operation.py:568-586 | after any change that keeps settled steps settled and gates resolved, and leaves the scoped steps in the retained states, the rebuilt scope extends the approved one, and equals it if and only if the step behind it still stops |
| AutonomousScope.TransitionsAreProgress | src/dispatcher/workflow.py:106-134 | any number of transitions of the step table is such a change |
| AutonomousScope.FirstRemaining | src/dispatcher/operation.py:592-606 | the first unsettled step, resumable exactly in the retained states; finished exactly when all are settled |
| AutonomousScope.ResumedStepIsUnblocked | src/dispatcher/operation.py:568-606 | the first unfinished step of a rebuilt scope has only settled dependencies and producers |
| Completion.CompileDuty | src/dispatcher/policy.py:40-81 | compiles exactly when reviewers suffice, to the step's duty widened by the profile |
| Completion.DutyCoversPlan | src/dispatcher/policy.py:49-62 | a compiled duty never asks for less than the plan, nor, where the profile applies, than the profile, and names no reviewer twice |
| Completion.CompletionObligations | src/dispatcher/workflow.py:703-783 | the obligations of every step, dispatch and request, in order |
| Baseline.ApproveBaseline | src/dispatcher/baseline.py:160-205 | approves exactly when the decisions cover the plan, the policy compiles and every ACCEPTED decision is supported |
| Baseline.HydrateRun | src/dispatcher/baseline.py:232-275 | every step of the new run gets exactly the record its decision and observation give |
| Baseline.BaselineObligations | src/dispatcher/workflow.py:703-783 | a run hydrated from an approved baseline owes exactly one acceptance per PENDING decision and one per settled step with an unsettled dependency, with or without the policy |
| Baseline.CompletesIffNothingPending | src/dispatcher/workflow.py:569-591 | such a run can go to SUCCEEDED if and only if it is RUNNING and no decision is PENDING |
| Baseline.CreateRun | src/dispatcher/baseline.py:278-296 | every approved baseline gives a run, hydrated from its decisions, that owes exactly these obligations |
| Worktrees.AncestorTransitive | src/dispatcher/workspaces.py:342-356 | ancestry in the commit DAG is transitive |
| Worktrees.WorktreeManager.Provision | src/dispatcher/workspaces.py:86-117 | success adds exactly the group's branches and worktrees; a failure leaves branches and paths as they were if and only if the failing add left nothing behind and every removal took place; nothing but the group's names is ever touched |
| Worktrees.WorktreeManager.RollbackCreated | src/dispatcher/workspaces.py:276-291 | the created children are all gone if and only if every removal took place; nothing else is touched |
| Worktrees.WorktreeManager.Integrate | src/dispatcher/workspaces.py:145-176 | the source branch is promoted if and only if nothing stands in the way, the commands in front of the promotion work and the fast-forward takes effect; then the base and every owned branch are ancestors of the source head, otherwise the head is as before; it succeeds if and only if, besides, the fast-forward and the read of the new head report success |
| Worktrees.FailedAfterPromotion | src/dispatcher/workspaces.py:170-175 | an integration that fails although the source branch has moved |
| Worktrees.WorktreeManager.IntegratedIsReady | src/dispatcher/workspaces.py:235-250 | after an integration with clean worktrees in place, the condition of a cleanup holds, forced or not |
| Worktrees.WorktreeManager.ValidateNonForce | src/dispatcher/workspaces.py:235-250 | when Git answers, passes exactly when worktrees are clean on their own branches and branches are merged |
| Worktrees.WorktreeManager.Cleanup | src/dispatcher/workspaces.py:184-233 | touches only the group's own names and succeeds only if every child branch still existed; when Git answers, succeeds if and only if `CleanupWorks`, and then exactly the group's names are gone |
| Worktrees.CleanupWorksMeans | src/dispatcher/workspaces.py:184-250 | without force `CleanupWorks` says: worktrees that are there are clean and on their own branches, branches that are there are merged, and only the integration branch may be missing |
| Worktrees.RetriedCleanup | src/dispatcher/workspaces.py:193-206 | a cleanup repeated after a child's worktree went succeeds if and only if the branch was kept |
| Semver.CompareAgrees | src/dispatcher/cluster_preflight.py:671-694 | on parsed versions the comparison agrees with section 11 of Semantic Versioning 2.0.0 |
| Semver.CompareIsAntisymmetric | src/dispatcher/cluster_preflight.py:671-694 | antisymmetric, and 0 if and only if core and prerelease are equal |
| Semver.CompareIsTransitive | src/dispatcher/cluster_preflight.py:671-694 | transitive |
| Semver.ParserGivesParsed | src/dispatcher/cluster_preflight.py:654-668 | every version the parser accepts is in the form on which the comparison is an order |
| Semver.PrintParses | src/dispatcher/cluster_preflight.py:654-668 | parsing the printed form of such a version gives it back |
| Semver.LeadingZerosBreakTheOrder | src/dispatcher/cluster_preflight.py:27-32 | without the ban on leading zeros two versions would each be below the other |
| EventStream.RunStream | src/dispatcher/sessions.py:790-848 | if every line fits, the result depends on the stream alone, not on how it is cut into chunks |
| EventStream.OpenCodeJsonlDecoder.ConsumeLine | src/dispatcher/sessions.py:202-242 | one line changes the decoder exactly as `Consume` says |
| EventStream.CleanStream | src/dispatcher/sessions.py:280-328 | without failure, usage and cost are the sums over the step_finish events, identities are distinct and there is one session |
| EventStream.AnyStream | src/dispatcher/sessions.py:202-328 | on any stream they are these sums over the lines in front of the first failing one, plus the tokens of the failing line when only the conversion of its cost failed |
| GitStatus.GitChanges | src/dispatcher/repository.py:568-618 | the parse of the NUL-separated fields of the output as it is received, newlines translated and stripped |
| GitStatus.PrintParses | src/dispatcher/repository.py:568-618 | parsing any printed list of entries gives back the same changes in order, with the ignored paths apart, if and only if no path holds a carriage return |
| Text.SplitMore | src/dispatcher/sessions.py:999-1001 | splitting a longer text keeps the complete parts and splits only the last one again |

## Left out

- Argument lists of `kubectl` and `helm`, output bounding, hashing, JSON canonicalisation and redaction: digests are opaque tokens compared by equality.
- Creating a journal row and its first transition to STATIC_VALIDATED when none exists; the model starts from an existing row.
- Capturing the snapshot and deriving the approval from its envelope: both are answers of the environment, checked when they are attached.
- The file-system, configuration and timeout checks of a launch: one answer of the environment, asked before the comparison with the journal.
- What a command does to the cluster beyond its own release; a successful rollback is assumed to restore the snapshot.
- A record's time zones, text patterns and sizes other than the counts the proofs need; times are whole numbers.
- ClusterSystem.AtMostOneOpenForward: assumes that forwards are declared only by executions, as they are in the repository; the other system results do not.
- Source paths that stop resolving while an execution runs: `_source_path` may raise before a command is issued.
- Process identities beyond pid, creation time and argument digest.
- The plan's source list and field formats; Unicode normalisation and control characters beyond U+009F in writable paths.
- Scheduler.ValidateWorkspaceBatch: of the errors of a refused batch only those of the first failing stage are listed; a role without a capacity counts as refused instead of escaping as a lookup error.
- The review and evidence files of a baseline: the observation is given; provenance revalidation is not modelled.
- Completion.CompletionObligations: steps are listed in plan order, which is the order of the records of every new run.
- The file system around the worktrees: creating parent directories, removing the group directory, and a linked worktree whose directory vanished. The inspection of the source repository counts as one command.
- What a merge brings together: a conflict is one way in which the merge command fails.
- Lease, batch and workspace-group persistence, the sequential workflow, and the audit trail.
- Semver.PrintParses: speaks about texts without build metadata and without the optional leading v, which are parsed but not kept.
- `finish` of the decoder, which only reports what the decoder holds.
- EventStream.CleanStream: cost is a real number, where the source adds floats.
- EventStream.AnyStream: the same.
- JSON parsing of event lines, the retained event metadata, timeouts and the stderr stream.
- Copy entries of `git status`, which the parser refuses, the mode-change query, whose result is a parameter, and output that is no valid text encoding, which raises before the parser starts.
- AutonomousScope.ContiguousScope: the start is a position; a start identity that names no step raises in the source.

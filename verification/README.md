# JML lifecycle engine: a Dafny model and its proofs

The engine moves people through joining, moving and leaving: it claims an event in a
table, resolves rules to access packages, asks an Entra tenant for additions and removals,
polls, confirms, verifies, and writes the outcome back. This project models that engine
and proves what its runs guarantee.

The tenant is an arbitrary function of everything that happened so far (`Tenant.Oracle`):
before each call it may change holdings or accounts, then it answers. A run is the log of
calls, answers, waits and changes it produces, so a statement about every oracle is a
statement about every tenant, prompt or late, denying or failing. Statements about what the
user really holds assume a *grounded* log (`Tenant.Grounded`): holdings change only because
this log's requests asked for it, accepted requests have ids of their own, "delivered" is
only said of requests that took effect, and an assignment is only shown delivered while
held. `Tenant.GroundedExchange` is such a log with a delivery and a withdrawal in it.

Statements about whole runs speak of a *trace* (`MoverRun.IsRun`, `LeaverRun.IsRun`): how
the run was prepared, what it did, how it ended. Every run has one (`TraceOf`).

Every loop and driver of the source is an imperative method tied by its contract to a
function of the oracle, the log and the rows; the guarantees are lemmas about those
functions. The modules:

- `Tenant`, `Phases`, `PackagePhases`, `PollLoops`, `PhaseProperties`, `PhaseReports`,
  `Drivers`: submit, poll, finalize over mutable records, both ways of driving them, and
  their reports against what the tenant answered.
- `Resolver`, `Planning`, `Verifier`: rules to packages, delta, retention, pre-flight,
  post-move verification.
- `EventStore`, `ConflictQueue`, `StoreRuns`, `JoinerStages`: the event table, its queue,
  and all sequences of calls on them.
- `MoverRun`, `MoverReports`, `MoverTheorems`, `MoverSafety`, `MoverResults`,
  `MoverHistories`: whole Mover runs and any number of them.
- `LeaverRun`, `LeaverReports`, `LeaverTheorems`, `Accounts`, `DeferredDeletion`: whole Leaver
  runs, and which account the user name leads to in which state.
- `Lifecycle`, `HoldQueue`, `Retry`: action derivation, the hold queue, the retry decorator.

`dafny verify dfyconfig.toml` checks the whole project.

## Where the code and its documentation disagree

The model follows the code. Each point below is modelled; most name the lemma that states it.

- The Mover activities are documented as behaving identically to the synchronous pipeline
  (Mover/durable/activities.py:17). They do unless the move removes first and has
  attributes to patch (`MoverTheorems.DriversAgreeIff`).
- The JmlEvents lock is documented as released on every exit path
  (mover_http/__init__.py:36). A run whose last event is a lookup that was not answered
  raises and leaves the row locked and Processing, and no other prepared run does
  (`MoverResults.RaisesIff`, `MoverResults.RowTellsTheResult`), whatever the poll window
  (`MoverResults.FailedLookupStrandsTheRun`); the same holds of the Leaver
  (`LeaverTheorems.RowTellsTheVerdict`, `LeaverTheorems.FailedLookupStrandsTheRun`).
- The Joiner's claim stage is documented as proceeding with a reclaimed stale event
  (Joiner/stages.py:134-137). It refuses it as a duplicate, and then for good
  (`JoinerStages.ProceedsIff`, `JoinerStages.CrashedRunIsStranded`).
- A queued event is documented as auto-released when its predecessor completes. Its row
  becomes Pending, which no claim accepts (`JoinerStages.ReleasedIsNotClaimable`); a move
  parked as concurrent, new or retried, is stranded in the same way
  (`MoverResults.ParkedMoveIsStranded`).
- The deferred delete is documented as sparing a re-created account. It reads by user name
  and deletes by id, in two calls. That protects exactly when the tenant's changes between
  the two leave the account off, or leave it alone and the re-check read that very account
  (`DeferredDeletion.RecheckProtectsIff`); either can fail
  (`DeferredDeletion.EnabledAccountsAreDeleted`). Its status also replaces the one the
  verification found (`DeferredDeletion.DeferralForgetsTheVerdict`).
- Last state is documented as saved on success only; the orchestrators save for every
  result that is not an early exit, and after the run, not with the notice. The grammar is
  therefore proved for every choice of which runs save and when, with the exact condition
  (`Lifecycle.ActionsFollowTheGrammarIff`); overlapping runs can break it
  (`Lifecycle.OverlappingRunsBreakTheGrammar`).
- Approval is documented as always flagged. The flag is set exactly by an approve that
  meets a Held record (`HoldQueue.OverriddenIff`): a bare transition goes unflagged
  (`HoldQueue.ApprovalCanGoUnflagged`) or under the flag of an earlier approval
  (`HoldQueue.StaleFlagCoversABareApproval`). FAILED is listed as terminal and has an
  edge back to Held, so a record can be provisioned any number of times
  (`HoldQueue.BoundIsMet`).
- Throttling is documented as respecting Retry-After. The header is lost when a client
  method re-raises (`Retry.RetryAfterSurvivesIff`). Matching the text is documented as the
  last resort for the status code; an error wrapped without a code never gets there
  (`Retry.TextDecidesIff`).
- The poll pass is documented as reading a capitalized `requestState`; it reads `state`,
  as `PackagePhases.PollPackagesOnce` does.

## Model

| member | source | states |
|---|---|---|
| Phases.SubmitRemovalsWrites | Mover/provisioning_phases.py:337-390 | Submitting removals writes exactly one adminRemove per package, in order, under the policy of the current assignment, and nothing else, whatever the tenant answers. |
| Phases.SubmitAdditionsWrites | Mover/provisioning_phases.py:150-214 | Submitting additions writes only adminAdd requests for packages of the set, each under its non-empty policy. |
| PackagePhases.SubmitOneAddition | Mover/provisioning_phases.py:163-212 | One addition: no policy fails without a call, an existing delivered assignment skips, otherwise one request; a failed check or request is recorded on the record. |
| PackagePhases.SubmitAdditions | Mover/provisioning_phases.py:150-214 | The loop over mutable records leaves the tenant's log and the records exactly as the specification of the phase says, one record per package in order. |
| PackagePhases.SubmitRemovals | Mover/provisioning_phases.py:337-390 | The same for removals: no pre-check, one request per package. |
| PackagePhases.PollPackagesOnce | Mover/provisioning_phases.py:111-137 | One pass asks once about each open record and updates it in place; closed records are neither asked about nor touched. |
| PackagePhases.PackagesAllTerminal | Mover/provisioning_phases.py:140-145 | True exactly when no submitted record is in a non-terminal state. |
| PackagePhases.FinalizeAdditions | Mover/provisioning_phases.py:217-332 | Actions, delivered set and gate of the addition phase; it raises exactly when a fallback lookup does, and the delivered set and the gate are those of the actions. |
| PackagePhases.FinalizeRemovals | Mover/provisioning_phases.py:393-469 | Removal actions in order, with the fallback lookup for whatever is not delivered; raises exactly when that lookup does. |
| PackagePhases.PollUntilTerminal | mover_http/__init__.py:183-194 | The sleeping loop: at most the window's passes, stopping as soon as nothing is open, with one wait between passes. |
| PollLoops.DictRoundTrip | Mover/provisioning_phases.py:79-106 | A list of records handed over as JSON dictionaries is read back unchanged. |
| PollLoops.PollLoopsAgree | Mover/durable/orchestrator.py:39-49 | For every tenant, window and list, the timer loop over JSON lists asks the same status queries in the same order, waits as often and ends with the same records as the sleeping loop. |
| PhaseProperties.PollKeeps | Mover/provisioning_phases.py:111-137 | Over any number of passes a record that is terminal, skipped or unsubmitted never changes, and no pass changes a record's package, policy, kind or request id. |
| PhaseProperties.FinalizeRecords | Mover/provisioning_phases.py:237-332 | A finished finalize phase has exactly one action per record, for that record's package and kind. |
| PhaseProperties.FinalizeRaisesIff | Mover/provisioning_phases.py:237-469 | A finalize phase raises exactly when the lookup it falls back to for one of its records, the ones before it being settled, is not answered; then that lookup is the last event of the log. |
| PhaseProperties.AllSucceededIffAllDelivered | Mover/provisioning_phases.py:217-332 | The gate is exact: all succeeded if and only if the delivered set is the set that was asked for. |
| PhaseProperties.SuccessIsBacked | Mover/provisioning_phases.py:393-469 | Every success a phase reports is shown by the log: its own accepted request reported delivered, or the fallback lookup. |
| PhaseProperties.OperationIsExact | Mover/provisioning_phases.py:111-332 | A whole submit, poll, finalize operation: one action per package in order, exact gate, delivered set within what was asked, every success confirmed in the log; for every tenant and window. |
| PhaseProperties.OperationWrites | mover_http/__init__.py:470-476 | Polling and finalizing only read: an operation's writes are those of its submissions. |
| PhaseReports.OperationReports | Mover/provisioning_phases.py:111-469 | The report is true both ways: one action per package in order, a success if and only if what was heard since the operation began confirms it, for every tenant that gives each request its own id and every window. |
| PhaseReports.ObligedOperation | Mover/provisioning_phases.py:274-282 | What a tenant does is not lost: if it accepts and delivers whatever it is asked, each package is requested once, in order, and every action succeeds. |
| PhaseReports.AdditionsAskRightly | Mover/provisioning_phases.py:163-212 | A package without a policy is left alone; every other is looked up, and requested under its policy exactly if the lookup was answered and did not show it delivered. |
| PhaseReports.SubmissionIs | Mover/provisioning_phases.py:163-212 | What an addition leaves in its record, each field by what the policy map, the lookup and the request said. |
| PhaseReports.RemovalSubmissionIs | Mover/provisioning_phases.py:337-390 | The same for a removal: requested at once, under the policy on record or none. |
| PhaseReports.QueryUpdates | Mover/provisioning_phases.py:111-137 | A status query records the state it was told and the one before, unless it was told nothing new, a blank or an error. |
| PhaseReports.PollIsPatient | mover_http/__init__.py:183-194 | A record still open at the end was asked about, and waited for, in every round of the window, and no more is waited. |
| PhaseReports.FourAnswersEndPolling | Mover/provisioning_phases.py:140-145 | Delivered, denied, canceled and failed end polling at the first pass; under any other constant answer it goes on for the whole window. |
| PhaseReports.BareDictIsFresh | Mover/provisioning_phases.py:79-106 | A dictionary with the mandatory keys alone is an unsubmitted record; without one of them it is malformed. |
| Tenant.ConfirmedAddIsHeld | Mover/provisioning_phases.py:150-332 | What the engine takes as confirmation of an addition is real: on a tenant whose deliveries are real the package is held from then on, as long as nothing asks to remove it. |
| Tenant.StaysHeld | Mover/provisioning_phases.py:337-390 | A held package that no request asks to remove stays held. |
| Resolver.ResolveEntitlements | Mapping/mapping_resolver.py:137-259 | The two loops with their seen-set compute the order-preserving union of what the matching rules grant, first rule per package/policy pair winning. |
| Resolver.ResolveConcat | Mapping/mapping_resolver.py:162-242 | Resolving two rule lists one after the other is the deduplication of the two results one after the other. |
| Resolver.DedupIsFirsts | Mapping/mapping_resolver.py:224-242 | A grant is kept if and only if it is the first with its package/policy pair. |
| Resolver.PackagesAreThoseGranted | Mapping/mapping_resolver.py:98-242 | The resolved packages are exactly those of the rules that match and name a package and a policy, so the set does not depend on the rules' order. |
| Resolver.MoreRulesMorePackages | Mapping/mapping_resolver.py:137-242 | Resolution is monotone in the set of rules. |
| Resolver.TargetsAreManagedAndCovered | Mover/stages.py:303-320 | Every target package is in the managed catalogue and has a non-empty policy, so the no-policy branch of the addition phase is unreachable from the pipeline. |
| Resolver.MatchesIff | Mapping/mapping_resolver.py:67-134 | A rule matches if and only if it has a condition and every condition on department, job title or employment type is met: the same text, a stretch of it or its beginning; a blank attribute meets none. |
| Resolver.PolicyIsOfTheLastGrant | Mover/stages.py:310-313 | The policy a package is requested under is that of its last grant. |
| Resolver.CatalogueIff | Mover/stages.py:315-320 | The catalogue holds exactly the non-blank packages any rule names, whoever it matches. |
| Text.NormalIsFinal | Mapping/mapping_resolver.py:81-82 | A normalised text has no capital letter and no blank at its ends, and normalising it again changes nothing. |
| Text.BlanksMakeNoDifference | Mapping/mapping_resolver.py:81-82 | A blank before or after a text makes no difference to it. |
| Text.OnlyBlanksGo | Mapping/mapping_resolver.py:81-82 | A text without blanks at its ends keeps its length and every character but for case. |
| Text.CaseMakesNoDifference | Mapping/mapping_resolver.py:81-82 | Texts that differ in the case of their letters only are normalised alike. |
| Planning.EvaluateAllRetentions | Mover/retention_evaluator.py:243-312 | The loop gives every candidate one decision and splits the candidates exactly into retained and confirmed removals. |
| Planning.HoldingsArePartitioned | Mover/delta_engine.py:41-87 | Current holdings are the disjoint union of unmanaged, unaltered, retained and confirmed removals, also in number. |
| Planning.AdditionsAreNew | Mover/delta_engine.py:71-80 | Additions are disjoint from current holdings if and only if no held target is outside the catalogue; with managed targets they are exactly the missing targets. |
| Planning.PlanOfAPackage | Mover/retention_evaluator.py:192-240 | What a plan does with a package, told by what is held, wanted and managed: it goes if and only if it is held, managed, not wanted and has no retention record good for today or later. |
| Planning.StagePreflightSod | Mover/stages.py:489-628 | The loop asks once per addition, in order, and returns held, reorder or proceed as specified. |
| Planning.HeldIffKeptConflict | Mover/stages.py:522-628 | A move is held if and only if an answered query names a package the user keeps. |
| Planning.ProceedIffCompatible | Mover/stages.py:536-628 | With all queries answered, a move proceeds in the default order if and only if no addition is incompatible with anything currently held. |
| Planning.ConflictsAreRemoved | Mover/stages.py:536-628 | When it proceeds at all, every conflict with current holdings is with a confirmed removal, so none is left once those are gone. |
| Planning.VerdictIgnoresOrder | Mover/stages.py:522-628 | Verdict, blocked set and reorder flag do not depend on the order in which additions are looked at. |
| Verifier.CalculateDiscrepancies | Mover/post_move_verifier.py:158-199 | One entry per discrepancy, without duplicates; none if and only if expected is within actual and actual within expected, unmanaged and recently removed. |
| Verifier.VerifyPostMoveState | Mover/post_move_verifier.py:204-368 | Assignments are read first and memberships only if that worked; the verdict is the specified one. |
| Verifier.FetchedIff | Mover/post_move_verifier.py:149-153 | A package counts as shown if and only if some fetched assignment is of it and its id is not blank. |
| Drivers.OperationsAgree | Mover/durable/activities.py:268-345 | submit, [check + timer]*, finalize over JSON is the same operation as the synchronous submit, poll, finalize: same log, same actions. |
| Drivers.DurableTriad | Mover/durable/orchestrator.py:72-110 | The activities as called by the orchestrators, with lists rebuilt from dictionaries at every hand-over, perform that operation. |
| Drivers.CurrentPolicyIsTheLast | Mover/stages.py:230-234 | The policy a removal is requested under is that of the last fetched assignment of its package. |
| Drivers.RunPollLoop | Mover/durable/orchestrator.py:39-49 | The generator rebinding its state performs the specified timer loop. |
| MoverRun.PrepareMove | Mover/durable/activities.py:135-262 | Claim, concurrency guard, fetch and lock, resolve, delta, retention, pre-flight: same calls, same branches, same rows as specified; other employees' rows untouched. |
| MoverRun.RunMoverPipeline | mover_http/__init__.py:199-604 | The synchronous driver performs exactly the specified run: tenant log, event rows and result; other employees' rows untouched. |
| MoverRun.OrchestrateMove | Mover/durable/orchestrator.py:52-122 | The durable orchestration performs exactly the specified durable run. |
| MoverReports.MovesAreDecided | Mover/stages.py:558-590 | By the answers alone: a fetched move asks about every planned addition and nothing else, is held if and only if something the user keeps was named as incompatible with one, and otherwise reorders if and only if something to be removed was. |
| MoverReports.ManagerIsAsked | Mover/stages.py:273-356 | Once the state is fetched and the rules are read, the manager is looked up if and only if the payload names one, whatever comes of it. |
| MoverReports.HeldRowIs | mover_http/__init__.py:378-407 | A move held for review leaves its row Failed at the pre-flight and unlocked. |
| MoverReports.EarlyExitsAre | Mover/durable/activities.py:135-262 | Which moves exit before their pre-flight, and which failure step their row then names. |
| MoverReports.EarlyExitsOnlyLook | Mover/durable/activities.py:135-262 | A move that fails before its plan has looked the user up, and the assignments if there is a user, and nothing else; one turned away has not even done that. |
| MoverTheorems.DriversAgree | Mover/durable/activities.py:14-19 | The durable run refines the synchronous one: same calls and answers in the same order, same rows, same result, for every tenant, whenever the run does not both reorder and patch. |
| MoverTheorems.DriversAgreeIff | Mover/durable/orchestrator.py:69-83 | For whole runs: both drivers make the same run on every tenant that leads to a given preparation if and only if that preparation does not both remove first and have attributes to patch; from every preparation that does, some tenant makes the runs differ, so the claim of identical behaviour is false there. |
| MoverTheorems.PreparedMovesAreCovered | Mover/stages.py:519-536 | Every planned addition has a policy, and a run reorders only if it has an addition. |
| MoverSafety.RunWritesItsPlan | mover_http/__init__.py:384-534 | Every adminAdd of any run targets a planned addition and every adminRemove a confirmed removal; a held, queued or early-failed run writes nothing to the tenant. |
| MoverReports.RunAsksItsPlan | mover_http/__init__.py:384-534 | Everything a provisioned run writes, in order: its additions and, if and only if all succeeded, every removal and the PATCH; with reordering every removal, the additions and the PATCH where the driver makes it. |
| MoverSafety.HoldingsStayWithinPlan | Mover/delta_engine.py:60-80 | In every reachable state of a run, whatever went before it, kept and unmanaged packages are still held unless an earlier run asked to remove them, and nothing has been granted but what is planned or an earlier run asked to add. |
| MoverSafety.StrategyAIsGated | Mover/durable/orchestrator.py:86-110 | Under Strategy A no removal is requested before the log confirms every planned addition. |
| MoverSafety.NeverLosesAccess | mover_http/__init__.py:466-534 | Strategy A never loses access: in every reachable state of a run, as soon as any package has left the user's holdings every planned addition is held; packages an earlier run asked to remove are the only ones excepted. |
| MoverSafety.RemovesBeforeAdding | Mover/durable/orchestrator.py:69-83 | Strategy B: a reordered run whose removals were all confirmed requests no addition before a position from which on every removed package stays gone and nothing but planned additions has come; packages an earlier run asked to add are the only ones excepted. |
| MoverResults.RaisesIff | mover_http/__init__.py:433-534 | A run raises if and only if it was prepared and its last event is an assignment lookup the tenant did not answer. |
| MoverResults.RowTellsTheResult | mover_http/__init__.py:549-593 | Every run past the queue leaves its row unlocked, Completed if and only if it succeeded, else Failed; except exactly when it was prepared and its last event is an unanswered lookup, which leaves the row locked and Processing. |
| MoverResults.FailedLookupStrandsTheRun | Mover/provisioning_phases.py:434-440 | A tenant on which, for every poll window and either driver, every whole run raises and leaves its row locked and Processing, although the lock is documented as released on every exit path. |
| MoverResults.ParkedMoveIsStranded | mover_http/__init__.py:247-261 | A move parked behind a concurrent one, new or retried, keeps a Pending, unlocked row that no claim ever takes, over every sequence of calls that does not start or end its own run; it waits in the queue if and only if its old row had a queue stamp. |
| MoverResults.SucceedsIff | Mover/post_move_verifier.py:262-354 | MOVE_SUCCESS if and only if the run was provisioned without raising, the re-fetch was answered, expected within actual within expected, unmanaged and recently removed, and memberships were read and comply. |
| MoverReports.EndsIff | mover_http/__init__.py:549-560 | A provisioned run fails if and only if the re-fetch was not answered, and is partial if and only if it was but does not confirm the move; it returns the actions it took. |
| MoverReports.PartlyRowIs | mover_http/__init__.py:575-593 | Of the runs that return, the partial ones and no others name the verification as the failed step of their row. |
| MoverReports.StrategyAReports | mover_http/__init__.py:466-534 | Strategy A reports each addition by what was heard up to the gate, goes on if and only if all were confirmed, reports each removal by what was heard after it, and counts as removed exactly the confirmed ones. |
| MoverReports.StrategyBReports | mover_http/__init__.py:425-465 | The same for Strategy B, removals first and ungated. |
| MoverResults.RemovedWasConfirmed | mover_http/__init__.py:517-520 | What a run counts as removed was planned for removal and its log confirms that it is gone, for every tenant, strategy and driver. |
| MoverReports.ObligedRunSucceeds | mover_http/__init__.py:384-604 | On a tenant that accepts and delivers whatever it is asked, every prepared run writes its whole plan, reports all of it done, and succeeds and completes its row if the re-fetch shows the outcome and memberships comply. |
| MoverResults.SuccessIsOnTarget | Mover/post_move_verifier.py:164-199 | On success every target package showed at the re-fetch, and any surplus package still showing is one the run had just removed, as its log confirms. |
| MoverResults.DistanceIsPlanSize | Mover/delta_engine.py:71-80 | The distance to the goal is the number of additions and confirmed removals of the plan that would be made. |
| MoverResults.DistanceCountsDown | Mover/retention_evaluator.py:280-312 | On any grounded log that only steers to the goal, the distance plus the number of changes that took effect stays constant. |
| MoverResults.RepeatedRunsConverge | Mover/durable/orchestrator.py:72-112 | Over any number of runs towards one goal, under any mix of drivers and strategies, the distance never rises and drops by exactly one per change that takes effect. |
| MoverResults.AtZeroNothingIsLeftToDo | Mover/post_move_verifier.py:186-199 | At distance zero a run requests nothing, and if the re-fetch shows the same holdings and memberships comply it succeeds. |
| MoverResults.FullSuccessArrives | Mover/delta_engine.py:60-80 | Whatever runs towards the goal went before: if a run's plan was made for what the user held at some time and every action succeeded, the user ends up holding exactly what may stay and the target, at distance zero. |
| MoverHistories.RepeatedRunsArrive | Mover/durable/orchestrator.py:72-112 | Retries reach the goal: after any number of runs towards it, one run that fetched what is held and whose every action succeeded leaves exactly what may stay and the target. |
| MoverHistories.RepeatedRunsStayWithinGoal | Mover/delta_engine.py:60-80 | In every state of any number of runs towards one goal, whatever may stay is still held and nothing outside the target has come. |
| MoverHistories.RunRemovesLast | Mover/durable/orchestrator.py:86-110 | A run that does not reorder asks for a removal only when every target package is held, whatever runs towards the goal come before and after it. |
| MoverHistories.RunsNeverLoseAccess | mover_http/__init__.py:466-534 | Strategy A never loses access over any number of runs towards one goal: as soon as anything has left the user's holdings, every target package is held, if fetches show nothing that is not held. |
| MoverHistories.RetriesRemoveBeforeAdding | Mover/durable/orchestrator.py:69-83 | A reordered run after any runs towards the same goal requests no addition before a position from which on what it removed is gone for good and nothing outside the target has come. |
| EventStore.EventTable.ClaimEvent | Functions/Event_store/event_store.py:85-121 | True if and only if the row is absent, Failed or stale Processing; a refused claim changes nothing, a granted one only this row. |
| EventStore.EventTable.HandleExistingEvent | Functions/Event_store/event_store.py:307-351 | An existing row is reclaimed if and only if it is Failed or stale Processing. |
| EventStore.EventTable.CheckActiveEvent | Functions/Event_store/event_store.py:265-304 | The scan returns the first live row and has reset every stale run before it, and nothing after it. |
| EventStore.EventTable.AcquireLock | Functions/Event_store/event_store.py:176-197 | Unconditionally Processing, locked now by this holder. |
| EventStore.EventTable.ReleaseLock | Functions/Event_store/event_store.py:200-218 | Clears the lock and its holder and nothing else. |
| EventStore.EventTable.UpdateEventStatus | Functions/Event_store/event_store.py:151-173 | Sets the status, and the failure step only when one is given. |
| EventStore.ClaimEffect | Functions/Event_store/event_store.py:233-262 | A granted claim leaves the event Pending, unlocked, with one more retry if it existed, and no other row changed. |
| EventStore.ClaimedRowIs | Functions/Event_store/event_store.py:85-262 | The row of a granted claim, field by field: a fresh one, or the old one reset with one more retry and its action and queue stamp kept. |
| EventStore.RunCallsAre | Functions/Event_store/event_store.py:151-218 | Starting, unlocking and ending a run change these fields of its own row and no other row. |
| StoreRuns.ClaimsAreExclusive | Functions/Event_store/event_store.py:85-121 | Over every sequence of store and queue calls at any times, granted claims of an event are at most one, if its row could be claimed at all, plus the times it was failed or was started and then claimed only after that lock had gone stale. |
| StoreRuns.SecondClaimNeedsAFailure | Functions/Event_store/event_store.py:307-351 | After a granted claim and any sequence of calls, another claim is granted only if one of those calls failed the event or started it longer ago than a lock stays fresh: a live run is never claimed twice. |
| StoreRuns.NeverClaimableIff | Functions/Event_store/event_store.py:221-231 | The rows no later claim can take are exactly those neither Failed nor Processing with a lock stamp; a Processing row without one, as a crash between unlock and status update leaves it, is among them. |
| StoreRuns.UndrivenIsNeverClaimed | Functions/Event_store/event_store.py:307-351 | A row neither Failed nor Processing is never claimed over any sequence of calls that does not start or end its own run. |
| StoreRuns.RetriesCountReclaims | Functions/Event_store/event_store.py:233-262 | Over every sequence of calls the retry count grows by exactly the number of times the row went from Failed or Processing back to Pending. |
| StoreRuns.ClosedRowsStayClosed | Functions/Event_store/conflict_queue.py:233-259 | A Completed or Superseded event stays so, is never claimed and never handed out by the queue, over every sequence of calls that does not start or end its own run. |
| StoreRuns.SupersedeDoesNotStopARun | Functions/Event_store/event_store.py:176-193 | A run that had claimed before the supersede makes its row Processing again. |
| StoreRuns.EveryCallMoves | Functions/Event_store/event_store.py:233-351 | What each of the seven calls can do to one event's row, for every partition. |
| ConflictQueue.CheckAndHandleConflict | Functions/Event_store/conflict_queue.py:40-86 | Supersede for a Leaver, Queued if and only if another event is active, else Proceed; rows changed exactly as specified, other employees untouched. |
| ConflictQueue.OutcomeIff | Functions/Event_store/conflict_queue.py:74-86 | An event is parked if and only if it is not a Leaver and another event of the employee is Pending or Processing. |
| ConflictQueue.ParkedRowIsStamped | Functions/Event_store/conflict_queue.py:216-230 | A parked event's row gets its queue stamp and is otherwise as it was, and so is every other row. |
| ConflictQueue.SupersedePendingEvents | Functions/Event_store/conflict_queue.py:233-259 | The loop cancels exactly the pending ones among the active events. |
| ConflictQueue.GetOldestQueuedEvent | Functions/Event_store/conflict_queue.py:178-213 | The first row of the stable sort of waiting rows by queue timestamp. |
| ConflictQueue.ReleaseNextQueuedEvent | Functions/Event_store/conflict_queue.py:89-148 | Returns the head and changes its row as the predecessor's end says. |
| ConflictQueue.SupersedeIsExact | Functions/Event_store/conflict_queue.py:63-73 | After a Leaver's check no other row is Pending, and every row that was not is as it was. |
| ConflictQueue.OldestIsFirst | Functions/Event_store/conflict_queue.py:188-200 | No waiting row comes before the head in queue order. |
| ConflictQueue.HeadIff | Functions/Event_store/conflict_queue.py:178-213 | The head is the Pending row with the earliest queue stamp, smallest key first; there is none if and only if no Pending row has a stamp. |
| ConflictQueue.ReleaseIs | Functions/Event_store/conflict_queue.py:113-148 | What becomes of the head and of every other row when the predecessor completed, failed or ended otherwise. |
| ConflictQueue.FailureHoldsExactlyTheHead | Functions/Event_store/conflict_queue.py:129-146 | After a failed predecessor the head, and only the head, is Held. |
| ConflictQueue.DrainIsFifo | Functions/Event_store/conflict_queue.py:89-148 | Repeated release after Completed returns every waiting event exactly once in queue order, then None, and changes nothing but their timestamps. |
| JoinerStages.StageClaimEvent | Joiner/stages.py:121-216 | Scan, then claim: the outcome and rows of the claim stage; other employees untouched. |
| JoinerStages.StageConflictCheck | Joiner/stages.py:218-269 | Proceeds if and only if no other event of the employee is Pending or Processing; otherwise the event is parked. |
| JoinerStages.StageFinalize | Joiner/stages.py:589-654 | Unlock, final status, advance the queue, in that order; the event returned as advanced is the head of the queue at that point. |
| JoinerStages.ProceedsIff | Joiner/stages.py:134-143 | The stage proceeds if and only if no live run is found and the event is new, Failed, or a stale run behind a pending event that stops the scan before it. |
| JoinerStages.ClaimStageLeaves | Joiner/stages.py:126-220 | The claim stage resets the stale runs that stand before a live row, and changes nothing else but, when it proceeds, its own row. |
| JoinerStages.CrashedRunIsStranded | Joiner/stages.py:134-137 | The promise that a stale run is reclaimed and proceeds is false: a crashed run whose row is the only one is reset by the scan and then refused as a duplicate, at every later time as well. |
| JoinerStages.ProceedsWithAPendingRow | Joiner/stages.py:182-216 | Whenever the stage proceeds the event's row is Pending, unlocked, with one more retry if it existed. |
| JoinerStages.FinishedIsExact | Joiner/stages.py:618-631 | Finalizing leaves the event unlocked in its final status, advances exactly the head of the queue, and changes no other row. |
| JoinerStages.ReleasedIsNotClaimable | Functions/Event_store/conflict_queue.py:113-127 | An event released from the queue is Pending, so no claim takes it and no further release returns it. |
| LeaverRun.PrepareLeaver | Leaver/durable/activities.py:141-201 | Claim, supersede, concurrency guard, fetch and lock, disable, revoke, as specified. |
| LeaverRun.StagePimTerminate | Leaver/stages.py:377-445 | Cancels every session with a group id, in order; a failed discovery cancels none. |
| LeaverRun.StageVerify | Leaver/stages.py:508-569 | Confirmed if the account reads disabled, or after a delete no longer resolves; unknown when the re-fetch of an undeleted account fails. |
| LeaverRun.RunLeaverPipeline | leaver_http/__init__.py:191-376 | The synchronous driver performs exactly the specified run. |
| LeaverRun.OrchestrateLeave | Leaver/durable/orchestrator.py:47-91 | The durable orchestration performs exactly the specified run including the deferral. |
| LeaverRun.DeferredDeleteActivity | Leaver/durable/activities.py:322-393 | The re-check and the delete as specified: gone or not disabled ends in success without a delete. |
| LeaverTheorems.DriversAgreeUpToDeferral | Leaver/durable/orchestrator.py:63-79 | The durable Leaver is the synchronous one followed by the deferral; without a hold they are the same run. |
| LeaverTheorems.WritesInOrder | Leaver/durable/activities.py:183-276 | Everything a returning run writes, in order: disable, revoke, one adminRemove for every package held at the start, a cancellation of every PIM session with a group that the tenant listed then, at most one delete. |
| LeaverReports.FoundIsRemoved | Leaver/stages.py:269-273 | For every assignment the tenant listed at the start a prepared run, however it ends, requests an adminRemove of its package under the policy of the package's last assignment. |
| LeaverReports.NoPackageIsForgotten | Leaver/stages.py:269-273 | So every package the fetch listed, however often, is asked to be removed since the run began, however the run ends. |
| LeaverTheorems.OtherRunsWrite | leaver_http/__init__.py:229-302 | An early exit writes nothing; a run that raises has disabled and revoked and requested every removal. |
| LeaverTheorems.PackagesAreAccountedFor | Leaver/durable/activities.py:236-247 | The removed and the failed list split the packages found at the start, disjointly and in number. |
| LeaverReports.RemovalsAreReported | Leaver/durable/activities.py:236-247 | A package is reported removed if and only if what was heard confirms its removal, and failed otherwise. |
| LeaverReports.VerdictIff | Leaver/durable/activities.py:285-294 | Success if and only if no removal failed and the account was deleted or then reads disabled; failed if and only if it was not deleted and the re-fetch was not answered; otherwise partial. |
| LeaverReports.PartlyRowIs | Leaver/durable/activities.py:300-306 | The same for a Leaver and its own verification. |
| LeaverReports.EarlyExitsAre | Leaver/durable/activities.py:141-201 | Which leavers exit early, and which failure step their row then names. |
| LeaverReports.EarlyExitsOnlyLook | Leaver/durable/activities.py:141-201 | The same for leavers, the lock-out of the account included among what has not happened. |
| LeaverReports.TurnedAwayHasSuperseded | leaver_http/__init__.py:228-262 | A Leaver turned away by another one running has superseded all that was pending before it turns back, and leaves its own row Pending and unlocked. |
| LeaverReports.ObligedLeaverSucceeds | leaver_http/__init__.py:191-376 | On a tenant that accepts and delivers whatever it is asked, a prepared run removes everything, and succeeds and completes its row once the account is deleted or reads disabled. |
| LeaverTheorems.SuccessMeansGone | Leaver/durable/activities.py:285-294 | Success means nothing assigned at the start is still held, unless an earlier run asked to add it, and, after the removals, the account's delete was accepted or the last reading by name was of a disabled account. |
| LeaverTheorems.LeaversAddNothing | Leaver/provisioning_phases.py:112-207 | However it ends, a Leaver run asks to add nothing. |
| LeaverTheorems.RetriedSuccessMeansGone | Functions/Event_store/event_store.py:307-351 | After any number of Leaver runs, failed or raised, the one that ends in success leaves nothing it found assigned that had not been asked for before the first of them. |
| LeaverTheorems.ReadingIsAboutTheUserIff | Leaver/stages.py:539-547 | On a truthful directory a log ending with that reading settles that the user's account is off if and only if the answer carries the user's id, or the last thing the log said of the account before was that it is off. |
| LeaverTheorems.RaisesIff | leaver_http/__init__.py:229-302 | A run raises if and only if it was prepared and its last event is an assignment lookup the tenant did not answer, under both drivers. |
| LeaverTheorems.RowTellsTheVerdict | Leaver/durable/activities.py:300-306 | The row is unlocked and Completed if and only if the verification succeeded, else Failed; except exactly when the last event is an unanswered lookup, which leaves it locked and Processing. |
| LeaverTheorems.FailedLookupStrandsTheRun | Leaver/provisioning_phases.py:255-258 | A tenant on which, for every poll window and either driver, every whole run raises and leaves its row locked and Processing. |
| LeaverTheorems.NothingElseIsPending | Leaver/durable/activities.py:158-159 | By the time a Leaver touches the tenant no other event of the employee is Pending. |
| DeferredDeletion.AtMostOneDelete | Leaver/durable/orchestrator.py:69-79 | A run attempts at most one delete, immediate or deferred but never both, and with a hold exactly when the durable re-check reads disabled. |
| DeferredDeletion.HeldDeletesAreRechecked | Leaver/durable/activities.py:346-377 | With a hold, every delete of a durable run, on whatever log it starts, comes after the timer and directly after a reading of the account as disabled, whatever changes during the hold. |
| DeferredDeletion.RecheckProtectsIff | Leaver/durable/activities.py:346-377 | Of a durable run that deletes after its hold: given the re-check's answer and what the tenant changes before the delete, the account is surely not enabled at the delete if and only if those changes leave it off, or leave it alone and the re-check read that very account. |
| DeferredDeletion.DeleteFindsEnabledIff | Leaver/durable/activities.py:346-377 | In a whole run on a truthful tenant whose re-check read the account to be deleted, the delete finds it enabled if and only if the changes in between leave it so. |
| DeferredDeletion.DeletedAccountIsSurelyOffIff | Leaver/durable/activities.py:346-377 | Over the whole log of such a run: the deleted account is surely off at the delete if and only if the last thing the log says of it, at the delete, the re-check, the hold or before, is that it is off. |
| Accounts.ReadingProtectsIff | Leaver/durable/activities.py:330-359 | What one reading by name as disabled is worth after further changes: it settles that an account is off if and only if the changes leave it off, or leave it alone and it is the account that was read. |
| Accounts.SurelyOffIff | Leaver/durable/activities.py:330-359 | Every directory that could have given a truthful log has the account off at its end if and only if the last thing the log says of the account is that it is off. |
| DeferredDeletion.EnabledAccountsAreDeleted | Leaver/durable/activities.py:346-377 | Two tenants, truthful from every starting directory, on which every durable run with a hold deletes an account that is enabled: the name has moved to a disabled new account, or the right account is enabled again just after the re-check. |
| DeferredDeletion.DeferralForgetsTheVerdict | Leaver/durable/orchestrator.py:75-79 | A tenant on which every durable run with a hold returns success although the account is still enabled and the row says Failed. |
| DeferredDeletion.HeldRunsReport | Leaver/durable/activities.py:346-393 | With a hold, the returned status is partial if and only if a re-checked delete failed, and success otherwise. |
| Lifecycle.FindChangedDrivingFields | Ingestion/hr_api/bamboohr/last_state_deriver.py:173-193 | Exactly the driving fields whose normalised values differ. |
| Lifecycle.ActionsTrackEmployment | Ingestion/hr_api/bamboohr/last_state_deriver.py:61-170 | Joiner if and only if an employment starts, Leaver if and only if one ends, Mover if and only if one goes on with another driving attribute; once saved, the table has the employee employed if and only if the record does, with its driving attributes. |
| Lifecycle.LeaverIff | Ingestion/hr_api/bamboohr/last_state_deriver.py:61-170 | Who leaves and who joins, by the words of the record and of the stored state: inactive, terminated, leaver. |
| Lifecycle.MoverIff | Ingestion/hr_api/bamboohr/last_state_deriver.py:173-193 | Who moves: an employee whose department, title, employment type, manager or location now reads differently. |
| Lifecycle.TerminatedIff | Ingestion/hr_api/bamboohr/last_state_deriver.py:61-97 | Inactive and terminated, in any case, mean that the employee has left. |
| Lifecycle.LastStateStore.Save | Ingestion/hr_api/bamboohr/save_last_state_activity.py:63-69 | A Leaver is stored as Inactive whatever its record says, any other action as recorded. |
| Lifecycle.LastStateStore.Receive | Ingestion/hr_api/webhook.py:100-131 | One record: derive from what is stored now and, unless that gives Skip, start a run with the action written into the record; nothing is stored yet. |
| Lifecycle.LastStateStore.EndRun | Mover/durable/orchestrator.py:114-120 | The last step of a run, at any later time: its own action and record are stored over whatever is there by then. |
| Lifecycle.StoredRowIs | Ingestion/hr_api/bamboohr/last_state_store.py:102-168 | The row a run saves, told by what the record and the last state said: its attributes, its status (Inactive for a leaver), and the word Joiner, Mover or Leaver. |
| Lifecycle.TableTellsTheLastAction | Ingestion/hr_api/bamboohr/save_last_state_activity.py:63-69 | In whatever order runs save, the table has an employee employed if and only if the last saved action was a Joiner or a Mover. |
| Lifecycle.GrammarIsPrefixOfCareers | Ingestion/hr_api/bamboohr/last_state_deriver.py:61-170 | Being a prefix of (Joiner Mover* Leaver)* is the same as every action fitting the one before it. |
| Lifecycle.ActionsFollowTheGrammarIff | Ingestion/hr_api/bamboohr/last_state_deriver.py:61-170 | For every history of notices and saves, interleaved in any way: the actions saved for an employee are a prefix of (Joiner Mover* Leaver)* if and only if every run, when it saves, finds the employee employed, or not, as its notice did. |
| Lifecycle.ActionsFollowTheGrammar | Ingestion/hr_api/bamboohr/last_state_deriver.py:61-170 | The grammar holds for every history in which no other run of the employee saves between a notice and the save of its run, whichever runs get that far. |
| Lifecycle.OverlappingRunsBreakTheGrammar | Ingestion/hr_api/webhook.py:100-131 | Two notices of a new employee before either run saves are both Joiners. |
| Lifecycle.SavedRecordsSettle | Ingestion/hr_api/bamboohr/last_state_store.py:102-168 | Re-deriving any record just after its save gives Skip. |
| Lifecycle.DispatchedRecordsSettle | Ingestion/hr_api/webhook.py:111 | So does the record as dispatched, with the derived action written into it. |
| HoldQueue.EntityRoundTrip | Hold_queue/azure_table_hold_queue_store.py:159-220 | Store and read back gives the same record if and only if neither optional text is the empty string, and otherwise the record with that text absent; storing again gives the same entity. |
| HoldQueue.HoldQueueManager.Transition | Hold_queue/queue_manager.py:322-350 | Rejected without change unless allowed from the current status; else the record moves and is saved. |
| HoldQueue.HoldQueueManager.Approve | Hold_queue/queue_manager.py:352-383 | Rejected without change unless Held; else override and note are set before the transition and its save. |
| HoldQueue.HoldQueueManager.RecordAttempt | Hold_queue/queue_manager.py:385-395 | Counts the attempt and saves, without a status change. |
| HoldQueue.HoldQueueManager.Create | Hold_queue/queue_manager.py:113-318 | Every creation path ends Held and stored if the table takes all its writes; otherwise it raises and the table keeps the stage of the last write it took. |
| HoldQueue.AllowedIff | Hold_queue/queue_manager.py:75-86 | The transitions read backwards: which statuses lead to a status, and that no other does. |
| HoldQueue.CompletedIsTheOnlyEnd | Hold_queue/queue_manager.py:75-86 | Only a completed record is stuck, and every other one can still be completed within six transitions. |
| HoldQueue.StoreAgreesIffSaved | Hold_queue/queue_manager.py:332-395 | After any call, rejected ones included, a copying store agrees with the live record if and only if no save failed. |
| HoldQueue.CallIs | Hold_queue/queue_manager.py:322-395 | What one call does to a record, field by field: a rejected one nothing, an accepted one stamps it and only moves it, flags and notes an approval, or counts an attempt. |
| HoldQueue.ProvisioningWasApproved | Hold_queue/queue_manager.py:75-86 | On every run each Provisioning directly follows Held, Approved. |
| HoldQueue.RunsAreBounded | Hold_queue/queue_manager.py:75-86 | A record with r Failed-to-Held resets makes at most 7 + 5r transitions, however many calls are made. |
| HoldQueue.BoundIsMet | Hold_queue/queue_manager.py:75-86 | For every r there is a run with exactly 7 + 5r transitions. |
| HoldQueue.OverriddenIff | Hold_queue/queue_manager.py:352-383 | After any calls a record carries the override flag if and only if it did before or one of them was an approve that met it Held. |
| HoldQueue.ApprovalsAreFlagged | Hold_queue/queue_manager.py:352-375 | If approvals go through approve, everything past approval carries the override flag. |
| HoldQueue.ApprovalCanGoUnflagged | Hold_queue/queue_manager.py:322-343 | A bare transition to Approved is accepted and provisioning then goes ahead unflagged. |
| HoldQueue.StaleFlagCoversABareApproval | Hold_queue/queue_manager.py:322-383 | After an approval, a failure and a reset, a bare transition to Approved carries the flag and the note of the earlier approval. |
| Retry.CallWithRetry | Provisioning/graph_client.py:134-196 | The loop's result is that of the first success or permanent client error within the retries, else the last failure, in the form its class calls for; calls and total wait are as specified. |
| Retry.ReturnsIff | Provisioning/graph_client.py:134-196 | A value is returned if and only if it is that of a success within the retries after failures worth retrying. |
| Retry.RaisesIs | Provisioning/graph_client.py:134-196 | A code from 400 to 499 other than 429 ends the call at once; after the last retry 429 raises throttling, 500 to 599 a server error with its code, and an error without a code itself. |
| Retry.WaitIsExact | Provisioning/graph_client.py:146-190 | Each retried attempt adds exactly what the server asked for if it was throttled, and base times the attempt's power of two otherwise. |
| Retry.BackingOffDoubles | Provisioning/graph_client.py:146-190 | Without throttling the waits add up to base times a power of two less one. |
| Retry.AskedFor | Provisioning/graph_client.py:234-259 | The seconds asked for are those on the error, else those on its response, else 60. |
| Retry.CodeIs | Provisioning/graph_client.py:200-231 | The status code is the error's own, else its response's, else what its text suggests. |
| Retry.RetryIsBounded | Provisioning/graph_client.py:113-197 | With m >= 1: between 1 and m calls, only the last not a retryable failure, and total wait at most base * (2^(m-1) - 1) plus the Retry-After values of the throttled attempts that were retried. |
| Retry.RetryAfterSurvivesIff | Provisioning/graph_client.py:392-394 | A throttled error re-raised by a client method keeps its code and loses its header: the wait is the default, so it is what the server asked for if and only if that was the default. |
| Retry.TextDecidesIff | Provisioning/graph_client.py:200-231 | The text of an error matters if and only if neither it nor its response has a status attribute, so an error wrapped without a code is retried as transient whatever its text says. |

## Left out

- SuccessMeansGone: stated on tenants where an empty lookup means the package is not held; it says nothing of a package an earlier run asked to add, whose request may still be delivered, and a re-grant by somebody else is outside what any run could know.
- RetryIsBounded: a negative Retry-After, on which the sleep itself would raise, is not modelled (section 10.2.3 of RFC 9110 has none; section 4 of RFC 6585 leaves the header optional).
- RunsNeverLoseAccess: stated for runs that do not reorder; Strategy B promises the opposite order, which is RemovesBeforeAdding.
- RepeatedRunsArrive: the runs share one goal, that is the same rules, retention records and date; what an earlier request towards another goal still brings is bounded by HoldingsStayWithinPlan only.
- DriversAgree: both drivers are given the same poll window and the same iteration order of a set; the synchronous window comes from the environment, the durable one is a constant.
- One call of the model is one call of a client method with its retries; a request repeated by a retry is not modelled.
- Set iteration orders, clocks, environment values, event ids (numbers in key order instead of SHA-256 texts) and the answers of the MoverEventLog and LeaverEventLog guards are parameters.
- Polling filters the open records at each record's turn; the source filters once before the pass, which is the same as a pass changes a record only at its own turn.
- The stable sort of waiting events is modelled as a scan for its first element, and the merge of a null QueuedAt as clearing it, which is its stated intent.
- Each store call is one atomic step; two workers inside the same read-then-merge are not modelled, and a conflict check or status update of a row that does not exist changes nothing instead of raising.
- The attribute delta is reduced to whether there is anything to patch; the manager lookup is a call whose answer decides nothing.
- The governance check is the tenant's verdict on memberships, since its rules belong to another component.
- The catalogue of the resolver's other entitlements (groups, roles, PIM groups) is left out: same loops, same deduplication.
- Case folding and stripping are those of ASCII letters and ASCII white space.
- Retention records that are unreadable count as absent, as in the source; reading them is a lookup in a map.
- A Leaver dictionary without a request type defaults to adminRemove in the source; here a missing one is malformed, and neither driver ever produces one.
- Audit texts, labels, logs, reports, HTTP handling, the validation gate, the ingestion coordinator and the Joiner's provisioning phases are left out: no modelled decision depends on them, or they repeat a modelled loop without its gate.

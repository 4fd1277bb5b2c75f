# Verification of the orchestration runtime, AI governance and health services

A Dafny 4.11 model of the core of the API: the execution contract compiler and the persisted protocol on top of it, the
AI gateway with its usage ledger, token accounting and model routing, the connection health timeline, and the storage
write guard. `dafny verify dfyconfig.toml` checks everything.

## What is modelled

**Contracts and their compilation** (`Contracts`, `Normalisation`, `Validation`, `Topology`, `Mutations`, `Effects`,
`Activation`, `Plans`).
A submission is normalised, checked by 22 ordered cross-list checks, and turned into bindings, child records, approval
dispatches, rollbacks, runners, actions, runs, approval tasks, transitions and policies that refer to each other by
keys made from list positions. The checks are shown to accept exactly the well-formed contracts, and the emitted links
to be total and mutually inverse for all of them. `Plans` sums this up as the specification of the compiler: a plan
is sound if and only if its contract is well-formed. The theorems about runs rest on sound plans and on nothing else.

**The persisted protocol** (`History`, `Runtime`, `Traces`, `Lookups`, `Policies`). A plan has three snapshots, one for
each kind of step, and every accepted step overwrites the one of its kind. A step sees, for each target, the first
record of the newest snapshot that mentions it. Any read or write may fail without an error. `Runtime` holds the
service as a class with its store and a ghost trace; `Traces` characterises, for every trace, exactly when a decision
or a dispatch is accepted, and derives the guarantees and their limits from that. What is false of the code is shown
false for every plan of the relevant size, not for one example.

**The AI gateway** (`Policy`, `Tables`, `Governance`, `Ledger`, `DispatchController`, `Requests`). Policies as built,
stored and read back; tables upserted under text keys and searched by columns; the decision on a request; and the gap
between deciding and recording as a state machine, with the tight bound on how far usage can pass the hard limit,
proved for requests to the endpoint that overlap in any way.

**Token accounting and routing** (`TokenQuota`, `Sorting`, `ModelRouting`), **health** (`Health`) and **storage paths**
(`StoragePaths`, `StorageRequests`).

`Wrappers`, `Lists` and `Text` hold the array and string operations the services are written with. `Example` shows
that the assumptions of the theorems about runs can be met by submissions that reach the runtime. `PlanScopes` and
`ScopedRuns` are about one plan id used from several tenants or workspaces.

## Results worth knowing before reading the proofs

- An accepted dispatch of a gated run is always backed by an approval of its one task, through any failed reads and
  writes. Dispatching or deciding at most once is not guaranteed; what separates two of them is stated exactly, and so
  is which plans allow it. In runs without failures and without activations: contracts with a second child, or for
  decisions a second approval. With activations: every gated run and every task, and any run beside a second child.
- A plan id used from two scopes overwrites the snapshot of the first and hides it from the second, so that a run one
  scope has only rejected can be dispatched there on an approval of the other.
- Run transition policies are followed by every decision and dispatch of a plan with one approval that reads the store,
  and broken in every plan with two by the same four steps.
- The answers of the main operations are pinned down in literal values, apart from the functions that compute them:
  `Normalisation`, `StorageRequests`, and the lemmas whose names end in `Is`, `Are`, `Shows` and `Follows`.
- The near-limit downgrade is reported as caused by pressure also when a free lane was taken
  (`Governance.DowngradeReportedIff`).
- The tier budget of model routing never changes the selected model.
- The order of two usages shows in the charge unless input and output tokens cost the same.
- A threshold left out of an update of alert thresholds is reset to its default.
- A repeated-failure threshold above ten silences escalation for good.

## Model

| member | source | states |
|---|---|---|
| `Contracts.Normalize` | apps/api/src/orchestration.service.ts:340-536 | The five lists of a submission are reduced to their normal form: texts trimmed, incomplete entries dropped, later repetitions of a joined key dropped |
| `Normalisation.NormalFormIs` | apps/api/src/orchestration.service.ts:340-536 | Each list of the normal form holds, in order, what becomes of the entries sent that have their mandatory fields and are the first known by their text: every text without the white space around it, an approval required unless it says otherwise, the other flags only if set, a delay only from zero on |
| `Text.SpacesAre` | apps/api/src/orchestration.service.ts:340-360 | The white space that trimming removes, by number |
| `Text.LowerCharIs` | apps/api/src/storage-routing-policy.service.ts:222 | What lower-casing makes of each character, by number |
| `Contracts.KeepFirstOfEachKey` | apps/api/src/orchestration.service.ts:340-372 | The loop with a set of seen keys keeps exactly the first entry for each key, in order |
| `Contracts.SurvivesIffFirst` | apps/api/src/orchestration.service.ts:340-372 | An entry survives if and only if it stands somewhere in the list with no earlier entry of its key, also when it is sent more than once |
| `Contracts.NormalFormIsIdempotent` | apps/api/src/orchestration.service.ts:340-536 | Sending a normalised contract again changes nothing |
| `Contracts.ColonFreeBindingsAreDroppedOnlyAsRepetitions` | apps/api/src/orchestration.service.ts:340-372 | Bindings without `:` in their keys share a joined key if and only if all three joined fields are equal |
| `Contracts.BindingsCanCollide` | apps/api/src/orchestration.service.ts:340-372 | With `::` inside a key, or a single `:` at its edge, two bindings of different runtimes and systems share a joined key and the second is lost |
| `Contracts.BindingIsAmbiguousIff` | apps/api/src/orchestration.service.ts:340-372 | A binding can be dropped for another one with different fields if and only if `::` occurs at a second pair of places in its text with complete, trimmed fields around them |
| `Contracts.ChildIsAmbiguousIff` | apps/api/src/orchestration.service.ts:374-413 | The same for children |
| `Contracts.ApprovalIsAmbiguousIff` | apps/api/src/orchestration.service.ts:415-449 | The same for approvals |
| `Contracts.EscalationIsAmbiguousIff` | apps/api/src/orchestration.service.ts:451-495 | The same for escalations |
| `Contracts.RollbackIsAmbiguousIff` | apps/api/src/orchestration.service.ts:497-536 | The same for rollbacks |
| `Validation.CheckAcceptsExactlyTheWellFormed` | apps/api/src/orchestration.service.ts:1468-1792 | The ordered checks accept a contract if and only if every reference in it resolves uniquely and gating agrees along it |
| `Validation.PresenceAndRollbackEndChecksAreImplied` | apps/api/src/orchestration.service.ts:1570-1700 | Without the two presence checks and the two rollback-end checks the same contracts are accepted |
| `Validation.RejectionsAreGenuine` | apps/api/src/orchestration.service.ts:1468-1792 | Every refusal names an entry of the contract that really has the defect reported |
| `Validation.FirstDefectDecides` | apps/api/src/orchestration.service.ts:1468-1792 | A refused contract has no defect that an earlier check is for, and a contract with a defect is refused |
| `Validation.WellFormedIffNoDefect` | apps/api/src/orchestration.service.ts:1468-1792 | A contract is well-formed if and only if it has none of the 22 defects |
| `Example.SampleMeetsAssumptions` | apps/api/src/orchestration.service.ts:340-1792 | The assumptions of the theorems about runs can be met by contracts that the service receives: submissions that are their own normal form, with two approvals, a child waiting for each and two free children, compile to sound plans |
| `Topology.ChildHasOneBinding` | apps/api/src/orchestration.service.ts:1794-1838 | Every child of an accepted contract runs on exactly one stored binding, and the two agree on approval |
| `Topology.RunnerShape` | apps/api/src/orchestration.service.ts:1901-1939 | A gated runner waits for exactly the dispatch of its checkpoint; an ungated one waits for nothing; no binding is missing |
| `Topology.ActionShape` | apps/api/src/orchestration.service.ts:2029-2063 | Each runner has one pending action, aimed at its approval dispatch if gated and at itself if not |
| `Topology.RunShape` | apps/api/src/orchestration.service.ts:2082-2112 | Each run starts in the status of its gating, with its own action next and its one approval task |
| `Topology.TransitionShape` | apps/api/src/orchestration.service.ts:2165-2182 | Each action has one transition, with the action, runner and target it belongs to |
| `Topology.QueueShape` | apps/api/src/orchestration.service.ts:2183-2235 | The dispatch queue holds each run once, dispatchable if and only if it is ungated, with its own transition |
| `Topology.ChildAndDispatchLinksAgree` | apps/api/src/orchestration.service.ts:1839-1959 | Children, approval dispatches, runners and linkages list each other exactly along the gating |
| `Topology.RunAndTaskLinksAgree` | apps/api/src/orchestration.service.ts:2082-2132 | A task lists a run if and only if it gates it, and the run lists the task back: a gated run has one task, an ungated run none |
| `Topology.TaskListsGatedRuns` | apps/api/src/orchestration.service.ts:2114-2132 | A task lists nothing but runs it gates |
| `Topology.TaskStarts` | apps/api/src/orchestration.service.ts:2114-2132 | Every task starts pending its required approval, with the dispatch of its checkpoint and the children linked to it |
| `Topology.RunnerAndRollbackLinksAgree` | apps/api/src/orchestration.service.ts:1879-1959 | A rollback and a runner link each other exactly when the child is gated on the checkpoint of the rollback and runs on its target system |
| `Topology.TasksAndRollbacksReachChildren` | apps/api/src/orchestration.service.ts:1879-2132 | No task and no rollback is idle: each reaches a child |
| `Topology.EscalationReachesOneDispatch` | apps/api/src/orchestration.service.ts:1860-1878 | An escalation is routed to exactly one approval dispatch, away from the role that holds it |
| `Plans.PlanIsSoundIff` | apps/api/src/orchestration.service.ts:1424-2400 | Submission gives a sound plan, every list entry in its place and linked as its gating demands, if and only if the contract is well-formed, and a refusal otherwise |
| `Effects.ActivationIsFaithful` | apps/api/src/orchestration.service.ts:2814-2961 | An activation records, about every dispatch, task, run, runner, action and transition, the status its gating demands |
| `Effects.DecisionIsFaithful` | apps/api/src/orchestration.service.ts:3053-3170 | A decision settles its own dispatch and task, frees or cancels every run the task gates with all its parts, and says nothing about anything else |
| `Effects.DispatchIsFaithful` | apps/api/src/orchestration.service.ts:3318-3351 | A dispatch moves the four parts of its own run and says nothing about anything else |
| `Activation.ActivationCounts` | apps/api/src/orchestration.service.ts:2922-2952 | With A approvals, G gated and N ungated children an activation writes 2A + 4N applied, 4G pending and no blocked records |
| `Activation.ActivationBranches` | apps/api/src/orchestration.service.ts:2759-2920 | The branches for a missing binding and an optional review are dead, and the batch is partially applied if and only if some child is ungated |
| `Activation.ActivationRecordsAre` | apps/api/src/orchestration.service.ts:2814-2920 | An activation writes, in order, two records for each approval and four for each child, with these targets, previous and next statuses and mutation statuses |
| `Activation.ActivationIsDistinct` | apps/api/src/orchestration.service.ts:2959-2962 | An activation never records one target twice |
| `Activation.DecisionIsDistinct` | apps/api/src/orchestration.service.ts:3126-3170 | A decision never records one target twice |
| `History.RuntimeHistory.PersistSnapshot` | apps/api/src/orchestration-runtime-history.service.ts:31-65 | A write replaces the slot of its snapshot type and no other; a failed write changes nothing and answers null |
| `History.RuntimeHistory.FindLatestMutations` | apps/api/src/orchestration-runtime-history.service.ts:350-412 | The batch scan with its set of remaining keys answers for every target the first record of the newest snapshot that mentions it, and null after a failed read |
| `History.RuntimeHistory.AnswerFrom` | apps/api/src/orchestration-runtime-history.service.ts:387-402 | The inner loop keeps the batch answer exact after every record |
| `History.RuntimeHistory.FindLatestMutation` | apps/api/src/orchestration-runtime-history.service.ts:413-435 | The single lookup gives the same answer for one target |
| `History.RuntimeHistory.ReadRuntimeHistory` | apps/api/src/orchestration-runtime-history.service.ts:437-503 | The history view returns the slots newest first, the newest of them, and for every target the same answer as the lookups; after a failed read all are empty |
| `History.DefaultWindowsSeeEverything` | apps/api/src/orchestration-runtime-history.service.ts:377-383 | No default window truncates: a plan never has more than three snapshots |
| `History.VisibleIsNewest` | apps/api/src/orchestration-runtime-history.service.ts:375-402 | A target shows what the newest slot that mentions it says |
| `History.NewestSnapshotAloneSuffices` | apps/api/src/orchestration.service.ts:201-218 | A reader of the newest snapshot alone agrees with the others if and only if that snapshot mentions the target or none does |
| `PlanScopes.RowIsFirstAndLast` | apps/api/src/orchestration-runtime-history.service.ts:31-65 | With one plan id used from several scopes, a row has the scope of the first write of its kind and the content of the last |
| `PlanScopes.IsolatedIff` | apps/api/src/orchestration-runtime-history.service.ts:350-383 | A filtered read answers as if each scope had rows of its own if and only if the reader has written no snapshot of that kind for the plan id, or both the first and the last |
| `PlanScopes.SecondScopeIsHidden` | apps/api/src/orchestration-runtime-history.service.ts:31-65 | Of two tenants with one plan id, the first reads the snapshot of the second and the second reads nothing |
| `ScopedRuns.ScopesThatMatchShareTheRun` | apps/api/src/orchestration-runtime-history.service.ts:31-65 | Scopes whose filters let each other through share one store: to each of them the table is the store of the run without scopes, so the theorems about runs hold for them |
| `ScopedRuns.ScopedDispatchFollowsApproval` | apps/api/src/orchestration.service.ts:3263-3287 | Whatever scopes use a plan id, an accepted dispatch of a gated run follows an approval of its task by some scope, the last decision taken under that plan id |
| `ScopedRuns.SharedPlanIsSafeIff` | apps/api/src/orchestration.service.ts:3263-3287 | Of two scopes with one plan id, a gated run of the first is dispatched only on its own approval, on every run of the two, if and only if its filter lets the rows of the second through |
| `ScopedRuns.ForeignApprovalIsUsed` | apps/api/src/orchestration.service.ts:3263-3287 | If it does not, a run that the first scope has only ever rejected is dispatched there after the second activates and approves |
| `Lookups.ReachableStoresAreDistinct` | apps/api/src/orchestration.service.ts:2812-3351 | On every store a run of steps can reach, no snapshot mentions a target twice |
| `Lookups.LookupsAgree` | apps/api/src/orchestration.service.ts:201-328 | On every reachable store the batch lookup, the single lookup, the history view and a backward scan agree, in every window of three or more |
| `Lookups.NewestReaderOfPart` | apps/api/src/orchestration.service.ts:201-218 | On every run, the reader of the newest snapshot alone is right about a run if and only if the last step to speak of it is the newest persisted step |
| `Runtime.OrchestrationRuntime.SubmitExecutionContract` | apps/api/src/orchestration.service.ts:1424-1468 | Every step starts from the plan of the normalised contract |
| `Runtime.OrchestrationRuntime.MaterializeExecutionRuntime` | apps/api/src/orchestration.service.ts:2723-2999 | The method answers as the specification step, and the store stays the outcome of all steps taken |
| `Runtime.OrchestrationRuntime.ApplyApprovalDecision` | apps/api/src/orchestration.service.ts:3012-3247 | The same for a decision, with its four separate reads and its write each able to fail silently |
| `Runtime.OrchestrationRuntime.DispatchExecutionRun` | apps/api/src/orchestration.service.ts:3249-3417 | The same for a dispatch |
| `Runtime.DecisionNeedsOnlyAsked` | apps/api/src/orchestration.service.ts:3075-3124 | The batch of targets a decision asks about covers every status its records use |
| `Traces.SlotsMirrorTheRun` | apps/api/src/orchestration.service.ts:150-180 | After every run each slot holds the report of the last persisted step of its kind, and nothing else |
| `Traces.VisiblePart` | apps/api/src/orchestration.service.ts:201-328 | A run, runner, action or transition shows what the last persisted step to speak of it said |
| `Traces.VisibleEnd` | apps/api/src/orchestration.service.ts:201-328 | An approval task or dispatch shows what the last persisted step to speak of it said |
| `Traces.ActivationShows` | apps/api/src/orchestration.service.ts:2814-2961 | After a persisted activation every task awaits its decision, its dispatch is out, gated runs and their parts wait, and the others are dispatched |
| `Traces.DecisionShows` | apps/api/src/orchestration.service.ts:3053-3151 | After a persisted decision its task and dispatch show approved, rejected or changes requested, and every run the task gates is queued with its parts pending on approval and cancelled with them otherwise |
| `Traces.DispatchShows` | apps/api/src/orchestration.service.ts:3318-3351 | After a persisted dispatch the run and its runner show dispatched, its action and transition completed |
| `Traces.RefusedContractsDoNothing` | apps/api/src/orchestration.service.ts:1468-1792 | A contract that is not well-formed never gets a step accepted, and its store stays empty |
| `Traces.RefusalIsOfTheContract` | apps/api/src/orchestration.service.ts:1468-1792 | Every step of a contract that is not well-formed answers the refusal of the contract |
| `Traces.DecisionAcceptedIff` | apps/api/src/orchestration.service.ts:3026-3051 | A decision on a task is accepted if and only if its read fails or the last persisted decision is not on that task since the last persisted activation |
| `Traces.DispatchAcceptedIff` | apps/api/src/orchestration.service.ts:3263-3287 | A gated run is dispatched if and only if the read succeeds and its approval is the last word on it; an ungated run if and only if the read fails or neither an activation nor its own dispatch is visible |
| `Traces.DecisionRefusalIs` | apps/api/src/orchestration.service.ts:3026-3051 | A refused decision answers that the task is unknown, or the status that was read |
| `Traces.DispatchRefusalIs` | apps/api/src/orchestration.service.ts:3263-3287 | A refused dispatch answers that the run is unknown, or the status that was read, or that an approval is missing |
| `Traces.GatedDispatchFollowsApproval` | apps/api/src/orchestration.service.ts:3263-3287 | On every run with any failures, an accepted dispatch of a gated run follows a persisted approval of its one task, with nothing but dispatches persisted in between, and sees the status that approval left |
| `Traces.DispatchesOfOneRunAreSeparated` | apps/api/src/orchestration.service.ts:3271-3351 | Two accepted dispatches of one run are separated by a dispatch of another run or a new approval of its task |
| `Traces.ActivationEndsUngatedDispatch` | apps/api/src/orchestration.service.ts:2849-2863 | After an activation an ungated run is never accepted for dispatch again |
| `Traces.DecisionsOnOneTaskAreSeparated` | apps/api/src/orchestration.service.ts:3026-3142 | Two accepted decisions on one task are separated by an activation or a decision on another task |
| `Traces.CancellationHolds` | apps/api/src/orchestration.service.ts:3059-3151 | After a persisted reject or request for changes, a linked run is dispatched only after a later persisted approval, through any read failures |
| `Traces.GatedRunCanAlwaysBeReopened` | apps/api/src/orchestration.service.ts:2723-3417 | From every reachable store, activating, approving and dispatching are all accepted: no history locks a gated run out |
| `Traces.DispatchRepeatsAroundAnother` | apps/api/src/orchestration.service.ts:164 | At-most-once dispatch is false: in every plan with two ungated children a run is dispatched twice around the other |
| `Traces.DecisionRepeatsAroundAnother` | apps/api/src/orchestration.service.ts:164 | Deciding once is false: in every plan with two tasks a task is decided twice, with any two decisions, around the other |
| `Traces.DispatchRepeatsIff` | apps/api/src/orchestration.service.ts:3263-3351 | Without activations and failures, a run can be dispatched twice if and only if the plan has a second run, or gates this one and has a second task |
| `Traces.ContractDispatchRepeatsIff` | apps/api/src/orchestration.service.ts:3263-3351 | For a submitted contract: if and only if it has a second child, whatever gates the two |
| `Traces.DecisionRepeatsIff` | apps/api/src/orchestration.service.ts:3026-3142 | Without activations and failures, a task can be decided twice if and only if the plan has a second task |
| `Traces.SmoothDispatchRepeatsIff` | apps/api/src/orchestration.service.ts:3263-3351 | With activations, and still without failures, a run can be dispatched twice if and only if it is gated or the plan has a second run |
| `Traces.SmoothDecisionRepeats` | apps/api/src/orchestration.service.ts:3026-3142 | With an activation in between, every task of every plan is decided twice, with any two decisions |
| `Policies.EmittedPolicy` | apps/api/src/orchestration.service.ts:2365-2375 | Every run is emitted with the status of its gating and with exactly the next statuses of its policy |
| `Policies.AllowedNextIs` | apps/api/src/orchestration.service.ts:2365-2375 | The statuses that may follow each emitted one |
| `Policies.RecordOfEnds` | apps/api/src/orchestration.service.ts:3126-3142 | An accepted decision records the change of its task from awaiting a decision, and of its dispatch from what it read |
| `Policies.RecordOfDecision` | apps/api/src/orchestration.service.ts:3098-3170 | An accepted decision records, for each part of every run it settles, the status its read answered and the decided one; a part nothing is known of counts as activated |
| `Policies.RecordOfDispatch` | apps/api/src/orchestration.service.ts:3318-3351 | An accepted dispatch always records the change of its run from queued, and of the other parts from what it read |
| `Policies.GatedDispatchRecordsTrueStatus` | apps/api/src/orchestration.service.ts:3318-3351 | A dispatch of a gated run that reads everything records the true status of every part, as the approval left it |
| `Policies.DecisionFollowsPolicyIff` | apps/api/src/orchestration.service.ts:3098-3151 | A decision that reads the store records the true status of each run, and follows the policy if and only if the run was not dispatched since the last activation |
| `Policies.DispatchFollowsPolicy` | apps/api/src/orchestration.service.ts:3318-3326 | A dispatch that reads the store records the true status of its run and follows the policy |
| `Policies.OneApprovalFollowsPolicies` | apps/api/src/orchestration.service.ts:2365-2375 | With one approval, on every run with any activations and failed writes, every decision and dispatch that reads the store follows the policies |
| `Policies.TwoApprovalsBreakPolicy` | apps/api/src/orchestration.service.ts:2365-2375 | In every plan with two approvals a dispatched run can be cancelled, which no policy allows |
| `Policy.RoutingPolicyRoundTrip` | apps/api/src/ai-governance-persistence.service.ts:121-160 | Building, storing and reading back a routing policy is the identity and never throws |
| `Policy.BudgetPolicyRoundTrip` | apps/api/src/ai-governance-persistence.service.ts:162-200 | The same for budget policies |
| `Policy.BuiltRoutingIs` | apps/api/src/ai-governance-persistence.service.ts:121-160 | When a routing policy is refused and why, and that a built one keeps what is given and takes these defaults for what is not |
| `Policy.BuiltBudgetIs` | apps/api/src/ai-governance-persistence.service.ts:162-200 | The same for budget policies |
| `Policy.CountIs` | apps/api/src/ai-governance-persistence.service.ts:930-934 | A count is the whole part of a positive number, and zero for anything else |
| `Policy.SlugIs` | apps/api/src/ai-governance-persistence.service.ts:916-928 | A slug is the trimmed text in lower case, and a key falls back to its default when that is empty |
| `Policy.BuiltPoliciesAreSound` | apps/api/src/ai-governance-persistence.service.ts:121-200 | A built policy has its default lane within its maximum, prefers own keys only if allowed, guards the premium lane, and has its hard limit at or above its budget |
| `Policy.RoutingKeyIsInjective` | apps/api/src/ai-governance-persistence.service.ts:707-724 | A routing key without `:` in its parts belongs to no other scope, feature and task, whatever they contain |
| `Policy.BudgetKeyIsInjective` | apps/api/src/ai-governance-persistence.service.ts:707-724 | The same for budget keys |
| `Policy.RoutingKeysCanCollide` | apps/api/src/ai-governance-persistence.service.ts:140 | With `:` allowed, two different policies share a key |
| `Policy.KeyIsAmbiguousIff` | apps/api/src/ai-governance-persistence.service.ts:707-724 | Another routing policy, or another budget policy, shares the key of one if and only if the text can be cut in a second way into the slugs and keys of a workspace or tenant policy of its kind |
| `Tables.WrittenKeysAreDistinct` | apps/api/src/ai-governance-persistence.service.ts:246-322 | Upserting leaves at most one row per key, each of them written |
| `Tables.FoundUnlessOverwritten` | apps/api/src/ai-governance-persistence.service.ts:739-775 | A lookup by columns answers the last write with those columns, exactly unless a later write has taken its key |
| `Governance.DefaultsAre` | apps/api/src/ai-governance-persistence.service.ts:739-820 | The policies that hold where nothing is stored |
| `Governance.RoutingLookupIsLastWrite` | apps/api/src/ai-governance-persistence.service.ts:739-775 | A request without `:` gets the last policy written for its workspace, else for its tenant, whatever else was written |
| `Governance.BudgetLookupIsLastWrite` | apps/api/src/ai-governance-persistence.service.ts:739-775 | The same for budget policies |
| `Governance.SelectedLaneIsCapped` | apps/api/src/ai-governance-persistence.service.ts:593-671 | An unblocked decision selects a lane of rank at most the maximum, a blocked one none, and own keys are used only where allowed |
| `Governance.DecisionFollows` | apps/api/src/ai-governance-persistence.service.ts:531-671 | Every field of the decision on a request, from the effective policies, the usage of the month and what is asked and projected: the lane wanted, capped, lowered one step at the downgrade pressure or replaced by a free one, the pressure, block, approval, credential mode and reported downgrade |
| `Governance.AutoDispatchIff` | apps/api/src/ai-governance-persistence.service.ts:624-663 | Dispatch is automatic if and only if it is unblocked, below the approval cost and not above the approval lane |
| `Governance.OutcomeIs` | apps/api/src/ai-governance-persistence.service.ts:673-691 | The outcome is the gravest of blocked, approval required, downgraded and allowed |
| `Governance.PremiumNeedsApprovalByDefault` | apps/api/src/ai-governance-persistence.service.ts:150-156 | A policy built without its own approval lane never sends anything to the premium lane by itself |
| `Governance.PressureIsMonotone` | apps/api/src/ai-governance-persistence.service.ts:556-589 | Pressure, blocking and the cost approval never fall as used or projected tokens and cost grow |
| `Governance.ProjectionIsMonotone` | apps/api/src/ai-governance-persistence.service.ts:552-556 | More projected tokens in a request are no fewer after normalising |
| `Governance.HardLimitImpliesNearLimit` | apps/api/src/ai-governance-persistence.service.ts:178-185 | A built budget never reaches its hard limit before its near-limit threshold |
| `Governance.NearLimitStageExistsIff` | apps/api/src/ai-governance-persistence.service.ts:556-565 | The near-limit stage exists if and only if a whole number of tokens lies between its threshold and the hard limit |
| `Governance.UsedTokensRollOver` | apps/api/src/ai-governance-persistence.service.ts:535-548 | A later start of the month never counts more usage |
| `Governance.AiGovernance.PersistRoutingPolicy` | apps/api/src/ai-governance-persistence.service.ts:246-286 | Upserts exactly the built row, or fails and changes nothing |
| `Governance.AiGovernance.PersistBudgetPolicy` | apps/api/src/ai-governance-persistence.service.ts:288-322 | The same for budgets |
| `Governance.AiGovernance.PersistUsageEvent` | apps/api/src/ai-governance-persistence.service.ts:324-354 | Appends exactly the built event, or nothing if the record is refused, its unique key is taken or the write fails, so no two events share a key |
| `Governance.BuiltUsageIs` | apps/api/src/ai-governance-persistence.service.ts:202-244 | When a usage event is refused, and what its fields become |
| `Governance.EventKeyIsInjective` | apps/api/src/ai-governance-persistence.service.ts:889-905 | Without `:` in its texts an event shares its key with no other of the same time but those of its scope, feature, task and actor |
| `Governance.TakenAtTheSameTime` | apps/api/src/ai-governance-persistence.service.ts:889-905 | An event is refused for its key only at the time of one already stored |
| `Governance.AiGovernance.BuildGatewayDecision` | apps/api/src/ai-governance-persistence.service.ts:593-671 | The decision fails only for want of a tenant slug: no stored policy can make it throw |
| `Governance.DecisionNamesTheRequest` | apps/api/src/ai-governance-persistence.service.ts:593-645 | Whichever policy row decides, the decision carries the normalised feature and task of its request |
| `Ledger.OvershootIsBounded` | apps/api/src/ai-governance-persistence.service.ts:531-584 | From any ledger, with at most k calls in flight, each projecting at most P and recording at most E above its projection, used plus outstanding tokens of a workspace and feature stay at or below limit - 1 + (k-1)P + kE, or where they started, through any interleaving, other traffic, refused records and change of month |
| `Ledger.HonestCallsOvershootByOthers` | apps/api/src/orchestration.controller.ts:973-1098 | With calls that record no more than they project, they stay below limit + (k-1)P, or at or below where they started |
| `Ledger.OneAtATimeStaysBelowLimit` | apps/api/src/orchestration.controller.ts:973-1098 | From a ledger below the hard limit, one call at a time never reaches it |
| `Ledger.OvershootIsReached` | apps/api/src/orchestration.controller.ts:973-1098 | The bound is reached for every k, P and E by k calls asked together and recorded one after another, each under its own key |
| `DispatchController.Controller.DispatchExecutionRuntimeRun` | apps/api/src/orchestration.controller.ts:973-1150 | A block or a hold changes neither runtime nor ledger; an approval lifts a hold but never a block; otherwise the runtime takes one dispatch step and the ledger gains exactly the usage of an accepted one, unless that write is refused; for the ledger the request is an ask followed by a record or an abandonment, whatever other calls are in flight |
| `DispatchController.Controller.DispatchAndRecord` | apps/api/src/orchestration.controller.ts:1063-1098 | A refused dispatch records no usage; an accepted one records it, or is left unrecorded if the write fails or the key is taken |
| `DispatchController.UsageIsOfTheCall` | apps/api/src/orchestration.controller.ts:1079-1098 | The usage of a request is the event that the ledger writes for the call it asked about, of the tokens it reports, or of the projected ones if it reports no input |
| `DispatchController.EndpointDecisionFollows` | apps/api/src/orchestration.controller.ts:973-988 | The decision on a dispatch request, from the lane, mode, eligibility, tokens and cost that the request itself gives |
| `DispatchController.DecisionIsTheGate` | apps/api/src/ai-governance-persistence.service.ts:531-589 | The block of the endpoint is the gate of the ledger protocol |
| `DispatchController.EndpointIsLedgerSteps` | apps/api/src/orchestration.controller.ts:973-1098 | Every request is, for the ledger, the ask alone if blocked, the record of its own call if its usage is written, and an abandonment otherwise |
| `Requests.MoveIsLedgerStep` | apps/api/src/orchestration.controller.ts:973-1098 | With requests that overlap, each arrival and each end is one step of the ledger |
| `Requests.PassesIffNotStopped` | apps/api/src/orchestration.controller.ts:989-1062 | A request goes on to the runtime exactly when its decision neither fails, blocks nor holds it |
| `Requests.OverlappingRequestsAreBounded` | apps/api/src/orchestration.controller.ts:973-1098 | However requests overlap, with at most k pending for a workspace and feature, each projecting at most P tokens and reporting at most E more, used plus outstanding tokens stay at or below limit - 1 + (k-1)P + kE, or where they started |
| `Requests.OverlappingHonestRequests` | apps/api/src/orchestration.controller.ts:973-1098 | With requests that report no more than they project, usage stays below limit + (k-1)P, or at or below where it started |
| `DispatchController.RecordedRequestStaysBelowLimit` | apps/api/src/ai-governance-persistence.service.ts:531-584 | One recorded request that reports no more than it projected leaves the month below an enforced limit |
| `TokenQuota.AcceptedStaysWithinLimit` | apps/api/src/ai-token-governance.service.ts:161-173 | An accepted estimate never projects past the hard limit of the package |
| `TokenQuota.EstimateSplitsTokens` | apps/api/src/ai-token-governance.service.ts:178-199 | Covered and charged tokens make up the usage, and the charge is the step of the tokens beyond the included ones |
| `TokenQuota.CountsAre` | apps/api/src/ai-token-governance.service.ts:154-199 | What is covered, charged and left of the included tokens, for managed and own keys |
| `TokenQuota.ManagedChargeIs` | apps/api/src/ai-token-governance.service.ts:175-199 | With managed credentials the share of the provider cost beyond the included tokens is charged |
| `TokenQuota.ManagedMarkupIs` | apps/api/src/ai-token-governance.service.ts:187-196 | That charge is marked up, and nothing else is added |
| `TokenQuota.OwnKeyChargeIs` | apps/api/src/ai-token-governance.service.ts:182-195 | With own keys the platform fee on the whole provider cost is charged, and nothing else |
| `TokenQuota.RawCostIs` | apps/api/src/ai-token-governance.service.ts:175-177 | The provider cost of a usage |
| `TokenQuota.UsageIsRefusedIff` | apps/api/src/ai-token-governance.service.ts:133-173 | When the policies refuse a usage, by the first of four reasons |
| `TokenQuota.UsageIsEstimated` | apps/api/src/ai-token-governance.service.ts:120-199 | An estimate needs a package and a model, takes managed credentials by default, and is refused exactly where its policies are |
| `TokenQuota.BuiltPackageIs` | apps/api/src/ai-token-governance.service.ts:85-118 | When a package is refused, and what its fields become |
| `TokenQuota.BuiltModelIs` | apps/api/src/ai-token-governance.service.ts:53-83 | When a model is refused, and what its fields become |
| `TokenQuota.ListIs` | apps/api/src/ai-token-governance.service.ts:414-422 | A list of texts keeps the first of equal ones, trimmed and in order, and no blank one |
| `TokenQuota.ModesAre` | apps/api/src/ai-token-governance.service.ts:548-556 | The credential modes of a model: managed if none are listed, else the known ones that are |
| `TokenQuota.OveragesTelescope` | apps/api/src/ai-token-governance.service.ts:154-199 | Over any month of usages the charged tokens depend only on where it starts and ends |
| `TokenQuota.SplittingDoesNotChangeOverage` | apps/api/src/ai-token-governance.service.ts:154-199 | However the same tokens are split, the same tokens are covered and charged |
| `TokenQuota.MonthStaysWithinLimit` | apps/api/src/ai-token-governance.service.ts:161-173 | A month of accepted usages is within the hard limit at every point |
| `TokenQuota.ChargesTelescopeIff` | apps/api/src/ai-token-governance.service.ts:175-190 | The provider charge of every month depends only on its tokens if and only if input and output tokens cost the same |
| `Sorting.SortIsSortedPermutation` | apps/api/src/ai-token-governance.service.ts:343-356 | The sort is a sorted permutation |
| `Sorting.SortIsStable` | apps/api/src/ai-token-governance.service.ts:343-356 | Elements that compare equal keep their order |
| `ModelRouting.SelectionIgnoresTierBudget` | apps/api/src/ai-token-governance.service.ts:320-358 | The selected model is the first least candidate by tier, cost and key over all permitted candidates, whatever the tier budget |
| `ModelRouting.TierIs` | apps/api/src/ai-token-governance.service.ts:492-519 | A model is heavy by its key or its cost, light by its key or cost if it is not heavy |
| `ModelRouting.PreviewIs` | apps/api/src/ai-token-governance.service.ts:307-361 | The model selected is the first best one offered, by weight, cost and key; the fallback is the best of another key among those the signals afford, or among all if they afford none; a model that is not heavy goes to the batch lane in the background |
| `ModelRouting.LightModelIsSelected` | apps/api/src/ai-token-governance.service.ts:332-358 | A light model is selected whenever one is permitted in the chosen mode |
| `ModelRouting.NoModelNeeded` | apps/api/src/ai-token-governance.service.ts:228-306 | Deterministic and cached requests need no model, and a service without models refuses |
| `ModelRouting.SignalsDoNotChangeSelection` | apps/api/src/ai-token-governance.service.ts:307-358 | Requests that differ only in risk, quality, latency, cost class and pressure get the same model and credential mode, or the same refusal |
| `ModelRouting.FallbackLosesOnlyToBudget` | apps/api/src/ai-token-governance.service.ts:332-361 | The fallback is the best other model, unless the budget left some model and that best other exceeds it |
| `ModelRouting.FallbackDroppedIff` | apps/api/src/ai-token-governance.service.ts:332-361 | The fallback is dropped if and only if the budget lies between the selected model and the best other one |
| `ModelRouting.RoutedModelsArePermitted` | apps/api/src/ai-token-governance.service.ts:307-361 | Selected and fallback models are given ones that the package and the credential mode permit, with different keys |
| `ModelRouting.RoutingFailsIff` | apps/api/src/ai-token-governance.service.ts:307-341 | Routing fails if and only if no permitted model allows the chosen credential mode |
| `ModelRouting.ModeCanMissTheOnlyPermittedModel` | apps/api/src/ai-token-governance.service.ts:424-449 | The mode is chosen before the model list of the package is applied, so routing can fail although the other mode would find a model |
| `Health.HealthRecord.Append` | apps/api/src/connection-instances.service.ts:2007-2016 | The stored timeline stays the last ten entries of the full log |
| `Health.HealthRecord.ActivateConnection` | apps/api/src/connection-instances.service.ts:402-540 | Logs the activation and makes the connection active |
| `Health.HealthRecord.VerifyConnection` | apps/api/src/connection-instances.service.ts:542-714 | Passes if and only if all four checks do, logs the result, and never deactivates the connection |
| `Health.HealthRecord.UpdateAlertThresholds` | apps/api/src/connection-instances.service.ts:855-1000 | Stores resolved thresholds that resolve to themselves, or refuses an empty update and changes nothing |
| `Health.HealthRecord.SuppressHealthAlert` | apps/api/src/connection-instances.service.ts:1119-1248 | Suppresses for the given time or an hour, or refuses a duration that is not positive |
| `Health.HealthRecord.UnsuppressHealthAlert` | apps/api/src/connection-instances.service.ts:1250-1374 | Ends the suppression |
| `Health.HealthRecord.Annotate` | apps/api/src/connection-instances.service.ts:1003-1880 | An acknowledgement, note, assignment, notification or follow-up state is logged and replaces the last of its own kind only, with non-empty texts; a refused one changes nothing |
| `Health.CalculateRecoveryStreak` | apps/api/src/connection-instances.service.ts:2018-2033 | The loop counts the longest healthy suffix |
| `Health.StreakOfLog` | apps/api/src/connection-instances.service.ts:2018-2033 | The streak of the timeline is the streak of the full log cut off at ten |
| `Health.PartialUpdateKeepsFieldIff` | apps/api/src/connection-instances.service.ts:931-935 | A threshold left out of an update keeps its value if and only if it is the default it is reset to |
| `Health.ThresholdsAre` | apps/api/src/connection-instances.service.ts:2170-2206 | A resolved threshold is the number given if that is whole and large enough, and the default otherwise |
| `Health.AnnotationIs` | apps/api/src/connection-instances.service.ts:1003-1880 | What each kind of annotation demands, is logged as, stores and replaces |
| `Health.MillisecondsAre` | apps/api/src/connection-instances.service.ts:1119-1248 | A suppression lasts the minutes given, or sixty |
| `Health.HealthRecord.GetConnectionHealthTimeline` | apps/api/src/connection-instances.service.ts:784-849 | On every reachable record escalation implies alert, and agrees with the other two services up to suppression; streak and cooldown window are those of the log |
| `Health.CooldownOpenIff` | apps/api/src/connection-instances.service.ts:2035-2071 | The cooldown window is open if and only if one of the last ten steps is a failure younger than the cooldown, so ten later steps close it |
| `Health.RulesAgree` | apps/api/src/integration-control-plane.service.ts:419-458 | The escalation rules of the three services agree up to suppression on the end of any log with resolved thresholds |
| `Health.EscalatesIff` | apps/api/src/integration-diagnostics.service.ts:348-387 | Escalation in terms of the log: the last step failed and enough of the last ten did |
| `Health.AlertsIff` | apps/api/src/connection-instances.service.ts:784-828 | The alert in terms of the log: unsuppressed, the last step failed and enough of the last ten did |
| `Health.EscalationPossibleIff` | apps/api/src/connection-instances.service.ts:2170-2206 | Some history escalates if and only if the threshold is at most ten |
| `StoragePaths.AcceptedIff` | apps/api/src/storage-routing-policy.service.ts:191-238 | The write guard accepts exactly the root and the paths of valid segments under the root and a slash |
| `StorageRequests.RequestIs` | apps/api/src/storage-routing-policy.service.ts:191-238 | The answer to a request, read as segments with slashes of either kind between and around them: the root if there are none, else the segments with the root in front once, or the refusal of the first segment that is not valid |
| `StorageRequests.EveryRequestReads` | apps/api/src/storage-routing-policy.service.ts:205-219 | Every request can be read so |
| `StorageRequests.RefusedIff` | apps/api/src/storage-routing-policy.service.ts:205-238 | A request is refused if and only if one of its segments is not valid |
| `StorageRequests.ValidIff` | apps/api/src/storage-routing-policy.service.ts:221-238 | A segment is valid if and only if its trimmed lower-case text is a regular name |
| `StorageRequests.SamePathIff` | apps/api/src/storage-routing-policy.service.ts:191-219 | Two requests get one path if and only if their segments agree up to the root in front, so no two documents are merged |
| `StorageRequests.TopologyIs` | apps/api/src/storage-routing-policy.service.ts:167-189 | The root of a scope, in full, and when there is none |
| `StoragePaths.ScopesAreDisjoint` | apps/api/src/storage-routing-policy.service.ts:167-203 | Accepted paths of two different scopes are never the same |
| `StoragePaths.RootsAreIncomparable` | apps/api/src/storage-routing-policy.service.ts:167-181 | No root is a segment-prefix of another |
| `StoragePaths.AcceptedPathsDoNotClimb` | apps/api/src/storage-routing-policy.service.ts:205-238 | No accepted path has an empty, `.` or `..` segment, with or without white space around it |
| `StoragePaths.GuardIsIdempotentIff` | apps/api/src/storage-routing-policy.service.ts:191-219 | Guarding an accepted path again changes it if and only if it is the bare root or ends in white space |
| `StoragePaths.BuiltScopeIsNormal` | apps/api/src/storage-routing-policy.service.ts:167-175 | Every built root is made of regular names |

## Left out

Assumptions the results rest on:

- The contract of a plan does not change between its steps, and a store holds one plan used from one scope. A contract
  changed under a running plan is not modelled; `PlanScopes` and `ScopedRuns` say what the filters by tenant and
  workspace leave of the results when several scopes use one plan id with one contract.
- The clock is strictly increasing, so no two snapshots of a plan have the same time.
- A request's reads and its write are one step. Two requests of one plan that interleave between read and write are
  not modelled; the interleaving of gateway decisions and usage records is, in `Ledger` and `Requests`.
- The budget in force for a workspace and feature does not change during a run of `Ledger` or `Requests`. Usage of a
  tenant-wide scope, which sums all workspaces, has no such bound and is not stated.
- Costs and thresholds are exact reals; rounding of floating-point numbers is not modelled, nor are dates too large to
  represent.
- Lower-casing of slugs and policy keys is that of ASCII letters and the Kelvin sign, which is exact for the path guard
  because it accepts no other letters. The comparison of model keys is any total preorder given as a parameter.
- `Ledger` and `Governance` take the text of a time and the start of a month as parameters: the time can be read off the
  end of a key, and months do not go backwards.

Parts of the code without a counterpart:

- Topology.RunAndTaskLinksAgree: like the other link lemmas, uses keys as datatypes. The plan id, which starts every
  text key, and the fixed words between the positions are not part of the model.
- Contract drafts, projected records and batches, state-machine texts, counts of the contract summary, and the
  transition policies of actions and tasks: derived lists that no later step reads.
- The table of runtime events, except for the outcome events of the dispatch endpoint. The name of the event recorded
  with a snapshot stands for its event records.
- History.RuntimeHistory.ReadRuntimeHistory: without the list of runtime events that the history view also returns.
- Governance.AiGovernance.PersistUsageEvent: without provider, model, credential mode, lane, counters and source of a usage
  event, which neither its key nor any decision reads; the used cost, which is reported but decides nothing.
- Listing policies and summarising the ledger.
- TokenQuota.ChargesTelescopeIff: without the currency and the names in an estimate.
- ModelRouting.SignalsDoNotChangeSelection: without the reasoning texts and echoed signals of a preview.
- Effective storage policies and their modes, which decide whether a write is allowed at all before its path is.
- Actor context, roles, audit writes, HTTP and database wiring, messages and logging.

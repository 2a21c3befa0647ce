# DataRescue, verified

DataRescue notices a schema change in a data asset, raises an incident, gathers the semantic context,
assesses candidate repairs, opens a draft pull request for the best one, and closes the incident only
after the deployed repair was verified. Everything it knows about a case is in an append-only event log.

This project models that workflow and proves its central promises in Dafny 4.11. `dafny verify
dfyconfig.toml` checks all of it.

## How it is laid out

| files | what they model |
|---|---|
| `Model`, `StateMachine` | the stored values, the typed event payloads, the transition table |
| `Log`, `Projection`, `Store` | the event table and its queries, the fold to a case, the `EventStore` class, the guard |
| `Canonical` | canonical events, dedup keys, when two deliveries are one |
| `Recovery`, `Deployment` | the workflow and the post-deploy verification as functions of a checkpoint and of what the external systems answer |
| `AdvanceSteps`, `Allocation`, `WorkflowService` | the `WorkflowService` class as it runs: advance, ingest, verify, reset - each method proved to do what those functions say |
| `CrashResume`, `CaseHistory` | what holds of one case over every run of crashes, restarts and verifications |
| `AdvanceMeaning`, `IngestMeaning` | what one advance and one ingest come to, in terms of the rows there are and of what the external systems answer |
| `CaseLogs` | whole logs: many cases, interleaved calls, kills and resets |
| `SharedCase` | one case driven by several processes at once, each on what it read earlier |
| `CaseIdentity`, `IngestRace`, `RaceWitness` | case ids as digest prefixes, any number of processes racing for them, and a race that ends badly |
| `Commits`, `GitHost`, `DraftPr` | the commit graph, the shared repository, the draft-PR protocol |
| `Policy`, `SqlSafety` | the policy arithmetic, the dbt patch |
| `Metadata`, `SeedRules`, `SeedContext`, `SeedMeaning`, `Seeder` | the metadata upserts of the seeder, and the seeded catalog field by field |
| `EventStream` | the resumable event stream |
| `RepoMemory` | the incremental memory index |

Conventions. External systems are functions from what they are asked to what they answer (or that they
raise). SHA-256 is a function to 64 hexadecimal digits, injective where a statement says so. Floats are
reals. Generated event ids never collide. A payload is typed: the event type is the constructor. The
clock is an arbitrary integer. Every lemma switches automatic induction off, so that each induction is
the one written down.

## What turned out

Most promises hold as stated. These hold under a condition; where it says exactly, or iff, both directions are
proved:

- In a case that can go on, the next event is recorded exactly when it is explained: by what the case holds, by
  what the external systems answer, and by what it says - the candidate chosen, the model with its one slice
  swapped, the reasons in order. (`AdvanceMeaning.DecidedExactly`, `AdvanceMeaning.RunAdvanced`,
  `AdvanceMeaning.OneAdvance`)
- A draft whose creation took effect is found again however the creation was reported: while nobody else acts, a
  call succeeds exactly when its reading commands, and the commit and the push of a new branch, work and the
  creation takes effect. (`DraftPr.GitHubDraftPRAdapter.CreateDraft`)
- A crash right after a failed PR attempt shows in the log (one more attempt); a crash anywhere else does
  not, up to how a containment is worded: a resumed run words the candidates it reads back differently
  from those it assessed itself. So the record is the same exactly when no kill comes right after a failed
  attempt and, in a run that ends by refusing all its candidates, the evidence writer raises either on
  both wordings of that refusal - the uninterrupted call's and the last call's - or on neither.
  (`CrashResume.CrashesDoNotShow`, `CrashResume.CrashShowsExactlyWhen`) A writer that raises on one of them
  makes the resumed run end FAILED instead of CONTAINED (`CrashResume.WordingCanShow`, with a writer made
  up for it); the client the repository ships, `packages/datahub/mcp.py:210-261`, turns the failures it
  knows into a FAILED result without looking at the text.
- The look-up and the probes of `_available_case_id` are separate reads. Its RuntimeError is reachable, for
  every key, but only if the process's own key is recorded between its look-up and its last probe; on an
  atomic read it is not reachable at all. (`RaceWitness.AllocationCanFail`,
  `IngestRace.LastProbeFailsIfRaced`, `IngestRace.AtomicAllocationSucceeds`)
- The worker lock is the lock of one process. With one process per case, every log keeps its four promises
  (`CaseLogs.ReachedKeepsPromises`). Two processes that drive one case at once, each on what it read earlier,
  can record a stage twice (`SharedCase.StageCanRepeat`), and a failed evidence write-back can land after the
  succeeded one and before the draft (`SharedCase.WritebackCanTurn`). What survives is that every draft rests on
  a succeeded incident, context, generation, selection and write-back recorded before it, and every resolution
  on a verification that passed (`SharedCase.SharedKeepsEvidence`).
- A commit the adapter makes passes its own ownership check exactly when the case id has no line break and
  does not end in white space, which `git commit -m` strips, and the patch has no carriage return.
  (`Commits.CreatedIsOwned`)
- The seeder documents that it keeps unknown metadata, but the context document's information is written
  with `update`: unknown fields inside its nested maps are lost. It keeps everything unknown exactly when
  those maps hold nothing extra or nothing had to be written. (`SeedContext.SeedKeepsUnknown`,
  `SeedRules.InfoCanLoseFields`)
- An incremental sync equals a rebuild exactly when the rows it keeps are the rows it would make; a row
  written by an older version of the indexer stays. With one indexer since the latest rebuild it always does.
  (`RepoMemory.SyncEqualsRebuild`, `RepoMemory.IndexEqualsRebuild`)

## Model

| member | source | states |
|---|---|---|
| StateMachine.PathsNeverGoBack | apps/api/state_machine.py:10-57 | Along any path of the transition table no stage is revisited, and a terminal state holds to the end. |
| StateMachine.TransitionsMean | apps/api/state_machine.py:10-57 | A case starts in DETECTED; then it stays, moves one stage on, or, unless terminal, fails or is contained - and nothing else is valid. |
| Canonical.SortIsCanonical | apps/api/workflow.py:958-971 | Sorting fields by a total order gives equal results exactly for equal multisets. |
| Canonical.CaseFoldMeans | apps/api/workflow.py:958-971 | Two texts fold alike iff they are equal character by character up to the case of letters. |
| Canonical.TextLeMeans | apps/api/workflow.py:958-971 | The text order: a prefix first, else by the first character that differs. |
| Canonical.SameSchemaIsMultisetEquality | packages/datahub/actions.py:312-316 | `_same_schema` holds exactly when the field lists agree as multisets. |
| Canonical.EqualKeysMeanSameDrift | apps/api/workflow.py:958-971 | Two events share a dedup key iff their URNs agree ignoring case and their before and after fields agree as multisets. |
| Canonical.SamePayloadMeaning | apps/api/store.py:425-454 | What a redelivered detection payload may differ in: when it was observed, the case of the asset, the order of fields - and nothing else. |
| Canonical.SamePayloadIsEquivalence | apps/api/store.py:425-454 | `_same_event_payload` is an equivalence on detections and implies equal dedup keys. |
| Log.ReachableIsValid | apps/api/store.py:123-324 | Every table that appends and resets can produce satisfies what each row owes to the rows before it. |
| Log.ScopesAgree | apps/api/store.py:103-121 | In every reachable log, rows past the latest reset by sequence are exactly the rows stamped with its scope. |
| Log.CurrentStateIsLast | apps/api/store.py:112-121 | The state check, by sequence, sees the last state by stamp, at every prefix. |
| Log.StatesFormPath | apps/api/store.py:162-177 | In every scope a case's states are a path of the transition table, with repeats, from DETECTED. |
| Log.CurrentScopeMeans | apps/api/store.py:103-110 | The scope is the largest sequence number of a reset. |
| Log.SelectMeans | apps/api/store.py:344-357 | A query selects the rows of the case past the floor, all of them, in order. |
| Log.AppendMeans | apps/api/store.py:123-242 | On a valid log: a row of the scope with the id answers as duplicate, iff it records the same case, state, key and content up to observation time, letter case and field order, else as conflict; then one with the key; else the row is added iff the state may move. |
| Projection.ProjectCase | apps/api/store.py:457-515 | The imperative fold computes the projection, or nothing for a stream that does not begin with a detection. |
| Projection.FoldMeaning | apps/api/store.py:457-515 | Each projected field - incident, its URN, context, proposals, selection, patch, write-back, draft, deployed commit, resolution, reasons - is the last one recorded, or the detection's; candidates keep the ids and order of their assessment. |
| Projection.FoldCandidates | apps/api/store.py:457-515 | The candidates are those of exactly the assessing events, in order, each as assessed or as last selected since. |
| Projection.SnapshotMeans | apps/api/store.py:457-515 | A snapshot has the id, the first and last times and the rows of its case, and its fields are the last ones recorded. |
| Projection.ReplaceSelectsOne | apps/api/store.py:419-422 | Replacing an assessment keeps ids and order and leaves exactly one selected entry. |
| Projection.ProjectedStateIsCurrent | apps/api/store.py:457-476 | The projected state is the state the append checks against. |
| Store.EventStore.Append | apps/api/store.py:123-242 | One transaction: it ends as the rows there are require - duplicate id, conflict, duplicate key, second detection, forbidden transition, else one more row. |
| Store.EventStore.Reset | apps/api/store.py:298-324 | The log grows; on a valid log the sequence returned is the new scope, and no case has events in it. |
| Store.EventStore.GetCase | apps/api/store.py:391-395 | The projection of the case's events in the current scope. |
| Store.EventStore.ListCases | apps/api/store.py:397-402 | All current cases, each once, as they project, latest first; it raises iff one cannot be projected. |
| Store.EventStore.BlockedAsset | apps/api/store.py:410-416 | Answers with an unresolved case of the asset iff there is one. |
| Store.AppendExtendsStream | apps/api/store.py:178-197 | An append extends the stream of its own case by its event and changes no other stream. |
| Store.ResetEmptiesStreams | apps/api/store.py:298-324 | After a reset no case has events. |
| Store.GuardPersists | apps/api/store.py:404-416 | Once a case of an asset is detected, until a reset it blocks the asset exactly as long as its state is not RESOLVED. |
| Policy.AcceptanceBoundsData | packages/evidence/executor.py:427-440 | Acceptance of reconciled metrics under the default thresholds, in terms of the data: 1/200 on totals, 1/1000 on rows, 999/1000 joined - exactly. |
| Policy.AcceptanceOnSmallBaselines | packages/policy/engine.py:49-77 | A zero baseline total forces a zero current one; under 1000 baseline rows the counts must agree and nothing be missing from the join. |
| Policy.DeltaBound | packages/evidence/executor.py:664-667 | A percentage delta is within a threshold iff the absolute difference is, zero baselines included. |
| Policy.EvaluationMeans | packages/policy/engine.py:27-105 | For any thresholds: when evidence is accepted, the seven checks by name, and the reasons as exactly the failed ones in order. |
| Policy.CheckMeans | packages/policy/engine.py:36-98 | What each single check passes on. |
| SqlSafety.PatchIsExact | packages/remediation/sql_safety.py:74-95 | A rendered patch has the new default once and the old one nowhere, is unchanged by rendering again, and differs in one slice whose undoing restores the input. |
| SqlSafety.PatchSucceedsExactlyWhen | packages/remediation/sql_safety.py:8-95 | Rendering succeeds iff the column has 1 to 128 letters, digits and underscores, no digit first, and is not the old one, the alias is the one allowed, and the two defaults together occur once. |
| SqlSafety.BracketedDisjoint | packages/remediation/sql_safety.py:84-95 | The two patterns can overlap neither themselves nor each other. |
| Recovery.NextMakesProgress | apps/api/workflow.py:284-524 | Each step finishes a stage or assesses one more proposal, so a run ends. |
| Recovery.RunPrefix | apps/api/workflow.py:284-524 | At every proper prefix of a run, the next event is the one decided from the checkpoint read there. |
| WorkflowService.WorkflowService.Record | apps/api/store.py:123-242 | Appending a stage's event succeeds iff the transition is valid, extends this case's stream by it and touches no other. |
| WorkflowService.WorkflowService.Contain | apps/api/workflow.py:871-888 | Writes the refusal report with at most 20 reasons and records the containment, or raises. |
| WorkflowService.WorkflowService.ConnectedIntegrationReady | apps/api/workflow.py:890-907 | Ready iff replay mode or success; otherwise the case is failed with the integration. |
| WorkflowService.WorkflowService.EnsureIncident | apps/api/workflow.py:289-308 | The incident stage: what is left to run afterwards is what was left before. |
| WorkflowService.WorkflowService.EnsureContext | apps/api/workflow.py:310-333 | The context stage, with both containments. |
| WorkflowService.WorkflowService.EnsureProposals | apps/api/workflow.py:335-368 | The candidate stage, with its failures, containment and the distinct-id check. |
| WorkflowService.WorkflowService.AssessCandidates | apps/api/workflow.py:370-438 | The assessment loop: assesses what is missing, in order, collects reasons and eligible candidates, or contains. |
| WorkflowService.WorkflowService.EnsurePatch | apps/api/workflow.py:440-470 | The selection and patch stage. |
| WorkflowService.WorkflowService.EnsureWriteback | apps/api/workflow.py:472-489 | The evidence stage. |
| WorkflowService.WorkflowService.Publish | apps/api/workflow.py:495-524 | The draft stage: reuse, open, or record the attempt. |
| WorkflowService.WorkflowService.Advance | apps/api/workflow.py:284-524 | One advance leaves exactly the stream of a run from its checkpoint, less the failure event when it raises, while other processes step on other cases between its stages; if none does, it touches no other case. |
| WorkflowService.WorkflowService.AdvanceSafely | apps/api/workflow.py:209-241 | With the raise recorded, the stream is exactly the run: each event it adds is the one due where it stands, until the case leaves the resumable states or a draft could not be opened; every case stays good, whatever happens on other cases meanwhile; the process then owns the case. |
| WorkflowService.WorkflowService.VerifyDeployment | apps/api/workflow.py:536-658 | By what is answered: nothing and a raise without PR_OPEN, a selection or evidence; else the deployment, then CONTAINED iff the policy refuses, else verified and RESOLVED iff the incident is not live or both report and resolution of its URN succeeded, else FAILED for the one that did not; it raises iff an asked adapter does. |
| WorkflowService.WorkflowService.DeploymentEvidence | apps/api/workflow.py:544-581 | Evidence counts as recomputed exactly in postgres mode, which takes a live executor; for a live incident nothing else is answered. |
| WorkflowService.WorkflowService.AvailableCaseId | apps/api/workflow.py:261-276 | With others' steps between the reads: the key's own case or a width its attempt has earned; it fails only if the key appeared meanwhile. |
| WorkflowService.WorkflowService.ClaimCaseId | apps/api/workflow.py:163-199 | The retry loop: it never re-raises on its eighth attempt; a claim leaves one detection as the whole stream. |
| WorkflowService.WorkflowService.Ingest | apps/api/workflow.py:125-203 | The whole ingest while other processes detect, advance and verify cases - any case before each look-up, probe, id check and append of a detection, other cases between the stages of its advance: it keeps every case good. If nobody interferes: which case or narrowest free id it answers with, when it is a conflict, that a redelivery differing only in observation time, letter case or field order gets its recorded case, and how the case is advanced. |
| WorkflowService.WorkflowService.Reset | apps/api/workflow.py:278-282 | A reset opens a scope in which no case exists, so all cases are good. |
| CrashResume.ResumeReachesSameEnd | apps/api/workflow.py:284-524 | Killed after any prefix not ending in PR_ATTEMPTED and run again, a run reaches the end of the uninterrupted one, up to a containment's wording. |
| CrashResume.CrashesDoNotShow | apps/api/workflow.py:284-524 | Any number of kills: the final log is the uninterrupted one up to a containment's wording, and the same record iff no kill follows a failed PR attempt and the writer raises alike on the two wordings of a refusal. |
| CrashResume.RetryRepeatsAttempt | apps/api/workflow.py:495-524 | After a failed PR attempt a new run attempts it once more and records the same event. |
| CrashResume.CrashShowsExactlyWhen | apps/api/workflow.py:387-524 | The same iff for one crash, whatever the adapters answer. |
| CrashResume.WordingCanShow | apps/api/workflow.py:387-393 | A concrete case where the wording of reasons on resume changes how the case ends. |
| CaseHistory.HistoryKeepsInvariant | apps/api/workflow.py:284-658 | Every prefix of every history of advances, kills and verifications, whatever the adapters answer, keeps the case invariant. |
| CaseHistory.StagesAtMostOnce | apps/api/workflow.py:289-524 | In a stream with the case invariant no stage is recorded twice and no proposal is assessed twice. |
| CaseHistory.EvidencePrecedesDraft | apps/api/workflow.py:305-365 | In connected mode such a stream in PR_OPEN has succeeded incident, generation and write-back, a live complete context and a selection that passed the policy's checks on its execution, written back before the draft. |
| CaseHistory.EvidencePrecedesResolution | apps/api/workflow.py:536-658 | A RESOLVED stream ends with draft, deployment, verification and resolution, in this order; the verification is of the deployed commit, and its checks are the policy's on the execution it records, all passed; for a live incident recomputed and succeeded. |
| CaseHistory.SelectionIsBest | apps/api/workflow.py:440-470 | From PATCH_READY on, every proposal has a candidate with the policy's checks on its execution; one is selected, it passed them all, none that passed ranks before it, and the patch has the new default of its column once, the old one nowhere, and its own digest. |
| AdvanceMeaning.DecidedExactly | apps/api/workflow.py:284-524 | In a case that can go on a step is decided on iff it is explained by what the case holds, what the adapters answer and what the event says. |
| AdvanceMeaning.RunAdvanced | apps/api/workflow.py:284-524 | Every event a run adds is explained where it stands, and the run goes on until the case leaves the resumable states or an attempt to open the draft failed. |
| AdvanceMeaning.OneAdvance | apps/api/workflow.py:284-524 | From a stream that keeps the invariant there is exactly one way to advance in which every event added is explained where it stands and the advance goes on as long as it can, and it is the run |
| AdvanceMeaning.ChoiceIsFirst | apps/api/workflow.py:443-451 | The candidate chosen is the first proposed of those that no other that passed comes before by total variance, row variance and source field; the proposal rendered is its own. |
| AdvanceMeaning.ReasonsExplained | apps/api/workflow.py:387-440 | A refusal names the first twenty of all failed checks, by proposal and check in order, each once, worded by whether this call assessed the candidate. |
| Deployment.VerifyMeans | apps/api/workflow.py:536-658 | What a verification records and whether it raises, in terms of the adapters' answers. |
| IngestMeaning.QuietMeans | apps/api/workflow.py:125-203 | What an undisturbed ingest comes to, in terms of the rows there were. |
| IngestMeaning.AvailableMeans | apps/api/workflow.py:261-276 | A delivery belongs to the case of the row with its key; without one, to the narrowest id spelled by its digest that no row of the scope holds. |
| IngestMeaning.RedeliveryIsAnswered | apps/api/workflow.py:130-203 | A redelivery of a recorded detection, whatever was observed when, in whichever letter case and field order, is answered with its case, deduplicated. |
| CaseHistory.EvidenceBoundsData | packages/policy/engine.py:49-77 | Under the default policy and reconciled metrics, a selected candidate ran on data within the bounds, and so did the deployment of a RESOLVED case. |
| CaseHistory.HistoryPromises | apps/api/workflow.py:284-658 | Every history of a case keeps these four promises. |
| CaseLogs.AdvanceTakesSteps | apps/api/workflow.py:284-524 | Wherever an advance stands in its run, its next append is a step of the log model; so the model covers advances cut anywhere. |
| CaseLogs.VerificationTakesSteps | apps/api/workflow.py:536-658 | The same for a verification. |
| CaseLogs.StepKeepsCases | apps/api/workflow.py:125-658 | One append of any ingest, advance or verification keeps the log legal and every case in it good. |
| CaseLogs.ReachedIsGood | apps/api/workflow.py:125-658 | Every log that any interleaving of appends and resets reaches, over any number of cases, each append decided on its case as it is, is legal, and all its cases keep the invariant. |
| CaseLogs.ReachedKeepsPromises | apps/api/workflow.py:284-658 | So every case in every such log keeps the four promises on stages, draft, resolution and selection. |
| SharedCase.SharedIsGrounded | apps/api/workflow.py:205-658 | Whatever any number of calls on one case read and append, in any order, every event rests on events recorded before it and took a valid transition. |
| SharedCase.SharedKeepsEvidence | apps/api/workflow.py:284-658 | With any number of processes on one case, in connected mode every draft rests on succeeded evidence and a patched model recorded before it in order, and every resolution on a verification by the same call that passed the policy. |
| SharedCase.StageCanRepeat | apps/api/workflow.py:289-302 | Two processes that both read a case without an incident both record one. |
| SharedCase.WritebackCanTurn | apps/api/workflow.py:472-489 | From every case about to write its evidence, two processes can leave it in PR_OPEN showing a failed write-back, in connected mode. |
| CaseHistory.BestIsLeast | apps/api/workflow.py:443-450 | The chosen candidate is least by total variance, row variance and source field. |
| CaseHistory.ChoiceIgnoresProposalOrder | apps/api/workflow.py:367-450 | The chosen source field does not depend on the order of the proposals. |
| CaseIdentity.FullWidthIsOwn | apps/api/workflow.py:261-276 | The id of full width, the last one probed after the short id of width 8, can only be held by the key it spells. |
| CaseIdentity.OneKeyOneCase | apps/api/store.py:136-177 | In each scope detections pair keys with cases one to one, and every row of a case follows its one detection. |
| CaseIdentity.CasesAreStarted | apps/api/store.py:163-173 | Every case that exists projects, from a single detection at the front of its stream, so listing and guarding never meet a stream they cannot project. |
| CaseIdentity.GuardHoldsUntilResolved | apps/api/store.py:404-416 | Until a reset the guard blocks an asset exactly as long as some case detected for it is not RESOLVED. |
| IngestRace.RaceKeepsInvariant | apps/api/workflow.py:125-203 | Every interleaving of any number of processes, with kills and resets, keeps what each process relies on. |
| IngestRace.RefusedWidens | apps/api/workflow.py:191-199 | A refused append leaves the next attempt a wider floor; the eighth attempt is never refused. |
| IngestRace.EightAttemptsSuffice | apps/api/workflow.py:163-199 | No process ever runs out of its eight attempts, and allocation fails only for a process whose own key was recorded after its look-up. |
| IngestRace.LastProbeFailsIfRaced | apps/api/workflow.py:266-276 | The last probe fails exactly when the process's own key holds the full-width id by then. |
| RaceWitness.AllocationCanFail | apps/api/workflow.py:261-276 | For every key there is a race of two processes on an empty log in which a process that looked the key up finds no id. |
| IngestRace.AtomicAllocationSucceeds | apps/api/workflow.py:261-276 | On an atomic read allocation always finds the key's case or the narrowest free id. |
| IngestRace.EqualKeysShareCase | apps/api/workflow.py:130-203 | Deliveries answered in one scope share a case iff they share a key. |
| IngestRace.RacesKeepOneCasePerKey | apps/api/store.py:136-197 | Under any interleaving keys and cases stay paired and every case projects. |
| Commits.SingleParentRange | packages/remediation/github.py:524-529 | With one parent the range check cannot fail: a commit is not in its parent's history. |
| Commits.OwnedMeans | packages/remediation/github.py:462-544 | A commit is owned iff its message claims the case and it only puts the patch at the path, on one parent in base history. |
| Commits.OwnershipSurvivesFastForward | packages/remediation/github.py:511-524 | Ownership survives every fast-forward of the base. |
| Commits.CreatedLines | packages/remediation/github.py:681-687 | The adapter's message, cleaned up by git and shown again, is the five lines it was made of and an empty one. |
| Commits.CreatedTrailers | packages/remediation/github.py:471-486 | Each trailer is read back once, with the value it was written with. |
| Commits.CreatedIsOwned | packages/remediation/github.py:186-212 | A created commit is accepted, also after fast-forwards, iff the case id is on one line that does not end in white space and the patch has no carriage return. |
| GitHost.AtMostOneAlways | packages/remediation/github.py:147-225 | At every moment of a lawful past at most one pull request is open on the branch. |
| GitHost.Remote.Push | packages/remediation/github.py:213-219 | A push without force, which may fail before or after it takes effect. |
| GitHost.Remote.CreatePull | packages/remediation/github.py:252-271 | Opening a draft, not idempotent, which may fail before or after it takes effect. |
| DraftPr.GitHubDraftPRAdapter.FindExistingPr | packages/remediation/github.py:299-385 | None means nothing is open; a URL means the only open pull request is a same-repository draft whose head is the branch head and owned. On a tidy branch that nobody else touches it answers iff its commands work. |
| DraftPr.GitHubDraftPRAdapter.CreateOrReconcilePr | packages/remediation/github.py:244-297 | Success only on a confirming re-read; while nobody else acts, on a pushed branch, it succeeds iff the creation took effect - however it was reported - and the reads after it work. |
| DraftPr.GitHubDraftPRAdapter.PublishBranch | packages/remediation/github.py:178-242 | A new branch gets an owned head; an existing one stays where it is. |
| DraftPr.GitHubDraftPRAdapter.Inspect | packages/remediation/github.py:112-163 | The reading half changes nothing and raises on anything unexpected. |
| DraftPr.GitHubDraftPRAdapter.CreateRealDraft | packages/remediation/github.py:112-242 | One attempt keeps the branch tidy under friendly changes; while nobody else acts it succeeds iff the commands that matter work and a creation takes effect. |
| DraftPr.GitHubDraftPRAdapter.CreateDraft | packages/remediation/github.py:38-84 | SUCCEEDED only for the one open same-repository draft whose head is the branch head, claims the case and only applies the patch; while nobody else acts, on a branch that can be finished, iff the commands that matter work and a creation takes effect; no slot stays taken unless the clean-up failed. |
| DraftPr.GitHubDraftPRAdapter.CreateDrafts | packages/remediation/github.py:38-225 | Over any sequence of calls for any cases, whatever others do in between: no command of the adapter loses a branch or a commit of one; at most one pull request is open on a branch at any time; branches that others let be stand unmoved. While others only move the base forward and close drafts, a branch once pushed stays finishable, and a call for it during which nobody else acts succeeds iff the commands that matter work and a creation takes effect. |
| DraftPr.PushedCanFinish | packages/remediation/github.py:147-163 | Once pushed, a branch can be finished however far the base moves forward and whatever drafts others close. |
| Metadata.MergeRequired | scripts/seed_datahub_context.py:776-788 | The key-by-key overlay computes the merge. |
| Metadata.MergeContains | scripts/seed_datahub_context.py:763-788 | What is merged in is contained. |
| Metadata.MergeFixes | scripts/seed_datahub_context.py:763-788 | Merging null-free requirements changes nothing iff they are contained already. |
| Metadata.MergeKeepsUnknown | scripts/seed_datahub_context.py:776-788 | A merge keeps every unknown field at every map level. |
| SeedRules.UpdateSatisfies | scripts/seed_datahub_context.py:361-627 | Whatever an aspect was, once updated it needs nothing more. |
| SeedRules.UpdateKeepsUnknown | scripts/seed_datahub_context.py:361-627 | Every update but the context document's keeps all unknown fields. |
| SeedRules.InfoKeepsUnknown | scripts/seed_datahub_context.py:531-560 | The context document's update keeps all unknown fields iff its nested maps hold nothing extra. |
| SeedRules.InfoCanLoseFields | scripts/seed_datahub_context.py:531-560 | A concrete document that loses a nested field. |
| SeedRules.UpdateKeepsEntries | scripts/seed_datahub_context.py:434-464 | Every list entry keeps its place, and all but the rule's own keep their value. |
| SeedContext.SeedSatisfies | scripts/seed_datahub_context.py:204-260 | After a seed, whatever the catalog was, everything required is there. |
| SeedContext.SeedConverges | scripts/seed_datahub_context.py:204-260 | A second seed at any later time writes nothing. |
| SeedContext.SeedIsIdle | scripts/seed_datahub_context.py:204-260 | A catalog that needs nothing is left exactly as it is. |
| SeedContext.SeedKeepsOthers | scripts/seed_datahub_context.py:204-260 | Aspects without a rule and all entities stay. |
| SeedContext.SeedKeepsUnknown | scripts/seed_datahub_context.py:204-260 | A whole seed keeps unknown fields and other list entries, with the exact exception of the context document. |
| SeedContext.SeedVerifies | scripts/seed_datahub_context.py:263-329 | Every check that verification makes of what is seeded holds after a seed. |
| SeedContext.SeedIsValid | scripts/seed_datahub_context.py:640-674 | Datasets and lineage are what they were. |
| SeedMeaning.SeedHolds | scripts/seed_datahub_context.py:204-260 | After a seed the term, owner, dataset and document hold the stated fields and entries; a seed writes nothing iff they did before. |
| SeedMeaning.SeedMakesFolder | scripts/seed_datahub_context.py:501-528 | A missing shared folder is made - title, text, published, a Folder, shown in the global context - and an existing one keeps every aspect. |
| SeedMeaning.ListBecomes | scripts/seed_datahub_context.py:598-627 | The list upsert field by field: the first entry with the identity gets the expected fields, or one is appended; the list is stamped; all else stays. |
| SeedMeaning.ResourceBecomes | scripts/seed_datahub_context.py:434-464 | The documentation entry field by field, its creation stamp kept if it has one. |
| SeedMeaning.InfoBecomes | scripts/seed_datahub_context.py:531-560 | The context document field by field: what is replaced, defaulted, stamped, linked and left. |
| Seeder.EnsureObjectAspect | scripts/seed_datahub_context.py:361-373 | The object upsert. |
| Seeder.EnsureDescription | scripts/seed_datahub_context.py:376-391 | The description upsert. |
| Seeder.EnsureListAspect | scripts/seed_datahub_context.py:598-627 | The list upsert: merge into the first entry with the identity, or append. |
| Seeder.EnsureDocument | scripts/seed_datahub_context.py:434-464 | The documentation upsert with its stamps. |
| Seeder.EnsureSharedDocumentParent | scripts/seed_datahub_context.py:501-528 | The shared folder, left alone if it exists. |
| Seeder.EnsureContextDocumentInfo | scripts/seed_datahub_context.py:531-560 | The context document upsert. |
| Seeder.VerifyContext | scripts/seed_datahub_context.py:263-329 | No errors iff every check holds, spelled out in fields and entries. |
| Seeder.SeedCatalog | scripts/seed_datahub_context.py:204-260 | Refuses without the five datasets and their lineage and writes nothing; otherwise everything required is there afterwards, the list of writes is empty iff it was before, a missing folder is made, and it succeeds iff the search shows the document. |
| EventStream.DecimalParses | apps/api/main.py:236-238 | The id line written for an event parses back to its sequence number. |
| EventStream.CursorRoundTrip | apps/api/main.py:241-254 | A client that sends the id it last received resumes right after it. |
| EventStream.CursorSelectsRest | apps/api/store.py:344-357 | After the first n events of a case, its cursor selects exactly the rest. |
| EventStream.ReceivedExactlyOnce | apps/api/main.py:128-153 | For any interleaving of appends, polls, losses and reconnects the client has a prefix of the case's events, each once, and all of them exactly when a poll finds nothing more. |
| EventStream.Stream | apps/api/main.py:134-153 | One connection: its polls see the log after every batch appended before them; following, it ends at the first tick at which the client is gone, or at tick 4799; after each poll it has sent exactly what the case had after its cursor, with a keep-alive for every twenty ticks. |
| RepoMemory.SyncEqualsRebuild | scripts/repo_memory.py:153-216 | A sync equals a rebuild iff the rows it keeps are the rows it would make. |
| RepoMemory.StaleRowSurvives | scripts/repo_memory.py:168-173 | A row made by an older indexer is kept as long as its text is the same. |
| RepoMemory.IndexEqualsRebuild | scripts/repo_memory.py:153-216 | After any history of syncs and rebuilds of any namespaces, a call leaves the namespace as reindexing its notes would, if it rebuilds or if only its indexer ran there since the latest rebuild. |
| RepoMemory.SecondSyncKeeps | scripts/repo_memory.py:168-206 | An immediate second sync changes nothing. |
| RepoMemory.SyncLeaves | scripts/repo_memory.py:153-206 | Every note keeps its up-to-date row or gets one with the title and tags, digest, excerpt and embedding of its text; other rows of the namespace go; other namespaces stay. |
| RepoMemory.SyncTells | scripts/repo_memory.py:162-216 | The counts: notes without a row, with an outdated one, with a current one, and rows without a note. |
| RepoMemory.MemoryIndex.Sync | scripts/repo_memory.py:153-216 | The sync, row by row and with its counts, other namespaces untouched, nothing changed when a note is refused. |

## Left out

- CaseLogs.ReachedKeepsPromises: each append is decided on its case as it is; `SharedCase` says what is left of the promises when several processes drive one case on older readings.
- Other processes acting during a verification, or on a case while another process is between two stages of it: the first is covered by the steps of `CaseLogs`, the second by `SharedCase`, neither inside the methods of the class.
- A reset between the reads and appends of one ingest, which the worker lock rules out within a process.
- Progress of a case left in DEPLOYED by a crash: it is not resumable in the source, and nothing is claimed for it.
- The semantic verdict of a post-deploy execution is kept with its event here; the source stores its metrics, build and checks.
- SQLite: a transaction is one atomic step, so the handler of the integrity error, which only a concurrent writer past BEGIN IMMEDIATE could reach, has no counterpart.
- Ids, texts and time: messages, rationales and observed strings are one opaque `detail`; case folding is ASCII only; the clock only orders the case list.
- The network clients for MCP, GraphQL and candidate generation, dbt and PostgreSQL: oracles that answer or raise.
- The git verification behind live post-deploy evidence: one oracle that answers with evidence or raises.
- Local files: PR bundles, evidence files, manifests and worktree contents; a worktree is a slot that is free or taken.
- Commands inside the ownership check read local, immutable objects and are taken not to fail on their own; git is taken to clean up messages as it does by default.
- URL, repository-name and branch-name parsing: the allowed repository is a flag, the branch slug a function.
- Metadata list entries that are not maps, on which the seeder raises, read as entries without fields; Python's equality of booleans and numbers is not modelled.
- `int()` accepts more spellings of a number (signs, underscores, other digits) than the header parser here, which takes plain digits.
- The search index behind `get_related_documents` is an oracle; seeding is proved to meet every other check.
- `embed`, `tokenize` and `parse_note` are functions of text and source; the vector arithmetic inside them is not modelled.
- The React console, HTTP routing, command-line parsing and shell scripts.
- CaseHistory.EvidencePrecedesDraft: speaks of connected mode; in replay mode the source asks for no live evidence.
- CrashResume.CrashesDoNotShow: leaves the payload of a containment open, whose reasons the source words anew on resume.

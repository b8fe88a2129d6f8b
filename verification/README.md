# GRC audit swarm: verified model

A Dafny model of an audit application that plans, tests and reports in three
AI-drafted phases, each closed by a human gate. The project proves what the
gates, the hash-chained approval trail and the append-only reviewer decisions
guarantee over every run, what the per-session locks guarantee under every
interleaving, that the saved trail of a run always verifies, and what five
smaller components compute.

Check everything with `dafny verify dfyconfig.toml`.

## How the model is built

| module | models |
|---|---|
| `Options`, `Text` | absent values; Python's `strip`, `split`, `join` and `str` of an integer |
| `Schema` | the AI-drafted artifacts and their validators |
| `Machine` | the lifecycle table and the `AuditStateMachine` object |
| `Records` | decisions, trail entries, generation runs, and what digests cover |
| `Trail`, `TrailVerify`, `TrailProofs`, `TrailVerdicts` | the hash-chained trail: append, verify, what the chain determines, and which verdict each tampering gets |
| `Anchors` | the separately stored trail anchor |
| `Policy` | segregation of duties and decision policy |
| `Decisions`, `DecisionProofs`, `GateDecisions` | reviewer decisions: validation, supersession, the effective view, what a gate still needs |
| `Flow` | the audit flow as a step function, one function per operation |
| `AuditFlowObject` | the `AuditFlow` object whose methods update its fields, each proved equal to its step function |
| `FlowInvariant`, `FlowTrail`, `FlowResults`, `FlowHistory` | what every operation keeps; theorems about every reachable state and every completed run |
| `FlowDuties` | who is barred from what, however the name is spelt |
| `FlowDecisions`, `FlowGates` | what a gate's decisions amount to; when an approval is accepted, and what stands afterwards |
| `FlowEffects`, `FlowEntries` | when a decision is accepted, what it stores and what it changes; the entry each act leaves |
| `GatesOpen` | recording the missing decisions opens a gate |
| `FlowExport` | the effective view of a reachable state, as the gates and the export read it |
| `FlowStore` | saving the trail of a run with its anchor; flow operations as steps of the interleaving model |
| `Sessions`, `SessionProofs` | requests, phase threads, delete and restart on one session as interleaved steps; what they keep |
| `SessionSaves`, `SessionPhases` | what saving, restarting, deleting and starting a phase achieve |
| `S3Access` | the public-access verdict of a bucket |
| `Redaction`, `Vault` | the evidence vault |
| `Oscal`, `OscalPeople`, `OscalBuild`, `OscalExport` | the OSCAL Assessment Results export: document and identifiers, parties and roles, risks and findings, the whole document |
| `Limiter` | the failed-attempt limiter |
| `Sorting`, `Prowler` | the capped findings summary and the capped read |

Assumptions, stated as hypotheses where they are used:

- A digest is an injective function of algorithm, key and canonical data, and
  never the genesis value or the empty string (`GoodDigest`). A list (the
  legacy seal) and an object (an entry) have different canonical forms.
- Name-based UUIDs (section 4.3 of RFC 4122) are injective in the name
  (`NamesApart`); random UUIDs are inputs that must be fresh.
- Case folding maps no character to nothing (`FoldKeeps`). Only the converse,
  that nobody but the bearer of a name is taken for them, also needs a fold that
  takes characters to characters and only the blank to the blank (`FoldOnce`).
- Encryption is invertible; JSON text with sorted keys is injective, where an
  object is a map from names to values, and escapes NUL (`Vault.Sound`).
- Control and deficiency ids of crew outputs are distinct, trimmed and
  comma-free (`IdsGood`); the code looks subjects up by first match, strips
  ids and joins them with commas.
- The trail key does not change during a run. `record_preparer` is called
  first, as the API does.

A crew run, the set of quotes the vault verifies at a moment, the clock and
new ids are inputs of the operations. `Run.output` and the parameters marked
`ghost` are the model's own: they name the artifact a run left behind.

Where the code does not do what a comment or a reader expects, the code is
modelled, with an input and the exact condition:

- `build_prowler_summary` says its cap "can only ever cut lower-priority
  lines". That holds inside a check, not over all checks: `Prowler.CapCutsFail`
  gives an input, `Prowler.CutsFailIff` the condition, in the counts of the
  checks in their order.
- `collect_securityhub_findings` reports truncation although nothing was left
  out: `Prowler.EmptyPageMisreports` gives an input, `Prowler.MisreportedIff`
  the condition, an empty last page after exactly `max` findings.
- `FailureLimiter` with no allowed failure raises instead of answering, exactly
  when nothing is recent (`Limiter.RaisesIff`).
- Two requests checked before either failure is recorded pass the limit
  (`Limiter.RacePassesLimit`); waiting as told is then enough exactly when the
  `max`-th young failure from the end is old by that time
  (`Limiter.WaitSufficesIff`).
- A comma in a control id makes an override accept a control nobody named
  (`FlowResults.CommaMisreads`); the accepted controls are the named ones
  exactly when no named id holds a comma (`FlowResults.OverrideReadsBackIff`).
- A NUL in a vault payload can imitate metadata: `Vault.NulIsAmbiguous` gives
  the input, `Vault.SameDigestText` says exactly when two records share their
  digest text.

## Model

| member | source | states |
|---|---|---|
| Machine.TableIsNamed | src/swarm/state/machine.py:21-70 | the transition table allows a step exactly when a named transition makes it |
| Machine.GatesInOrder | src/swarm/state/machine.py:21-70 | a step passes at most one gate, only by approving it from its waiting status, and never goes back |
| Machine.AuditStateMachine.Transition | src/swarm/state/machine.py:117-125 | a transition happens exactly when the guard allows it; otherwise the status stays |
| Schema.ValidateFinding | src/swarm/schema.py:459-494 | a finding is accepted exactly when its missing fields can be filled in consistently, and the accepted one is that completion |
| Schema.ValidationIsConsistency | src/swarm/schema.py:459-494 | a finding spelled out in full is accepted, unchanged, exactly when it is consistent |
| Schema.ResultMeans | src/swarm/schema.py:459-494 | the result says "exception" exactly when a procedure found the control wanting or exceptions were counted, and "not tested" exactly when neither procedure was performed |
| Schema.CheckScale | src/swarm/schema.py:617-634 | rejected exactly when the given scale, or every scale, does not fit; a kept scale fits every classification; unknown exactly when none is given and nothing is classified as a deficiency |
| Text.SplitOfJoin | src/swarm/audit_flow.py:775-794 | splitting undoes joining exactly when no part holds the separator |
| Trail.AppendEntry | src/swarm/trail.py:135-155 | the stored trail is the old one with the new entry linked to it (or to the legacy seal) and sealed |
| TrailVerify.ScanApprovals | src/swarm/trail.py:436-483 | the latest approval of each artifact, with the decision ids recorded before it |
| TrailVerify.ChangedSince | src/swarm/trail.py:436-483 | the gates whose sealed artifact or decisions no longer match, in order |
| TrailVerify.DecisionsDiffer | src/swarm/trail.py:486-513 | stored decisions that do not match their entry, then entries whose decision is gone |
| TrailVerify.CheckChain | src/swarm/trail.py:282-331 | the first broken entry; whether all entries are keyed and the last one is plain |
| TrailVerify.VerifyTrail | src/swarm/trail.py:224-433 | every status of the verification, for legacy, plain, keyed and anchored trails |
| TrailVerdicts.StatusMeans | src/swarm/trail.py:224-433 | for every status about the chain the exact input it stands for: no chained entry, a lost key, a bad entry, a cut, another chain than the anchored one, a plain last digest under a key |
| TrailVerdicts.VerdictFields | src/swarm/trail.py:224-433 | the counts, the anchored flag and the head hash beside the status |
| TrailVerdicts.KeyedMeans | src/swarm/trail.py:361-433 | "keyed" is claimed exactly of an accepted chain whose entries are all keyed |
| TrailVerdicts.EditIsReported | src/swarm/trail.py:282-331 | an edited entry of a good chain is `broken` at its own index |
| TrailVerdicts.LegacyEditIsReported | src/swarm/trail.py:282-331 | an edited entry from before the chain breaks the seal at the first chained entry |
| TrailVerdicts.RemovalIsReported | src/swarm/trail.py:282-331 | an entry removed from inside a good chain is `broken` where the next entry no longer links |
| TrailVerdicts.CutIsReported | src/swarm/trail.py:333-359 | a good chain cut back below its anchor is `truncated` at its end |
| TrailVerdicts.RewriteIsReported | src/swarm/trail.py:333-359 | another good chain in place of the anchored one is `anchor_mismatch` |
| TrailVerdicts.LostKeyIsReported | src/swarm/trail.py:282-331 | a keyed chain without its key is `key_unavailable`, and nothing is called broken |
| TrailProofs.AppendKeepsChain | src/swarm/trail.py:135-155 | appending keeps a good chain good, whatever legacy or plain entries precede |
| TrailProofs.AgreeUpTo | src/swarm/trail.py:282-331 | two verified trails that share a hash anywhere agree, position included, up to there |
| TrailProofs.HeadDeterminesTrail | src/swarm/trail.py:282-331 | two verified trails with the same head hash are equal: entries, legacy prefix and length |
| TrailProofs.VerdictOnChain | src/swarm/trail.py:282-359 | the chain is accepted exactly when every entry links and the anchored entry matches |
| TrailProofs.AnchorPinsTrail | src/swarm/trail.py:333-359 | a trail is accepted against an anchor exactly when it is a good chain that extends the anchored trail |
| TrailProofs.KeyedVerdictNeedsKey | src/swarm/trail.py:361-375 | with a key set, `ok` means that the last entry carries a digest made with that key |
| Anchors.AnchorStore.SaveTrailAnchor | src/swarm/session_manager.py:230-297 | the anchor map and the answer after one call |
| Anchors.AnchorsMoveForward | src/swarm/session_manager.py:230-297 | over any calls on arbitrary trails, a later anchored trail properly extends every earlier one |
| Anchors.StoredAnchorPinsHistory | src/swarm/session_manager.py:230-297 | a trail accepted against the stored anchor extends every trail ever anchored |
| Anchors.CurrentMeans | src/swarm/session_manager.py:230-297 | the answer is yes exactly when the store then holds the count and head of this trail |
| Anchors.AnchoredIffExtends | src/swarm/session_manager.py:230-297 | after any calls, a good chain is anchored exactly when it extends every trail anchored for the session |
| Policy.FindGateApprover | src/swarm/review_policy.py:60-67 | the human of the most recent approval of a gate |
| Policy.DifferentPeople | src/swarm/review_policy.py:48-57 | for a name that is not blank, not being the same person is a difference of normalised identities |
| Policy.SpellingsAreSame | src/swarm/review_policy.py:48-57 | a name with other white space between and around its words, or in other case, names the same person |
| Policy.SamePersonIff | src/swarm/review_policy.py:48-57 | with a fold that takes characters to characters, two names are the same person exactly when their words agree letter by letter under the fold |
| FlowDuties.BarredIff | src/swarm/review_policy.py:70-101 | in every reachable state every respelling of the preparer, and at Gate 3 of the Gate 2 approver, is barred; with such a fold nobody else is |
| FlowDuties.PreparerIsRefused | src/swarm/audit_flow.py:754-760 | whatever the spelling, no review operation of the preparer is accepted or changes anything |
| FlowDuties.SecondApproverIsRefused | src/swarm/review_policy.py:70-101 | whatever the spelling, the Gate 2 approver cannot approve Gate 3 |
| Decisions.DecisionStates | src/swarm/review_decisions.py:167-181 | every decision id is active, superseded or stale, as its corrections and draft digest say |
| Decisions.ActiveBySlot | src/swarm/review_decisions.py:188-197 | for every slot the latest active decision, if there is one |
| DecisionProofs.AcceptedChallenge | src/swarm/review_decisions.py:245-265 | an accepted challenge is about a finding of the current papers and only withdraws a positive conclusion |
| Decisions.ClassifyFor | src/swarm/review_decisions.py:268-294 | an accepted classification is on the known scale and above the Material Weakness floor |
| DecisionProofs.AcceptedShape | src/swarm/review_decisions.py:362-546 | an accepted decision is named, allowed in the status and for the person, on the current draft, and corrects the slot's active decision if there is one |
| DecisionProofs.AcceptKeepsChains | src/swarm/review_decisions.py:499-530 | each acceptance keeps one chain of corrections per slot and draft digest |
| DecisionProofs.OneActivePerSlot | src/swarm/review_decisions.py:167-197 | at most one decision of a slot is active, also after a re-draft to an earlier text |
| DecisionProofs.ActiveAfterAccept | src/swarm/review_decisions.py:167-197 | an acceptance makes its decision the active one of its slot and changes no other slot |
| DecisionProofs.AcceptedIsSound | src/swarm/review_decisions.py:245-294 | on any draft with the digest it names, an accepted challenge only withdraws a positive conclusion and a classification fits the scale |
| DecisionProofs.WithdrawalKeepsException | src/swarm/review_decisions.py:230-265 | withdrawing a conclusion neither adds nor removes an exception |
| DecisionProofs.OverlayStaysValid | src/swarm/audit_flow.py:1389-1422 | the overlaid papers satisfy the schema's consistency rule although the validator is bypassed |
| DecisionProofs.OverlayIsTheView | src/swarm/audit_flow.py:1389-1422 | the overlaid papers show exactly the conclusions of record |
| DecisionProofs.ClassificationsOfRecord | src/swarm/review_decisions.py:715-757 | every classification of record is on the known scale and above the floor |
| GateDecisions.MissingExactly | src/swarm/review_decisions.py:760-837 | the missing list holds exactly the decisions the gate wants whose slot has no active decision |
| GateDecisions.MissingOnce | src/swarm/review_decisions.py:760-837 | no decision is asked for twice |
| GateDecisions.MinimalAccepted | evals/pipeline.py:349-369 | the minimal request for a missing decision is accepted from anybody who is not a preparer |
| GateDecisions.OneLessOutstanding | src/swarm/review_decisions.py:760-837 | recording one missing decision leaves exactly the other ones missing |
| AuditFlowObject.UnverifiedFindings | src/swarm/evidence.py:495-520 | the controls whose evidence does not pass, in order |
| AuditFlowObject.AcceptedControls | src/swarm/audit_flow.py:775-794 | the controls named by the latest Fieldwork override of exactly these papers |
| AuditFlowObject.DecisionsOfPhase | src/swarm/audit_flow.py:723-724 | the decisions of one phase, in order |
| AuditFlowObject.FindLatestRun | src/swarm/audit_flow.py:558-562 | the latest run of a phase |
| AuditFlowObject.AuditFlow.CheckSod | src/swarm/audit_flow.py:754-760 | barred exactly when some preparer, or an excluded gate's approver, is the same person |
| AuditFlowObject.AuditFlow.EvidenceGap | src/swarm/audit_flow.py:796-806 | the controls that neither verify now nor were accepted |
| AuditFlowObject.AuditFlow.SetPreparer | src/swarm/audit_flow.py:591-625 | the preparer is set once, trimmed, and recorded as a trail entry |
| AuditFlowObject.AuditFlow.StartPlanning | src/swarm/audit_flow.py:876-880 | planning starts only from the scope status |
| AuditFlowObject.AuditFlow.ApproveGate | src/swarm/audit_flow.py:808-874 | the whole new state of an approval, and which check refuses first; a refusal changes nothing |
| FlowDecisions.NothingMissingIff | src/swarm/review_decisions.py:760-837 | nothing is missing exactly when, at Gate 2, a sign-off or challenge stands for every exception and every finding on a key control and, at Gate 3, a classification for every deficiency, a scope limitation for every key control untested of record, and an engagement conclusion |
| FlowDecisions.ReviewIsRequired | src/swarm/review_decisions.py:663-712 | the view asks for a review of exactly the draft's exceptions and the findings on key controls |
| FlowGates.ApprovalAcceptedIff | src/swarm/audit_flow.py:808-874 | in every reachable state an approval is accepted exactly when a named person who is not barred approves the draft waiting at the gate, at Gate 2 every quote stands or was accepted, and the required decisions stand |
| FlowGates.RequiredDecisionsStand | src/swarm/audit_flow.py:726-738 | in every reachable state that requires decisions, the decisions of every gate passed stand about the drafts as they are |
| AuditFlowObject.AuditFlow.RetryPhase | src/swarm/audit_flow.py:930-966 | the whole new state of a retry |
| AuditFlowObject.AuditFlow.ReturnPhase | src/swarm/audit_flow.py:968-1015 | the whole new state of a return for rework |
| AuditFlowObject.AuditFlow.OverrideRejection | src/swarm/audit_flow.py:1017-1081 | the whole new state of a QA override |
| AuditFlowObject.AuditFlow.Decide | src/swarm/audit_flow.py:662-721 | an accepted decision is stored and stamped, each with its own clock reading; a refused one changes nothing |
| FlowEffects.DecisionAcceptedIff | src/swarm/review_decisions.py:362-546 | a request is accepted exactly when the person may decide it in this status, its subject exists, its values are allowed and it corrects what it must |
| FlowEffects.AcceptedAsAsked | src/swarm/review_decisions.py:362-546 | an accepted decision says what was asked, by whom and why, about the current draft of the open phase |
| FlowEffects.AcceptedKeepsValues | src/swarm/review_decisions.py:245-359 | an accepted decision keeps the values asked for, with the owner, date, rebuttal and floor its type demands |
| FlowEffects.ChallengeAllowedIff | src/swarm/review_decisions.py:245-265 | a challenge is allowed exactly when each conclusion it asks for is the draft's or withdraws a positive one to "not tested", and then it carries them |
| FlowEffects.CorrectionIff | src/swarm/review_decisions.py:499-530 | a slot is entered exactly by naming its active decision, or nothing when there is none |
| FlowEffects.ChallengeTakesEffect | src/swarm/audit_flow.py:1389-1422 | after an accepted challenge the papers for reporting show the asked conclusions on that finding, the draft's where nothing was asked, and the result that follows; every other finding is as before |
| FlowEffects.SignOffRestoresDraft | src/swarm/audit_flow.py:1389-1422 | after an accepted sign-off the finding is shown as drafted |
| FlowEffects.ClassificationTakesEffect | src/swarm/review_decisions.py:715-757 | after an accepted classification the deficiency is classified as asked, and no other deficiency moves |
| AuditFlowObject.AuditFlow.Attempts | src/swarm/audit_flow.py:1230-1270 | the retry loop ends as one attempt, and a second only after a rejection |
| AuditFlowObject.AuditFlow.RunCrew | src/swarm/audit_flow.py:1196-1328 | the whole new state of a phase run: crash, rejection, unusable output or a draft at the gate |
| AuditFlowObject.AuditFlow.GeneratePhase | src/swarm/audit_flow.py:1453-1594 | the whole new state of a phase, with the status and input checks before the crew |
| FlowEntries.EveryActIsRecorded | src/swarm/audit_flow.py:591-1081 | every accepted operation adds one entry: who acted, with which identity, when, and what was done to which state |
| FlowEntries.RefusedChangesNothing | src/swarm/audit_flow.py:591-1081 | a refused operation leaves the audit as it was |
| FlowResults.RunEndsBy | src/swarm/audit_flow.py:1196-1328 | when a phase run ends at its gate, rejected or in error, after how many attempts, and with which draft and run record |
| FlowInvariant.DoKeepsInv | src/swarm/audit_flow.py:591-1328 | every operation keeps the invariant on trail, seals, runs, duties, overrides, drafts and decisions |
| FlowInvariant.RunKeeps | src/swarm/audit_flow.py:376-1594 | every state of every run satisfies the invariant |
| FlowInvariant.ApprovalSeals | src/swarm/audit_flow.py:843-867 | an approval seals the current draft and the decisions of its phase so far |
| FlowInvariant.DecisionRecorded | src/swarm/audit_flow.py:703-721 | after a decision the trail still records all stored decisions with their digests |
| FlowTrail.DecisionsMatchIff | src/swarm/trail.py:486-513 | stored decisions match the trail exactly when they are the decisions of the run |
| FlowTrail.SealsMatchIff | src/swarm/trail.py:436-483 | the seals match exactly when every approved draft is as it was approved |
| FlowTrail.VerifiesIffUntouched | src/swarm/trail.py:224-433 | a reachable trail verifies `ok` against any earlier anchor exactly for the approved drafts and the decisions of the run |
| FlowTrail.TamperIsNamed | src/swarm/trail.py:377-513 | in every good state a replaced approved draft is `artifact_changed` at its gate, each decision added, edited or removed is named as that, and the status is `decision_changed` exactly when the seals still fit |
| FlowTrail.EveryStateVerifies | src/swarm/audit_flow.py:579-589 | every state of every run verifies `ok` against an anchor taken at any earlier point |
| FlowResults.GateShowsLatestDraft | src/swarm/audit_flow.py:1196-1328 | at every gate the draft is what the latest run of the phase left |
| FlowResults.OverrideAcceptsLatestDraft | src/swarm/audit_flow.py:1043-1070 | an override stamps the digest and the run of the latest draft, never an older one |
| FlowResults.ApprovalNamesMaker | src/swarm/audit_flow.py:558-577 | every approval names a run that exists, and only one: the run of its phase that made the sealed artifact |
| FlowResults.NotRejectedIsApproved | src/swarm/audit_flow.py:132-148 | an attempt passes exactly with a parsed approval, a silent linter and, for fieldwork, every quote verified and every missing quote concluded as not tested |
| FlowResults.GateNeedsApproval | src/swarm/audit_flow.py:1228-1328 | a crew reaches the gate only with an approved, schema-valid draft, and that draft is the one shown |
| FlowResults.GateTwoEvidence | src/swarm/audit_flow.py:766-806 | at every Gate 2 approval each finding verifies then, or an override of exactly these papers named it as unverified |
| FlowResults.OverrideReadsBackIff | src/swarm/audit_flow.py:775-794 | after an override the accepted controls are those that failed exactly when no failed control's id holds a comma |
| FlowResults.CommaMisreads | src/swarm/audit_flow.py:793 | after an override that named only `A,B`, the control `A` is accepted and `A,B` is not |
| FlowResults.OverlayAlwaysValid | src/swarm/audit_flow.py:1389-1422 | in every reachable state the papers for reporting are valid and have the draft's exceptions |
| FlowResults.ClassificationsAlwaysOnScale | src/swarm/review_decisions.py:268-294 | in every reachable state each classification of record is one of its scale's, and a Material Weakness is neither unlikely nor below high magnitude |
| FlowResults.AlwaysOneActive | src/swarm/review_decisions.py:188-197 | in every reachable state, for whatever drafts, a slot has at most one active decision |
| FlowGates.CompletedRun | src/swarm/audit_flow.py:740-764 | a completed run has exactly one approval of each gate, in order, with people at Gates 2 and 3 who are no respellings of each other, and every required decision stands |
| FlowHistory.PreparerNeverReviews | src/swarm/review_policy.py:70-101 | no approval, override, return or reviewer-only decision is by the preparer under any spelling |
| FlowHistory.ConclusionsFreeze | src/swarm/review_policy.py:149-158 | after Gate 2 no operations change a finding, its review or its conclusion of record |
| FlowHistory.CompletionFreezes | src/swarm/review_policy.py:149-158 | after completion only management-response and remediation slots change |
| FlowHistory.CompletedIsSettled | src/swarm/review_decisions.py:663-757 | after completion drafts, conclusions and classifications of record are final |
| GatesOpen.RecordRequired | evals/pipeline.py:372-401 | the flow, the count and the list of problems after the minimal decision for each missing item |
| GatesOpen.OnePassSuffices | evals/pipeline.py:372-401 | one pass by any non-preparer records everything without a problem and leaves nothing missing |
| GatesOpen.GateOpens | src/swarm/audit_flow.py:808-874 | after the pass, approval succeeds exactly when identity and evidence allow it |
| FlowExport.BuildFindingViews | src/swarm/review_decisions.py:663-712 | one view per control, from the active decisions |
| FlowExport.FindMissingReviews | src/swarm/review_decisions.py:760-837 | the findings that need a sign-off or a challenge at Gate 2 |
| FlowExport.ReachableViewIsNamed | src/swarm/oscal_ar.py:332-356 | in every reachable state each decision the export refers to names its reviewer |
| FlowExport.ExportedResults | src/swarm/oscal_ar.py:745-751 | the exported result is the overlaid one, an exception exactly where the draft has one |
| FlowExport.DecisionIsShown | src/swarm/review_decisions.py:663-757 | in every reachable state an accepted decision is what the view, and so the export, shows for its type and subject |
| FlowStore.RunSavesSucceed | src/swarm/session_manager.py:230-297 | saving the states of a run in order never fails, and the anchor is then that of the saved trail |
| FlowStore.SavedRunVerifies | src/swarm/session_manager.py:230-297 | every state of a run verifies `ok` against the anchor the store holds for it |
| FlowStore.ReviewIsStep | src/api/routers/sessions.py:637-850 | an accepted approval, retry, return, override or decision is the step a request makes on the shared flow |
| FlowStore.RunIsStep | src/api/routers/sessions.py:338-400 | a phase run is the step in which the phase thread ends its crew |
| FlowStore.SignedOffIff | src/api/routers/sessions.py:523-547 | the delete request sees a sign-off exactly when a gate of the run was approved |
| FlowStore.StartIsImage | src/api/routers/sessions.py:450-507 | a new audit is the start of the interleaving model |
| SessionProofs.RunKeeps | src/api/routers/sessions.py:105-122 | every interleaving of requests, phase threads, deletion and restart keeps the lock, cache, save and crew invariants |
| SessionProofs.OneCrew | src/api/routers/sessions.py:611-709 | at most one crew runs, for the phase the machine is running and on the flow everybody sees |
| SessionProofs.DeletedOnlyUnapproved | src/api/routers/sessions.py:523-584 | a stored session is removed only while no gate is approved, in memory or in the store |
| SessionProofs.ApprovalKept | src/api/routers/sessions.py:549-584 | a saved approval stays stored whatever follows |
| SessionProofs.StaysDeleted | src/swarm/session_manager.py:152-165 | no step recreates the entry of a deleted session |
| SessionProofs.DeletedForGood | src/swarm/state/repository.py:41-82 | a deleted session stays deleted, whatever late threads do |
| SessionProofs.SnapshotsMoveForward | src/swarm/state/repository.py:49-64 | no older snapshot overwrites a newer one, also across restarts |
| SessionSaves.WriteStores | src/swarm/state/repository.py:49-64 | a write that does not fail puts the snapshot into the entry if there is one |
| SessionSaves.SaveIsStored | src/swarm/state/repository.py:41-82 | when a thread leaves its save with success and the session is still there, the store holds the flow as it was during the save, no older than the change the save was for |
| SessionSaves.ApprovalIsStored | src/api/routers/sessions.py:637-704 | an accepted approval whose save succeeded is in the store, and stays there whatever follows |
| SessionSaves.RestartRecovers | src/api/routers/sessions.py:105-122 | after a restart the first request works on the flow exactly as it was last saved |
| SessionSaves.GrantedIff | src/api/routers/sessions.py:523-547 | a deletion is granted exactly when the session is gone or no gate is approved, in memory or in what it read from the store |
| SessionSaves.GrantedDeleteErases | src/api/routers/sessions.py:549-584 | a granted deletion removes the session from the store, and by its end from memory |
| SessionPhases.StartedPhaseRuns | src/api/routers/sessions.py:338-400 | as long as nothing fails, a session in a running phase has exactly one thread that runs its crew or is on its way to it |
| SessionPhases.SaveDecidesStart | src/api/routers/sessions.py:611-617 | a phase starts after a save exactly when the save succeeded |
| S3Access.AnswerIsExact | src/swarm/tools/aws_checks.py:355-361 | the three-valued evaluation is certain exactly when all ways of filling in the unknown agree |
| S3Access.ExactIsUnique | src/swarm/tools/aws_checks.py:404-495 | only one verdict is exact |
| S3Access.CheckBucket | src/swarm/tools/aws_checks.py:404-495 | the verdict is exact; the reasons are exactly the paths open in all possible worlds, the notes what is blocked in all, the unknowns what is undetermined, and every failed read is surfaced |
| S3Access.CountsPartition | src/swarm/tools/aws_checks.py:531-536 | the three counts partition the buckets |
| S3Access.Summarise | src/swarm/tools/aws_checks.py:531-536 | each count is the number of buckets with that verdict |
| Redaction.RedactionIsIdempotent | src/swarm/evidence.py:136-138 | no account id is left, and redacting again changes nothing |
| Redaction.RedactionIsExact | src/swarm/evidence.py:136-138 | no account id is left anywhere, and a text changes exactly when it has one |
| Redaction.FirstIdIsMarked | src/swarm/evidence.py:136-138 | the first account id is replaced by the mark, and what comes before it stays |
| Vault.EvidenceVault.Register | src/swarm/evidence.py:221-294 | the stored record: redacted, session-bound, sealed, encrypted when a key is set |
| Vault.EvidenceVault.VerifyExactQuote | src/swarm/evidence.py:297-390 | true exactly when id, length, digest, session and substring checks all pass |
| Vault.EvidenceVault.Migrate | src/swarm/evidence.py:393-471 | the vault after migration, with each of the four counts the number of vault files of that outcome |
| Vault.RoundTrip | src/swarm/evidence.py:221-390 | a quote verifies exactly when it has at least 15 characters, is not blank and is in the redacted payload, for the registering session or none named |
| Vault.UnboundRoundTrip | src/swarm/evidence.py:221-390 | a record registered for no session vouches in every session |
| Vault.ImportedRoundTrip | src/swarm/evidence.py:175-193 | a record that names its session only in its parameters vouches in that session or for none |
| Vault.StoredUnderKey | src/swarm/evidence.py:251-272 | with a key nothing is stored in the clear and the digest is keyed; without one it is plain |
| Vault.SanitizedIsClean | src/swarm/evidence.py:145-154 | sanitized metadata holds no account id, and clean metadata is kept |
| Vault.StoredIsClean | src/swarm/evidence.py:221-294 | a stored record names no account id, the session id apart |
| Vault.SameDigestText | src/swarm/evidence.py:157-172 | two records have the same digest text exactly when they agree or one payload imitates the other record |
| Vault.ChangeIsCaught | src/swarm/evidence.py:157-172 | under the old digest a changed record matches exactly when it reads the same or imitates; otherwise it verifies no quote |
| Vault.NoImitation | src/swarm/evidence.py:157-172 | no imitation between NUL-free payloads, nor between two records with metadata |
| Vault.NulIsAmbiguous | src/swarm/evidence.py:172 | for every record with metadata, a payload that passes for it |
| Vault.MigrationIsInvisible | src/swarm/evidence.py:393-471 | migration changes no verdict |
| Vault.NeverResealed | src/swarm/evidence.py:431-450 | each of the four outcomes of migrating a record exactly; only a payload that matches its plain digest is sealed again, everything else is left as it was |
| Limiter.FailureLimiter.Prune | src/api/reviewer_tokens.py:274-280 | failures at least a window old are dropped from the front |
| Limiter.FailureLimiter.RetryAfter | src/api/reviewer_tokens.py:282-289 | free, the seconds to wait, or an exception |
| Limiter.FailureLimiter.RecordFailure | src/api/reviewer_tokens.py:291-296 | the failure is appended to the pruned queue |
| Limiter.CountsYoungFailures | src/api/reviewer_tokens.py:259-300 | for every history in time order, blocked exactly when enough failures are younger than the window |
| Limiter.RaisesIff | src/api/reviewer_tokens.py:282-289 | the call raises exactly when nothing is recent and no failure is allowed |
| Limiter.NeverOverLimit | src/api/auth.py:159-170 | one request after the other, whatever the clock readings of check and record, no queue exceeds the limit |
| Limiter.WaitingFreesIff | src/api/reviewer_tokens.py:282-289 | waiting the returned seconds frees the client exactly when the `max`-th failure from the end is old by then |
| Limiter.WaitingFrees | src/api/reviewer_tokens.py:282-289 | with a queue within the limit the wait always frees the client |
| Limiter.WaitSufficesIff | src/api/reviewer_tokens.py:259-300 | on every history the queue is the young failures, so it passes the limit exactly when more than `max` are young, and when the wait is enough |
| Limiter.RaceLetsBothIn | src/api/auth.py:159-170 | two requests are both let in when one failure is still allowed |
| Limiter.RacePassesLimit | src/api/auth.py:159-170 | two requests let in together pass the limit and make the wait too short, for every limit of two or more |
| Limiter.DefaultCanBePassed | src/api/reviewer_tokens.py:259-300 | the limiter in use, 10 failures in 60 seconds, can be passed and then misstates the wait |
| Sorting.SortIsSorted | src/swarm/tools/findings_checks.py:407-408 | sorting keeps the elements and orders them |
| Sorting.SortIsStable | src/swarm/tools/findings_checks.py:407-408 | elements that compare equal keep their order |
| Prowler.StatusCounts | src/swarm/tools/findings_checks.py:357-361 | how many findings have each status |
| Prowler.OrderHoldsAll | src/swarm/tools/findings_checks.py:388-408 | the listing order holds every finding exactly once |
| Prowler.EqualsKeepOrder | src/swarm/tools/findings_checks.py:392-408 | in a check, findings of equal priority keep the order of the import |
| Prowler.WorstFirstInCheck | src/swarm/tools/findings_checks.py:388-408 | within a check, failures come first and then the more severe |
| Prowler.WorstChecksFirst | src/swarm/tools/findings_checks.py:388-408 | checks that fail come first, then the check with the more severe worst finding, then by name |
| Prowler.BuildListing | src/swarm/tools/findings_checks.py:405-438 | the lines are the first ones in priority order, lines and omitted are all findings, every header is complete |
| Prowler.SummaryListing | src/swarm/tools/findings_checks.py:364-446 | the same with the limit of 300 lines |
| Prowler.CountsAddUp | src/swarm/tools/findings_checks.py:357-361 | the counts of a header add up to the check's findings |
| Prowler.NoFailCutInCheck | src/swarm/tools/findings_checks.py:392-426 | within one check no FAIL is cut while another finding is listed |
| Prowler.LateFail | src/swarm/tools/findings_checks.py:395-408 | a FAIL listed after a finding that does not fail belongs to a later check, and the earlier check fails too |
| Prowler.CutsFailIff | src/swarm/tools/findings_checks.py:395-426 | the cap cuts a FAIL behind a finding that does not fail exactly when it lies between two marks counted over the checks in order |
| Prowler.CapCutsFail | src/swarm/tools/findings_checks.py:396-397 | an input for which it does |
| Prowler.Collect | src/swarm/tools/findings_checks.py:479-504 | the first `max` findings; nothing is left out silently |
| Prowler.TruncatedIff | src/swarm/tools/findings_checks.py:479-504 | truncation is reported exactly when findings were left out or an empty page ends the read at the limit |
| Prowler.MisreportedIff | src/swarm/tools/findings_checks.py:479-504 | it is reported although nothing was left out exactly in the second case |
| Prowler.EmptyPageMisreports | src/swarm/tools/findings_checks.py:479-504 | an input of that case |
| Oscal.OccurrenceKeys | src/swarm/oscal_ar.py:267-274 | each key is the id and which occurrence of it this is |
| Oscal.KeysDistinct | src/swarm/oscal_ar.py:267-274 | keys are distinct, also when ids repeat or hold `#` |
| Oscal.ElementsDiffer | src/swarm/oscal_ar.py:110-112 | different kinds or keys mean different UUIDs |
| OscalPeople.LineOnce | src/swarm/oscal_ar.py:115-117 | a name on one line stays as it is, so every caller gets the same party for it |
| OscalPeople.LineOfWords | src/swarm/oscal_ar.py:115-117 | however a name is spaced, its line is its words with one space between |
| OscalPeople.TokenStays | src/swarm/oscal_ar.py:120-129 | an id that is a token already is its own target |
| OscalPeople.Parties.UuidFor | src/swarm/oscal_ar.py:209-219 | the party of that name; each name is kept once, in order of appearance |
| OscalPeople.BuildLog | src/swarm/oscal_ar.py:965-1011 | one log entry per trail entry, logged by the party of the person who acted; the approvers, and those of the report |
| OscalPeople.DeclareRole | src/swarm/oscal_ar.py:1017-1024 | the role is declared exactly when somebody is named, its members the parties of those people, each once |
| OscalPeople.BuildRoles | src/swarm/oscal_ar.py:1026-1042 | the four roles with exactly the people who have them |
| OscalBuild.GroupByControl | src/swarm/oscal_ar.py:509-514 | under each control exactly the elements that name it |
| OscalBuild.BuildRisks | src/swarm/oscal_ar.py:516-727 | one risk per evaluation: closed exactly when verified as remediated, its origins and recommendation by the people who decided, its related observations; and the reviewers it names, in order |
| OscalBuild.BuildResults | src/swarm/oscal_ar.py:509-899 | every risk, observation and finding is exactly the one its evaluation or working paper calls for, links included |
| OscalBuild.BuildObjectives | src/swarm/oscal_ar.py:465-507 | one objective per control of the matrix, each control once |
| OscalBuild.BuildFindings | src/swarm/oscal_ar.py:866-899 | one finding per tested control, with its target and status, related to its observation and to the risks of its control |
| OscalExport.IsClosed | src/swarm/oscal_ar.py:300-1174 | every party, role, observation, risk, component, platform and resource reference resolves, and every actor has the role it acts in |
| OscalExport.TargetsResolveIff | src/swarm/oscal_ar.py:880-885 | a finding's target is a declared objective exactly when the matrix has a control with its token |
| OscalExport.RolesAreExact | src/swarm/oscal_ar.py:960-1042 | each role is held by exactly the parties of the preparer, the gate approvers, the report approvers, and whoever made a decision the document shows |
| OscalBuild.AllApart | src/swarm/oscal_ar.py:509-899 | observations, findings and risks have UUIDs of their own, also with repeated ids |
| OscalBuild.FindingIffTested | src/swarm/oscal_ar.py:866-867 | an observation has a finding exactly when its result of record is not "Not tested" |
| OscalExport.BuildAssessmentResults | src/swarm/oscal_ar.py:300-1174 | every element and link of the built document is the one the inputs call for, references resolve, UUIDs are distinct; None exactly when there is no control |

## Left out

- LLM crews, prompts, skills, linters and the decision engine: a crew run is an arbitrary result or an exception, a linter verdict an input.
- The exact text of crew-run and refusal messages that include an exception's text, the human dossier and the job and event queues: no decision depends on them.
- HTTP routing, authentication tokens other than the limiter, CORS and the frontend.
- The file store: writes are atomic map updates under the code's locks. `FlowRepository.load` is modelled only as taking over a stored snapshot; fields that no longer validate are not modelled.
- The trail anchor under a concurrent delete: the anchor write and the delete take different locks, so nothing is claimed there.
- Key rotation during a run: the whole-run theorems keep the key fixed. The trail theorems allow another key for every trail.
- Runs reloaded from a snapshot written before preparers, runs or decisions existed: the whole-run theorems start at the audit's creation.
- OscalExport.BuildAssessmentResults: models identifiers, references, statuses and people; titles, descriptions, props, times, the NIST links, the reviewed-controls list and the imported plan's text are left out.
- OscalBuild.BuildRisks: leaves out the risk log and the management action plan, which refer to nothing else in the document.
- Vault.RoundTrip: metadata are strings, integers, booleans, null, lists and maps with string names; floating-point metadata values are not modelled.
- Prowler.BuildListing: a detail line is one value; parsing and cleaning of scanner records are left out.
- Prowler.SummaryListing: as for `Prowler.BuildListing`.
- S3Access.CheckBucket: reasons, unknowns and notes are values where the source formats text.
- Spreadsheet and Markdown rendering, sampling and the evaluation metrics: easy members or opaque library behaviour.

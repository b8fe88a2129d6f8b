/**
 * The audit flow as a step function (src/swarm/audit_flow.py): three crew
 * phases, three human gates, the trail, the decisions and the run records.
 */
module Flow {
  import opened Options
  import opened Text
  import opened Schema
  import opened Machine
  import opened Records
  import opened Trail
  import opened Policy
  import opened Decisions

  datatype Flow = Flow(
    status: AuditStatus, drafts: Artifacts, preparedBy: string, decisionsRequired: bool,
    trail: seq<Entry>, decisions: seq<Decision>, runs: seq<Run>, qaReason: Option<string>)

  function Initial(): Flow {
    Flow(WaitingForScope, Artifacts(None, None, None), "", false, [], [], [], None)
  }

  // ---- Evidence ----------------------------------------------------------------

  /** A quote of a vault record, by vault id. */
  datatype Quote = Quote(vaultId: string, text: string)

  /** The quotes the vault verifies for this session at some moment. */
  type Verified = set<Quote>

  /** A finding passes with a verified quote, or without a quote when it says it was not tested. */
  predicate EvidenceOk(f: Finding, verified: Verified) {
    if Blank(f.quote) then f.result == NotTested || f.toe == OperatingNotTested
    else Quote(f.vaultId, f.quote) in verified
  }

  /** `unverified_findings`: the controls whose evidence does not pass, in order. */
  function UnverifiedIn(fs: seq<Finding>, verified: Verified): (ids: seq<string>)
    ensures forall i :: 0 <= i < |fs| && !EvidenceOk(fs[i], verified) && fs[i].controlId != "" ==>
              fs[i].controlId in ids
  {
    if fs == [] then []
    else
      var rest := UnverifiedIn(fs[..|fs| - 1], verified);
      var f := fs[|fs| - 1];
      if EvidenceOk(f, verified) then rest
      else rest + [if f.controlId == "" then "finding #" + Decimal(|fs|) else f.controlId]
  }

  function Unverified(f: Flow, verified: Verified): seq<string> {
    UnverifiedIn(ContextFindings(f.drafts), verified)
  }

  // ---- Crew runs ---------------------------------------------------------------

  /** The QA agent's output: missing or unparseable, or a verdict. */
  datatype QaOutput = NoVerdict | Verdict(approved: bool, reason: string)

  /** One crew attempt; an output that fails the schema is None. */
  datatype Attempt =
    | Crashed(message: string)
    | Finished(qa: QaOutput, output: Option<Artifact>, checkError: Option<string>, verified: Verified,
               lint: Option<string>)

  /** What the crews of one phase run do; `start` is None when the run record cannot be started. */
  datatype CrewRun = CrewRun(start: Option<Provenance>, first: Attempt, second: Attempt)

  const QA_UNPARSEABLE_REASON :=
    "QA output could not be parsed into the QA schema — treated as a rejection (QA gates fail closed)."
  const QA_NO_REASON := "QA rejected the artifact without giving a reason."
  const EVIDENCE_FAILED := "Deterministic evidence check failed for "
  const EVIDENCE_RULE :=
    ": the quoted evidence was not found verbatim in the evidence vault record it cites (or that record failed its "
    + "integrity check). Every tested finding needs a verifiable quote; a finding without a quote must be concluded "
    + "'Not tested'."

  const NO_RACM := "Cannot run Fieldwork: no Phase 1 RACM in state."
  const NO_PAPERS := "Cannot run Reporting: no Phase 2 working papers in state."

  /** `_qa_rejection`: anything but a parsed approval rejects. */
  function QaRejection(qa: QaOutput): Option<string> {
    match qa
    case NoVerdict => Some(QA_UNPARSEABLE_REASON)
    case Verdict(approved, reason) => if approved then None else Some(if Blank(reason) then QA_NO_REASON else reason)
  }

  function FindingsOf(a: Artifact): seq<Finding> {
    match a case PapersA(p) => p.findings case _ => []
  }

  function Listed(ids: seq<string>): string {
    if ids == [] then "" else if |ids| == 1 then ids[0] else ids[0] + ", " + Listed(ids[1..])
  }

  /** `_evidence_rejection`: a check that cannot run rejects too. */
  function EvidenceRejection(phase: nat, output: Option<Artifact>, checkError: Option<string>,
                             verified: Verified): Option<string>
  {
    if phase != 2 || output.None? then None
    else if checkError.Some? then
      Some("Deterministic evidence check could not run (" + checkError.value + "); fails closed.")
    else
      var ids := UnverifiedIn(FindingsOf(output.value), verified);
      if ids == [] then None else Some(EVIDENCE_FAILED + Listed(ids) + EVIDENCE_RULE)
  }

  function Reason(r: Option<string>): seq<string> {
    if r.Some? && r.value != "" then [r.value] else []
  }

  /** The parsed output: an artifact that does not pass its schema never becomes one. */
  function ParsedOutput(a: Attempt): (r: Option<Artifact>)
    requires a.Finished?
    ensures r.Some? ==> ArtifactValid(r.value)
  {
    if a.output.Some? && ArtifactValid(a.output.value) then a.output else None
  }

  /** Why an attempt is rejected, if it is. */
  function Rejection(phase: nat, a: Attempt): Option<string>
    requires a.Finished?
  {
    var reasons := Reason(QaRejection(a.qa))
                   + Reason(EvidenceRejection(phase, ParsedOutput(a), a.checkError, a.verified))
                   + Reason(a.lint);
    if reasons == [] then None else Some(Join(reasons, ' '))
  }

  function Label(phase: Phase): string {
    if phase == 1 then "Planning" else if phase == 2 then "Fieldwork" else "Reporting"
  }

  function NameOf(phase: Phase): ArtifactName {
    if phase == 1 then RacmPlan else if phase == 2 then WorkingPapers else FinalReport
  }

  function FieldText(phase: Phase): string {
    if phase == 1 then "racm_plan" else if phase == 2 then "working_papers" else "final_report"
  }

  /** The state field of a phase takes only that phase's kind of artifact. */
  predicate OfPhase(a: Artifact, phase: Phase) {
    match a case RacmA(_) => phase == 1 case PapersA(_) => phase == 2 case ReportA(_) => phase == 3
  }

  function SetDraft(drafts: Artifacts, phase: Phase, a: Option<Artifact>): (r: Artifacts)
    requires a.Some? ==> OfPhase(a.value, phase)
    ensures Current(r, NameOf(phase)) == a
    ensures forall p: Phase :: p != phase ==> Current(r, NameOf(p)) == Current(drafts, NameOf(p))
  {
    if phase == 1 then drafts.(racm := if a.Some? then Some(a.value.racm) else None)
    else if phase == 2 then drafts.(papers := if a.Some? then Some(a.value.papers) else None)
    else drafts.(report := if a.Some? then Some(a.value.report) else None)
  }

  /** How a phase run ends: after how many attempts, with which output or message. */
  datatype CrewEnd =
    | CrewCrashed(attempts: nat, message: string)
    | CrewRejected(output: Option<Artifact>, reason: string)
    | CrewPassed(attempts: nat, output: Option<Artifact>)

  /** One attempt, and one more after a rejection. */
  function EndOf(phase: Phase, crew: CrewRun): CrewEnd {
    if crew.first.Crashed? then CrewCrashed(1, Label(phase) + " crew error: " + crew.first.message)
    else if Rejection(phase, crew.first).None? then CrewPassed(1, ParsedOutput(crew.first))
    else if crew.second.Crashed? then CrewCrashed(2, Label(phase) + " crew retry error: " + crew.second.message)
    else
      match Rejection(phase, crew.second)
      case None => CrewPassed(2, ParsedOutput(crew.second))
      case Some(reason) => CrewRejected(ParsedOutput(crew.second), reason)
  }

  function Failed(f: Flow, phase: Phase, reason: string): Flow {
    f.(status := ErrorPhase(phase), qaReason := Some(reason))
  }

  function AttemptsOf(end: CrewEnd): nat {
    if end.CrewRejected? then 2 else end.attempts
  }

  function NoDraftReason(phase: Phase, output: Option<Artifact>): string {
    if output.None? then
      Label(phase) + " crew produced no " + FieldText(phase)
        + ": the output could not be parsed into the required schema."
    else Label(phase) + " crew produced an invalid " + FieldText(phase)
  }

  /** The flow after a phase run that ended in `end`. */
  function Ended(f: Flow, phase: Phase, info: Provenance, end: CrewEnd): Flow {
    match end
    case CrewCrashed(attempts, message) =>
      Failed(f.(runs := f.runs + [Run(phase, info, attempts, Errored, None)]), phase, message)
    case CrewRejected(output, reason) =>
      // The rejected draft replaces (or clears) any older one.
      var kept := if output.Some? && OfPhase(output.value, phase) then output else None;
      f.(status := QaRejectedPhase(phase), drafts := SetDraft(f.drafts, phase, kept),
         runs := f.runs + [Run(phase, info, 2, QaRejected, kept)], qaReason := Some(reason))
    case CrewPassed(attempts, output) =>
      if output.None? || !OfPhase(output.value, phase) then
        Failed(f.(runs := f.runs + [Run(phase, info, attempts, Errored, None)]), phase, NoDraftReason(phase, output))
      else
        f.(status := WaitingGate(phase), drafts := SetDraft(f.drafts, phase, output),
           runs := f.runs + [Run(phase, info, attempts, QaApproved, output)])
  }

  /** `_run_crew_with_qa` and the completion of the phase. */
  function RunPhase(f: Flow, phase: Phase, info: Provenance, crew: CrewRun): Flow {
    Ended(f, phase, info, EndOf(phase, crew))
  }

  /** What ends a phase before its crew is started, if anything. */
  function StoppedEarly(f: Flow, phase: Phase, crew: CrewRun): Option<(Flow, Option<Refusal>)> {
    if phase == 2 && f.drafts.racm.None? then Some((Failed(f, 2, NO_RACM), None))
    else if phase == 3 && f.drafts.papers.None? then
      Some((Failed(f, 3, NO_PAPERS), None))
    else if crew.start.None? then Some((f, Some(RunNotStarted)))
    else None
  }

  /** `generate_planning`, `generate_fieldwork` and `generate_reporting`. */
  function Generate(f: Flow, phase: Phase, crew: CrewRun): (Flow, Option<Refusal>) {
    var begun := if phase == 1 && f.status == WaitingForScope then f.(status := RunningPhase(1)) else f;
    if begun.status != RunningPhase(phase) then (begun, Some(NotRunnable))
    else
      var g := begun.(qaReason := None);
      match StoppedEarly(g, phase, crew)
      case Some(stopped) => stopped
      case None => (RunPhase(g, phase, crew.start.value, crew), None)
  }

  // ---- Identities and provenance -----------------------------------------------

  function CreatedBy(trail: seq<Entry>): seq<string> {
    if trail == [] then []
    else
      var rest := CreatedBy(trail[..|trail| - 1]);
      var b := trail[|trail| - 1].body;
      if b.event.AuditCreated? && b.human != "" then rest + [b.human] else rest
  }

  /** `_preparers`: from the state and from the trail. */
  function Preparers(f: Flow): seq<string> {
    var names := (if f.preparedBy == "" then [] else [f.preparedBy]) + CreatedBy(f.trail);
    if names == [] then [""] else names
  }

  /** `review_decisions_required`: by the stored flag or by the trail. */
  predicate Required(f: Flow) {
    f.decisionsRequired || exists i :: 0 <= i < |f.trail| && f.trail[i].body.event == AuditCreated(true)
  }

  predicate Barred(env: Env, f: Flow, action: ReviewAction, human: string, gate: Option<nat>) {
    exists i :: 0 <= i < |Preparers(f)| && SodViolation(env.fold, action, human, Preparers(f)[i], f.trail, gate)
  }

  function LatestRun(runs: seq<Run>, phase: nat): (r: Option<Run>)
    ensures r.Some? ==> r.value in runs && r.value.phase == phase
  {
    if runs == [] then None
    else if runs[|runs| - 1].phase == phase then Some(runs[|runs| - 1])
    else LatestRun(runs[..|runs| - 1], phase)
  }

  function RunInfo(f: Flow, phase: nat): Option<Provenance> {
    match LatestRun(f.runs, phase) case None => None case Some(r) => Some(r.info)
  }

  function PhaseDecisions(ds: seq<Decision>, phase: nat): seq<Decision> {
    if ds == [] then []
    else
      var rest := PhaseDecisions(ds[..|ds| - 1], phase);
      if ds[|ds| - 1].phase == phase then rest + [ds[|ds| - 1]] else rest
  }

  function Stamped(env: Env, f: Flow, body: Body): seq<Entry> {
    Append(env.h, env.key, f.trail, body)
  }

  // ---- Evidence at Gate 2 ------------------------------------------------------

  /** The latest Fieldwork override of papers with this digest names these controls. */
  function AcceptedIn(trail: seq<Entry>, digest: string): set<string> {
    if trail == [] then {}
    else
      match trail[|trail| - 1].body.event
      case Overridden(phase, _, _, d, controls, _) =>
        if phase == 2 && d == digest then (set c | c in SplitOn(controls, ',') && c != "")
        else AcceptedIn(trail[..|trail| - 1], digest)
      case _ => AcceptedIn(trail[..|trail| - 1], digest)
  }

  /** `_accepted_unverified`. */
  function AcceptedUnverified(env: Env, f: Flow): set<string> {
    match f.drafts.papers
    case None => {}
    case Some(p) => AcceptedIn(f.trail, ArtifactDigest(env.h, PapersA(p)))
  }

  function Without(ids: seq<string>, accepted: set<string>): (r: seq<string>)
    ensures forall id :: id in r <==> id in ids && id !in accepted
  {
    if ids == [] then []
    else
      var rest := Without(ids[..|ids| - 1], accepted);
      var id := ids[|ids| - 1];
      assert ids == ids[..|ids| - 1] + [id];
      if id in accepted then rest else rest + [id]
  }

  // ---- Operations --------------------------------------------------------------

  /** `record_preparer`. */
  function RecordPreparer(env: Env, f: Flow, preparer: string, required: bool, source: Option<IdentitySource>,
                          now: string): (Flow, Option<Refusal>)
  {
    if Strip(preparer) == "" || source.None? || f.preparedBy != "" then (f, Some(BadInput))
    else
      (f.(preparedBy := Strip(preparer), decisionsRequired := required,
          trail := Stamped(env, f, Body(Strip(preparer), now, source.value, AuditCreated(required)))), None)
  }

  /** `begin_phase_1`. */
  function BeginPhase1(f: Flow): (Flow, Option<Refusal>) {
    if f.status != WaitingForScope then (f, Some(InvalidTransition)) else (f.(status := RunningPhase(1)), None)
  }

  /** What stops an approval, in the order the checks are made. */
  function ApprovalRefusal(env: Env, f: Flow, gate: Phase, human: string, source: Option<IdentitySource>,
                           verified: Verified): Option<Refusal>
  {
    if Strip(human) == "" || source.None? then Some(BadInput)
    else if f.status != WaitingGate(gate) then Some(InvalidTransition)
    else if Barred(env, f, ApproveAction, Strip(human), Some(gate)) then Some(SegregationOfDuties)
    else if gate == 2 && Without(Unverified(f, verified), AcceptedUnverified(env, f)) != [] then
      Some(UnverifiedEvidence(Without(Unverified(f, verified), AcceptedUnverified(env, f))))
    else if Current(f.drafts, NameOf(gate)).None? then Some(ArtifactMissing)
    else if gate != 1 && Required(f) && MissingFor(env.h, f.drafts, f.decisions, gate) != [] then
      Some(MissingDecisions(MissingFor(env.h, f.drafts, f.decisions, gate)))
    else None
  }

  function ApprovalEvent(env: Env, f: Flow, gate: Phase): Event
    requires Current(f.drafts, NameOf(gate)).Some?
  {
    var sealed := PhaseDecisions(f.decisions, gate);
    GateApproval(gate, NameOf(gate), ArtifactDigest(env.h, Current(f.drafts, NameOf(gate)).value),
                 if gate == 1 then None else Some(DecisionsDigest(env.h, sealed)),
                 if gate == 1 then 0 else |sealed|, RunInfo(f, gate))
  }

  /** `_approve_gate`. */
  function Approve(env: Env, f: Flow, gate: Phase, human: string, source: Option<IdentitySource>, verified: Verified,
                   now: string)
    : (Flow, Option<Refusal>)
  {
    match ApprovalRefusal(env, f, gate, human, source, verified)
    case Some(refusal) => (f, Some(refusal))
    case None =>
      (f.(status := AfterGate(gate),
          trail := Stamped(env, f, Body(Strip(human), now, source.value, ApprovalEvent(env, f, gate)))), None)
  }

  /** `retry_phase`: open to everybody. */
  function Retry(env: Env, f: Flow, phase: nat, human: string, source: Option<IdentitySource>, now: string)
    : (Flow, Option<Refusal>)
  {
    if !(1 <= phase <= 3) || Strip(human) == "" || source.None? then (f, Some(BadInput))
    else if f.status != QaRejectedPhase(phase) && f.status != ErrorPhase(phase) then (f, Some(InvalidTransition))
    else
      (f.(status := RunningPhase(phase),
          trail := Stamped(env, f, Body(Strip(human), now, source.value,
                                        Retried(phase, f.status, HashText(f.qaReason), RunInfo(f, phase))))), None)
  }

  /** What stops a return. */
  function ReturnRefusal(env: Env, f: Flow, phase: nat, human: string, notes: string,
                         source: Option<IdentitySource>): Option<Refusal>
  {
    if !(1 <= phase <= 3) || Strip(human) == "" || Strip(notes) == "" || source.None? then Some(BadInput)
    else if f.status != WaitingGate(phase) then Some(InvalidTransition)
    else if Barred(env, f, ReturnAction, Strip(human), None) then Some(SegregationOfDuties)
    else None
  }

  function ReturnEvent(env: Env, f: Flow, phase: Phase, notes: string): Event {
    var draft := Current(f.drafts, NameOf(phase));
    Returned(phase, Strip(notes), if draft.Some? then Some(ArtifactDigest(env.h, draft.value)) else None,
             RunInfo(f, phase))
  }

  /** `return_for_rework`. */
  function ReturnForRework(env: Env, f: Flow, phase: nat, human: string, notes: string, source: Option<IdentitySource>,
                           now: string)
    : (Flow, Option<Refusal>)
  {
    match ReturnRefusal(env, f, phase, human, notes, source)
    case Some(refusal) => (f, Some(refusal))
    case None =>
      (f.(status := RunningPhase(phase), qaReason := None,
          trail := Stamped(env, f, Body(Strip(human), now, source.value, ReturnEvent(env, f, phase, notes)))), None)
  }

  /** What stops an override. */
  function OverrideRefusal(env: Env, f: Flow, phase: nat, human: string, reason: string,
                           source: Option<IdentitySource>): Option<Refusal>
  {
    if !(1 <= phase <= 3) || Strip(human) == "" || Strip(reason) == "" || source.None? then Some(BadInput)
    else if f.status != QaRejectedPhase(phase) then Some(InvalidTransition)
    else if Barred(env, f, OverrideAction, Strip(human), None) then Some(SegregationOfDuties)
    else if Current(f.drafts, NameOf(phase)).None? then Some(ArtifactMissing)
    else None
  }

  function OverrideEvent(env: Env, f: Flow, phase: Phase, reason: string, verified: Verified): Event
    requires Current(f.drafts, NameOf(phase)).Some?
  {
    Overridden(phase, Strip(reason), HashText(f.qaReason),
               ArtifactDigest(env.h, Current(f.drafts, NameOf(phase)).value),
               if phase == 2 then Join(Unverified(f, verified), ',') else "", RunInfo(f, phase))
  }

  /** `override_qa_rejection`. */
  function OverrideQa(env: Env, f: Flow, phase: nat, human: string, reason: string, source: Option<IdentitySource>,
                      verified: Verified, now: string): (Flow, Option<Refusal>)
  {
    match OverrideRefusal(env, f, phase, human, reason, source)
    case Some(refusal) => (f, Some(refusal))
    case None =>
      (f.(status := WaitingGate(phase), qaReason := None,
          trail := Stamped(env, f, Body(Strip(human), now, source.value,
                                        OverrideEvent(env, f, phase, reason, verified)))), None)
  }

  function DecidedEvent(env: Env, d: Decision): Event {
    Decided(d.phase, d.id, DecisionDigest(env.h, d), d.decisionType, d.subjectType, d.subjectId, d.artifact,
            d.supersedes)
  }

  /** The clock is read for the decision, for its trail entry, and for the day. */
  datatype Clock = Clock(decidedAt: string, stampedAt: string, today: int)

  function WithDecision(env: Env, f: Flow, d: Decision, stampedAt: string): Flow {
    f.(decisions := f.decisions + [d],
       trail := Stamped(env, f, Body(d.decidedBy, stampedAt, d.source, DecidedEvent(env, d))))
  }

  function Stores(env: Env, f: Flow, built: Checked<Decision>, stampedAt: string): (Flow, Option<Refusal>) {
    match built
    case Refused(refusal) => (f, Some(refusal))
    case Accepted(d) => (WithDecision(env, f, d, stampedAt), None)
  }

  /** What `build_decision` makes of a request in this state. */
  function Built(env: Env, f: Flow, r: Request, newId: string, time: Clock): Checked<Decision> {
    BuildDecision(env, f.drafts, f.status, Preparers(f), f.decisions, r, newId, time.decidedAt, time.today)
  }

  /** `record_decision`. */
  function RecordDecision(env: Env, f: Flow, r: Request, newId: string, time: Clock): (Flow, Option<Refusal>) {
    Stores(env, f, Built(env, f, r, newId, time), time.stampedAt)
  }

  // ---- Runs --------------------------------------------------------------------

  datatype Op =
    | DoRecordPreparer(preparer: string, required: bool, source: Option<IdentitySource>, now: string)
    | DoBegin
    | DoGenerate(phase: Phase, crew: CrewRun)
    | DoApprove(gate: Phase, human: string, source: Option<IdentitySource>, verified: Verified, now: string)
    | DoRetry(retried: nat, human: string, source: Option<IdentitySource>, now: string)
    | DoReturn(returned: nat, human: string, notes: string, source: Option<IdentitySource>, now: string)
    | DoOverride(overridden: nat, human: string, reason: string, source: Option<IdentitySource>, verified: Verified,
                 now: string)
    | DoDecide(request: Request, newId: string, time: Clock)

  function Do(env: Env, f: Flow, op: Op): (Flow, Option<Refusal>) {
    match op
    case DoRecordPreparer(preparer, required, source, now) => RecordPreparer(env, f, preparer, required, source, now)
    case DoBegin => BeginPhase1(f)
    case DoGenerate(phase, crew) => Generate(f, phase, crew)
    case DoApprove(gate, human, source, verified, now) => Approve(env, f, gate, human, source, verified, now)
    case DoRetry(phase, human, source, now) => Retry(env, f, phase, human, source, now)
    case DoReturn(phase, human, notes, source, now) => ReturnForRework(env, f, phase, human, notes, source, now)
    case DoOverride(phase, human, reason, source, verified, now) =>
      OverrideQa(env, f, phase, human, reason, source, verified, now)
    case DoDecide(r, newId, time) => RecordDecision(env, f, r, newId, time)
  }

  /** The flow after a sequence of operations. */
  function Exec(env: Env, f: Flow, ops: seq<Op>): Flow {
    if ops == [] then f else Do(env, Exec(env, f, ops[..|ops| - 1]), ops[|ops| - 1]).0
  }
}

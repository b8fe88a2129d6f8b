/** What every operation of the audit flow keeps. */
module FlowInvariant {
  import opened Options
  import opened Text
  import opened Schema
  import opened Machine
  import opened Records
  import opened Trail
  import opened TrailProofs
  import opened Policy
  import opened Decisions
  import opened DecisionProofs
  import opened Flow

  // ---- The invariant, part by part ---------------------------------------------

  /** The whole trail is one chain made under the current key. */
  ghost predicate TrailGood(env: Env, trail: seq<Entry>) {
    && trail != [] && FirstChained(trail) == 0 && ChainOk(env.h, env.key, trail)
    && forall i :: 0 <= i < |trail| ==> trail[i].hashAlg == Some(AlgFor(env.key))
  }

  /** The first entry, and no other, names the preparer. */
  predicate Origin(trail: seq<Entry>, preparedBy: string, required: bool) {
    && trail != [] && !Blank(preparedBy)
    && trail[0].body.human == preparedBy && trail[0].body.event == AuditCreated(required)
    && forall i :: 1 <= i < |trail| ==> !trail[i].body.event.AuditCreated?
  }

  /** The gates approved so far, in trail order. */
  function Gates(trail: seq<Entry>): seq<nat> {
    if trail == [] then []
    else
      var rest := Gates(trail[..|trail| - 1]);
      match trail[|trail| - 1].body.event
      case GateApproval(gate, _, _, _, _, _) => rest + [gate]
      case _ => rest
  }

  function FirstGates(n: nat): seq<nat> {
    if n == 0 then [] else FirstGates(n - 1) + [n]
  }

  function Ids(ds: seq<Decision>): (r: seq<string>)
    ensures |r| == |ds|
    ensures forall i :: 0 <= i < |ds| ==> r[i] == ds[i].id
  {
    if ds == [] then [] else Ids(ds[..|ds| - 1]) + [ds[|ds| - 1].id]
  }

  /** The trail records the stored decisions, each with its digest, in order. */
  ghost predicate RecordsMatch(h: Hasher, trail: seq<Entry>, ds: seq<Decision>) {
    && (forall p: nat :: RecordedIds(trail, p) == Ids(PhaseDecisions(ds, p)))
    && RecordedOnce(trail) == Ids(ds)
    && forall i :: 0 <= i < |ds| ==> RecordedDigest(trail, ds[i].id) == Some(DecisionDigest(h, ds[i]))
  }

  /** The seal on the decisions of gate `n` is over a moment of their history. */
  ghost predicate SealsDecisions(h: Hasher, ds: seq<Decision>, n: Phase, a: Approval, k: nat) {
    k <= |ds| && a.ids == Ids(PhaseDecisions(ds[..k], n))
    && a.sealed == Some(DecisionsDigest(h, PhaseDecisions(ds[..k], n)))
  }

  /** The approval of gate `n` seals the current draft, and the decisions of its phase at that time. */
  ghost predicate Sealed(h: Hasher, drafts: Artifacts, ds: seq<Decision>, n: Phase, a: Approval) {
    && a.gate == n
    && Current(drafts, NameOf(n)).Some? && a.digest == ArtifactDigest(h, Current(drafts, NameOf(n)).value)
    && (if n == 1 then a.sealed.None? else exists k: nat :: SealsDecisions(h, ds, n, a, k))
  }

  ghost predicate SealsHold(h: Hasher, drafts: Artifacts, ds: seq<Decision>, trail: seq<Entry>, passed: nat) {
    && (forall n: Phase :: var a := LatestApproval(trail, NameOf(n));
                           if n <= passed then a.Some? && Sealed(h, drafts, ds, n, a.value) else a.None?)
    && forall name: string :: LatestApproval(trail, OtherArtifact(name)).None?
  }

  /** The current draft of phase `n` is what its latest run left. */
  predicate MadeByLatestRun(f: Flow, n: Phase) {
    var r := LatestRun(f.runs, n);
    && r.Some? && r.value.output == Current(f.drafts, NameOf(n))
    && (r.value.outcome == QaApproved || r.value.outcome == QaRejected)
  }

  /** The phase has a draft somebody may still accept. */
  predicate Reviewable(s: AuditStatus, n: Phase) {
    n <= GatesPassed(s) || s == WaitingGate(n) || s == QaRejectedPhase(n)
  }

  predicate RunsHold(f: Flow) {
    && (forall n: Phase :: Reviewable(f.status, n) ==> MadeByLatestRun(f, n))
    && (f.status.WaitingGate? ==> Current(f.drafts, NameOf(f.status.phase)).Some?)
  }

  /** Every approval names the run that made the draft it seals. */
  predicate ApprovalsNameRuns(h: Hasher, f: Flow) {
    forall i :: 0 <= i < |f.trail| && f.trail[i].body.event.GateApproval? ==>
      var e := f.trail[i].body.event;
      && 1 <= e.gate <= GatesPassed(f.status) && e.artifact == NameOf(e.gate)
      && e.run.Some? && e.run == RunInfo(f, e.gate)
      && Current(f.drafts, NameOf(e.gate)).Some?
      && e.artifactDigest == ArtifactDigest(h, Current(f.drafts, NameOf(e.gate)).value)
  }

  /** Review actions, and the reviewer's own judgements. */
  predicate IsReview(e: Event) {
    e.GateApproval? || e.Returned? || e.Overridden? || (e.Decided? && ReviewerOnly(e.decisionType))
  }

  /** Everybody is named, nobody reviews what they prepared, and Gates 2 and 3 have different approvers. */
  predicate DutiesKept(fold: char -> string, trail: seq<Entry>, preparedBy: string) {
    forall i :: 0 <= i < |trail| ==>
      var b := trail[i].body;
      && !Blank(b.human)
      && (IsReview(b.event) ==> !SamePerson(fold, b.human, preparedBy))
      && (b.event.GateApproval? && b.event.gate == 3 ==>
            var other := GateApprover(trail[..i], 2);
            other.Some? ==> !SamePerson(fold, b.human, other.value))
  }

  /** The override entry lists exactly the controls that failed on the papers it accepted. */
  ghost predicate NamesUnverified(h: Hasher, e: Event, p: Papers, verified: Verified)
    requires e.Overridden?
  {
    e.artifactDigest == ArtifactDigest(h, PapersA(p))
    && e.unverifiedControls == Join(UnverifiedIn(p.findings, verified), ',')
  }

  ghost predicate OverridesHonest(h: Hasher, trail: seq<Entry>) {
    forall i :: 0 <= i < |trail| && trail[i].body.event.Overridden? && trail[i].body.event.phase == 2 ==>
      exists p: Papers, verified: Verified :: NamesUnverified(h, trail[i].body.event, p, verified)
  }

  predicate DraftsGood(a: Artifacts) {
    && (a.papers.Some? ==> PapersValid(a.papers.value) && FindingIdsGood(a.papers.value.findings))
    && (a.report.Some? ==> ReportValid(a.report.value) && EvaluationIdsGood(a.report.value.evaluations))
  }

  ghost predicate DecisionsGood(h: Hasher, ds: seq<Decision>) {
    Chained(ds) && forall i :: 0 <= i < |ds| ==> Sound(h, ds[i])
  }

  ghost predicate Inv(env: Env, f: Flow) {
    && TrailGood(env, f.trail)
    && Origin(f.trail, f.preparedBy, f.decisionsRequired)
    && Gates(f.trail) == FirstGates(GatesPassed(f.status))
    && RecordsMatch(env.h, f.trail, f.decisions)
    && SealsHold(env.h, f.drafts, f.decisions, f.trail, GatesPassed(f.status))
    && RunsHold(f) && ApprovalsNameRuns(env.h, f)
    && DutiesKept(env.fold, f.trail, f.preparedBy)
    && OverridesHonest(env.h, f.trail)
    && DraftsGood(f.drafts)
    && DecisionsGood(env.h, f.decisions)
  }

  // ---- What the run's inputs must satisfy --------------------------------------

  ghost predicate GoodDigest(h: Hasher) { Injective(h) && ProperDigest(h) }

  /** The ids of a crew's output are distinct, trimmed and comma-free. */
  predicate IdsGood(a: Attempt) {
    a.Finished? && a.output.Some? ==>
      match a.output.value
      case RacmA(_) => true
      case PapersA(p) => FindingIdsGood(p.findings)
      case ReportA(r) => EvaluationIdsGood(r.evaluations)
  }

  /** Decision and run ids are fresh; crew outputs have usable ids. */
  predicate OpOk(f: Flow, op: Op) {
    match op
    case DoDecide(_, newId, _) => newId != "" && !HasId(f.decisions, newId)
    case DoGenerate(_, crew) =>
      && IdsGood(crew.first) && IdsGood(crew.second)
      && (crew.start.Some? ==> forall i :: 0 <= i < |f.runs| ==> f.runs[i].info.runId != crew.start.value.runId)
    case _ => true
  }

  // ---- Appending one entry -----------------------------------------------------

  lemma AppendParts(h: Hasher, key: Option<string>, trail: seq<Entry>, body: Body)
    ensures var g := Append(h, key, trail, body);
            && |g| == |trail| + 1 && g[..|g| - 1] == trail && g[|g| - 1].body == body
            && g[|g| - 1].hashAlg == Some(AlgFor(key))
            && forall i :: 0 <= i < |trail| ==> g[i] == trail[i] && g[..i] == trail[..i]
  {
    var g := Append(h, key, trail, body);
    assert g[..|trail|] == trail;
    forall i | 0 <= i < |trail|
      ensures g[..i] == trail[..i]
    {
    }
  }

  lemma TrailStaysGood(env: Env, trail: seq<Entry>, body: Body)
    requires ProperDigest(env.h) && TrailGood(env, trail)
    ensures TrailGood(env, Append(env.h, env.key, trail, body))
  {
    AppendKeepsChain(env.h, env.key, trail, body);
    AppendParts(env.h, env.key, trail, body);
  }

  lemma OriginStays(env: Env, trail: seq<Entry>, body: Body, preparedBy: string, required: bool)
    requires Origin(trail, preparedBy, required) && !body.event.AuditCreated?
    ensures Origin(Append(env.h, env.key, trail, body), preparedBy, required)
  {
    AppendParts(env.h, env.key, trail, body);
  }

  /** An entry that is neither an approval nor a decision leaves what the trail records of them. */
  lemma RecordsStay(env: Env, trail: seq<Entry>, body: Body, ds: seq<Decision>)
    requires RecordsMatch(env.h, trail, ds) && !body.event.Decided?
    ensures RecordsMatch(env.h, Append(env.h, env.key, trail, body), ds)
  {
    AppendParts(env.h, env.key, trail, body);
  }

  lemma SealsStay(env: Env, trail: seq<Entry>, body: Body, drafts: Artifacts, ds: seq<Decision>, passed: nat)
    requires SealsHold(env.h, drafts, ds, trail, passed) && !body.event.GateApproval?
    ensures SealsHold(env.h, drafts, ds, Append(env.h, env.key, trail, body), passed)
  {
    var g := Append(env.h, env.key, trail, body);
    AppendParts(env.h, env.key, trail, body);
    forall name: ArtifactName
      ensures LatestApproval(g, name) == LatestApproval(trail, name)
    {
    }
  }

  lemma GatesStay(env: Env, trail: seq<Entry>, body: Body)
    requires !body.event.GateApproval?
    ensures Gates(Append(env.h, env.key, trail, body)) == Gates(trail)
  {
    AppendParts(env.h, env.key, trail, body);
  }

  /** A review entry by somebody the policy does not bar keeps the duties apart. */
  lemma DutiesStay(env: Env, trail: seq<Entry>, body: Body, preparedBy: string)
    requires DutiesKept(env.fold, trail, preparedBy) && !Blank(body.human)
    requires IsReview(body.event) ==> !SamePerson(env.fold, body.human, preparedBy)
    requires body.event.GateApproval? && body.event.gate == 3 ==>
               var other := GateApprover(trail, 2);
               other.Some? ==> !SamePerson(env.fold, body.human, other.value)
    ensures DutiesKept(env.fold, Append(env.h, env.key, trail, body), preparedBy)
  {
    AppendParts(env.h, env.key, trail, body);
    var g := Append(env.h, env.key, trail, body);
    assert g[..|trail|] == trail;
  }

  lemma OverridesStay(env: Env, trail: seq<Entry>, body: Body)
    requires OverridesHonest(env.h, trail)
    requires body.event.Overridden? && body.event.phase == 2 ==>
               exists p: Papers, verified: Verified :: NamesUnverified(env.h, body.event, p, verified)
    ensures OverridesHonest(env.h, Append(env.h, env.key, trail, body))
  {
    AppendParts(env.h, env.key, trail, body);
  }

  lemma ApprovalsStay(env: Env, f: Flow, g: Flow, body: Body)
    requires ApprovalsNameRuns(env.h, f) && !body.event.GateApproval?
    requires g.trail == Append(env.h, env.key, f.trail, body) && g.runs == f.runs && g.drafts == f.drafts
    requires GatesPassed(g.status) == GatesPassed(f.status)
    ensures ApprovalsNameRuns(env.h, g)
  {
    AppendParts(env.h, env.key, f.trail, body);
  }

  // ---- Operations that only move the status and stamp the trail ----------------

  /** What retry, return and override have in common. */
  ghost predicate Stamps(env: Env, f: Flow, g: Flow, body: Body) {
    && g == f.(status := g.status, qaReason := g.qaReason, trail := Append(env.h, env.key, f.trail, body))
    && (body.event.Retried? || body.event.Returned? || body.event.Overridden?)
    && !f.status.RunningPhase? && !Blank(body.human) && g.status in Targets(f.status)
    && GatesPassed(g.status) == GatesPassed(f.status)
    && (IsReview(body.event) ==> !SamePerson(env.fold, body.human, f.preparedBy))
    && (g.status.WaitingGate? ==> f.status.QaRejectedPhase? && Current(f.drafts, NameOf(f.status.phase)).Some?)
    && (body.event.Overridden? && body.event.phase == 2 ==>
          exists p: Papers, verified: Verified :: NamesUnverified(env.h, body.event, p, verified))
  }

  lemma StampKeepsTrailParts(env: Env, f: Flow, g: Flow, body: Body)
    requires ProperDigest(env.h) && Inv(env, f) && Stamps(env, f, g, body)
    ensures TrailGood(env, g.trail) && Origin(g.trail, g.preparedBy, g.decisionsRequired)
    ensures Gates(g.trail) == FirstGates(GatesPassed(g.status))
    ensures RecordsMatch(env.h, g.trail, g.decisions)
    ensures SealsHold(env.h, g.drafts, g.decisions, g.trail, GatesPassed(g.status))
  {
    TrailStaysGood(env, f.trail, body);
    OriginStays(env, f.trail, body, f.preparedBy, f.decisionsRequired);
    GatesStay(env, f.trail, body);
    RecordsStay(env, f.trail, body, f.decisions);
    SealsStay(env, f.trail, body, f.drafts, f.decisions, GatesPassed(f.status));
  }

  lemma StampKeepsInv(env: Env, f: Flow, g: Flow, body: Body)
    requires ProperDigest(env.h) && Inv(env, f) && Stamps(env, f, g, body)
    ensures Inv(env, g)
  {
    StampKeepsTrailParts(env, f, g, body);
    DutiesStay(env, f.trail, body, f.preparedBy);
    OverridesStay(env, f.trail, body);
    ApprovalsStay(env, f, g, body);
    forall n: Phase | Reviewable(g.status, n)
      ensures MadeByLatestRun(g, n)
    {
      assert Reviewable(f.status, n);
      assert MadeByLatestRun(f, n);
    }
  }

  /** Nobody the check lets through is the preparer. */
  lemma NotBarred(env: Env, f: Flow, action: ReviewAction, human: string, gate: Option<nat>)
    requires Origin(f.trail, f.preparedBy, f.decisionsRequired)
    requires !Barred(env, f, action, human, gate)
    ensures !SamePerson(env.fold, human, f.preparedBy)
    ensures action == ApproveAction && gate == Some(3) ==>
              var other := GateApprover(f.trail, 2);
              other.Some? ==> !SamePerson(env.fold, human, other.value)
  {
    assert Preparers(f)[0] == f.preparedBy;
    assert !SodViolation(env.fold, action, human, Preparers(f)[0], f.trail, gate);
    assert DistinctFrom(3)[0] == 2;
  }

  lemma RetryKeepsInv(env: Env, f: Flow, phase: nat, human: string, source: Option<IdentitySource>, now: string)
    requires ProperDigest(env.h) && Inv(env, f)
    ensures Inv(env, Retry(env, f, phase, human, source, now).0)
  {
    var (g, refusal) := Retry(env, f, phase, human, source, now);
    StripNotBlank(human);
    if refusal.None? {
      var body := Body(Strip(human), now, source.value,
                       Retried(phase, f.status, HashText(f.qaReason), RunInfo(f, phase)));
      StampKeepsInv(env, f, g, body);
    }
  }

  lemma ReturnKeepsInv(env: Env, f: Flow, phase: nat, human: string, notes: string, source: Option<IdentitySource>,
                       now: string)
    requires ProperDigest(env.h) && Inv(env, f)
    ensures Inv(env, ReturnForRework(env, f, phase, human, notes, source, now).0)
  {
    var (g, refusal) := ReturnForRework(env, f, phase, human, notes, source, now);
    StripNotBlank(human);
    if refusal.None? {
      NotBarred(env, f, ReturnAction, Strip(human), None);
      AppendParts(env.h, env.key, f.trail, g.trail[|f.trail|].body);
      StampKeepsInv(env, f, g, g.trail[|f.trail|].body);
    }
  }

  lemma OverrideKeepsInv(env: Env, f: Flow, phase: nat, human: string, reason: string, source: Option<IdentitySource>,
                         verified: Verified, now: string)
    requires ProperDigest(env.h) && Inv(env, f)
    ensures Inv(env, OverrideQa(env, f, phase, human, reason, source, verified, now).0)
  {
    var (g, refusal) := OverrideQa(env, f, phase, human, reason, source, verified, now);
    StripNotBlank(human);
    if refusal.None? {
      NotBarred(env, f, OverrideAction, Strip(human), None);
      var body := g.trail[|f.trail|].body;
      if phase == 2 {
        assert NamesUnverified(env.h, body.event, f.drafts.papers.value, verified);
      }
      StampKeepsInv(env, f, g, body);
    }
  }

  // ---- Approving a gate --------------------------------------------------------

  lemma ApprovalSeals(env: Env, f: Flow, body: Body, gate: Phase)
    requires ProperDigest(env.h) && SealsHold(env.h, f.drafts, f.decisions, f.trail, gate - 1)
    requires RecordsMatch(env.h, f.trail, f.decisions)
    requires Current(f.drafts, NameOf(gate)).Some? && body.event == ApprovalEvent(env, f, gate)
    ensures SealsHold(env.h, f.drafts, f.decisions, Append(env.h, env.key, f.trail, body), gate)
  {
    var g := Append(env.h, env.key, f.trail, body);
    AppendParts(env.h, env.key, f.trail, body);
    assert ArtifactDigest(env.h, Current(f.drafts, NameOf(gate)).value) != "";
    var a := LatestApproval(g, NameOf(gate)).value;
    assert f.decisions[..|f.decisions|] == f.decisions;
    assert gate != 1 ==> SealsDecisions(env.h, f.decisions, gate, a, |f.decisions|);
    forall n: Phase | n != gate
      ensures LatestApproval(g, NameOf(n)) == LatestApproval(f.trail, NameOf(n))
    {
    }
    forall name: string
      ensures LatestApproval(g, OtherArtifact(name)) == LatestApproval(f.trail, OtherArtifact(name))
    {
    }
  }

  /** `g` is `f` with gate `gate` approved by the entry `body`. */
  ghost predicate Approves(env: Env, f: Flow, g: Flow, gate: Phase, body: Body) {
    && f.status == WaitingGate(gate) && Current(f.drafts, NameOf(gate)).Some?
    && body.event == ApprovalEvent(env, f, gate) && !Blank(body.human)
    && g == f.(status := AfterGate(gate), trail := Append(env.h, env.key, f.trail, body))
    && !Barred(env, f, ApproveAction, body.human, Some(gate))
  }

  lemma GatesAfterApproval(env: Env, trail: seq<Entry>, body: Body, gate: Phase)
    requires body.event.GateApproval? && body.event.gate == gate && Gates(trail) == FirstGates(gate - 1)
    ensures Gates(Append(env.h, env.key, trail, body)) == FirstGates(gate)
  {
    AppendParts(env.h, env.key, trail, body);
  }

  lemma ApprovalKeepsSeals(env: Env, f: Flow, body: Body, gate: Phase)
    requires ProperDigest(env.h) && f.status == WaitingGate(gate)
    requires SealsHold(env.h, f.drafts, f.decisions, f.trail, GatesPassed(f.status))
             && RecordsMatch(env.h, f.trail, f.decisions)
    requires Current(f.drafts, NameOf(gate)).Some? && body.event == ApprovalEvent(env, f, gate)
    ensures SealsHold(env.h, f.drafts, f.decisions, Append(env.h, env.key, f.trail, body), GatesPassed(AfterGate(gate)))
  {
    var before, after := GatesPassed(f.status), GatesPassed(AfterGate(gate));
    assert before == gate - 1 && after == gate;
    ApprovalSeals(env, f, body, gate);
  }

  lemma ApprovalKeepsGates(env: Env, f: Flow, body: Body, gate: Phase)
    requires f.status == WaitingGate(gate) && Gates(f.trail) == FirstGates(GatesPassed(f.status))
    requires body.event.GateApproval? && body.event.gate == gate
    ensures Gates(Append(env.h, env.key, f.trail, body)) == FirstGates(GatesPassed(AfterGate(gate)))
  {
    var before, after := GatesPassed(f.status), GatesPassed(AfterGate(gate));
    assert before == gate - 1 && after == gate;
    GatesAfterApproval(env, f.trail, body, gate);
  }

  lemma ApprovalKeepsInv(env: Env, f: Flow, g: Flow, gate: Phase, body: Body)
    requires ProperDigest(env.h) && Inv(env, f) && Approves(env, f, g, gate, body)
    ensures Inv(env, g)
  {
    TrailStaysGood(env, f.trail, body);
    OriginStays(env, f.trail, body, f.preparedBy, f.decisionsRequired);
    RecordsStay(env, f.trail, body, f.decisions);
    ApprovalKeepsGates(env, f, body, gate);
    ApprovalKeepsSeals(env, f, body, gate);
    NotBarred(env, f, ApproveAction, body.human, Some(gate));
    DutiesStay(env, f.trail, body, f.preparedBy);
    OverridesStay(env, f.trail, body);
    ApprovalRunsHold(env, f, g, gate, body);
  }

  lemma ApproveKeepsInv(env: Env, f: Flow, gate: Phase, human: string, source: Option<IdentitySource>,
                        verified: Verified, now: string)
    requires ProperDigest(env.h) && Inv(env, f)
    ensures Inv(env, Approve(env, f, gate, human, source, verified, now).0)
  {
    var (g, refusal) := Approve(env, f, gate, human, source, verified, now);
    StripNotBlank(human);
    if refusal.None? {
      ApprovalKeepsInv(env, f, g, gate, Body(Strip(human), now, source.value, ApprovalEvent(env, f, gate)));
    }
  }

  lemma ApprovalRunsHold(env: Env, f: Flow, g: Flow, gate: Phase, body: Body)
    requires RunsHold(f) && ApprovalsNameRuns(env.h, f) && f.status == WaitingGate(gate)
    requires Current(f.drafts, NameOf(gate)).Some? && body.event == ApprovalEvent(env, f, gate)
    requires g == f.(status := AfterGate(gate), trail := Append(env.h, env.key, f.trail, body))
    ensures RunsHold(g) && ApprovalsNameRuns(env.h, g)
  {
    AppendParts(env.h, env.key, f.trail, body);
    assert Reviewable(f.status, gate);
    assert MadeByLatestRun(f, gate);
    forall n: Phase | Reviewable(g.status, n)
      ensures MadeByLatestRun(g, n)
    {
      assert Reviewable(f.status, n);
      assert MadeByLatestRun(f, n);
    }
  }

  // ---- Recording a decision ----------------------------------------------------

  lemma DecisionRecorded(env: Env, trail: seq<Entry>, ds: seq<Decision>, d: Decision, body: Body)
    requires RecordsMatch(env.h, trail, ds) && d.id != "" && !HasId(ds, d.id)
    requires body.event == DecidedEvent(env, d)
    ensures RecordsMatch(env.h, Append(env.h, env.key, trail, body), ds + [d])
  {
    var g, all := Append(env.h, env.key, trail, body), ds + [d];
    AppendParts(env.h, env.key, trail, body);
    assert all[..|ds|] == ds;
    assert forall i :: 0 <= i < |ds| ==> ds[i].id != d.id;
    assert d.id !in RecordedOnce(trail);
    assert Ids(all) == Ids(ds) + [d.id];
    assert RecordedOnce(g) == RecordedOnce(trail) + [d.id];
    forall i | 0 <= i < |all|
      ensures RecordedDigest(g, all[i].id) == Some(DecisionDigest(env.h, all[i]))
    {
      if i < |ds| {
        assert ds[i].id != d.id;
      }
    }
  }

  lemma SealsStayForDecision(env: Env, trail: seq<Entry>, body: Body, drafts: Artifacts, ds: seq<Decision>, d: Decision,
                             passed: nat)
    requires SealsHold(env.h, drafts, ds, trail, passed) && body.event.Decided?
    ensures SealsHold(env.h, drafts, ds + [d], Append(env.h, env.key, trail, body), passed)
  {
    SealsStay(env, trail, body, drafts, ds, passed);
    var g := Append(env.h, env.key, trail, body);
    forall n: Phase | n <= passed
      ensures Sealed(env.h, drafts, ds + [d], n, LatestApproval(g, NameOf(n)).value)
    {
      if n != 1 {
        var k: nat :| SealsDecisions(env.h, ds, n, LatestApproval(g, NameOf(n)).value, k);
        assert (ds + [d])[..k] == ds[..k];
        assert SealsDecisions(env.h, ds + [d], n, LatestApproval(g, NameOf(n)).value, k);
      }
    }
  }

  /** `g` is `f` with one more accepted decision. */
  ghost predicate Decides(env: Env, f: Flow, g: Flow, d: Decision, at: string) {
    && g == WithDecision(env, f, d, at)
    && !Blank(d.decidedBy) && Fresh(f.decisions, d.id) && Enters(env.h, f.drafts, f.decisions, d) && Sound(env.h, d)
    && (ReviewerOnly(d.decisionType) ==> !SamePerson(env.fold, d.decidedBy, f.preparedBy))
  }

  lemma DecisionKeepsTrailParts(env: Env, f: Flow, g: Flow, d: Decision, at: string)
    requires ProperDigest(env.h) && Inv(env, f) && Decides(env, f, g, d, at)
    ensures TrailGood(env, g.trail) && Origin(g.trail, g.preparedBy, g.decisionsRequired)
    ensures Gates(g.trail) == FirstGates(GatesPassed(g.status))
    ensures RecordsMatch(env.h, g.trail, g.decisions)
    ensures SealsHold(env.h, g.drafts, g.decisions, g.trail, GatesPassed(g.status))
  {
    var body := Body(d.decidedBy, at, d.source, DecidedEvent(env, d));
    TrailStaysGood(env, f.trail, body);
    OriginStays(env, f.trail, body, f.preparedBy, f.decisionsRequired);
    GatesStay(env, f.trail, body);
    DecisionRecorded(env, f.trail, f.decisions, d, body);
    SealsStayForDecision(env, f.trail, body, f.drafts, f.decisions, d, GatesPassed(f.status));
  }

  lemma RunsStay(f: Flow, g: Flow)
    requires RunsHold(f) && g.status == f.status && g.drafts == f.drafts && g.runs == f.runs
    ensures RunsHold(g)
  {
    forall n: Phase | Reviewable(g.status, n)
      ensures MadeByLatestRun(g, n)
    {
      assert Reviewable(f.status, n);
      assert MadeByLatestRun(f, n);
    }
  }

  lemma DecisionKeepsInv(env: Env, f: Flow, g: Flow, d: Decision, at: string)
    requires ProperDigest(env.h) && Inv(env, f) && Decides(env, f, g, d, at)
    ensures Inv(env, g)
  {
    var body := Body(d.decidedBy, at, d.source, DecidedEvent(env, d));
    DecisionKeepsTrailParts(env, f, g, d, at);
    DutiesStay(env, f.trail, body, f.preparedBy);
    OverridesStay(env, f.trail, body);
    ApprovalsStay(env, f, g, body);
    AcceptKeepsChains(env.h, f.drafts, f.decisions, d);
    RunsStay(f, g);
  }

  lemma RecordDecisionKeepsInv(env: Env, f: Flow, r: Request, newId: string, time: Clock)
    requires GoodDigest(env.h) && Inv(env, f) && newId != "" && !HasId(f.decisions, newId)
    ensures Inv(env, RecordDecision(env, f, r, newId, time).0)
  {
    var b := Built(env, f, r, newId, time);
    if b.Accepted? {
      AcceptedShape(env, f.drafts, f.status, Preparers(f), f.decisions, r, newId, time.decidedAt, time.today);
      AcceptedIsSound(env, f.drafts, f.status, Preparers(f), f.decisions, r, newId, time.decidedAt, time.today);
      assert Preparers(f)[0] == f.preparedBy;
      DecisionKeepsInv(env, f, WithDecision(env, f, b.value, time.stampedAt), b.value, time.stampedAt);
    }
  }

  // ---- Running a phase ---------------------------------------------------------

  /** `g` is `f` after a phase run: only the draft of the running phase can differ. */
  predicate RunsPhase(f: Flow, g: Flow, n: Phase) {
    && f.status == RunningPhase(n)
    && g == f.(status := g.status, drafts := g.drafts, runs := g.runs, qaReason := g.qaReason)
    && (forall p: Phase :: p != n ==>
          Current(g.drafts, NameOf(p)) == Current(f.drafts, NameOf(p)) && LatestRun(g.runs, p) == LatestRun(f.runs, p))
    && (g.status == RunningPhase(n) || g.status == ErrorPhase(n)
        || (g.status == QaRejectedPhase(n) && MadeByLatestRun(g, n))
        || (g.status == WaitingGate(n) && MadeByLatestRun(g, n) && Current(g.drafts, NameOf(n)).Some?))
    && DraftsGood(g.drafts)
  }

  lemma RunKeepsInv(env: Env, f: Flow, g: Flow, n: Phase)
    requires Inv(env, f) && RunsPhase(f, g, n)
    ensures Inv(env, g)
  {
    assert GatesPassed(g.status) == GatesPassed(f.status) == n - 1;
    forall p: Phase | Reviewable(g.status, p)
      ensures MadeByLatestRun(g, p)
    {
      if p != n {
        assert Reviewable(f.status, p);
        assert MadeByLatestRun(f, p);
      }
    }
    RunKeepsSeals(env, f, g, n);
    forall i | 0 <= i < |g.trail| && g.trail[i].body.event.GateApproval?
      ensures RunInfo(g, g.trail[i].body.event.gate) == RunInfo(f, g.trail[i].body.event.gate)
    {
    }
  }

  lemma RunKeepsSeals(env: Env, f: Flow, g: Flow, n: Phase)
    requires SealsHold(env.h, f.drafts, f.decisions, f.trail, n - 1) && RunsPhase(f, g, n)
    ensures SealsHold(env.h, g.drafts, f.decisions, f.trail, n - 1)
  {
    forall p: Phase | p <= n - 1
      ensures Sealed(env.h, g.drafts, f.decisions, p, LatestApproval(f.trail, NameOf(p)).value)
    {
      assert Sealed(env.h, f.drafts, f.decisions, p, LatestApproval(f.trail, NameOf(p)).value);
    }
  }

  lemma OneMoreRun(runs: seq<Run>, r: Run)
    ensures forall p: nat :: LatestRun(runs + [r], p) == if p == r.phase then Some(r) else LatestRun(runs, p)
  {
    assert (runs + [r])[..|runs|] == runs;
  }

  /** The output a phase run can store is valid and has usable ids. */
  lemma EndIsGood(phase: Phase, crew: CrewRun)
    requires IdsGood(crew.first) && IdsGood(crew.second)
    ensures match EndOf(phase, crew)
            case CrewCrashed(_, _) => true
            case CrewRejected(output, _) => output.Some? ==> OutputGood(output.value)
            case CrewPassed(_, output) => output.Some? ==> OutputGood(output.value)
  {
  }

  predicate OutputGood(a: Artifact) {
    && ArtifactValid(a)
    && match a
       case RacmA(_) => true
       case PapersA(p) => FindingIdsGood(p.findings)
       case ReportA(r) => EvaluationIdsGood(r.evaluations)
  }

  /** A phase run that ends without a draft to keep. */
  lemma FailedRuns(f: Flow, phase: Phase, r: Run, reason: string)
    requires f.status == RunningPhase(phase) && DraftsGood(f.drafts) && r.phase == phase
    ensures RunsPhase(f, Failed(f.(runs := f.runs + [r]), phase, reason), phase)
  {
    OneMoreRun(f.runs, r);
  }

  /** A phase run that stores its draft, or clears it. */
  lemma StoredRuns(f: Flow, g: Flow, phase: Phase, r: Run, kept: Option<Artifact>)
    requires f.status == RunningPhase(phase) && DraftsGood(f.drafts)
    requires kept.Some? ==> OfPhase(kept.value, phase) && OutputGood(kept.value)
    requires r.phase == phase && r.output == kept
             && (r.outcome == QaRejected || (r.outcome == QaApproved && kept.Some?))
    requires g == f.(status := if r.outcome == QaApproved then WaitingGate(phase) else QaRejectedPhase(phase),
                     drafts := SetDraft(f.drafts, phase, kept), runs := f.runs + [r], qaReason := g.qaReason)
    ensures RunsPhase(f, g, phase)
  {
    OneMoreRun(f.runs, r);
    assert MadeByLatestRun(g, phase);
  }

  lemma RunPhaseRuns(f: Flow, phase: Phase, info: Provenance, crew: CrewRun)
    requires f.status == RunningPhase(phase) && DraftsGood(f.drafts)
    requires IdsGood(crew.first) && IdsGood(crew.second)
    ensures RunsPhase(f, RunPhase(f, phase, info, crew), phase)
  {
    EndIsGood(phase, crew);
    var g := RunPhase(f, phase, info, crew);
    var end := EndOf(phase, crew);
    var r := g.runs[|f.runs|];
    if end.CrewRejected? {
      StoredRuns(f, g, phase, r, r.output);
    } else if end.CrewPassed? && end.output.Some? && OfPhase(end.output.value, phase) {
      StoredRuns(f, g, phase, r, r.output);
    } else {
      FailedRuns(f, phase, r, g.qaReason.value);
    }
  }

  lemma GenerateKeepsInv(env: Env, f: Flow, phase: Phase, crew: CrewRun)
    requires Inv(env, f) && IdsGood(crew.first) && IdsGood(crew.second)
    ensures Inv(env, Generate(f, phase, crew).0)
  {
    var begun := if phase == 1 && f.status == WaitingForScope then f.(status := RunningPhase(1)) else f;
    if f.status == WaitingForScope {
      BeginKeepsInv(env, f);
    }
    if begun.status == RunningPhase(phase) {
      GenerateRuns(begun, phase, crew);
      RunKeepsInv(env, begun, Generate(begun, phase, crew).0, phase);
    }
  }

  lemma GenerateRuns(f: Flow, phase: Phase, crew: CrewRun)
    requires f.status == RunningPhase(phase) && DraftsGood(f.drafts) && IdsGood(crew.first) && IdsGood(crew.second)
    ensures RunsPhase(f, Generate(f, phase, crew).0, phase)
  {
    var g := f.(qaReason := None);
    var stopped := StoppedEarly(g, phase, crew);
    if stopped.None? {
      RunPhaseRuns(g, phase, crew.start.value, crew);
      SameButReason(f, RunPhase(g, phase, crew.start.value, crew), phase);
    } else {
      NothingRan(f, phase, crew);
      assert Generate(f, phase, crew) == stopped.value;
    }
  }

  lemma SameButReason(f: Flow, r: Flow, phase: Phase)
    requires RunsPhase(f.(qaReason := None), r, phase)
    ensures RunsPhase(f, r, phase)
  {
  }

  lemma FailedEarly(f: Flow, phase: Phase, reason: string)
    requires f.status == RunningPhase(phase) && DraftsGood(f.drafts)
    ensures RunsPhase(f, Failed(f.(qaReason := None), phase, reason), phase)
    ensures RunsPhase(f, f.(qaReason := None), phase)
  {
  }

  lemma NothingRan(f: Flow, phase: Phase, crew: CrewRun)
    requires f.status == RunningPhase(phase) && DraftsGood(f.drafts)
    ensures var stopped := StoppedEarly(f.(qaReason := None), phase, crew);
            stopped.Some? ==> RunsPhase(f, stopped.value.0, phase)
  {
    FailedEarly(f, phase, if phase == 2 then NO_RACM else NO_PAPERS);
  }

  lemma BeginKeepsInv(env: Env, f: Flow)
    requires Inv(env, f)
    ensures Inv(env, BeginPhase1(f).0)
  {
    var g := BeginPhase1(f).0;
    assert forall n: Phase :: Reviewable(g.status, n) ==> Reviewable(f.status, n);
    assert forall n: Phase :: MadeByLatestRun(f, n) ==> MadeByLatestRun(g, n);
  }

  // ---- Every run ---------------------------------------------------------------

  /** The flow right after `record_preparer` on a new audit. */
  function Created(env: Env, preparer: string, required: bool, source: IdentitySource, now: string): Flow {
    RecordPreparer(env, Initial(), preparer, required, Some(source), now).0
  }

  lemma CreatedIsGood(env: Env, preparer: string, required: bool, source: IdentitySource, now: string)
    requires ProperDigest(env.h) && !Blank(preparer)
    ensures Inv(env, Created(env, preparer, required, source, now))
  {
    var f := Created(env, preparer, required, source, now);
    var body := Body(Strip(preparer), now, source, AuditCreated(required));
    StripNotBlank(preparer);
    AppendKeepsChain(env.h, env.key, [], body);
    AppendParts(env.h, env.key, [], body);
    RecordsStay(env, [], body, []);
    assert f.trail == Append(env.h, env.key, [], body);
    FirstEntryIsGood(env, f, required);
  }

  /** With one entry that creates the audit, duties, runs and overrides hold as they stand. */
  lemma FirstEntryIsGood(env: Env, f: Flow, required: bool)
    requires |f.trail| == 1 && f.trail[0].body.event == AuditCreated(required) && !Blank(f.trail[0].body.human)
    requires f.status == WaitingForScope && f.drafts == Artifacts(None, None, None) && f.decisions == []
    ensures Gates(f.trail) == FirstGates(GatesPassed(f.status))
    ensures SealsHold(env.h, f.drafts, f.decisions, f.trail, GatesPassed(f.status))
    ensures RunsHold(f) && ApprovalsNameRuns(env.h, f)
    ensures DutiesKept(env.fold, f.trail, f.preparedBy) && OverridesHonest(env.h, f.trail)
    ensures DraftsGood(f.drafts) && DecisionsGood(env.h, f.decisions)
  {
    assert f.trail[..0] == [];
  }

  lemma DoKeepsInv(env: Env, f: Flow, op: Op)
    requires GoodDigest(env.h) && Inv(env, f) && OpOk(f, op)
    ensures Inv(env, Do(env, f, op).0)
  {
    match op
    case DoRecordPreparer(_, _, _, _) => assert f.preparedBy != "";
    case DoBegin => BeginKeepsInv(env, f);
    case DoGenerate(phase, crew) => GenerateKeepsInv(env, f, phase, crew);
    case DoApprove(gate, human, source, verified, now) => ApproveKeepsInv(env, f, gate, human, source, verified, now);
    case DoRetry(phase, human, source, now) => RetryKeepsInv(env, f, phase, human, source, now);
    case DoReturn(phase, human, notes, source, now) => ReturnKeepsInv(env, f, phase, human, notes, source, now);
    case DoOverride(phase, human, reason, source, verified, now) =>
      OverrideKeepsInv(env, f, phase, human, reason, source, verified, now);
    case DoDecide(r, newId, time) => RecordDecisionKeepsInv(env, f, r, newId, time);
  }

  /** The inputs of a run are usable at every step. */
  predicate Legit(env: Env, f: Flow, ops: seq<Op>) {
    ops == [] || (Legit(env, f, ops[..|ops| - 1]) && OpOk(Exec(env, f, ops[..|ops| - 1]), ops[|ops| - 1]))
  }

  /** Every state a run reaches is good. */
  lemma {:induction false} RunKeeps(env: Env, f: Flow, ops: seq<Op>)
    requires GoodDigest(env.h) && Inv(env, f) && Legit(env, f, ops)
    ensures Inv(env, Exec(env, f, ops))
  {
    if ops != [] {
      RunKeeps(env, f, ops[..|ops| - 1]);
      DoKeepsInv(env, Exec(env, f, ops[..|ops| - 1]), ops[|ops| - 1]);
    }
  }
}

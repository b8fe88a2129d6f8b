/** Completed runs, and what no longer changes after a gate. */
module FlowHistory {
  import opened Options
  import opened Text
  import opened Schema
  import opened Machine
  import opened Records
  import opened Trail
  import opened Policy
  import opened Decisions
  import opened DecisionProofs
  import opened Flow
  import opened FlowInvariant
  import opened FlowResults

  // ---- Approvals of a completed run --------------------------------------------

  predicate ApprovesGate(e: Entry, gate: nat) {
    e.body.event.GateApproval? && e.body.event.gate == gate
  }

  /** Every approval has its place in the list of gates. */
  lemma {:induction false} ApprovalIndex(trail: seq<Entry>, i: nat)
    requires i < |trail| && trail[i].body.event.GateApproval?
    ensures |Gates(trail[..i])| < |Gates(trail)| && Gates(trail)[|Gates(trail[..i])|] == trail[i].body.event.gate
  {
    var init := trail[..|trail| - 1];
    if i < |init| {
      ApprovalIndex(init, i);
      assert init[..i] == trail[..i];
    } else {
      assert trail[..i] == init;
    }
  }

  /** Every gate in the list has its entry. */
  lemma {:induction false} GateEntry(trail: seq<Entry>, k: nat) returns (i: nat)
    requires k < |Gates(trail)|
    ensures i < |trail| && ApprovesGate(trail[i], Gates(trail)[k]) && |Gates(trail[..i])| == k
  {
    var init := trail[..|trail| - 1];
    if k < |Gates(init)| {
      i := GateEntry(init, k);
      assert init[..i] == trail[..i];
    } else {
      i := |init|;
    }
  }

  lemma {:induction false} GatesGrow(trail: seq<Entry>, i: nat, j: nat)
    requires i <= j <= |trail|
    ensures |Gates(trail[..i])| <= |Gates(trail[..j])|
    decreases j
  {
    if i < j {
      GatesGrow(trail, i, j - 1);
      assert trail[..j][..j - 1] == trail[..j - 1];
    }
  }

  lemma GatesOrdered(trail: seq<Entry>, i: nat, j: nat)
    requires i < |trail| && j < |trail| && |Gates(trail[..i])| < |Gates(trail[..j])|
    ensures i < j
  {
    if j <= i {
      GatesGrow(trail, j, i);
    }
  }

  lemma {:induction false} ApproverIs(trail: seq<Entry>, i: nat, gate: nat)
    requires i < |trail| && ApprovesGate(trail[i], gate)
    requires forall j :: i < j < |trail| ==> !ApprovesGate(trail[j], gate)
    ensures GateApprover(trail, gate) == Some(trail[i].body.human)
  {
    var init := trail[..|trail| - 1];
    if i < |init| {
      ApproverIs(init, i, gate);
    }
  }

  /** Two approvals of the same gate are the same entry, when no gate is listed twice. */
  lemma OneApproval(trail: seq<Entry>, i: nat, j: nat)
    requires i < |trail| && j < |trail| && trail[i].body.event.GateApproval? && trail[j].body.event.GateApproval?
    requires trail[i].body.event.gate == trail[j].body.event.gate
    requires forall a, b :: 0 <= a < b < |Gates(trail)| ==> Gates(trail)[a] != Gates(trail)[b]
    ensures i == j
  {
    ApprovalIndex(trail, i);
    ApprovalIndex(trail, j);
    if i < j {
      GateCounted(trail, i, j);
    } else if j < i {
      GateCounted(trail, j, i);
    }
  }

  lemma GateCounted(trail: seq<Entry>, i: nat, j: nat)
    requires i < j <= |trail| && trail[i].body.event.GateApproval?
    ensures |Gates(trail[..i])| < |Gates(trail[..j])|
  {
    assert trail[..j][..i] == trail[..i];
    ApprovalIndex(trail[..j], i);
  }

  /** Different people: neither name is a respelling of the other. */
  predicate Different(fold: char -> string, a: string, b: string) {
    !Respelled(fold, a, b) && !Respelled(fold, b, a)
  }

  lemma NotSameIsDifferent(fold: char -> string, a: string, b: string)
    requires FoldKeeps(fold) && !Blank(a) && !SamePerson(fold, a, b)
    ensures Different(fold, a, b)
  {
    if Respelled(fold, b, a) {
      assert Respelled(fold, a, b);
    }
    if Respelled(fold, a, b) {
      RespelledIsSame(fold, a, b);
    }
  }

  /** An approval, a return, an override, or a judgement only a reviewer may record. */
  predicate ByReviewer(e: Event) {
    || e.GateApproval? || e.Returned? || e.Overridden?
    || (e.Decided? &&
        e.decisionType in {SignOff, Challenge, Classify, ScopeLimitation, EngagementConclusion,
                           RemediationVerification})
  }

  /** No approval, override, return or reviewer-only decision is by the preparer, however the name is spelt. */
  lemma PreparerNeverReviews(env: Env, f: Flow, i: nat)
    requires GoodDigest(env.h) && FoldKeeps(env.fold) && Reachable(env, f)
    requires i < |f.trail| && ByReviewer(f.trail[i].body.event)
    ensures Different(env.fold, f.trail[i].body.human, f.preparedBy)
  {
    ReachableIsGood(env, f);
    NotSameIsDifferent(env.fold, f.trail[i].body.human, f.preparedBy);
  }

  lemma ThreeGates()
    ensures FirstGates(3) == [1, 2, 3]
  {
    assert FirstGates(2) == [1, 2];
  }

  /** Before the Gate 3 approval, the latest Gate 2 approver is that of `i2`. */
  lemma SecondApprover(trail: seq<Entry>, i2: nat, i3: nat)
    requires Gates(trail) == [1, 2, 3] && i2 < i3 < |trail| && ApprovesGate(trail[i2], 2)
    ensures GateApprover(trail[..i3], 2) == Some(trail[i2].body.human)
  {
    var before := trail[..i3];
    forall j | i2 < j < |before|
      ensures !ApprovesGate(before[j], 2)
    {
      if ApprovesGate(trail[j], 2) {
        OneApproval(trail, i2, j);
      }
    }
    ApproverIs(before, i2, 2);
  }

  /** The Gate 3 approver of a run differs from its Gate 2 approver. */
  lemma ApproversDiffer(env: Env, trail: seq<Entry>, preparedBy: string, i2: nat, i3: nat)
    requires DutiesKept(env.fold, trail, preparedBy) && FoldKeeps(env.fold) && Gates(trail) == [1, 2, 3]
    requires i2 < i3 < |trail| && ApprovesGate(trail[i2], 2) && ApprovesGate(trail[i3], 3)
    ensures Different(env.fold, trail[i3].body.human, trail[i2].body.human)
  {
    SecondApprover(trail, i2, i3);
    NotSameIsDifferent(env.fold, trail[i3].body.human, trail[i2].body.human);
  }

  /** Where the three approvals are. */
  lemma ThreeApprovals(trail: seq<Entry>) returns (i1: nat, i2: nat, i3: nat)
    requires Gates(trail) == [1, 2, 3]
    ensures i1 < i2 < i3 < |trail|
    ensures ApprovesGate(trail[i1], 1) && ApprovesGate(trail[i2], 2) && ApprovesGate(trail[i3], 3)
  {
    i1 := GateEntry(trail, 0);
    i2 := GateEntry(trail, 1);
    i3 := GateEntry(trail, 2);
    GatesOrdered(trail, i1, i2);
    GatesOrdered(trail, i2, i3);
  }

  lemma NoFourthApproval(trail: seq<Entry>, i1: nat, i2: nat, i3: nat, i: nat)
    requires Gates(trail) == [1, 2, 3] && i1 < |trail| && i2 < |trail| && i3 < |trail| && i < |trail|
    requires ApprovesGate(trail[i1], 1) && ApprovesGate(trail[i2], 2) && ApprovesGate(trail[i3], 3)
    requires trail[i].body.event.GateApproval?
    ensures i == i1 || i == i2 || i == i3
  {
    ApprovalIndex(trail, i);
    var gate := trail[i].body.event.gate;
    OneApproval(trail, i, if gate == 1 then i1 else if gate == 2 then i2 else i3);
  }

  /** The three approvals, at `i1`, `i2` and `i3`, are all there are; the last two are by different people. */
  ghost predicate ApprovedInOrder(env: Env, trail: seq<Entry>, i1: nat, i2: nat, i3: nat) {
    && i1 < i2 < i3 < |trail|
    && ApprovesGate(trail[i1], 1) && ApprovesGate(trail[i2], 2) && ApprovesGate(trail[i3], 3)
    && (forall i :: 0 <= i < |trail| && trail[i].body.event.GateApproval? ==> i == i1 || i == i2 || i == i3)
    && Different(env.fold, trail[i3].body.human, trail[i2].body.human)
  }

  lemma ApprovedTrail(env: Env, trail: seq<Entry>, preparedBy: string) returns (i1: nat, i2: nat, i3: nat)
    requires DutiesKept(env.fold, trail, preparedBy) && FoldKeeps(env.fold) && Gates(trail) == [1, 2, 3]
    ensures ApprovedInOrder(env, trail, i1, i2, i3)
  {
    i1, i2, i3 := ThreeApprovals(trail);
    forall i | 0 <= i < |trail| && trail[i].body.event.GateApproval?
      ensures i == i1 || i == i2 || i == i3
    {
      NoFourthApproval(trail, i1, i2, i3, i);
    }
    ApproversDiffer(env, trail, preparedBy, i2, i3);
  }

  lemma CompletedGates(env: Env, f: Flow)
    requires Inv(env, f) && f.status == Completed
    ensures Gates(f.trail) == [1, 2, 3] && DutiesKept(env.fold, f.trail, f.preparedBy)
  {
    ThreeGates();
  }

  /** Every completed run has exactly one approval of each gate, in order, and two people at Gates 2 and 3. */
  lemma CompletedApprovals(env: Env, f: Flow) returns (i1: nat, i2: nat, i3: nat)
    requires GoodDigest(env.h) && FoldKeeps(env.fold) && Reachable(env, f) && f.status == Completed
    ensures ApprovedInOrder(env, f.trail, i1, i2, i3)
  {
    ReachableIsGood(env, f);
    CompletedGates(env, f);
    i1, i2, i3 := ApprovedTrail(env, f.trail, f.preparedBy);
  }

  // ---- What freezes after Gate 2 -----------------------------------------------

  /** A slot's active decision depends on the drafts only through its own subjects' artifact. */
  lemma {:induction false} ActiveInOtherDrafts(h: Hasher, a: Artifacts, b: Artifacts, all: seq<Decision>,
                                               part: seq<Decision>, key: SlotKey)
    requires forall x :: x in part && KeyOf(x) == key ==> OnCurrentDraft(h, a, x) == OnCurrentDraft(h, b, x)
    ensures ActiveIn(h, a, all, part, key) == ActiveIn(h, b, all, part, key)
  {
    if part != [] {
      ActiveInOtherDrafts(h, a, b, all, part[..|part| - 1], key);
    }
  }

  /** The fieldwork conclusions of `g` are those of `f`. */
  ghost predicate SameConclusions(h: Hasher, f: Flow, g: Flow) {
    && g.drafts.papers == f.drafts.papers && g.drafts.racm == f.drafts.racm
    && forall id ::
         ActiveFor(h, g.drafts, g.decisions, ReviewKey(id)) == ActiveFor(h, f.drafts, f.decisions, ReviewKey(id))
  }

  lemma GenerateKeepsConclusions(env: Env, f: Flow, phase: Phase, crew: CrewRun)
    requires Inv(env, f) && GatesPassed(f.status) >= 2 && IdsGood(crew.first) && IdsGood(crew.second)
    ensures SameConclusions(env.h, f, Generate(f, phase, crew).0)
  {
    var g := Generate(f, phase, crew).0;
    if f.status == RunningPhase(phase) {
      GenerateRuns(f, phase, crew);
      assert Current(g.drafts, NameOf(1)) == Current(f.drafts, NameOf(1))
             && Current(g.drafts, NameOf(2)) == Current(f.drafts, NameOf(2));
      forall id
        ensures ActiveFor(env.h, g.drafts, g.decisions, ReviewKey(id))
                == ActiveFor(env.h, f.drafts, f.decisions, ReviewKey(id))
      {
        ActiveInOtherDrafts(env.h, g.drafts, f.drafts, f.decisions, f.decisions, ReviewKey(id));
      }
    }
  }

  lemma DecisionKeepsConclusions(env: Env, f: Flow, r: Request, newId: string, time: Clock)
    requires Inv(env, f) && GatesPassed(f.status) >= 2 && newId != "" && !HasId(f.decisions, newId)
    ensures SameConclusions(env.h, f, RecordDecision(env, f, r, newId, time).0)
  {
    var b := Built(env, f, r, newId, time);
    if b.Accepted? {
      AcceptedShape(env, f.drafts, f.status, Preparers(f), f.decisions, r, newId, time.decidedAt, time.today);
      forall id
        ensures ActiveFor(env.h, f.drafts, f.decisions + [b.value], ReviewKey(id))
                == ActiveFor(env.h, f.drafts, f.decisions, ReviewKey(id))
      {
        ActiveAfterAccept(env.h, f.drafts, f.decisions, b.value, ReviewKey(id));
      }
    }
  }

  lemma OthersKeepDrafts(env: Env, f: Flow, op: Op)
    requires !op.DoGenerate? && !op.DoDecide?
    ensures var g := Do(env, f, op).0; g.drafts == f.drafts && g.decisions == f.decisions && g.runs == f.runs
  {
  }

  lemma EndPassesNoGate(f: Flow, phase: Phase, info: Provenance, end: CrewEnd)
    requires f.status == RunningPhase(phase)
    ensures GatesPassed(Ended(f, phase, info, end).status) == GatesPassed(f.status)
  {
  }

  lemma GeneratePassesNoGate(f: Flow, phase: Phase, crew: CrewRun)
    ensures GatesPassed(Generate(f, phase, crew).0.status) == GatesPassed(f.status)
  {
    var begun := if phase == 1 && f.status == WaitingForScope then f.(status := RunningPhase(1)) else f;
    if begun.status == RunningPhase(phase) && crew.start.Some? {
      EndPassesNoGate(begun.(qaReason := None), phase, crew.start.value, EndOf(phase, crew));
    }
  }

  lemma ApprovePassesItsGate(env: Env, f: Flow, gate: Phase, human: string, source: Option<IdentitySource>,
                             verified: Verified, now: string)
    ensures GatesPassed(Approve(env, f, gate, human, source, verified, now).0.status) >= GatesPassed(f.status)
  {
  }

  lemma OverridePassesNoGate(env: Env, f: Flow, phase: nat, human: string, reason: string,
                             source: Option<IdentitySource>, verified: Verified, now: string)
    ensures GatesPassed(OverrideQa(env, f, phase, human, reason, source, verified, now).0.status)
            == GatesPassed(f.status)
  {
  }

  lemma OthersPassNoGate(env: Env, f: Flow, op: Op)
    requires !op.DoGenerate? && !op.DoApprove? && !op.DoOverride?
    ensures GatesPassed(Do(env, f, op).0.status) == GatesPassed(f.status)
  {
  }

  lemma GateStaysPassed(env: Env, f: Flow, op: Op)
    ensures GatesPassed(Do(env, f, op).0.status) >= GatesPassed(f.status)
  {
    match op
    case DoGenerate(phase, crew) => GeneratePassesNoGate(f, phase, crew);
    case DoApprove(gate, human, source, verified, now) =>
      ApprovePassesItsGate(env, f, gate, human, source, verified, now);
    case DoOverride(phase, human, reason, source, verified, now) =>
      OverridePassesNoGate(env, f, phase, human, reason, source, verified, now);
    case _ => OthersPassNoGate(env, f, op);
  }

  lemma DoKeepsConclusions(env: Env, f: Flow, op: Op)
    requires Inv(env, f) && OpOk(f, op) && GatesPassed(f.status) >= 2
    ensures SameConclusions(env.h, f, Do(env, f, op).0)
  {
    match op
    case DoGenerate(phase, crew) => GenerateKeepsConclusions(env, f, phase, crew);
    case DoDecide(r, newId, time) => DecisionKeepsConclusions(env, f, r, newId, time);
    case _ => OthersKeepDrafts(env, f, op);
  }

  lemma {:induction false} ConclusionsFreezeFrom(env: Env, f: Flow, ops: seq<Op>)
    requires GoodDigest(env.h) && Inv(env, f) && Legit(env, f, ops) && GatesPassed(f.status) >= 2
    ensures SameConclusions(env.h, f, Exec(env, f, ops)) && GatesPassed(Exec(env, f, ops).status) >= 2
  {
    if ops != [] {
      var init := ops[..|ops| - 1];
      ConclusionsFreezeFrom(env, f, init);
      RunKeeps(env, f, init);
      DoKeepsConclusions(env, Exec(env, f, init), ops[|ops| - 1]);
      GateStaysPassed(env, Exec(env, f, init), ops[|ops| - 1]);
    }
  }

  /**
   * After Gate 2 no sequence of operations changes a finding, its review or
   * its conclusion of record.
   */
  lemma ConclusionsFreeze(env: Env, f: Flow, ops: seq<Op>, i: nat)
    requires GoodDigest(env.h) && Reachable(env, f) && Legit(env, f, ops) && GatesPassed(f.status) >= 2
    requires f.drafts.papers.Some? && i < |f.drafts.papers.value.findings|
    ensures var g := Exec(env, f, ops);
            var finding := f.drafts.papers.value.findings[i];
            && g.drafts.papers == f.drafts.papers
            && ViewOfFinding(env.h, g.drafts, g.decisions, finding).effective
               == ViewOfFinding(env.h, f.drafts, f.decisions, finding).effective
            && ViewOfFinding(env.h, g.drafts, g.decisions, finding).review
               == ViewOfFinding(env.h, f.drafts, f.decisions, finding).review
            && DraftConclusions(EffectivePapers(env.h, g.drafts, g.decisions).value.findings[i])
               == DraftConclusions(EffectivePapers(env.h, f.drafts, f.decisions).value.findings[i])
  {
    ReachableIsGood(env, f);
    ConclusionsFreezeFrom(env, f, ops);
    var g := Exec(env, f, ops);
    OverlayIsTheView(env.h, f.drafts, f.decisions, i);
    OverlayIsTheView(env.h, g.drafts, g.decisions, i);
  }

  // ---- What can still change after completion ----------------------------------

  predicate OpenAfterCompletion(key: SlotKey) {
    key.slot == TypeSlot(ManagementResponse) || key.slot == TypeSlot(RemediationVerification)
  }

  /** Everything but management responses and remediation is as in `f`. */
  ghost predicate Closed(h: Hasher, f: Flow, g: Flow) {
    && g.status == Completed && g.drafts == f.drafts && g.runs == f.runs
    && forall key :: !OpenAfterCompletion(key) ==>
         ActiveFor(h, g.drafts, g.decisions, key) == ActiveFor(h, f.drafts, f.decisions, key)
  }

  /** At most the trail and the preparer differ. */
  ghost predicate Untouched(f: Flow, g: Flow) {
    g.status == f.status && g.drafts == f.drafts && g.runs == f.runs && g.decisions == f.decisions
  }

  lemma NoReviewAfterCompletion(env: Env, f: Flow, op: Op)
    requires f.status == Completed && (op.DoApprove? || op.DoRetry? || op.DoReturn? || op.DoOverride?)
    ensures Do(env, f, op).0 == f
  {
  }

  lemma CompletedIsFinal(env: Env, f: Flow, op: Op)
    requires f.status == Completed && !op.DoDecide?
    ensures Untouched(f, Do(env, f, op).0)
  {
    if op.DoApprove? || op.DoRetry? || op.DoReturn? || op.DoOverride? {
      NoReviewAfterCompletion(env, f, op);
    }
  }

  lemma DecisionAfterCompletion(env: Env, f: Flow, r: Request, newId: string, time: Clock)
    requires Inv(env, f) && f.status == Completed && newId != "" && !HasId(f.decisions, newId)
    ensures Closed(env.h, f, RecordDecision(env, f, r, newId, time).0)
  {
    var b := Built(env, f, r, newId, time);
    if b.Accepted? {
      AcceptedShape(env, f.drafts, f.status, Preparers(f), f.decisions, r, newId, time.decidedAt, time.today);
      forall key | !OpenAfterCompletion(key)
        ensures ActiveFor(env.h, f.drafts, f.decisions + [b.value], key) == ActiveFor(env.h, f.drafts, f.decisions, key)
      {
        ActiveAfterAccept(env.h, f.drafts, f.decisions, b.value, key);
      }
    }
  }

  lemma OpAfterCompletion(env: Env, f: Flow, op: Op)
    requires Inv(env, f) && OpOk(f, op) && f.status == Completed
    ensures Closed(env.h, f, Do(env, f, op).0)
  {
    if op.DoDecide? {
      DecisionAfterCompletion(env, f, op.request, op.newId, op.time);
    } else {
      CompletedIsFinal(env, f, op);
    }
  }

  lemma ClosedTwice(h: Hasher, f: Flow, g: Flow, k: Flow)
    requires Closed(h, f, g) && Closed(h, g, k)
    ensures Closed(h, f, k)
  {
  }

  /** After completion only management responses and remediation can still be recorded. */
  lemma {:induction false} CompletionFreezes(env: Env, f: Flow, ops: seq<Op>)
    requires GoodDigest(env.h) && Inv(env, f) && Legit(env, f, ops) && f.status == Completed
    ensures Closed(env.h, f, Exec(env, f, ops))
  {
    if ops != [] {
      var init, op := ops[..|ops| - 1], ops[|ops| - 1];
      CompletionFreezes(env, f, init);
      RunKeeps(env, f, init);
      var g := Exec(env, f, init);
      OpAfterCompletion(env, g, op);
      ClosedTwice(env.h, f, g, Do(env, g, op).0);
    }
  }

  lemma ClosedFindings(h: Hasher, f: Flow, g: Flow, finding: Finding)
    requires Closed(h, f, g)
    ensures ViewOfFinding(h, g.drafts, g.decisions, finding) == ViewOfFinding(h, f.drafts, f.decisions, finding)
  {
    assert !OpenAfterCompletion(ReviewKey(finding.controlId)) && !OpenAfterCompletion(ScopeKey(finding.controlId));
  }

  lemma ClosedEvaluations(h: Hasher, f: Flow, g: Flow, e: Evaluation)
    requires Closed(h, f, g)
    ensures ViewOfEvaluation(h, g.drafts, g.decisions, e).effective
            == ViewOfEvaluation(h, f.drafts, f.decisions, e).effective
  {
    assert !OpenAfterCompletion(DeficiencyKey(Classify, e.deficiencyId));
  }

  /** After completion the drafts, the fieldwork conclusions and the classifications of record are final. */
  lemma CompletedIsSettled(env: Env, f: Flow, ops: seq<Op>, finding: Finding, e: Evaluation)
    requires GoodDigest(env.h) && Reachable(env, f) && Legit(env, f, ops) && f.status == Completed
    ensures var g := Exec(env, f, ops);
            && g.status == Completed && g.drafts == f.drafts
            && ViewOfFinding(env.h, g.drafts, g.decisions, finding)
               == ViewOfFinding(env.h, f.drafts, f.decisions, finding)
            && ViewOfEvaluation(env.h, g.drafts, g.decisions, e).effective
               == ViewOfEvaluation(env.h, f.drafts, f.decisions, e).effective
  {
    ReachableIsGood(env, f);
    CompletionFreezes(env, f, ops);
    ClosedFindings(env.h, f, Exec(env, f, ops), finding);
    ClosedEvaluations(env.h, f, Exec(env, f, ops), e);
  }
}

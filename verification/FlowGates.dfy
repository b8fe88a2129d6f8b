/** When a gate opens, and what every run that passed it has recorded (src/swarm/audit_flow.py). */
module FlowGates {
  import opened Options
  import opened Text
  import opened Schema
  import opened Machine
  import opened Records
  import opened Trail
  import opened Policy
  import opened Decisions
  import opened DecisionProofs
  import opened GateDecisions
  import opened GatesOpen
  import opened Flow
  import opened FlowInvariant
  import opened FlowResults
  import opened FlowHistory
  import opened FlowDecisions

  // ---- When an approval is accepted --------------------------------------------

  lemma PapersPassed(h: Hasher, drafts: Artifacts, ds: seq<Decision>, trail: seq<Entry>, passed: nat)
    requires SealsHold(h, drafts, ds, trail, passed) && passed >= 2
    ensures drafts.papers.Some?
  {
    var two: Phase := 2;
    assert Sealed(h, drafts, ds, two, LatestApproval(trail, NameOf(two)).value);
  }

  /** At Gates 2 and 3 the working papers are there, valid, and fit for the gate. */
  lemma GateDrafts(env: Env, f: Flow, gate: Phase)
    requires Inv(env, f) && f.status == WaitingGate(gate) && gate != 1
    ensures AtGate(f.drafts, gate) && Chained(f.decisions)
    ensures f.drafts.papers.Some? && PapersValid(f.drafts.papers.value)
  {
    GateIsReady(env, f, gate);
    if gate == 3 {
      PapersPassed(env.h, f.drafts, f.decisions, f.trail, GatesPassed(f.status));
    }
  }

  lemma RequiredIsFlag(f: Flow)
    requires Origin(f.trail, f.preparedBy, f.decisionsRequired)
    ensures Required(f) <==> f.decisionsRequired
  {
    assert f.trail[0].body.event == AuditCreated(f.decisionsRequired);
  }

  /** Every finding's quote stands, or the latest override of exactly these papers named its control. */
  ghost predicate EvidenceStands(env: Env, f: Flow, verified: Verified) {
    f.drafts.papers.Some? ==>
      forall i :: 0 <= i < |f.drafts.papers.value.findings| ==>
        || QuoteStands(f.drafts.papers.value.findings[i], verified)
        || f.drafts.papers.value.findings[i].controlId
             in AcceptedIn(f.trail, ArtifactDigest(env.h, PapersA(f.drafts.papers.value)))
  }

  lemma {:induction false} UnverifiedHas(fs: seq<Finding>, verified: Verified, accepted: set<string>)
    requires forall i :: 0 <= i < |fs| ==> fs[i].controlId != ""
    ensures (forall id :: id in UnverifiedIn(fs, verified) ==> id in accepted)
            <==> forall i :: 0 <= i < |fs| ==> QuoteStands(fs[i], verified) || fs[i].controlId in accepted
  {
    if fs != [] {
      var init := fs[..|fs| - 1];
      UnverifiedHas(init, verified, accepted);
      var rest := UnverifiedIn(init, verified);
      var last := fs[|fs| - 1];
      assert EvidenceOk(last, verified) <==> QuoteStands(last, verified);
      assert forall id :: id in rest + [last.controlId] <==> id in rest || id == last.controlId;
    }
  }

  lemma NothingLeftOver(ids: seq<string>, accepted: set<string>)
    ensures Without(ids, accepted) == [] <==> forall id :: id in ids ==> id in accepted
  {
    var left := Without(ids, accepted);
    if left != [] {
      assert left[0] in left;
    }
  }

  lemma EvidenceStandsIff(env: Env, f: Flow, verified: Verified)
    requires DraftsGood(f.drafts)
    ensures EvidenceStands(env, f, verified)
            <==> Without(Unverified(f, verified), AcceptedUnverified(env, f)) == []
  {
    NothingLeftOver(Unverified(f, verified), AcceptedUnverified(env, f));
    UnverifiedHas(ContextFindings(f.drafts), verified, AcceptedUnverified(env, f));
  }

  /** What an approval asks, told without the order in which the code asks it. */
  ghost predicate MayApprove(env: Env, f: Flow, gate: Phase, human: string, source: Option<IdentitySource>,
                             verified: Verified)
  {
    && !Blank(human) && source.Some? && f.status == WaitingGate(gate)
    && !Barred(env, f, ApproveAction, Strip(human), Some(gate))
    && (gate == 2 ==> EvidenceStands(env, f, verified))
    && (f.decisionsRequired ==> GateNeedsMet(env.h, f.drafts, f.decisions, gate))
  }

  lemma RefusalsAre(env: Env, f: Flow, gate: Phase, human: string, source: Option<IdentitySource>, verified: Verified)
    ensures ApprovalRefusal(env, f, gate, human, source, verified).None?
            <==> && !Blank(human) && source.Some? && f.status == WaitingGate(gate)
                 && !Barred(env, f, ApproveAction, Strip(human), Some(gate))
                 && (gate == 2 ==> Without(Unverified(f, verified), AcceptedUnverified(env, f)) == [])
                 && Current(f.drafts, NameOf(gate)).Some?
                 && (gate != 1 && Required(f) ==> MissingFor(env.h, f.drafts, f.decisions, gate) == [])
  {
  }

  lemma GateNeedsKnown(env: Env, f: Flow, gate: Phase)
    requires Inv(env, f) && f.status == WaitingGate(gate)
    ensures Current(f.drafts, NameOf(gate)).Some?
    ensures (gate != 1 && Required(f) ==> MissingFor(env.h, f.drafts, f.decisions, gate) == [])
            <==> (f.decisionsRequired ==> GateNeedsMet(env.h, f.drafts, f.decisions, gate))
  {
    RequiredIsFlag(f);
    if gate != 1 {
      GateDrafts(env, f, gate);
      NothingMissingIff(env.h, f.drafts, f.decisions, gate);
    }
  }

  lemma ApprovalWhen(env: Env, f: Flow, gate: Phase, human: string, source: Option<IdentitySource>, verified: Verified)
    requires Inv(env, f)
    ensures ApprovalRefusal(env, f, gate, human, source, verified).None?
            <==> MayApprove(env, f, gate, human, source, verified)
  {
    RefusalsAre(env, f, gate, human, source, verified);
    EvidenceStandsIff(env, f, verified);
    if f.status == WaitingGate(gate) {
      GateNeedsKnown(env, f, gate);
    }
  }

  lemma ApproveByRefusal(env: Env, f: Flow, gate: Phase, human: string, source: Option<IdentitySource>,
                         verified: Verified, now: string)
    ensures Approve(env, f, gate, human, source, verified, now).1
            == ApprovalRefusal(env, f, gate, human, source, verified)
  {
  }

  /** In every reachable state an approval is accepted exactly when it may be. */
  lemma ApprovalAcceptedIff(env: Env, f: Flow, gate: Phase, human: string, source: Option<IdentitySource>,
                            verified: Verified, now: string)
    requires GoodDigest(env.h) && Reachable(env, f)
    ensures Approve(env, f, gate, human, source, verified, now).1.None?
            <==> MayApprove(env, f, gate, human, source, verified)
  {
    ReachableIsGood(env, f);
    ApproveByRefusal(env, f, gate, human, source, verified, now);
    ApprovalWhen(env, f, gate, human, source, verified);
  }

  // ---- What a run that passed a gate has recorded -------------------------------

  /** When decisions are required, the needs of every gate passed are met, of the drafts as they are now. */
  ghost predicate NeedsKept(env: Env, f: Flow) {
    f.decisionsRequired ==>
      && (GatesPassed(f.status) >= 2 ==> GateNeedsMet(env.h, f.drafts, f.decisions, 2))
      && (f.status == Completed ==> GateNeedsMet(env.h, f.drafts, f.decisions, 3))
  }

  lemma ReviewsFollow(env: Env, f: Flow, g: Flow)
    requires SameConclusions(env.h, f, g) && Chained(f.decisions) && Chained(g.decisions)
    requires FindingsReviewed(env.h, f.drafts, f.decisions)
    ensures FindingsReviewed(env.h, g.drafts, g.decisions)
  {
    var p := f.drafts.papers.value;
    forall i | 0 <= i < |p.findings|
      ensures Judged(env.h, g.decisions, PapersA(p), REVIEWS, FindingSubject, p.findings[i].controlId)
              <==> Judged(env.h, f.decisions, PapersA(p), REVIEWS, FindingSubject, p.findings[i].controlId)
    {
      ReviewJudgedIff(env.h, f.drafts, f.decisions, p.findings[i].controlId);
      ReviewJudgedIff(env.h, g.drafts, g.decisions, p.findings[i].controlId);
    }
  }

  lemma JudgementFollows(env: Env, f: Flow, g: Flow, t: DecisionType, subjectType: SubjectType, id: string,
                         draft: Artifact)
    requires Closed(env.h, f, g) && Chained(f.decisions) && Chained(g.decisions)
    requires t in {Classify, ScopeLimitation, EngagementConclusion}
    requires Decidable(f.drafts, ArtifactFor(subjectType)) == Some(draft)
    ensures Judged(env.h, g.decisions, draft, {t}, subjectType, id)
            <==> Judged(env.h, f.decisions, draft, {t}, subjectType, id)
  {
    assert !OpenAfterCompletion(SlotKey(TypeSlot(t), subjectType, id));
    TypeJudgedIff(env.h, f.drafts, f.decisions, t, subjectType, id, draft);
    TypeJudgedIff(env.h, g.drafts, g.decisions, t, subjectType, id, draft);
  }

  lemma ResultFollows(env: Env, f: Flow, g: Flow, i: nat)
    requires Closed(env.h, f, g) && f.drafts.papers.Some? && i < |f.drafts.papers.value.findings|
    requires PapersValid(f.drafts.papers.value) && FindingIdsGood(f.drafts.papers.value.findings)
    ensures EffectivePapers(env.h, g.drafts, g.decisions).value.findings[i].result
            == EffectivePapers(env.h, f.drafts, f.decisions).value.findings[i].result
  {
    OverlayIsTheView(env.h, f.drafts, f.decisions, i);
    OverlayIsTheView(env.h, g.drafts, g.decisions, i);
    ClosedFindings(env.h, f, g, f.drafts.papers.value.findings[i]);
  }

  lemma ScopesFollow(env: Env, f: Flow, g: Flow)
    requires Closed(env.h, f, g) && Chained(f.decisions) && Chained(g.decisions) && DraftsGood(f.drafts)
    requires ScopesLimited(env.h, f.drafts, f.decisions)
    ensures ScopesLimited(env.h, g.drafts, g.decisions)
  {
    var p := f.drafts.papers.value;
    forall i | 0 <= i < |p.findings|
      ensures Judged(env.h, g.decisions, PapersA(p), {ScopeLimitation}, FindingSubject, p.findings[i].controlId)
              <==> Judged(env.h, f.decisions, PapersA(p), {ScopeLimitation}, FindingSubject, p.findings[i].controlId)
      ensures EffectivePapers(env.h, g.drafts, g.decisions).value.findings[i].result
              == EffectivePapers(env.h, f.drafts, f.decisions).value.findings[i].result
    {
      JudgementFollows(env, f, g, ScopeLimitation, FindingSubject, p.findings[i].controlId, PapersA(p));
      ResultFollows(env, f, g, i);
    }
  }

  lemma ReportFollows(env: Env, f: Flow, g: Flow)
    requires Closed(env.h, f, g) && Chained(f.decisions) && Chained(g.decisions) && DraftsGood(f.drafts)
    requires GateNeedsMet(env.h, f.drafts, f.decisions, 3)
    ensures GateNeedsMet(env.h, g.drafts, g.decisions, 3)
  {
    var r := f.drafts.report.value;
    ScopesFollow(env, f, g);
    JudgementFollows(env, f, g, EngagementConclusion, EngagementSubject, "engagement", ReportA(r));
    forall i | 0 <= i < |r.evaluations|
      ensures Judged(env.h, g.decisions, ReportA(r), {Classify}, DeficiencySubject, r.evaluations[i].deficiencyId)
              <==> Judged(env.h, f.decisions, ReportA(r), {Classify}, DeficiencySubject, r.evaluations[i].deficiencyId)
    {
      JudgementFollows(env, f, g, Classify, DeficiencySubject, r.evaluations[i].deficiencyId, ReportA(r));
    }
  }

  lemma FlagStays(env: Env, f: Flow, op: Op)
    requires f.preparedBy != ""
    ensures Do(env, f, op).0.decisionsRequired == f.decisionsRequired
  {
    if op.DoGenerate? {
      GenerateKeepsFlag(f, op.phase, op.crew);
    }
  }

  lemma GenerateKeepsFlag(f: Flow, phase: Phase, crew: CrewRun)
    ensures Generate(f, phase, crew).0.decisionsRequired == f.decisionsRequired
  {
  }

  /** A gate is passed only by an accepted approval of it. */
  lemma PassedByApproval(env: Env, f: Flow, op: Op)
    requires GatesPassed(Do(env, f, op).0.status) > GatesPassed(f.status)
    ensures op.DoApprove? && Do(env, f, op).1.None? && f.status == WaitingGate(op.gate)
    ensures Do(env, f, op).0.status == AfterGate(op.gate)
  {
    match op
    case DoGenerate(phase, crew) => GeneratePassesNoGate(f, phase, crew);
    case DoApprove(gate, human, source, verified, now) =>
    case DoOverride(phase, human, reason, source, verified, now) =>
      OverridePassesNoGate(env, f, phase, human, reason, source, verified, now);
    case _ => OthersPassNoGate(env, f, op);
  }

  lemma ApprovalMeetsNeeds(env: Env, f: Flow, op: Op)
    requires Inv(env, f) && op.DoApprove? && Do(env, f, op).1.None? && f.decisionsRequired
    ensures GateNeedsMet(env.h, f.drafts, f.decisions, op.gate)
    ensures Do(env, f, op).0.drafts == f.drafts && Do(env, f, op).0.decisions == f.decisions
  {
    ApproveByRefusal(env, f, op.gate, op.human, op.source, op.verified, op.now);
    ApprovalWhen(env, f, op.gate, op.human, op.source, op.verified);
    OthersKeepDrafts(env, f, op);
  }

  lemma FieldworkNeedsKept(env: Env, f: Flow, op: Op)
    requires GoodDigest(env.h) && Inv(env, f) && OpOk(f, op) && NeedsKept(env, f) && f.decisionsRequired
    requires GatesPassed(Do(env, f, op).0.status) >= 2
    ensures GateNeedsMet(env.h, Do(env, f, op).0.drafts, Do(env, f, op).0.decisions, 2)
  {
    var g := Do(env, f, op).0;
    if GatesPassed(f.status) >= 2 {
      DoKeepsInv(env, f, op);
      DoKeepsConclusions(env, f, op);
      ReviewsFollow(env, f, g);
    } else {
      PassedByApproval(env, f, op);
      ApprovalMeetsNeeds(env, f, op);
    }
  }

  lemma ReportNeedsStay(env: Env, f: Flow, op: Op)
    requires GoodDigest(env.h) && Inv(env, f) && OpOk(f, op) && f.status == Completed
    requires GateNeedsMet(env.h, f.drafts, f.decisions, 3)
    ensures GateNeedsMet(env.h, Do(env, f, op).0.drafts, Do(env, f, op).0.decisions, 3)
  {
    DoKeepsInv(env, f, op);
    OpAfterCompletion(env, f, op);
    ReportFollows(env, f, Do(env, f, op).0);
  }

  lemma ReportNeedsKept(env: Env, f: Flow, op: Op)
    requires GoodDigest(env.h) && Inv(env, f) && OpOk(f, op) && NeedsKept(env, f) && f.decisionsRequired
    requires Do(env, f, op).0.status == Completed
    ensures GateNeedsMet(env.h, Do(env, f, op).0.drafts, Do(env, f, op).0.decisions, 3)
  {
    if f.status == Completed {
      ReportNeedsStay(env, f, op);
    } else {
      PassedByApproval(env, f, op);
      ApprovalMeetsNeeds(env, f, op);
    }
  }

  lemma DoKeepsNeeds(env: Env, f: Flow, op: Op)
    requires GoodDigest(env.h) && Inv(env, f) && OpOk(f, op) && NeedsKept(env, f)
    ensures NeedsKept(env, Do(env, f, op).0)
  {
    var g := Do(env, f, op).0;
    FlagStays(env, f, op);
    if f.decisionsRequired {
      if GatesPassed(g.status) >= 2 {
        FieldworkNeedsKept(env, f, op);
      }
      if g.status == Completed {
        ReportNeedsKept(env, f, op);
      }
    }
  }

  lemma {:induction false} RunKeepsNeeds(env: Env, start: Flow, ops: seq<Op>)
    requires GoodDigest(env.h) && Inv(env, start) && NeedsKept(env, start) && Legit(env, start, ops)
    ensures NeedsKept(env, Exec(env, start, ops))
  {
    if ops != [] {
      var init := ops[..|ops| - 1];
      RunKeepsNeeds(env, start, init);
      RunKeeps(env, start, init);
      DoKeepsNeeds(env, Exec(env, start, init), ops[|ops| - 1]);
    }
  }

  lemma StartNeedsNothing(env: Env, start: Flow)
    requires Starts(env, start)
    ensures NeedsKept(env, start)
  {
  }

  /**
   * An audit that requires decisions, once past Gate 2, has a sign-off or a
   * challenge standing for every exception and every finding on a key control;
   * once completed, a classification for every deficiency, a scope limitation
   * for every key control untested of record, and an engagement conclusion.
   */
  lemma RequiredDecisionsStand(env: Env, f: Flow)
    requires GoodDigest(env.h) && Reachable(env, f) && f.decisionsRequired
    ensures GatesPassed(f.status) >= 2 ==> FindingsReviewed(env.h, f.drafts, f.decisions)
    ensures f.status == Completed ==>
              && DeficienciesClassified(env.h, f.drafts, f.decisions)
              && ScopesLimited(env.h, f.drafts, f.decisions)
              && EngagementConcluded(env.h, f.drafts, f.decisions)
  {
    var start: Flow, ops: seq<Op> :| Starts(env, start) && Legit(env, start, ops) && f == Exec(env, start, ops);
    StartIsGood(env, start);
    StartNeedsNothing(env, start);
    RunKeepsNeeds(env, start, ops);
  }

  /**
   * Every completed run has exactly one approval of each gate, in the order
   * 1, 2, 3, Gates 2 and 3 were approved by different people, and every
   * decision the gates require stands.
   */
  lemma CompletedRun(env: Env, f: Flow) returns (i1: nat, i2: nat, i3: nat)
    requires GoodDigest(env.h) && FoldKeeps(env.fold) && Reachable(env, f) && f.status == Completed
    ensures ApprovedInOrder(env, f.trail, i1, i2, i3)
    ensures f.decisionsRequired ==>
              GateNeedsMet(env.h, f.drafts, f.decisions, 2) && GateNeedsMet(env.h, f.drafts, f.decisions, 3)
  {
    i1, i2, i3 := CompletedApprovals(env, f);
    if f.decisionsRequired {
      RequiredDecisionsStand(env, f);
    }
  }
}

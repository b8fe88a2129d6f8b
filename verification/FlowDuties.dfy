/** Who may act on an audit, over every spelling of a name (src/swarm/review_policy.py). */
module FlowDuties {
  import opened Options
  import opened Text
  import opened Machine
  import opened Records
  import opened Policy
  import opened Decisions
  import opened DecisionProofs
  import opened Flow
  import opened FlowInvariant
  import opened FlowResults
  import opened FlowHistory

  // ---- Who is barred -----------------------------------------------------------

  /** The trail names no creator but the preparer. */
  lemma {:induction false} CreatorsArePreparer(trail: seq<Entry>, preparedBy: string, n: nat)
    requires n <= |trail| && |trail| > 0 && trail[0].body.human == preparedBy
    requires forall i :: 1 <= i < |trail| ==> !trail[i].body.event.AuditCreated?
    ensures forall k :: 0 <= k < |CreatedBy(trail[..n])| ==> CreatedBy(trail[..n])[k] == preparedBy
  {
    if n > 0 {
      CreatorsArePreparer(trail, preparedBy, n - 1);
      assert trail[..n][..n - 1] == trail[..n - 1];
    }
  }

  lemma PreparersAre(f: Flow)
    requires Origin(f.trail, f.preparedBy, f.decisionsRequired)
    ensures |Preparers(f)| > 0 && forall i :: 0 <= i < |Preparers(f)| ==> Preparers(f)[i] == f.preparedBy
  {
    CreatorsArePreparer(f.trail, f.preparedBy, |f.trail|);
    assert f.trail[..|f.trail|] == f.trail;
  }

  /** The approver the latest approval of `gate` names, read off the trail. */
  ghost predicate Approved(trail: seq<Entry>, gate: nat, human: string) {
    exists i :: 0 <= i < |trail| && ApprovesGate(trail[i], gate) && trail[i].body.human == human
  }

  /** When no gate is approved twice, the approver of a gate is whoever approved it. */
  lemma ApproverOfGate(trail: seq<Entry>, gate: nat)
    requires forall a, b :: 0 <= a < b < |Gates(trail)| ==> Gates(trail)[a] != Gates(trail)[b]
    ensures forall human :: Approved(trail, gate, human) <==> GateApprover(trail, gate) == Some(human)
  {
    if i :| 0 <= i < |trail| && ApprovesGate(trail[i], gate) {
      forall j | i < j < |trail|
        ensures !ApprovesGate(trail[j], gate)
      {
        if ApprovesGate(trail[j], gate) {
          OneApproval(trail, i, j);
        }
      }
      ApproverIs(trail, i, gate);
      forall j | 0 <= j < |trail| && ApprovesGate(trail[j], gate)
        ensures j == i
      {
        OneApproval(trail, i, j);
      }
    } else {
      NoApprover(trail, gate);
    }
  }

  lemma {:induction false} NoApprover(trail: seq<Entry>, gate: nat)
    requires forall i :: 0 <= i < |trail| ==> !ApprovesGate(trail[i], gate)
    ensures GateApprover(trail, gate).None?
  {
    if trail != [] {
      NoApprover(trail[..|trail| - 1], gate);
    }
  }

  lemma {:induction false} FirstGatesAre(n: nat)
    ensures |FirstGates(n)| == n && forall i :: 0 <= i < n ==> FirstGates(n)[i] == i + 1
  {
    if n > 0 {
      FirstGatesAre(n - 1);
    }
  }

  /** The person prepared the audit, or approved Gate 2 and is about to approve Gate 3. */
  ghost predicate Involved(fold: char -> string, f: Flow, action: ReviewAction, human: string, gate: Option<nat>) {
    || Respelled(fold, human, f.preparedBy)
    || (action == ApproveAction && gate == Some(3) &&
        exists other :: Approved(f.trail, 2, other) && Respelled(fold, human, other))
  }

  /** A violation, in terms of the two people who matter. */
  lemma BarredBy(env: Env, f: Flow, action: ReviewAction, human: string, gate: Option<nat>)
    requires Inv(env, f)
    ensures Barred(env, f, action, human, gate)
            <==> || SamePerson(env.fold, human, f.preparedBy)
                 || (action == ApproveAction && gate == Some(3) &&
                     exists other :: Approved(f.trail, 2, other) && SamePerson(env.fold, human, other))
  {
    PreparersAre(f);
    FirstGatesAre(GatesPassed(f.status));
    ApproverOfGate(f.trail, 2);
    var violated := SodViolation(env.fold, action, human, f.preparedBy, f.trail, gate);
    assert Barred(env, f, action, human, gate) <==> violated by {
      assert Preparers(f)[0] == f.preparedBy;
    }
    ViolatedBy(env, f, action, human, gate);
  }

  lemma ViolatedBy(env: Env, f: Flow, action: ReviewAction, human: string, gate: Option<nat>)
    requires forall h :: Approved(f.trail, 2, h) <==> GateApprover(f.trail, 2) == Some(h)
    ensures SodViolation(env.fold, action, human, f.preparedBy, f.trail, gate)
            <==> || SamePerson(env.fold, human, f.preparedBy)
                 || (action == ApproveAction && gate == Some(3) &&
                     exists other :: Approved(f.trail, 2, other) && SamePerson(env.fold, human, other))
  {
    assert DistinctFrom(3)[0] == 2;
    var approver := GateApprover(f.trail, 2);
    assert approver.Some? ==> Approved(f.trail, 2, approver.value);
  }

  /**
   * Every respelling of the preparer is barred from the three review actions,
   * and every respelling of the Gate 2 approver from Gate 3. With a fold that
   * takes characters to characters, nobody else is.
   */
  lemma BarredIff(env: Env, f: Flow, action: ReviewAction, human: string, gate: Option<nat>)
    requires GoodDigest(env.h) && FoldKeeps(env.fold) && Reachable(env, f) && !Blank(human)
    ensures Involved(env.fold, f, action, human, gate) ==> Barred(env, f, action, human, gate)
    ensures FoldOnce(env.fold) ==>
              (Barred(env, f, action, human, gate) <==> Involved(env.fold, f, action, human, gate))
  {
    ReachableIsGood(env, f);
    BarredBy(env, f, action, human, gate);
    SameAsRespelled(env.fold, human);
  }

  lemma SameAsRespelled(fold: char -> string, human: string)
    requires FoldKeeps(fold) && !Blank(human)
    ensures forall other :: Respelled(fold, human, other) ==> SamePerson(fold, human, other)
    ensures FoldOnce(fold) ==> forall other :: SamePerson(fold, human, other) <==> Respelled(fold, human, other)
  {
    forall other
      ensures Respelled(fold, human, other) ==> SamePerson(fold, human, other)
      ensures FoldOnce(fold) ==> (SamePerson(fold, human, other) <==> Respelled(fold, human, other))
    {
      if Respelled(fold, human, other) {
        RespelledIsSame(fold, human, other);
      }
      if FoldOnce(fold) {
        SamePersonIff(fold, human, other);
      }
    }
  }

  // ---- Operations --------------------------------------------------------------

  /** Who performs a review action, or records a judgement only a reviewer may record. */
  function ReviewerOf(op: Op): Option<string> {
    match op
    case DoApprove(_, human, _, _, _) => Some(human)
    case DoReturn(_, human, _, _, _) => Some(human)
    case DoOverride(_, human, _, _, _, _) => Some(human)
    case DoDecide(r, _, _) =>
      if r.decisionType.Some? && r.decisionType.value !in {Writeup, ManagementResponse} then Some(r.decidedBy) else None
    case _ => None
  }

  lemma SamePersonWhenRespelled(fold: char -> string, human: string, other: string)
    requires FoldKeeps(fold) && Strip(human) != "" && Respelled(fold, human, other)
    ensures SamePerson(fold, Strip(human), other)
  {
    StripKeepsWords(human);
    StripNotBlank(human);
    RespelledIsSame(fold, Strip(human), other);
  }

  lemma BarredWhenRespelled(env: Env, f: Flow, action: ReviewAction, human: string, gate: Option<nat>)
    requires Inv(env, f) && FoldKeeps(env.fold) && Strip(human) != "" && Respelled(env.fold, human, f.preparedBy)
    ensures Barred(env, f, action, Strip(human), gate)
  {
    SamePersonWhenRespelled(env.fold, human, f.preparedBy);
    BarredBy(env, f, action, Strip(human), gate);
  }

  lemma RequestByPreparer(env: Env, status: AuditStatus, preparers: seq<string>, r: Request)
    requires r.decisionType.Some? && r.decisionType.value !in {Writeup, ManagementResponse}
    requires preparers != [] && (Strip(r.decidedBy) != "" ==> SamePerson(env.fold, Strip(r.decidedBy), preparers[0]))
    ensures CheckRequest(env, status, preparers, r).Some?
  {
  }

  lemma RefusedByCheck(env: Env, f: Flow, r: Request, newId: string, time: Clock)
    requires CheckRequest(env, f.status, Preparers(f), r).Some?
    ensures RecordDecision(env, f, r, newId, time).1.Some? && RecordDecision(env, f, r, newId, time).0 == f
  {
  }

  lemma DecisionByPreparer(env: Env, f: Flow, r: Request, newId: string, time: Clock)
    requires Origin(f.trail, f.preparedBy, f.decisionsRequired) && FoldKeeps(env.fold)
    requires ReviewerOf(DoDecide(r, newId, time)).Some? && Respelled(env.fold, r.decidedBy, f.preparedBy)
    ensures RecordDecision(env, f, r, newId, time).1.Some? && RecordDecision(env, f, r, newId, time).0 == f
  {
    PreparersAre(f);
    if Strip(r.decidedBy) != "" {
      SamePersonWhenRespelled(env.fold, r.decidedBy, f.preparedBy);
    }
    RequestByPreparer(env, f.status, Preparers(f), r);
    RefusedByCheck(env, f, r, newId, time);
  }

  /** Whatever the preparer calls themselves, no review operation of theirs is accepted or changes anything. */
  lemma PreparerIsRefused(env: Env, f: Flow, op: Op)
    requires GoodDigest(env.h) && FoldKeeps(env.fold) && Reachable(env, f)
    requires ReviewerOf(op).Some? && Respelled(env.fold, ReviewerOf(op).value, f.preparedBy)
    ensures Do(env, f, op).1.Some? && Do(env, f, op).0 == f
  {
    ReachableIsGood(env, f);
    PreparerRefusedAt(env, f, op);
  }

  lemma BarredFromApproval(env: Env, f: Flow, gate: Phase, human: string, source: Option<IdentitySource>,
                           verified: Verified, now: string)
    requires Strip(human) == "" || Barred(env, f, ApproveAction, Strip(human), Some(gate))
    ensures var after := Approve(env, f, gate, human, source, verified, now); after.1.Some? && after.0 == f
  {
  }

  lemma BarredFromReturn(env: Env, f: Flow, phase: nat, human: string, notes: string,
                         source: Option<IdentitySource>, now: string)
    requires Strip(human) == "" || Barred(env, f, ReturnAction, Strip(human), None)
    ensures var after := ReturnForRework(env, f, phase, human, notes, source, now); after.1.Some? && after.0 == f
  {
  }

  lemma BarredFromOverride(env: Env, f: Flow, phase: nat, human: string, reason: string,
                           source: Option<IdentitySource>, verified: Verified, now: string)
    requires Strip(human) == "" || Barred(env, f, OverrideAction, Strip(human), None)
    ensures var after := OverrideQa(env, f, phase, human, reason, source, verified, now); after.1.Some? && after.0 == f
  {
  }

  /** An operation by somebody its check bars changes nothing. */
  lemma BarredIsRefused(env: Env, f: Flow, op: Op, action: ReviewAction, gate: Option<nat>)
    requires op.DoApprove? ==> action == ApproveAction && gate == Some(op.gate)
    requires op.DoReturn? ==> action == ReturnAction && gate == None
    requires op.DoOverride? ==> action == OverrideAction && gate == None
    requires op.DoApprove? || op.DoReturn? || op.DoOverride?
    requires Strip(op.human) == "" || Barred(env, f, action, Strip(op.human), gate)
    ensures Do(env, f, op).1.Some? && Do(env, f, op).0 == f
  {
    match op
    case DoApprove(g, human, source, verified, now) =>
      BarredFromApproval(env, f, g, human, source, verified, now);
    case DoReturn(phase, human, notes, source, now) =>
      BarredFromReturn(env, f, phase, human, notes, source, now);
    case DoOverride(phase, human, reason, source, verified, now) =>
      BarredFromOverride(env, f, phase, human, reason, source, verified, now);
    case _ =>
  }

  lemma PreparerRefusedAt(env: Env, f: Flow, op: Op)
    requires Inv(env, f) && FoldKeeps(env.fold)
    requires ReviewerOf(op).Some? && Respelled(env.fold, ReviewerOf(op).value, f.preparedBy)
    ensures Do(env, f, op).1.Some? && Do(env, f, op).0 == f
  {
    if op.DoDecide? {
      DecisionByPreparer(env, f, op.request, op.newId, op.time);
    } else {
      var action := if op.DoApprove? then ApproveAction else if op.DoReturn? then ReturnAction else OverrideAction;
      var gate := if op.DoApprove? then Some(op.gate) else None;
      if Strip(op.human) != "" {
        BarredWhenRespelled(env, f, action, op.human, gate);
      }
      BarredIsRefused(env, f, op, action, gate);
    }
  }

  lemma SecondApproverBarred(env: Env, f: Flow, i: nat, human: string)
    requires Inv(env, f) && FoldKeeps(env.fold) && Strip(human) != ""
    requires i < |f.trail| && ApprovesGate(f.trail[i], 2) && Respelled(env.fold, human, f.trail[i].body.human)
    ensures Barred(env, f, ApproveAction, Strip(human), Some(3))
  {
    SamePersonWhenRespelled(env.fold, human, f.trail[i].body.human);
    assert Approved(f.trail, 2, f.trail[i].body.human);
    BarredBy(env, f, ApproveAction, Strip(human), Some(3));
  }

  /** Whoever approved Gate 2 cannot approve Gate 3 under another spelling. */
  lemma SecondApproverIsRefused(env: Env, f: Flow, i: nat, human: string, source: Option<IdentitySource>,
                                verified: Verified, now: string)
    requires GoodDigest(env.h) && FoldKeeps(env.fold) && Reachable(env, f)
    requires i < |f.trail| && ApprovesGate(f.trail[i], 2) && Respelled(env.fold, human, f.trail[i].body.human)
    ensures Do(env, f, DoApprove(3, human, source, verified, now)).1.Some?
  {
    ReachableIsGood(env, f);
    if Strip(human) != "" {
      SecondApproverBarred(env, f, i, human);
    }
    BarredIsRefused(env, f, DoApprove(3, human, source, verified, now), ApproveAction, Some(3));
  }
}

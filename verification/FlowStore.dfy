/** The audit flow and what surrounds it: its trail anchor, and the requests and phase threads that move it. */
module FlowStore {
  import opened Options
  import opened Text
  import opened Machine
  import opened Records
  import opened Trail
  import opened TrailProofs
  import opened Anchors
  import opened Decisions
  import opened DecisionProofs
  import opened Policy
  import opened Flow
  import opened FlowInvariant
  import opened FlowTrail
  import opened FlowResults
  import S = Sessions
  import SP = SessionProofs

  // ---- Saving the trail of a run -----------------------------------------------

  /** A good trail has a head, and its chain verifies on its own. */
  lemma GoodTrailSaves(env: Env, trail: seq<Entry>)
    requires TrailGood(env, trail)
    ensures Head(trail).1.Some? && Head(trail).0 == |trail|
    ensures var status := Verify(env.h, env.key, trail, None, None, None).status;
            status != Broken && status != KeyUnavailable
  {
    NoProblemIff(env.h, env.key, trail, 0, 0);
    assert EntryProblem(env.h, env.key, trail, 0, |trail| - 1) == None;
  }

  /** Saving a trail that extends the anchored one succeeds and makes its anchor the current one. */
  lemma SaveKeepsCurrent(env: Env, anchors: map<string, Anchor>, session: string, earlier: seq<Entry>,
                         trail: seq<Entry>)
    requires TrailGood(env, trail) && earlier <= trail
    requires if session in anchors then earlier != [] && anchors[session] == AnchorOf(earlier) else earlier == []
    ensures SaveAnchor(env.h, anchors, Save(session, env.key, trail)) == (anchors[session := AnchorOf(trail)], true)
  {
    GoodTrailSaves(env, trail);
    if earlier != [] {
      assert trail[|earlier| - 1] == earlier[|earlier| - 1];
      if |earlier| == |trail| {
        assert earlier == trail;
        assert anchors == anchors[session := AnchorOf(trail)];
      }
    }
  }

  /** The saves of a run: one at the start, one after every operation. */
  function RunSaves(env: Env, start: Flow, ops: seq<Op>, session: string): seq<Save> {
    if ops == [] then [Save(session, env.key, start.trail)]
    else RunSaves(env, start, ops[..|ops| - 1], session) + [Save(session, env.key, Exec(env, start, ops).trail)]
  }

  lemma StoreLast(h: Hasher, saves: seq<Save>, s: Save)
    ensures Store(h, saves + [s]) == SaveAnchor(h, Store(h, saves), s).0
  {
    assert (saves + [s])[..|saves|] == saves;
  }

  /**
   * Every save of a run succeeds, and the anchor is then that of the saved
   * state's trail.
   */
  lemma {:induction false} RunSavesSucceed(env: Env, start: Flow, ops: seq<Op>, session: string)
    requires GoodDigest(env.h) && Inv(env, start) && Legit(env, start, ops)
    ensures var anchors := Store(env.h, RunSaves(env, start, ops, session));
            session in anchors && anchors[session] == AnchorOf(Exec(env, start, ops).trail)
    ensures ops != [] ==>
              SaveAnchor(env.h, Store(env.h, RunSaves(env, start, ops[..|ops| - 1], session)),
                         Save(session, env.key, Exec(env, start, ops).trail)).1
  {
    RunKeeps(env, start, ops);
    var trail := Exec(env, start, ops).trail;
    if ops == [] {
      StoreLast(env.h, [], Save(session, env.key, trail));
      assert [] + [Save(session, env.key, trail)] == RunSaves(env, start, ops, session);
      SaveKeepsCurrent(env, map[], session, [], trail);
    } else {
      var init := ops[..|ops| - 1];
      RunSavesSucceed(env, start, init, session);
      DoGrowsTrail(env, Exec(env, start, init), ops[|ops| - 1]);
      RunKeeps(env, start, init);
      StoreLast(env.h, RunSaves(env, start, init, session), Save(session, env.key, trail));
      SaveKeepsCurrent(env, Store(env.h, RunSaves(env, start, init, session)), session, Exec(env, start, init).trail,
                       trail);
    }
  }

  /** The state verifies `ok` against the anchor the store holds for its session. */
  ghost predicate StoredVerifies(env: Env, f: Flow, anchors: map<string, Anchor>, session: string) {
    && session in anchors
    && Verify(env.h, env.key, f.trail, Some(anchors[session]), Some(f.drafts), Some(f.decisions)).status == Ok
  }

  /** A run whose states were saved verifies `ok` against the anchor in the store. */
  lemma SavedRunVerifies(env: Env, start: Flow, ops: seq<Op>, session: string)
    requires GoodDigest(env.h) && Inv(env, start) && Legit(env, start, ops)
    ensures StoredVerifies(env, Exec(env, start, ops), Store(env.h, RunSaves(env, start, ops, session)), session)
  {
    RunSavesSucceed(env, start, ops, session);
    VerifiesFrom(env, start, ops, |ops|);
    assert ops[..|ops|] == ops;
  }

  // ---- Flow operations as moves of the interleaving model ----------------------

  predicate AnyApproval(trail: seq<Entry>) {
    exists i :: 0 <= i < |trail| && trail[i].body.event.GateApproval?
  }

  /** What the interleaving model sees of a flow that was changed `version` times. */
  function ImageOf(f: Flow, version: nat): S.Image {
    S.Image(f.status, AnyApproval(f.trail), version)
  }

  /** The review action of an operation. */
  function ActionOf(op: Op): Option<S.Action> {
    match op
    case DoApprove(gate, _, _, _, _) => Some(S.Approving(gate))
    case DoRetry(n, _, _, _) => if 1 <= n <= 3 then Some(S.Retrying(n)) else None
    case DoReturn(n, _, _, _, _) => if 1 <= n <= 3 then Some(S.Returning(n)) else None
    case DoOverride(n, _, _, _, _, _) => if 1 <= n <= 3 then Some(S.Overriding(n)) else None
    case DoDecide(_, _, _) => Some(S.Deciding)
    case _ => None
  }

  lemma ApprovalAfter(env: Env, trail: seq<Entry>, body: Body)
    ensures AnyApproval(Append(env.h, env.key, trail, body)) <==> AnyApproval(trail) || body.event.GateApproval?
  {
    var g := Append(env.h, env.key, trail, body);
    AppendParts(env.h, env.key, trail, body);
    if AnyApproval(trail) {
      var i :| 0 <= i < |trail| && trail[i].body.event.GateApproval?;
      assert g[i].body.event.GateApproval?;
    }
  }

  /** The move of an accepted action: its target status, and an approval exactly for an approving action. */
  predicate IsMove(f: Flow, g: Flow, a: S.Action) {
    && S.Target(f.status, a) == Some(g.status)
    && (AnyApproval(g.trail) <==> AnyApproval(f.trail) || a.Approving?)
  }

  lemma ApproveIsMove(env: Env, f: Flow, gate: Phase, human: string, source: Option<IdentitySource>, verified: Verified,
                      now: string)
    requires Approve(env, f, gate, human, source, verified, now).1.None?
    ensures IsMove(f, Approve(env, f, gate, human, source, verified, now).0, S.Approving(gate))
  {
    ApprovalAfter(env, f.trail, Body(Strip(human), now, source.value, ApprovalEvent(env, f, gate)));
  }

  lemma RetryIsMove(env: Env, f: Flow, phase: Phase, human: string, source: Option<IdentitySource>, now: string)
    requires Retry(env, f, phase, human, source, now).1.None?
    ensures IsMove(f, Retry(env, f, phase, human, source, now).0, S.Retrying(phase))
  {
    ApprovalAfter(env, f.trail, Body(Strip(human), now, source.value,
                                     Retried(phase, f.status, HashText(f.qaReason), RunInfo(f, phase))));
  }

  lemma ReturnIsMove(env: Env, f: Flow, phase: Phase, human: string, notes: string, source: Option<IdentitySource>,
                     now: string)
    requires ReturnForRework(env, f, phase, human, notes, source, now).1.None?
    ensures IsMove(f, ReturnForRework(env, f, phase, human, notes, source, now).0, S.Returning(phase))
  {
    ApprovalAfter(env, f.trail, Body(Strip(human), now, source.value, ReturnEvent(env, f, phase, notes)));
  }

  lemma OverrideIsMove(env: Env, f: Flow, phase: Phase, human: string, reason: string, source: Option<IdentitySource>,
                       verified: Verified, now: string)
    requires OverrideQa(env, f, phase, human, reason, source, verified, now).1.None?
    ensures IsMove(f, OverrideQa(env, f, phase, human, reason, source, verified, now).0, S.Overriding(phase))
  {
    ApprovalAfter(env, f.trail, Body(Strip(human), now, source.value, OverrideEvent(env, f, phase, reason, verified)));
  }

  lemma StoredIsMove(env: Env, f: Flow, d: Decision, at: string)
    requires Recordable(d.decisionType, f.status)
    ensures IsMove(f, WithDecision(env, f, d, at), S.Deciding)
  {
    ApprovalAfter(env, f.trail, Body(d.decidedBy, at, d.source, DecidedEvent(env, d)));
  }

  lemma BuiltIsRecordable(env: Env, f: Flow, r: Request, newId: string, time: Clock)
    requires Built(env, f, r, newId, time).Accepted?
    ensures Recordable(Built(env, f, r, newId, time).value.decisionType, f.status)
  {
    AcceptedShape(env, f.drafts, f.status, Preparers(f), f.decisions, r, newId, time.decidedAt, time.today);
  }

  lemma DecideIsMove(env: Env, f: Flow, r: Request, newId: string, time: Clock)
    requires RecordDecision(env, f, r, newId, time).1.None?
    ensures IsMove(f, RecordDecision(env, f, r, newId, time).0, S.Deciding)
  {
    BuiltIsRecordable(env, f, r, newId, time);
    StoredIsMove(env, f, Built(env, f, r, newId, time).value, time.stampedAt);
  }

  lemma ActionIsMove(env: Env, f: Flow, op: Op)
    requires ActionOf(op).Some? && Do(env, f, op).1.None?
    ensures IsMove(f, Do(env, f, op).0, ActionOf(op).value)
  {
    match op
    case DoApprove(gate, human, source, verified, now) => ApproveIsMove(env, f, gate, human, source, verified, now);
    case DoRetry(phase, human, source, now) => RetryIsMove(env, f, phase, human, source, now);
    case DoReturn(phase, human, notes, source, now) => ReturnIsMove(env, f, phase, human, notes, source, now);
    case DoOverride(phase, human, reason, source, verified, now) =>
      OverrideIsMove(env, f, phase, human, reason, source, verified, now);
    case DoDecide(r, newId, time) => DecideIsMove(env, f, r, newId, time);
  }

  /** What the environment chose when a review action was accepted or refused. */
  function Answer(accept: bool): S.Choice { S.Choice(accept, S.Works, false, 0, 0) }

  lemma MoveIsStep(f: Flow, g: Flow, a: S.Action, version: nat, s: S.State, t: S.Thread, lock: S.Lock, id: S.FlowId)
    requires IsMove(f, g, a) && id in s.heap && s.heap[id] == ImageOf(f, version)
    ensures S.StepAct(s, t, S.Act(a, lock, id), Answer(true)).heap == s.heap[id := ImageOf(g, version + 1)]
  {
  }

  /**
   * An accepted review operation of the flow is the step that a request with
   * its action makes on the flow object.
   */
  lemma ReviewIsStep(env: Env, f: Flow, op: Op, version: nat, s: S.State, t: S.Thread, lock: S.Lock, id: S.FlowId)
    requires ActionOf(op).Some? && Do(env, f, op).1.None?
    requires id in s.heap && s.heap[id] == ImageOf(f, version)
    ensures S.StepAct(s, t, S.Act(ActionOf(op).value, lock, id), Answer(true)).heap
            == s.heap[id := ImageOf(Do(env, f, op).0, version + 1)]
  {
    ActionIsMove(env, f, op);
    MoveIsStep(f, Do(env, f, op).0, ActionOf(op).value, version, s, t, lock, id);
  }

  /** The crew step that leads to a status. */
  function CrewStepTo(s: AuditStatus): S.CrewStep {
    if s.WaitingGate? then S.ToGate else if s.QaRejectedPhase? then S.ToRejected else S.ToError
  }

  lemma RunEndsIn(f: Flow, phase: Phase, info: Provenance, end: CrewEnd)
    ensures Ended(f, phase, info, end).status in {WaitingGate(phase), QaRejectedPhase(phase), ErrorPhase(phase)}
  {
  }

  lemma RunEnds(f: Flow, phase: Phase, crew: CrewRun)
    requires f.status == RunningPhase(phase) && Generate(f, phase, crew).1.None?
    ensures var g := Generate(f, phase, crew).0;
            g.trail == f.trail && g.status in {WaitingGate(phase), QaRejectedPhase(phase), ErrorPhase(phase)}
  {
    GenerateKeepsTrail(f, phase, crew);
    if StoppedEarly(f.(qaReason := None), phase, crew).None? {
      RunEndsIn(f.(qaReason := None), phase, crew.start.value, EndOf(phase, crew));
    }
  }

  /** A phase run of the flow is the step in which a phase thread ends its crew. */
  lemma RunIsStep(f: Flow, phase: Phase, crew: CrewRun, version: nat, s: S.State, t: S.Thread, id: S.FlowId)
    requires f.status == RunningPhase(phase) && Generate(f, phase, crew).1.None?
    requires id in s.heap && s.heap[id] == ImageOf(f, version)
    ensures var g := Generate(f, phase, crew).0;
            S.StepCrew(s, t, S.Crew(phase, id), Answer(true).(end := CrewStepTo(g.status))).heap
            == s.heap[id := ImageOf(g, version + 1)]
  {
    RunEnds(f, phase, crew);
  }

  lemma {:induction false} GatesMeanApproval(trail: seq<Entry>)
    ensures Gates(trail) != [] <==> AnyApproval(trail)
  {
    if trail != [] {
      var init := trail[..|trail| - 1];
      GatesMeanApproval(init);
      if AnyApproval(init) {
        var i :| 0 <= i < |init| && init[i].body.event.GateApproval?;
        assert trail[i].body.event.GateApproval?;
      }
    }
  }

  /** A reachable flow is signed off, as the delete request sees it, exactly when a gate was approved. */
  lemma SignedOffIff(env: Env, f: Flow, version: nat)
    requires GoodDigest(env.h) && Reachable(env, f)
    ensures S.SignedOff(ImageOf(f, version)) <==> GatesPassed(f.status) > 0
    ensures SP.Fair(ImageOf(f, version))
  {
    ReachableIsGood(env, f);
    GatesMeanApproval(f.trail);
  }

  /** A new audit enters the interleaving model as its start. */
  lemma StartIsImage(env: Env, preparer: string, required: bool, source: IdentitySource, now: string)
    requires !Blank(preparer)
    ensures ImageOf(BeginPhase1(Created(env, preparer, required, source, now)).0, 1) == S.Start().heap[0]
  {
    ApprovalAfter(env, [], Body(Strip(preparer), now, source, AuditCreated(required)));
  }
}

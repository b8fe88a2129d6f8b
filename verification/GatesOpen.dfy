/**
 * Gates never deadlock on decisions: one pass of the minimal requests over
 * the missing list (evals/pipeline.py, `record_required_decisions`) opens
 * the gate, and drives the flow object there.
 */
module GatesOpen {
  import opened Options
  import opened Text
  import opened Machine
  import opened Records
  import opened Trail
  import opened Policy
  import opened Decisions
  import opened DecisionProofs
  import opened GateDecisions
  import opened Flow
  import opened FlowInvariant
  import opened FlowResults
  import opened AuditFlowObject

  predicate Askable(todo: seq<MissingDecision>) {
    forall i :: 0 <= i < |todo| ==> todo[i].required != []
  }

  /** What the environment supplies for one new decision: its id and the clock. */
  datatype Slip = Slip(id: string, time: Clock)

  /** A decision that could not be recorded. */
  datatype Problem = Problem(required: DecisionType, subjectId: string, refusal: Refusal)

  /** How far a pass has come. */
  datatype Progress = Progress(flow: Flow, recorded: nat, problems: seq<Problem>)

  /** One pass step: the minimal request for one item. */
  function RecordOne(env: Env, f: Flow, m: MissingDecision, reviewer: string, slip: Slip): (Flow, Option<Refusal>)
    requires m.required != []
  {
    RecordDecision(env, f, MinimalRequest(f.drafts, m, reviewer), slip.id, slip.time)
  }

  /** Counts an accepted decision, notes a refused one. */
  function Tally(result: (Flow, Option<Refusal>), m: MissingDecision, p: Progress): Progress
    requires m.required != []
  {
    match result.1
    case None => Progress(result.0, p.recorded + 1, p.problems)
    case Some(refusal) =>
      Progress(result.0, p.recorded, p.problems + [Problem(m.required[0], m.subjectId, refusal)])
  }

  /** Records the minimal decision for every item. */
  function RecordEach(env: Env, f: Flow, todo: seq<MissingDecision>, reviewer: string, slips: seq<Slip>): Progress
    requires |slips| == |todo| && Askable(todo)
  {
    if todo == [] then Progress(f, 0, [])
    else
      var n := |todo| - 1;
      var p := RecordEach(env, f, todo[..n], reviewer, slips[..n]);
      Tally(RecordOne(env, p.flow, todo[n], reviewer, slips[n]), todo[n], p)
  }

  lemma EachStep(env: Env, f: Flow, todo: seq<MissingDecision>, reviewer: string, slips: seq<Slip>, k: nat)
    requires |slips| == |todo| && Askable(todo) && k < |todo|
    ensures var p := RecordEach(env, f, todo[..k], reviewer, slips[..k]);
            RecordEach(env, f, todo[..k + 1], reviewer, slips[..k + 1])
            == Tally(RecordOne(env, p.flow, todo[k], reviewer, slips[k]), todo[k], p)
  {
    assert todo[..k + 1][..k] == todo[..k] && slips[..k + 1][..k] == slips[..k];
  }

  /** Records one item on the flow object. */
  method DecideMinimal(env: Env, flow: AuditFlow, m: MissingDecision, reviewer: string, slip: Slip)
    returns (refusal: Option<Refusal>)
    requires flow.Valid() && m.required != []
    modifies flow, flow.machine
    ensures flow.Valid() && (flow.Snapshot(), refusal) == RecordOne(env, old(flow.Snapshot()), m, reviewer, slip)
  {
    refusal := flow.Decide(env, MinimalRequest(flow.Drafts(), m, reviewer), slip.id, slip.time);
  }

  /** `record_required_decisions`; `slips` supplies ids and clock readings. */
  method RecordRequired(env: Env, flow: AuditFlow, gate: nat, reviewer: string, slips: seq<Slip>)
    returns (recorded: nat, problems: seq<Problem>)
    requires flow.Valid()
    requires |slips| == |MissingFor(env.h, flow.Drafts(), flow.decisions, gate)|
    modifies flow, flow.machine
    ensures flow.Valid() && Askable(MissingFor(env.h, old(flow.Drafts()), old(flow.decisions), gate))
    ensures Progress(flow.Snapshot(), recorded, problems)
            == RecordEach(env, old(flow.Snapshot()), MissingFor(env.h, old(flow.Drafts()), old(flow.decisions), gate),
                          reviewer, slips)
  {
    var todo := MissingFor(env.h, flow.Drafts(), flow.decisions, gate);
    AlwaysAskable(env.h, flow.Drafts(), flow.decisions, gate);
    recorded, problems := RecordList(env, flow, todo, reviewer, slips);
  }

  method RecordList(env: Env, flow: AuditFlow, todo: seq<MissingDecision>, reviewer: string, slips: seq<Slip>)
    returns (recorded: nat, problems: seq<Problem>)
    requires flow.Valid() && |slips| == |todo| && Askable(todo)
    modifies flow, flow.machine
    ensures flow.Valid()
    ensures Progress(flow.Snapshot(), recorded, problems)
            == RecordEach(env, old(flow.Snapshot()), todo, reviewer, slips)
  {
    recorded, problems := 0, [];
    for i := 0 to |todo|
      invariant flow.Valid()
      invariant Progress(flow.Snapshot(), recorded, problems)
                == RecordEach(env, old(flow.Snapshot()), todo[..i], reviewer, slips[..i])
    {
      EachStep(env, old(flow.Snapshot()), todo, reviewer, slips, i);
      var refusal := DecideMinimal(env, flow, todo[i], reviewer, slips[i]);
      match refusal {
        case None => recorded := recorded + 1;
        case Some(why) => problems := problems + [Problem(todo[i].required[0], todo[i].subjectId, why)];
      }
    }
    assert todo[..|todo|] == todo && slips[..|slips|] == slips;
  }

  lemma {:induction false} ReviewsAskable(vs: seq<FindingView>)
    ensures Askable(MissingReviews(vs)) && Askable(MissingScopes(vs))
  {
    if vs != [] {
      ReviewsAskable(vs[..|vs| - 1]);
    }
  }

  lemma {:induction false} ClassificationsAskable(vs: seq<DeficiencyView>)
    ensures Askable(MissingClassifications(vs))
  {
    if vs != [] {
      ClassificationsAskable(vs[..|vs| - 1]);
    }
  }

  /** Every missing item names a decision that would fill it. */
  lemma AlwaysAskable(h: Hasher, ctx: Artifacts, ds: seq<Decision>, gate: nat)
    ensures Askable(MissingFor(h, ctx, ds, gate))
  {
    ReviewsAskable(FindingViews(h, ctx, ds, ContextFindings(ctx)));
    ClassificationsAskable(DeficiencyViews(h, ctx, ds, ContextEvaluations(ctx)));
  }

  // ---- One pass is enough ------------------------------------------------------

  /** Ids for new decisions: distinct, not empty, not used yet. */
  predicate NewSlips(ds: seq<Decision>, slips: seq<Slip>) {
    && (forall i :: 0 <= i < |slips| ==> slips[i].id != "" && !HasId(ds, slips[i].id))
    && forall i, j :: 0 <= i < j < |slips| ==> slips[i].id != slips[j].id
  }

  predicate UsedBefore(slips: seq<Slip>, k: nat, id: string)
    requires k <= |slips|
  {
    exists i :: 0 <= i < k && slips[i].id == id
  }

  lemma CreatorsStay(env: Env, f: Flow, d: Decision, at: string)
    ensures Preparers(WithDecision(env, f, d, at)) == Preparers(f)
  {
    AppendParts(env.h, env.key, f.trail, Body(d.decidedBy, at, d.source, DecidedEvent(env, d)));
  }

  /** `g` is `f` with one more decision, and `left` is still outstanding. */
  ghost predicate Filled(env: Env, f: Flow, g: Flow, gate: Phase, left: seq<MissingDecision>, id: string) {
    && Inv(env, g) && g.status == f.status && g.drafts == f.drafts && Preparers(g) == Preparers(f)
    && Outstanding(env.h, g.drafts, g.decisions, gate, left)
    && forall other :: HasId(g.decisions, other) <==> HasId(f.decisions, other) || other == id
  }

  /** One minimal request is accepted and leaves exactly the other items outstanding. */
  lemma OneRecorded(env: Env, f: Flow, gate: Phase, todo: seq<MissingDecision>, reviewer: string, slip: Slip)
    requires GoodDigest(env.h) && Inv(env, f) && f.status == WaitingGate(gate) && AtGate(f.drafts, gate)
    requires MayReview(env.fold, reviewer, Preparers(f)) && slip.id != "" && !HasId(f.decisions, slip.id)
    requires Outstanding(env.h, f.drafts, f.decisions, gate, todo) && todo != [] && todo[0].required != []
    ensures var (g, refusal) := RecordOne(env, f, todo[0], reviewer, slip);
            refusal.None? && Filled(env, f, g, gate, todo[1..], slip.id)
  {
    var r := MinimalRequest(f.drafts, todo[0], reviewer);
    var now, today := slip.time.decidedAt, slip.time.today;
    assert todo[0] in todo;
    MinimalAccepted(env, f.drafts, gate, Preparers(f), f.decisions, todo[0], reviewer, slip.id, now, today);
    AcceptedShape(env, f.drafts, f.status, Preparers(f), f.decisions, r, slip.id, now, today);
    RecordDecisionKeepsInv(env, f, r, slip.id, slip.time);
    var d := Built(env, f, r, slip.id, slip.time).value;
    CreatorsStay(env, f, d, slip.time.stampedAt);
    OneLessOutstanding(env.h, f.drafts, f.decisions, gate, todo, d);
    IdsAfter(f.decisions, d);
  }

  lemma IdsAfter(ds: seq<Decision>, d: Decision)
    ensures forall other :: HasId(ds + [d], other) <==> HasId(ds, other) || other == d.id
  {
    forall other
      ensures HasId(ds + [d], other) <==> HasId(ds, other) || other == d.id
    {
      if HasId(ds, other) {
        var i :| 0 <= i < |ds| && ds[i].id == other;
        assert (ds + [d])[i].id == other;
      }
      assert (ds + [d])[|ds|].id == d.id;
    }
  }

  /** What holds after the first `k` items were recorded. */
  ghost predicate Pass(env: Env, f: Flow, g: Flow, gate: Phase, todo: seq<MissingDecision>, slips: seq<Slip>, k: nat)
    requires k <= |todo| == |slips|
  {
    && Inv(env, g) && g.status == f.status && g.drafts == f.drafts && Preparers(g) == Preparers(f)
    && Outstanding(env.h, g.drafts, g.decisions, gate, todo[k..])
    && forall other :: HasId(g.decisions, other) ==> HasId(f.decisions, other) || UsedBefore(slips, k, other)
  }

  lemma PassExtends(env: Env, f: Flow, g: Flow, next: Flow, gate: Phase, todo: seq<MissingDecision>, slips: seq<Slip>,
                    k: nat)
    requires k < |todo| == |slips| && Pass(env, f, g, gate, todo, slips, k)
    requires Filled(env, g, next, gate, todo[k + 1..], slips[k].id)
    ensures Pass(env, f, next, gate, todo, slips, k + 1)
  {
    PassIds(f.decisions, g.decisions, next.decisions, slips, k);
  }

  lemma PassIds(before: seq<Decision>, ds: seq<Decision>, more: seq<Decision>, slips: seq<Slip>, k: nat)
    requires k < |slips|
    requires forall other :: HasId(ds, other) ==> HasId(before, other) || UsedBefore(slips, k, other)
    requires forall other :: HasId(more, other) <==> HasId(ds, other) || other == slips[k].id
    ensures forall other :: HasId(more, other) ==> HasId(before, other) || UsedBefore(slips, k + 1, other)
  {
    forall other | HasId(more, other)
      ensures HasId(before, other) || UsedBefore(slips, k + 1, other)
    {
      if other != slips[k].id {
        assert HasId(ds, other);
      }
    }
  }

  lemma IdIsNew(env: Env, f: Flow, g: Flow, gate: Phase, todo: seq<MissingDecision>, slips: seq<Slip>, k: nat)
    requires k < |todo| == |slips| && NewSlips(f.decisions, slips) && Pass(env, f, g, gate, todo, slips, k)
    ensures slips[k].id != "" && !HasId(g.decisions, slips[k].id)
  {
    assert !UsedBefore(slips, k, slips[k].id);
  }

  lemma PassNext(env: Env, f: Flow, g: Flow, gate: Phase, todo: seq<MissingDecision>, reviewer: string,
                 slips: seq<Slip>, k: nat)
    requires GoodDigest(env.h) && f.status == WaitingGate(gate) && AtGate(f.drafts, gate)
    requires MayReview(env.fold, reviewer, Preparers(f)) && Askable(todo)
    requires k < |todo| == |slips| && NewSlips(f.decisions, slips) && Pass(env, f, g, gate, todo, slips, k)
    ensures var (next, refusal) := RecordOne(env, g, todo[k], reviewer, slips[k]);
            refusal.None? && Pass(env, f, next, gate, todo, slips, k + 1)
  {
    assert todo[k..][0] == todo[k] && todo[k..][1..] == todo[k + 1..];
    IdIsNew(env, f, g, gate, todo, slips, k);
    OneRecorded(env, g, gate, todo[k..], reviewer, slips[k]);
    PassExtends(env, f, g, RecordOne(env, g, todo[k], reviewer, slips[k]).0, gate, todo, slips, k);
  }

  /** After `k` items all of them were recorded. */
  ghost predicate PassedAll(env: Env, f: Flow, p: Progress, gate: Phase, todo: seq<MissingDecision>, slips: seq<Slip>,
                            k: nat)
    requires k <= |todo| == |slips|
  {
    p.recorded == k && p.problems == [] && Pass(env, f, p.flow, gate, todo, slips, k)
  }

  lemma PassMore(env: Env, f: Flow, gate: Phase, todo: seq<MissingDecision>, reviewer: string,
                 slips: seq<Slip>, k: nat, before: Progress)
    requires GoodDigest(env.h) && f.status == WaitingGate(gate) && AtGate(f.drafts, gate)
    requires MayReview(env.fold, reviewer, Preparers(f)) && Askable(todo)
    requires k < |todo| == |slips| && NewSlips(f.decisions, slips)
    requires before == RecordEach(env, f, todo[..k], reviewer, slips[..k])
    requires PassedAll(env, f, before, gate, todo, slips, k)
    ensures PassedAll(env, f, RecordEach(env, f, todo[..k + 1], reviewer, slips[..k + 1]), gate, todo, slips, k + 1)
  {
    EachStep(env, f, todo, reviewer, slips, k);
    PassNext(env, f, before.flow, gate, todo, reviewer, slips, k);
  }

  lemma {:induction false} PassStep(env: Env, f: Flow, gate: Phase, todo: seq<MissingDecision>, reviewer: string,
                                    slips: seq<Slip>, k: nat)
    requires GoodDigest(env.h) && Inv(env, f) && f.status == WaitingGate(gate) && AtGate(f.drafts, gate)
    requires MayReview(env.fold, reviewer, Preparers(f))
    requires Outstanding(env.h, f.drafts, f.decisions, gate, todo) && Askable(todo)
    requires k <= |todo| == |slips| && NewSlips(f.decisions, slips)
    ensures PassedAll(env, f, RecordEach(env, f, todo[..k], reviewer, slips[..k]), gate, todo, slips, k)
  {
    if k > 0 {
      var before := RecordEach(env, f, todo[..k - 1], reviewer, slips[..k - 1]);
      PassStep(env, f, gate, todo, reviewer, slips, k - 1);
      PassMore(env, f, gate, todo, reviewer, slips, k - 1, before);
    } else {
      assert todo[0..] == todo;
    }
  }

  lemma PassUpTo(env: Env, f: Flow, gate: Phase, todo: seq<MissingDecision>, reviewer: string, slips: seq<Slip>, k: nat,
                 done: seq<MissingDecision>, used: seq<Slip>)
    requires GoodDigest(env.h) && Inv(env, f) && f.status == WaitingGate(gate) && AtGate(f.drafts, gate)
    requires MayReview(env.fold, reviewer, Preparers(f))
    requires Outstanding(env.h, f.drafts, f.decisions, gate, todo) && Askable(todo)
    requires k <= |todo| == |slips| && NewSlips(f.decisions, slips)
    requires done == todo[..k] && used == slips[..k]
    ensures PassedAll(env, f, RecordEach(env, f, done, reviewer, used), gate, todo, slips, k)
  {
    PassStep(env, f, gate, todo, reviewer, slips, k);
  }

  /** The drafts of a reachable state are fit for their gate. */
  lemma GateIsReady(env: Env, f: Flow, gate: Phase)
    requires Inv(env, f) && f.status == WaitingGate(gate) && gate != 1
    ensures AtGate(f.drafts, gate) && Current(f.drafts, NameOf(gate)).Some?
  {
  }

  /** Everything was recorded, without problems, and nothing is missing any more. */
  ghost predicate NothingLeft(env: Env, f: Flow, p: Progress, gate: Phase, todo: seq<MissingDecision>) {
    && p.recorded == |todo| && p.problems == []
    && MissingFor(env.h, p.flow.drafts, p.flow.decisions, gate) == []
    && p.flow.status == f.status && p.flow.drafts == f.drafts
  }

  lemma ReadyForPass(env: Env, f: Flow, gate: Phase, todo: seq<MissingDecision>)
    requires Inv(env, f) && f.status == WaitingGate(gate) && gate != 1
    requires todo == MissingFor(env.h, f.drafts, f.decisions, gate)
    ensures AtGate(f.drafts, gate) && Askable(todo) && Outstanding(env.h, f.drafts, f.decisions, gate, todo)
  {
    GateIsReady(env, f, gate);
    AlwaysAskable(env.h, f.drafts, f.decisions, gate);
    MissingIsOutstanding(env.h, f.drafts, f.decisions, gate);
  }

  lemma OnePassFrom(env: Env, f: Flow, gate: Phase, reviewer: string, slips: seq<Slip>, todo: seq<MissingDecision>)
    requires GoodDigest(env.h) && Inv(env, f) && f.status == WaitingGate(gate) && gate != 1
    requires MayReview(env.fold, reviewer, Preparers(f))
    requires todo == MissingFor(env.h, f.drafts, f.decisions, gate) && |slips| == |todo| && NewSlips(f.decisions, slips)
    ensures Askable(todo) && NothingLeft(env, f, RecordEach(env, f, todo, reviewer, slips), gate, todo)
  {
    ReadyForPass(env, f, gate, todo);
    PassUpTo(env, f, gate, todo, reviewer, slips, |todo|, todo, slips);
    PassEnds(env, f, RecordEach(env, f, todo, reviewer, slips), gate, todo, slips);
  }

  lemma PassEnds(env: Env, f: Flow, p: Progress, gate: Phase, todo: seq<MissingDecision>, slips: seq<Slip>)
    requires |todo| == |slips| && AtGate(f.drafts, gate) && PassedAll(env, f, p, gate, todo, slips, |todo|)
    ensures NothingLeft(env, f, p, gate, todo)
  {
    assert todo[|todo|..] == [];
    NothingOutstanding(env.h, f.drafts, p.flow.decisions, gate);
  }

  /**
   * At Gates 2 and 3, any reviewer who is not a preparer can record the
   * minimal request for each missing decision: all are accepted, and one pass
   * leaves none missing.
   */
  lemma OnePassSuffices(env: Env, f: Flow, gate: Phase, reviewer: string, slips: seq<Slip>, todo: seq<MissingDecision>)
    requires GoodDigest(env.h) && Reachable(env, f) && f.status == WaitingGate(gate) && gate != 1
    requires MayReview(env.fold, reviewer, Preparers(f))
    requires todo == MissingFor(env.h, f.drafts, f.decisions, gate) && |slips| == |todo| && NewSlips(f.decisions, slips)
    ensures Askable(todo) && NothingLeft(env, f, RecordEach(env, f, todo, reviewer, slips), gate, todo)
  {
    ReachableIsGood(env, f);
    OnePassFrom(env, f, gate, reviewer, slips, todo);
  }

  lemma OpensWhen(env: Env, g: Flow, gate: Phase, approver: string, source: IdentitySource, verified: Verified,
                  now: string)
    requires g.status == WaitingGate(gate) && Current(g.drafts, NameOf(gate)).Some?
    requires MissingFor(env.h, g.drafts, g.decisions, gate) == []
    ensures && Strip(approver) != "" && !Barred(env, g, ApproveAction, Strip(approver), Some(gate))
            && (gate == 2 ==> Without(Unverified(g, verified), AcceptedUnverified(env, g)) == [])
            <==> Approve(env, g, gate, approver, Some(source), verified, now).1.None?
  {
  }

  /** After the pass, whoever may approve the gate can: only identity and evidence still count. */
  lemma GateOpens(env: Env, f: Flow, gate: Phase, reviewer: string, slips: seq<Slip>, todo: seq<MissingDecision>,
                  approver: string, source: IdentitySource, verified: Verified, now: string)
    requires GoodDigest(env.h) && Reachable(env, f) && f.status == WaitingGate(gate) && gate != 1
    requires MayReview(env.fold, reviewer, Preparers(f)) && Askable(todo)
    requires todo == MissingFor(env.h, f.drafts, f.decisions, gate) && |slips| == |todo| && NewSlips(f.decisions, slips)
    ensures var g := RecordEach(env, f, todo, reviewer, slips).flow;
            && Strip(approver) != "" && !Barred(env, g, ApproveAction, Strip(approver), Some(gate))
            && (gate == 2 ==> Without(Unverified(g, verified), AcceptedUnverified(env, g)) == [])
            <==> Approve(env, g, gate, approver, Some(source), verified, now).1.None?
  {
    ReachableIsGood(env, f);
    GateIsReady(env, f, gate);
    OnePassFrom(env, f, gate, reviewer, slips, todo);
    OpensWhen(env, RecordEach(env, f, todo, reviewer, slips).flow, gate, approver, source, verified, now);
  }
}

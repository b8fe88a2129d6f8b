/**
 * The decisions a gate waits for can always be recorded: the minimal request
 * for each missing decision is accepted, and one pass leaves none missing
 * (evals/pipeline.py drives an audit this way).
 */
module GateDecisions {
  import opened Options
  import opened Text
  import opened Schema
  import opened Machine
  import opened Records
  import opened Trail
  import opened Policy
  import opened Decisions
  import opened DecisionProofs

  const RECORDED := "Recorded"
  const AUTOMATED := RECORDED + " by the evaluation harness's automated reviewer, not a person"

  function ReasonFor(t: DecisionType): string {
    match t
    case SignOff => ": accepts the AI draft unchanged so the model's conclusion is what the harness scores."
    case Classify =>
      ": keeps the AI-drafted classification unchanged so the model's evaluation is what the harness scores."
    case ScopeLimitation =>
      ": the draft concluded this key control Not tested; recorded as a scope limitation "
      + "only so Gate 3 can be approved."
    case EngagementConclusion =>
      ": set mechanically (Needs improvement if the draft has any deficiency evaluation, else Satisfactory) "
      + "only so Gate 3 can be approved. Not scored."
    case _ => ""
  }

  /** The types a gate asks for first. */
  predicate AskedFirst(t: DecisionType) {
    t == SignOff || t == Classify || t == ScopeLimitation || t == EngagementConclusion
  }

  /** What the automated reviewer writes for each decision type it records. */
  function RationaleFor(t: DecisionType): string {
    if AskedFirst(t) then AUTOMATED + ReasonFor(t) else ""
  }

  /** The values a minimal request carries. */
  function MinimalParsed(ctx: Artifacts, m: MissingDecision): Option<Parsed>
    requires m.required != []
  {
    var t := m.required[0];
    if t == Classify then
      match FindEvaluation(ContextEvaluations(ctx), m.subjectId)
      case None => None
      case Some(e) => Some(ParsedClassify(e.classification, None, None))
    else if t == EngagementConclusion then
      Some(ParsedEngagement(if ContextEvaluations(ctx) != [] then NeedsImprovement else Satisfactory))
    else Some(NothingParsed)
  }

  /** `_decision_body`: the least a reviewer must send for one missing decision. */
  function MinimalRequest(ctx: Artifacts, m: MissingDecision, reviewer: string): Request
    requires m.required != []
  {
    var t := m.required[0];
    Request(Some(t), m.subjectId, reviewer, MinimalParsed(ctx, m), RationaleFor(t), None, "", Some(Declared))
  }

  // ---- What is missing ---------------------------------------------------------

  /** The drafts are there and valid at the gate. */
  predicate AtGate(ctx: Artifacts, gate: nat) {
    && (gate == 2 || gate == 3)
    && (gate == 2 ==> ctx.papers.Some?)
    && (gate == 3 ==> ctx.report.Some? && ReportValid(ctx.report.value))
    && FindingIdsGood(ContextFindings(ctx)) && EvaluationIdsGood(ContextEvaluations(ctx))
  }

  function KeyOfMissing(m: MissingDecision): SlotKey
    requires m.required != []
  {
    SlotKey(SlotOf(m.required[0]), m.subjectType, m.subjectId)
  }

  function ReviewItem(id: string): MissingDecision { MissingDecision(2, FindingSubject, id, [SignOff, Challenge]) }
  function ClassifyItem(id: string): MissingDecision { MissingDecision(3, DeficiencySubject, id, [Classify]) }
  function ScopeItem(id: string): MissingDecision { MissingDecision(3, FindingSubject, id, [ScopeLimitation]) }
  const CONCLUSION_ITEM := MissingDecision(3, EngagementSubject, ENGAGEMENT, [EngagementConclusion])

  /** The gate asks for this decision, recorded or not. */
  predicate Wanted(h: Hasher, ctx: Artifacts, ds: seq<Decision>, gate: nat, m: MissingDecision) {
    || (gate == 2 && m == ReviewItem(m.subjectId) && WantsReview(ctx, m.subjectId))
    || (gate == 3 && m == ClassifyItem(m.subjectId) && WantsClassify(ctx, m.subjectId))
    || (gate == 3 && m == ScopeItem(m.subjectId) && WantsScope(h, ctx, ds, m.subjectId))
    || (gate == 3 && m == CONCLUSION_ITEM)
  }

  predicate WantsReview(ctx: Artifacts, id: string) {
    var f := FindFinding(ContextFindings(ctx), id);
    f.Some? && FindingNeedsReview(f.value.result, KeyControl(ctx, id))
  }

  predicate WantsClassify(ctx: Artifacts, id: string) {
    FindEvaluation(ContextEvaluations(ctx), id).Some?
  }

  predicate WantsScope(h: Hasher, ctx: Artifacts, ds: seq<Decision>, id: string) {
    var f := FindFinding(ContextFindings(ctx), id);
    f.Some? && FindingNeedsScopeLimitation(
                 EffectiveConclusions(f.value, ActiveFor(h, ctx, ds, ReviewKey(id))).result, KeyControl(ctx, id))
  }

  predicate NoDuplicates(ms: seq<MissingDecision>) {
    forall i, j :: 0 <= i < j < |ms| ==> ms[i] != ms[j]
  }

  lemma {:induction false} ViewsOfDistinct(h: Hasher, ctx: Artifacts, ds: seq<Decision>, fs: seq<Finding>)
    requires forall i, j :: 0 <= i < j < |fs| ==> fs[i].controlId != fs[j].controlId
    ensures |FindingViews(h, ctx, ds, fs)| == |fs|
    ensures forall i :: 0 <= i < |fs| ==> FindingViews(h, ctx, ds, fs)[i] == ViewOfFinding(h, ctx, ds, fs[i])
  {
    if fs != [] {
      ViewsOfDistinct(h, ctx, ds, fs[..|fs| - 1]);
    }
  }

  lemma {:induction false} EvaluationViewsOfDistinct(h: Hasher, ctx: Artifacts, ds: seq<Decision>, es: seq<Evaluation>)
    requires forall i, j :: 0 <= i < j < |es| ==> es[i].deficiencyId != es[j].deficiencyId
    ensures |DeficiencyViews(h, ctx, ds, es)| == |es|
    ensures forall i :: 0 <= i < |es| ==> DeficiencyViews(h, ctx, ds, es)[i] == ViewOfEvaluation(h, ctx, ds, es[i])
  {
    if es != [] {
      EvaluationViewsOfDistinct(h, ctx, ds, es[..|es| - 1]);
    }
  }

  lemma {:induction false} ReviewIndex(vs: seq<FindingView>, m: MissingDecision) returns (i: nat)
    requires m in MissingReviews(vs)
    ensures i < |vs| && vs[i].reviewRequired && vs[i].review.None? && m == ReviewItem(vs[i].controlId)
  {
    var last := |vs| - 1;
    if m in MissingReviews(vs[..last]) {
      i := ReviewIndex(vs[..last], m);
    } else {
      i := last;
    }
  }

  lemma {:induction false} ReviewListed(vs: seq<FindingView>, i: nat)
    requires i < |vs| && vs[i].reviewRequired && vs[i].review.None?
    ensures ReviewItem(vs[i].controlId) in MissingReviews(vs)
  {
    if i < |vs| - 1 {
      ReviewListed(vs[..|vs| - 1], i);
    }
  }

  lemma {:induction false} ReviewOnce(vs: seq<FindingView>)
    requires forall i, j :: 0 <= i < j < |vs| ==> vs[i].controlId != vs[j].controlId
    ensures NoDuplicates(MissingReviews(vs))
    ensures forall m :: m in MissingReviews(vs) ==> m == ReviewItem(m.subjectId)
  {
    if vs != [] {
      var init := vs[..|vs| - 1];
      ReviewOnce(init);
      if ReviewItem(vs[|vs| - 1].controlId) in MissingReviews(init) {
        var i := ReviewIndex(init, ReviewItem(vs[|vs| - 1].controlId));
      }
    }
  }

  lemma {:induction false} ClassifyIndex(vs: seq<DeficiencyView>, m: MissingDecision) returns (i: nat)
    requires m in MissingClassifications(vs)
    ensures i < |vs| && vs[i].classify.None? && m == ClassifyItem(vs[i].deficiencyId)
  {
    var last := |vs| - 1;
    if m in MissingClassifications(vs[..last]) {
      i := ClassifyIndex(vs[..last], m);
    } else {
      i := last;
    }
  }

  lemma {:induction false} ClassifyListed(vs: seq<DeficiencyView>, i: nat)
    requires i < |vs| && vs[i].classify.None?
    ensures ClassifyItem(vs[i].deficiencyId) in MissingClassifications(vs)
  {
    if i < |vs| - 1 {
      ClassifyListed(vs[..|vs| - 1], i);
    }
  }

  lemma {:induction false} ClassifyOnce(vs: seq<DeficiencyView>)
    requires forall i, j :: 0 <= i < j < |vs| ==> vs[i].deficiencyId != vs[j].deficiencyId
    ensures NoDuplicates(MissingClassifications(vs))
    ensures forall m :: m in MissingClassifications(vs) ==> m == ClassifyItem(m.subjectId)
  {
    if vs != [] {
      var init := vs[..|vs| - 1];
      ClassifyOnce(init);
      if ClassifyItem(vs[|vs| - 1].deficiencyId) in MissingClassifications(init) {
        var i := ClassifyIndex(init, ClassifyItem(vs[|vs| - 1].deficiencyId));
      }
    }
  }

  lemma {:induction false} ScopeIndex(vs: seq<FindingView>, m: MissingDecision) returns (i: nat)
    requires m in MissingScopes(vs)
    ensures i < |vs| && FindingNeedsScopeLimitation(vs[i].effective.result, vs[i].keyControl) && vs[i].scope.None?
            && m == ScopeItem(vs[i].controlId)
  {
    var last := |vs| - 1;
    if m in MissingScopes(vs[..last]) {
      i := ScopeIndex(vs[..last], m);
    } else {
      i := last;
    }
  }

  lemma {:induction false} ScopeListed(vs: seq<FindingView>, i: nat)
    requires i < |vs| && FindingNeedsScopeLimitation(vs[i].effective.result, vs[i].keyControl) && vs[i].scope.None?
    ensures ScopeItem(vs[i].controlId) in MissingScopes(vs)
  {
    if i < |vs| - 1 {
      ScopeListed(vs[..|vs| - 1], i);
    }
  }

  lemma {:induction false} ScopeOnce(vs: seq<FindingView>)
    requires forall i, j :: 0 <= i < j < |vs| ==> vs[i].controlId != vs[j].controlId
    ensures NoDuplicates(MissingScopes(vs))
    ensures forall m :: m in MissingScopes(vs) ==> m == ScopeItem(m.subjectId)
  {
    if vs != [] {
      var init := vs[..|vs| - 1];
      ScopeOnce(init);
      if ScopeItem(vs[|vs| - 1].controlId) in MissingScopes(init) {
        var i := ScopeIndex(init, ScopeItem(vs[|vs| - 1].controlId));
      }
    }
  }

  /** No active decision fills the slot yet. */
  predicate Unfilled(h: Hasher, ctx: Artifacts, ds: seq<Decision>, m: MissingDecision) {
    m.required != [] && ActiveFor(h, ctx, ds, KeyOfMissing(m)).None?
  }

  lemma ReviewMissing(h: Hasher, ctx: Artifacts, ds: seq<Decision>, m: MissingDecision)
    requires FindingIdsGood(ContextFindings(ctx))
    ensures m in MissingReviews(FindingViews(h, ctx, ds, ContextFindings(ctx)))
            <==> m == ReviewItem(m.subjectId) && WantsReview(ctx, m.subjectId) && Unfilled(h, ctx, ds, m)
  {
    var fs := ContextFindings(ctx);
    var vs := FindingViews(h, ctx, ds, fs);
    ViewsOfDistinct(h, ctx, ds, fs);
    if m in MissingReviews(vs) {
      var i := ReviewIndex(vs, m);
      FoundItself(fs, i);
    } else if m == ReviewItem(m.subjectId) && WantsReview(ctx, m.subjectId) {
      var i :| 0 <= i < |fs| && fs[i] == FindFinding(fs, m.subjectId).value;
      if vs[i].review.None? {
        ReviewListed(vs, i);
      }
    }
  }

  lemma ScopeMissing(h: Hasher, ctx: Artifacts, ds: seq<Decision>, m: MissingDecision)
    requires FindingIdsGood(ContextFindings(ctx))
    ensures m in MissingScopes(FindingViews(h, ctx, ds, ContextFindings(ctx)))
            <==> m == ScopeItem(m.subjectId) && WantsScope(h, ctx, ds, m.subjectId) && Unfilled(h, ctx, ds, m)
  {
    var fs := ContextFindings(ctx);
    var vs := FindingViews(h, ctx, ds, fs);
    ViewsOfDistinct(h, ctx, ds, fs);
    if m in MissingScopes(vs) {
      var i := ScopeIndex(vs, m);
      FoundItself(fs, i);
    } else if m == ScopeItem(m.subjectId) && WantsScope(h, ctx, ds, m.subjectId) {
      var i :| 0 <= i < |fs| && fs[i] == FindFinding(fs, m.subjectId).value;
      if vs[i].scope.None? {
        ScopeListed(vs, i);
      }
    }
  }

  lemma ClassifyMissingIsWanted(h: Hasher, ctx: Artifacts, ds: seq<Decision>, m: MissingDecision)
    requires EvaluationIdsGood(ContextEvaluations(ctx))
    requires m in MissingClassifications(DeficiencyViews(h, ctx, ds, ContextEvaluations(ctx)))
    ensures m == ClassifyItem(m.subjectId) && WantsClassify(ctx, m.subjectId)
    ensures ActiveFor(h, ctx, ds, DeficiencyKey(Classify, m.subjectId)).None?
  {
    var es := ContextEvaluations(ctx);
    EvaluationViewsOfDistinct(h, ctx, ds, es);
    var i := ClassifyIndex(DeficiencyViews(h, ctx, ds, es), m);
    FoundEvaluation(es, i);
  }

  lemma WantedClassifyIsMissing(h: Hasher, ctx: Artifacts, ds: seq<Decision>, id: string)
    requires EvaluationIdsGood(ContextEvaluations(ctx)) && WantsClassify(ctx, id)
    requires ActiveFor(h, ctx, ds, DeficiencyKey(Classify, id)).None?
    ensures ClassifyItem(id) in MissingClassifications(DeficiencyViews(h, ctx, ds, ContextEvaluations(ctx)))
  {
    var es := ContextEvaluations(ctx);
    EvaluationViewsOfDistinct(h, ctx, ds, es);
    var i :| 0 <= i < |es| && es[i] == FindEvaluation(es, id).value;
    ClassifyListed(DeficiencyViews(h, ctx, ds, es), i);
  }

  lemma ClassifyMissing(h: Hasher, ctx: Artifacts, ds: seq<Decision>, m: MissingDecision)
    requires EvaluationIdsGood(ContextEvaluations(ctx))
    ensures m in MissingClassifications(DeficiencyViews(h, ctx, ds, ContextEvaluations(ctx)))
            <==> m == ClassifyItem(m.subjectId) && WantsClassify(ctx, m.subjectId) && Unfilled(h, ctx, ds, m)
  {
    if m in MissingClassifications(DeficiencyViews(h, ctx, ds, ContextEvaluations(ctx))) {
      ClassifyMissingIsWanted(h, ctx, ds, m);
    } else if m == ClassifyItem(m.subjectId) && WantsClassify(ctx, m.subjectId) && Unfilled(h, ctx, ds, m) {
      WantedClassifyIsMissing(h, ctx, ds, m.subjectId);
    }
  }

  /** The missing list holds exactly the wanted decisions whose slot has no active decision. */
  lemma MissingExactly(h: Hasher, ctx: Artifacts, ds: seq<Decision>, gate: nat, m: MissingDecision)
    requires AtGate(ctx, gate)
    ensures m in MissingFor(h, ctx, ds, gate) <==> Wanted(h, ctx, ds, gate, m) && Unfilled(h, ctx, ds, m)
  {
    if gate == 2 {
      ReviewMissing(h, ctx, ds, m);
    } else {
      ScopeMissing(h, ctx, ds, m);
      ClassifyMissing(h, ctx, ds, m);
    }
  }

  predicate Classifications(a: seq<MissingDecision>) {
    forall i :: 0 <= i < |a| ==> a[i] == ClassifyItem(a[i].subjectId)
  }

  predicate ScopeLimitations(b: seq<MissingDecision>) {
    forall i :: 0 <= i < |b| ==> b[i] == ScopeItem(b[i].subjectId)
  }

  /** Lists of different kinds of items have no item in common. */
  lemma KindsOnce(a: seq<MissingDecision>, b: seq<MissingDecision>, c: seq<MissingDecision>)
    requires NoDuplicates(a) && Classifications(a)
    requires NoDuplicates(b) && ScopeLimitations(b)
    requires c == [] || c == [CONCLUSION_ITEM]
    ensures NoDuplicates(a + b + c)
  {
  }

  lemma ReviewsOnce(h: Hasher, ctx: Artifacts, ds: seq<Decision>)
    requires FindingIdsGood(ContextFindings(ctx))
    ensures NoDuplicates(MissingReviews(FindingViews(h, ctx, ds, ContextFindings(ctx))))
    ensures NoDuplicates(MissingScopes(FindingViews(h, ctx, ds, ContextFindings(ctx))))
    ensures ScopeLimitations(MissingScopes(FindingViews(h, ctx, ds, ContextFindings(ctx))))
  {
    var vs := FindingViews(h, ctx, ds, ContextFindings(ctx));
    ViewsOfDistinct(h, ctx, ds, ContextFindings(ctx));
    ReviewOnce(vs);
    ScopeOnce(vs);
    assert forall i :: 0 <= i < |MissingScopes(vs)| ==> MissingScopes(vs)[i] in MissingScopes(vs);
  }

  lemma ClassificationsOnce(h: Hasher, ctx: Artifacts, ds: seq<Decision>)
    requires EvaluationIdsGood(ContextEvaluations(ctx))
    ensures var a := MissingClassifications(DeficiencyViews(h, ctx, ds, ContextEvaluations(ctx)));
            NoDuplicates(a) && Classifications(a)
  {
    var us := DeficiencyViews(h, ctx, ds, ContextEvaluations(ctx));
    EvaluationViewsOfDistinct(h, ctx, ds, ContextEvaluations(ctx));
    ClassifyOnce(us);
    assert forall i :: 0 <= i < |MissingClassifications(us)| ==>
             MissingClassifications(us)[i] in MissingClassifications(us);
  }

  lemma ConclusionOnce(conclusion: Option<Decision>)
    ensures MissingConclusion(conclusion) == if conclusion.None? then [CONCLUSION_ITEM] else []
  {
  }

  /** No decision is asked for twice. */
  lemma MissingOnce(h: Hasher, ctx: Artifacts, ds: seq<Decision>, gate: nat)
    requires AtGate(ctx, gate)
    ensures NoDuplicates(MissingFor(h, ctx, ds, gate))
  {
    ReviewsOnce(h, ctx, ds);
    if gate == 3 {
      ClassificationsOnce(h, ctx, ds);
      ConclusionOnce(ActiveFor(h, ctx, ds, ENGAGEMENT_KEY));
      KindsOnce(MissingClassifications(DeficiencyViews(h, ctx, ds, ContextEvaluations(ctx))),
                MissingScopes(FindingViews(h, ctx, ds, ContextFindings(ctx))),
                MissingConclusion(ActiveFor(h, ctx, ds, ENGAGEMENT_KEY)));
    }
  }

  // ---- The minimal request is accepted -----------------------------------------

  /** The reviewer names somebody, and not a preparer. */
  predicate MayReview(fold: char -> string, reviewer: string, preparers: seq<string>) {
    && Strip(reviewer) != ""
    && forall i :: 0 <= i < |preparers| ==> !SamePerson(fold, Strip(reviewer), preparers[i])
  }

  /** A request whose every check passes is accepted into its slot. */
  lemma AcceptedWhen(env: Env, ctx: Artifacts, status: AuditStatus, preparers: seq<string>, ds: seq<Decision>,
                     r: Request, t: DecisionType, id: string, p: Parsed, newId: string, now: string, today: int)
    requires r.decisionType == Some(t) && r.source.Some? && r.subjectType.None? && Recordable(t, status)
    requires MayReview(env.fold, r.decidedBy, preparers)
    requires SubjectIdFor(t, r.subjectId) == id && id != "" && (SubjectFor(t) == EngagementSubject ==> id == ENGAGEMENT)
    requires Decidable(ctx, ArtifactFor(SubjectFor(t))).Some?
    requires r.values == Some(p) && Fits(t, p)
    requires StoredValues(env.h, ctx, ds, t, id, p, Strip(r.rationale), today).Accepted?
    requires Strip(r.rationale) != "" && Strip(r.supersedes) == ""
    requires ActiveFor(env.h, ctx, ds, SlotKey(SlotOf(t), SubjectFor(t), id)).None?
    ensures var b := BuildDecision(env, ctx, status, preparers, ds, r, newId, now, today);
            b.Accepted? && KeyOf(b.value) == SlotKey(SlotOf(t), SubjectFor(t), id)
  {
    assert CheckRequest(env, status, preparers, r) == None;
  }

  lemma StripsToText(s: string)
    requires s != "" && !IsSpace(s[0])
    ensures Strip(s) != ""
  {
  }

  lemma RationaleStays(t: DecisionType)
    requires AskedFirst(t)
    ensures Strip(RationaleFor(t)) != "" && Strip("") == ""
  {
    assert RECORDED[0] == 'R' && 'R' as int == 82;
    assert RationaleFor(t)[0] == AUTOMATED[0] == RECORDED[0];
    StripsToText(RationaleFor(t));
  }

  lemma WantedIdTrimmed(h: Hasher, ctx: Artifacts, ds: seq<Decision>, gate: nat, m: MissingDecision)
    requires AtGate(ctx, gate) && Wanted(h, ctx, ds, gate, m)
    ensures m.subjectId != "" && Strip(m.subjectId) == m.subjectId
  {
    var fs, es := ContextFindings(ctx), ContextEvaluations(ctx);
    if m == CONCLUSION_ITEM {
      StripOfTrimmed(ENGAGEMENT);
    } else if m.subjectType == FindingSubject {
      var i :| 0 <= i < |fs| && fs[i] == FindFinding(fs, m.subjectId).value;
      StripOfTrimmed(fs[i].controlId);
    } else {
      var i :| 0 <= i < |es| && es[i] == FindEvaluation(es, m.subjectId).value;
      StripOfTrimmed(es[i].deficiencyId);
    }
  }

  /** The draft's own classification is always accepted. */
  lemma DraftClassificationFits(ctx: Artifacts, id: string, rationale: string, today: int)
    requires AtGate(ctx, 3) && FindEvaluation(ContextEvaluations(ctx), id).Some?
    ensures var e := FindEvaluation(ContextEvaluations(ctx), id).value;
            DeficiencyValues(ctx, Classify, id, ParsedClassify(e.classification, None, None), rationale,
                             today).Accepted?
  {
    var es := ContextEvaluations(ctx);
    var i :| 0 <= i < |es| && es[i] == FindEvaluation(es, id).value;
    assert ReportValid(ctx.report.value);
  }

  /** The values of the minimal request for `m` are accepted, with any rationale. */
  predicate ValuesStored(h: Hasher, ctx: Artifacts, ds: seq<Decision>, m: MissingDecision, rationale: string,
                         today: int)
    requires m.required != []
  {
    var p := MinimalParsed(ctx, m);
    && p.Some? && Fits(m.required[0], p.value)
    && StoredValues(h, ctx, ds, m.required[0], m.subjectId, p.value, rationale, today).Accepted?
  }

  lemma MinimalReview(h: Hasher, ctx: Artifacts, ds: seq<Decision>, id: string, rationale: string, today: int)
    requires WantsReview(ctx, id)
    ensures ValuesStored(h, ctx, ds, ReviewItem(id), rationale, today)
  {
  }

  lemma MinimalScope(h: Hasher, ctx: Artifacts, ds: seq<Decision>, id: string, rationale: string, today: int)
    requires WantsScope(h, ctx, ds, id)
    ensures ValuesStored(h, ctx, ds, ScopeItem(id), rationale, today)
  {
  }

  lemma MinimalClassify(h: Hasher, ctx: Artifacts, ds: seq<Decision>, id: string, rationale: string, today: int)
    requires AtGate(ctx, 3) && WantsClassify(ctx, id)
    ensures ValuesStored(h, ctx, ds, ClassifyItem(id), rationale, today)
  {
    DraftClassificationFits(ctx, id, rationale, today);
  }

  lemma MinimalConclusion(h: Hasher, ctx: Artifacts, ds: seq<Decision>, rationale: string, today: int)
    ensures ValuesStored(h, ctx, ds, CONCLUSION_ITEM, rationale, today)
  {
  }

  lemma MinimalValues(h: Hasher, ctx: Artifacts, gate: Phase, ds: seq<Decision>, m: MissingDecision, rationale: string,
                      today: int)
    requires AtGate(ctx, gate) && m.required != [] && Wanted(h, ctx, ds, gate, m)
    ensures ValuesStored(h, ctx, ds, m, rationale, today)
  {
    if m == ReviewItem(m.subjectId) {
      MinimalReview(h, ctx, ds, m.subjectId, rationale, today);
    } else if m == ScopeItem(m.subjectId) {
      MinimalScope(h, ctx, ds, m.subjectId, rationale, today);
    } else if m == ClassifyItem(m.subjectId) {
      MinimalClassify(h, ctx, ds, m.subjectId, rationale, today);
    } else {
      MinimalConclusion(h, ctx, ds, rationale, today);
    }
  }

  /** Every wanted decision with an unfilled slot is accepted in its minimal form. */
  lemma MinimalAccepted(env: Env, ctx: Artifacts, gate: Phase, preparers: seq<string>, ds: seq<Decision>,
                        m: MissingDecision, reviewer: string, newId: string, now: string, today: int)
    requires AtGate(ctx, gate) && MayReview(env.fold, reviewer, preparers)
    requires Wanted(env.h, ctx, ds, gate, m) && Unfilled(env.h, ctx, ds, m)
    ensures var b := BuildDecision(env, ctx, WaitingGate(gate), preparers, ds, MinimalRequest(ctx, m, reviewer), newId,
                                   now, today);
            b.Accepted? && KeyOf(b.value) == KeyOfMissing(m)
  {
    WantedIdTrimmed(env.h, ctx, ds, gate, m);
    assert AskedFirst(m.required[0]);
    RationaleStays(m.required[0]);
    MinimalValues(env.h, ctx, gate, ds, m, Strip(RationaleFor(m.required[0])), today);
    MinimalAcceptedWith(env, ctx, gate, preparers, ds, m, MinimalRequest(ctx, m, reviewer), newId, now, today);
  }

  lemma MinimalAcceptedWith(env: Env, ctx: Artifacts, gate: Phase, preparers: seq<string>, ds: seq<Decision>,
                            m: MissingDecision, r: Request, newId: string, now: string, today: int)
    requires AtGate(ctx, gate) && MayReview(env.fold, r.decidedBy, preparers)
    requires Wanted(env.h, ctx, ds, gate, m) && Unfilled(env.h, ctx, ds, m)
    requires r.decisionType == Some(m.required[0]) && r.source.Some? && r.subjectType.None?
    requires r.subjectId == m.subjectId && Strip(m.subjectId) == m.subjectId && m.subjectId != ""
    requires Strip(r.supersedes) == "" && Strip(r.rationale) != ""
    requires r.values.Some? && Fits(m.required[0], r.values.value)
    requires StoredValues(env.h, ctx, ds, m.required[0], m.subjectId, r.values.value, Strip(r.rationale),
                          today).Accepted?
    ensures var b := BuildDecision(env, ctx, WaitingGate(gate), preparers, ds, r, newId, now, today);
            b.Accepted? && KeyOf(b.value) == KeyOfMissing(m)
  {
    assert m.subjectType == SubjectFor(m.required[0]);
    AcceptedWhen(env, ctx, WaitingGate(gate), preparers, ds, r, m.required[0], m.subjectId, r.values.value, newId, now,
                 today);
  }

  // ---- One pass over the list --------------------------------------------------

  /** `todo` lists exactly the decisions the gate still waits for, each once. */
  ghost predicate Outstanding(h: Hasher, ctx: Artifacts, ds: seq<Decision>, gate: nat, todo: seq<MissingDecision>) {
    && NoDuplicates(todo)
    && forall m :: m in todo <==> Wanted(h, ctx, ds, gate, m) && Unfilled(h, ctx, ds, m)
  }

  lemma MissingIsOutstanding(h: Hasher, ctx: Artifacts, ds: seq<Decision>, gate: nat)
    requires AtGate(ctx, gate)
    ensures Outstanding(h, ctx, ds, gate, MissingFor(h, ctx, ds, gate))
  {
    MissingOnce(h, ctx, ds, gate);
    forall m
      ensures m in MissingFor(h, ctx, ds, gate) <==> Wanted(h, ctx, ds, gate, m) && Unfilled(h, ctx, ds, m)
    {
      MissingExactly(h, ctx, ds, gate, m);
    }
  }

  lemma NothingOutstanding(h: Hasher, ctx: Artifacts, ds: seq<Decision>, gate: nat)
    requires AtGate(ctx, gate) && Outstanding(h, ctx, ds, gate, [])
    ensures MissingFor(h, ctx, ds, gate) == []
  {
    var missing := MissingFor(h, ctx, ds, gate);
    assert missing != [] ==> missing[0] in missing;
    forall m
      ensures m !in missing
    {
      var none: seq<MissingDecision> := [];
      assert m !in none;
      MissingExactly(h, ctx, ds, gate, m);
    }
  }

  /** Recording one wanted decision does not change what the gate wants. */
  lemma WantedStays(h: Hasher, ctx: Artifacts, ds: seq<Decision>, gate: nat, w: MissingDecision, d: Decision,
                    m: MissingDecision)
    requires AtGate(ctx, gate) && Chained(ds) && Fresh(ds, d.id) && Enters(h, ctx, ds, d)
    requires Wanted(h, ctx, ds, gate, w) && w.required != [] && KeyOf(d) == KeyOfMissing(w)
    ensures Wanted(h, ctx, ds + [d], gate, m) <==> Wanted(h, ctx, ds, gate, m)
  {
    if gate == 3 {
      assert KeyOf(d).slot != FindingReview;
      ActiveAfterAccept(h, ctx, ds, d, ReviewKey(m.subjectId));
    }
  }

  /** At one gate, decisions on the same slot are the same item. */
  lemma OneItemPerSlot(h: Hasher, ctx: Artifacts, ds: seq<Decision>, gate: nat, m: MissingDecision, w: MissingDecision)
    requires Wanted(h, ctx, ds, gate, m) && Wanted(h, ctx, ds, gate, w)
    requires m.required != [] && w.required != [] && KeyOfMissing(m) == KeyOfMissing(w)
    ensures m == w
  {
  }

  /** A decision for the first item leaves exactly the other items outstanding. */
  lemma OneLessOutstanding(h: Hasher, ctx: Artifacts, ds: seq<Decision>, gate: nat, todo: seq<MissingDecision>,
                           d: Decision)
    requires AtGate(ctx, gate) && Chained(ds) && Fresh(ds, d.id) && Enters(h, ctx, ds, d)
    requires Outstanding(h, ctx, ds, gate, todo) && todo != [] && todo[0].required != []
    requires KeyOf(d) == KeyOfMissing(todo[0])
    ensures Outstanding(h, ctx, ds + [d], gate, todo[1..])
  {
    var w := todo[0];
    assert w in todo;
    forall m
      ensures m in todo[1..] <==> Wanted(h, ctx, ds + [d], gate, m) && Unfilled(h, ctx, ds + [d], m)
    {
      assert m in todo[1..] <==> m in todo && m != w;
      WantedStays(h, ctx, ds, gate, w, d, m);
      if m.required != [] && Wanted(h, ctx, ds, gate, m) {
        ActiveAfterAccept(h, ctx, ds, d, KeyOfMissing(m));
        if KeyOfMissing(m) == KeyOf(d) {
          OneItemPerSlot(h, ctx, ds, gate, m, w);
        }
      }
    }
  }
}

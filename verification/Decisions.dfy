/** Reviewer decisions: their states, validation and the effective view (src/swarm/review_decisions.py). */
module Decisions {
  import opened Options
  import opened Text
  import opened Schema
  import opened Machine
  import opened Records
  import opened Trail
  import opened Policy

  // ---- Slots and states --------------------------------------------------------

  datatype Slot = FindingReview | TypeSlot(decisionType: DecisionType)

  datatype SlotKey = SlotKey(slot: Slot, subjectType: SubjectType, subjectId: string)

  /** A sign-off and a challenge share the finding's review slot. */
  function SlotOf(t: DecisionType): Slot {
    if t == SignOff || t == Challenge then FindingReview else TypeSlot(t)
  }

  function KeyOf(d: Decision): SlotKey {
    SlotKey(SlotOf(d.decisionType), d.subjectType, d.subjectId)
  }

  function SubjectFor(t: DecisionType): SubjectType {
    match t
    case SignOff => FindingSubject
    case Challenge => FindingSubject
    case ScopeLimitation => FindingSubject
    case EngagementConclusion => EngagementSubject
    case _ => DeficiencySubject
  }

  function PhaseFor(t: DecisionType): nat {
    if t == SignOff || t == Challenge then 2 else 3
  }

  function ArtifactFor(s: SubjectType): ArtifactName {
    if s == FindingSubject then WorkingPapers else FinalReport
  }

  /** The artifacts decisions are about; the risk and control matrix is not one of them. */
  function Decidable(ctx: Artifacts, name: ArtifactName): Option<Artifact> {
    if name == WorkingPapers || name == FinalReport then Current(ctx, name) else None
  }

  datatype DecisionState = Active | Superseded | Stale

  predicate IsSuperseded(ds: seq<Decision>, id: string) {
    exists i :: 0 <= i < |ds| && ds[i].supersedes == Some(id)
  }

  /** The decision judged the artifact as it is now. */
  predicate OnCurrentDraft(h: Hasher, ctx: Artifacts, d: Decision) {
    var a := Decidable(ctx, d.artifact);
    a.Some? && ArtifactDigest(h, a.value) == d.draftDigest
  }

  function StateOf(h: Hasher, ctx: Artifacts, ds: seq<Decision>, d: Decision): DecisionState {
    if IsSuperseded(ds, d.id) then Superseded
    else if OnCurrentDraft(h, ctx, d) then Active
    else Stale
  }

  /** The latest active decision of a slot among `part`; `all` decides what is superseded. */
  function ActiveIn(h: Hasher, ctx: Artifacts, all: seq<Decision>, part: seq<Decision>,
                    key: SlotKey): (r: Option<Decision>)
    ensures r.Some? ==> r.value in part && KeyOf(r.value) == key && StateOf(h, ctx, all, r.value) == Active
    ensures r.None? ==> forall d :: d in part && KeyOf(d) == key ==> StateOf(h, ctx, all, d) != Active
  {
    if part == [] then None
    else
      var d := part[|part| - 1];
      if KeyOf(d) == key && StateOf(h, ctx, all, d) == Active then Some(d)
      else ActiveIn(h, ctx, all, part[..|part| - 1], key)
  }

  function ActiveFor(h: Hasher, ctx: Artifacts, ds: seq<Decision>, key: SlotKey): Option<Decision> {
    ActiveIn(h, ctx, ds, ds, key)
  }

  lemma ActiveStep(h: Hasher, ctx: Artifacts, ds: seq<Decision>, i: nat)
    requires i < |ds|
    ensures forall key :: ActiveIn(h, ctx, ds, ds[..i + 1], key)
              == if KeyOf(ds[i]) == key && StateOf(h, ctx, ds, ds[i]) == Active then Some(ds[i])
                 else ActiveIn(h, ctx, ds, ds[..i], key)
  {
    var part := ds[..i + 1];
    assert part[..|part| - 1] == ds[..i] && part[|part| - 1] == ds[i];
    forall key
      ensures ActiveIn(h, ctx, ds, part, key)
              == if KeyOf(ds[i]) == key && StateOf(h, ctx, ds, ds[i]) == Active then Some(ds[i])
                 else ActiveIn(h, ctx, ds, ds[..i], key)
    {
    }
  }

  predicate DistinctIds(ds: seq<Decision>) {
    forall i, j :: 0 <= i < j < |ds| ==> ds[i].id != ds[j].id
  }

  /** `decision_states`: decision id to state. */
  method DecisionStates(h: Hasher, ctx: Artifacts, ds: seq<Decision>) returns (states: map<string, DecisionState>)
    ensures forall id :: id in states <==> HasId(ds, id)
    ensures DistinctIds(ds) ==> forall i :: 0 <= i < |ds| ==>
              ds[i].id in states && states[ds[i].id] == StateOf(h, ctx, ds, ds[i])
  {
    var superseded: set<string> := {};
    for i := 0 to |ds|
      invariant forall id :: id in superseded <==> exists k :: 0 <= k < i && ds[k].supersedes == Some(id)
    {
      if ds[i].supersedes.Some? {
        superseded := superseded + {ds[i].supersedes.value};
      }
    }
    assert forall id :: id in superseded <==> IsSuperseded(ds, id);
    states := map[];
    for i := 0 to |ds|
      invariant forall id :: id in states <==> exists k :: 0 <= k < i && ds[k].id == id
      invariant DistinctIds(ds) ==> forall k :: 0 <= k < i ==> states[ds[k].id] == StateOf(h, ctx, ds, ds[k])
    {
      var d := ds[i];
      if d.id in superseded {
        states := states[d.id := Superseded];
      } else if !OnCurrentDraft(h, ctx, d) {
        states := states[d.id := Stale];
      } else {
        states := states[d.id := Active];
      }
    }
  }

  /** `active_by_slot`: slot to its latest active decision. */
  method ActiveBySlot(h: Hasher, ctx: Artifacts, ds: seq<Decision>) returns (active: map<SlotKey, Decision>)
    ensures DistinctIds(ds) ==>
              forall key :: ActiveFor(h, ctx, ds, key) == if key in active then Some(active[key]) else None
  {
    var states := DecisionStates(h, ctx, ds);
    active := map[];
    for i := 0 to |ds|
      invariant DistinctIds(ds) ==>
                  forall key :: ActiveIn(h, ctx, ds, ds[..i], key) == if key in active then Some(active[key]) else None
    {
      ActiveStep(h, ctx, ds, i);
      assert HasId(ds, ds[i].id);
      if states[ds[i].id] == Active {
        active := active[KeyOf(ds[i]) := ds[i]];
      }
    }
    assert ds[..|ds|] == ds;
  }

  // ---- Looking up drafts -------------------------------------------------------

  /** First finding with a control id. */
  function FindFinding(fs: seq<Finding>, id: string): (r: Option<Finding>)
    ensures r.Some? ==> r.value in fs && r.value.controlId == id
    ensures r.None? ==> forall f :: f in fs ==> f.controlId != id
  {
    if fs == [] then None else if fs[0].controlId == id then Some(fs[0]) else FindFinding(fs[1..], id)
  }

  function FindEvaluation(es: seq<Evaluation>, id: string): (r: Option<Evaluation>)
    ensures r.Some? ==> r.value in es && r.value.deficiencyId == id
    ensures r.None? ==> forall e :: e in es ==> e.deficiencyId != id
  {
    if es == [] then None else if es[0].deficiencyId == id then Some(es[0]) else FindEvaluation(es[1..], id)
  }

  function ContextFindings(ctx: Artifacts): seq<Finding> {
    match ctx.papers case None => [] case Some(p) => p.findings
  }

  function ContextEvaluations(ctx: Artifacts): seq<Evaluation> {
    match ctx.report case None => [] case Some(r) => r.evaluations
  }

  function ControlsOf(risks: seq<Risk>): seq<Control> {
    if risks == [] then [] else risks[0].controls + ControlsOf(risks[1..])
  }

  function KeyFlag(cs: seq<Control>, id: string): Option<bool> {
    if cs == [] then None else if cs[0].controlId == id then cs[0].keyControl else KeyFlag(cs[1..], id)
  }

  /** `key_controls().get(id)`: the matrix's first entry for the control wins. */
  function KeyControl(ctx: Artifacts, id: string): Option<bool> {
    match ctx.racm case None => None case Some(r) => KeyFlag(ControlsOf(r.risks), id)
  }

  // ---- Conclusions of record ---------------------------------------------------

  datatype Conclusions = Conclusions(tod: Design, toe: Operating, result: Outcome, preliminary: bool)

  function OrElse<T>(o: Option<T>, fallback: T): T {
    match o case None => fallback case Some(x) => x
  }

  function DraftConclusions(f: Finding): Conclusions {
    Conclusions(f.tod, f.toe, f.result, f.preliminary)
  }

  /** `_effective_conclusions`, with the preliminary flag the view adds. */
  function EffectiveConclusions(f: Finding, review: Option<Decision>): Conclusions {
    var challenged := review.Some? && review.value.decisionType == Challenge && review.value.values.ChallengeValues?;
    var tod := if challenged then OrElse(review.value.values.tod, f.tod) else f.tod;
    var toe := if challenged then OrElse(review.value.values.toe, f.toe) else f.toe;
    var result := DeriveResult(tod, toe, f.exceptions);
    Conclusions(tod, toe, result, f.preliminary && result == ExceptionFound)
  }

  datatype Classified = Classified(classification: Classification, likelihood: Rating, magnitude: Rating)

  function DraftClassification(e: Evaluation): Classified {
    Classified(e.classification, e.likelihood, e.magnitude)
  }

  function EffectiveClassification(e: Evaluation, classify: Option<Decision>): Classified {
    if classify.Some? && classify.value.values.ClassifyValues? then
      var v := classify.value.values;
      Classified(v.classification, v.likelihood, v.magnitude)
    else DraftClassification(e)
  }

  function ReviewKey(id: string): SlotKey { SlotKey(FindingReview, FindingSubject, id) }
  function ScopeKey(id: string): SlotKey { SlotKey(TypeSlot(ScopeLimitation), FindingSubject, id) }
  function DeficiencyKey(t: DecisionType, id: string): SlotKey { SlotKey(TypeSlot(t), DeficiencySubject, id) }

  const ENGAGEMENT := "engagement"
  const ENGAGEMENT_KEY := SlotKey(TypeSlot(EngagementConclusion), EngagementSubject, ENGAGEMENT)

  // ---- Building one decision ---------------------------------------------------

  datatype Checked<T> = Accepted(value: T) | Refused(refusal: Refusal)

  datatype MissingDecision = MissingDecision(gate: nat, subjectType: SubjectType, subjectId: string,
                                             required: seq<DecisionType>)

  /** The refusals of the audit flow, one per exception class. */
  datatype Refusal =
    | InvalidTransition
    | NotRunnable
    | RunNotStarted
    | BadInput                                   // ValueError, DecisionValidationError
    | Conflict                                   // DecisionConflictError
    | SegregationOfDuties
    | UnverifiedEvidence(controls: seq<string>)
    | MissingDecisions(missing: seq<MissingDecision>)
    | ArtifactMissing

  datatype DateText = BlankDate | NotADate | Day(day: int)

  /** The request values after the type's value model parsed them. */
  datatype Parsed =
    | NothingParsed
    | ParsedChallenge(tod: Option<Design>, toe: Option<Operating>)
    | ParsedClassify(classification: Classification, likelihood: Option<Rating>, magnitude: Option<Rating>)
    | ParsedWriteup(criteria: string, condition: string, cause: string, effect: string, recommendation: string)
    | ParsedManagement(text: string, agreement: Agreement, owner: string, target: DateText,
                       receivedFrom: string, receivedOn: DateText)
    | ParsedEngagement(rating: EngagementRating)
    | ParsedRemediation(status: RemediationStatus, verifiedOn: DateText, evidence: string)

  /** `decisionType` and `source` are None for unknown names; `values` is None when the value model rejects them. */
  datatype Request = Request(
    decisionType: Option<DecisionType>, subjectId: string, decidedBy: string, values: Option<Parsed>,
    rationale: string, subjectType: Option<string>, supersedes: string, source: Option<IdentitySource>)

  /** The value model of a type produces values of its own shape. */
  predicate Fits(t: DecisionType, p: Parsed) {
    match t
    case SignOff => p == NothingParsed
    case ScopeLimitation => p == NothingParsed
    case Challenge => p.ParsedChallenge?
    case Classify => p.ParsedClassify?
    case Writeup => p.ParsedWriteup?
    case ManagementResponse => p.ParsedManagement?
    case EngagementConclusion => p.ParsedEngagement?
    case RemediationVerification => p.ParsedRemediation?
  }

  function SubjectText(s: SubjectType): string {
    match s case FindingSubject => "finding" case DeficiencySubject => "deficiency" case EngagementSubject => ENGAGEMENT
  }

  /** `_challenge_values`: only real changes are kept, and only withdrawals of a positive conclusion. */
  function ChallengeFor(f: Finding, tod: Option<Design>, toe: Option<Operating>): (r: Checked<Values>)
    ensures r.Accepted? ==> r.value.ChallengeValues?
  {
    if tod.Some? && !DesignChangeAllowed(f.tod, tod.value) then Refused(Conflict)
    else if toe.Some? && !OperatingChangeAllowed(f.toe, toe.value) then Refused(Conflict)
    else Accepted(ChallengeValues(if tod == Some(f.tod) then None else tod, if toe == Some(f.toe) then None else toe))
  }

  /** `_classify_values`. */
  function ClassifyFor(r: Report, e: Evaluation, p: Parsed): (v: Checked<Values>)
    requires p.ParsedClassify?
    ensures v.Accepted? ==>
              && v.value.ClassifyValues?
              && (r.scale.Some? ==> OnScale(v.value.classification, r.scale.value))
              && AboveFloor(v.value.classification, v.value.likelihood, v.value.magnitude)
  {
    var likelihood := OrElse(p.likelihood, e.likelihood);
    var magnitude := OrElse(p.magnitude, e.magnitude);
    if r.scale.Some? && !OnScale(p.classification, r.scale.value) then Refused(BadInput)
    else if !AboveFloor(p.classification, likelihood, magnitude) then Refused(BadInput)
    else Accepted(ClassifyValues(p.classification, likelihood, magnitude))
  }

  function DayOf(d: DateText): Option<int> {
    match d case Day(n) => Some(n) case _ => None
  }

  /** A date that does not parse, or lies after the day the decision is recorded. */
  predicate BadDate(d: DateText, today: int) {
    d == NotADate || (d.Day? && d.day > today)
  }

  /** `_management_values`. */
  function ManagementFor(p: Parsed, rationale: string, today: int): Checked<Values>
    requires p.ParsedManagement?
  {
    var owner := Strip(p.owner);
    if BadDate(p.receivedOn, today) || p.target == NotADate then Refused(BadInput)
    else if NeedsActionPlan(p.agreement) && (owner == "" || !p.target.Day?) then Refused(BadInput)
    else if NeedsRebuttal(p.agreement) && rationale == "" then Refused(BadInput)
    else Accepted(ManagementValues(p.text, p.agreement, p.receivedFrom, DayOf(p.receivedOn), owner, DayOf(p.target)))
  }

  /** `_remediation_values`. */
  function RemediationFor(p: Parsed, today: int): Checked<Values>
    requires p.ParsedRemediation?
  {
    if BadDate(p.verifiedOn, today) then Refused(BadInput)
    else Accepted(RemediationValues(p.status, DayOf(p.verifiedOn), Strip(p.evidence)))
  }

  /** What a decision on a finding stores. */
  function FindingValues(h: Hasher, ctx: Artifacts, ds: seq<Decision>, t: DecisionType, id: string,
                         p: Parsed): Checked<Values>
    requires Fits(t, p) && SubjectFor(t) == FindingSubject
  {
    match FindFinding(ContextFindings(ctx), id)
    case None => Refused(BadInput)
    case Some(f) =>
      if t == Challenge then ChallengeFor(f, p.tod, p.toe)
      else if t == ScopeLimitation
              && EffectiveConclusions(f, ActiveFor(h, ctx, ds, ReviewKey(id))).result != NotTested then
        Refused(BadInput)
      else Accepted(NoValues)
  }

  /** What a decision on a deficiency stores. */
  function DeficiencyValues(ctx: Artifacts, t: DecisionType, id: string, p: Parsed, rationale: string,
                            today: int): Checked<Values>
    requires Fits(t, p) && SubjectFor(t) == DeficiencySubject
  {
    match FindEvaluation(ContextEvaluations(ctx), id)
    case None => Refused(BadInput)
    case Some(e) =>
      if t == Classify then
        var v := ClassifyFor(ctx.report.value, e, p);
        if v.Accepted? && rationale == ""
           && Classified(v.value.classification, v.value.likelihood, v.value.magnitude) != DraftClassification(e)
        then Refused(BadInput) else v
      else if t == ManagementResponse then ManagementFor(p, rationale, today)
      else if t == RemediationVerification then RemediationFor(p, today)
      else Accepted(WriteupValues(p.criteria, p.condition, p.cause, p.effect, p.recommendation))
  }

  function StoredValues(h: Hasher, ctx: Artifacts, ds: seq<Decision>, t: DecisionType, id: string, p: Parsed,
                        rationale: string, today: int): Checked<Values>
    requires Fits(t, p)
  {
    match SubjectFor(t)
    case FindingSubject => FindingValues(h, ctx, ds, t, id, p)
    case DeficiencySubject => DeficiencyValues(ctx, t, id, p, rationale, today)
    case EngagementSubject => Accepted(EngagementValues(p.rating))
  }

  /** The supersede rule: None for "no correction asked", Some(id) for a correction of the active decision. */
  function SupersedeFor(h: Hasher, ctx: Artifacts, ds: seq<Decision>, key: SlotKey,
                        asked: string): Checked<Option<string>>
  {
    var current := ActiveFor(h, ctx, ds, key);
    var id := Strip(asked);
    if id == "" then
      if current.Some? then Refused(Conflict) else Accepted(None)
    else
      match FirstById(ds, id)
      case None => Refused(BadInput)
      case Some(target) =>
        if KeyOf(target) != key then Refused(BadInput)
        else if current.None? || current.value.id != id then Refused(Conflict)
        else Accepted(Some(id))
  }

  function FirstById(ds: seq<Decision>, id: string): (r: Option<Decision>)
    ensures r.Some? ==> r.value in ds && r.value.id == id
    ensures r.None? ==> forall d :: d in ds ==> d.id != id
  {
    if ds == [] then None else if ds[0].id == id then Some(ds[0]) else FirstById(ds[1..], id)
  }

  function SubjectIdFor(t: DecisionType, asked: string): string {
    if SubjectFor(t) == EngagementSubject && Strip(asked) == "" then ENGAGEMENT else Strip(asked)
  }

  /** The identity checks of `build_decision`, before the drafts are looked at. */
  function CheckRequest(env: Env, status: AuditStatus, preparers: seq<string>, r: Request): Option<Refusal> {
    if r.decisionType.None? then Some(BadInput)
    else if Strip(r.decidedBy) == "" || r.source.None? then Some(BadInput)
    else if !Recordable(r.decisionType.value, status) then Some(Conflict)
    else if exists i :: 0 <= i < |preparers| &&
                        DecisionSodViolation(env.fold, r.decisionType.value, Strip(r.decidedBy), preparers[i]) then
      Some(SegregationOfDuties)
    else
      var t := r.decisionType.value;
      if r.subjectType.Some? && Strip(r.subjectType.value) != SubjectText(SubjectFor(t)) then Some(BadInput)
      else
        var id := SubjectIdFor(t, r.subjectId);
        if id == "" || (SubjectFor(t) == EngagementSubject && id != ENGAGEMENT) then Some(BadInput) else None
  }

  /** `build_decision`: validates a request against policy and the drafts; stores nothing. */
  function BuildDecision(env: Env, ctx: Artifacts, status: AuditStatus, preparers: seq<string>, ds: seq<Decision>,
                         r: Request, newId: string, now: string, today: int): Checked<Decision>
  {
    match CheckRequest(env, status, preparers, r)
    case Some(refusal) => Refused(refusal)
    case None =>
      var t := r.decisionType.value;
      var id := SubjectIdFor(t, r.subjectId);
      var name := ArtifactFor(SubjectFor(t));
      var artifact := Decidable(ctx, name);
      if artifact.None? then Refused(Conflict)
      else if r.values.None? || !Fits(t, r.values.value) then Refused(BadInput)
      else
        var rationale := Strip(r.rationale);
        match StoredValues(env.h, ctx, ds, t, id, r.values.value, rationale, today)
        case Refused(refusal) => Refused(refusal)
        case Accepted(values) =>
          if RationaleAlwaysRequired(t) && rationale == "" then Refused(BadInput)
          else
            match SupersedeFor(env.h, ctx, ds, SlotKey(SlotOf(t), SubjectFor(t), id), r.supersedes)
            case Refused(refusal) => Refused(refusal)
            case Accepted(supersedes) =>
              Accepted(Decision(newId, PhaseFor(t), name, ArtifactDigest(env.h, artifact.value), SubjectFor(t), id, t,
                                values, rationale, Strip(r.decidedBy), r.source.value, now, supersedes))
  }

  // ---- The effective view ------------------------------------------------------

  datatype FindingView = FindingView(
    controlId: string, keyControl: Option<bool>, draft: Conclusions, effective: Conclusions,
    review: Option<Decision>, scope: Option<Decision>, reviewRequired: bool)

  datatype DeficiencyView = DeficiencyView(
    deficiencyId: string, draft: Classified, effective: Classified, classify: Option<Decision>,
    writeup: Option<Decision>, response: Option<Decision>, remediation: Option<Decision>)

  function ViewOfFinding(h: Hasher, ctx: Artifacts, ds: seq<Decision>, f: Finding): FindingView {
    var review := ActiveFor(h, ctx, ds, ReviewKey(f.controlId));
    var flag := KeyControl(ctx, f.controlId);
    FindingView(f.controlId, flag, DraftConclusions(f), EffectiveConclusions(f, review), review,
                ActiveFor(h, ctx, ds, ScopeKey(f.controlId)), FindingNeedsReview(f.result, flag))
  }

  function ViewOfEvaluation(h: Hasher, ctx: Artifacts, ds: seq<Decision>, e: Evaluation): DeficiencyView {
    var classify := ActiveFor(h, ctx, ds, DeficiencyKey(Classify, e.deficiencyId));
    DeficiencyView(e.deficiencyId, DraftClassification(e), EffectiveClassification(e, classify), classify,
                   ActiveFor(h, ctx, ds, DeficiencyKey(Writeup, e.deficiencyId)),
                   ActiveFor(h, ctx, ds, DeficiencyKey(ManagementResponse, e.deficiencyId)),
                   ActiveFor(h, ctx, ds, DeficiencyKey(RemediationVerification, e.deficiencyId)))
  }

  /** Findings with a control id seen before share its subject and get no view of their own. */
  function FindingViews(h: Hasher, ctx: Artifacts, ds: seq<Decision>, fs: seq<Finding>): seq<FindingView> {
    if fs == [] then []
    else
      var rest := FindingViews(h, ctx, ds, fs[..|fs| - 1]);
      var f := fs[|fs| - 1];
      if exists i :: 0 <= i < |fs| - 1 && fs[i].controlId == f.controlId then rest
      else rest + [ViewOfFinding(h, ctx, ds, f)]
  }

  function DeficiencyViews(h: Hasher, ctx: Artifacts, ds: seq<Decision>, es: seq<Evaluation>): seq<DeficiencyView> {
    if es == [] then []
    else
      var rest := DeficiencyViews(h, ctx, ds, es[..|es| - 1]);
      var e := es[|es| - 1];
      if exists i :: 0 <= i < |es| - 1 && es[i].deficiencyId == e.deficiencyId then rest
      else rest + [ViewOfEvaluation(h, ctx, ds, e)]
  }

  /** The finding as the reporting crew sees it (one pass of `effective_working_papers`). */
  function Overlaid(h: Hasher, ctx: Artifacts, ds: seq<Decision>, fs: seq<Finding>, f: Finding): Finding {
    match FindFinding(fs, f.controlId)
    case None => f
    case Some(subject) =>
      var v := ViewOfFinding(h, ctx, ds, subject);
      if v.draft == v.effective then f
      else f.(tod := v.effective.tod, toe := v.effective.toe, result := v.effective.result,
              preliminary := v.effective.preliminary)
  }

  /** `effective_working_papers`: the drafts overlaid with the active challenges, not validated again. */
  function EffectivePapers(h: Hasher, ctx: Artifacts, ds: seq<Decision>): (r: Option<Papers>)
    ensures r.Some? <==> ctx.papers.Some?
    ensures r.Some? ==> |r.value.findings| == |ctx.papers.value.findings|
  {
    match ctx.papers
    case None => None
    case Some(p) =>
      if ds == [] then Some(p)
      else
        Some(p.(findings := seq(|p.findings|, i requires 0 <= i < |p.findings| =>
                                Overlaid(h, ctx, ds, p.findings, p.findings[i]))))
  }

  function MissingReviews(vs: seq<FindingView>): seq<MissingDecision> {
    if vs == [] then []
    else
      var rest := MissingReviews(vs[..|vs| - 1]);
      var v := vs[|vs| - 1];
      if v.reviewRequired && v.review.None? then
        rest + [MissingDecision(2, FindingSubject, v.controlId, [SignOff, Challenge])]
      else rest
  }

  function MissingClassifications(vs: seq<DeficiencyView>): seq<MissingDecision> {
    if vs == [] then []
    else
      var rest := MissingClassifications(vs[..|vs| - 1]);
      var v := vs[|vs| - 1];
      if v.classify.None? then rest + [MissingDecision(3, DeficiencySubject, v.deficiencyId, [Classify])] else rest
  }

  function MissingScopes(vs: seq<FindingView>): seq<MissingDecision> {
    if vs == [] then []
    else
      var rest := MissingScopes(vs[..|vs| - 1]);
      var v := vs[|vs| - 1];
      if FindingNeedsScopeLimitation(v.effective.result, v.keyControl) && v.scope.None? then
        rest + [MissingDecision(3, FindingSubject, v.controlId, [ScopeLimitation])]
      else rest
  }

  function MissingConclusion(conclusion: Option<Decision>): seq<MissingDecision> {
    if conclusion.None? then [MissingDecision(3, EngagementSubject, ENGAGEMENT, [EngagementConclusion])] else []
  }

  /** `missing_for_gate`: the decisions a gate still needs. */
  function MissingFor(h: Hasher, ctx: Artifacts, ds: seq<Decision>, gate: nat): seq<MissingDecision> {
    var findings := FindingViews(h, ctx, ds, ContextFindings(ctx));
    if gate == 2 && ctx.papers.Some? then MissingReviews(findings)
    else if gate == 3 && ctx.report.Some? then
      MissingClassifications(DeficiencyViews(h, ctx, ds, ContextEvaluations(ctx)))
      + MissingScopes(findings)
      + MissingConclusion(ActiveFor(h, ctx, ds, ENGAGEMENT_KEY))
    else []
  }
}

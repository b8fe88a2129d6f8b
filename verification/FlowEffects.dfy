/** What an accepted decision stores, and what it does to the conclusions of record. */
module FlowEffects {
  import opened Options
  import opened Text
  import opened Schema
  import opened Machine
  import opened Records
  import opened Trail
  import opened Policy
  import opened Decisions
  import opened DecisionProofs
  import opened Flow
  import opened FlowInvariant
  import opened FlowResults

  // ---- What is stored ----------------------------------------------------------

  /** When each type of decision may be recorded. */
  predicate InItsTime(t: DecisionType, s: AuditStatus) {
    && (t == SignOff || t == Challenge ==> s == WaitingGate(2))
    && (t in {Classify, ScopeLimitation, EngagementConclusion, Writeup} ==> s == WaitingGate(3))
    && (t == ManagementResponse ==> s == WaitingGate(3) || s == Completed)
    && (t == RemediationVerification ==> s == Completed)
  }

  /** The status table is this rule. */
  lemma RecordableIff(t: DecisionType, s: AuditStatus)
    ensures Recordable(t, s) <==> InItsTime(t, s)
  {
  }

  /** The decision says what was asked, by whom and why, trimmed and dated. */
  predicate AsAsked(r: Request, newId: string, time: Clock, d: Decision) {
    && d.id == newId && d.decidedAt == time.decidedAt
    && r.decisionType == Some(d.decisionType) && r.source == Some(d.source)
    && d.decidedBy == Strip(r.decidedBy) && d.rationale == Strip(r.rationale)
    && d.subjectId == (if d.decisionType == EngagementConclusion then "engagement" else Strip(r.subjectId))
  }

  /** The decision belongs to the open phase and judges its current draft. */
  predicate InPlace(env: Env, f: Flow, d: Decision) {
    && InItsTime(d.decisionType, f.status)
    && d.phase == (if d.decisionType in {SignOff, Challenge} then 2 else 3)
    && (if d.decisionType in {SignOff, Challenge, ScopeLimitation} then
          && d.subjectType == FindingSubject && d.artifact == WorkingPapers && f.drafts.papers.Some?
          && d.draftDigest == ArtifactDigest(env.h, PapersA(f.drafts.papers.value))
        else
          && d.subjectType == (if d.decisionType == EngagementConclusion then EngagementSubject else DeficiencySubject)
          && d.artifact == FinalReport && f.drafts.report.Some?
          && d.draftDigest == ArtifactDigest(env.h, ReportA(f.drafts.report.value)))
  }

  /** The judgements that always say why, do. */
  predicate Reasoned(t: DecisionType, rationale: string) {
    t in {Challenge, ScopeLimitation, EngagementConclusion, RemediationVerification} ==> !Blank(rationale)
  }

  lemma CheckedIsGiven(env: Env, status: AuditStatus, preparers: seq<string>, r: Request)
    requires CheckRequest(env, status, preparers, r).None?
    ensures r.decisionType.Some? && r.source.Some?
  {
  }

  lemma AcceptedPassed(env: Env, f: Flow, r: Request, newId: string, time: Clock)
    requires Built(env, f, r, newId, time).Accepted?
    ensures CheckRequest(env, f.status, Preparers(f), r).None?
  {
  }

  lemma BuiltFields(env: Env, f: Flow, r: Request, newId: string, time: Clock)
    requires Built(env, f, r, newId, time).Accepted?
    requires CheckRequest(env, f.status, Preparers(f), r).None? && r.decisionType.Some? && r.source.Some?
    ensures var d := Built(env, f, r, newId, time).value;
            && d.id == newId && d.decidedAt == time.decidedAt && d.decisionType == r.decisionType.value
            && d.source == r.source.value && d.decidedBy == Strip(r.decidedBy) && d.rationale == Strip(r.rationale)
            && d.subjectId == SubjectIdFor(d.decisionType, r.subjectId)
  {
  }

  lemma BuiltAsAsked(env: Env, f: Flow, r: Request, newId: string, time: Clock)
    ensures var b := Built(env, f, r, newId, time);
            b.Accepted? ==> AsAsked(r, newId, time, b.value)
  {
    if Built(env, f, r, newId, time).Accepted? {
      AcceptedPassed(env, f, r, newId, time);
      CheckedIsGiven(env, f.status, Preparers(f), r);
      BuiltFields(env, f, r, newId, time);
    }
  }

  lemma BuiltReasoned(env: Env, f: Flow, r: Request, newId: string, time: Clock)
    ensures var b := Built(env, f, r, newId, time);
            b.Accepted? ==> Reasoned(b.value.decisionType, r.rationale)
  {
  }

  lemma ShapeInPlace(env: Env, f: Flow, d: Decision)
    requires InItsTime(d.decisionType, f.status) && OnCurrentDraft(env.h, f.drafts, d)
    requires d.phase == PhaseFor(d.decisionType) && d.subjectType == SubjectFor(d.decisionType)
    requires d.artifact == ArtifactFor(d.subjectType)
    ensures InPlace(env, f, d)
  {
  }

  lemma BuiltInPlace(env: Env, f: Flow, r: Request, newId: string, time: Clock)
    ensures var b := Built(env, f, r, newId, time);
            b.Accepted? ==> InPlace(env, f, b.value)
  {
    AcceptedShape(env, f.drafts, f.status, Preparers(f), f.decisions, r, newId, time.decidedAt, time.today);
    var b := Built(env, f, r, newId, time);
    if b.Accepted? {
      RecordableIff(b.value.decisionType, f.status);
      ShapeInPlace(env, f, b.value);
    }
  }

  /** An accepted decision says what was asked, by whom, and about which draft. */
  lemma AcceptedAsAsked(env: Env, f: Flow, r: Request, newId: string, time: Clock)
    ensures var b := Built(env, f, r, newId, time);
            b.Accepted? ==>
              && AsAsked(r, newId, time, b.value) && InPlace(env, f, b.value)
              && Reasoned(b.value.decisionType, b.value.rationale)
  {
    BuiltAsAsked(env, f, r, newId, time);
    BuiltReasoned(env, f, r, newId, time);
    StripNotBlank(r.rationale);
    BuiltInPlace(env, f, r, newId, time);
  }

  // ---- Values ------------------------------------------------------------------

  /** A changed conclusion only ever goes from effective to not tested. */
  predicate Withdraws(f: Finding, tod: Option<Design>, toe: Option<Operating>) {
    && (tod.Some? ==> tod.value == f.tod || (f.tod == DesignEffective && tod.value == DesignNotTested))
    && (toe.Some? ==> toe.value == f.toe || (f.toe == OperatingEffective && toe.value == OperatingNotTested))
  }

  /** A challenge is allowed exactly when it withdraws, and then it carries what was asked. */
  lemma ChallengeAllowedIff(f: Finding, tod: Option<Design>, toe: Option<Operating>)
    ensures ChallengeFor(f, tod, toe).Accepted? <==> Withdraws(f, tod, toe)
    ensures ChallengeFor(f, tod, toe).Accepted? ==>
              var v := ChallengeFor(f, tod, toe).value;
              && v.ChallengeValues?
              && (match v.tod case Some(x) => x case None => f.tod) == (match tod case Some(x) => x case None => f.tod)
              && (match v.toe case Some(x) => x case None => f.toe) == (match toe case Some(x) => x case None => f.toe)
  {
  }

  /** The values a decision of each type keeps of what was asked. */
  predicate Keeps(t: DecisionType, p: Parsed, rationale: string, today: int, v: Values) {
    match p
    case NothingParsed => v == NoValues && t in {SignOff, ScopeLimitation}
    case ParsedChallenge(_, _) => v.ChallengeValues? && t == Challenge
    case ParsedClassify(c, likelihood, magnitude) =>
      && t == Classify && v.ClassifyValues? && v.classification == c
      && (likelihood.Some? ==> v.likelihood == likelihood.value) && (magnitude.Some? ==> v.magnitude == magnitude.value)
      && (c == MaterialWeakness ==> v.likelihood in {RatingMedium, RatingHigh} && v.magnitude == RatingHigh)
    case ParsedWriteup(criteria, condition, cause, effect, recommendation) =>
      t == Writeup && v == WriteupValues(criteria, condition, cause, effect, recommendation)
    case ParsedManagement(text, agreement, owner, target, receivedFrom, receivedOn) =>
      && t == ManagementResponse && v.ManagementValues? && v.text == text && v.agreement == agreement
      && v.receivedFrom == receivedFrom && v.owner == Strip(owner)
      && Dated(receivedOn, v.receivedOn) && (v.receivedOn.Some? ==> v.receivedOn.value <= today)
      && Dated(target, v.target)
      // An agreed action has an owner and a date; a disagreement has a rebuttal.
      && (agreement in {Agree, Partial} ==> !Blank(v.owner) && v.target.Some?)
      && (agreement == Disagree ==> rationale != "")
    case ParsedEngagement(rating) => t == EngagementConclusion && v == EngagementValues(rating)
    case ParsedRemediation(status, verifiedOn, evidence) =>
      && t == RemediationVerification && v.RemediationValues? && v.status == status && v.evidence == Strip(evidence)
      && Dated(verifiedOn, v.verifiedOn) && (v.verifiedOn.Some? ==> v.verifiedOn.value <= today)
  }

  /** The day as given; a text that is no date is never stored. */
  predicate Dated(given: DateText, stored: Option<int>) {
    match given
    case NotADate => false
    case BlankDate => stored.None?
    case Day(n) => stored == Some(n)
  }

  lemma ValuesKept(h: Hasher, ctx: Artifacts, ds: seq<Decision>, t: DecisionType, id: string, p: Parsed,
                   rationale: string, today: int)
    requires Fits(t, p)
    ensures var v := StoredValues(h, ctx, ds, t, id, p, rationale, today);
            v.Accepted? ==> Keeps(t, p, rationale, today, v.value)
  {
    if p.ParsedManagement? {
      StripNotBlank(p.owner);
    }
  }

  /** The values stored are those the type's rule makes of the request. */
  lemma BuiltValues(env: Env, f: Flow, r: Request, newId: string, time: Clock)
    ensures var b := Built(env, f, r, newId, time);
            b.Accepted? ==>
              && r.values.Some? && Fits(b.value.decisionType, r.values.value)
              && StoredValues(env.h, f.drafts, f.decisions, b.value.decisionType, b.value.subjectId, r.values.value,
                              b.value.rationale, time.today) == Accepted(b.value.values)
  {
  }

  /** An accepted decision keeps the values that were asked for. */
  lemma AcceptedKeepsValues(env: Env, f: Flow, r: Request, newId: string, time: Clock)
    ensures var b := Built(env, f, r, newId, time);
            b.Accepted? ==>
              && r.values.Some?
              && Keeps(b.value.decisionType, r.values.value, b.value.rationale, time.today, b.value.values)
  {
    var b := Built(env, f, r, newId, time);
    BuiltValues(env, f, r, newId, time);
    if b.Accepted? {
      var d := b.value;
      ValuesKept(env.h, f.drafts, f.decisions, d.decisionType, d.subjectId, r.values.value, d.rationale, time.today);
    }
  }

  // ---- When a decision is accepted ---------------------------------------------

  predicate ClassifyAllowed(r: Report, e: Evaluation, p: Parsed, rationale: string)
    requires p.ParsedClassify?
  {
    var likelihood := match p.likelihood case Some(x) => x case None => e.likelihood;
    var magnitude := match p.magnitude case Some(x) => x case None => e.magnitude;
    && ClassificationFits(r.scale, p.classification, likelihood, magnitude)
    // A change of the draft's classification needs a reason.
    && (rationale != "" || (p.classification == e.classification && likelihood == e.likelihood
                            && magnitude == e.magnitude))
  }

  /** A date that was given is a date, and not in the future. */
  predicate NotLater(d: DateText, today: int) {
    d.BlankDate? || (d.Day? && d.day <= today)
  }

  predicate ResponseAllowed(p: Parsed, rationale: string, today: int)
    requires p.ParsedManagement?
  {
    && NotLater(p.receivedOn, today) && !p.target.NotADate?
    && (p.agreement in {Agree, Partial} ==> !Blank(p.owner) && p.target.Day?)
    && (p.agreement == Disagree ==> rationale != "")
  }

  /** The subject exists in the drafts, and the values are allowed for it. */
  predicate ValuesAllowed(h: Hasher, ctx: Artifacts, ds: seq<Decision>, t: DecisionType, id: string, p: Parsed,
                          rationale: string, today: int)
    requires Fits(t, p)
  {
    var f, e := FindFinding(ContextFindings(ctx), id), FindEvaluation(ContextEvaluations(ctx), id);
    match t
    case SignOff => f.Some?
    case Challenge => f.Some? && Withdraws(f.value, p.tod, p.toe)
    case ScopeLimitation =>
      f.Some? && EffectiveConclusions(f.value, ActiveFor(h, ctx, ds, ReviewKey(id))).result == NotTested
    case Classify => e.Some? && ClassifyAllowed(ctx.report.value, e.value, p, rationale)
    case Writeup => e.Some?
    case ManagementResponse => e.Some? && ResponseAllowed(p, rationale, today)
    case RemediationVerification => e.Some? && NotLater(p.verifiedOn, today)
    case EngagementConclusion => true
  }

  lemma ClassifyAllowedIff(r: Report, e: Evaluation, p: Parsed, rationale: string)
    requires p.ParsedClassify?
    ensures var v := ClassifyFor(r, e, p);
            ClassifyAllowed(r, e, p, rationale)
            <==> v.Accepted? && (rationale != "" || Classified(v.value.classification, v.value.likelihood,
                                                               v.value.magnitude) == DraftClassification(e))
  {
  }

  lemma ValuesAllowedIff(h: Hasher, ctx: Artifacts, ds: seq<Decision>, t: DecisionType, id: string, p: Parsed,
                         rationale: string, today: int)
    requires Fits(t, p)
    ensures StoredValues(h, ctx, ds, t, id, p, rationale, today).Accepted?
            <==> ValuesAllowed(h, ctx, ds, t, id, p, rationale, today)
  {
    var e := FindEvaluation(ContextEvaluations(ctx), id);
    if t == Classify && e.Some? {
      ClassifyAllowedIff(ctx.report.value, e.value, p, rationale);
    }
  }

  /** The request corrects the slot's active decision, or asks for no correction of an open slot. */
  predicate CorrectsActive(h: Hasher, ctx: Artifacts, ds: seq<Decision>, key: SlotKey, asked: string) {
    var active := ActiveFor(h, ctx, ds, key);
    if Blank(asked) then active.None? else active.Some? && active.value.id == Strip(asked)
  }

  lemma CorrectionIff(h: Hasher, ctx: Artifacts, ds: seq<Decision>, key: SlotKey, asked: string)
    requires DistinctIds(ds)
    ensures SupersedeFor(h, ctx, ds, key, asked).Accepted? <==> CorrectsActive(h, ctx, ds, key, asked)
    ensures SupersedeFor(h, ctx, ds, key, asked).Accepted? ==>
              SupersedeFor(h, ctx, ds, key, asked).value == if Blank(asked) then None else Some(Strip(asked))
  {
    var active := ActiveFor(h, ctx, ds, key);
    if active.Some? && active.value.id == Strip(asked) {
      var first := FirstById(ds, Strip(asked));
      var i :| 0 <= i < |ds| && ds[i] == active.value;
      var j :| 0 <= j < |ds| && ds[j] == first.value;
      assert ds[i].id == ds[j].id;
    }
  }

  /** The person is named, may judge, and the type is open in this status. */
  predicate MayDecide(env: Env, f: Flow, r: Request) {
    && r.decisionType.Some? && r.source.Some? && !Blank(r.decidedBy) && InItsTime(r.decisionType.value, f.status)
    && (r.decisionType.value !in {Writeup, ManagementResponse} ==>
          forall i :: 0 <= i < |Preparers(f)| ==> !SamePerson(env.fold, Strip(r.decidedBy), Preparers(f)[i]))
  }

  /** The request names a subject of the kind its type is about. */
  predicate SubjectNamed(r: Request)
    requires r.decisionType.Some?
  {
    var t := r.decisionType.value;
    && (r.subjectType.Some? ==>
          Strip(r.subjectType.value)
          == if t in {SignOff, Challenge, ScopeLimitation} then "finding"
             else if t == EngagementConclusion then "engagement" else "deficiency")
    && (if t == EngagementConclusion then Strip(r.subjectId) in {"", "engagement"} else !Blank(r.subjectId))
  }

  /** The identity checks, by the predicates that make them. */
  predicate IdentityOk(env: Env, status: AuditStatus, preparers: seq<string>, r: Request) {
    && r.decisionType.Some? && Strip(r.decidedBy) != "" && r.source.Some? && Recordable(r.decisionType.value, status)
    && forall i :: 0 <= i < |preparers| ==>
         !DecisionSodViolation(env.fold, r.decisionType.value, Strip(r.decidedBy), preparers[i])
  }

  lemma CheckedWhen(env: Env, status: AuditStatus, preparers: seq<string>, r: Request)
    ensures CheckRequest(env, status, preparers, r).None? <==> IdentityOk(env, status, preparers, r) && SubjectNamed(r)
  {
  }

  lemma IdentityIff(env: Env, f: Flow, r: Request)
    ensures IdentityOk(env, f.status, Preparers(f), r) <==> MayDecide(env, f, r)
  {
    if r.decisionType.Some? {
      RecordableIff(r.decisionType.value, f.status);
    }
  }

  lemma RequestIff(env: Env, f: Flow, r: Request)
    ensures CheckRequest(env, f.status, Preparers(f), r).None? <==> MayDecide(env, f, r) && SubjectNamed(r)
  {
    CheckedWhen(env, f.status, Preparers(f), r);
    IdentityIff(env, f, r);
  }

  /** The draft that decisions of this type are about is there. */
  predicate DraftThere(ctx: Artifacts, t: DecisionType) {
    if t in {SignOff, Challenge, ScopeLimitation} then ctx.papers.Some? else ctx.report.Some?
  }

  predicate ValuesFit(env: Env, f: Flow, r: Request, t: DecisionType, id: string, today: int) {
    && r.values.Some? && Fits(t, r.values.value)
    && ValuesAllowed(env.h, f.drafts, f.decisions, t, id, r.values.value, Strip(r.rationale), today)
  }

  function SubjectIdOf(t: DecisionType, r: Request): string {
    if t == EngagementConclusion then "engagement" else Strip(r.subjectId)
  }

  /** What `build_decision` asks of a request that passed the identity checks. */
  predicate CanBeRecorded(env: Env, f: Flow, r: Request, t: DecisionType, id: string, today: int) {
    && DraftThere(f.drafts, t) && ValuesFit(env, f, r, t, id, today) && Reasoned(t, r.rationale)
    && CorrectsActive(env.h, f.drafts, f.decisions, SlotKey(SlotOf(t), SubjectFor(t), id), r.supersedes)
  }

  /** The checks after the identity checks, by the functions that make them. */
  predicate PassesChecks(env: Env, f: Flow, r: Request, t: DecisionType, id: string, today: int) {
    && Decidable(f.drafts, ArtifactFor(SubjectFor(t))).Some?
    && r.values.Some? && Fits(t, r.values.value)
    && StoredValues(env.h, f.drafts, f.decisions, t, id, r.values.value, Strip(r.rationale), today).Accepted?
    && (RationaleAlwaysRequired(t) ==> Strip(r.rationale) != "")
    && SupersedeFor(env.h, f.drafts, f.decisions, SlotKey(SlotOf(t), SubjectFor(t), id), r.supersedes).Accepted?
  }

  lemma BuiltByChecks(env: Env, f: Flow, r: Request, newId: string, time: Clock)
    requires CheckRequest(env, f.status, Preparers(f), r).None? && r.decisionType.Some?
    ensures Built(env, f, r, newId, time).Accepted?
            <==> var t := r.decisionType.value;
                 PassesChecks(env, f, r, t, SubjectIdFor(t, r.subjectId), time.today)
  {
  }

  lemma DraftThereIff(ctx: Artifacts, t: DecisionType)
    ensures Decidable(ctx, ArtifactFor(SubjectFor(t))).Some? <==> DraftThere(ctx, t)
  {
  }

  lemma ReasonedIff(t: DecisionType, rationale: string)
    ensures (RationaleAlwaysRequired(t) ==> Strip(rationale) != "") <==> Reasoned(t, rationale)
  {
  }

  lemma ValuesFitIff(env: Env, f: Flow, r: Request, t: DecisionType, id: string, today: int)
    ensures ValuesFit(env, f, r, t, id, today)
            <==> && r.values.Some? && Fits(t, r.values.value)
                 && StoredValues(env.h, f.drafts, f.decisions, t, id, r.values.value, Strip(r.rationale),
                                 today).Accepted?
  {
    if r.values.Some? && Fits(t, r.values.value) {
      ValuesAllowedIff(env.h, f.drafts, f.decisions, t, id, r.values.value, Strip(r.rationale), today);
    }
  }

  lemma ChecksIff(env: Env, f: Flow, r: Request, t: DecisionType, id: string, today: int)
    requires DistinctIds(f.decisions)
    ensures PassesChecks(env, f, r, t, id, today) <==> CanBeRecorded(env, f, r, t, id, today)
  {
    CorrectionIff(env.h, f.drafts, f.decisions, SlotKey(SlotOf(t), SubjectFor(t), id), r.supersedes);
    ValuesFitIff(env, f, r, t, id, today);
    DraftThereIff(f.drafts, t);
    ReasonedIff(t, r.rationale);
  }

  lemma SubjectIdIs(r: Request)
    requires r.decisionType.Some? && SubjectNamed(r)
    ensures SubjectIdFor(r.decisionType.value, r.subjectId) == SubjectIdOf(r.decisionType.value, r)
  {
  }

  /** A request is accepted exactly when the person may decide, and what is asked is allowed. */
  lemma DecisionAcceptedIff(env: Env, f: Flow, r: Request, newId: string, time: Clock)
    requires DistinctIds(f.decisions)
    ensures RecordDecision(env, f, r, newId, time).1.None?
            <==> && MayDecide(env, f, r) && SubjectNamed(r)
                 && CanBeRecorded(env, f, r, r.decisionType.value, SubjectIdOf(r.decisionType.value, r), time.today)
  {
    RequestIff(env, f, r);
    if CheckRequest(env, f.status, Preparers(f), r).None? {
      var t := r.decisionType.value;
      BuiltByChecks(env, f, r, newId, time);
      SubjectIdIs(r);
      ChecksIff(env, f, r, t, SubjectIdOf(t, r), time.today);
    }
  }

  // ---- Challenges --------------------------------------------------------------

  /** The draft finding with the reviewer's conclusions in place of its own. */
  predicate Challenged(draft: Finding, tod: Option<Design>, toe: Option<Operating>, shown: Finding) {
    && shown.controlId == draft.controlId
    && shown.tod == (match tod case Some(x) => x case None => draft.tod)
    && shown.toe == (match toe case Some(x) => x case None => draft.toe)
    && shown.preliminary == draft.preliminary
    && (shown.result == ExceptionFound <==> draft.result == ExceptionFound)
    && (draft.result != ExceptionFound ==>
          (shown.result == NotTested <==> shown.tod == DesignNotTested && shown.toe == OperatingNotTested))
  }

  lemma ChallengeStored(env: Env, f: Flow, r: Request, newId: string, time: Clock)
    ensures var b := Built(env, f, r, newId, time);
            b.Accepted? && b.value.decisionType == Challenge ==>
              && r.values.Some? && r.values.value.ParsedChallenge?
              && var x := FindFinding(ContextFindings(f.drafts), b.value.subjectId);
                 x.Some? && ChallengeFor(x.value, r.values.value.tod, r.values.value.toe) == Accepted(b.value.values)
  {
    BuiltValues(env, f, r, newId, time);
  }

  lemma ChallengeShows(draft: Finding, tod: Option<Design>, toe: Option<Operating>, v: Values, d: Decision)
    requires Consistent(draft) && ChallengeFor(draft, tod, toe) == Accepted(v)
    requires d.decisionType == Challenge && d.values == v
    ensures var c := EffectiveConclusions(draft, Some(d));
            forall shown: Finding :: shown.controlId == draft.controlId && DraftConclusions(shown) == c ==>
              Challenged(draft, tod, toe, shown)
  {
  }

  lemma OverlaidSame(h: Hasher, ctx: Artifacts, ds: seq<Decision>, more: seq<Decision>, j: nat)
    requires ctx.papers.Some? && PapersValid(ctx.papers.value) && FindingIdsGood(ctx.papers.value.findings)
    requires j < |ctx.papers.value.findings|
    requires var key := ReviewKey(ctx.papers.value.findings[j].controlId);
             ActiveFor(h, ctx, more, key) == ActiveFor(h, ctx, ds, key)
    ensures DraftConclusions(EffectivePapers(h, ctx, more).value.findings[j])
            == DraftConclusions(EffectivePapers(h, ctx, ds).value.findings[j])
  {
    OverlayIsTheView(h, ctx, ds, j);
    OverlayIsTheView(h, ctx, more, j);
  }

  lemma OverlayKeepsRest(h: Hasher, ctx: Artifacts, ds: seq<Decision>, j: nat)
    requires ctx.papers.Some? && j < |ctx.papers.value.findings|
    ensures var shown, draft := EffectivePapers(h, ctx, ds).value.findings[j], ctx.papers.value.findings[j];
            shown == draft.(tod := shown.tod, toe := shown.toe, result := shown.result,
                            preliminary := shown.preliminary)
  {
  }

  lemma DecidedState(env: Env, f: Flow, r: Request, newId: string, time: Clock, key: SlotKey)
    requires Inv(env, f) && newId != "" && !HasId(f.decisions, newId) && Built(env, f, r, newId, time).Accepted?
    ensures var g, d := RecordDecision(env, f, r, newId, time).0, Built(env, f, r, newId, time).value;
            && g.drafts == f.drafts && g.decisions == f.decisions + [d]
            && ActiveFor(env.h, g.drafts, g.decisions, key)
               == if key == KeyOf(d) then Some(d) else ActiveFor(env.h, f.drafts, f.decisions, key)
  {
    AcceptedShape(env, f.drafts, f.status, Preparers(f), f.decisions, r, newId, time.decidedAt, time.today);
    ActiveAfterAccept(env.h, f.drafts, f.decisions, Built(env, f, r, newId, time).value, key);
  }

  /** A finding other than the one decided about is shown as before. */
  lemma OthersShownAsBefore(env: Env, f: Flow, r: Request, newId: string, time: Clock, j: nat)
    requires Inv(env, f) && newId != "" && !HasId(f.decisions, newId) && Built(env, f, r, newId, time).Accepted?
    requires f.drafts.papers.Some? && j < |f.drafts.papers.value.findings|
    requires KeyOf(Built(env, f, r, newId, time).value) != ReviewKey(f.drafts.papers.value.findings[j].controlId)
    ensures var g := RecordDecision(env, f, r, newId, time).0;
            EffectivePapers(env.h, g.drafts, g.decisions).value.findings[j]
            == EffectivePapers(env.h, f.drafts, f.decisions).value.findings[j]
  {
    var g := RecordDecision(env, f, r, newId, time).0;
    DecidedState(env, f, r, newId, time, ReviewKey(f.drafts.papers.value.findings[j].controlId));
    OverlaidSame(env.h, f.drafts, f.decisions, g.decisions, j);
    OverlayKeepsRest(env.h, f.drafts, f.decisions, j);
    OverlayKeepsRest(env.h, f.drafts, g.decisions, j);
  }

  /** The challenged finding shows the conclusions that were asked for. */
  lemma ChallengedIsShown(env: Env, f: Flow, r: Request, newId: string, time: Clock, i: nat)
    requires Inv(env, f) && newId != "" && !HasId(f.decisions, newId) && Built(env, f, r, newId, time).Accepted?
    requires r.decisionType == Some(Challenge) && f.drafts.papers.Some? && i < |f.drafts.papers.value.findings|
    requires f.drafts.papers.value.findings[i].controlId == Strip(r.subjectId)
    ensures r.values.Some? && r.values.value.ParsedChallenge?
    ensures var g := RecordDecision(env, f, r, newId, time).0;
            Challenged(f.drafts.papers.value.findings[i], r.values.value.tod, r.values.value.toe,
                       EffectivePapers(env.h, g.drafts, g.decisions).value.findings[i])
  {
    var g, d := RecordDecision(env, f, r, newId, time).0, Built(env, f, r, newId, time).value;
    var fs := f.drafts.papers.value.findings;
    AcceptedAsAsked(env, f, r, newId, time);
    ChallengeStored(env, f, r, newId, time);
    DecidedState(env, f, r, newId, time, ReviewKey(fs[i].controlId));
    FoundItself(fs, i);
    assert Consistent(fs[i]);
    ChallengeShows(fs[i], r.values.value.tod, r.values.value.toe, d.values, d);
    OverlayIsTheView(env.h, f.drafts, g.decisions, i);
    OverlayKeepsRest(env.h, f.drafts, g.decisions, i);
  }

  /** The papers handed to reporting after a challenge: the asked conclusions, and nothing else changed. */
  ghost predicate ChallengeInForce(env: Env, f: Flow, g: Flow, r: Request, i: nat)
    requires f.drafts.papers.Some? && i < |f.drafts.papers.value.findings|
  {
    && g.drafts == f.drafts && r.values.Some? && r.values.value.ParsedChallenge?
    && var before := EffectivePapers(env.h, f.drafts, f.decisions).value.findings;
       var after := EffectivePapers(env.h, g.drafts, g.decisions).value.findings;
       && |after| == |before| == |f.drafts.papers.value.findings|
       && Challenged(f.drafts.papers.value.findings[i], r.values.value.tod, r.values.value.toe, after[i])
       && forall j :: 0 <= j < |after| && j != i ==> after[j] == before[j]
  }

  lemma ChallengeWorks(env: Env, f: Flow, r: Request, newId: string, time: Clock, i: nat)
    requires Inv(env, f) && newId != "" && !HasId(f.decisions, newId) && Built(env, f, r, newId, time).Accepted?
    requires r.decisionType == Some(Challenge) && f.drafts.papers.Some? && i < |f.drafts.papers.value.findings|
    requires f.drafts.papers.value.findings[i].controlId == Strip(r.subjectId)
    ensures ChallengeInForce(env, f, RecordDecision(env, f, r, newId, time).0, r, i)
  {
    var fs := f.drafts.papers.value.findings;
    var g, d := RecordDecision(env, f, r, newId, time).0, Built(env, f, r, newId, time).value;
    AcceptedAsAsked(env, f, r, newId, time);
    DecidedState(env, f, r, newId, time, KeyOf(d));
    ChallengedIsShown(env, f, r, newId, time, i);
    forall j | 0 <= j < |fs| && j != i
      ensures EffectivePapers(env.h, g.drafts, g.decisions).value.findings[j]
              == EffectivePapers(env.h, f.drafts, f.decisions).value.findings[j]
    {
      assert fs[j].controlId != fs[i].controlId;
      OthersShownAsBefore(env, f, r, newId, time, j);
    }
  }

  /**
   * After an accepted challenge the papers handed to reporting show the asked
   * conclusions on that finding, the draft's where nothing was asked, and the
   * result that follows; every other finding is shown as before.
   */
  lemma ChallengeTakesEffect(env: Env, f: Flow, r: Request, newId: string, time: Clock, i: nat)
    requires GoodDigest(env.h) && Reachable(env, f) && newId != "" && !HasId(f.decisions, newId)
    requires r.decisionType == Some(Challenge) && RecordDecision(env, f, r, newId, time).1.None?
    requires f.drafts.papers.Some? && i < |f.drafts.papers.value.findings|
    requires f.drafts.papers.value.findings[i].controlId == Strip(r.subjectId)
    ensures ChallengeInForce(env, f, RecordDecision(env, f, r, newId, time).0, r, i)
  {
    ReachableIsGood(env, f);
    ChallengeWorks(env, f, r, newId, time, i);
  }

  // ---- Sign-offs and classifications -------------------------------------------

  lemma SignedShows(draft: Finding, d: Decision)
    requires Consistent(draft) && d.decisionType == SignOff
    ensures EffectiveConclusions(draft, Some(d)) == DraftConclusions(draft)
  {
  }

  /** After an accepted sign-off the finding is shown as drafted. */
  lemma SignOffRestoresDraft(env: Env, f: Flow, r: Request, newId: string, time: Clock, i: nat)
    requires Inv(env, f) && newId != "" && !HasId(f.decisions, newId) && Built(env, f, r, newId, time).Accepted?
    requires r.decisionType == Some(SignOff) && f.drafts.papers.Some? && i < |f.drafts.papers.value.findings|
    requires f.drafts.papers.value.findings[i].controlId == Strip(r.subjectId)
    ensures var g := RecordDecision(env, f, r, newId, time).0;
            EffectivePapers(env.h, g.drafts, g.decisions).value.findings[i] == f.drafts.papers.value.findings[i]
  {
    var g, d := RecordDecision(env, f, r, newId, time).0, Built(env, f, r, newId, time).value;
    var fs := f.drafts.papers.value.findings;
    AcceptedAsAsked(env, f, r, newId, time);
    DecidedState(env, f, r, newId, time, ReviewKey(fs[i].controlId));
    FoundItself(fs, i);
    assert Consistent(fs[i]);
    SignedShows(fs[i], d);
    OverlayIsTheView(env.h, f.drafts, g.decisions, i);
    OverlayKeepsRest(env.h, f.drafts, g.decisions, i);
  }

  /** After an accepted classification the deficiency is classified as asked, rated as asked or as drafted. */
  lemma ClassificationTakesEffect(env: Env, f: Flow, r: Request, newId: string, time: Clock, e: Evaluation,
                                  other: Evaluation)
    requires Inv(env, f) && newId != "" && !HasId(f.decisions, newId) && Built(env, f, r, newId, time).Accepted?
    requires r.decisionType == Some(Classify) && f.drafts.report.Some?
    requires FindEvaluation(f.drafts.report.value.evaluations, Strip(r.subjectId)) == Some(e)
    ensures r.values.Some? && r.values.value.ParsedClassify?
    ensures var g, p := RecordDecision(env, f, r, newId, time).0, r.values.value;
            && ViewOfEvaluation(env.h, g.drafts, g.decisions, e).effective
               == Classified(p.classification, match p.likelihood case Some(x) => x case None => e.likelihood,
                             match p.magnitude case Some(x) => x case None => e.magnitude)
            && (other.deficiencyId != e.deficiencyId ==>
                  ViewOfEvaluation(env.h, g.drafts, g.decisions, other).effective
                  == ViewOfEvaluation(env.h, f.drafts, f.decisions, other).effective)
  {
    AcceptedAsAsked(env, f, r, newId, time);
    ClassificationStored(env, f, r, newId, time, e);
    DecidedState(env, f, r, newId, time, DeficiencyKey(Classify, e.deficiencyId));
    DecidedState(env, f, r, newId, time, DeficiencyKey(Classify, other.deficiencyId));
  }

  lemma ClassificationStored(env: Env, f: Flow, r: Request, newId: string, time: Clock, e: Evaluation)
    requires Built(env, f, r, newId, time).Accepted? && r.decisionType == Some(Classify) && f.drafts.report.Some?
    requires FindEvaluation(f.drafts.report.value.evaluations, Strip(r.subjectId)) == Some(e)
    ensures r.values.Some? && r.values.value.ParsedClassify?
    ensures var d, p := Built(env, f, r, newId, time).value, r.values.value;
            && KeyOf(d) == DeficiencyKey(Classify, e.deficiencyId)
            && d.values == ClassifyValues(p.classification,
                                          match p.likelihood case Some(x) => x case None => e.likelihood,
                                          match p.magnitude case Some(x) => x case None => e.magnitude)
  {
    var d := Built(env, f, r, newId, time).value;
    AcceptedAsAsked(env, f, r, newId, time);
    BuiltValues(env, f, r, newId, time);
    ClassifyStores(env.h, f.drafts, f.decisions, e, r.values.value, d.rationale, time.today, d.values);
  }

  lemma ClassifyStores(h: Hasher, ctx: Artifacts, ds: seq<Decision>, e: Evaluation, p: Parsed, rationale: string,
                       today: int, v: Values)
    requires p.ParsedClassify? && ctx.report.Some?
    requires FindEvaluation(ctx.report.value.evaluations, e.deficiencyId) == Some(e)
    requires StoredValues(h, ctx, ds, Classify, e.deficiencyId, p, rationale, today) == Accepted(v)
    ensures v == ClassifyValues(p.classification, match p.likelihood case Some(x) => x case None => e.likelihood,
                                match p.magnitude case Some(x) => x case None => e.magnitude)
  {
  }
}

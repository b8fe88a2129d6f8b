/** The whole OSCAL document: what it holds, and that its references resolve (src/swarm/oscal_ar.py). */
module OscalExport {
  import opened Options
  import opened Text
  import opened Schema
  import opened Records
  import opened Decisions
  import opened Oscal
  import opened OscalPeople
  import opened OscalBuild

  // ---- Everybody in the document -----------------------------------------------

  /** The name in the first `audit_created` entry. */
  function FirstCreator(trail: seq<Entry>): string {
    if trail == [] then ""
    else if trail[0].body.event.AuditCreated? then Line(trail[0].body.human)
    else FirstCreator(trail[1..])
  }

  function PreparerFor(preparedBy: string, trail: seq<Entry>): string {
    if Line(preparedBy) != "" then Line(preparedBy) else FirstCreator(trail)
  }

  function ConclusionOf(view: Option<View>): Option<Decision> {
    if view.None? then None else view.value.conclusion
  }

  /** Who has which role: the preparer, the approvers of the trail, and every reviewer the document names. */
  function CastFor(view: Option<View>, fs: seq<Finding>, es: seq<Evaluation>, trail: seq<Entry>,
                   preparedBy: string): Cast
  {
    Cast(PreparerFor(preparedBy, trail), ApproversIn(trail, false), ApproversIn(trail, true),
         ReviewersOfRisks(view, es) + ReviewersOfFindings(view, fs) + ReviewerName(ConclusionOf(view)))
  }

  /** Who attests the engagement conclusion. */
  function AttestedBy(u: Namer, sid: string, view: Option<View>): Option<RoleOut> {
    match ConclusionOf(view)
    case None => None
    case Some(c) => Some(RoleOut(REVIEWER, [PartyUuid(u, sid, c.decidedBy)]))
  }

  // ---- What the document says --------------------------------------------------

  function PlatformUuid(u: Namer, sid: string): string { Single(u, sid, "assessment-platform") }
  function ComponentUuid(u: Namer, sid: string): string { Element(u, sid, "component", "audit-scope") }

  /** Every person stands where the trail and the decisions put them. */
  ghost predicate PeopleExact(u: Namer, sid: string, view: Option<View>, fs: seq<Finding>, es: seq<Evaluation>,
                              trail: seq<Entry>, preparedBy: string, d: Document)
  {
    && d.roles == RolesFor(u, sid, CastFor(view, fs, es, trail, preparedBy))
    // Each trail entry is logged by whoever acted.
    && |d.log| == |trail|
    && (forall i :: 0 <= i < |trail| ==>
          var human := trail[i].body.human;
          && d.log[i].uuid == Element(u, sid, "log", Decimal(i))
          && d.log[i].loggedBy == if Line(human) == "" then None else Some(PartyUuid(u, sid, human)))
    // The engagement conclusion is attested by whoever recorded it.
    && d.attested == (if view.Some? && view.value.conclusion.Some?
                      then Some(RoleOut(REVIEWER, [PartyUuid(u, sid, view.value.conclusion.value.decidedBy)]))
                      else None)
  }

  /** The parties are those of `names`, and everybody who has a role or an entry is among them. */
  ghost predicate Peopled(u: Namer, sid: string, names: seq<string>, trail: seq<Entry>, c: Cast, d: Document) {
    && d.parties == PeopleUuids(u, sid, names) && (forall i :: 0 <= i < |names| ==> Line(names[i]) == names[i])
    && d.log == LogFor(u, sid, trail) && d.roles == RolesFor(u, sid, c)
    && HumansListed(names, trail) && CastListed(names, c)
  }

  ghost predicate ResourcesCover(u: Namer, sid: string, fs: seq<Finding>, d: Document) {
    && d.plan in d.resources && d.platforms == [PlatformUuid(u, sid)] && d.components == [ComponentUuid(u, sid)]
    && forall i :: 0 <= i < |fs| && Line(fs[i].vaultId) != "" ==>
         Element(u, sid, "evidence", Line(fs[i].vaultId)) in d.resources
  }

  ghost predicate DocumentExact(u: Namer, sid: string, view: Option<View>, fs: seq<Finding>, es: seq<Evaluation>,
                                trail: seq<Entry>, preparedBy: string, d: Document)
  {
    && ResultsExact(u, sid, PlatformUuid(u, sid), ComponentUuid(u, sid), view, fs, es, d.risks, d.observations,
                    d.findings)
    && PeopleExact(u, sid, view, fs, es, trail, preparedBy, d) && ResourcesCover(u, sid, fs, d)
  }

  // ---- Approvers ---------------------------------------------------------------

  predicate HoldsIn(roles: seq<RoleOut>, role: string, party: string) {
    exists i :: 0 <= i < |roles| && roles[i].role == role && party in roles[i].parties
  }

  lemma HoldsInBoth(a: seq<RoleOut>, b: seq<RoleOut>, role: string, party: string)
    ensures HoldsIn(a + b, role, party) <==> HoldsIn(a, role, party) || HoldsIn(b, role, party)
  {
    if i :| 0 <= i < |a| && a[i].role == role && party in a[i].parties {
      assert (a + b)[i] == a[i];
    }
    if i :| 0 <= i < |b| && b[i].role == role && party in b[i].parties {
      assert (a + b)[|a| + i] == b[i];
    }
  }

  /** The party is that of one of these people. */
  ghost predicate PartyOf(u: Namer, sid: string, names: seq<string>, party: string) {
    exists n :: n in names && n != "" && party == PartyUuid(u, sid, n)
  }

  lemma HoldsDeclared(u: Namer, sid: string, declared: string, names: seq<string>, role: string, party: string)
    ensures HoldsIn(RoleFor(u, sid, declared, names), role, party)
            <==> role == declared && PartyOf(u, sid, names, party)
  {
    var members := Members(names);
    var uuids := PeopleUuids(u, sid, members);
    if n :| n in names && n != "" && party == PartyUuid(u, sid, n) {
      assert n in members;
      var k :| 0 <= k < |members| && members[k] == n;
      assert uuids[k] == party && RoleFor(u, sid, declared, names)[0].parties == uuids;
    }
    if party in uuids {
      var k :| 0 <= k < |uuids| && uuids[k] == party;
      assert members[k] in members;
    }
  }

  lemma RoleIds()
    ensures PREPARED_BY != GATE_APPROVER && PREPARED_BY != CONTENT_APPROVER && PREPARED_BY != REVIEWER
    ensures GATE_APPROVER != CONTENT_APPROVER && GATE_APPROVER != REVIEWER && CONTENT_APPROVER != REVIEWER
  {
    assert |PREPARED_BY| == 11 && |GATE_APPROVER| == 13 && |CONTENT_APPROVER| == 16 && |REVIEWER| == 8;
  }

  /** Each role is held by exactly the people it is declared for. */
  lemma RoleHeldIff(u: Namer, sid: string, c: Cast, role: string, party: string)
    ensures HoldsIn(RolesFor(u, sid, c), role, party)
            <==> || (role == PREPARED_BY && PartyOf(u, sid, [c.preparer], party))
                 || (role == GATE_APPROVER && PartyOf(u, sid, c.approvers, party))
                 || (role == CONTENT_APPROVER && PartyOf(u, sid, c.reportApprovers, party))
                 || (role == REVIEWER && PartyOf(u, sid, c.reviewers, party))
  {
    var p, g := RoleFor(u, sid, PREPARED_BY, [c.preparer]), RoleFor(u, sid, GATE_APPROVER, c.approvers);
    var r, v := RoleFor(u, sid, CONTENT_APPROVER, c.reportApprovers), RoleFor(u, sid, REVIEWER, c.reviewers);
    HoldsInBoth(p, g, role, party);
    HoldsInBoth(p + g, r, role, party);
    HoldsInBoth(p + g + r, v, role, party);
    HoldsDeclared(u, sid, PREPARED_BY, [c.preparer], role, party);
    HoldsDeclared(u, sid, GATE_APPROVER, c.approvers, role, party);
    HoldsDeclared(u, sid, CONTENT_APPROVER, c.reportApprovers, role, party);
    HoldsDeclared(u, sid, REVIEWER, c.reviewers, role, party);
    assert RolesFor(u, sid, c) == p + g + r + v;
  }

  /** The entry approves a gate, or the report, in a name. */
  predicate ApprovesAs(e: Entry, reportOnly: bool) {
    e.body.event.GateApproval? && Line(e.body.human) != "" && (reportOnly ==> e.body.event.artifact == FinalReport)
  }

  /** Some approval of the trail is by this party. */
  ghost predicate ApprovedBy(u: Namer, sid: string, trail: seq<Entry>, reportOnly: bool, party: string) {
    exists i :: 0 <= i < |trail| && ApprovesAs(trail[i], reportOnly) && party == PartyUuid(u, sid, trail[i].body.human)
  }

  lemma ApproverName(u: Namer, sid: string, e: Entry, reportOnly: bool, party: string)
    ensures PartyOf(u, sid, ApproverOf(e.body, reportOnly), party)
            <==> ApprovesAs(e, reportOnly) && party == PartyUuid(u, sid, e.body.human)
  {
    LineOnce(e.body.human);
    if ApprovesAs(e, reportOnly) {
      assert Line(e.body.human) in ApproverOf(e.body, reportOnly);
    }
  }

  lemma PartyOfBoth(u: Namer, sid: string, a: seq<string>, b: seq<string>, party: string)
    ensures PartyOf(u, sid, a + b, party) <==> PartyOf(u, sid, a, party) || PartyOf(u, sid, b, party)
  {
    if n :| n in a && n != "" && party == PartyUuid(u, sid, n) {
      assert n in a + b;
    }
    if n :| n in b && n != "" && party == PartyUuid(u, sid, n) {
      assert n in a + b;
    }
  }

  lemma {:induction false} ApproverPartyIff(u: Namer, sid: string, trail: seq<Entry>, reportOnly: bool, party: string)
    ensures PartyOf(u, sid, ApproversIn(trail, reportOnly), party) <==> ApprovedBy(u, sid, trail, reportOnly, party)
  {
    if trail != [] {
      var init, last := trail[..|trail| - 1], trail[|trail| - 1];
      ApproverPartyIff(u, sid, init, reportOnly, party);
      ApproverName(u, sid, last, reportOnly, party);
      ApproversStep(trail, |trail| - 1, reportOnly);
      assert trail[..|trail|] == trail;
      PartyOfBoth(u, sid, ApproversIn(init, reportOnly), ApproverOf(last.body, reportOnly), party);
      ApprovedLater(u, sid, trail, reportOnly, party);
    }
  }

  lemma ApprovedLater(u: Namer, sid: string, trail: seq<Entry>, reportOnly: bool, party: string)
    requires trail != []
    ensures var last := trail[|trail| - 1];
            ApprovedBy(u, sid, trail, reportOnly, party)
            <==> || ApprovedBy(u, sid, trail[..|trail| - 1], reportOnly, party)
                 || (ApprovesAs(last, reportOnly) && party == PartyUuid(u, sid, last.body.human))
  {
    var init := trail[..|trail| - 1];
    if i :| 0 <= i < |init| && ApprovesAs(init[i], reportOnly) && party == PartyUuid(u, sid, init[i].body.human) {
      assert trail[i] == init[i];
    }
    if i :| 0 <= i < |trail| && ApprovesAs(trail[i], reportOnly) && party == PartyUuid(u, sid, trail[i].body.human) {
      if i < |init| {
        assert init[i] == trail[i];
      }
    }
  }

  // ---- Reviewers -----------------------------------------------------------------

  /** There is such a decision, and it was made by this party. */
  predicate DecidedBy(u: Namer, sid: string, decision: Option<Decision>, party: string) {
    && decision.Some? && Line(decision.value.decidedBy) != ""
    && party == PartyUuid(u, sid, decision.value.decidedBy)
  }

  /** The party classified the deficiency, recommended its remediation, or verified it. */
  predicate DecidedOnRisk(u: Namer, sid: string, dv: Option<DeficiencyView>, party: string) {
    && dv.Some?
    && (|| DecidedBy(u, sid, dv.value.classify, party) || DecidedBy(u, sid, dv.value.remediation, party)
        || (&& DecidedBy(u, sid, dv.value.writeup, party) && dv.value.writeup.value.values.WriteupValues?
            && Line(dv.value.writeup.value.values.recommendation) != ""))
  }

  /** The party reviewed the finding, or limited its scope. */
  predicate DecidedOnFinding(u: Namer, sid: string, fv: Option<FindingView>, party: string) {
    fv.Some? && (DecidedBy(u, sid, fv.value.review, party) || DecidedBy(u, sid, fv.value.scope, party))
  }

  ghost predicate SomeRisk(u: Namer, sid: string, view: Option<View>, es: seq<Evaluation>, party: string) {
    exists e :: e in es && DecidedOnRisk(u, sid, DeficiencyOf(view, e.deficiencyId), party)
  }

  ghost predicate SomeFinding(u: Namer, sid: string, view: Option<View>, fs: seq<Finding>, party: string) {
    exists f :: f in fs && DecidedOnFinding(u, sid, FindingOf(view, f.controlId), party)
  }

  /** Some decision the document shows was made by this party. */
  ghost predicate Reviewed(u: Namer, sid: string, view: Option<View>, fs: seq<Finding>, es: seq<Evaluation>,
                           party: string)
  {
    || SomeRisk(u, sid, view, es, party) || SomeFinding(u, sid, view, fs, party)
    || (view.Some? && DecidedBy(u, sid, view.value.conclusion, party))
  }

  lemma PartyOfOne(u: Namer, sid: string, name: string, party: string)
    ensures PartyOf(u, sid, [Line(name)], party) <==> Line(name) != "" && party == PartyUuid(u, sid, name)
  {
    LineOnce(name);
    assert Line(name) in [Line(name)];
  }

  lemma NamedIsDecider(u: Namer, sid: string, decision: Option<Decision>, party: string)
    ensures PartyOf(u, sid, ReviewerName(decision), party) <==> DecidedBy(u, sid, decision, party)
  {
    if decision.Some? {
      PartyOfOne(u, sid, decision.value.decidedBy, party);
    }
  }

  lemma RiskParty(u: Namer, sid: string, dv: Option<DeficiencyView>, party: string)
    ensures PartyOf(u, sid, ReviewersOfRisk(dv), party) <==> DecidedOnRisk(u, sid, dv, party)
  {
    if dv.Some? {
      var c, r := ReviewerName(dv.value.classify), ReviewerName(dv.value.remediation);
      var w := if HasRecommendation(dv.value.writeup) then ReviewerName(dv.value.writeup) else [];
      PartyOfBoth(u, sid, c + w, r, party);
      PartyOfBoth(u, sid, c, w, party);
      NamedIsDecider(u, sid, dv.value.classify, party);
      NamedIsDecider(u, sid, dv.value.writeup, party);
      NamedIsDecider(u, sid, dv.value.remediation, party);
      assert ReviewersOfRisk(dv) == c + w + r;
    }
  }

  lemma FindingParty(u: Namer, sid: string, fv: Option<FindingView>, party: string)
    ensures PartyOf(u, sid, ReviewersOfFinding(fv), party) <==> DecidedOnFinding(u, sid, fv, party)
  {
    if fv.Some? {
      PartyOfBoth(u, sid, ReviewerName(fv.value.review), ReviewerName(fv.value.scope), party);
      NamedIsDecider(u, sid, fv.value.review, party);
      NamedIsDecider(u, sid, fv.value.scope, party);
    }
  }

  lemma SomeRiskStep(u: Namer, sid: string, view: Option<View>, es: seq<Evaluation>, party: string)
    requires es != []
    ensures var last := es[|es| - 1];
            SomeRisk(u, sid, view, es, party)
            <==> || SomeRisk(u, sid, view, es[..|es| - 1], party)
                 || DecidedOnRisk(u, sid, DeficiencyOf(view, last.deficiencyId), party)
  {
    assert es == es[..|es| - 1] + [es[|es| - 1]];
  }

  lemma SomeFindingStep(u: Namer, sid: string, view: Option<View>, fs: seq<Finding>, party: string)
    requires fs != []
    ensures var last := fs[|fs| - 1];
            SomeFinding(u, sid, view, fs, party)
            <==> || SomeFinding(u, sid, view, fs[..|fs| - 1], party)
                 || DecidedOnFinding(u, sid, FindingOf(view, last.controlId), party)
  {
    assert fs == fs[..|fs| - 1] + [fs[|fs| - 1]];
  }

  lemma {:induction false} RiskParties(u: Namer, sid: string, view: Option<View>, es: seq<Evaluation>, party: string)
    ensures PartyOf(u, sid, ReviewersOfRisks(view, es), party) <==> SomeRisk(u, sid, view, es, party)
  {
    if es != [] {
      var init, last := es[..|es| - 1], es[|es| - 1];
      RiskParties(u, sid, view, init, party);
      RiskParty(u, sid, DeficiencyOf(view, last.deficiencyId), party);
      PartyOfBoth(u, sid, ReviewersOfRisks(view, init), ReviewersOfRisk(DeficiencyOf(view, last.deficiencyId)), party);
      SomeRiskStep(u, sid, view, es, party);
    }
  }

  lemma {:induction false} FindingParties(u: Namer, sid: string, view: Option<View>, fs: seq<Finding>, party: string)
    ensures PartyOf(u, sid, ReviewersOfFindings(view, fs), party) <==> SomeFinding(u, sid, view, fs, party)
  {
    if fs != [] {
      var init, last := fs[..|fs| - 1], fs[|fs| - 1];
      FindingParties(u, sid, view, init, party);
      FindingParty(u, sid, FindingOf(view, last.controlId), party);
      PartyOfBoth(u, sid, ReviewersOfFindings(view, init), ReviewersOfFinding(FindingOf(view, last.controlId)), party);
      SomeFindingStep(u, sid, view, fs, party);
    }
  }

  lemma CastReviewers(u: Namer, sid: string, view: Option<View>, fs: seq<Finding>, es: seq<Evaluation>, party: string)
    ensures PartyOf(u, sid, ReviewersOfRisks(view, es) + ReviewersOfFindings(view, fs)
                            + ReviewerName(ConclusionOf(view)), party)
            <==> Reviewed(u, sid, view, fs, es, party)
  {
    var risks, findings := ReviewersOfRisks(view, es), ReviewersOfFindings(view, fs);
    RiskParties(u, sid, view, es, party);
    FindingParties(u, sid, view, fs, party);
    NamedIsDecider(u, sid, ConclusionOf(view), party);
    PartyOfBoth(u, sid, risks, findings, party);
    PartyOfBoth(u, sid, risks + findings, ReviewerName(ConclusionOf(view)), party);
  }

  // ---- The preparer --------------------------------------------------------------

  /** Entry `i` is the first to create the audit. */
  predicate FirstCreation(trail: seq<Entry>, i: nat) {
    && i < |trail| && trail[i].body.event.AuditCreated?
    && forall j :: 0 <= j < i ==> !trail[j].body.event.AuditCreated?
  }

  /** The party of the recorded preparer or, if none is recorded, of whoever the trail says created the audit. */
  ghost predicate Prepared(u: Namer, sid: string, trail: seq<Entry>, preparedBy: string, party: string) {
    if Line(preparedBy) != "" then party == PartyUuid(u, sid, preparedBy)
    else
      exists i: nat :: FirstCreation(trail, i) && Line(trail[i].body.human) != ""
                       && party == PartyUuid(u, sid, trail[i].body.human)
  }

  lemma {:induction false} CreatorIs(trail: seq<Entry>) returns (i: nat)
    ensures FirstCreator(trail) != "" ==>
              FirstCreation(trail, i) && FirstCreator(trail) == Line(trail[i].body.human)
    ensures FirstCreator(trail) == "" ==>
              forall j: nat :: FirstCreation(trail, j) ==> Line(trail[j].body.human) == ""
  {
    i := 0;
    if trail != [] && !trail[0].body.event.AuditCreated? {
      var k := CreatorIs(trail[1..]);
      i := k + 1;
      assert forall j: nat :: j < |trail| - 1 ==> trail[1..][j] == trail[j + 1];
      assert forall j: nat :: FirstCreation(trail, j) ==> j > 0 && FirstCreation(trail[1..], j - 1);
    }
  }

  lemma PreparerIs(u: Namer, sid: string, trail: seq<Entry>, preparedBy: string, party: string)
    ensures PartyOf(u, sid, [PreparerFor(preparedBy, trail)], party) <==> Prepared(u, sid, trail, preparedBy, party)
  {
    if Line(preparedBy) != "" {
      PartyOfOne(u, sid, preparedBy, party);
    } else {
      var i := CreatorIs(trail);
      if FirstCreator(trail) != "" {
        PartyOfOne(u, sid, trail[i].body.human, party);
        assert forall j: nat :: FirstCreation(trail, j) ==> j == i;
      }
    }
  }

  // ---- Who has which role --------------------------------------------------------

  /** Preparer and approvers by what the trail says, reviewers by the decisions the document shows. */
  ghost predicate RolesExact(u: Namer, sid: string, view: Option<View>, fs: seq<Finding>, es: seq<Evaluation>,
                             trail: seq<Entry>, preparedBy: string, d: Document)
  {
    && (forall party :: RoleHolds(d, GATE_APPROVER, party) <==> ApprovedBy(u, sid, trail, false, party))
    && (forall party :: RoleHolds(d, CONTENT_APPROVER, party) <==> ApprovedBy(u, sid, trail, true, party))
    && (forall party :: RoleHolds(d, PREPARED_BY, party) <==> Prepared(u, sid, trail, preparedBy, party))
    && (forall party :: RoleHolds(d, REVIEWER, party) <==> Reviewed(u, sid, view, fs, es, party))
  }

  lemma HeldByCast(u: Namer, sid: string, c: Cast, d: Document, party: string)
    requires d.roles == RolesFor(u, sid, c)
    ensures RoleHolds(d, GATE_APPROVER, party) <==> PartyOf(u, sid, c.approvers, party)
    ensures RoleHolds(d, CONTENT_APPROVER, party) <==> PartyOf(u, sid, c.reportApprovers, party)
    ensures RoleHolds(d, PREPARED_BY, party) <==> PartyOf(u, sid, [c.preparer], party)
    ensures RoleHolds(d, REVIEWER, party) <==> PartyOf(u, sid, c.reviewers, party)
  {
    RoleIds();
    RoleHeldIff(u, sid, c, GATE_APPROVER, party);
    RoleHeldIff(u, sid, c, CONTENT_APPROVER, party);
    RoleHeldIff(u, sid, c, PREPARED_BY, party);
    RoleHeldIff(u, sid, c, REVIEWER, party);
    assert forall role :: RoleHolds(d, role, party) <==> HoldsIn(d.roles, role, party);
  }

  /** Each role is held by exactly the people who have it. */
  lemma RolesAreExact(u: Namer, sid: string, view: Option<View>, fs: seq<Finding>, es: seq<Evaluation>,
                      trail: seq<Entry>, preparedBy: string, d: Document)
    requires d.roles == RolesFor(u, sid, CastFor(view, fs, es, trail, preparedBy))
    ensures RolesExact(u, sid, view, fs, es, trail, preparedBy, d)
  {
    forall party
      ensures RoleHolds(d, GATE_APPROVER, party) <==> ApprovedBy(u, sid, trail, false, party)
      ensures RoleHolds(d, CONTENT_APPROVER, party) <==> ApprovedBy(u, sid, trail, true, party)
      ensures RoleHolds(d, PREPARED_BY, party) <==> Prepared(u, sid, trail, preparedBy, party)
      ensures RoleHolds(d, REVIEWER, party) <==> Reviewed(u, sid, view, fs, es, party)
    {
      HeldByCast(u, sid, CastFor(view, fs, es, trail, preparedBy), d, party);
      ApproverPartyIff(u, sid, trail, false, party);
      ApproverPartyIff(u, sid, trail, true, party);
      PreparerIs(u, sid, trail, preparedBy, party);
      CastReviewers(u, sid, view, fs, es, party);
    }
  }

  // ---- People resolve ----------------------------------------------------------

  lemma {:induction false} InReviewers(view: Option<View>, es: seq<Evaluation>, i: nat, name: string)
    requires i < |es| && name in ReviewersOfRisk(DeficiencyOf(view, es[i].deficiencyId))
    ensures name in ReviewersOfRisks(view, es)
  {
    if i < |es| - 1 {
      InReviewers(view, es[..|es| - 1], i, name);
    }
  }

  /** A reviewer the export names is in the reviewer role, and among the parties. */
  lemma ReviewerResolves(u: Namer, sid: string, names: seq<string>, trail: seq<Entry>, c: Cast, d: Document,
                         name: string)
    requires Peopled(u, sid, names, trail, c, d) && Line(name) != "" && Line(name) in c.reviewers
    ensures ActorResolves(d, PartyActor(PartyUuid(u, sid, name), REVIEWER))
  {
    ReviewerHasRole(u, sid, c, d, name);
    AllRolesWithin(u, sid, c, names);
    var i :| 0 <= i < |d.roles| && d.roles[i].role == REVIEWER && PartyUuid(u, sid, name) in d.roles[i].parties;
    assert Within(d.roles[i].parties, d.parties);
  }

  /** The decider is named, and one of the reviewers. */
  predicate InCast(c: Cast, decider: Option<Decision>) {
    decider.Some? ==> Line(decider.value.decidedBy) != "" && Line(decider.value.decidedBy) in c.reviewers
  }

  lemma ReviewerActorResolves(u: Namer, sid: string, names: seq<string>, trail: seq<Entry>, c: Cast, d: Document,
                              decider: Option<Decision>)
    requires Peopled(u, sid, names, trail, c, d) && InCast(c, decider)
    ensures ActorsResolve(d, ReviewerActor(u, sid, decider))
  {
    if decider.Some? {
      ReviewerResolves(u, sid, names, trail, c, d, decider.value.decidedBy);
    }
  }

  /** The reviewers of a risk are in the cast. */
  lemma RiskReviewersInCast(view: Option<View>, es: seq<Evaluation>, i: nat, v: DeficiencyView, c: Cast)
    requires Named(view) && i < |es| && DeficiencyOf(view, es[i].deficiencyId) == Some(v)
    requires forall n :: n in ReviewersOfRisks(view, es) ==> n in c.reviewers
    ensures InCast(c, v.classify) && (HasRecommendation(v.writeup) ==> InCast(c, v.writeup))
  {
    if v.classify.Some? {
      assert ReviewerName(v.classify)[0] == Line(v.classify.value.decidedBy);
      InReviewers(view, es, i, Line(v.classify.value.decidedBy));
    }
    if HasRecommendation(v.writeup) {
      assert ReviewerName(v.writeup)[0] == Line(v.writeup.value.decidedBy);
      InReviewers(view, es, i, Line(v.writeup.value.decidedBy));
    }
  }

  lemma RiskActorsResolve(u: Namer, sid: string, names: seq<string>, view: Option<View>, es: seq<Evaluation>,
                          trail: seq<Entry>, c: Cast, d: Document, i: nat)
    requires Named(view) && i < |es| && d.platforms == [PlatformUuid(u, sid)] && Peopled(u, sid, names, trail, c, d)
    requires forall n :: n in ReviewersOfRisks(view, es) ==> n in c.reviewers
    ensures var dv := DeficiencyOf(view, es[i].deficiencyId);
            && ActorsResolve(d, OriginsFor(u, sid, PlatformUuid(u, sid), dv))
            && ActorsResolve(d, RecommendedBy(u, sid, dv))
  {
    var dv := DeficiencyOf(view, es[i].deficiencyId);
    if dv.Some? {
      RiskReviewersInCast(view, es, i, dv.value, c);
      ReviewerActorResolves(u, sid, names, trail, c, d, dv.value.classify);
      if HasRecommendation(dv.value.writeup) {
        ReviewerActorResolves(u, sid, names, trail, c, d, dv.value.writeup);
      }
    }
  }

  lemma PeopleResolve(u: Namer, sid: string, names: seq<string>, trail: seq<Entry>, c: Cast, d: Document)
    requires Peopled(u, sid, names, trail, c, d)
    ensures forall i :: 0 <= i < |d.log| && d.log[i].loggedBy.Some? ==> d.log[i].loggedBy.value in d.parties
    ensures RolesWithin(d.roles, d.parties)
  {
    AllRolesWithin(u, sid, c, names);
    forall i | 0 <= i < |d.log| && d.log[i].loggedBy.Some?
      ensures d.log[i].loggedBy.value in d.parties
    {
      assert d.log[i] == LogEntry(u, sid, trail[i].body.human, i);
      ListedIsWithin(u, sid, names, [trail[i].body.human]);
      assert PeopleUuids(u, sid, [trail[i].body.human])[0] in d.parties;
    }
  }

  /** The attestation names a party in the reviewer role. */
  predicate AttestationResolves(d: Document) {
    d.attested.Some? ==>
      && Within(d.attested.value.parties, d.parties)
      && forall k :: 0 <= k < |d.attested.value.parties| ==>
           RoleHolds(d, d.attested.value.role, d.attested.value.parties[k])
  }

  lemma ConclusionResolves(u: Namer, sid: string, names: seq<string>, view: Option<View>, trail: seq<Entry>, c: Cast,
                           d: Document)
    requires Peopled(u, sid, names, trail, c, d) && d.attested == AttestedBy(u, sid, view)
    requires InCast(c, ConclusionOf(view))
    ensures AttestationResolves(d)
  {
    if ConclusionOf(view).Some? {
      ReviewerResolves(u, sid, names, trail, c, d, ConclusionOf(view).value.decidedBy);
    }
  }

  /** The cast holds every reviewer of a risk, and whoever concluded. */
  lemma CastHolds(view: Option<View>, fs: seq<Finding>, es: seq<Evaluation>, trail: seq<Entry>, preparedBy: string)
    requires Named(view)
    ensures var c := CastFor(view, fs, es, trail, preparedBy);
            && (forall n :: n in ReviewersOfRisks(view, es) ==> n in c.reviewers)
            && InCast(c, ConclusionOf(view))
  {
    if ConclusionOf(view).Some? {
      assert ReviewerName(ConclusionOf(view))[0] == Line(ConclusionOf(view).value.decidedBy);
    }
  }

  // ---- Links resolve -----------------------------------------------------------

  lemma ObservedIsThere(u: Namer, sid: string, view: Option<View>, fs: seq<Finding>, es: seq<Evaluation>, d: Document,
                        controls: seq<string>, x: string)
    requires ResultsExact(u, sid, PlatformUuid(u, sid), ComponentUuid(u, sid), view, fs, es, d.risks, d.observations,
                          d.findings)
    requires ObservedFor(u, sid, fs, controls, x)
    ensures HasObservation(d, x)
  {
    var j :| 0 <= j < |fs| && fs[j].controlId in controls
             && x == Element(u, sid, "observation", KeyAt(ControlIds(fs), j));
    assert d.observations[j].uuid == x;
  }

  lemma RiskIsThere(u: Namer, sid: string, view: Option<View>, fs: seq<Finding>, es: seq<Evaluation>, d: Document,
                    control: string, x: string)
    requires ResultsExact(u, sid, PlatformUuid(u, sid), ComponentUuid(u, sid), view, fs, es, d.risks, d.observations,
                          d.findings)
    requires RiskFor(u, sid, es, control, x)
    ensures HasRisk(d, x)
  {
    var j :| 0 <= j < |es| && control in es[j].relatedFindings
             && x == Element(u, sid, "risk", KeyAt(DeficiencyIds(es), j));
    assert RiskExact(u, sid, view, fs, es, j, PlatformUuid(u, sid), d.risks[j]);
    assert d.risks[j].uuid == x;
  }

  lemma FindingLinksResolve(u: Namer, sid: string, view: Option<View>, fs: seq<Finding>, es: seq<Evaluation>,
                            d: Document, k: nat)
    requires ResultsExact(u, sid, PlatformUuid(u, sid), ComponentUuid(u, sid), view, fs, es, d.risks, d.observations,
                          d.findings)
    requires k < |d.findings|
    ensures FindingResolves(d, d.findings[k])
  {
    var i := Tested(view, fs)[k];
    assert FindingExact(u, sid, view, fs, es, i, d.findings[k]);
    assert d.observations[i].uuid == d.findings[k].observation;
    forall j | 0 <= j < |d.findings[k].risks|
      ensures HasRisk(d, d.findings[k].risks[j])
    {
      assert d.findings[k].risks[j] in d.findings[k].risks;
      RiskIsThere(u, sid, view, fs, es, d, fs[i].controlId, d.findings[k].risks[j]);
    }
  }

  lemma RiskLinksResolve(u: Namer, sid: string, view: Option<View>, fs: seq<Finding>, es: seq<Evaluation>, d: Document,
                         i: nat)
    requires ResultsExact(u, sid, PlatformUuid(u, sid), ComponentUuid(u, sid), view, fs, es, d.risks, d.observations,
                          d.findings)
    requires i < |d.risks|
    ensures forall k :: 0 <= k < |d.risks[i].observations| ==> HasObservation(d, d.risks[i].observations[k])
  {
    assert RiskExact(u, sid, view, fs, es, i, PlatformUuid(u, sid), d.risks[i]);
    forall k | 0 <= k < |d.risks[i].observations|
      ensures HasObservation(d, d.risks[i].observations[k])
    {
      assert d.risks[i].observations[k] in d.risks[i].observations;
      ObservedIsThere(u, sid, view, fs, es, d, es[i].relatedFindings, d.risks[i].observations[k]);
    }
  }

  /** A document that says what it should, with its people among the parties, is closed. */
  lemma IsClosed(u: Namer, sid: string, names: seq<string>, view: Option<View>, fs: seq<Finding>,
                 es: seq<Evaluation>, trail: seq<Entry>, preparedBy: string, d: Document)
    requires Named(view) && DocumentExact(u, sid, view, fs, es, trail, preparedBy, d)
    requires Peopled(u, sid, names, trail, CastFor(view, fs, es, trail, preparedBy), d)
    ensures Closed(d)
  {
    var c := CastFor(view, fs, es, trail, preparedBy);
    CastHolds(view, fs, es, trail, preparedBy);
    PeopleResolve(u, sid, names, trail, c, d);
    ConclusionResolves(u, sid, names, view, trail, c, d);
    ResultsResolve(u, sid, names, view, fs, es, trail, c, d);
  }

  /** The references of risks, findings and observations. */
  lemma ResultsResolve(u: Namer, sid: string, names: seq<string>, view: Option<View>, fs: seq<Finding>,
                       es: seq<Evaluation>, trail: seq<Entry>, c: Cast, d: Document)
    requires ResultsExact(u, sid, PlatformUuid(u, sid), ComponentUuid(u, sid), view, fs, es, d.risks, d.observations,
                          d.findings)
    requires Named(view) && ResourcesCover(u, sid, fs, d) && Peopled(u, sid, names, trail, c, d)
    requires forall n :: n in ReviewersOfRisks(view, es) ==> n in c.reviewers
    ensures forall i :: 0 <= i < |d.risks| ==> RiskResolves(d, d.risks[i])
    ensures forall k :: 0 <= k < |d.findings| ==> FindingResolves(d, d.findings[k])
    ensures forall i :: 0 <= i < |d.observations| ==> ObservationResolves(d, d.observations[i])
  {
    forall i | 0 <= i < |d.risks|
      ensures RiskResolves(d, d.risks[i])
    {
      assert RiskExact(u, sid, view, fs, es, i, PlatformUuid(u, sid), d.risks[i]);
      RiskActorsResolve(u, sid, names, view, es, trail, c, d, i);
      RiskLinksResolve(u, sid, view, fs, es, d, i);
    }
    forall k | 0 <= k < |d.findings|
      ensures FindingResolves(d, d.findings[k])
    {
      FindingLinksResolve(u, sid, view, fs, es, d, k);
    }
    ObservationsResolve(u, sid, view, fs, es, d);
  }

  lemma ObservationsResolve(u: Namer, sid: string, view: Option<View>, fs: seq<Finding>, es: seq<Evaluation>,
                            d: Document)
    requires ResultsExact(u, sid, PlatformUuid(u, sid), ComponentUuid(u, sid), view, fs, es, d.risks, d.observations,
                          d.findings)
    requires ResourcesCover(u, sid, fs, d)
    ensures forall i :: 0 <= i < |d.observations| ==> ObservationResolves(d, d.observations[i])
  {
    assert d.platforms[0] == PlatformUuid(u, sid) && d.components[0] == ComponentUuid(u, sid);
  }

  // ---- Targets -----------------------------------------------------------------

  function MatrixIds(racm: Option<Racm>): seq<string> {
    if racm.None? then [] else IdsOf(ControlsOf(racm.value.risks))
  }

  /** A finding's target is a declared objective exactly when the matrix has a control of the same token. */
  ghost predicate TargetsExact(view: Option<View>, fs: seq<Finding>, racm: Option<Racm>, d: Document) {
    && |d.findings| == |Tested(view, fs)|
    && forall k :: 0 <= k < |d.findings| ==>
         && Tested(view, fs)[k] in Tested(view, fs)
         && (d.findings[k].target in d.objectives
             <==> Declares(MatrixIds(racm), Token(fs[Tested(view, fs)[k]].controlId)))
  }

  lemma TargetsResolveIff(u: Namer, sid: string, view: Option<View>, fs: seq<Finding>, es: seq<Evaluation>,
                          racm: Option<Racm>, d: Document)
    requires ResultsExact(u, sid, PlatformUuid(u, sid), ComponentUuid(u, sid), view, fs, es, d.risks, d.observations,
                          d.findings)
    requires d.objectives == Tokens(Members(MatrixIds(racm)))
    ensures TargetsExact(view, fs, racm, d)
  {
    forall k | 0 <= k < |d.findings|
      ensures d.findings[k].target in d.objectives
              <==> Declares(MatrixIds(racm), Token(fs[Tested(view, fs)[k]].controlId))
    {
      assert FindingExact(u, sid, view, fs, es, Tested(view, fs)[k], d.findings[k]);
      DeclaredIff(MatrixIds(racm), d.findings[k].target);
    }
  }

  // ---- Building the document ---------------------------------------------------

  lemma HumansStay(names: seq<string>, more: seq<string>, trail: seq<Entry>)
    requires names <= more && HumansListed(names, trail)
    ensures HumansListed(more, trail)
  {
    forall i | 0 <= i < |trail| && Line(trail[i].body.human) != ""
      ensures Line(trail[i].body.human) in more
    {
      var k :| 0 <= k < |names| && names[k] == Line(trail[i].body.human);
      assert more[k] == names[k];
    }
  }

  lemma CastStays(names: seq<string>, more: seq<string>, c: Cast)
    requires names <= more && CastListed(names, c)
    ensures CastListed(more, c)
  {
    MoreListed(names, more, Members([c.preparer]));
    MoreListed(names, more, Members(c.approvers));
    MoreListed(names, more, Members(c.reportApprovers));
    MoreListed(names, more, Members(c.reviewers));
  }

  /** The log, the roles and the attestation, in the source's order. */
  method BuildPeople(parties: Parties, view: Option<View>, fs: seq<Finding>, es: seq<Evaluation>,
                     reviewers: seq<string>, trail: seq<Entry>, preparedBy: string)
    returns (log: seq<LogOut>, roles: seq<RoleOut>, attested: Option<RoleOut>)
    requires parties.Valid() && reviewers == ReviewersOfRisks(view, es) + ReviewersOfFindings(view, fs)
    modifies parties
    ensures parties.Valid()
    ensures log == LogFor(parties.u, parties.sid, trail)
    ensures roles == RolesFor(parties.u, parties.sid, CastFor(view, fs, es, trail, preparedBy))
    ensures attested == AttestedBy(parties.u, parties.sid, view)
    ensures HumansListed(parties.names, trail) && CastListed(parties.names, CastFor(view, fs, es, trail, preparedBy))
  {
    var preparer := PreparerFor(preparedBy, trail);
    if preparer != "" {
      var p := parties.UuidFor(preparer);
    }
    var approvers: seq<string>, reportApprovers: seq<string>;
    log, approvers, reportApprovers := BuildLog(parties, trail);
    ghost var logged := parties.names;
    var conclusion := ConclusionOf(view);
    var c := Cast(preparer, approvers, reportApprovers, reviewers + ReviewerName(conclusion));
    roles := BuildRoles(parties, c);
    ghost var seated := parties.names;
    attested := None;
    if conclusion.Some? {
      var p := parties.UuidFor(conclusion.value.decidedBy);
      attested := Some(RoleOut(REVIEWER, [p]));
    }
    HumansStay(logged, parties.names, trail);
    CastStays(seated, parties.names, c);
  }

  lemma UuidsFollow(u: Namer, sid: string, view: Option<View>, fs: seq<Finding>, es: seq<Evaluation>, d: Document)
    requires ResultsExact(u, sid, PlatformUuid(u, sid), ComponentUuid(u, sid), view, fs, es, d.risks, d.observations,
                          d.findings)
    ensures UuidsOk(u, sid, view, fs, es, d)
  {
    forall i | 0 <= i < |es|
      ensures d.risks[i].uuid == Element(u, sid, "risk", KeyAt(DeficiencyIds(es), i))
    {
      assert RiskExact(u, sid, view, fs, es, i, PlatformUuid(u, sid), d.risks[i]);
    }
    forall k | 0 <= k < |d.findings|
      ensures d.findings[k].uuid == Element(u, sid, "finding", KeyAt(ControlIds(fs), Tested(view, fs)[k]))
      ensures d.findings[k].observation == d.observations[Tested(view, fs)[k]].uuid
    {
      assert FindingExact(u, sid, view, fs, es, Tested(view, fs)[k], d.findings[k]);
    }
  }

  /** With injective naming, UUIDs are distinct and findings are where they belong. */
  lemma DistinctAndTested(u: Namer, sid: string, view: Option<View>, fs: seq<Finding>, es: seq<Evaluation>, d: Document)
    requires ResultsExact(u, sid, PlatformUuid(u, sid), ComponentUuid(u, sid), view, fs, es, d.risks, d.observations,
                          d.findings)
    ensures NamesApart(u) ==>
              UuidsApart(d) && forall i :: 0 <= i < |fs| ==>
                (HasFinding(d, i) <==> ResultOfRecord(view, fs[i]) != NotTested)
  {
    UuidsFollow(u, sid, view, fs, es, d);
    if NamesApart(u) {
      AllApart(u, sid, view, fs, es, d);
      AllTested(u, sid, view, fs, es, d);
    }
  }

  /** What the links of the document are worth to a reader. */
  lemma LinksHold(u: Namer, sid: string, names: seq<string>, view: Option<View>, fs: seq<Finding>,
                  es: seq<Evaluation>, racm: Option<Racm>, trail: seq<Entry>, preparedBy: string, d: Document)
    requires DocumentExact(u, sid, view, fs, es, trail, preparedBy, d)
    requires Peopled(u, sid, names, trail, CastFor(view, fs, es, trail, preparedBy), d)
    requires d.objectives == Tokens(Members(MatrixIds(racm)))
    ensures Named(view) ==> Closed(d)
    ensures TargetsExact(view, fs, racm, d) && RolesExact(u, sid, view, fs, es, trail, preparedBy, d)
  {
    if Named(view) {
      IsClosed(u, sid, names, view, fs, es, trail, preparedBy, d);
    }
    RolesAreExact(u, sid, view, fs, es, trail, preparedBy, d);
    TargetsResolveIff(u, sid, view, fs, es, racm, d);
  }

  /** `build_assessment_results`; None where the source raises because there are no controls to report. */
  method BuildAssessmentResults(u: Namer, sid: string, view: Option<View>, fs: seq<Finding>, es: seq<Evaluation>,
                                racm: Option<Racm>, trail: seq<Entry>, preparedBy: string) returns (d: Option<Document>)
    ensures d.None? <==> fs == [] && MatrixIds(racm) == []
    // Every element and every link is the one the inputs call for.
    ensures d.Some? ==> DocumentExact(u, sid, view, fs, es, trail, preparedBy, d.value)
    ensures d.Some? ==> TargetsExact(view, fs, racm, d.value)
    ensures d.Some? ==> RolesExact(u, sid, view, fs, es, trail, preparedBy, d.value)
    // Every reference resolves.
    ensures d.Some? && Named(view) ==> Closed(d.value)
    ensures d.Some? && NamesApart(u) ==>
              && UuidsApart(d.value)
              && forall i :: 0 <= i < |fs| ==> (HasFinding(d.value, i) <==> ResultOfRecord(view, fs[i]) != NotTested)
  {
    if fs == [] && MatrixIds(racm) == [] {
      return None;
    }
    var parties := new Parties(u, sid);
    var plan := Single(u, sid, "assessment-plan-reference");
    var records := EvidenceResources(u, sid, fs);
    var objectives := BuildObjectives(MatrixIds(racm));
    var platform, component := PlatformUuid(u, sid), ComponentUuid(u, sid);
    var risks, observations, findings, reviewers := BuildResults(parties, platform, component, view, fs, es);
    var log, roles, attested := BuildPeople(parties, view, fs, es, reviewers, trail, preparedBy);
    var people := parties.AsOscal();
    var doc := Document(plan, [plan] + records, [ComponentUuid(u, sid)], [PlatformUuid(u, sid)], objectives,
                        risks, observations, findings, log, roles, attested, people);
    assert Peopled(u, sid, parties.names, trail, CastFor(view, fs, es, trail, preparedBy), doc);
    LinksHold(u, sid, parties.names, view, fs, es, racm, trail, preparedBy, doc);
    DistinctAndTested(u, sid, view, fs, es, doc);
    d := Some(doc);
  }
}

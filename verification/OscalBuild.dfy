/** Building the OSCAL document (src/swarm/oscal_ar.py, `build_assessment_results`). */
module OscalBuild {
  import opened Options
  import opened Schema
  import opened Records
  import opened Decisions
  import opened Oscal
  import opened OscalPeople

  // ---- Grouping by control -----------------------------------------------------

  /** Some element that names control `c` has UUID `x`. */
  ghost predicate Relates(names: seq<seq<string>>, uuids: seq<string>, c: string, x: string)
    requires |names| == |uuids|
  {
    exists i :: 0 <= i < |names| && c in names[i] && uuids[i] == x
  }

  function Under(m: map<string, seq<string>>, c: string): seq<string> {
    if c in m then m[c] else []
  }

  /** Appends `x` under every control of `cs`. */
  method AddUnder(m: map<string, seq<string>>, cs: seq<string>, x: string) returns (r: map<string, seq<string>>)
    ensures forall c, y :: y in Under(r, c) <==> y in Under(m, c) || (c in cs && y == x)
  {
    r := m;
    for k := 0 to |cs|
      invariant forall c, y :: y in Under(r, c) <==> y in Under(m, c) || (c in cs[..k] && y == x)
    {
      assert cs[..k + 1] == cs[..k] + [cs[k]];
      r := r[cs[k] := Under(r, cs[k]) + [x]];
    }
    assert cs[..|cs|] == cs;
  }

  /** The UUIDs of the elements that name each control. */
  method GroupByControl(names: seq<seq<string>>, uuids: seq<string>) returns (m: map<string, seq<string>>)
    requires |names| == |uuids|
    ensures forall c, x :: x in Under(m, c) <==> Relates(names, uuids, c, x)
  {
    m := map[];
    for i := 0 to |names|
      invariant forall c, x :: x in Under(m, c) <==> Relates(names[..i], uuids[..i], c, x)
    {
      RelatesMore(names, uuids, i);
      m := AddUnder(m, names[i], uuids[i]);
    }
    assert names[..|names|] == names && uuids[..|uuids|] == uuids;
  }

  lemma RelatesMore(names: seq<seq<string>>, uuids: seq<string>, i: nat)
    requires |names| == |uuids| && i < |names|
    ensures forall c, x :: Relates(names[..i + 1], uuids[..i + 1], c, x)
              <==> Relates(names[..i], uuids[..i], c, x) || (c in names[i] && uuids[i] == x)
  {
    forall c, x
      ensures Relates(names[..i + 1], uuids[..i + 1], c, x)
              <==> Relates(names[..i], uuids[..i], c, x) || (c in names[i] && uuids[i] == x)
    {
      if Relates(names[..i], uuids[..i], c, x) {
        var k :| 0 <= k < i && c in names[..i][k] && uuids[..i][k] == x;
        assert c in names[..i + 1][k] && uuids[..i + 1][k] == x;
      }
      if c in names[i] && uuids[i] == x {
        assert c in names[..i + 1][i] && uuids[..i + 1][i] == x;
      }
      if Relates(names[..i + 1], uuids[..i + 1], c, x) {
        var k :| 0 <= k < i + 1 && c in names[..i + 1][k] && uuids[..i + 1][k] == x;
        assert k < i ==> c in names[..i][k] && uuids[..i][k] == x;
      }
    }
  }

  /** All observations of the controls an evaluation relates to. */
  function UnderAll(m: map<string, seq<string>>, cs: seq<string>): (r: seq<string>)
    ensures forall x :: x in r <==> exists c :: c in cs && x in Under(m, c)
  {
    if cs == [] then []
    else
      assert cs == cs[..|cs| - 1] + [cs[|cs| - 1]];
      UnderAll(m, cs[..|cs| - 1]) + Under(m, cs[|cs| - 1])
  }

  // ---- The effective view ------------------------------------------------------

  function DeficiencyOf(view: Option<View>, id: string): Option<DeficiencyView> {
    if view.None? then None else FirstDeficiency(view.value.deficiencies, id)
  }

  function FirstDeficiency(vs: seq<DeficiencyView>, id: string): Option<DeficiencyView> {
    if vs == [] then None else if vs[0].deficiencyId == id then Some(vs[0]) else FirstDeficiency(vs[1..], id)
  }

  function FindingOf(view: Option<View>, id: string): Option<FindingView> {
    if view.None? then None else FirstFinding(view.value.findings, id)
  }

  function FirstFinding(vs: seq<FindingView>, id: string): Option<FindingView> {
    if vs == [] then None else if vs[0].controlId == id then Some(vs[0]) else FirstFinding(vs[1..], id)
  }

  predicate NamedDecision(d: Option<Decision>) {
    d.Some? ==> Line(d.value.decidedBy) != ""
  }

  /** Every decision shown names who decided it. */
  ghost predicate Named(view: Option<View>) {
    && (forall id :: var v := DeficiencyOf(view, id);
                     v.Some? ==>
                       NamedDecision(v.value.classify) && NamedDecision(v.value.writeup) &&
                       NamedDecision(v.value.remediation))
    && (forall id :: var v := FindingOf(view, id);
                     v.Some? ==> NamedDecision(v.value.review) && NamedDecision(v.value.scope))
    && (view.Some? ==> NamedDecision(view.value.conclusion))
  }

  // ---- Risks -------------------------------------------------------------------

  predicate HasRecommendation(writeup: Option<Decision>) {
    && writeup.Some? && writeup.value.values.WriteupValues?
    && Line(writeup.value.values.recommendation) != ""
  }

  /** `_reviewer_origin`. */
  function ReviewerActor(u: Namer, sid: string, d: Option<Decision>): seq<Actor> {
    if d.None? then [] else [PartyActor(PartyUuid(u, sid, d.value.decidedBy), REVIEWER)]
  }

  function OriginsFor(u: Namer, sid: string, platform: string, dv: Option<DeficiencyView>): seq<Actor> {
    if dv.None? then [] else [PlatformActor(platform)] + ReviewerActor(u, sid, dv.value.classify)
  }

  function RecommendedBy(u: Namer, sid: string, dv: Option<DeficiencyView>): seq<Actor> {
    if dv.None? || !HasRecommendation(dv.value.writeup) then [] else ReviewerActor(u, sid, dv.value.writeup)
  }

  /** A risk is closed once its remediation was verified. */
  predicate Remedied(dv: Option<DeficiencyView>) {
    && dv.Some? && dv.value.remediation.Some? && dv.value.remediation.value.values.RemediationValues?
    && dv.value.remediation.value.values.status == Remediated
  }

  /** `_decided_props`: the reviewer a prop names. */
  function ReviewerName(d: Option<Decision>): seq<string> {
    if d.None? then [] else [Line(d.value.decidedBy)]
  }

  function ReviewersOfRisk(dv: Option<DeficiencyView>): seq<string> {
    if dv.None? then []
    else
      ReviewerName(dv.value.classify)
      + (if HasRecommendation(dv.value.writeup) then ReviewerName(dv.value.writeup) else [])
      + ReviewerName(dv.value.remediation)
  }

  function ReviewersOfRisks(view: Option<View>, es: seq<Evaluation>): seq<string> {
    if es == [] then []
    else
      ReviewersOfRisks(view, es[..|es| - 1]) + ReviewersOfRisk(DeficiencyOf(view, es[|es| - 1].deficiencyId))
  }

  function RelatedOf(es: seq<Evaluation>): (r: seq<seq<string>>)
    ensures |r| == |es| && forall i :: 0 <= i < |es| ==> r[i] == es[i].relatedFindings
  {
    seq(|es|, i requires 0 <= i < |es| => es[i].relatedFindings)
  }

  function RiskOutFor(u: Namer, sid: string, platform: string, view: Option<View>, e: Evaluation, uuid: string,
                      obsByControl: map<string, seq<string>>): RiskOut
  {
    var dv := DeficiencyOf(view, e.deficiencyId);
    RiskOut(uuid, Remedied(dv), OriginsFor(u, sid, platform, dv), RecommendedBy(u, sid, dv),
            Once(UnderAll(obsByControl, e.relatedFindings)))
  }

  /** The parties of a risk's reviewers. */
  method NameReviewers(parties: Parties, platform: string, dv: Option<DeficiencyView>)
    returns (origins: seq<Actor>, recommended: seq<Actor>)
    requires parties.Valid()
    modifies parties
    ensures parties.Valid() && old(parties.names) <= parties.names
    ensures origins == OriginsFor(parties.u, parties.sid, platform, dv)
    ensures recommended == RecommendedBy(parties.u, parties.sid, dv)
  {
    origins, recommended := [], [];
    if dv.None? {
      return;
    }
    origins := [PlatformActor(platform)];
    if dv.value.classify.Some? {
      var p := parties.UuidFor(dv.value.classify.value.decidedBy);
      origins := origins + [PartyActor(p, REVIEWER)];
    }
    if HasRecommendation(dv.value.writeup) {
      var p := parties.UuidFor(dv.value.writeup.value.decidedBy);
      recommended := [PartyActor(p, REVIEWER)];
    }
  }

  /** The risks of the first `n` evaluations. */
  function RisksFor(u: Namer, sid: string, platform: string, view: Option<View>, es: seq<Evaluation>,
                    uuids: seq<string>, obsByControl: map<string, seq<string>>, n: nat): (r: seq<RiskOut>)
    requires |uuids| == |es| && n <= |es|
    ensures |r| == n
    ensures forall i :: 0 <= i < n ==> r[i] == RiskOutFor(u, sid, platform, view, es[i], uuids[i], obsByControl)
  {
    seq(n, i requires 0 <= i < n => RiskOutFor(u, sid, platform, view, es[i], uuids[i], obsByControl))
  }

  /** One evaluation as a risk. */
  method BuildRisk(parties: Parties, platform: string, view: Option<View>, e: Evaluation, uuid: string,
                   obsByControl: map<string, seq<string>>) returns (risk: RiskOut)
    requires parties.Valid()
    modifies parties
    ensures parties.Valid() && old(parties.names) <= parties.names
    ensures risk == RiskOutFor(parties.u, parties.sid, platform, view, e, uuid, obsByControl)
  {
    var dv := DeficiencyOf(view, e.deficiencyId);
    var origins, recommended := NameReviewers(parties, platform, dv);
    risk := RiskOut(uuid, Remedied(dv), origins, recommended, Once(UnderAll(obsByControl, e.relatedFindings)));
  }

  /** The deficiency evaluations as risks. */
  method BuildRisks(parties: Parties, platform: string, view: Option<View>, es: seq<Evaluation>, uuids: seq<string>,
                    obsByControl: map<string, seq<string>>) returns (risks: seq<RiskOut>, reviewers: seq<string>)
    requires parties.Valid() && |uuids| == |es|
    modifies parties
    ensures parties.Valid() && old(parties.names) <= parties.names
    ensures risks == RisksFor(parties.u, parties.sid, platform, view, es, uuids, obsByControl, |es|)
    ensures reviewers == ReviewersOfRisks(view, es)
  {
    risks, reviewers := [], [];
    for i := 0 to |es|
      invariant parties.Valid() && old(parties.names) <= parties.names
      invariant risks == RisksFor(parties.u, parties.sid, platform, view, es, uuids, obsByControl, i)
      invariant reviewers == ReviewersOfRisks(view, es[..i])
    {
      assert es[..i + 1][..i] == es[..i];
      var risk := BuildRisk(parties, platform, view, es[i], uuids[i], obsByControl);
      risks := risks + [risk];
      reviewers := reviewers + ReviewersOfRisk(DeficiencyOf(view, es[i].deficiencyId));
    }
    assert es[..|es|] == es;
  }

  // ---- Evidence ----------------------------------------------------------------

  /** The resource a finding cites. */
  function EvidenceFor(u: Namer, sid: string, f: Finding): Option<string> {
    if Line(f.vaultId) == "" then None else Some(Element(u, sid, "evidence", Line(f.vaultId)))
  }

  /** One back-matter resource per cited vault record. */
  method EvidenceResources(u: Namer, sid: string, fs: seq<Finding>) returns (resources: seq<string>)
    ensures forall i :: 0 <= i < |fs| && EvidenceFor(u, sid, fs[i]).Some? ==>
              EvidenceFor(u, sid, fs[i]).value in resources
  {
    resources := [];
    var byVault: map<string, string> := map[];
    for i := 0 to |fs|
      invariant forall v :: v in byVault ==> Element(u, sid, "evidence", v) in resources
      invariant forall k :: 0 <= k < i && Line(fs[k].vaultId) != "" ==> Line(fs[k].vaultId) in byVault
    {
      var v := Line(fs[i].vaultId);
      if v != "" && v !in byVault {
        byVault := byVault[v := Element(u, sid, "evidence", v)];
        resources := resources + [byVault[v]];
      }
    }
  }

  // ---- Observations and findings -----------------------------------------------

  /** The result of record: the effective view's, else the draft's. */
  function ResultOfRecord(view: Option<View>, f: Finding): Outcome {
    var v := FindingOf(view, f.controlId);
    if v.Some? then v.value.effective.result else f.result
  }

  /** The findings whose control was tested, by position. */
  function Tested(view: Option<View>, fs: seq<Finding>): (r: seq<nat>)
    ensures forall i :: i in r <==> 0 <= i < |fs| && ResultOfRecord(view, fs[i]) != NotTested
    ensures forall a, b :: 0 <= a < b < |r| ==> r[a] < r[b]
  {
    if fs == [] then []
    else
      var n := |fs| - 1;
      assert forall i :: 0 <= i < n ==> fs[i] == fs[..n][i];
      var rest := Tested(view, fs[..n]);
      assert forall k :: 0 <= k < |rest| ==> rest[k] in rest;
      if ResultOfRecord(view, fs[n]) == NotTested then rest else rest + [n]
  }

  function ObservationFor(u: Namer, sid: string, platform: string, component: string, f: Finding,
                          uuid: string): ObservationOut
  {
    ObservationOut(uuid, PlatformActor(platform), component, EvidenceFor(u, sid, f))
  }

  method BuildObservations(u: Namer, sid: string, platform: string, component: string, fs: seq<Finding>,
                           uuids: seq<string>)
    returns (observations: seq<ObservationOut>)
    requires |uuids| == |fs|
    ensures |observations| == |fs|
    ensures forall i :: 0 <= i < |fs| ==>
              observations[i] == ObservationFor(u, sid, platform, component, fs[i], uuids[i])
  {
    observations := [];
    for i := 0 to |fs|
      invariant |observations| == i
      invariant forall k :: 0 <= k < i ==>
                  observations[k] == ObservationFor(u, sid, platform, component, fs[k], uuids[k])
    {
      var v := Line(fs[i].vaultId);
      var evidence := if v != "" then Some(Element(u, sid, "evidence", v)) else None;
      observations := observations + [ObservationOut(uuids[i], PlatformActor(platform), component, evidence)];
    }
  }

  /** The finding of one tested control: its target, its state, its observation and the risks of its control. */
  function FindingFor(u: Namer, sid: string, view: Option<View>, f: Finding, key: string, uuid: string,
                      risksByControl: map<string, seq<string>>): FindingOut
  {
    FindingOut(Element(u, sid, "finding", key), Token(f.controlId), ResultOfRecord(view, f) == NoException, uuid,
               Once(Under(risksByControl, f.controlId)))
  }

  /** The findings of the first `n` working-paper findings. */
  function FindingsFor(u: Namer, sid: string, view: Option<View>, fs: seq<Finding>, keys: seq<string>,
                       uuids: seq<string>, risksByControl: map<string, seq<string>>, n: nat): seq<FindingOut>
    requires |uuids| == |fs| == |keys| && n <= |fs|
  {
    if n == 0 then []
    else
      var rest := FindingsFor(u, sid, view, fs, keys, uuids, risksByControl, n - 1);
      if ResultOfRecord(view, fs[n - 1]) == NotTested then rest
      else rest + [FindingFor(u, sid, view, fs[n - 1], keys[n - 1], uuids[n - 1], risksByControl)]
  }

  lemma {:induction false} FindingsAreTested(u: Namer, sid: string, view: Option<View>, fs: seq<Finding>,
                                             keys: seq<string>, uuids: seq<string>,
                                             risksByControl: map<string, seq<string>>, n: nat)
    requires |uuids| == |fs| == |keys| && n <= |fs|
    ensures var findings := FindingsFor(u, sid, view, fs, keys, uuids, risksByControl, n);
            var tested := Tested(view, fs[..n]);
            && |findings| == |tested|
            && forall k :: 0 <= k < |tested| ==>
                 && tested[k] < n
                 && findings[k] == FindingFor(u, sid, view, fs[tested[k]], keys[tested[k]], uuids[tested[k]],
                                              risksByControl)
  {
    if n > 0 {
      FindingsAreTested(u, sid, view, fs, keys, uuids, risksByControl, n - 1);
      assert fs[..n][..n - 1] == fs[..n - 1] && fs[..n][n - 1] == fs[n - 1];
    }
  }

  /** One finding per tested control. */
  method BuildFindings(u: Namer, sid: string, view: Option<View>, fs: seq<Finding>, keys: seq<string>,
                       uuids: seq<string>, risksByControl: map<string, seq<string>>) returns (findings: seq<FindingOut>)
    requires |uuids| == |fs| == |keys|
    ensures |findings| == |Tested(view, fs)|
    ensures forall k :: 0 <= k < |findings| ==>
              var i := Tested(view, fs)[k];
              i < |fs| && findings[k] == FindingFor(u, sid, view, fs[i], keys[i], uuids[i], risksByControl)
  {
    findings := [];
    for i := 0 to |fs|
      invariant findings == FindingsFor(u, sid, view, fs, keys, uuids, risksByControl, i)
    {
      if ResultOfRecord(view, fs[i]) != NotTested {
        findings := findings + [FindingFor(u, sid, view, fs[i], keys[i], uuids[i], risksByControl)];
      }
    }
    FindingsAreTested(u, sid, view, fs, keys, uuids, risksByControl, |fs|);
    assert fs[..|fs|] == fs;
  }

  function ReviewersOfFinding(v: Option<FindingView>): seq<string> {
    if v.None? then [] else ReviewerName(v.value.review) + ReviewerName(v.value.scope)
  }

  function ReviewersOfFindings(view: Option<View>, fs: seq<Finding>): seq<string> {
    if fs == [] then []
    else ReviewersOfFindings(view, fs[..|fs| - 1]) + ReviewersOfFinding(FindingOf(view, fs[|fs| - 1].controlId))
  }

  /** The reviewers the observations' props name. */
  method NameFindingReviewers(view: Option<View>, fs: seq<Finding>) returns (reviewers: seq<string>)
    ensures reviewers == ReviewersOfFindings(view, fs)
  {
    reviewers := [];
    for i := 0 to |fs|
      invariant reviewers == ReviewersOfFindings(view, fs[..i])
    {
      assert fs[..i + 1][..i] == fs[..i];
      reviewers := reviewers + ReviewersOfFinding(FindingOf(view, fs[i].controlId));
    }
    assert fs[..|fs|] == fs;
  }

  // ---- Objectives --------------------------------------------------------------

  function IdsOf(cs: seq<Control>): (r: seq<string>)
    ensures |r| == |cs| && forall i :: 0 <= i < |cs| ==> r[i] == cs[i].controlId
  {
    seq(|cs|, i requires 0 <= i < |cs| => cs[i].controlId)
  }

  function Tokens(ids: seq<string>): (r: seq<string>)
    ensures |r| == |ids| && forall i :: 0 <= i < |ids| ==> r[i] == Token(ids[i])
  {
    seq(|ids|, i requires 0 <= i < |ids| => Token(ids[i]))
  }

  /** One objective per control id of the matrix: each id once, blanks left out. */
  method BuildObjectives(ids: seq<string>) returns (objectives: seq<string>)
    ensures objectives == Tokens(Members(ids))
  {
    objectives := [];
    var seen: seq<string> := [];
    for i := 0 to |ids|
      invariant seen == Members(ids[..i])
      invariant objectives == Tokens(seen)
    {
      MembersStep(ids, i);
      if ids[i] != "" && ids[i] !in seen {
        seen := seen + [ids[i]];
        objectives := objectives + [Token(ids[i])];
      }
    }
    assert ids[..|ids|] == ids;
  }

  lemma OnceSnoc(s: seq<string>, x: string)
    ensures Once(s + [x]) == if x in Once(s) then Once(s) else Once(s) + [x]
  {
    assert (s + [x])[..|s|] == s;
  }

  lemma MembersStep(ids: seq<string>, i: nat)
    requires i < |ids|
    ensures var before := Members(ids[..i]);
            Members(ids[..i + 1]) == if ids[i] == "" || ids[i] in before then before else before + [ids[i]]
  {
    var part := ids[..i + 1];
    assert part[..|part| - 1] == ids[..i] && part[|part| - 1] == ids[i];
    if ids[i] == "" {
      assert NotBlank(part) == NotBlank(ids[..i]);
    } else {
      assert NotBlank(part) == NotBlank(ids[..i]) + [ids[i]];
      OnceSnoc(NotBlank(ids[..i]), ids[i]);
    }
  }

  /** Some control of the matrix, with an id, has this token. */
  predicate Declares(ids: seq<string>, t: string) {
    exists i :: 0 <= i < |ids| && HasToken(ids[i], t)
  }

  predicate HasToken(id: string, t: string) {
    id != "" && Token(id) == t
  }

  /** The objectives carry the tokens of the controls with an id. */
  lemma DeclaredIff(ids: seq<string>, t: string)
    ensures t in Tokens(Members(ids)) <==> Declares(ids, t)
  {
    if t in Tokens(Members(ids)) {
      TokenDeclared(ids, t);
    }
    if Declares(ids, t) {
      DeclaredToken(ids, t);
    }
  }

  lemma TokenDeclared(ids: seq<string>, t: string)
    requires t in Tokens(Members(ids))
    ensures Declares(ids, t)
  {
    var members := Members(ids);
    var k :| 0 <= k < |members| && Tokens(members)[k] == t;
    assert members[k] in members;
    var i :| 0 <= i < |ids| && ids[i] == members[k];
    assert HasToken(ids[i], t);
  }

  lemma DeclaredToken(ids: seq<string>, t: string)
    requires Declares(ids, t)
    ensures t in Tokens(Members(ids))
  {
    var i :| 0 <= i < |ids| && HasToken(ids[i], t);
    assert ids[i] in Members(ids);
    var k :| 0 <= k < |Members(ids)| && Members(ids)[k] == ids[i];
    assert Tokens(Members(ids))[k] == t;
  }

  // ---- The whole document ------------------------------------------------------

  function ControlIds(fs: seq<Finding>): (r: seq<string>)
    ensures |r| == |fs| && forall i :: 0 <= i < |fs| ==> r[i] == fs[i].controlId
  {
    seq(|fs|, i requires 0 <= i < |fs| => fs[i].controlId)
  }

  function DeficiencyIds(es: seq<Evaluation>): (r: seq<string>)
    ensures |r| == |es| && forall i :: 0 <= i < |es| ==> r[i] == es[i].deficiencyId
  {
    seq(|es|, i requires 0 <= i < |es| => es[i].deficiencyId)
  }

  function Singles(ids: seq<string>): (r: seq<seq<string>>)
    ensures |r| == |ids| && forall i :: 0 <= i < |ids| ==> r[i] == [ids[i]]
  {
    seq(|ids|, i requires 0 <= i < |ids| => [ids[i]])
  }

  /** `x` is the observation of a finding of one of these controls. */
  ghost predicate ObservedFor(u: Namer, sid: string, fs: seq<Finding>, controls: seq<string>, x: string) {
    exists i :: 0 <= i < |fs| && fs[i].controlId in controls
                && x == Element(u, sid, "observation", KeyAt(ControlIds(fs), i))
  }

  /** `x` is the risk of an evaluation that relates to this control. */
  ghost predicate RiskFor(u: Namer, sid: string, es: seq<Evaluation>, control: string, x: string) {
    exists i :: 0 <= i < |es| && control in es[i].relatedFindings
                && x == Element(u, sid, "risk", KeyAt(DeficiencyIds(es), i))
  }

  /** The risk of evaluation `i`, with the observations of its controls, each once. */
  ghost predicate RiskExact(u: Namer, sid: string, view: Option<View>, fs: seq<Finding>, es: seq<Evaluation>, i: nat,
                            platform: string, r: RiskOut)
    requires i < |es|
  {
    var dv := DeficiencyOf(view, es[i].deficiencyId);
    && r.uuid == Element(u, sid, "risk", KeyAt(DeficiencyIds(es), i))
    // Closed once the reviewer verified the remediation as complete.
    && (r.closed <==> && dv.Some? && dv.value.remediation.Some?
                      && dv.value.remediation.value.values.RemediationValues?
                      && dv.value.remediation.value.values.status == Remediated)
    // Raised by the platform, and by the reviewer who classified it.
    && (dv.None? ==> r.origins == [])
    && (dv.Some? ==> r.origins == [PlatformActor(platform)]
                     + (match dv.value.classify
                        case None => []
                        case Some(c) => [PartyActor(PartyUuid(u, sid, c.decidedBy), REVIEWER)]))
    // A recommendation by the reviewer who wrote one.
    && r.recommendedBy == (if dv.Some? && dv.value.writeup.Some? && dv.value.writeup.value.values.WriteupValues?
                              && Line(dv.value.writeup.value.values.recommendation) != ""
                           then [PartyActor(PartyUuid(u, sid, dv.value.writeup.value.decidedBy), REVIEWER)] else [])
    && AllDistinct(r.observations)
    && forall x :: x in r.observations <==> ObservedFor(u, sid, fs, es[i].relatedFindings, x)
  }

  /** The finding of working-paper finding `i`, with the risks of its control, each once. */
  ghost predicate FindingExact(u: Namer, sid: string, view: Option<View>, fs: seq<Finding>, es: seq<Evaluation>, i: nat,
                               f: FindingOut)
    requires i < |fs|
  {
    && f.uuid == Element(u, sid, "finding", KeyAt(ControlIds(fs), i)) && f.target == Token(fs[i].controlId)
    && (f.satisfied <==> ResultOfRecord(view, fs[i]) == NoException)
    && f.observation == Element(u, sid, "observation", KeyAt(ControlIds(fs), i))
    && AllDistinct(f.risks)
    && forall x :: x in f.risks <==> RiskFor(u, sid, es, fs[i].controlId, x)
  }

  /** The risks, observations and findings of the document, one by one. */
  ghost predicate ResultsExact(u: Namer, sid: string, platform: string, component: string, view: Option<View>,
                               fs: seq<Finding>, es: seq<Evaluation>, risks: seq<RiskOut>,
                               observations: seq<ObservationOut>, findings: seq<FindingOut>)
  {
    && |observations| == |fs| && |risks| == |es| && |findings| == |Tested(view, fs)|
    && (forall i :: 0 <= i < |fs| ==>
          // Of the audited component, citing the vault record the finding names.
          observations[i] == ObservationOut(
                               Element(u, sid, "observation", KeyAt(ControlIds(fs), i)), PlatformActor(platform),
                               component,
                               if Line(fs[i].vaultId) == "" then None
                               else Some(Element(u, sid, "evidence", Line(fs[i].vaultId)))))
    && (forall i :: 0 <= i < |es| ==> RiskExact(u, sid, view, fs, es, i, platform, risks[i]))
    && (forall k :: 0 <= k < |findings| ==>
          && Tested(view, fs)[k] in Tested(view, fs)
          && FindingExact(u, sid, view, fs, es, Tested(view, fs)[k], findings[k]))
  }

  lemma ObservationsUnder(u: Namer, sid: string, fs: seq<Finding>, keys: seq<string>, m: map<string, seq<string>>,
                          controls: seq<string>)
    requires |keys| == |fs| && forall i :: 0 <= i < |fs| ==> keys[i] == KeyAt(ControlIds(fs), i)
    requires forall c, x :: x in Under(m, c)
               <==> Relates(Singles(ControlIds(fs)), UuidsOf(u, sid, "observation", keys), c, x)
    ensures forall x :: x in Once(UnderAll(m, controls)) <==> ObservedFor(u, sid, fs, controls, x)
  {
    var ids, uuids := ControlIds(fs), UuidsOf(u, sid, "observation", keys);
    forall x
      ensures x in UnderAll(m, controls) <==> ObservedFor(u, sid, fs, controls, x)
    {
      if x in UnderAll(m, controls) {
        var c :| c in controls && x in Under(m, c);
        var i :| 0 <= i < |ids| && c in Singles(ids)[i] && uuids[i] == x;
        assert fs[i].controlId in controls;
      }
      if ObservedFor(u, sid, fs, controls, x) {
        var i :| 0 <= i < |fs| && fs[i].controlId in controls
                 && x == Element(u, sid, "observation", KeyAt(ids, i));
        assert fs[i].controlId in Singles(ids)[i] && uuids[i] == x;
        assert Relates(Singles(ids), uuids, fs[i].controlId, x);
      }
    }
  }

  lemma RisksUnder(u: Namer, sid: string, es: seq<Evaluation>, keys: seq<string>, m: map<string, seq<string>>,
                   control: string)
    requires |keys| == |es| && forall i :: 0 <= i < |es| ==> keys[i] == KeyAt(DeficiencyIds(es), i)
    requires forall c, x :: x in Under(m, c) <==> Relates(RelatedOf(es), UuidsOf(u, sid, "risk", keys), c, x)
    ensures forall x :: x in Once(Under(m, control)) <==> RiskFor(u, sid, es, control, x)
  {
    var names, uuids := RelatedOf(es), UuidsOf(u, sid, "risk", keys);
    forall x
      ensures x in Under(m, control) <==> RiskFor(u, sid, es, control, x)
    {
      if x in Under(m, control) {
        var i :| 0 <= i < |names| && control in names[i] && uuids[i] == x;
        assert control in es[i].relatedFindings;
      }
      if RiskFor(u, sid, es, control, x) {
        var i :| 0 <= i < |es| && control in es[i].relatedFindings
                 && x == Element(u, sid, "risk", KeyAt(DeficiencyIds(es), i));
        assert control in names[i] && uuids[i] == x;
      }
    }
  }

  lemma RisksAreExact(u: Namer, sid: string, platform: string, view: Option<View>, fs: seq<Finding>,
                      es: seq<Evaluation>, keys: seq<string>, riskKeys: seq<string>,
                      obsByControl: map<string, seq<string>>)
    requires |keys| == |fs| && forall i :: 0 <= i < |fs| ==> keys[i] == KeyAt(ControlIds(fs), i)
    requires |riskKeys| == |es| && forall i :: 0 <= i < |es| ==> riskKeys[i] == KeyAt(DeficiencyIds(es), i)
    requires forall c, x :: x in Under(obsByControl, c)
               <==> Relates(Singles(ControlIds(fs)), UuidsOf(u, sid, "observation", keys), c, x)
    ensures var risks := RisksFor(u, sid, platform, view, es, UuidsOf(u, sid, "risk", riskKeys), obsByControl, |es|);
            forall i :: 0 <= i < |es| ==> RiskExact(u, sid, view, fs, es, i, platform, risks[i])
  {
    var uuids := UuidsOf(u, sid, "risk", riskKeys);
    forall i | 0 <= i < |es|
      ensures RiskExact(u, sid, view, fs, es, i, platform,
                        RisksFor(u, sid, platform, view, es, uuids, obsByControl, |es|)[i])
    {
      ObservationsUnder(u, sid, fs, keys, obsByControl, es[i].relatedFindings);
    }
  }

  /** The risks, observations and findings of the result. */
  method BuildResults(parties: Parties, platform: string, component: string, view: Option<View>,
                      fs: seq<Finding>, es: seq<Evaluation>)
    returns (risks: seq<RiskOut>, observations: seq<ObservationOut>, findings: seq<FindingOut>, reviewers: seq<string>)
    requires parties.Valid()
    modifies parties
    ensures parties.Valid() && old(parties.names) <= parties.names
    ensures ResultsExact(parties.u, parties.sid, platform, component, view, fs, es, risks, observations, findings)
    ensures reviewers == ReviewersOfRisks(view, es) + ReviewersOfFindings(view, fs)
  {
    var u, sid := parties.u, parties.sid;
    var keys := OccurrenceKeys(ControlIds(fs));
    var obsUuids := UuidsOf(u, sid, "observation", keys);
    var obsByControl := GroupByControl(Singles(ControlIds(fs)), obsUuids);
    var riskKeys := OccurrenceKeys(DeficiencyIds(es));
    var riskUuids := UuidsOf(u, sid, "risk", riskKeys);
    var risksByControl := GroupByControl(RelatedOf(es), riskUuids);
    var decided: seq<string>;
    risks, decided := BuildRisks(parties, platform, view, es, riskUuids, obsByControl);
    observations := BuildObservations(u, sid, platform, component, fs, obsUuids);
    var reviewed := NameFindingReviewers(view, fs);
    findings := BuildFindings(u, sid, view, fs, keys, obsUuids, risksByControl);
    reviewers := decided + reviewed;
    RisksAreExact(u, sid, platform, view, fs, es, keys, riskKeys, obsByControl);
    forall k | 0 <= k < |findings|
      ensures FindingExact(u, sid, view, fs, es, Tested(view, fs)[k], findings[k])
    {
      RisksUnder(u, sid, es, riskKeys, risksByControl, fs[Tested(view, fs)[k]].controlId);
    }
  }

  // ---- Distinct identifiers ----------------------------------------------------

  lemma KeysApart(u: Namer, sid: string, kind: string, ids: seq<string>, i: nat, j: nat)
    requires NamesApart(u) && '/' !in kind && i < |ids| && j < |ids| && i != j
    ensures Element(u, sid, kind, KeyAt(ids, i)) != Element(u, sid, kind, KeyAt(ids, j))
  {
    KeysDistinct(ids, if i < j then i else j, if i < j then j else i);
    if Element(u, sid, kind, KeyAt(ids, i)) == Element(u, sid, kind, KeyAt(ids, j)) {
      ElementsDiffer(u, sid, kind, KeyAt(ids, i), kind, KeyAt(ids, j));
    }
  }

  lemma KindsApart(u: Namer, sid: string, kind1: string, key1: string, kind2: string, key2: string)
    requires NamesApart(u) && '/' !in kind1 && '/' !in kind2 && kind1 != kind2
    ensures Element(u, sid, kind1, key1) != Element(u, sid, kind2, key2)
  {
    if Element(u, sid, kind1, key1) == Element(u, sid, kind2, key2) {
      ElementsDiffer(u, sid, kind1, key1, kind2, key2);
    }
  }

  lemma KindsAreWords()
    ensures '/' !in "observation" && '/' !in "finding" && '/' !in "risk"
    ensures "observation" != "finding" && "observation" != "risk" && "finding" != "risk"
  {
    assert |"observation"| == 11 && |"finding"| == 7 && |"risk"| == 4;
  }

  /** The UUIDs the document uses for observations, findings and risks. */
  ghost predicate UuidsOk(u: Namer, sid: string, view: Option<View>, fs: seq<Finding>, es: seq<Evaluation>, d: Document)
  {
    && |d.observations| == |fs| && |d.risks| == |es| && |d.findings| == |Tested(view, fs)|
    && (forall i :: 0 <= i < |fs| ==>
          d.observations[i].uuid == Element(u, sid, "observation", KeyAt(ControlIds(fs), i)))
    && (forall i :: 0 <= i < |es| ==> d.risks[i].uuid == Element(u, sid, "risk", KeyAt(DeficiencyIds(es), i)))
    && (forall k :: 0 <= k < |d.findings| ==>
          && Tested(view, fs)[k] in Tested(view, fs)
          && d.findings[k].uuid == Element(u, sid, "finding", KeyAt(ControlIds(fs), Tested(view, fs)[k]))
          && d.findings[k].observation == d.observations[Tested(view, fs)[k]].uuid)
  }

  lemma SameKindApart(u: Namer, sid: string, view: Option<View>, fs: seq<Finding>, es: seq<Evaluation>, d: Document)
    requires NamesApart(u) && UuidsOk(u, sid, view, fs, es, d)
    ensures forall i, j :: 0 <= i < j < |d.observations| ==> d.observations[i].uuid != d.observations[j].uuid
    ensures forall i, j :: 0 <= i < j < |d.findings| ==> d.findings[i].uuid != d.findings[j].uuid
    ensures forall i, j :: 0 <= i < j < |d.risks| ==> d.risks[i].uuid != d.risks[j].uuid
  {
    KindsAreWords();
    forall i, j | 0 <= i < j < |d.observations|
      ensures d.observations[i].uuid != d.observations[j].uuid
    {
      KeysApart(u, sid, "observation", ControlIds(fs), i, j);
    }
    forall i, j | 0 <= i < j < |d.findings|
      ensures d.findings[i].uuid != d.findings[j].uuid
    {
      KeysApart(u, sid, "finding", ControlIds(fs), Tested(view, fs)[i], Tested(view, fs)[j]);
    }
    forall i, j | 0 <= i < j < |d.risks|
      ensures d.risks[i].uuid != d.risks[j].uuid
    {
      KeysApart(u, sid, "risk", DeficiencyIds(es), i, j);
    }
  }

  /** Observations, findings and risks have UUIDs of their own, also when control or deficiency ids repeat. */
  lemma AllApart(u: Namer, sid: string, view: Option<View>, fs: seq<Finding>, es: seq<Evaluation>, d: Document)
    requires NamesApart(u) && UuidsOk(u, sid, view, fs, es, d)
    ensures UuidsApart(d)
  {
    KindsAreWords();
    SameKindApart(u, sid, view, fs, es, d);
    var ids := ControlIds(fs);
    forall i, j | 0 <= i < |d.observations| && 0 <= j < |d.findings|
      ensures d.observations[i].uuid != d.findings[j].uuid
    {
      KindsApart(u, sid, "observation", KeyAt(ids, i), "finding", KeyAt(ids, Tested(view, fs)[j]));
    }
    forall i, j | 0 <= i < |d.observations| && 0 <= j < |d.risks|
      ensures d.observations[i].uuid != d.risks[j].uuid
    {
      KindsApart(u, sid, "observation", KeyAt(ids, i), "risk", KeyAt(DeficiencyIds(es), j));
    }
    forall i, j | 0 <= i < |d.findings| && 0 <= j < |d.risks|
      ensures d.findings[i].uuid != d.risks[j].uuid
    {
      KindsApart(u, sid, "finding", KeyAt(ids, Tested(view, fs)[i]), "risk", KeyAt(DeficiencyIds(es), j));
    }
  }

  predicate HasFinding(d: Document, i: nat)
    requires i < |d.observations|
  {
    exists k :: 0 <= k < |d.findings| && d.findings[k].observation == d.observations[i].uuid
  }

  /** An observation has a finding exactly when its result of record is not "Not tested". */
  lemma FindingIffTested(u: Namer, sid: string, view: Option<View>, fs: seq<Finding>, es: seq<Evaluation>, d: Document,
                         i: nat)
    requires NamesApart(u) && UuidsOk(u, sid, view, fs, es, d) && i < |fs|
    ensures HasFinding(d, i) <==> ResultOfRecord(view, fs[i]) != NotTested
  {
    var tested := Tested(view, fs);
    KindsAreWords();
    if HasFinding(d, i) {
      var k :| 0 <= k < |d.findings| && d.findings[k].observation == d.observations[i].uuid;
      if tested[k] != i {
        KeysApart(u, sid, "observation", ControlIds(fs), tested[k], i);
      }
    }
    if i in tested {
      var k :| 0 <= k < |tested| && tested[k] == i;
      assert d.findings[k].observation == d.observations[i].uuid;
    }
  }

  lemma AllTested(u: Namer, sid: string, view: Option<View>, fs: seq<Finding>, es: seq<Evaluation>, d: Document)
    requires NamesApart(u) && UuidsOk(u, sid, view, fs, es, d)
    ensures forall i :: 0 <= i < |fs| ==> (HasFinding(d, i) <==> ResultOfRecord(view, fs[i]) != NotTested)
  {
    forall i | 0 <= i < |fs|
      ensures HasFinding(d, i) <==> ResultOfRecord(view, fs[i]) != NotTested
    {
      FindingIffTested(u, sid, view, fs, es, d, i);
    }
  }
}

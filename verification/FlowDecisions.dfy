/** What a gate's decisions amount to, told from the drafts and the stored decisions themselves. */
module FlowDecisions {
  import opened Options
  import opened Schema
  import opened Records
  import opened Trail
  import opened Decisions
  import opened DecisionProofs
  import opened GateDecisions

  // ---- Key controls ------------------------------------------------------------

  /** Control `b` of risk `a` is the matrix's first with this id. */
  ghost predicate FirstControl(risks: seq<Risk>, id: string, a: nat, b: nat) {
    && a < |risks| && b < |risks[a].controls| && risks[a].controls[b].controlId == id
    && forall x: nat, y: nat :: x < |risks| && y < |risks[x].controls| && (x < a || (x == a && y < b)) ==>
         risks[x].controls[y].controlId != id
  }

  /** The matrix says that the control is a key control. */
  ghost predicate MarkedKey(ctx: Artifacts, id: string) {
    && ctx.racm.Some?
    && exists a: nat, b: nat ::
         && FirstControl(ctx.racm.value.risks, id, a, b)
         && ctx.racm.value.risks[a].controls[b].keyControl == Some(true)
  }

  lemma {:induction false} FlagInside(cs: seq<Control>, rest: seq<Control>, id: string, b: nat)
    requires b < |cs| && cs[b].controlId == id && forall y :: 0 <= y < b ==> cs[y].controlId != id
    ensures KeyFlag(cs + rest, id) == cs[b].keyControl
  {
    assert (cs + rest)[0] == cs[0] && (cs + rest)[1..] == cs[1..] + rest;
    if b > 0 {
      FlagInside(cs[1..], rest, id, b - 1);
    }
  }

  lemma {:induction false} FlagAfter(cs: seq<Control>, rest: seq<Control>, id: string)
    requires forall y :: 0 <= y < |cs| ==> cs[y].controlId != id
    ensures KeyFlag(cs + rest, id) == KeyFlag(rest, id)
  {
    if cs == [] {
      assert cs + rest == rest;
    } else {
      assert (cs + rest)[0] == cs[0] && (cs + rest)[1..] == cs[1..] + rest;
      FlagAfter(cs[1..], rest, id);
    }
  }

  lemma FirstLater(risks: seq<Risk>, id: string, a: nat, b: nat)
    requires risks != [] && forall y :: 0 <= y < |risks[0].controls| ==> risks[0].controls[y].controlId != id
    ensures FirstControl(risks, id, a + 1, b) <==> FirstControl(risks[1..], id, a, b)
  {
    if FirstControl(risks[1..], id, a, b) {
      forall x: nat, y: nat | x < |risks| && y < |risks[x].controls| && (x < a + 1 || (x == a + 1 && y < b))
        ensures risks[x].controls[y].controlId != id
      {
        if x > 0 {
          assert risks[1..][x - 1] == risks[x];
        }
      }
    }
    if FirstControl(risks, id, a + 1, b) {
      forall x: nat, y: nat | x < |risks[1..]| && y < |risks[1..][x].controls| && (x < a || (x == a && y < b))
        ensures risks[1..][x].controls[y].controlId != id
      {
        assert risks[1..][x] == risks[x + 1];
      }
    }
  }

  /** The flag looked up is that of the first control with the id. */
  lemma {:induction false} FlagOfFirst(risks: seq<Risk>, id: string, a: nat, b: nat)
    requires FirstControl(risks, id, a, b)
    ensures KeyFlag(ControlsOf(risks), id) == risks[a].controls[b].keyControl
    decreases a
  {
    if a == 0 {
      FlagInside(risks[0].controls, ControlsOf(risks[1..]), id, b);
    } else {
      FlagAfter(risks[0].controls, ControlsOf(risks[1..]), id);
      FirstLater(risks, id, a - 1, b);
      FlagOfFirst(risks[1..], id, a - 1, b);
    }
  }

  lemma {:induction false} FirstIndex(cs: seq<Control>, id: string) returns (b: nat)
    requires exists y :: 0 <= y < |cs| && cs[y].controlId == id
    ensures b < |cs| && cs[b].controlId == id && forall y :: 0 <= y < b ==> cs[y].controlId != id
  {
    if cs[0].controlId == id {
      b := 0;
    } else {
      var rest := FirstIndex(cs[1..], id);
      b := rest + 1;
    }
  }

  /** A control the matrix flags has its first place in it. */
  lemma {:induction false} FlaggedIsThere(risks: seq<Risk>, id: string) returns (a: nat, b: nat)
    requires KeyFlag(ControlsOf(risks), id).Some?
    ensures FirstControl(risks, id, a, b)
  {
    if exists y :: 0 <= y < |risks[0].controls| && risks[0].controls[y].controlId == id {
      a := 0;
      b := FirstIndex(risks[0].controls, id);
    } else {
      FlagAfter(risks[0].controls, ControlsOf(risks[1..]), id);
      var x, y := FlaggedIsThere(risks[1..], id);
      FirstLater(risks, id, x, y);
      a, b := x + 1, y;
    }
  }

  lemma KeyIsMarked(ctx: Artifacts, id: string)
    ensures KeyControl(ctx, id) == Some(true) <==> MarkedKey(ctx, id)
  {
    if KeyControl(ctx, id) == Some(true) {
      var a, b := FlaggedIsThere(ctx.racm.value.risks, id);
      FlagOfFirst(ctx.racm.value.risks, id, a, b);
    }
    if MarkedKey(ctx, id) {
      var a: nat, b: nat :| FirstControl(ctx.racm.value.risks, id, a, b)
                            && ctx.racm.value.risks[a].controls[b].keyControl == Some(true);
      FlagOfFirst(ctx.racm.value.risks, id, a, b);
    }
  }

  /** The view asks for a review of the draft's exceptions and of the findings on key controls. */
  lemma ReviewIsRequired(h: Hasher, ctx: Artifacts, ds: seq<Decision>, f: Finding)
    ensures ViewOfFinding(h, ctx, ds, f).reviewRequired
            <==> f.result == ExceptionFound || MarkedKey(ctx, f.controlId)
  {
    KeyIsMarked(ctx, f.controlId);
  }

  // ---- Decisions that stand ----------------------------------------------------

  /** Decision `k` was made on exactly this draft, and no later decision corrects it. */
  ghost predicate Stands(h: Hasher, ds: seq<Decision>, k: nat, draft: Artifact) {
    && k < |ds| && ds[k].draftDigest == ArtifactDigest(h, draft)
    && forall j :: 0 <= j < |ds| ==> ds[j].supersedes != Some(ds[k].id)
  }

  /** A decision of one of the types on this subject stands. */
  ghost predicate Judged(h: Hasher, ds: seq<Decision>, draft: Artifact, types: set<DecisionType>,
                         subjectType: SubjectType, id: string)
  {
    exists k: nat :: Stands(h, ds, k, draft) && ds[k].decisionType in types
                     && ds[k].subjectType == subjectType && ds[k].subjectId == id
  }

  /** A slot has an active decision exactly when a decision of its types stands on the current draft. */
  lemma JudgedIff(h: Hasher, ctx: Artifacts, ds: seq<Decision>, key: SlotKey, types: set<DecisionType>, draft: Artifact)
    requires Chained(ds) && forall t: DecisionType :: SlotOf(t) == key.slot <==> t in types
    requires Decidable(ctx, ArtifactFor(key.subjectType)) == Some(draft)
    ensures ActiveFor(h, ctx, ds, key).Some? <==> Judged(h, ds, draft, types, key.subjectType, key.subjectId)
  {
    var active := ActiveFor(h, ctx, ds, key);
    if active.Some? {
      var k: nat :| k < |ds| && ds[k] == active.value;
      assert Stands(h, ds, k, draft);
    }
    if Judged(h, ds, draft, types, key.subjectType, key.subjectId) {
      var k: nat :| Stands(h, ds, k, draft) && ds[k].decisionType in types
                    && ds[k].subjectType == key.subjectType && ds[k].subjectId == key.subjectId;
      assert ds[k] in ds && KeyOf(ds[k]) == key && StateOf(h, ctx, ds, ds[k]) == Active;
    }
  }

  const REVIEWS := {SignOff, Challenge}

  lemma ReviewJudgedIff(h: Hasher, ctx: Artifacts, ds: seq<Decision>, id: string)
    requires Chained(ds) && ctx.papers.Some?
    ensures ActiveFor(h, ctx, ds, ReviewKey(id)).Some?
            <==> Judged(h, ds, PapersA(ctx.papers.value), REVIEWS, FindingSubject, id)
  {
    JudgedIff(h, ctx, ds, ReviewKey(id), REVIEWS, PapersA(ctx.papers.value));
  }

  lemma TypeJudgedIff(h: Hasher, ctx: Artifacts, ds: seq<Decision>, t: DecisionType, subjectType: SubjectType,
                      id: string, draft: Artifact)
    requires Chained(ds) && t !in REVIEWS && Decidable(ctx, ArtifactFor(subjectType)) == Some(draft)
    ensures ActiveFor(h, ctx, ds, SlotKey(TypeSlot(t), subjectType, id)).Some?
            <==> Judged(h, ds, draft, {t}, subjectType, id)
  {
    JudgedIff(h, ctx, ds, SlotKey(TypeSlot(t), subjectType, id), {t}, draft);
  }

  // ---- What Gate 2 and Gate 3 need ---------------------------------------------

  /** Every exception, and every finding on a key control, was signed off or challenged. */
  ghost predicate FindingsReviewed(h: Hasher, ctx: Artifacts, ds: seq<Decision>) {
    && ctx.papers.Some?
    && forall i :: 0 <= i < |ctx.papers.value.findings| ==>
         var f := ctx.papers.value.findings[i];
         f.result == ExceptionFound || MarkedKey(ctx, f.controlId) ==>
           Judged(h, ds, PapersA(ctx.papers.value), {SignOff, Challenge}, FindingSubject, f.controlId)
  }

  /** Every deficiency of the report was classified by a reviewer. */
  ghost predicate DeficienciesClassified(h: Hasher, ctx: Artifacts, ds: seq<Decision>) {
    && ctx.report.Some?
    && forall i :: 0 <= i < |ctx.report.value.evaluations| ==>
         Judged(h, ds, ReportA(ctx.report.value), {Classify}, DeficiencySubject,
                ctx.report.value.evaluations[i].deficiencyId)
  }

  /** Every key control that is untested of record carries a scope limitation. */
  ghost predicate ScopesLimited(h: Hasher, ctx: Artifacts, ds: seq<Decision>) {
    && ctx.papers.Some? && EffectivePapers(h, ctx, ds).Some?
    && forall i :: 0 <= i < |ctx.papers.value.findings| ==>
         var id := ctx.papers.value.findings[i].controlId;
         MarkedKey(ctx, id) && EffectivePapers(h, ctx, ds).value.findings[i].result == NotTested ==>
           Judged(h, ds, PapersA(ctx.papers.value), {ScopeLimitation}, FindingSubject, id)
  }

  /** The reviewer concluded on the engagement. */
  ghost predicate EngagementConcluded(h: Hasher, ctx: Artifacts, ds: seq<Decision>) {
    && ctx.report.Some?
    && Judged(h, ds, ReportA(ctx.report.value), {EngagementConclusion}, EngagementSubject, "engagement")
  }

  ghost predicate GateNeedsMet(h: Hasher, ctx: Artifacts, ds: seq<Decision>, gate: nat) {
    && (gate == 2 ==> FindingsReviewed(h, ctx, ds))
    && (gate == 3 ==>
          DeficienciesClassified(h, ctx, ds) && ScopesLimited(h, ctx, ds) && EngagementConcluded(h, ctx, ds))
  }

  lemma NothingMissing(h: Hasher, ctx: Artifacts, ds: seq<Decision>, gate: nat)
    requires AtGate(ctx, gate)
    ensures MissingFor(h, ctx, ds, gate) == []
            <==> forall m :: Wanted(h, ctx, ds, gate, m) ==> !Unfilled(h, ctx, ds, m)
  {
    var missing := MissingFor(h, ctx, ds, gate);
    forall m
      ensures m in missing <==> Wanted(h, ctx, ds, gate, m) && Unfilled(h, ctx, ds, m)
    {
      MissingExactly(h, ctx, ds, gate, m);
    }
    if missing != [] {
      assert missing[0] in missing;
    }
  }

  /** A review is wanted of finding `i` exactly when it is an exception or on a key control. */
  lemma ReviewWanted(h: Hasher, ctx: Artifacts, ds: seq<Decision>, i: nat)
    requires ctx.papers.Some? && FindingIdsGood(ctx.papers.value.findings) && i < |ctx.papers.value.findings|
    requires Chained(ds)
    ensures var f := ctx.papers.value.findings[i];
            && (WantsReview(ctx, f.controlId) <==> f.result == ExceptionFound || MarkedKey(ctx, f.controlId))
            && (Unfilled(h, ctx, ds, ReviewItem(f.controlId))
                <==> !Judged(h, ds, PapersA(ctx.papers.value), REVIEWS, FindingSubject, f.controlId))
  {
    var f := ctx.papers.value.findings[i];
    FoundItself(ctx.papers.value.findings, i);
    KeyIsMarked(ctx, f.controlId);
    ReviewJudgedIff(h, ctx, ds, f.controlId);
  }

  lemma ReviewsMetIff(h: Hasher, ctx: Artifacts, ds: seq<Decision>)
    requires AtGate(ctx, 2) && Chained(ds)
    ensures (forall m :: Wanted(h, ctx, ds, 2, m) ==> !Unfilled(h, ctx, ds, m)) <==> FindingsReviewed(h, ctx, ds)
  {
    var fs := ctx.papers.value.findings;
    forall i | 0 <= i < |fs|
      ensures Wanted(h, ctx, ds, 2, ReviewItem(fs[i].controlId))
              <==> fs[i].result == ExceptionFound || MarkedKey(ctx, fs[i].controlId)
      ensures Unfilled(h, ctx, ds, ReviewItem(fs[i].controlId))
              <==> !Judged(h, ds, PapersA(ctx.papers.value), REVIEWS, FindingSubject, fs[i].controlId)
    {
      ReviewWanted(h, ctx, ds, i);
    }
    forall m | Wanted(h, ctx, ds, 2, m)
      ensures exists i :: 0 <= i < |fs| && m == ReviewItem(fs[i].controlId)
    {
      var i :| 0 <= i < |fs| && fs[i] == FindFinding(fs, m.subjectId).value;
    }
  }

  lemma ClassifyMetIff(h: Hasher, ctx: Artifacts, ds: seq<Decision>, i: nat)
    requires AtGate(ctx, 3) && Chained(ds) && i < |ctx.report.value.evaluations|
    ensures var id := ctx.report.value.evaluations[i].deficiencyId;
            && Wanted(h, ctx, ds, 3, ClassifyItem(id))
            && (Unfilled(h, ctx, ds, ClassifyItem(id))
                <==> !Judged(h, ds, ReportA(ctx.report.value), {Classify}, DeficiencySubject, id))
  {
    var es := ctx.report.value.evaluations;
    FoundEvaluation(es, i);
    TypeJudgedIff(h, ctx, ds, Classify, DeficiencySubject, es[i].deficiencyId, ReportA(ctx.report.value));
  }

  lemma ScopeMetIff(h: Hasher, ctx: Artifacts, ds: seq<Decision>, i: nat)
    requires AtGate(ctx, 3) && Chained(ds) && ctx.papers.Some? && PapersValid(ctx.papers.value)
    requires i < |ctx.papers.value.findings|
    ensures var id := ctx.papers.value.findings[i].controlId;
            && (Wanted(h, ctx, ds, 3, ScopeItem(id))
                <==> MarkedKey(ctx, id) && EffectivePapers(h, ctx, ds).value.findings[i].result == NotTested)
            && (Unfilled(h, ctx, ds, ScopeItem(id))
                <==> !Judged(h, ds, PapersA(ctx.papers.value), {ScopeLimitation}, FindingSubject, id))
  {
    var fs := ctx.papers.value.findings;
    FoundItself(fs, i);
    KeyIsMarked(ctx, fs[i].controlId);
    OverlayIsTheView(h, ctx, ds, i);
    TypeJudgedIff(h, ctx, ds, ScopeLimitation, FindingSubject, fs[i].controlId, PapersA(ctx.papers.value));
  }

  lemma ConclusionMetIff(h: Hasher, ctx: Artifacts, ds: seq<Decision>)
    requires AtGate(ctx, 3) && Chained(ds)
    ensures Wanted(h, ctx, ds, 3, CONCLUSION_ITEM)
    ensures Unfilled(h, ctx, ds, CONCLUSION_ITEM) <==> !EngagementConcluded(h, ctx, ds)
  {
    TypeJudgedIff(h, ctx, ds, EngagementConclusion, EngagementSubject, ENGAGEMENT, ReportA(ctx.report.value));
  }

  /** At Gate 3 the wanted items are those of the evaluations, of the findings, and the conclusion. */
  lemma WantedAtThree(h: Hasher, ctx: Artifacts, ds: seq<Decision>, m: MissingDecision)
    requires AtGate(ctx, 3) && ctx.papers.Some? && Wanted(h, ctx, ds, 3, m)
    ensures || m == CONCLUSION_ITEM
            || (exists i :: 0 <= i < |ctx.report.value.evaluations|
                            && m == ClassifyItem(ctx.report.value.evaluations[i].deficiencyId))
            || (exists i :: 0 <= i < |ctx.papers.value.findings|
                            && m == ScopeItem(ctx.papers.value.findings[i].controlId))
  {
    var fs, es := ctx.papers.value.findings, ctx.report.value.evaluations;
    if m == ClassifyItem(m.subjectId) {
      var i :| 0 <= i < |es| && es[i] == FindEvaluation(es, m.subjectId).value;
    } else if m == ScopeItem(m.subjectId) {
      var i :| 0 <= i < |fs| && fs[i] == FindFinding(fs, m.subjectId).value;
    }
  }

  lemma ReportMetIff(h: Hasher, ctx: Artifacts, ds: seq<Decision>)
    requires AtGate(ctx, 3) && Chained(ds) && ctx.papers.Some? && PapersValid(ctx.papers.value)
    ensures (forall m :: Wanted(h, ctx, ds, 3, m) ==> !Unfilled(h, ctx, ds, m)) <==> GateNeedsMet(h, ctx, ds, 3)
  {
    var fs, es := ctx.papers.value.findings, ctx.report.value.evaluations;
    ConclusionMetIff(h, ctx, ds);
    forall i | 0 <= i < |es|
      ensures Wanted(h, ctx, ds, 3, ClassifyItem(es[i].deficiencyId))
      ensures Unfilled(h, ctx, ds, ClassifyItem(es[i].deficiencyId))
              <==> !Judged(h, ds, ReportA(ctx.report.value), {Classify}, DeficiencySubject, es[i].deficiencyId)
    {
      ClassifyMetIff(h, ctx, ds, i);
    }
    forall i | 0 <= i < |fs|
      ensures Wanted(h, ctx, ds, 3, ScopeItem(fs[i].controlId))
              <==> MarkedKey(ctx, fs[i].controlId)
                   && EffectivePapers(h, ctx, ds).value.findings[i].result == NotTested
      ensures Unfilled(h, ctx, ds, ScopeItem(fs[i].controlId))
              <==> !Judged(h, ds, PapersA(ctx.papers.value), {ScopeLimitation}, FindingSubject, fs[i].controlId)
    {
      ScopeMetIff(h, ctx, ds, i);
    }
    forall m | Wanted(h, ctx, ds, 3, m)
      ensures || m == CONCLUSION_ITEM
              || (exists i :: 0 <= i < |es| && m == ClassifyItem(es[i].deficiencyId))
              || (exists i :: 0 <= i < |fs| && m == ScopeItem(fs[i].controlId))
    {
      WantedAtThree(h, ctx, ds, m);
    }
  }

  /** The missing list is empty exactly when the gate's needs are met. */
  lemma NothingMissingIff(h: Hasher, ctx: Artifacts, ds: seq<Decision>, gate: nat)
    requires AtGate(ctx, gate) && Chained(ds) && ctx.papers.Some? && PapersValid(ctx.papers.value)
    ensures MissingFor(h, ctx, ds, gate) == [] <==> GateNeedsMet(h, ctx, ds, gate)
  {
    NothingMissing(h, ctx, ds, gate);
    if gate == 2 {
      ReviewsMetIff(h, ctx, ds);
    } else {
      ReportMetIff(h, ctx, ds);
    }
  }
}

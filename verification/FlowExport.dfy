/** The effective view of the audit flow, as the gates and the OSCAL export read it. */
module FlowExport {
  import opened Options
  import opened Text
  import opened Schema
  import opened Records
  import opened Trail
  import opened Policy
  import opened Decisions
  import opened DecisionProofs
  import opened GateDecisions
  import opened Flow
  import opened FlowInvariant
  import opened FlowResults
  import opened FlowEffects
  import opened Oscal
  import opened OscalBuild

  // ---- Building the view -------------------------------------------------------

  /** `_finding_views`. */
  method BuildFindingViews(h: Hasher, ctx: Artifacts, ds: seq<Decision>) returns (views: seq<FindingView>)
    requires DistinctIds(ds)
    ensures views == FindingViews(h, ctx, ds, ContextFindings(ctx))
  {
    var active := ActiveBySlot(h, ctx, ds);
    assert forall key :: ActiveFor(h, ctx, ds, key) == Lookup(active, key);
    var fs := ContextFindings(ctx);
    views := [];
    var seen: set<string> := {};
    for i := 0 to |fs|
      invariant views == FindingViews(h, ctx, ds, fs[..i])
      invariant forall id :: id in seen <==> Seen(fs, i, id)
    {
      ViewStep(h, ctx, ds, fs, i);
      var f := fs[i];
      if f.controlId !in seen {
        var view := BuildView(h, ctx, ds, active, f);
        views := views + [view];
      }
      seen := seen + {f.controlId};
    }
    assert fs[..|fs|] == fs;
  }

  predicate Seen(fs: seq<Finding>, i: nat, id: string)
    requires i <= |fs|
  {
    exists k :: 0 <= k < i && fs[k].controlId == id
  }

  lemma ViewStep(h: Hasher, ctx: Artifacts, ds: seq<Decision>, fs: seq<Finding>, i: nat)
    requires i < |fs|
    ensures FindingViews(h, ctx, ds, fs[..i + 1])
            == FindingViews(h, ctx, ds, fs[..i])
               + if Seen(fs, i, fs[i].controlId) then [] else [ViewOfFinding(h, ctx, ds, fs[i])]
    ensures forall id :: Seen(fs, i + 1, id) <==> Seen(fs, i, id) || id == fs[i].controlId
  {
    assert fs[..i + 1][..i] == fs[..i];
    assert forall k :: 0 <= k < i ==> fs[..i + 1][k] == fs[k];
  }

  /** The view of one finding, from the active decisions. */
  method BuildView(h: Hasher, ctx: Artifacts, ds: seq<Decision>, active: map<SlotKey, Decision>, f: Finding)
    returns (view: FindingView)
    requires forall key :: ActiveFor(h, ctx, ds, key) == Lookup(active, key)
    ensures view == ViewOfFinding(h, ctx, ds, f)
  {
    var review := Lookup(active, ReviewKey(f.controlId));
    var flag := KeyControl(ctx, f.controlId);
    view := FindingView(f.controlId, flag, DraftConclusions(f), EffectiveConclusions(f, review), review,
                        Lookup(active, ScopeKey(f.controlId)), FindingNeedsReview(f.result, flag));
  }

  function Lookup(active: map<SlotKey, Decision>, key: SlotKey): Option<Decision> {
    if key in active then Some(active[key]) else None
  }

  /** `_missing` for Gate 2: the findings that need a sign-off or a challenge. */
  method FindMissingReviews(views: seq<FindingView>) returns (missing: seq<MissingDecision>)
    ensures missing == MissingReviews(views)
  {
    missing := [];
    for i := 0 to |views|
      invariant missing == MissingReviews(views[..i])
    {
      assert views[..i + 1][..i] == views[..i];
      if views[i].reviewRequired && views[i].review.None? {
        missing := missing + [MissingDecision(2, FindingSubject, views[i].controlId, [SignOff, Challenge])];
      }
    }
    assert views[..|views|] == views;
  }

  // ---- Exporting a reachable state ---------------------------------------------

  function ViewOf(env: Env, f: Flow): View {
    View(FindingViews(env.h, f.drafts, f.decisions, ContextFindings(f.drafts)),
         DeficiencyViews(env.h, f.drafts, f.decisions, ContextEvaluations(f.drafts)),
         ActiveFor(env.h, f.drafts, f.decisions, ENGAGEMENT_KEY))
  }

  lemma {:induction false} NonBlankLine(s: string)
    requires !Blank(s)
    ensures Line(s) != ""
  {
    assert Words(s) != [] && Words(s)[0] != "";
  }

  lemma ActiveIsNamed(h: Hasher, drafts: Artifacts, ds: seq<Decision>, key: SlotKey)
    requires DecisionsGood(h, ds)
    ensures NamedDecision(ActiveFor(h, drafts, ds, key))
  {
    var d := ActiveFor(h, drafts, ds, key);
    if d.Some? {
      var i :| 0 <= i < |ds| && ds[i] == d.value;
      assert Sound(h, ds[i]);
      NonBlankLine(d.value.decidedBy);
    }
  }

  lemma {:induction false} FindingViewFrom(h: Hasher, ctx: Artifacts, ds: seq<Decision>, fs: seq<Finding>,
                                           v: FindingView)
    requires v in FindingViews(h, ctx, ds, fs)
    ensures exists f :: f in fs && v == ViewOfFinding(h, ctx, ds, f)
  {
    var n := |fs| - 1;
    if v in FindingViews(h, ctx, ds, fs[..n]) {
      FindingViewFrom(h, ctx, ds, fs[..n], v);
    } else {
      assert fs[n] in fs;
    }
  }

  lemma {:induction false} DeficiencyViewFrom(h: Hasher, ctx: Artifacts, ds: seq<Decision>, es: seq<Evaluation>,
                                              v: DeficiencyView)
    requires v in DeficiencyViews(h, ctx, ds, es)
    ensures exists e :: e in es && v == ViewOfEvaluation(h, ctx, ds, e)
  {
    var n := |es| - 1;
    if v in DeficiencyViews(h, ctx, ds, es[..n]) {
      DeficiencyViewFrom(h, ctx, ds, es[..n], v);
    } else {
      assert es[n] in es;
    }
  }

  lemma {:induction false} FirstFindingIn(vs: seq<FindingView>, id: string)
    ensures FirstFinding(vs, id).Some? ==> FirstFinding(vs, id).value in vs
  {
    if vs != [] && vs[0].controlId != id {
      FirstFindingIn(vs[1..], id);
    }
  }

  lemma {:induction false} FirstDeficiencyIn(vs: seq<DeficiencyView>, id: string)
    ensures FirstDeficiency(vs, id).Some? ==> FirstDeficiency(vs, id).value in vs
  {
    if vs != [] && vs[0].deficiencyId != id {
      FirstDeficiencyIn(vs[1..], id);
    }
  }

  lemma FindingNamed(env: Env, f: Flow, id: string)
    requires DecisionsGood(env.h, f.decisions)
    ensures var v := FindingOf(Some(ViewOf(env, f)), id);
            v.Some? ==> NamedDecision(v.value.review) && NamedDecision(v.value.scope)
  {
    var vs := ViewOf(env, f).findings;
    FirstFindingIn(vs, id);
    var v := FirstFinding(vs, id);
    if v.Some? {
      FindingViewFrom(env.h, f.drafts, f.decisions, ContextFindings(f.drafts), v.value);
      ActiveIsNamed(env.h, f.drafts, f.decisions, ReviewKey(v.value.controlId));
      ActiveIsNamed(env.h, f.drafts, f.decisions, ScopeKey(v.value.controlId));
    }
  }

  lemma DeficiencyNamed(env: Env, f: Flow, id: string)
    requires DecisionsGood(env.h, f.decisions)
    ensures var v := DeficiencyOf(Some(ViewOf(env, f)), id);
            v.Some? ==>
              NamedDecision(v.value.classify) && NamedDecision(v.value.writeup) && NamedDecision(v.value.remediation)
  {
    var vs := ViewOf(env, f).deficiencies;
    FirstDeficiencyIn(vs, id);
    var v := FirstDeficiency(vs, id);
    if v.Some? {
      DeficiencyViewFrom(env.h, f.drafts, f.decisions, ContextEvaluations(f.drafts), v.value);
      ActiveIsNamed(env.h, f.drafts, f.decisions, DeficiencyKey(Classify, v.value.deficiencyId));
      ActiveIsNamed(env.h, f.drafts, f.decisions, DeficiencyKey(Writeup, v.value.deficiencyId));
      ActiveIsNamed(env.h, f.drafts, f.decisions, DeficiencyKey(RemediationVerification, v.value.deficiencyId));
    }
  }

  /**
   * The view of every reachable state names a reviewer wherever the export
   * refers to one, so the exported document is closed.
   */
  lemma ReachableViewIsNamed(env: Env, f: Flow)
    requires GoodDigest(env.h) && Reachable(env, f)
    ensures Named(Some(ViewOf(env, f)))
  {
    ReachableIsGood(env, f);
    forall id
      ensures var v := FindingOf(Some(ViewOf(env, f)), id);
              v.Some? ==> NamedDecision(v.value.review) && NamedDecision(v.value.scope)
    {
      FindingNamed(env, f, id);
    }
    forall id
      ensures var v := DeficiencyOf(Some(ViewOf(env, f)), id);
              v.Some? ==>
                NamedDecision(v.value.classify) && NamedDecision(v.value.writeup) && NamedDecision(v.value.remediation)
    {
      DeficiencyNamed(env, f, id);
    }
    ActiveIsNamed(env.h, f.drafts, f.decisions, ENGAGEMENT_KEY);
  }

  /** The export shows each finding's result of record: an exception exactly where the draft has one. */
  lemma ExportedResults(env: Env, f: Flow, i: nat)
    requires GoodDigest(env.h) && Reachable(env, f) && f.drafts.papers.Some? && i < |f.drafts.papers.value.findings|
    ensures var finding := f.drafts.papers.value.findings[i];
            && ResultOfRecord(Some(ViewOf(env, f)), finding)
               == EffectivePapers(env.h, f.drafts, f.decisions).value.findings[i].result
            && (ResultOfRecord(Some(ViewOf(env, f)), finding) == ExceptionFound <==> finding.result == ExceptionFound)
  {
    ReachableIsGood(env, f);
    var fs := f.drafts.papers.value.findings;
    OverlayStaysValid(env.h, f.drafts, f.decisions);
    OverlayIsTheView(env.h, f.drafts, f.decisions, i);
    ViewFound(env, f, fs, i);
  }

  lemma {:induction false} FirstFindingAt(vs: seq<FindingView>, i: nat)
    requires i < |vs| && forall j, k :: 0 <= j < k < |vs| ==> vs[j].controlId != vs[k].controlId
    ensures FirstFinding(vs, vs[i].controlId) == Some(vs[i])
  {
    if i > 0 {
      assert vs[0].controlId != vs[i].controlId;
      FirstFindingAt(vs[1..], i - 1);
    }
  }

  lemma ViewFound(env: Env, f: Flow, fs: seq<Finding>, i: nat)
    requires f.drafts.papers.Some? && fs == f.drafts.papers.value.findings && FindingIdsGood(fs) && i < |fs|
    ensures FindingOf(Some(ViewOf(env, f)), fs[i].controlId) == Some(ViewOfFinding(env.h, f.drafts, f.decisions, fs[i]))
  {
    ViewsOfDistinct(env.h, f.drafts, f.decisions, fs);
    FirstFindingAt(ViewOf(env, f).findings, i);
  }

  lemma {:induction false} FirstDeficiencyAt(vs: seq<DeficiencyView>, i: nat)
    requires i < |vs| && forall j, k :: 0 <= j < k < |vs| ==> vs[j].deficiencyId != vs[k].deficiencyId
    ensures FirstDeficiency(vs, vs[i].deficiencyId) == Some(vs[i])
  {
    if i > 0 {
      assert vs[0].deficiencyId != vs[i].deficiencyId;
      FirstDeficiencyAt(vs[1..], i - 1);
    }
  }

  lemma DeficiencyFound(env: Env, f: Flow, es: seq<Evaluation>, i: nat)
    requires f.drafts.report.Some? && es == f.drafts.report.value.evaluations && EvaluationIdsGood(es) && i < |es|
    ensures DeficiencyOf(Some(ViewOf(env, f)), es[i].deficiencyId)
            == Some(ViewOfEvaluation(env.h, f.drafts, f.decisions, es[i]))
  {
    EvaluationViewsOfDistinct(env.h, f.drafts, f.decisions, es);
    FirstDeficiencyAt(ViewOf(env, f).deficiencies, i);
  }

  // ---- Decisions reach the export ----------------------------------------------

  /** The view shows the decision where its type and its subject belong. */
  predicate Shows(view: View, d: Decision) {
    var fv, dv := FindingOf(Some(view), d.subjectId), DeficiencyOf(Some(view), d.subjectId);
    match d.decisionType
    case SignOff => fv.Some? && fv.value.review == Some(d)
    case Challenge => fv.Some? && fv.value.review == Some(d)
    case ScopeLimitation => fv.Some? && fv.value.scope == Some(d)
    case Classify => dv.Some? && dv.value.classify == Some(d)
    case Writeup => dv.Some? && dv.value.writeup == Some(d)
    case ManagementResponse => dv.Some? && dv.value.response == Some(d)
    case RemediationVerification => dv.Some? && dv.value.remediation == Some(d)
    case EngagementConclusion => view.conclusion == Some(d)
  }

  lemma FindingThere(env: Env, f: Flow, r: Request, newId: string, time: Clock) returns (i: nat)
    requires Built(env, f, r, newId, time).Accepted?
    requires Built(env, f, r, newId, time).value.subjectType == FindingSubject
    ensures f.drafts.papers.Some? && i < |f.drafts.papers.value.findings|
    ensures f.drafts.papers.value.findings[i].controlId == Built(env, f, r, newId, time).value.subjectId
  {
    var fs := ContextFindings(f.drafts);
    var found := FindFinding(fs, Built(env, f, r, newId, time).value.subjectId);
    i :| 0 <= i < |fs| && fs[i] == found.value;
  }

  lemma DeficiencyThere(env: Env, f: Flow, r: Request, newId: string, time: Clock) returns (i: nat)
    requires Built(env, f, r, newId, time).Accepted?
    requires Built(env, f, r, newId, time).value.subjectType == DeficiencySubject
    ensures f.drafts.report.Some? && i < |f.drafts.report.value.evaluations|
    ensures f.drafts.report.value.evaluations[i].deficiencyId == Built(env, f, r, newId, time).value.subjectId
  {
    var es := ContextEvaluations(f.drafts);
    var found := FindEvaluation(es, Built(env, f, r, newId, time).value.subjectId);
    i :| 0 <= i < |es| && es[i] == found.value;
  }

  /** An accepted decision is what the view shows for its subject from then on. */
  lemma DecisionIsShown(env: Env, f: Flow, r: Request, newId: string, time: Clock)
    requires GoodDigest(env.h) && Reachable(env, f) && newId != "" && !HasId(f.decisions, newId)
    requires Built(env, f, r, newId, time).Accepted?
    ensures Shows(ViewOf(env, RecordDecision(env, f, r, newId, time).0), Built(env, f, r, newId, time).value)
  {
    ReachableIsGood(env, f);
    GoodStateShows(env, f, r, newId, time);
  }

  lemma GoodStateShows(env: Env, f: Flow, r: Request, newId: string, time: Clock)
    requires Inv(env, f) && newId != "" && !HasId(f.decisions, newId) && Built(env, f, r, newId, time).Accepted?
    ensures Shows(ViewOf(env, RecordDecision(env, f, r, newId, time).0), Built(env, f, r, newId, time).value)
  {
    var g, d := RecordDecision(env, f, r, newId, time).0, Built(env, f, r, newId, time).value;
    DecidedState(env, f, r, newId, time, KeyOf(d));
    AcceptedAsAsked(env, f, r, newId, time);
    if d.subjectType == FindingSubject {
      var i := FindingThere(env, f, r, newId, time);
      ViewFound(env, g, g.drafts.papers.value.findings, i);
    } else if d.subjectType == DeficiencySubject {
      var i := DeficiencyThere(env, f, r, newId, time);
      DeficiencyFound(env, g, g.drafts.report.value.evaluations, i);
    }
  }
}

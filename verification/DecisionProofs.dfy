/** What validation guarantees about the stored decisions and the conclusions of record. */
module DecisionProofs {
  import opened Options
  import opened Text
  import opened Schema
  import opened Machine
  import opened Records
  import opened Trail
  import opened Policy
  import opened Decisions

  // ---- Supersession chains -----------------------------------------------------

  /** Decision `j` comes before `i` and is the one `i` corrects: same slot, same draft. */
  predicate Corrects(ds: seq<Decision>, i: nat, j: nat)
    requires i < |ds|
  {
    && j < i && ds[i].supersedes == Some(ds[j].id)
    && KeyOf(ds[j]) == KeyOf(ds[i]) && ds[j].draftDigest == ds[i].draftDigest
  }

  /** Every correction names an earlier decision of the same slot and draft. */
  ghost predicate CorrectionsLink(ds: seq<Decision>) {
    forall i :: 0 <= i < |ds| && ds[i].supersedes.Some? ==> exists j: nat :: Corrects(ds, i, j)
  }

  /** No decision is corrected twice. */
  predicate CorrectedOnce(ds: seq<Decision>) {
    forall i, j :: 0 <= i < j < |ds| && ds[i].supersedes.Some? ==> ds[i].supersedes != ds[j].supersedes
  }

  predicate SameChain(a: Decision, b: Decision) {
    KeyOf(a) == KeyOf(b) && a.draftDigest == b.draftDigest
  }

  /** Of two decisions on the same slot and draft, one is superseded. */
  predicate OneOpen(ds: seq<Decision>) {
    forall i, j :: 0 <= i < j < |ds| && SameChain(ds[i], ds[j]) ==>
      IsSuperseded(ds, ds[i].id) || IsSuperseded(ds, ds[j].id)
  }

  /** Per slot and draft, the decisions form one chain of corrections. */
  ghost predicate Chained(ds: seq<Decision>) {
    && DistinctIds(ds)
    && (forall i :: 0 <= i < |ds| ==> ds[i].id != "" && ds[i].artifact == ArtifactFor(ds[i].subjectType))
    && CorrectionsLink(ds) && CorrectedOnce(ds) && OneOpen(ds)
  }

  /** `d` was accepted on the current draft: it corrects the slot's active decision, if there is one. */
  predicate Enters(h: Hasher, ctx: Artifacts, ds: seq<Decision>, d: Decision) {
    && d.artifact == ArtifactFor(d.subjectType) && OnCurrentDraft(h, ctx, d)
    && var current := ActiveFor(h, ctx, ds, KeyOf(d));
       if current.None? then d.supersedes.None? else d.supersedes == Some(current.value.id)
  }

  ghost predicate Fresh(ds: seq<Decision>, id: string) {
    id != "" && !HasId(ds, id)
  }

  /** What an accepted decision is, in terms of the slot it enters. */
  lemma AcceptedShape(env: Env, ctx: Artifacts, status: AuditStatus, preparers: seq<string>, ds: seq<Decision>,
                      r: Request, newId: string, now: string, today: int)
    ensures var b := BuildDecision(env, ctx, status, preparers, ds, r, newId, now, today);
            b.Accepted? ==>
              var d := b.value;
              && d.id == newId && d.artifact == ArtifactFor(d.subjectType) && d.decidedAt == now
              && d.phase == PhaseFor(d.decisionType) && d.subjectType == SubjectFor(d.decisionType)
              && Enters(env.h, ctx, ds, d)
              && Recordable(d.decisionType, status) && !Blank(d.decidedBy)
              && (forall i :: 0 <= i < |preparers| ==>
                    !DecisionSodViolation(env.fold, d.decisionType, d.decidedBy, preparers[i]))
  {
    StripNotBlank(r.decidedBy);
  }

  lemma StripNotBlank(s: string)
    ensures Strip(s) != "" ==> !Blank(Strip(s))
  {
    var t := Strip(s);
    if t != "" {
      assert !IsSpace(t[|t| - 1]);
    }
  }

  /** A decision made on the current draft is active, or superseded. */
  lemma UnsupersededIsActive(h: Hasher, ctx: Artifacts, ds: seq<Decision>, d: Decision)
    requires OnCurrentDraft(h, ctx, d) && !IsSuperseded(ds, d.id)
    ensures StateOf(h, ctx, ds, d) == Active
  {
  }

  /** The decision that `d` corrects: the one open decision of its chain. */
  lemma CorrectedIsOpen(h: Hasher, ctx: Artifacts, ds: seq<Decision>, d: Decision) returns (c: nat)
    requires Chained(ds) && Enters(h, ctx, ds, d) && d.supersedes.Some?
    ensures c < |ds| && d.supersedes == Some(ds[c].id) && !IsSuperseded(ds, ds[c].id)
    ensures SameChain(ds[c], d)
  {
    var current := ActiveFor(h, ctx, ds, KeyOf(d));
    c :| 0 <= c < |ds| && ds[c] == current.value;
    assert OnCurrentDraft(h, ctx, ds[c]);
  }

  lemma LinksAfterAccept(h: Hasher, ctx: Artifacts, ds: seq<Decision>, d: Decision)
    requires Chained(ds) && Enters(h, ctx, ds, d)
    ensures CorrectionsLink(ds + [d])
  {
    var all, n := ds + [d], |ds|;
    if d.supersedes.Some? {
      var c := CorrectedIsOpen(h, ctx, ds, d);
      assert Corrects(all, n, c);
    }
    forall i | 0 <= i < n && all[i].supersedes.Some?
      ensures exists j: nat :: Corrects(all, i, j)
    {
      var j: nat :| Corrects(ds, i, j);
      assert Corrects(all, i, j);
    }
  }

  lemma OneOpenAfterAccept(h: Hasher, ctx: Artifacts, ds: seq<Decision>, d: Decision)
    requires Chained(ds) && Enters(h, ctx, ds, d)
    ensures OneOpen(ds + [d])
  {
    var all, n := ds + [d], |ds|;
    SupersededGrows(ds, d);
    forall i, j | 0 <= i < j < |all| && SameChain(all[i], all[j])
      ensures IsSuperseded(all, all[i].id) || IsSuperseded(all, all[j].id)
    {
      if j == n {
        UnsupersededInSlot(h, ctx, ds, d, i);
      } else {
        assert SameChain(ds[i], ds[j]);
      }
    }
  }

  /** Accepting a decision keeps the chains, whatever drafts it was made on. */
  lemma AcceptKeepsChains(h: Hasher, ctx: Artifacts, ds: seq<Decision>, d: Decision)
    requires Chained(ds) && Fresh(ds, d.id) && Enters(h, ctx, ds, d)
    ensures Chained(ds + [d])
  {
    LinksAfterAccept(h, ctx, ds, d);
    OneOpenAfterAccept(h, ctx, ds, d);
    OnceAfterAccept(h, ctx, ds, d);
    IdsStayDistinct(ds, d);
  }

  lemma OnceAfterAccept(h: Hasher, ctx: Artifacts, ds: seq<Decision>, d: Decision)
    requires Chained(ds) && Enters(h, ctx, ds, d)
    ensures CorrectedOnce(ds + [d])
  {
    if d.supersedes.Some? {
      var c := CorrectedIsOpen(h, ctx, ds, d);
      assert forall i :: 0 <= i < |ds| ==> ds[i].supersedes != d.supersedes;
    }
  }

  lemma IdsStayDistinct(ds: seq<Decision>, d: Decision)
    requires DistinctIds(ds) && Fresh(ds, d.id)
    ensures DistinctIds(ds + [d])
  {
    assert forall i :: 0 <= i < |ds| ==> ds[i].id != d.id;
  }

  lemma SupersededGrows(ds: seq<Decision>, d: Decision)
    ensures forall id :: IsSuperseded(ds + [d], id) <==> IsSuperseded(ds, id) || d.supersedes == Some(id)
  {
    var all := ds + [d];
    forall id
      ensures IsSuperseded(all, id) <==> IsSuperseded(ds, id) || d.supersedes == Some(id)
    {
      if IsSuperseded(ds, id) {
        var i :| 0 <= i < |ds| && ds[i].supersedes == Some(id);
        assert all[i].supersedes == Some(id);
      }
      if d.supersedes == Some(id) {
        assert all[|ds|].supersedes == Some(id);
      }
    }
  }

  /** The only un-superseded decision of the slot on this draft is the one `d` corrects. */
  lemma UnsupersededInSlot(h: Hasher, ctx: Artifacts, ds: seq<Decision>, d: Decision, i: nat)
    requires Chained(ds) && i < |ds|
    requires Enters(h, ctx, ds, d) && SameChain(ds[i], d)
    ensures IsSuperseded(ds + [d], ds[i].id)
  {
    SupersededGrows(ds, d);
    if !IsSuperseded(ds, ds[i].id) {
      UnsupersededIsActive(h, ctx, ds, ds[i]);
      var current := ActiveFor(h, ctx, ds, KeyOf(d));
      assert ds[i] in ds;
      assert current.Some?;
      var c :| 0 <= c < |ds| && ds[c] == current.value;
      assert OnCurrentDraft(h, ctx, ds[c]) && !IsSuperseded(ds, ds[c].id);
      assert c == i;
    }
  }

  /**
   * In every slot at most one decision is active, whatever the drafts are now:
   * also after a re-draft that returns to an earlier text.
   */
  lemma OneActivePerSlot(h: Hasher, ctx: Artifacts, ds: seq<Decision>, i: nat, j: nat)
    requires Chained(ds) && i < |ds| && j < |ds|
    requires KeyOf(ds[i]) == KeyOf(ds[j])
    requires StateOf(h, ctx, ds, ds[i]) == Active && StateOf(h, ctx, ds, ds[j]) == Active
    ensures i == j
  {
    assert ds[i].draftDigest == ds[j].draftDigest;
    assert SameChain(ds[i], ds[j]) && SameChain(ds[j], ds[i]);
  }

  /** How one accepted decision changes the active decision of every slot. */
  lemma ActiveAfterAccept(h: Hasher, ctx: Artifacts, ds: seq<Decision>, d: Decision, key: SlotKey)
    requires Chained(ds) && Fresh(ds, d.id) && Enters(h, ctx, ds, d)
    ensures ActiveFor(h, ctx, ds + [d], key) == if key == KeyOf(d) then Some(d) else ActiveFor(h, ctx, ds, key)
  {
    var all := ds + [d];
    assert all[..|ds|] == ds && all[|ds|] == d;
    if key == KeyOf(d) {
      NewIsActive(h, ctx, ds, d);
    } else {
      OthersUnmoved(h, ctx, ds, d, key);
      ActiveInSame(h, ctx, all, ds, ds, key);
    }
  }

  /** Nothing supersedes the new decision. */
  lemma NewIsActive(h: Hasher, ctx: Artifacts, ds: seq<Decision>, d: Decision)
    requires Chained(ds) && Fresh(ds, d.id) && Enters(h, ctx, ds, d)
    ensures StateOf(h, ctx, ds + [d], d) == Active
  {
    SupersededGrows(ds, d);
    NeverNamed(ds, d.id);
    if d.supersedes.Some? {
      var c := CorrectedIsOpen(h, ctx, ds, d);
    }
  }

  lemma NeverNamed(ds: seq<Decision>, id: string)
    requires CorrectionsLink(ds) && !HasId(ds, id)
    ensures !IsSuperseded(ds, id)
  {
    forall i | 0 <= i < |ds|
      ensures ds[i].supersedes != Some(id)
    {
      if ds[i].supersedes.Some? {
        var j: nat :| Corrects(ds, i, j);
      }
    }
  }

  /** The states of the decisions of other slots stay. */
  lemma OthersUnmoved(h: Hasher, ctx: Artifacts, ds: seq<Decision>, d: Decision, key: SlotKey)
    requires Chained(ds) && Enters(h, ctx, ds, d) && key != KeyOf(d)
    ensures forall x :: x in ds && KeyOf(x) == key ==> StateOf(h, ctx, ds + [d], x) == StateOf(h, ctx, ds, x)
  {
    SupersededGrows(ds, d);
    forall x | x in ds && KeyOf(x) == key
      ensures d.supersedes != Some(x.id)
    {
      if d.supersedes.Some? {
        var c := CorrectedIsOpen(h, ctx, ds, d);
        var i :| 0 <= i < |ds| && ds[i] == x;
      }
    }
  }

  /** Only the states of a slot's own decisions matter to its active decision. */
  lemma {:induction false} ActiveInSame(h: Hasher, ctx: Artifacts, all1: seq<Decision>, all2: seq<Decision>,
                                        part: seq<Decision>, key: SlotKey)
    requires forall x :: x in part && KeyOf(x) == key ==> StateOf(h, ctx, all1, x) == StateOf(h, ctx, all2, x)
    ensures ActiveIn(h, ctx, all1, part, key) == ActiveIn(h, ctx, all2, part, key)
  {
    if part != [] {
      ActiveInSame(h, ctx, all1, all2, part[..|part| - 1], key);
    }
  }

  // ---- Decisions respect the draft they judged ---------------------------------

  /** The changes of a challenge withdraw a positive conclusion of this finding, or change nothing. */
  predicate ChallengeWithin(f: Finding, v: Values) {
    && v.ChallengeValues?
    && (v.tod.Some? ==> f.tod == DesignEffective && v.tod.value == DesignNotTested)
    && (v.toe.Some? ==> f.toe == OperatingEffective && v.toe.value == OperatingNotTested)
  }

  /** The classification is on the report's scale, when known, and above the floor. */
  predicate ClassifyWithin(r: Report, v: Values) {
    && v.ClassifyValues?
    && (r.scale.Some? ==> OnScale(v.classification, r.scale.value))
    && AboveFloor(v.classification, v.likelihood, v.magnitude)
  }

  /** Somebody decided it, and on any draft with the digest it names it is within policy. */
  ghost predicate Sound(h: Hasher, d: Decision) {
    && !Blank(d.decidedBy)
    && (d.decisionType == Challenge ==>
          forall p: Papers :: ArtifactDigest(h, PapersA(p)) == d.draftDigest ==>
            var f := FindFinding(p.findings, d.subjectId);
            f.Some? && ChallengeWithin(f.value, d.values))
    && (d.decisionType == Classify ==>
          forall r: Report :: ArtifactDigest(h, ReportA(r)) == d.draftDigest ==> ClassifyWithin(r, d.values))
    && (d.decisionType == SignOff ==> d.values == NoValues)
  }

  lemma SameArtifact(h: Hasher, a: Artifact, b: Artifact)
    requires Injective(h) && ArtifactDigest(h, a) == ArtifactDigest(h, b)
    ensures a == b
  {
    assert h(Sha(CanonArtifact(a))) == h(Sha(CanonArtifact(b)));
  }

  lemma AcceptedIsSound(env: Env, ctx: Artifacts, status: AuditStatus, preparers: seq<string>, ds: seq<Decision>,
                        r: Request, newId: string, now: string, today: int)
    requires Injective(env.h)
    ensures var b := BuildDecision(env, ctx, status, preparers, ds, r, newId, now, today);
            b.Accepted? ==> Sound(env.h, b.value)
  {
    var b := BuildDecision(env, ctx, status, preparers, ds, r, newId, now, today);
    AcceptedShape(env, ctx, status, preparers, ds, r, newId, now, today);
    if b.Accepted? && b.value.decisionType == Challenge {
      AcceptedChallenge(env, ctx, status, preparers, ds, r, newId, now, today);
      forall p: Papers | ArtifactDigest(env.h, PapersA(p)) == b.value.draftDigest
        ensures p == ctx.papers.value
      {
        SameArtifact(env.h, PapersA(p), PapersA(ctx.papers.value));
      }
    } else if b.Accepted? && b.value.decisionType == Classify {
      AcceptedClassify(env, ctx, status, preparers, ds, r, newId, now, today);
      forall x: Report | ArtifactDigest(env.h, ReportA(x)) == b.value.draftDigest
        ensures x == ctx.report.value
      {
        SameArtifact(env.h, ReportA(x), ReportA(ctx.report.value));
      }
    }
  }

  lemma AcceptedChallenge(env: Env, ctx: Artifacts, status: AuditStatus, preparers: seq<string>, ds: seq<Decision>,
                          r: Request, newId: string, now: string, today: int)
    ensures var b := BuildDecision(env, ctx, status, preparers, ds, r, newId, now, today);
            b.Accepted? && b.value.decisionType == Challenge ==>
              && ctx.papers.Some? && b.value.draftDigest == ArtifactDigest(env.h, PapersA(ctx.papers.value))
              && var f := FindFinding(ctx.papers.value.findings, b.value.subjectId);
                 f.Some? && ChallengeWithin(f.value, b.value.values)
  {
  }

  lemma AcceptedClassify(env: Env, ctx: Artifacts, status: AuditStatus, preparers: seq<string>, ds: seq<Decision>,
                         r: Request, newId: string, now: string, today: int)
    ensures var b := BuildDecision(env, ctx, status, preparers, ds, r, newId, now, today);
            b.Accepted? && b.value.decisionType == Classify ==>
              && ctx.report.Some? && b.value.draftDigest == ArtifactDigest(env.h, ReportA(ctx.report.value))
              && ClassifyWithin(ctx.report.value, b.value.values)
  {
  }

  // ---- The overlay keeps the drafts valid --------------------------------------

  /** A withdrawn conclusion never adds or removes an exception, nor tests an untested control. */
  lemma WithdrawalKeepsException(f: Finding, v: Values)
    requires Consistent(f) && ChallengeWithin(f, v)
    ensures var result := DeriveResult(OrElse(v.tod, f.tod), OrElse(v.toe, f.toe), f.exceptions);
            && (result == ExceptionFound <==> f.result == ExceptionFound)
            && (f.result == NotTested ==> result == NotTested)
  {
  }

  lemma {:induction false} FoundItself(fs: seq<Finding>, i: nat)
    requires i < |fs| && forall j, k :: 0 <= j < k < |fs| ==> fs[j].controlId != fs[k].controlId
    ensures FindFinding(fs, fs[i].controlId) == Some(fs[i])
  {
    if i > 0 {
      assert fs[0].controlId != fs[i].controlId;
      FoundItself(fs[1..], i - 1);
    }
  }

  /** The active review of a finding of the current papers respects that finding. */
  lemma ActiveReviewWithin(h: Hasher, ctx: Artifacts, ds: seq<Decision>, f: Finding)
    requires ctx.papers.Some? && FindFinding(ctx.papers.value.findings, f.controlId) == Some(f)
    requires Chained(ds) && forall i :: 0 <= i < |ds| ==> Sound(h, ds[i])
    ensures var review := ActiveFor(h, ctx, ds, ReviewKey(f.controlId));
            review.Some? && review.value.decisionType == Challenge ==> ChallengeWithin(f, review.value.values)
  {
    var review := ActiveFor(h, ctx, ds, ReviewKey(f.controlId));
    if review.Some? && review.value.decisionType == Challenge {
      var i :| 0 <= i < |ds| && ds[i] == review.value;
      assert Sound(h, ds[i]);
    }
  }

  /**
   * The working papers handed to reporting pass the schema's own consistency
   * rule, although the overlay bypasses the validator; and a finding is an
   * exception of record exactly when the draft says so.
   */
  lemma OverlayStaysValid(h: Hasher, ctx: Artifacts, ds: seq<Decision>)
    requires ctx.papers.Some? && PapersValid(ctx.papers.value) && FindingIdsGood(ctx.papers.value.findings)
    requires Chained(ds) && forall i :: 0 <= i < |ds| ==> Sound(h, ds[i])
    ensures PapersValid(EffectivePapers(h, ctx, ds).value)
    ensures forall i :: 0 <= i < |ctx.papers.value.findings| ==>
              && EffectivePapers(h, ctx, ds).value.findings[i].controlId == ctx.papers.value.findings[i].controlId
              && (EffectivePapers(h, ctx, ds).value.findings[i].result == ExceptionFound
                  <==> ctx.papers.value.findings[i].result == ExceptionFound)
  {
    var fs := ctx.papers.value.findings;
    forall i | 0 <= i < |fs|
      ensures var o := Overlaid(h, ctx, ds, fs, fs[i]);
              Consistent(o) && o.controlId == fs[i].controlId
              && (o.result == ExceptionFound <==> fs[i].result == ExceptionFound)
    {
      FoundItself(fs, i);
      ActiveReviewWithin(h, ctx, ds, fs[i]);
      var review := ActiveFor(h, ctx, ds, ReviewKey(fs[i].controlId));
      if review.Some? && review.value.decisionType == Challenge {
        WithdrawalKeepsException(fs[i], review.value.values);
      }
    }
  }

  /** The overlay shows exactly the conclusions of record. */
  lemma OverlayIsTheView(h: Hasher, ctx: Artifacts, ds: seq<Decision>, i: nat)
    requires ctx.papers.Some? && FindingIdsGood(ctx.papers.value.findings) && i < |ctx.papers.value.findings|
    requires PapersValid(ctx.papers.value)
    ensures DraftConclusions(EffectivePapers(h, ctx, ds).value.findings[i])
            == ViewOfFinding(h, ctx, ds, ctx.papers.value.findings[i]).effective
  {
    var fs := ctx.papers.value.findings;
    FoundItself(fs, i);
    assert Consistent(fs[i]);
  }

  // ---- Classifications of record -----------------------------------------------

  lemma {:induction false} FoundEvaluation(es: seq<Evaluation>, i: nat)
    requires i < |es| && forall j, k :: 0 <= j < k < |es| ==> es[j].deficiencyId != es[k].deficiencyId
    ensures FindEvaluation(es, es[i].deficiencyId) == Some(es[i])
  {
    if i > 0 {
      assert es[0].deficiencyId != es[i].deficiencyId;
      FoundEvaluation(es[1..], i - 1);
    }
  }

  /** An active classification is within the report it was made on. */
  lemma ActiveClassification(h: Hasher, ctx: Artifacts, ds: seq<Decision>, id: string)
    requires ctx.report.Some? && Chained(ds) && forall i :: 0 <= i < |ds| ==> Sound(h, ds[i])
    ensures var active := ActiveFor(h, ctx, ds, DeficiencyKey(Classify, id));
            active.Some? ==> ClassifyWithin(ctx.report.value, active.value.values)
  {
    var active := ActiveFor(h, ctx, ds, DeficiencyKey(Classify, id));
    if active.Some? {
      var i :| 0 <= i < |ds| && ds[i] == active.value;
      assert Sound(h, ds[i]) && ds[i].decisionType == Classify;
    }
  }

  /** Every classification of record is on the report's scale, when known, and above the Material Weakness floor. */
  lemma ClassificationsOfRecord(h: Hasher, ctx: Artifacts, ds: seq<Decision>, e: Evaluation)
    requires ctx.report.Some? && ReportValid(ctx.report.value) && e in ctx.report.value.evaluations
    requires Chained(ds) && forall i :: 0 <= i < |ds| ==> Sound(h, ds[i])
    ensures var c := ViewOfEvaluation(h, ctx, ds, e).effective;
            && AboveFloor(c.classification, c.likelihood, c.magnitude)
            && (ctx.report.value.scale.Some? ==> OnScale(c.classification, ctx.report.value.scale.value))
  {
    ActiveClassification(h, ctx, ds, e.deficiencyId);
  }
}

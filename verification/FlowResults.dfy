/** What holds in every state, and of every completed run, of the audit flow. */
module FlowResults {
  import opened Options
  import opened Text
  import opened Schema
  import opened Machine
  import opened Records
  import opened Trail
  import opened Decisions
  import opened DecisionProofs
  import opened Flow
  import opened FlowInvariant

  /** A new audit, right after its preparer was recorded. */
  ghost predicate Starts(env: Env, start: Flow) {
    exists preparer: string, required: bool, source: IdentitySource, now: string ::
      !Blank(preparer) && start == Created(env, preparer, required, source, now)
  }

  lemma StartIsGood(env: Env, start: Flow)
    requires ProperDigest(env.h) && Starts(env, start)
    ensures Inv(env, start) && start.runs == []
  {
    var preparer: string, required: bool, source: IdentitySource, now: string :|
      !Blank(preparer) && start == Created(env, preparer, required, source, now);
    CreatedIsGood(env, preparer, required, source, now);
  }

  /** A state some run reaches, from the audit's creation on. */
  ghost predicate Reachable(env: Env, f: Flow) {
    exists start: Flow, ops: seq<Op> :: Starts(env, start) && Legit(env, start, ops) && f == Exec(env, start, ops)
  }

  predicate RunIdsDistinct(runs: seq<Run>) {
    forall i, j :: 0 <= i < j < |runs| ==> runs[i].info.runId != runs[j].info.runId
  }

  lemma GenerateRecordsOnce(f: Flow, phase: Phase, crew: CrewRun)
    ensures var runs := Generate(f, phase, crew).0.runs;
            runs == f.runs || (crew.start.Some? && |runs| == |f.runs| + 1 && runs[..|f.runs|] == f.runs
                               && runs[|f.runs|].info == crew.start.value)
  {
    if crew.start.Some? {
      RunPhaseRecordsOnce(f, phase, crew.start.value, crew);
      RunPhaseRecordsOnce(f.(qaReason := None), phase, crew.start.value, crew);
      RunPhaseRecordsOnce(f.(status := RunningPhase(1), qaReason := None), phase, crew.start.value, crew);
    }
  }

  lemma RunPhaseRecordsOnce(f: Flow, phase: Phase, info: Provenance, crew: CrewRun)
    ensures var runs := RunPhase(f, phase, info, crew).runs;
            |runs| == |f.runs| + 1 && runs[..|f.runs|] == f.runs && runs[|f.runs|].info == info
  {
  }

  lemma OthersRecordNoRun(env: Env, f: Flow, op: Op)
    requires !op.DoGenerate?
    ensures Do(env, f, op).0.runs == f.runs
  {
  }

  lemma DoKeepsRunIds(env: Env, f: Flow, op: Op)
    requires OpOk(f, op) && RunIdsDistinct(f.runs)
    ensures RunIdsDistinct(Do(env, f, op).0.runs)
  {
    if op.DoGenerate? {
      GenerateRecordsOnce(f, op.phase, op.crew);
      OneMoreId(f.runs, Generate(f, op.phase, op.crew).0.runs);
    } else {
      OthersRecordNoRun(env, f, op);
    }
  }

  lemma OneMoreId(runs: seq<Run>, more: seq<Run>)
    requires RunIdsDistinct(runs)
    requires more == runs || (|more| == |runs| + 1 && more[..|runs|] == runs
                              && forall i :: 0 <= i < |runs| ==> runs[i].info.runId != more[|runs|].info.runId)
    ensures RunIdsDistinct(more)
  {
    assert forall i :: 0 <= i < |runs| ==> more[..|runs|][i] == more[i];
  }

  lemma {:induction false} RunIdsStayDistinct(env: Env, f: Flow, ops: seq<Op>)
    requires Legit(env, f, ops) && RunIdsDistinct(f.runs)
    ensures RunIdsDistinct(Exec(env, f, ops).runs)
  {
    if ops != [] {
      RunIdsStayDistinct(env, f, ops[..|ops| - 1]);
      DoKeepsRunIds(env, Exec(env, f, ops[..|ops| - 1]), ops[|ops| - 1]);
    }
  }

  lemma ReachableIsGood(env: Env, f: Flow)
    requires GoodDigest(env.h) && Reachable(env, f)
    ensures Inv(env, f) && RunIdsDistinct(f.runs)
  {
    var start: Flow, ops: seq<Op> :| Starts(env, start) && Legit(env, start, ops) && f == Exec(env, start, ops);
    StartIsGood(env, start);
    GoodFrom(env, start, ops);
  }

  lemma GoodFrom(env: Env, start: Flow, ops: seq<Op>)
    requires GoodDigest(env.h) && Inv(env, start) && RunIdsDistinct(start.runs) && Legit(env, start, ops)
    ensures Inv(env, Exec(env, start, ops)) && RunIdsDistinct(Exec(env, start, ops).runs)
  {
    RunKeeps(env, start, ops);
    RunIdsStayDistinct(env, start, ops);
  }

  // ---- Drafts come from the latest run -----------------------------------------

  /** At every gate the draft is what the latest run of the phase left there. */
  lemma GateShowsLatestDraft(env: Env, f: Flow)
    requires GoodDigest(env.h) && Reachable(env, f) && f.status.WaitingGate?
    ensures var n := f.status.phase;
            var r := LatestRun(f.runs, n);
            && r.Some? && r.value.output.Some? && r.value.output == Current(f.drafts, NameOf(n))
            && r.value.outcome in {QaApproved, QaRejected}
  {
    ReachableIsGood(env, f);
    assert Reviewable(f.status, f.status.phase);
  }

  lemma OverriddenDraft(f: Flow, phase: Phase)
    requires RunsHold(f) && f.status == QaRejectedPhase(phase)
    ensures MadeByLatestRun(f, phase)
  {
    assert Reviewable(f.status, phase);
  }

  /** An override accepts the draft of the latest run, never an older one. */
  lemma OverrideAcceptsLatestDraft(env: Env, f: Flow, phase: Phase, human: string, reason: string,
                                   source: Option<IdentitySource>, verified: Verified, now: string)
    requires GoodDigest(env.h) && Reachable(env, f)
    requires OverrideQa(env, f, phase, human, reason, source, verified, now).1.None?
    ensures var g := OverrideQa(env, f, phase, human, reason, source, verified, now).0;
            var r := LatestRun(f.runs, phase);
            && r.Some? && r.value.outcome in {QaApproved, QaRejected} && r.value.output.Some?
            && g.trail[|f.trail|].body.event.Overridden?
            && g.trail[|f.trail|].body.event.artifactDigest == ArtifactDigest(env.h, r.value.output.value)
            && g.trail[|f.trail|].body.event.run == Some(r.value.info)
  {
    ReachableIsGood(env, f);
    OverriddenDraft(f, phase);
  }

  /** Run `j`, and no other, is the one the approval `e` names: it made the artifact the approval seals. */
  ghost predicate NamesMaker(h: Hasher, e: Event, runs: seq<Run>, j: nat) {
    && e.GateApproval? && e.run.Some? && j < |runs| && runs[j].info == e.run.value
    && runs[j].phase == e.gate && runs[j].output.Some?
    && e.artifactDigest == ArtifactDigest(h, runs[j].output.value)
    && forall k :: 0 <= k < |runs| && runs[k].info.runId == e.run.value.runId ==> k == j
  }

  lemma MakerOf(env: Env, f: Flow, i: nat) returns (j: nat)
    requires RunsHold(f) && ApprovalsNameRuns(env.h, f) && RunIdsDistinct(f.runs)
    requires i < |f.trail| && f.trail[i].body.event.GateApproval?
    ensures NamesMaker(env.h, f.trail[i].body.event, f.runs, j)
  {
    var e := f.trail[i].body.event;
    assert Reviewable(f.status, e.gate);
    assert MadeByLatestRun(f, e.gate);
    j :| 0 <= j < |f.runs| && f.runs[j] == LatestRun(f.runs, e.gate).value;
  }

  /** Every approval names a run, and exactly one: the run of its phase that made the sealed artifact. */
  lemma ApprovalNamesMaker(env: Env, f: Flow, i: nat) returns (j: nat)
    requires GoodDigest(env.h) && Reachable(env, f)
    requires i < |f.trail| && f.trail[i].body.event.GateApproval?
    ensures NamesMaker(env.h, f.trail[i].body.event, f.runs, j)
  {
    ReachableIsGood(env, f);
    j := MakerOf(env, f, i);
  }

  // ---- Crews fail closed -------------------------------------------------------

  /** The finding's quote verifies; without a quote it must say that something was not tested. */
  predicate QuoteStands(f: Finding, verified: Verified) {
    if Blank(f.quote) then f.result == NotTested || f.toe == OperatingNotTested
    else Quote(f.vaultId, f.quote) in verified
  }

  /** The attempt was approved, and for fieldwork every quote was verified. */
  predicate Approved(phase: nat, a: Attempt) {
    && a.Finished? && a.qa.Verdict? && a.qa.approved
    && (phase == 2 && ParsedOutput(a).Some? ==>
          a.checkError.None? && forall i :: 0 <= i < |FindingsOf(ParsedOutput(a).value)| ==>
            QuoteStands(FindingsOf(ParsedOutput(a).value)[i], a.verified))
  }

  lemma {:induction false} AllVerified(fs: seq<Finding>, verified: Verified)
    ensures UnverifiedIn(fs, verified) == [] <==> forall i :: 0 <= i < |fs| ==> QuoteStands(fs[i], verified)
  {
    if fs != [] {
      AllVerified(fs[..|fs| - 1], verified);
    }
  }

  lemma EvidenceReasonIsText(phase: nat, output: Option<Artifact>, checkError: Option<string>, verified: Verified)
    ensures var r := EvidenceRejection(phase, output, checkError, verified);
            r.Some? ==> r.value != ""
  {
    assert |EVIDENCE_FAILED| > 0;
  }

  lemma QaReasonIsText(qa: QaOutput)
    ensures QaRejection(qa).Some? ==> QaRejection(qa).value != ""
  {
    assert |QA_UNPARSEABLE_REASON| > 0 && |QA_NO_REASON| > 0;
  }

  /** The linter, if it ran, has nothing to say. */
  predicate NoLint(a: Attempt)
    requires a.Finished?
  {
    a.lint.None? || a.lint.value == ""
  }

  lemma EvidenceRejectionIff(phase: nat, a: Attempt)
    requires a.Finished?
    ensures EvidenceRejection(phase, ParsedOutput(a), a.checkError, a.verified).None?
            <==> (phase == 2 && ParsedOutput(a).Some? ==>
                    a.checkError.None? && forall i :: 0 <= i < |FindingsOf(ParsedOutput(a).value)| ==>
                      QuoteStands(FindingsOf(ParsedOutput(a).value)[i], a.verified))
  {
    if ParsedOutput(a).Some? {
      AllVerified(FindingsOf(ParsedOutput(a).value), a.verified);
    }
  }

  /** An attempt is not rejected exactly when it was approved and the linter is silent. */
  lemma NotRejectedIsApproved(phase: nat, a: Attempt)
    requires a.Finished?
    ensures Rejection(phase, a).None? <==> Approved(phase, a) && NoLint(a)
  {
    QaReasonIsText(a.qa);
    EvidenceReasonIsText(phase, ParsedOutput(a), a.checkError, a.verified);
    EvidenceRejectionIff(phase, a);
  }

  lemma PassedIsApproved(phase: Phase, crew: CrewRun) returns (a: Attempt)
    requires EndOf(phase, crew).CrewPassed?
    ensures a == crew.first || a == crew.second
    ensures Approved(phase, a) && EndOf(phase, crew).output == ParsedOutput(a)
  {
    a := if Rejection(phase, crew.first).None? then crew.first else crew.second;
    NotRejectedIsApproved(phase, a);
  }

  lemma RunPhaseToGate(f: Flow, phase: Phase, info: Provenance, crew: CrewRun)
    requires RunPhase(f, phase, info, crew).status == WaitingGate(phase)
    ensures EndOf(phase, crew).CrewPassed? && EndOf(phase, crew).output.Some?
    ensures Current(RunPhase(f, phase, info, crew).drafts, NameOf(phase)) == EndOf(phase, crew).output
  {
  }

  /** A crew brings a phase to its gate only with an approved, valid draft of its own. */
  lemma GateNeedsApproval(f: Flow, phase: Phase, crew: CrewRun) returns (a: Attempt)
    requires Generate(f, phase, crew).1.None? && Generate(f, phase, crew).0.status == WaitingGate(phase)
    ensures a == crew.first || a == crew.second
    ensures Approved(phase, a) && ParsedOutput(a).Some?
    ensures Current(Generate(f, phase, crew).0.drafts, NameOf(phase)) == ParsedOutput(a)
  {
    var begun := if phase == 1 && f.status == WaitingForScope then f.(status := RunningPhase(1)) else f;
    RunPhaseToGate(begun.(qaReason := None), phase, crew.start.value, crew);
    a := PassedIsApproved(phase, crew);
  }

  // ---- How a phase run ends ----------------------------------------------------

  /** The attempt that counts: the second, when the first was finished and rejected. */
  function Counting(phase: Phase, crew: CrewRun): Attempt {
    if crew.first.Finished? && !(Approved(phase, crew.first) && NoLint(crew.first)) then crew.second else crew.first
  }

  predicate Accepts(phase: Phase, a: Attempt) {
    a.Finished? && Approved(phase, a) && NoLint(a)
  }

  predicate Delivers(phase: Phase, a: Attempt) {
    Accepts(phase, a) && ParsedOutput(a).Some? && OfPhase(ParsedOutput(a).value, phase)
  }

  /** What a phase run comes to, by its attempts. */
  ghost predicate EndsAs(f: Flow, phase: Phase, crew: CrewRun, end: CrewEnd) {
    var last := Counting(phase, crew);
    && (end.CrewPassed? <==> Accepts(phase, last))
    && (end.CrewRejected? <==> crew.first.Finished? && last.Finished? && !Accepts(phase, last))
    && (end.CrewCrashed? <==> last.Crashed?)
    && (end.CrewPassed? ==> end.output == ParsedOutput(last))
    && (end.CrewRejected? ==> last == crew.second && end.output == ParsedOutput(last))
    && (!end.CrewRejected? ==> end.attempts == if last == crew.first && (crew.first.Crashed? || Accepts(phase, last))
                                               then 1 else 2)
  }

  lemma CrewEndsAs(f: Flow, phase: Phase, crew: CrewRun)
    ensures EndsAs(f, phase, crew, EndOf(phase, crew))
  {
    if crew.first.Finished? {
      NotRejectedIsApproved(phase, crew.first);
    }
    if crew.second.Finished? {
      NotRejectedIsApproved(phase, crew.second);
    }
  }

  /** The inputs a phase works on are there. */
  predicate InputsThere(f: Flow, phase: Phase) {
    (phase == 2 ==> f.drafts.racm.Some?) && (phase == 3 ==> f.drafts.papers.Some?)
  }

  /** The draft of the phase is `draft`, and the other drafts are as before. */
  predicate OnlyDraft(f: Flow, g: Flow, phase: Phase, draft: Option<Artifact>) {
    && Current(g.drafts, NameOf(phase)) == draft
    && forall p: Phase :: p != phase ==> Current(g.drafts, NameOf(p)) == Current(f.drafts, NameOf(p))
  }

  /** A phase that ran, by the attempt that counted. */
  ghost predicate RanAs(f: Flow, g: Flow, phase: Phase, crew: CrewRun) {
    var last := Counting(phase, crew);
    && |g.runs| == |f.runs| + 1 && g.runs[..|f.runs|] == f.runs && crew.start == Some(g.runs[|f.runs|].info)
    && g.trail == f.trail && g.decisions == f.decisions && g.runs[|f.runs|].phase == phase
    && (if Delivers(phase, last) then
          g.status == WaitingGate(phase) && OnlyDraft(f, g, phase, ParsedOutput(last))
          && g.runs[|f.runs|].outcome == QaApproved
        else if last.Finished? && !Accepts(phase, last) then
          g.status == QaRejectedPhase(phase) && g.qaReason.Some? && g.runs[|f.runs|].outcome == QaRejected
          && OnlyDraft(f, g, phase, if ParsedOutput(last).Some? && OfPhase(ParsedOutput(last).value, phase)
                                    then ParsedOutput(last) else None)
        else
          g.status == ErrorPhase(phase) && g.qaReason.Some? && g.drafts == f.drafts
          && g.runs[|f.runs|].outcome == Errored)
  }

  lemma EndedAs(f: Flow, phase: Phase, info: Provenance, crew: CrewRun)
    requires crew.start == Some(info) && EndsAs(f, phase, crew, EndOf(phase, crew))
    ensures RanAs(f, RunPhase(f, phase, info, crew), phase, crew)
  {
  }

  /** When a started phase reaches its gate, when it is rejected, and when it ends in error. */
  lemma RunEndsBy(f: Flow, phase: Phase, crew: CrewRun)
    requires f.status == RunningPhase(phase) && Generate(f, phase, crew).1.None?
    ensures var g := Generate(f, phase, crew).0;
            if InputsThere(f, phase) then RanAs(f, g, phase, crew)
            else g.status == ErrorPhase(phase) && g.drafts == f.drafts && g.runs == f.runs
  {
    if InputsThere(f, phase) {
      CrewEndsAs(f.(qaReason := None), phase, crew);
      EndedAs(f.(qaReason := None), phase, crew.start.value, crew);
    }
  }

  // ---- Evidence at Gate 2 ------------------------------------------------------

  lemma {:induction false} UnverifiedAreFindings(fs: seq<Finding>, verified: Verified)
    requires forall i :: 0 <= i < |fs| ==> fs[i].controlId != ""
    ensures forall u :: u in UnverifiedIn(fs, verified) ==>
              exists i :: 0 <= i < |fs| && fs[i].controlId == u && !EvidenceOk(fs[i], verified)
  {
    if fs != [] {
      var init := fs[..|fs| - 1];
      UnverifiedAreFindings(init, verified);
      forall u | u in UnverifiedIn(init, verified)
        ensures exists i :: 0 <= i < |fs| && fs[i].controlId == u && !EvidenceOk(fs[i], verified)
      {
        var i :| 0 <= i < |init| && init[i].controlId == u && !EvidenceOk(init[i], verified);
        assert fs[i] == init[i];
      }
    }
  }

  /** The override that `_accepted_unverified` reads. */
  lemma {:induction false} AcceptingEntry(trail: seq<Entry>, digest: string, id: string) returns (j: nat)
    requires id in AcceptedIn(trail, digest)
    ensures j < |trail| && trail[j].body.event.Overridden?
    ensures trail[j].body.event.phase == 2 && trail[j].body.event.artifactDigest == digest
    ensures id != "" && id in SplitOn(trail[j].body.event.unverifiedControls, ',')
  {
    var last := |trail| - 1;
    var e := trail[last].body.event;
    if e.Overridden? && e.phase == 2 && e.artifactDigest == digest {
      j := last;
    } else {
      j := AcceptingEntry(trail[..last], digest, id);
    }
  }

  /** An override entry accepts this control of exactly these papers, as unverified when it was made. */
  ghost predicate AcceptsControl(h: Hasher, e: Event, p: Papers, id: string) {
    && e.Overridden? && e.phase == 2
    && exists verified: Verified :: NamesUnverified(h, e, p, verified) && id in UnverifiedIn(p.findings, verified)
  }

  /** Reading the list back from the override gives the controls that were joined into it. */
  lemma ReadBack(fs: seq<Finding>, verified: Verified, id: string)
    requires FindingIdsGood(fs) && id != "" && id in SplitOn(Join(UnverifiedIn(fs, verified), ','), ',')
    ensures id in UnverifiedIn(fs, verified)
  {
    var ids := UnverifiedIn(fs, verified);
    UnverifiedAreFindings(fs, verified);
    if ids != [] {
      forall k | 0 <= k < |ids|
        ensures ',' !in ids[k]
      {
        assert ids[k] in ids;
      }
      SplitOfJoin(ids, ',');
    }
  }

  /** An approval of Gate 2 leaves out no finding that fails and was not accepted. */
  lemma FailsOnlyIfAccepted(env: Env, f: Flow, human: string, source: Option<IdentitySource>, verified: Verified,
                            i: nat)
    requires ApprovalRefusal(env, f, 2, human, source, verified).None?
    requires f.drafts.papers.Some? && i < |f.drafts.papers.value.findings|
    requires f.drafts.papers.value.findings[i].controlId != ""
             && !EvidenceOk(f.drafts.papers.value.findings[i], verified)
    ensures f.drafts.papers.value.findings[i].controlId
            in AcceptedIn(f.trail, ArtifactDigest(env.h, PapersA(f.drafts.papers.value)))
  {
    var id := f.drafts.papers.value.findings[i].controlId;
    assert id in Unverified(f, verified);
    var listed := Without(Unverified(f, verified), AcceptedUnverified(env, f));
    assert |listed| == 0;
    assert id !in listed;
  }

  /** What `_accepted_unverified` reads was named by an override of exactly these papers. */
  lemma AcceptedMeansNamed(h: Hasher, trail: seq<Entry>, p: Papers, id: string)
    requires Injective(h) && OverridesHonest(h, trail) && FindingIdsGood(p.findings)
    requires id in AcceptedIn(trail, ArtifactDigest(h, PapersA(p)))
    ensures exists j :: 0 <= j < |trail| && AcceptsControl(h, trail[j].body.event, p, id)
  {
    var j := AcceptingEntry(trail, ArtifactDigest(h, PapersA(p)), id);
    var e := trail[j].body.event;
    var q: Papers, then_: Verified :| NamesUnverified(h, e, q, then_);
    SameArtifact(h, PapersA(q), PapersA(p));
    ReadBack(p.findings, then_, id);
    assert AcceptsControl(h, e, p, id);
  }

  /** The finding's evidence passes, or an override of exactly these papers named it. */
  ghost predicate EvidenceAccounted(h: Hasher, trail: seq<Entry>, p: Papers, verified: Verified, i: nat)
    requires i < |p.findings|
  {
    || QuoteStands(p.findings[i], verified)
    || exists j :: 0 <= j < |trail| && AcceptsControl(h, trail[j].body.event, p, p.findings[i].controlId)
  }

  lemma ApprovedHasPapers(env: Env, f: Flow, human: string, source: Option<IdentitySource>, verified: Verified)
    requires ApprovalRefusal(env, f, 2, human, source, verified).None?
    ensures f.drafts.papers.Some?
  {
  }

  /**
   * Whenever Gate 2 is approved, every finding passes the evidence check at
   * that moment, or a Fieldwork override of exactly these papers named it.
   */
  lemma GateTwoEvidence(env: Env, f: Flow, human: string, source: Option<IdentitySource>, verified: Verified,
                        now: string)
    requires GoodDigest(env.h) && Reachable(env, f)
    requires Approve(env, f, 2, human, source, verified, now).1.None?
    ensures f.drafts.papers.Some?
    ensures forall i :: 0 <= i < |f.drafts.papers.value.findings| ==>
              EvidenceAccounted(env.h, f.trail, f.drafts.papers.value, verified, i)
  {
    ReachableIsGood(env, f);
    ApprovedHasPapers(env, f, human, source, verified);
    forall i | 0 <= i < |f.drafts.papers.value.findings|
      ensures EvidenceAccounted(env.h, f.trail, f.drafts.papers.value, verified, i)
    {
      if !QuoteStands(f.drafts.papers.value.findings[i], verified) {
        FailsOnlyIfAccepted(env, f, human, source, verified, i);
        AcceptedMeansNamed(env.h, f.trail, f.drafts.papers.value, f.drafts.papers.value.findings[i].controlId);
      }
    }
  }

  lemma {:induction false} UnverifiedAreNamed(fs: seq<Finding>, verified: Verified)
    ensures "" !in UnverifiedIn(fs, verified)
  {
    if fs != [] {
      UnverifiedAreNamed(fs[..|fs| - 1], verified);
      assert |"finding #"| > 0;
    }
  }

  /** What a comma list reads back as. */
  function ReadAs(controls: string): set<string> {
    set c | c in SplitOn(controls, ',') && c != ""
  }

  /** A list of names is read back as it was written exactly when no name holds a comma. */
  lemma ReadBackIff(ids: seq<string>)
    requires "" !in ids
    ensures ReadAs(Join(ids, ',')) == (set c | c in ids) <==> forall i :: 0 <= i < |ids| ==> ',' !in ids[i]
  {
    if ids == [] {
      assert SplitOn("", ',') == [""];
    } else if forall i :: 0 <= i < |ids| ==> ',' !in ids[i] {
      SplitOfJoin(ids, ',');
    } else {
      var i :| 0 <= i < |ids| && ',' in ids[i];
      assert ids[i] in (set c | c in ids);
      assert ids[i] !in ReadAs(Join(ids, ','));
    }
  }

  lemma ReadFromOverride(env: Env, f: Flow, human: string, reason: string, source: Option<IdentitySource>,
                         verified: Verified, now: string)
    requires OverrideQa(env, f, 2, human, reason, source, verified, now).1.None?
    ensures AcceptedUnverified(env, OverrideQa(env, f, 2, human, reason, source, verified, now).0)
            == ReadAs(Join(Unverified(f, verified), ','))
  {
    var body := Body(Strip(human), now, source.value, OverrideEvent(env, f, 2, reason, verified));
    AppendParts(env.h, env.key, f.trail, body);
  }

  /**
   * After a Fieldwork override the accepted controls are those that failed
   * then, exactly when no failed control's id holds a comma.
   */
  lemma OverrideReadsBackIff(env: Env, f: Flow, human: string, reason: string, source: Option<IdentitySource>,
                             verified: Verified, now: string)
    requires OverrideQa(env, f, 2, human, reason, source, verified, now).1.None?
    ensures var g := OverrideQa(env, f, 2, human, reason, source, verified, now).0;
            var failed := Unverified(f, verified);
            AcceptedUnverified(env, g) == (set c | c in failed)
            <==> forall i :: 0 <= i < |failed| ==> ',' !in failed[i]
  {
    UnverifiedAreNamed(ContextFindings(f.drafts), verified);
    ReadFromOverride(env, f, human, reason, source, verified, now);
    ReadBackIff(Unverified(f, verified));
  }

  /** After an override that named only "A,B", the control "A" is accepted, which nobody named, and "A,B" is not. */
  lemma CommaMisreads(env: Env, f: Flow, human: string, reason: string, source: Option<IdentitySource>,
                      verified: Verified, now: string)
    requires OverrideQa(env, f, 2, human, reason, source, verified, now).1.None? && Unverified(f, verified) == ["A,B"]
    ensures var accepted := AcceptedUnverified(env, OverrideQa(env, f, 2, human, reason, source, verified, now).0);
            "A" in accepted && "A,B" !in accepted
  {
    ReadFromOverride(env, f, human, reason, source, verified, now);
    SplitAfterPlain("A", ',', "B");
    SplitOfPlain("B", ',');
    assert "A" + [','] + "B" == "A,B";
    assert SplitOn("A,B", ',')[0] == "A";
  }

  // ---- Conclusions of record ---------------------------------------------------

  /** In every state the papers handed to reporting are valid, and the overlay moves no exception. */
  lemma OverlayAlwaysValid(env: Env, f: Flow)
    requires GoodDigest(env.h) && Reachable(env, f) && f.drafts.papers.Some?
    ensures var p := EffectivePapers(env.h, f.drafts, f.decisions).value;
            && PapersValid(p) && |p.findings| == |f.drafts.papers.value.findings|
            && forall i :: 0 <= i < |p.findings| ==>
                 (p.findings[i].result == ExceptionFound
                  <==> f.drafts.papers.value.findings[i].result == ExceptionFound)
  {
    ReachableIsGood(env, f);
    OverlayStaysValid(env.h, f.drafts, f.decisions);
  }

  /** A classification on the report's scale, and a Material Weakness only when it is likely enough and large. */
  predicate ClassificationFits(scale: Option<Scale>, c: Classification, likelihood: Rating, magnitude: Rating) {
    && (scale == Some(Icfr) ==> c in {ControlDeficiency, SignificantDeficiency, MaterialWeakness, NotADeficiency})
    && (scale == Some(RiskRating) ==> c in {Low, Medium, High, NotADeficiency})
    && (c == MaterialWeakness ==> likelihood in {RatingMedium, RatingHigh} && magnitude == RatingHigh)
  }

  lemma FitsWhen(scale: Option<Scale>, c: Classification, likelihood: Rating, magnitude: Rating)
    requires AboveFloor(c, likelihood, magnitude) && (scale.Some? ==> OnScale(c, scale.value))
    ensures ClassificationFits(scale, c, likelihood, magnitude)
  {
  }

  /** In every state each classification of record is on the known scale and above the floor. */
  lemma ClassificationsAlwaysOnScale(env: Env, f: Flow, e: Evaluation)
    requires GoodDigest(env.h) && Reachable(env, f) && f.drafts.report.Some? && e in f.drafts.report.value.evaluations
    ensures var c := ViewOfEvaluation(env.h, f.drafts, f.decisions, e).effective;
            ClassificationFits(f.drafts.report.value.scale, c.classification, c.likelihood, c.magnitude)
  {
    ReachableIsGood(env, f);
    ClassificationsOfRecord(env.h, f.drafts, f.decisions, e);
    var c := ViewOfEvaluation(env.h, f.drafts, f.decisions, e).effective;
    FitsWhen(f.drafts.report.value.scale, c.classification, c.likelihood, c.magnitude);
  }

  /** In every state, and for whatever drafts, a slot has at most one active decision. */
  lemma AlwaysOneActive(env: Env, f: Flow, drafts: Artifacts, i: nat, j: nat)
    requires GoodDigest(env.h) && Reachable(env, f) && i < |f.decisions| && j < |f.decisions|
    requires KeyOf(f.decisions[i]) == KeyOf(f.decisions[j])
    requires StateOf(env.h, drafts, f.decisions, f.decisions[i]) == Active
    requires StateOf(env.h, drafts, f.decisions, f.decisions[j]) == Active
    ensures i == j
  {
    ReachableIsGood(env, f);
    OneActivePerSlot(env.h, drafts, f.decisions, i, j);
  }
}

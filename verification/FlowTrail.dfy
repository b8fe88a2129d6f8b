/** In every run the trail verifies, and it verifies only for the run's own drafts and decisions. */
module FlowTrail {
  import opened Options
  import opened Text
  import opened Schema
  import opened Machine
  import opened Records
  import opened Trail
  import opened TrailProofs
  import opened Decisions
  import opened DecisionProofs
  import opened Flow
  import opened FlowInvariant

  // ---- Reading the difference lists --------------------------------------------

  lemma {:induction false} NoneChanged(h: Hasher, trail: seq<Entry>, a: Artifacts, ds: Option<seq<Decision>>,
                                       names: seq<ArtifactName>)
    requires forall k :: 0 <= k < |names| ==> LatestApproval(trail, names[k]).Some?
    ensures ChangedIn(h, trail, a, ds, names) == []
            <==> forall k :: 0 <= k < |names| ==>
                   !ApprovalBroken(h, LatestApproval(trail, names[k]).value, Current(a, names[k]), ds)
  {
    if names != [] {
      NoneChanged(h, trail, a, ds, names[..|names| - 1]);
    }
  }

  predicate Recorded(h: Hasher, trail: seq<Entry>, d: Decision) {
    RecordedDigest(trail, d.id) == Some(DecisionDigest(h, d))
  }

  lemma {:induction false} NoneEdited(h: Hasher, trail: seq<Entry>, ds: seq<Decision>)
    ensures StoredProblems(h, trail, ds) == [] <==> forall i :: 0 <= i < |ds| ==> Recorded(h, trail, ds[i])
  {
    if ds != [] {
      NoneEdited(h, trail, ds[..|ds| - 1]);
    }
  }

  lemma {:induction false} NoneRemoved(ids: seq<string>, ds: seq<Decision>)
    ensures RemovedProblems(ids, ds) == [] <==> forall k :: 0 <= k < |ids| ==> HasId(ds, ids[k])
  {
    if ids != [] {
      NoneRemoved(ids[..|ids| - 1], ds);
    }
  }

  lemma {:induction false} DigestOnlyIfListed(trail: seq<Entry>, id: string)
    ensures RecordedDigest(trail, id).Some? ==> id in RecordedOnce(trail)
  {
    if trail != [] {
      DigestOnlyIfListed(trail[..|trail| - 1], id);
    }
  }

  // ---- The decisions of a run --------------------------------------------------

  lemma SameDecision(h: Hasher, a: Decision, b: Decision)
    requires Injective(h) && DecisionDigest(h, a) == DecisionDigest(h, b)
    ensures a == b
  {
    assert h(Sha(CanonDecision(a))) == h(Sha(CanonDecision(b)));
  }

  /** A decision the trail records is one of the run's. */
  lemma RecordedIsOurs(h: Hasher, trail: seq<Entry>, ds: seq<Decision>, d: Decision)
    requires Injective(h) && RecordsMatch(h, trail, ds)
    ensures Recorded(h, trail, d) <==> d in ds
  {
    if Recorded(h, trail, d) {
      DigestOnlyIfListed(trail, d.id);
      var i :| 0 <= i < |ds| && Ids(ds)[i] == d.id;
      SameDecision(h, d, ds[i]);
    }
  }

  predicate SameMembers(a: seq<Decision>, b: seq<Decision>) {
    (forall i :: 0 <= i < |a| ==> a[i] in b) && (forall i :: 0 <= i < |b| ==> b[i] in a)
  }

  /** The stored decisions match the trail exactly when they are the run's decisions. */
  lemma DecisionsMatchIff(h: Hasher, trail: seq<Entry>, ds: seq<Decision>, stored: seq<Decision>)
    requires Injective(h) && RecordsMatch(h, trail, ds) && DistinctIds(ds)
    ensures DecisionsChanged(h, trail, stored) == [] <==> SameMembers(stored, ds)
  {
    NoneEdited(h, trail, stored);
    NoneRemoved(Ids(ds), stored);
    forall i | 0 <= i < |stored|
      ensures Recorded(h, trail, stored[i]) <==> stored[i] in ds
    {
      RecordedIsOurs(h, trail, ds, stored[i]);
    }
    if forall i :: 0 <= i < |stored| ==> stored[i] in ds {
      forall i | 0 <= i < |ds|
        ensures HasId(stored, ds[i].id) <==> ds[i] in stored
      {
        IdMeansMember(ds, stored, i);
      }
    }
  }

  lemma IdMeansMember(ds: seq<Decision>, stored: seq<Decision>, i: nat)
    requires DistinctIds(ds) && i < |ds| && forall j :: 0 <= j < |stored| ==> stored[j] in ds
    ensures HasId(stored, ds[i].id) <==> ds[i] in stored
  {
    if HasId(stored, ds[i].id) {
      var j :| 0 <= j < |stored| && stored[j].id == ds[i].id;
      var k :| 0 <= k < |ds| && ds[k] == stored[j];
      assert k == i;
    }
    if ds[i] in stored {
      var j :| 0 <= j < |stored| && stored[j] == ds[i];
    }
  }

  // ---- The seals of a run ------------------------------------------------------

  /** Looking sealed decisions up by id gives them back. */
  lemma {:induction false} GatherFinds(ds: seq<Decision>, stored: seq<Decision>, xs: seq<Decision>, ids: seq<string>)
    requires DistinctIds(ds) && SameMembers(stored, ds)
    requires |ids| == |xs| && forall i :: 0 <= i < |xs| ==> xs[i] in ds && ids[i] == xs[i].id
    ensures Gather(stored, ids) == Some(xs)
  {
    if xs != [] {
      var i :| 0 <= i < |ds| && ds[i] == xs[0];
      assert ds[i] in stored;
      var found := ById(stored, ids[0]).value;
      var j :| 0 <= j < |stored| && stored[j] == found;
      var k :| 0 <= k < |ds| && ds[k] == found;
      assert k == i;
      GatherFinds(ds, stored, xs[1..], ids[1..]);
      assert xs == [xs[0]] + xs[1..];
    }
  }

  lemma {:induction false} PhaseDecisionsWithin(ds: seq<Decision>, phase: nat)
    ensures forall i :: 0 <= i < |PhaseDecisions(ds, phase)| ==> PhaseDecisions(ds, phase)[i] in ds
  {
    if ds != [] {
      PhaseDecisionsWithin(ds[..|ds| - 1], phase);
      assert ds == ds[..|ds| - 1] + [ds[|ds| - 1]];
    }
  }

  /** With the run's decisions stored, a gate's seal is broken exactly when its artifact differs. */
  lemma SealBrokenIff(h: Hasher, drafts: Artifacts, ds: seq<Decision>, n: Phase, a: Approval,
                      stored: seq<Decision>, current: Option<Artifact>)
    requires Injective(h) && DistinctIds(ds) && SameMembers(stored, ds) && Sealed(h, drafts, ds, n, a)
    ensures ApprovalBroken(h, a, current, Some(stored)) <==> current != Current(drafts, NameOf(n))
  {
    var sealed := Current(drafts, NameOf(n)).value;
    if current.Some? && ArtifactDigest(h, current.value) == a.digest {
      SameArtifact(h, current.value, sealed);
    }
    if n != 1 {
      var k: nat :| SealsDecisions(h, ds, n, a, k);
      var xs := PhaseDecisions(ds[..k], n);
      PhaseDecisionsWithin(ds[..k], n);
      GatherFinds(ds, stored, xs, a.ids);
    }
  }

  /** The approved drafts are as they were approved. */
  predicate ApprovedSame(s: AuditStatus, a: Artifacts, b: Artifacts) {
    forall n: Phase :: n <= GatesPassed(s) ==> Current(a, NameOf(n)) == Current(b, NameOf(n))
  }

  lemma NamesAre(name: ArtifactName)
    ensures name in {RacmPlan, WorkingPapers, FinalReport} || exists other :: name == OtherArtifact(other)
  {
    if name.OtherArtifact? {
      assert name == OtherArtifact(name.name);
    }
  }

  /** Every approval in the trail is of one of the three drafts. */
  lemma ApprovedIsDraft(h: Hasher, f: Flow, name: ArtifactName) returns (n: Phase)
    requires SealsHold(h, f.drafts, f.decisions, f.trail, GatesPassed(f.status))
    requires LatestApproval(f.trail, name).Some?
    ensures name == NameOf(n) && n <= GatesPassed(f.status)
  {
    NamesAre(name);
    forall other: string
      ensures name != OtherArtifact(other)
    {
      assert LatestApproval(f.trail, OtherArtifact(other)).None?;
    }
    n := if name == RacmPlan then 1 else if name == WorkingPapers then 2 else 3;
    assert n <= GatesPassed(f.status) by {
      var a := LatestApproval(f.trail, NameOf(n));
    }
  }

  lemma SealsMatchIff(env: Env, f: Flow, drafts: Artifacts, stored: seq<Decision>)
    requires Injective(env.h) && Inv(env, f) && SameMembers(stored, f.decisions)
    ensures ChangedSinceApproval(env.h, f.trail, drafts, Some(stored)) == []
            <==> ApprovedSame(f.status, drafts, f.drafts)
  {
    var names := ApprovedArtifacts(f.trail);
    NoneChanged(env.h, f.trail, drafts, Some(stored), names);
    forall n: Phase | n <= GatesPassed(f.status)
      ensures NameOf(n) in names
      ensures ApprovalBroken(env.h, LatestApproval(f.trail, NameOf(n)).value, Current(drafts, NameOf(n)), Some(stored))
              <==> Current(drafts, NameOf(n)) != Current(f.drafts, NameOf(n))
    {
      assert Sealed(env.h, f.drafts, f.decisions, n, LatestApproval(f.trail, NameOf(n)).value);
      SealBrokenIff(env.h, f.drafts, f.decisions, n, LatestApproval(f.trail, NameOf(n)).value, stored,
                    Current(drafts, NameOf(n)));
    }
    forall k | 0 <= k < |names|
      ensures exists n: Phase :: n <= GatesPassed(f.status) && names[k] == NameOf(n)
    {
      var n := ApprovedIsDraft(env.h, f, names[k]);
    }
  }

  // ---- What the difference lists name ------------------------------------------

  lemma {:induction false} StoredProblemsName(h: Hasher, trail: seq<Entry>, ds: seq<Decision>, x: DecisionProblem)
    ensures x in StoredProblems(h, trail, ds)
            <==> exists i :: 0 <= i < |ds| && !Recorded(h, trail, ds[i])
                   && x == if RecordedDigest(trail, ds[i].id).None? then NoEntry(ds[i].id) else Edited(ds[i].id)
  {
    if ds != [] {
      var init, d := ds[..|ds| - 1], ds[|ds| - 1];
      StoredProblemsName(h, trail, init, x);
      var own := if RecordedDigest(trail, d.id).None? then NoEntry(d.id) else Edited(d.id);
      assert StoredProblems(h, trail, ds)
             == StoredProblems(h, trail, init) + if Recorded(h, trail, d) then [] else [own];
      if i :| 0 <= i < |init| && !Recorded(h, trail, init[i])
              && x == if RecordedDigest(trail, init[i].id).None? then NoEntry(init[i].id) else Edited(init[i].id) {
        assert ds[i] == init[i];
      }
    }
  }

  lemma {:induction false} RemovedProblemsName(ids: seq<string>, ds: seq<Decision>, x: DecisionProblem)
    ensures x in RemovedProblems(ids, ds) <==> x.Removed? && x.id in ids && !HasId(ds, x.id)
  {
    if ids != [] {
      var init, id := ids[..|ids| - 1], ids[|ids| - 1];
      RemovedProblemsName(init, ds, x);
      assert ids == init + [id];
    }
  }

  lemma RecordedIds(h: Hasher, trail: seq<Entry>, ds: seq<Decision>, id: string)
    requires RecordsMatch(h, trail, ds)
    ensures RecordedDigest(trail, id).Some? <==> HasId(ds, id)
    ensures id in RecordedOnce(trail) <==> HasId(ds, id)
  {
    if RecordedDigest(trail, id).Some? {
      DigestOnlyIfListed(trail, id);
    }
    if HasId(ds, id) {
      var i :| 0 <= i < |ds| && ds[i].id == id;
      assert Ids(ds)[i] == id;
    }
  }

  /** A problem with the stored decision of this id, exactly when what is stored is not what the run recorded. */
  ghost predicate DifferenceNamed(f: Flow, stored: seq<Decision>, problems: seq<DecisionProblem>, id: string) {
    && (NoEntry(id) in problems <==> HasId(stored, id) && !HasId(f.decisions, id))
    && (Edited(id) in problems <==>
          && HasId(f.decisions, id)
          && exists j :: 0 <= j < |stored| && stored[j].id == id && stored[j] !in f.decisions)
    && (Removed(id) in problems <==> HasId(f.decisions, id) && !HasId(stored, id))
  }

  /** The approved draft of this gate was replaced. */
  predicate Replaced(f: Flow, drafts: Artifacts, gate: nat) {
    1 <= gate <= GatesPassed(f.status) && gate <= 3 && Current(drafts, NameOf(gate)) != Current(f.drafts, NameOf(gate))
  }

  /** An inserted, an edited and a removed decision are each named, by what was done to them, and nothing else is. */
  lemma DifferencesNamed(env: Env, f: Flow, stored: seq<Decision>, id: string)
    requires Injective(env.h) && RecordsMatch(env.h, f.trail, f.decisions) && DistinctIds(f.decisions)
    ensures DifferenceNamed(f, stored, DecisionsChanged(env.h, f.trail, stored), id)
  {
    RecordedIds(env.h, f.trail, f.decisions, id);
    StoredProblemsName(env.h, f.trail, stored, NoEntry(id));
    StoredProblemsName(env.h, f.trail, stored, Edited(id));
    StoredProblemsName(env.h, f.trail, stored, Removed(id));
    RemovedProblemsName(RecordedOnce(f.trail), stored, Removed(id));
    RemovedProblemsName(RecordedOnce(f.trail), stored, NoEntry(id));
    RemovedProblemsName(RecordedOnce(f.trail), stored, Edited(id));
    forall j | 0 <= j < |stored|
      ensures Recorded(env.h, f.trail, stored[j]) <==> stored[j] in f.decisions
    {
      RecordedIsOurs(env.h, f.trail, f.decisions, stored[j]);
    }
    if j :| 0 <= j < |stored| && stored[j].id == id && stored[j] in f.decisions {
      var i :| 0 <= i < |f.decisions| && f.decisions[i] == stored[j];
    }
  }

  lemma {:induction false} ChangedName(h: Hasher, trail: seq<Entry>, a: Artifacts, ds: Option<seq<Decision>>,
                                       names: seq<ArtifactName>, gate: nat)
    requires forall k :: 0 <= k < |names| ==> LatestApproval(trail, names[k]).Some?
    ensures gate in ChangedIn(h, trail, a, ds, names)
            <==> exists k :: 0 <= k < |names| && LatestApproval(trail, names[k]).value.gate == gate
                   && ApprovalBroken(h, LatestApproval(trail, names[k]).value, Current(a, names[k]), ds)
  {
    if names != [] {
      var n := |names| - 1;
      ChangedName(h, trail, a, ds, names[..n], gate);
      if k :| 0 <= k < n && LatestApproval(trail, names[..n][k]).value.gate == gate
              && ApprovalBroken(h, LatestApproval(trail, names[..n][k]).value, Current(a, names[..n][k]), ds) {
        assert names[k] == names[..n][k];
      }
    }
  }

  /** The gates named are those whose approved draft was replaced. */
  lemma ChangedGatesNamed(env: Env, f: Flow, drafts: Artifacts, stored: seq<Decision>, gate: nat)
    requires Injective(env.h) && Inv(env, f) && SameMembers(stored, f.decisions)
    ensures gate in ChangedSinceApproval(env.h, f.trail, drafts, Some(stored)) <==> Replaced(f, drafts, gate)
  {
    var names := ApprovedArtifacts(f.trail);
    ChangedName(env.h, f.trail, drafts, Some(stored), names, gate);
    forall n: Phase | n <= GatesPassed(f.status)
      ensures NameOf(n) in names && LatestApproval(f.trail, NameOf(n)).Some?
      ensures LatestApproval(f.trail, NameOf(n)).value.gate == n
      ensures ApprovalBroken(env.h, LatestApproval(f.trail, NameOf(n)).value, Current(drafts, NameOf(n)), Some(stored))
              <==> Current(drafts, NameOf(n)) != Current(f.drafts, NameOf(n))
    {
      assert Sealed(env.h, f.drafts, f.decisions, n, LatestApproval(f.trail, NameOf(n)).value);
      SealBrokenIff(env.h, f.drafts, f.decisions, n, LatestApproval(f.trail, NameOf(n)).value, stored,
                    Current(drafts, NameOf(n)));
    }
    forall k | 0 <= k < |names|
      ensures exists n: Phase :: n <= GatesPassed(f.status) && names[k] == NameOf(n)
    {
      var n := ApprovedIsDraft(env.h, f, names[k]);
    }
  }

  // ---- Verification of a run's trail -------------------------------------------

  /** What `Verify` still looks at once the chain and the anchor are fine. */
  lemma OkOnGoodChain(h: Hasher, key: Option<string>, trail: seq<Entry>, anchor: Option<Anchor>, a: Artifacts,
                      ds: seq<Decision>)
    requires trail != [] && FirstChained(trail) == 0 && ProblemFrom(h, key, trail, 0, 0) == None
    requires AnchorCount(anchor) > 0 ==>
               AnchorCount(anchor) <= |trail|
               && HashText(trail[AnchorCount(anchor) - 1].entryHash) == AnchorHead(anchor)
    requires key.Some? ==> trail[|trail| - 1].hashAlg != Some(ALG_PLAIN)
    ensures JudgedBy(Verify(h, key, trail, anchor, Some(a), Some(ds)),
                     ChangedSinceApproval(h, trail, a, Some(ds)), DecisionsChanged(h, trail, ds))
  {
  }

  /** The verdict follows from the gates whose seal is broken and the decisions that do not match. */
  predicate JudgedBy(v: Verification, changed: seq<nat>, problems: seq<DecisionProblem>) {
    && v.changed == changed && v.decisionsChanged == problems
    && (v.status == Ok <==> changed == [] && problems == [])
    && (v.status == ArtifactChanged <==> changed != [])
    && (v.status == DecisionChanged <==> changed == [] && problems != [])
  }

  lemma AlgorithmsDiffer()
    ensures ALG_KEYED != ALG_PLAIN
  {
    assert |ALG_KEYED| != |ALG_PLAIN|;
  }

  /** The chain of a run is accepted against any anchor of an earlier moment. */
  lemma RunVerdict(env: Env, f: Flow, earlier: seq<Entry>, a: Artifacts, ds: seq<Decision>)
    requires TrailGood(env, f.trail) && earlier <= f.trail
    ensures JudgedBy(Verify(env.h, env.key, f.trail, Some(AnchorOf(earlier)), Some(a), Some(ds)),
                     ChangedSinceApproval(env.h, f.trail, a, Some(ds)), DecisionsChanged(env.h, f.trail, ds))
  {
    NoProblemIff(env.h, env.key, f.trail, 0, 0);
    AlgorithmsDiffer();
    assert earlier != [] ==> f.trail[|earlier| - 1] == earlier[|earlier| - 1];
    OkOnGoodChain(env.h, env.key, f.trail, Some(AnchorOf(earlier)), a, ds);
  }

  /**
   * In a state the flow can reach, the trail verifies against any earlier
   * anchor exactly for the approved drafts and the decisions of the run:
   * whatever else is stored in their place is reported.
   */
  lemma VerifiesIffUntouched(env: Env, f: Flow, earlier: seq<Entry>, drafts: Artifacts, stored: seq<Decision>)
    requires GoodDigest(env.h) && Inv(env, f) && earlier <= f.trail
    ensures Verify(env.h, env.key, f.trail, Some(AnchorOf(earlier)), Some(drafts), Some(stored)).status == Ok
            <==> ApprovedSame(f.status, drafts, f.drafts) && SameMembers(stored, f.decisions)
  {
    RunVerdict(env, f, earlier, drafts, stored);
    DecisionsMatchIff(env.h, f.trail, f.decisions, stored);
    if SameMembers(stored, f.decisions) {
      SealsMatchIff(env, f, drafts, stored);
    }
  }

  /**
   * What the verification of a run's trail says about tampering: a replaced
   * draft is `artifact_changed` at its gate, and a decision added, edited or
   * removed is named as that, and is `decision_changed` when the seals still fit.
   */
  lemma TamperIsNamed(env: Env, f: Flow, earlier: seq<Entry>, drafts: Artifacts, stored: seq<Decision>)
    requires GoodDigest(env.h) && Inv(env, f) && earlier <= f.trail
    ensures var v := Verify(env.h, env.key, f.trail, Some(AnchorOf(earlier)), Some(drafts), Some(stored));
            && (v.status == ArtifactChanged <==> v.changed != [])
            && (v.status == DecisionChanged <==> v.changed == [] && !SameMembers(stored, f.decisions))
            && (SameMembers(stored, f.decisions) ==> forall gate :: gate in v.changed <==> Replaced(f, drafts, gate))
            && forall id :: DifferenceNamed(f, stored, v.decisionsChanged, id)
  {
    RunVerdict(env, f, earlier, drafts, stored);
    DecisionsMatchIff(env.h, f.trail, f.decisions, stored);
    if SameMembers(stored, f.decisions) {
      forall gate: nat
        ensures gate in ChangedSinceApproval(env.h, f.trail, drafts, Some(stored)) <==> Replaced(f, drafts, gate)
      {
        ChangedGatesNamed(env, f, drafts, stored, gate);
      }
    }
    forall id
      ensures DifferenceNamed(f, stored, DecisionsChanged(env.h, f.trail, stored), id)
    {
      DifferencesNamed(env, f, stored, id);
    }
  }

  /** A phase run stamps nothing. */
  lemma GenerateKeepsTrail(f: Flow, phase: Phase, crew: CrewRun)
    ensures Generate(f, phase, crew).0.trail == f.trail
  {
  }

  /** No operation rewrites the trail. */
  lemma DoGrowsTrail(env: Env, f: Flow, op: Op)
    ensures f.trail <= Do(env, f, op).0.trail
  {
    if op.DoGenerate? {
      GenerateKeepsTrail(f, op.phase, op.crew);
    } else {
      OthersGrowTrail(env, f, op);
    }
  }

  lemma OthersGrowTrail(env: Env, f: Flow, op: Op)
    requires !op.DoGenerate?
    ensures f.trail <= Do(env, f, op).0.trail
  {
  }

  lemma {:induction false} ExecGrowsTrail(env: Env, f: Flow, ops: seq<Op>, k: nat)
    requires k <= |ops|
    ensures Exec(env, f, ops[..k]).trail <= Exec(env, f, ops).trail
    decreases |ops|
  {
    if k == |ops| {
      assert ops[..k] == ops;
    } else {
      var init := ops[..|ops| - 1];
      ExecGrowsTrail(env, f, init, k);
      assert init[..k] == ops[..k];
      DoGrowsTrail(env, Exec(env, f, init), ops[|ops| - 1]);
    }
  }

  /** A good state verifies as it stands, against the anchor of any prefix of its trail. */
  ghost predicate VerifiesAsStored(env: Env, f: Flow, earlier: seq<Entry>) {
    Verify(env.h, env.key, f.trail, Some(AnchorOf(earlier)), Some(f.drafts), Some(f.decisions)).status == Ok
  }

  lemma GoodStateVerifies(env: Env, f: Flow, earlier: seq<Entry>)
    requires GoodDigest(env.h) && Inv(env, f) && earlier <= f.trail
    ensures VerifiesAsStored(env, f, earlier)
  {
    VerifiesIffUntouched(env, f, earlier, f.drafts, f.decisions);
  }

  /** From a good state on, every state verifies against an anchor taken in between. */
  lemma VerifiesFrom(env: Env, start: Flow, ops: seq<Op>, k: nat)
    requires GoodDigest(env.h) && Inv(env, start) && Legit(env, start, ops) && k <= |ops|
    ensures VerifiesAsStored(env, Exec(env, start, ops), Exec(env, start, ops[..k]).trail)
  {
    RunKeeps(env, start, ops);
    ExecGrowsTrail(env, start, ops, k);
    GoodStateVerifies(env, Exec(env, start, ops), Exec(env, start, ops[..k]).trail);
  }

  /** Every state of every run verifies, against an anchor taken at any earlier point of the run. */
  lemma EveryStateVerifies(env: Env, preparer: string, required: bool, source: IdentitySource, now: string,
                           start: Flow, ops: seq<Op>, k: nat)
    requires GoodDigest(env.h) && !Blank(preparer) && k <= |ops|
    requires start == Created(env, preparer, required, source, now) && Legit(env, start, ops)
    ensures VerifiesAsStored(env, Exec(env, start, ops), Exec(env, start, ops[..k]).trail)
  {
    CreatedIsGood(env, preparer, required, source, now);
    VerifiesFrom(env, start, ops, k);
  }
}

/** The verification loops of src/swarm/trail.py, proved against the functions of module Trail. */
module TrailVerify {
  import opened Options
  import opened Records
  import opened Trail

  /** The approvals and recorded decision ids of the trail scanned so far. */
  ghost predicate Scanned(trail: seq<Entry>, latest: map<ArtifactName, Approval>, order: seq<ArtifactName>,
                          recorded: map<nat, seq<string>>)
  {
    && order == ApprovedArtifacts(trail)
    && (forall n :: n in latest <==> n in order)
    && (forall n :: n in latest <==> LatestApproval(trail, n).Some?)
    && (forall n :: n in latest ==> LatestApproval(trail, n) == Some(latest[n]))
    && (forall p: nat :: RecordedIds(trail, p) == if p in recorded then recorded[p] else [])
  }

  lemma ScanStep(trail: seq<Entry>, i: nat)
    requires i < |trail|
    ensures trail[..i + 1][..i] == trail[..i] && trail[..i + 1][i] == trail[i]
  {
  }

  function SoFar(recorded: map<nat, seq<string>>, phase: nat): seq<string> {
    if phase in recorded then recorded[phase] else []
  }

  lemma ScanDecided(trail: seq<Entry>, latest: map<ArtifactName, Approval>, order: seq<ArtifactName>,
                    recorded: map<nat, seq<string>>)
    requires trail != [] && Scanned(trail[..|trail| - 1], latest, order, recorded)
    requires trail[|trail| - 1].body.event.Decided?
    ensures var e := trail[|trail| - 1].body.event;
            Scanned(trail, latest, order, recorded[e.phase := SoFar(recorded, e.phase) + [e.decisionId]])
  {
  }

  lemma ScanSealed(trail: seq<Entry>, latest: map<ArtifactName, Approval>, order: seq<ArtifactName>,
                   recorded: map<nat, seq<string>>)
    requires trail != [] && Scanned(trail[..|trail| - 1], latest, order, recorded)
    requires SealsArtifact(trail[|trail| - 1])
    ensures var e := trail[|trail| - 1].body.event;
            var approval := Approval(e.gate, e.artifactDigest, e.decisionsDigest,
                                     SoFar(recorded, PhaseOfArtifact(e.artifact)));
            Scanned(trail, latest[e.artifact := approval],
                    if e.artifact in latest then order else order + [e.artifact], recorded)
  {
  }

  lemma ScanOther(trail: seq<Entry>, latest: map<ArtifactName, Approval>, order: seq<ArtifactName>,
                  recorded: map<nat, seq<string>>)
    requires trail != [] && Scanned(trail[..|trail| - 1], latest, order, recorded)
    requires !trail[|trail| - 1].body.event.Decided? && !SealsArtifact(trail[|trail| - 1])
    ensures Scanned(trail, latest, order, recorded)
  {
  }

  /** The scan of `changed_since_approval`. */
  method ScanApprovals(trail: seq<Entry>) returns (latest: map<ArtifactName, Approval>, order: seq<ArtifactName>)
    ensures order == ApprovedArtifacts(trail)
    ensures forall n :: n in order ==> n in latest && LatestApproval(trail, n) == Some(latest[n])
  {
    latest, order := map[], [];
    var recorded: map<nat, seq<string>> := map[];
    for i := 0 to |trail|
      invariant Scanned(trail[..i], latest, order, recorded)
    {
      ScanStep(trail, i);
      ghost var seen := trail[..i + 1];
      match trail[i].body.event {
        case Decided(phase, id, _, _, _, _, _, _) =>
          ScanDecided(seen, latest, order, recorded);
          recorded := recorded[phase := SoFar(recorded, phase) + [id]];
        case GateApproval(gate, artifact, digest, sealed, _, _) =>
          if digest != "" {
            ScanSealed(seen, latest, order, recorded);
            if artifact !in latest {
              order := order + [artifact];
            }
            latest := latest[artifact := Approval(gate, digest, sealed, SoFar(recorded, PhaseOfArtifact(artifact)))];
          } else {
            ScanOther(seen, latest, order, recorded);
          }
        case _ =>
          ScanOther(seen, latest, order, recorded);
      }
    }
    assert trail[..|trail|] == trail;
  }

  /** `changed_since_approval`. */
  method ChangedSince(h: Hasher, trail: seq<Entry>, a: Artifacts, ds: Option<seq<Decision>>) returns (changed: seq<nat>)
    ensures changed == ChangedSinceApproval(h, trail, a, ds)
  {
    var latest, order := ScanApprovals(trail);
    changed := [];
    for k := 0 to |order|
      invariant changed == ChangedIn(h, trail, a, ds, order[..k])
    {
      assert order[..k + 1][..k] == order[..k];
      assert order[k] in order;
      var approval := latest[order[k]];
      if ApprovalBroken(h, approval, Current(a, order[k]), ds) {
        changed := changed + [approval.gate];
      }
    }
    assert order[..|order|] == order;
  }

  /** `decisions_changed`. */
  method DecisionsDiffer(h: Hasher, trail: seq<Entry>, ds: seq<Decision>) returns (problems: seq<DecisionProblem>)
    ensures problems == DecisionsChanged(h, trail, ds)
  {
    var recorded: map<string, string> := map[];
    var order: seq<string> := [];
    for i := 0 to |trail|
      invariant order == RecordedOnce(trail[..i])
      invariant forall id :: id in recorded <==> RecordedDigest(trail[..i], id).Some?
      invariant forall id :: id in recorded ==> RecordedDigest(trail[..i], id) == Some(recorded[id])
      invariant forall id :: id in recorded <==> id in order
    {
      ScanStep(trail, i);
      match trail[i].body.event {
        case Decided(_, id, digest, _, _, _, _, _) =>
          if id != "" {
            if id !in recorded {
              order := order + [id];
            }
            recorded := recorded[id := digest];
          }
        case _ =>
      }
    }
    assert trail[..|trail|] == trail;
    problems := [];
    for j := 0 to |ds|
      invariant problems == StoredProblems(h, trail, ds[..j])
    {
      assert ds[..j + 1][..j] == ds[..j];
      var d := ds[j];
      if d.id !in recorded {
        problems := problems + [NoEntry(d.id)];
      } else if DecisionDigest(h, d) != recorded[d.id] {
        problems := problems + [Edited(d.id)];
      }
    }
    assert ds[..|ds|] == ds;
    for k := 0 to |order|
      invariant problems == StoredProblems(h, trail, ds) + RemovedProblems(order[..k], ds)
    {
      assert order[..k + 1][..k] == order[..k];
      if !HasId(ds, order[k]) {
        problems := problems + [Removed(order[k])];
      }
    }
    assert order[..|order|] == order;
  }

  /** The chain loop of `verify_trail`: the first problem, and what was keyed. */
  method CheckChain(h: Hasher, key: Option<string>, trail: seq<Entry>, first: nat)
    returns (problem: Option<(nat, Status)>, keyed: nat, lastPlain: Option<nat>)
    requires first < |trail|
    ensures problem == ProblemFrom(h, key, trail, first, first)
    ensures problem.None? ==> (keyed == |trail| - first <==> AllKeyed(trail, first))
    ensures problem.None? ==> (lastPlain.Some? <==> trail[|trail| - 1].hashAlg == Some(ALG_PLAIN))
  {
    keyed, lastPlain := 0, None;
    var expected: Option<string> := None;
    for i := first to |trail|
      invariant ProblemFrom(h, key, trail, first, first) == ProblemFrom(h, key, trail, first, i)
      invariant expected == if i == first then None else Some(HashText(trail[i - 1].entryHash))
      invariant keyed <= i - first
      invariant keyed == i - first <==> forall j :: first <= j < i ==> trail[j].hashAlg == Some(ALG_KEYED)
      invariant lastPlain.Some? <==> i > first && trail[i - 1].hashAlg == Some(ALG_PLAIN)
    {
      var e := trail[i];
      var hash := HashText(e.entryHash);
      if hash == "" || (e.hashAlg != Some(ALG_KEYED) && e.hashAlg != Some(ALG_PLAIN)) {
        return Some((i, Broken)), keyed, lastPlain;
      }
      if e.hashAlg == Some(ALG_KEYED) && key.None? {
        return Some((i, KeyUnavailable)), keyed, lastPlain;
      }
      var want := if expected.None? then LegacySeal(h, trail[..first], e.hashAlg.value, key) else expected.value;
      if HashText(e.prevHash) != want || Digest(h, Canonical(e), e.hashAlg.value, key) != hash {
        return Some((i, Broken)), keyed, lastPlain;
      }
      assert EntryProblem(h, key, trail, first, i) == None;
      if e.hashAlg == Some(ALG_KEYED) {
        keyed := keyed + 1;
        lastPlain := None;
      } else if lastPlain.None? {
        lastPlain := Some(i);
      }
      expected := Some(hash);
    }
    problem := None;
  }

  /** The last step of `verify_trail`: the stored state against an intact chain. */
  method Compare(h: Hasher, trail: seq<Entry>, first: nat, keyed: bool, anchored: bool,
                 a: Option<Artifacts>, ds: Option<seq<Decision>>) returns (r: Verification)
    requires first <= |trail| && keyed == AllKeyed(trail, first)
    ensures r == Compared(h, trail, first, anchored, a, ds)
  {
    var changed: seq<nat> := [];
    if a.Some? {
      changed := ChangedSince(h, trail, a.value, ds);
    }
    var problems: seq<DecisionProblem> := [];
    if ds.Some? {
      problems := DecisionsDiffer(h, trail, ds.value);
    }
    var status := if changed != [] then ArtifactChanged else if problems != [] then DecisionChanged else Ok;
    r := Verification(status, |trail|, Head(trail).1, first, None, keyed, anchored, changed, problems);
  }

  /** `verify_trail`. */
  method VerifyTrail(h: Hasher, key: Option<string>, trail: seq<Entry>, anchor: Option<Anchor>,
                     a: Option<Artifacts>, ds: Option<seq<Decision>>) returns (r: Verification)
    ensures r == Verify(h, key, trail, anchor, a, ds)
  {
    var count := AnchorCount(anchor);
    var anchored := count > 0;
    var first := FirstChained(trail);
    if first == |trail| {
      if anchored {
        return Verdict(trail, if trail == [] then Truncated else Broken, |trail|, Some(0), true);
      }
      return if trail == [] then Verdict(trail, Ok, 0, None, false)
             else Verdict(trail, LegacyUnchained, |trail|, None, false);
    }
    var problem, keyed, lastPlain := CheckChain(h, key, trail, first);
    if problem.Some? {
      var (i, status) := problem.value;
      return Verdict(trail, status, first, if status == KeyUnavailable then None else Some(i), anchored);
    }
    if anchored {
      if |trail| < count {
        return Verdict(trail, Truncated, first, Some(|trail|), true);
      }
      if HashText(trail[count - 1].entryHash) != AnchorHead(anchor) {
        return Verdict(trail, AnchorMismatch, first, Some(count - 1), true);
      }
    }
    if key.Some? && lastPlain.Some? {
      return Verdict(trail, Unkeyed, first, None, anchored);
    }
    r := Compare(h, trail, first, keyed == |trail| - first, anchored, a, ds);
  }
}

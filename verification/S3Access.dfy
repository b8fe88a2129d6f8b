/** The public-access verdict of one S3 bucket (src/swarm/tools/aws_checks.py). */
module S3Access {
  import opened Options

  datatype Flag = BlockPublicAcls | IgnorePublicAcls | BlockPublicPolicy | RestrictPublicBuckets

  /** One level of Block Public Access, as read: a failed read is unknown. */
  datatype Layer = Unreadable | NotConfigured | Configured(on: set<Flag>)

  datatype Verdict = PUBLIC | NOT_PUBLIC | UNKNOWN

  /** Everything read about a bucket; None is a failed read. */
  datatype Reads = Reads(account: Layer, bucket: Layer, policy: Option<bool>, grants: Option<seq<string>>)

  datatype Unknown =
    | PolicyStatusUnknown | AclUnknown | AccountLayerUnknown | BucketLayerUnknown
    | RestrictUndetermined | IgnoreUndetermined
  datatype Reason = PublicPolicy | AclGrants(grant: string)
  datatype Note = PolicyRestricted | GrantsIgnored

  datatype BucketCheck = BucketCheck(
    verdict: Verdict, effective: Option<bool>, reasons: seq<Reason>, unknowns: seq<Unknown>, notes: seq<Note>)

  /** `_layer_flag`. */
  function LayerFlag(layer: Layer, flag: Flag): Option<bool> {
    match layer
    case Unreadable => None
    case NotConfigured => Some(false)
    case Configured(on) => Some(flag in on)
  }

  /** `_either`: three-valued or. */
  function Either(a: Option<bool>, b: Option<bool>): Option<bool> {
    if a == Some(true) || b == Some(true) then Some(true)
    else if a.None? || b.None? then None
    else Some(false)
  }

  // ---- What could really be the case -------------------------------------------

  /** A bucket with every setting known. */
  datatype World = World(
    policyPublic: bool, aclPublic: bool,
    accountRestricts: bool, bucketRestricts: bool, accountIgnores: bool, bucketIgnores: bool)

  predicate Fills(read: Option<bool>, actual: bool) {
    read.Some? ==> read.value == actual
  }

  /** What a layer, as read, leaves open about one of its flags: a layer that is not configured blocks nothing. */
  predicate Leaves(layer: Layer, flag: Flag, blocks: bool) {
    match layer
    case Unreadable => true
    case NotConfigured => !blocks
    case Configured(on) => blocks <==> flag in on
  }

  /** The world is one way of filling in what was not read. */
  predicate Possible(r: Reads, w: World) {
    && Fills(r.policy, w.policyPublic)
    && (r.grants.Some? ==> w.aclPublic == (r.grants.value != []))
    && Leaves(r.account, RestrictPublicBuckets, w.accountRestricts)
    && Leaves(r.bucket, RestrictPublicBuckets, w.bucketRestricts)
    && Leaves(r.account, IgnorePublicAcls, w.accountIgnores)
    && Leaves(r.bucket, IgnorePublicAcls, w.bucketIgnores)
  }

  predicate Restricted(w: World) { w.accountRestricts || w.bucketRestricts }
  predicate Ignored(w: World) { w.accountIgnores || w.bucketIgnores }
  predicate ThroughPolicy(w: World) { w.policyPublic && !w.accountRestricts && !w.bucketRestricts }
  predicate ThroughAcl(w: World) { w.aclPublic && !w.accountIgnores && !w.bucketIgnores }

  /** Access is public through the policy or through the ACL, unless a level blocks that path. */
  predicate IsPublic(w: World) {
    ThroughPolicy(w) || ThroughAcl(w)
  }

  /** The exact answer: certain when all possible worlds agree. */
  ghost predicate Exact(r: Reads, v: Verdict) {
    && (v == PUBLIC <==> forall w :: Possible(r, w) ==> IsPublic(w))
    && (v == NOT_PUBLIC <==> forall w :: Possible(r, w) ==> !IsPublic(w))
    && (v == UNKNOWN <==> (exists w :: Possible(r, w) && IsPublic(w)) && (exists w :: Possible(r, w) && !IsPublic(w)))
  }

  /** A path is given as a reason when it is open in all possible worlds. */
  ghost predicate ReasonsExact(r: Reads, reasons: seq<Reason>) {
    && (PublicPolicy in reasons <==> forall w :: Possible(r, w) ==> ThroughPolicy(w))
    && forall g :: AclGrants(g) in reasons
                   <==> r.grants.Some? && g in r.grants.value && forall w :: Possible(r, w) ==> ThroughAcl(w)
  }

  /** What is public on paper is noted as harmless when it is blocked in all possible worlds. */
  ghost predicate NotesExact(r: Reads, notes: seq<Note>) {
    && (PolicyRestricted in notes <==> r.policy == Some(true) && forall w :: Possible(r, w) ==> Restricted(w))
    && (GrantsIgnored in notes
        <==> r.grants.Some? && r.grants.value != [] && forall w :: Possible(r, w) ==> Ignored(w))
  }

  /** A path that is open in some possible worlds only is undetermined. */
  ghost predicate UndeterminedExact(r: Reads, unknowns: seq<Unknown>) {
    && (RestrictUndetermined in unknowns
        <==> && r.policy == Some(true) && (exists w :: Possible(r, w) && Restricted(w))
             && exists w :: Possible(r, w) && !Restricted(w))
    && (IgnoreUndetermined in unknowns
        <==> && r.grants.Some? && r.grants.value != [] && (exists w :: Possible(r, w) && Ignored(w))
             && exists w :: Possible(r, w) && !Ignored(w))
  }

  // ---- The check ---------------------------------------------------------------

  /** One path: exposed by `open`, closed by `block`. */
  function Path(open: Option<bool>, block: Option<bool>): Option<bool> {
    if open == Some(false) || block == Some(true) then Some(false)
    else if open == Some(true) && block == Some(false) then Some(true)
    else None
  }

  function HasGrants(r: Reads): Option<bool> {
    match r.grants case None => None case Some(g) => Some(g != [])
  }

  function Effective(r: Reads, flag: Flag): Option<bool> {
    Either(LayerFlag(r.account, flag), LayerFlag(r.bucket, flag))
  }

  function VerdictOf(effective: Option<bool>): Verdict {
    match effective case None => UNKNOWN case Some(b) => if b then PUBLIC else NOT_PUBLIC
  }

  function Answer(r: Reads): Option<bool> {
    Either(Path(r.policy, Effective(r, RestrictPublicBuckets)), Path(HasGrants(r), Effective(r, IgnorePublicAcls)))
  }

  /** Fills what is unknown with one value for what exposes and another for what blocks. */
  function Filled(r: Reads, exposed: bool, blocked: bool): World {
    World(OrValue(r.policy, exposed), OrValue(HasGrants(r), exposed),
          OrValue(LayerFlag(r.account, RestrictPublicBuckets), blocked),
          OrValue(LayerFlag(r.bucket, RestrictPublicBuckets), blocked),
          OrValue(LayerFlag(r.account, IgnorePublicAcls), blocked),
          OrValue(LayerFlag(r.bucket, IgnorePublicAcls), blocked))
  }

  function OrValue(b: Option<bool>, fallback: bool): bool {
    match b case None => fallback case Some(x) => x
  }

  /** The most and the least exposed worlds decide the answer. */
  lemma ExtremeWorlds(r: Reads)
    ensures Possible(r, Filled(r, true, false)) && Possible(r, Filled(r, false, true))
    ensures Answer(r) == Some(true) <==> IsPublic(Filled(r, false, true))
    ensures Answer(r) == Some(false) <==> !IsPublic(Filled(r, true, false))
  {
  }

  lemma BetweenExtremes(r: Reads, w: World)
    requires Possible(r, w)
    ensures IsPublic(Filled(r, false, true)) ==> IsPublic(w)
    ensures IsPublic(w) ==> IsPublic(Filled(r, true, false))
  {
  }

  /** The three-valued evaluation is exact. */
  lemma AnswerIsExact(r: Reads)
    ensures Exact(r, VerdictOf(Answer(r)))
  {
    ExtremeWorlds(r);
    forall w | Possible(r, w)
      ensures IsPublic(Filled(r, false, true)) ==> IsPublic(w)
      ensures IsPublic(w) ==> IsPublic(Filled(r, true, false))
    {
      BetweenExtremes(r, w);
    }
  }

  /** Only one verdict is exact. */
  lemma ExactIsUnique(r: Reads, v: Verdict, u: Verdict)
    requires Exact(r, v) && Exact(r, u)
    ensures v == u
  {
    ExtremeWorlds(r);
  }

  /** A block is certain, or ruled out, when all possible worlds agree on it. */
  lemma BlocksAre(r: Reads)
    ensures var b := Effective(r, RestrictPublicBuckets);
            && (b == Some(true) <==> forall w :: Possible(r, w) ==> Restricted(w))
            && (b == Some(false) <==> forall w :: Possible(r, w) ==> !Restricted(w))
    ensures var b := Effective(r, IgnorePublicAcls);
            && (b == Some(true) <==> forall w :: Possible(r, w) ==> Ignored(w))
            && (b == Some(false) <==> forall w :: Possible(r, w) ==> !Ignored(w))
  {
    ExtremeWorlds(r);
    var most, least := Filled(r, true, false), Filled(r, false, true);
    assert Restricted(most) <==> Effective(r, RestrictPublicBuckets) == Some(true);
    assert Restricted(least) <==> Effective(r, RestrictPublicBuckets) != Some(false);
    assert Ignored(most) <==> Effective(r, IgnorePublicAcls) == Some(true);
    assert Ignored(least) <==> Effective(r, IgnorePublicAcls) != Some(false);
  }

  /** A path is certainly open exactly when it leads through in all possible worlds. */
  lemma PathsAre(r: Reads)
    ensures Path(r.policy, Effective(r, RestrictPublicBuckets)) == Some(true)
            <==> forall w :: Possible(r, w) ==> ThroughPolicy(w)
    ensures Path(HasGrants(r), Effective(r, IgnorePublicAcls)) == Some(true)
            <==> forall w :: Possible(r, w) ==> ThroughAcl(w)
  {
    ExtremeWorlds(r);
    var least := Filled(r, false, true);
    assert ThroughPolicy(least) <==> Path(r.policy, Effective(r, RestrictPublicBuckets)) == Some(true);
    assert ThroughAcl(least) <==> Path(HasGrants(r), Effective(r, IgnorePublicAcls)) == Some(true);
  }

  function Grants(gs: seq<string>): (r: seq<Reason>)
    ensures |r| == |gs| && forall i :: 0 <= i < |gs| ==> r[i] == AclGrants(gs[i])
  {
    seq(|gs|, i requires 0 <= i < |gs| => AclGrants(gs[i]))
  }

  /** The failed reads are exactly the ones `unknowns` names. */
  predicate Surfaced(r: Reads, unknowns: seq<Unknown>) {
    && (PolicyStatusUnknown in unknowns <==> r.policy.None?)
    && (AclUnknown in unknowns <==> r.grants.None?)
    && (AccountLayerUnknown in unknowns <==> r.account == Unreadable)
    && (BucketLayerUnknown in unknowns <==> r.bucket == Unreadable)
  }

  /** Every failed read is surfaced, even when the other inputs still decide the verdict. */
  method FailedReads(r: Reads) returns (unknowns: seq<Unknown>)
    ensures Surfaced(r, unknowns)
    ensures RestrictUndetermined !in unknowns && IgnoreUndetermined !in unknowns
  {
    unknowns := [];
    if r.policy.None? {
      unknowns := unknowns + [PolicyStatusUnknown];
    }
    if r.grants.None? {
      unknowns := unknowns + [AclUnknown];
    }
    if r.account == Unreadable {
      unknowns := unknowns + [AccountLayerUnknown];
    }
    if r.bucket == Unreadable {
      unknowns := unknowns + [BucketLayerUnknown];
    }
  }

  /** The policy path: its effect, with what explains it. */
  method PolicyPath(policy: Option<bool>, restrict: Option<bool>)
    returns (effect: Option<bool>, reasons: seq<Reason>, unknowns: seq<Unknown>, notes: seq<Note>)
    ensures effect == Path(policy, restrict)
    ensures reasons == if effect == Some(true) then [PublicPolicy] else []
    ensures unknowns == if effect.None? && policy.Some? then [RestrictUndetermined] else []
    ensures notes == if policy == Some(true) && restrict == Some(true) then [PolicyRestricted] else []
  {
    effect, reasons, unknowns, notes := None, [], [], [];
    assert policy == Some(true) || policy == Some(false) || policy.None? by {
      if policy.Some? && policy.value {
        assert policy == Some(true);
      }
    }
    if policy == Some(false) {
      effect := Some(false);
    } else if restrict == Some(true) {
      effect := Some(false);
      if policy == Some(true) {
        notes := [PolicyRestricted];
      }
    } else if policy == Some(true) && restrict == Some(false) {
      effect := Some(true);
      reasons := [PublicPolicy];
    } else if policy == Some(true) {
      unknowns := [RestrictUndetermined];
    }
  }

  /** The ACL path. */
  method AclPath(r: Reads, ignoreAcls: Option<bool>)
    returns (effect: Option<bool>, reasons: seq<Reason>, unknowns: seq<Unknown>, notes: seq<Note>)
    ensures effect == Path(HasGrants(r), ignoreAcls)
    ensures reasons == if effect == Some(true) then Grants(r.grants.value) else []
    ensures unknowns == if effect.None? && r.grants.Some? then [IgnoreUndetermined] else []
    ensures notes == if HasGrants(r) == Some(true) && ignoreAcls == Some(true) then [GrantsIgnored] else []
  {
    effect, reasons, unknowns, notes := None, [], [], [];
    if r.grants == Some([]) {
      effect := Some(false);
    } else if ignoreAcls == Some(true) {
      effect := Some(false);
      if r.grants.Some? {
        notes := [GrantsIgnored];
      }
    } else if r.grants.Some? && ignoreAcls == Some(false) {
      effect := Some(true);
      reasons := Grants(r.grants.value);
    } else if r.grants.Some? {
      unknowns := [IgnoreUndetermined];
    }
  }

  lemma UnknownIsExplained(r: Reads, viaPolicy: Option<bool>, viaAcl: Option<bool>,
                           failed: seq<Unknown>, fromPolicy: seq<Unknown>, fromAcl: seq<Unknown>)
    requires Surfaced(r, failed)
    requires fromPolicy == if viaPolicy.None? && r.policy.Some? then [RestrictUndetermined] else []
    requires fromAcl == if viaAcl.None? && r.grants.Some? then [IgnoreUndetermined] else []
    ensures Either(viaPolicy, viaAcl).None? ==> failed + fromPolicy + fromAcl != []
    ensures Surfaced(r, failed + fromPolicy + fromAcl)
  {
  }

  lemma PublicIsExplained(r: Reads, viaPolicy: Option<bool>, viaAcl: Option<bool>, fromPolicy: seq<Reason>,
                          fromAcl: seq<Reason>)
    requires viaAcl == Some(true) ==> r.grants.Some? && r.grants != Some([])
    requires fromPolicy == if viaPolicy == Some(true) then [PublicPolicy] else []
    requires fromAcl == if viaAcl == Some(true) then Grants(r.grants.value) else []
    ensures Either(viaPolicy, viaAcl) == Some(true) <==> fromPolicy + fromAcl != []
  {
  }

  lemma ReasonsAre(r: Reads, viaPolicy: Option<bool>, viaAcl: Option<bool>, fromPolicy: seq<Reason>,
                   fromAcl: seq<Reason>)
    requires viaPolicy == Some(true) <==> forall w :: Possible(r, w) ==> ThroughPolicy(w)
    requires viaAcl == Some(true) <==> forall w :: Possible(r, w) ==> ThroughAcl(w)
    requires viaAcl == Some(true) ==> r.grants.Some?
    requires fromPolicy == if viaPolicy == Some(true) then [PublicPolicy] else []
    requires fromAcl == if viaAcl == Some(true) then Grants(r.grants.value) else []
    ensures ReasonsExact(r, fromPolicy + fromAcl)
  {
    if viaAcl == Some(true) {
      forall g
        ensures AclGrants(g) in fromPolicy + fromAcl <==> g in r.grants.value
      {
        if g in r.grants.value {
          var i :| 0 <= i < |r.grants.value| && r.grants.value[i] == g;
          assert fromAcl[i] == AclGrants(g);
        }
      }
    } else {
      assert r.grants.Some? ==> exists w :: Possible(r, w) && !ThroughAcl(w);
    }
  }

  lemma NotesAre(r: Reads, fromPolicy: seq<Note>, fromAcl: seq<Note>)
    requires fromPolicy == if r.policy == Some(true) && Effective(r, RestrictPublicBuckets) == Some(true)
                           then [PolicyRestricted] else []
    requires fromAcl == if HasGrants(r) == Some(true) && Effective(r, IgnorePublicAcls) == Some(true)
                        then [GrantsIgnored] else []
    ensures NotesExact(r, fromPolicy + fromAcl)
  {
    BlocksAre(r);
  }

  lemma UndeterminedAre(r: Reads, failed: seq<Unknown>, fromPolicy: seq<Unknown>, fromAcl: seq<Unknown>)
    requires RestrictUndetermined !in failed && IgnoreUndetermined !in failed
    requires var viaPolicy := Path(r.policy, Effective(r, RestrictPublicBuckets));
             fromPolicy == if viaPolicy.None? && r.policy.Some? then [RestrictUndetermined] else []
    requires var viaAcl := Path(HasGrants(r), Effective(r, IgnorePublicAcls));
             fromAcl == if viaAcl.None? && r.grants.Some? then [IgnoreUndetermined] else []
    ensures UndeterminedExact(r, failed + fromPolicy + fromAcl)
  {
    BlocksAre(r);
  }

  /** `check_bucket_public_access`. */
  method CheckBucket(r: Reads) returns (c: BucketCheck)
    ensures Exact(r, c.verdict)
    ensures c.verdict == VerdictOf(c.effective)
    // A verdict is explained, and every failed read is surfaced whatever the verdict.
    ensures c.verdict == PUBLIC <==> c.reasons != []
    ensures c.verdict == UNKNOWN ==> c.unknowns != []
    ensures Surfaced(r, c.unknowns)
    ensures ReasonsExact(r, c.reasons) && NotesExact(r, c.notes) && UndeterminedExact(r, c.unknowns)
  {
    var restrict := Effective(r, RestrictPublicBuckets);
    var ignoreAcls := Effective(r, IgnorePublicAcls);
    var failed := FailedReads(r);
    var viaPolicy, policyReasons, policyUnknowns, policyNotes := PolicyPath(r.policy, restrict);
    var viaAcl, aclReasons, aclUnknowns, aclNotes := AclPath(r, ignoreAcls);
    var effective := Either(viaPolicy, viaAcl);
    AnswerIsExact(r);
    UnknownIsExplained(r, viaPolicy, viaAcl, failed, policyUnknowns, aclUnknowns);
    PublicIsExplained(r, viaPolicy, viaAcl, policyReasons, aclReasons);
    PathsAre(r);
    ReasonsAre(r, viaPolicy, viaAcl, policyReasons, aclReasons);
    NotesAre(r, policyNotes, aclNotes);
    UndeterminedAre(r, failed, policyUnknowns, aclUnknowns);
    c := BucketCheck(VerdictOf(effective), effective, policyReasons + aclReasons,
                     failed + policyUnknowns + aclUnknowns, policyNotes + aclNotes);
  }

  // ---- Summary -----------------------------------------------------------------

  datatype Summary = Summary(buckets: nat, isPublic: nat, notPublic: nat, unknown: nat)

  function Those(cs: seq<BucketCheck>, v: Verdict): set<nat> {
    set i | 0 <= i < |cs| && cs[i].verdict == v
  }

  lemma ThoseGrow(cs: seq<BucketCheck>, i: nat, v: Verdict)
    requires i < |cs|
    ensures |Those(cs[..i + 1], v)| == |Those(cs[..i], v)| + if cs[i].verdict == v then 1 else 0
  {
    if cs[i].verdict == v {
      assert Those(cs[..i + 1], v) == Those(cs[..i], v) + {i};
    } else {
      assert Those(cs[..i + 1], v) == Those(cs[..i], v);
    }
  }

  /** `sum(1 for r in results if r["Verdict"] == v)`. */
  method CountOf(cs: seq<BucketCheck>, v: Verdict) returns (n: nat)
    ensures n == |Those(cs, v)|
  {
    n := 0;
    for i := 0 to |cs|
      invariant n == |Those(cs[..i], v)|
    {
      ThoseGrow(cs, i, v);
      if cs[i].verdict == v {
        n := n + 1;
      }
    }
    assert cs[..|cs|] == cs;
  }

  /** The three groups are apart and together are all buckets. */
  lemma {:induction false} CountsPartition(cs: seq<BucketCheck>)
    ensures |Those(cs, PUBLIC)| + |Those(cs, NOT_PUBLIC)| + |Those(cs, UNKNOWN)| == |cs|
  {
    if cs != [] {
      var n := |cs| - 1;
      CountsPartition(cs[..n]);
      ThoseGrow(cs, n, PUBLIC);
      ThoseGrow(cs, n, NOT_PUBLIC);
      ThoseGrow(cs, n, UNKNOWN);
      assert cs[..n + 1] == cs;
    }
  }

  /** The `Summary` of `collect_s3_public_access`. */
  method Summarise(cs: seq<BucketCheck>) returns (s: Summary)
    ensures s.buckets == |cs| == s.isPublic + s.notPublic + s.unknown
    ensures s.isPublic == |Those(cs, PUBLIC)| && s.notPublic == |Those(cs, NOT_PUBLIC)|
            && s.unknown == |Those(cs, UNKNOWN)|
  {
    var a := CountOf(cs, PUBLIC);
    var b := CountOf(cs, NOT_PUBLIC);
    var c := CountOf(cs, UNKNOWN);
    CountsPartition(cs);
    s := Summary(|cs|, a, b, c);
  }
}

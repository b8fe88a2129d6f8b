/** The hash-chained approval trail (src/swarm/trail.py). */
module Trail {
  import opened Options
  import opened Schema
  import opened Records

  const ALG_KEYED := "hmac-sha256"
  const ALG_PLAIN := "sha256"

  datatype Status =
    | Ok | LegacyUnchained | Broken | Truncated | Unkeyed | KeyUnavailable
    | ArtifactChanged | DecisionChanged | AnchorMismatch

  /** An anchor record as stored; a count that is not a number reads as no anchor. */
  datatype Anchor = Anchor(count: Option<int>, head: string)

  datatype Artifacts = Artifacts(racm: Option<Racm>, papers: Option<Papers>, report: Option<Report>)

  /** One difference between the stored decisions and their trail entries. */
  datatype DecisionProblem = NoEntry(id: string) | Edited(id: string) | Removed(id: string)

  datatype Verification = Verification(
    status: Status, entries: nat, headHash: Option<string>, legacyEntries: nat,
    firstBroken: Option<nat>, keyed: bool, anchored: bool,
    changed: seq<nat>, decisionsChanged: seq<DecisionProblem>)

  // ---- Appending ---------------------------------------------------------------

  predicate IsChained(e: Entry) {
    e.prevHash.Some? || e.entryHash.Some? || e.hashAlg.Some?
  }

  function Bodies(trail: seq<Entry>): (r: seq<Body>)
    ensures |r| == |trail|
    ensures forall i :: 0 <= i < |trail| ==> r[i] == trail[i].body
  {
    seq(|trail|, i requires 0 <= i < |trail| => trail[i].body)
  }

  /** `_digest`: the plain algorithm ignores the key. Called keyed only when a key is set. */
  function Digest(h: Hasher, data: Canon, alg: string, key: Option<string>): string {
    if alg == ALG_KEYED && key.Some? then h(Hmac(key.value, data)) else h(Sha(data))
  }

  function Canonical(e: Entry): Canon {
    CanonEntry(e.body, e.prevHash, e.hashAlg)
  }

  /** `_legacy_seal`: what the first chained entry links to. */
  function LegacySeal(h: Hasher, prefix: seq<Entry>, alg: string, key: Option<string>): string {
    if prefix == [] then GENESIS else Digest(h, CanonLegacy(Bodies(prefix)), alg, key)
  }

  function AlgFor(key: Option<string>): string {
    if key.Some? then ALG_KEYED else ALG_PLAIN
  }

  function HashText(hash: Option<string>): string {
    match hash case None => "" case Some(s) => s
  }

  /** Index of the first chained entry at or after `i`, else the trail's length. */
  function FirstChainedFrom(trail: seq<Entry>, i: nat): (n: nat)
    requires i <= |trail|
    ensures i <= n <= |trail|
    ensures forall j :: i <= j < n ==> !IsChained(trail[j])
    ensures n < |trail| ==> IsChained(trail[n])
    decreases |trail| - i
  {
    if i == |trail| || IsChained(trail[i]) then i else FirstChainedFrom(trail, i + 1)
  }

  function FirstChained(trail: seq<Entry>): (n: nat)
    ensures n <= |trail|
    ensures forall j :: 0 <= j < n ==> !IsChained(trail[j])
    ensures n < |trail| ==> IsChained(trail[n])
  {
    FirstChainedFrom(trail, 0)
  }

  /** The entry `append_entry` stores for `body` at the end of `trail`. */
  function Stored(h: Hasher, key: Option<string>, trail: seq<Entry>, body: Body): Entry {
    var alg := AlgFor(key);
    var prev :=
      if FirstChained(trail) == |trail| then LegacySeal(h, trail, alg, key)
      else HashText(trail[|trail| - 1].entryHash);
    Entry(body, Some(prev), Some(alg), Some(Digest(h, CanonEntry(body, Some(prev), Some(alg)), alg, key)))
  }

  function Append(h: Hasher, key: Option<string>, trail: seq<Entry>, body: Body): seq<Entry> {
    trail + [Stored(h, key, trail, body)]
  }

  /** `append_entry`: looks backwards for a chained entry, then links and seals the new one. */
  method AppendEntry(h: Hasher, key: Option<string>, trail: seq<Entry>, body: Body) returns (grown: seq<Entry>)
    ensures grown == Append(h, key, trail, body)
  {
    var alg := if key.Some? then ALG_KEYED else ALG_PLAIN;
    var i := |trail|;
    while 0 < i && !IsChained(trail[i - 1])
      invariant 0 <= i <= |trail|
      invariant forall j :: i <= j < |trail| ==> !IsChained(trail[j])
    {
      i := i - 1;
    }
    var prev: string;
    if i == 0 {
      prev := LegacySeal(h, trail, alg, key);
    } else {
      prev := HashText(trail[|trail| - 1].entryHash);
    }
    var seal := Digest(h, CanonEntry(body, Some(prev), Some(alg)), alg, key);
    grown := trail + [Entry(body, Some(prev), Some(alg), Some(seal))];
  }

  // ---- The chain ---------------------------------------------------------------

  /** What entry `i` must link to, given the algorithm it names. */
  function Expected(h: Hasher, key: Option<string>, trail: seq<Entry>, first: nat, i: nat, alg: string): string
    requires first <= i < |trail|
  {
    if i == first then LegacySeal(h, trail[..first], alg, key) else HashText(trail[i - 1].entryHash)
  }

  /** The problem `verify_trail` reports for entry `i`, if any. */
  function EntryProblem(h: Hasher, key: Option<string>, trail: seq<Entry>, first: nat, i: nat): Option<Status>
    requires first <= i < |trail|
  {
    var e := trail[i];
    if HashText(e.entryHash) == "" || e.hashAlg.None?
       || (e.hashAlg.value != ALG_KEYED && e.hashAlg.value != ALG_PLAIN) then Some(Broken)
    else if e.hashAlg.value == ALG_KEYED && key.None? then Some(KeyUnavailable)
    else if HashText(e.prevHash) != Expected(h, key, trail, first, i, e.hashAlg.value) then Some(Broken)
    else if Digest(h, Canonical(e), e.hashAlg.value, key) != e.entryHash.value then Some(Broken)
    else None
  }

  /** First problem at or after entry `i`: its index and status. */
  function ProblemFrom(h: Hasher, key: Option<string>, trail: seq<Entry>, first: nat, i: nat): Option<(nat, Status)>
    requires first <= i <= |trail|
    decreases |trail| - i
  {
    if i == |trail| then None
    else
      match EntryProblem(h, key, trail, first, i)
      case Some(s) => Some((i, s))
      case None => ProblemFrom(h, key, trail, first, i + 1)
  }

  /** Every entry from `first` on is well linked and sealed. */
  ghost predicate ChainOk(h: Hasher, key: Option<string>, trail: seq<Entry>) {
    LinkedFrom(h, key, trail, FirstChained(trail))
  }

  ghost predicate LinkedFrom(h: Hasher, key: Option<string>, trail: seq<Entry>, first: nat) {
    forall i :: first <= i < |trail| ==> EntryProblem(h, key, trail, first, i) == None
  }

  lemma {:induction false} NoProblemIff(h: Hasher, key: Option<string>, trail: seq<Entry>, first: nat, i: nat)
    requires first <= i <= |trail|
    ensures ProblemFrom(h, key, trail, first, i) == None
            <==> forall j :: i <= j < |trail| ==> EntryProblem(h, key, trail, first, j) == None
    decreases |trail| - i
  {
    if i < |trail| && EntryProblem(h, key, trail, first, i) == None {
      NoProblemIff(h, key, trail, first, i + 1);
    }
  }

  // ---- Artifacts and decisions against the trail -------------------------------

  /** The latest approval of one artifact: gate, artifact digest, sealed digest, sealed decision ids. */
  datatype Approval = Approval(gate: nat, digest: string, sealed: Option<string>, ids: seq<string>)

  function PhaseOfArtifact(a: ArtifactName): nat {
    match a case RacmPlan => 1 case WorkingPapers => 2 case FinalReport => 3 case OtherArtifact(_) => 0
  }

  /** Ids of the decisions of `phase` the trail records, in order. */
  function RecordedIds(trail: seq<Entry>, phase: nat): seq<string> {
    if trail == [] then []
    else
      var rest := RecordedIds(trail[..|trail| - 1], phase);
      match trail[|trail| - 1].body.event
      case Decided(p, id, _, _, _, _, _, _) => if p == phase then rest + [id] else rest
      case _ => rest
  }

  predicate SealsArtifact(e: Entry) {
    e.body.event.GateApproval? && e.body.event.artifactDigest != ""
  }

  function LatestApproval(trail: seq<Entry>, a: ArtifactName): Option<Approval> {
    if trail == [] then None
    else
      var e := trail[|trail| - 1];
      var before := trail[..|trail| - 1];
      if SealsArtifact(e) && e.body.event.artifact == a then
        var v := e.body.event;
        Some(Approval(v.gate, v.artifactDigest, v.decisionsDigest, RecordedIds(before, PhaseOfArtifact(a))))
      else LatestApproval(before, a)
  }

  /** The approved artifacts in order of their first approval. */
  function ApprovedArtifacts(trail: seq<Entry>): (r: seq<ArtifactName>)
    ensures forall k :: 0 <= k < |r| ==> LatestApproval(trail, r[k]).Some?
    ensures forall n :: LatestApproval(trail, n).Some? ==> n in r
  {
    if trail == [] then []
    else
      var rest := ApprovedArtifacts(trail[..|trail| - 1]);
      var e := trail[|trail| - 1];
      if SealsArtifact(e) && e.body.event.artifact !in rest then rest + [e.body.event.artifact] else rest
  }

  function Current(a: Artifacts, name: ArtifactName): Option<Artifact> {
    match name
    case RacmPlan => (match a.racm case None => None case Some(x) => Some(RacmA(x)))
    case WorkingPapers => (match a.papers case None => None case Some(x) => Some(PapersA(x)))
    case FinalReport => (match a.report case None => None case Some(x) => Some(ReportA(x)))
    case OtherArtifact(_) => None
  }

  /** The stored decision with an id: the last one, as a dict keeps it. */
  function ById(ds: seq<Decision>, id: string): (r: Option<Decision>)
    ensures r.Some? ==> r.value in ds && r.value.id == id
    ensures r.None? ==> forall d :: d in ds ==> d.id != id
  {
    if ds == [] then None
    else if ds[|ds| - 1].id == id then Some(ds[|ds| - 1])
    else ById(ds[..|ds| - 1], id)
  }

  /** The stored decisions with these ids, or None when one is gone. */
  function Gather(ds: seq<Decision>, ids: seq<string>): (r: Option<seq<Decision>>)
    ensures r.Some? ==> |r.value| == |ids|
  {
    if ids == [] then Some([])
    else
      match (ById(ds, ids[0]), Gather(ds, ids[1..]))
      case (Some(d), Some(rest)) => Some([d] + rest)
      case _ => None
  }

  /** Whether an approved artifact, or the decisions sealed with it, no longer match. */
  predicate ApprovalBroken(h: Hasher, approval: Approval, current: Option<Artifact>, ds: Option<seq<Decision>>) {
    if current.None? || ArtifactDigest(h, current.value) != approval.digest then true
    else if approval.sealed.None? || ds.None? then false
    else
      match Gather(ds.value, approval.ids)
      case None => true
      case Some(sealed) => DecisionsDigest(h, sealed) != approval.sealed.value
  }

  function ChangedIn(h: Hasher, trail: seq<Entry>, a: Artifacts, ds: Option<seq<Decision>>,
                     names: seq<ArtifactName>): seq<nat>
    requires forall k :: 0 <= k < |names| ==> LatestApproval(trail, names[k]).Some?
  {
    if names == [] then []
    else
      var rest := ChangedIn(h, trail, a, ds, names[..|names| - 1]);
      var name := names[|names| - 1];
      var approval := LatestApproval(trail, name).value;
      if ApprovalBroken(h, approval, Current(a, name), ds) then rest + [approval.gate] else rest
  }

  /** Gates whose approved artifact (or sealed decisions) changed since the approval. */
  function ChangedSinceApproval(h: Hasher, trail: seq<Entry>, a: Artifacts, ds: Option<seq<Decision>>): seq<nat> {
    ChangedIn(h, trail, a, ds, ApprovedArtifacts(trail))
  }

  /** The digest the trail records last for a decision id. */
  function RecordedDigest(trail: seq<Entry>, id: string): Option<string> {
    if trail == [] then None
    else
      match trail[|trail| - 1].body.event
      case Decided(_, did, digest, _, _, _, _, _) =>
        if did == id && id != "" then Some(digest) else RecordedDigest(trail[..|trail| - 1], id)
      case _ => RecordedDigest(trail[..|trail| - 1], id)
  }

  /** The decision ids the trail records, each once, in order of first appearance. */
  function RecordedOnce(trail: seq<Entry>): seq<string> {
    if trail == [] then []
    else
      var rest := RecordedOnce(trail[..|trail| - 1]);
      match trail[|trail| - 1].body.event
      case Decided(_, id, _, _, _, _, _, _) => if id != "" && id !in rest then rest + [id] else rest
      case _ => rest
  }

  function StoredProblems(h: Hasher, trail: seq<Entry>, ds: seq<Decision>): seq<DecisionProblem> {
    if ds == [] then []
    else
      var rest := StoredProblems(h, trail, ds[..|ds| - 1]);
      var d := ds[|ds| - 1];
      match RecordedDigest(trail, d.id)
      case None => rest + [NoEntry(d.id)]
      case Some(digest) => if DecisionDigest(h, d) == digest then rest else rest + [Edited(d.id)]
  }

  predicate HasId(ds: seq<Decision>, id: string) {
    exists i :: 0 <= i < |ds| && ds[i].id == id
  }

  function RemovedProblems(ids: seq<string>, ds: seq<Decision>): seq<DecisionProblem> {
    if ids == [] then []
    else
      var rest := RemovedProblems(ids[..|ids| - 1], ds);
      var id := ids[|ids| - 1];
      if HasId(ds, id) then rest else rest + [Removed(id)]
  }

  /** Decisions that do not match their trail entries, and entries whose decision is gone. */
  function DecisionsChanged(h: Hasher, trail: seq<Entry>, ds: seq<Decision>): seq<DecisionProblem> {
    StoredProblems(h, trail, ds) + RemovedProblems(RecordedOnce(trail), ds)
  }

  // ---- Verification ------------------------------------------------------------

  function AnchorCount(anchor: Option<Anchor>): nat {
    if anchor.Some? && anchor.value.count.Some? && anchor.value.count.value > 0 then anchor.value.count.value else 0
  }

  function AnchorHead(anchor: Option<Anchor>): string {
    match anchor case None => "" case Some(a) => a.head
  }

  /** `head`: entry count and the last entry's hash. */
  function Head(trail: seq<Entry>): (nat, Option<string>) {
    if trail == [] then (0, None)
    else
      var last := trail[|trail| - 1].entryHash;
      (|trail|, if HashText(last) == "" then None else last)
  }

  /** Whether every chained entry is keyed. */
  predicate AllKeyed(trail: seq<Entry>, first: nat)
    requires first <= |trail|
  {
    forall i :: first <= i < |trail| ==> trail[i].hashAlg == Some(ALG_KEYED)
  }

  function Verdict(trail: seq<Entry>, status: Status, legacy: nat, firstBroken: Option<nat>,
                   anchored: bool): Verification
  {
    Verification(status, |trail|, Head(trail).1, legacy, firstBroken, false, anchored, [], [])
  }

  /** The verdict on an intact chain: the stored drafts and decisions against what it records. */
  function Compared(h: Hasher, trail: seq<Entry>, first: nat, anchored: bool,
                    a: Option<Artifacts>, ds: Option<seq<Decision>>): Verification
    requires first <= |trail|
  {
    var changed := if a.Some? then ChangedSinceApproval(h, trail, a.value, ds) else [];
    var problems := if ds.Some? then DecisionsChanged(h, trail, ds.value) else [];
    var status := if changed != [] then ArtifactChanged else if problems != [] then DecisionChanged else Ok;
    Verification(status, |trail|, Head(trail).1, first, None, AllKeyed(trail, first), anchored, changed, problems)
  }

  /** What `verify_trail` returns. */
  function Verify(h: Hasher, key: Option<string>, trail: seq<Entry>, anchor: Option<Anchor>,
                  a: Option<Artifacts>, ds: Option<seq<Decision>>): Verification
  {
    var count := AnchorCount(anchor);
    var anchored := count > 0;
    var first := FirstChained(trail);
    if first == |trail| then
      if anchored then Verdict(trail, if trail == [] then Truncated else Broken, |trail|, Some(0), true)
      else if trail == [] then Verdict(trail, Ok, 0, None, false)
      else Verdict(trail, LegacyUnchained, |trail|, None, false)
    else
      match ProblemFrom(h, key, trail, first, first)
      case Some((i, status)) =>
        Verdict(trail, status, first, if status == KeyUnavailable then None else Some(i), anchored)
      case None =>
        if anchored && |trail| < count then Verdict(trail, Truncated, first, Some(|trail|), true)
        else if anchored && HashText(trail[count - 1].entryHash) != AnchorHead(anchor) then
          Verdict(trail, AnchorMismatch, first, Some(count - 1), true)
        else if key.Some? && trail[|trail| - 1].hashAlg == Some(ALG_PLAIN) then
          Verdict(trail, Unkeyed, first, None, anchored)
        else Compared(h, trail, first, anchored, a, ds)
  }
}

/** Which verdict each trail gets, and where tampering is reported. */
module TrailVerdicts {
  import opened Options
  import opened Records
  import opened Trail
  import opened TrailProofs

  // ---- One entry ---------------------------------------------------------------

  /** The digest an algorithm name asks for. */
  function SealOver(h: Hasher, data: Canon, keyed: bool, key: Option<string>): string
    requires keyed ==> key.Some?
  {
    if keyed then h(Hmac(key.value, data)) else h(Sha(data))
  }

  /** The entry is sealed with a key that is not set, so nothing can be said about it. */
  predicate KeyMissing(key: Option<string>, e: Entry) {
    key.None? && e.hashAlg == Some(ALG_KEYED) && e.entryHash.Some? && e.entryHash.value != ""
  }

  /** What entry `i` must link to: the entry before, or the seal over the unchained entries. */
  function LinkTarget(h: Hasher, key: Option<string>, trail: seq<Entry>, first: nat, i: nat, keyed: bool): string
    requires first <= i < |trail| && (keyed ==> key.Some?)
  {
    if i > first then HashText(trail[i - 1].entryHash)
    else if first == 0 then GENESIS
    else SealOver(h, CanonLegacy(Bodies(trail[..first])), keyed, key)
  }

  /** The entry carries a known algorithm, links back, and its hash is the digest of what it says. */
  predicate WellSealed(h: Hasher, key: Option<string>, trail: seq<Entry>, first: nat, i: nat)
    requires first <= i < |trail|
  {
    var e := trail[i];
    var keyed := e.hashAlg == Some(ALG_KEYED);
    && (keyed || e.hashAlg == Some(ALG_PLAIN)) && (keyed ==> key.Some?)
    && e.entryHash.Some? && e.entryHash.value != ""
    && HashText(e.prevHash) == LinkTarget(h, key, trail, first, i, keyed)
    && e.entryHash.value == SealOver(h, CanonEntry(e.body, e.prevHash, e.hashAlg), keyed, key)
  }

  lemma EntryVerdict(h: Hasher, key: Option<string>, trail: seq<Entry>, first: nat, i: nat)
    requires first <= i < |trail|
    ensures EntryProblem(h, key, trail, first, i)
            == if WellSealed(h, key, trail, first, i) then None
               else if KeyMissing(key, trail[i]) then Some(KeyUnavailable) else Some(Broken)
  {
    assert |trail[..first]| == first;
  }

  // ---- The chain ---------------------------------------------------------------

  /** Entry `k` is the first chained entry that is not well sealed. */
  ghost predicate BadAt(h: Hasher, key: Option<string>, trail: seq<Entry>, k: nat) {
    var first := FirstChained(trail);
    && first <= k < |trail| && !WellSealed(h, key, trail, first, k)
    && forall j :: first <= j < k ==> WellSealed(h, key, trail, first, j)
  }

  /** There are chained entries, and all are well sealed. */
  ghost predicate Intact(h: Hasher, key: Option<string>, trail: seq<Entry>) {
    var first := FirstChained(trail);
    first < |trail| && forall j :: first <= j < |trail| ==> WellSealed(h, key, trail, first, j)
  }

  predicate Unchained(trail: seq<Entry>) {
    forall i :: 0 <= i < |trail| ==> !IsChained(trail[i])
  }

  lemma {:induction false} FirstProblem(h: Hasher, key: Option<string>, trail: seq<Entry>, first: nat, i: nat)
    requires first <= i <= |trail|
    ensures var p := ProblemFrom(h, key, trail, first, i);
            if p.None? then forall j :: i <= j < |trail| ==> WellSealed(h, key, trail, first, j)
            else && i <= p.value.0 < |trail| && !WellSealed(h, key, trail, first, p.value.0)
                 && (forall j :: i <= j < p.value.0 ==> WellSealed(h, key, trail, first, j))
                 && p.value.1 == if KeyMissing(key, trail[p.value.0]) then KeyUnavailable else Broken
    decreases |trail| - i
  {
    if i < |trail| {
      EntryVerdict(h, key, trail, first, i);
      if WellSealed(h, key, trail, first, i) {
        FirstProblem(h, key, trail, first, i + 1);
      }
    }
  }

  /** A chain is intact exactly when every entry of it passes the check. */
  lemma IntactIsOk(h: Hasher, key: Option<string>, trail: seq<Entry>)
    ensures Intact(h, key, trail) <==> FirstChained(trail) < |trail| && ChainOk(h, key, trail)
  {
    var first := FirstChained(trail);
    forall j | first <= j < |trail|
      ensures EntryProblem(h, key, trail, first, j) == None <==> WellSealed(h, key, trail, first, j)
    {
      EntryVerdict(h, key, trail, first, j);
    }
  }

  // ---- The verdict -------------------------------------------------------------

  predicate Anchored(anchor: Option<Anchor>) {
    anchor.Some? && anchor.value.count.Some? && anchor.value.count.value > 0
  }

  /** The trail still has the anchored entry, with the anchored hash. */
  predicate AnchorMet(trail: seq<Entry>, anchor: Option<Anchor>) {
    Anchored(anchor) ==>
      && anchor.value.count.value <= |trail|
      && HashText(trail[anchor.value.count.value - 1].entryHash) == anchor.value.head
  }

  /** A key is set, but the trail ends in an entry anybody could have sealed. */
  predicate EndsUnkeyed(key: Option<string>, trail: seq<Entry>) {
    key.Some? && trail != [] && trail[|trail| - 1].hashAlg == Some(ALG_PLAIN)
  }

  /** A broken chain: the first bad entry decides, whatever the anchor says. */
  lemma VerdictOfBad(h: Hasher, key: Option<string>, trail: seq<Entry>, anchor: Option<Anchor>,
                     a: Option<Artifacts>, ds: Option<seq<Decision>>, k: nat)
    requires BadAt(h, key, trail, k)
    ensures var v := Verify(h, key, trail, anchor, a, ds);
            && v.status == (if KeyMissing(key, trail[k]) then KeyUnavailable else Broken)
            && v.firstBroken == (if KeyMissing(key, trail[k]) then None else Some(k))
  {
    FirstProblem(h, key, trail, FirstChained(trail), FirstChained(trail));
  }

  lemma VerdictWithoutProblem(h: Hasher, key: Option<string>, trail: seq<Entry>, anchor: Option<Anchor>,
                              a: Option<Artifacts>, ds: Option<seq<Decision>>)
    requires FirstChained(trail) < |trail| && ProblemFrom(h, key, trail, FirstChained(trail), FirstChained(trail)).None?
    ensures var v := Verify(h, key, trail, anchor, a, ds);
            if Anchored(anchor) && |trail| < anchor.value.count.value then
              v.status == Truncated && v.firstBroken == Some(|trail|)
            else if !AnchorMet(trail, anchor) then
              v.status == AnchorMismatch && v.firstBroken == Some(anchor.value.count.value - 1)
            else if EndsUnkeyed(key, trail) then v.status == Unkeyed && v.firstBroken.None?
            else v.status in {Ok, ArtifactChanged, DecisionChanged} && v.firstBroken.None?
  {
  }

  lemma NoProblemWhenIntact(h: Hasher, key: Option<string>, trail: seq<Entry>)
    requires Intact(h, key, trail)
    ensures FirstChained(trail) < |trail| && ProblemFrom(h, key, trail, FirstChained(trail), FirstChained(trail)).None?
  {
    FirstProblem(h, key, trail, FirstChained(trail), FirstChained(trail));
  }

  /** An intact chain: first the anchor, then the key, then what is stored. */
  lemma VerdictOfIntact(h: Hasher, key: Option<string>, trail: seq<Entry>, anchor: Option<Anchor>,
                        a: Option<Artifacts>, ds: Option<seq<Decision>>)
    requires Intact(h, key, trail)
    ensures var v := Verify(h, key, trail, anchor, a, ds);
            if Anchored(anchor) && |trail| < anchor.value.count.value then
              v.status == Truncated && v.firstBroken == Some(|trail|)
            else if !AnchorMet(trail, anchor) then
              v.status == AnchorMismatch && v.firstBroken == Some(anchor.value.count.value - 1)
            else if EndsUnkeyed(key, trail) then v.status == Unkeyed && v.firstBroken.None?
            else v.status in {Ok, ArtifactChanged, DecisionChanged} && v.firstBroken.None?
  {
    NoProblemWhenIntact(h, key, trail);
    VerdictWithoutProblem(h, key, trail, anchor, a, ds);
  }

  lemma VerdictOfUnchained(h: Hasher, key: Option<string>, trail: seq<Entry>, anchor: Option<Anchor>,
                           a: Option<Artifacts>, ds: Option<seq<Decision>>)
    requires Unchained(trail)
    ensures var v := Verify(h, key, trail, anchor, a, ds);
            if Anchored(anchor) then
              v.status == (if trail == [] then Truncated else Broken) && v.firstBroken == Some(0)
            else v.status == (if trail == [] then Ok else LegacyUnchained) && v.firstBroken.None?
  {
  }

  /** A trail is unchained, intact, or has a first bad entry. */
  lemma ThreeCases(h: Hasher, key: Option<string>, trail: seq<Entry>)
    ensures Unchained(trail) || Intact(h, key, trail) || exists k: nat :: BadAt(h, key, trail, k)
    ensures Unchained(trail) <==> FirstChained(trail) == |trail|
  {
    var first := FirstChained(trail);
    FirstProblem(h, key, trail, first, first);
    var p := ProblemFrom(h, key, trail, first, first);
    if p.Some? {
      assert BadAt(h, key, trail, p.value.0);
    }
  }

  /** The seven verdicts about the chain, each with the exact condition it stands for. */
  lemma StatusMeans(h: Hasher, key: Option<string>, trail: seq<Entry>, anchor: Option<Anchor>,
                    a: Option<Artifacts>, ds: Option<seq<Decision>>)
    ensures var status := Verify(h, key, trail, anchor, a, ds).status;
            && (status == LegacyUnchained <==> trail != [] && Unchained(trail) && !Anchored(anchor))
            && (status == KeyUnavailable <==> exists k: nat :: BadAt(h, key, trail, k) && KeyMissing(key, trail[k]))
            && (status == Broken <==>
                  || (trail != [] && Unchained(trail) && Anchored(anchor))
                  || exists k: nat :: BadAt(h, key, trail, k) && !KeyMissing(key, trail[k]))
            && (status == Truncated <==>
                  && Anchored(anchor) && |trail| < anchor.value.count.value
                  && (trail == [] || Intact(h, key, trail)))
            && (status == AnchorMismatch <==>
                  && Intact(h, key, trail) && Anchored(anchor) && anchor.value.count.value <= |trail|
                  && HashText(trail[anchor.value.count.value - 1].entryHash) != anchor.value.head)
            && (status == Unkeyed <==> Intact(h, key, trail) && AnchorMet(trail, anchor) && EndsUnkeyed(key, trail))
            && (status in {Ok, ArtifactChanged, DecisionChanged} <==>
                  || (trail == [] && !Anchored(anchor))
                  || (Intact(h, key, trail) && AnchorMet(trail, anchor) && !EndsUnkeyed(key, trail)))
  {
    ThreeCases(h, key, trail);
    if Unchained(trail) {
      VerdictOfUnchained(h, key, trail, anchor, a, ds);
    } else if Intact(h, key, trail) {
      VerdictOfIntact(h, key, trail, anchor, a, ds);
    } else {
      var k: nat :| BadAt(h, key, trail, k);
      VerdictOfBad(h, key, trail, anchor, a, ds, k);
      BadOnce(h, key, trail, k);
    }
  }

  lemma BadOnce(h: Hasher, key: Option<string>, trail: seq<Entry>, k: nat)
    requires BadAt(h, key, trail, k)
    ensures forall j: nat :: BadAt(h, key, trail, j) ==> j == k
  {
  }

  /** The counts and flags beside the status. */
  lemma VerdictFields(h: Hasher, key: Option<string>, trail: seq<Entry>, anchor: Option<Anchor>,
                      a: Option<Artifacts>, ds: Option<seq<Decision>>)
    ensures var v := Verify(h, key, trail, anchor, a, ds);
            && v.entries == |trail| && (v.anchored <==> Anchored(anchor))
            && v.legacyEntries <= |trail| && (forall i :: 0 <= i < v.legacyEntries ==> !IsChained(trail[i]))
            && (v.legacyEntries < |trail| ==> IsChained(trail[v.legacyEntries]))
            && (v.headHash == if trail != [] && HashText(trail[|trail| - 1].entryHash) != ""
                              then trail[|trail| - 1].entryHash else None)
  {
  }

  /** "Keyed" is claimed only of an accepted chain, and only when all of it is keyed. */
  lemma KeyedMeans(h: Hasher, key: Option<string>, trail: seq<Entry>, anchor: Option<Anchor>,
                   a: Option<Artifacts>, ds: Option<seq<Decision>>)
    ensures Verify(h, key, trail, anchor, a, ds).keyed
            <==> && Intact(h, key, trail) && AnchorMet(trail, anchor) && !EndsUnkeyed(key, trail)
                 && forall i :: FirstChained(trail) <= i < |trail| ==> trail[i].hashAlg == Some(ALG_KEYED)
  {
    var first := FirstChained(trail);
    FirstProblem(h, key, trail, first, first);
    ThreeCases(h, key, trail);
  }

  // ---- Tampering, by what was done ---------------------------------------------

  function Edited(trail: seq<Entry>, i: nat, body: Body): seq<Entry>
    requires i < |trail|
  {
    trail[i := trail[i].(body := body)]
  }

  lemma EditedFirst(trail: seq<Entry>, i: nat, body: Body)
    requires i < |trail|
    ensures FirstChained(Edited(trail, i, body)) == FirstChained(trail)
  {
    FirstChainedUnique(Edited(trail, i, body), FirstChained(trail));
  }

  /** Entries before the edited one check as they did. */
  lemma BeforeEdit(h: Hasher, key: Option<string>, trail: seq<Entry>, i: nat, body: Body, j: nat)
    requires FirstChained(trail) <= j < i < |trail| && WellSealed(h, key, trail, FirstChained(trail), j)
    ensures WellSealed(h, key, Edited(trail, i, body), FirstChained(trail), j)
  {
    assert Edited(trail, i, body)[..FirstChained(trail)] == trail[..FirstChained(trail)];
  }

  lemma EditedIsBad(h: Hasher, key: Option<string>, trail: seq<Entry>, i: nat, body: Body)
    requires Injective(h) && Intact(h, key, trail) && FirstChained(trail) <= i < |trail| && body != trail[i].body
    ensures BadAt(h, key, Edited(trail, i, body), i)
  {
    var first, e := FirstChained(trail), trail[i];
    var keyed := e.hashAlg == Some(ALG_KEYED);
    EditedFirst(trail, i, body);
    assert WellSealed(h, key, trail, first, i);
    SealsApart(h, CanonEntry(e.body, e.prevHash, e.hashAlg), CanonEntry(body, e.prevHash, e.hashAlg), keyed, key);
    forall j | first <= j < i
      ensures WellSealed(h, key, Edited(trail, i, body), first, j)
    {
      BeforeEdit(h, key, trail, i, body, j);
    }
  }

  lemma SealsApart(h: Hasher, x: Canon, y: Canon, keyed: bool, key: Option<string>)
    requires Injective(h) && (keyed ==> key.Some?) && x != y
    ensures SealOver(h, x, keyed, key) != SealOver(h, y, keyed, key)
  {
    var a := if keyed then Hmac(key.value, x) else Sha(x);
    var b := if keyed then Hmac(key.value, y) else Sha(y);
    assert h(a) == h(b) ==> a == b;
  }

  /** An edited entry is reported as broken, at its own index. */
  lemma EditIsReported(h: Hasher, key: Option<string>, trail: seq<Entry>, i: nat, body: Body, anchor: Option<Anchor>,
                       a: Option<Artifacts>, ds: Option<seq<Decision>>)
    requires Injective(h) && Intact(h, key, trail) && FirstChained(trail) <= i < |trail| && body != trail[i].body
    ensures var v := Verify(h, key, Edited(trail, i, body), anchor, a, ds);
            v.status == Broken && v.firstBroken == Some(i)
  {
    EditedIsBad(h, key, trail, i, body);
    assert WellSealed(h, key, trail, FirstChained(trail), i);
    VerdictOfBad(h, key, Edited(trail, i, body), anchor, a, ds, i);
  }

  /** An edited entry from before chaining breaks the seal of the first chained entry. */
  lemma LegacyEditIsReported(h: Hasher, key: Option<string>, trail: seq<Entry>, i: nat, body: Body,
                             anchor: Option<Anchor>, a: Option<Artifacts>, ds: Option<seq<Decision>>)
    requires Injective(h) && Intact(h, key, trail) && i < FirstChained(trail) && body != trail[i].body
    ensures var v := Verify(h, key, Edited(trail, i, body), anchor, a, ds);
            v.status == Broken && v.firstBroken == Some(FirstChained(trail))
  {
    var first, edited := FirstChained(trail), Edited(trail, i, body);
    var keyed := trail[first].hashAlg == Some(ALG_KEYED);
    EditedFirst(trail, i, body);
    assert WellSealed(h, key, trail, first, first);
    assert Bodies(trail[..first])[i] == trail[i].body && Bodies(edited[..first])[i] == body;
    SealsApart(h, CanonLegacy(Bodies(trail[..first])), CanonLegacy(Bodies(edited[..first])), keyed, key);
    assert BadAt(h, key, edited, first);
    VerdictOfBad(h, key, edited, anchor, a, ds, first);
  }

  function Removed(trail: seq<Entry>, i: nat): seq<Entry>
    requires i < |trail|
  {
    trail[..i] + trail[i + 1..]
  }

  /** An entry taken out of the middle is reported where the next one no longer links. */
  lemma RemovalIsReported(h: Hasher, key: Option<string>, trail: seq<Entry>, i: nat, anchor: Option<Anchor>,
                          a: Option<Artifacts>, ds: Option<seq<Decision>>)
    requires Injective(h) && ProperDigest(h) && Intact(h, key, trail) && FirstChained(trail) <= i < |trail| - 1
    ensures var v := Verify(h, key, Removed(trail, i), anchor, a, ds);
            v.status == Broken && v.firstBroken == Some(i)
  {
    var first, cut := FirstChained(trail), Removed(trail, i);
    assert WellSealed(h, key, trail, first, i) && WellSealed(h, key, trail, first, i + 1);
    assert cut[i] == trail[i + 1] && cut[..i] == trail[..i] && cut[..first] == trail[..first];
    assert IsChained(trail[i + 1]);
    FirstChainedUnique(cut, first);
    forall j | first <= j < i
      ensures WellSealed(h, key, cut, first, j)
    {
      assert WellSealed(h, key, trail, first, j);
      assert cut[j] == trail[j] && (j > first ==> cut[j - 1] == trail[j - 1]);
    }
    NoLinkOver(h, key, trail, i);
    assert BadAt(h, key, cut, i);
    VerdictOfBad(h, key, cut, anchor, a, ds, i);
  }

  /** The hash of entry `i` is neither that of the entry before it nor the seal it starts from. */
  lemma NoLinkOver(h: Hasher, key: Option<string>, trail: seq<Entry>, i: nat)
    requires Injective(h) && ProperDigest(h) && Intact(h, key, trail) && FirstChained(trail) <= i < |trail| - 1
    ensures !WellSealed(h, key, Removed(trail, i), FirstChained(trail), i)
  {
    var first, cut := FirstChained(trail), Removed(trail, i);
    IntactIsOk(h, key, trail);
    assert WellSealed(h, key, trail, first, i) && WellSealed(h, key, trail, first, i + 1);
    assert cut[i] == trail[i + 1] && cut[..first] == trail[..first];
    if i > first {
      assert WellSealed(h, key, trail, first, i - 1) && cut[i - 1] == trail[i - 1];
      if trail[i - 1].entryHash == trail[i].entryHash {
        AgreeUpTo(h, key, trail, i - 1, key, trail, i);
      }
    } else {
      var alg := trail[i + 1].hashAlg.value;
      SealIsNoEntryHash(h, key, trail[..first], alg, key, trail, i);
    }
  }

  /** A good chain cut back below its anchor is truncated. */
  lemma CutIsReported(h: Hasher, key: Option<string>, trail: seq<Entry>, n: nat,
                      a: Option<Artifacts>, ds: Option<seq<Decision>>)
    requires Intact(h, key, trail) && FirstChained(trail) < n < |trail|
    ensures var v := Verify(h, key, trail[..n], Some(AnchorOf(trail)), a, ds);
            v.status == Truncated && v.firstBroken == Some(n)
  {
    var first := FirstChained(trail);
    FirstChainedUnique(trail[..n], first);
    IntactIsOk(h, key, trail);
    PrefixKeepsChain(h, key, trail, n);
    IntactIsOk(h, key, trail[..n]);
    VerdictOfIntact(h, key, trail[..n], Some(AnchorOf(trail)), a, ds);
  }

  /** Another good chain, at least as long, in place of the anchored one is a mismatch. */
  lemma RewriteIsReported(h: Hasher, k0: Option<string>, anchored: seq<Entry>, key: Option<string>, trail: seq<Entry>,
                          a: Option<Artifacts>, ds: Option<seq<Decision>>)
    requires Injective(h) && ProperDigest(h) && Intact(h, k0, anchored) && Intact(h, key, trail)
    requires |anchored| <= |trail| && !(anchored <= trail)
    ensures var v := Verify(h, key, trail, Some(AnchorOf(anchored)), a, ds);
            v.status == AnchorMismatch && v.firstBroken == Some(|anchored| - 1)
  {
    IntactIsOk(h, k0, anchored);
    IntactIsOk(h, key, trail);
    assert WellSealed(h, k0, anchored, FirstChained(anchored), |anchored| - 1);
    SameHashIffPrefix(h, k0, anchored, key, trail);
    VerdictOfIntact(h, key, trail, Some(AnchorOf(anchored)), a, ds);
  }

  /** A keyed chain cannot be judged once the key is gone; nothing is called broken. */
  lemma LostKeyIsReported(h: Hasher, key: string, trail: seq<Entry>, anchor: Option<Anchor>,
                          a: Option<Artifacts>, ds: Option<seq<Decision>>)
    requires Intact(h, Some(key), trail)
    requires forall i :: FirstChained(trail) <= i < |trail| ==> trail[i].hashAlg == Some(ALG_KEYED)
    ensures var v := Verify(h, None, trail, anchor, a, ds);
            v.status == KeyUnavailable && v.firstBroken.None?
  {
    var first := FirstChained(trail);
    assert WellSealed(h, Some(key), trail, first, first);
    assert BadAt(h, None, trail, first);
    VerdictOfBad(h, None, trail, anchor, a, ds, first);
  }
}

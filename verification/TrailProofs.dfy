/** What the hash chain of module Trail guarantees. */
module TrailProofs {
  import opened Options
  import opened Records
  import opened Trail

  // ---- The head hash determines the trail --------------------------------------

  lemma DigestsEqual(h: Hasher, c1: Canon, a1: string, k1: Option<string>, c2: Canon, a2: string, k2: Option<string>)
    requires Injective(h)
    requires Digest(h, c1, a1, k1) == Digest(h, c2, a2, k2)
    ensures c1 == c2
  {
    var x := if a1 == ALG_KEYED && k1.Some? then Hmac(k1.value, c1) else Sha(c1);
    var y := if a2 == ALG_KEYED && k2.Some? then Hmac(k2.value, c2) else Sha(c2);
    assert h(x) == h(y);
  }

  lemma DigestProper(h: Hasher, c: Canon, alg: string, key: Option<string>)
    requires ProperDigest(h)
    ensures Digest(h, c, alg, key) != GENESIS && Digest(h, c, alg, key) != ""
  {
  }

  /** A sealed entry's own hash is a digest of its canonical form. */
  lemma SealedHash(h: Hasher, key: Option<string>, trail: seq<Entry>, i: nat)
    requires ChainOk(h, key, trail) && FirstChained(trail) <= i < |trail|
    ensures trail[i].entryHash.Some? && trail[i].hashAlg.Some?
    ensures trail[i].entryHash.value == Digest(h, Canonical(trail[i]), trail[i].hashAlg.value, key)
    ensures HashText(trail[i].prevHash) == Expected(h, key, trail, FirstChained(trail), i, trail[i].hashAlg.value)
  {
    assert EntryProblem(h, key, trail, FirstChained(trail), i) == None;
  }

  /** Equal legacy seals over unchained entries mean equal prefixes. */
  lemma SealsEqual(h: Hasher, k1: Option<string>, p1: seq<Entry>, a1: string, k2: Option<string>, p2: seq<Entry>,
                   a2: string)
    requires Injective(h) && ProperDigest(h)
    requires forall j :: 0 <= j < |p1| ==> !IsChained(p1[j])
    requires forall j :: 0 <= j < |p2| ==> !IsChained(p2[j])
    requires LegacySeal(h, p1, a1, k1) == LegacySeal(h, p2, a2, k2)
    ensures p1 == p2
  {
    if p1 != [] && p2 != [] {
      DigestsEqual(h, CanonLegacy(Bodies(p1)), a1, k1, CanonLegacy(Bodies(p2)), a2, k2);
      assert |p1| == |Bodies(p1)| == |Bodies(p2)| == |p2|;
      forall j | 0 <= j < |p1|
        ensures p1[j] == p2[j]
      {
        assert Bodies(p1)[j] == Bodies(p2)[j];
      }
    }
  }

  /** A legacy seal is never the hash of a chained entry. */
  lemma SealIsNoEntryHash(h: Hasher, k1: Option<string>, prefix: seq<Entry>, a1: string,
                          k2: Option<string>, trail: seq<Entry>, i: nat)
    requires Injective(h) && ProperDigest(h)
    requires ChainOk(h, k2, trail) && FirstChained(trail) <= i < |trail|
    ensures LegacySeal(h, prefix, a1, k1) != HashText(trail[i].entryHash)
  {
    SealedHash(h, k2, trail, i);
    var e := trail[i];
    if prefix != [] && LegacySeal(h, prefix, a1, k1) == HashText(e.entryHash) {
      DigestsEqual(h, CanonLegacy(Bodies(prefix)), a1, k1, Canonical(e), e.hashAlg.value, k2);
    }
  }

  lemma OneMore(t1: seq<Entry>, t2: seq<Entry>, i: nat)
    requires i < |t1| && i < |t2| && t1[..i] == t2[..i] && t1[i] == t2[i]
    ensures t1[..i + 1] == t2[..i + 1]
  {
    assert t1[..i + 1] == t1[..i] + [t1[i]] && t2[..i + 1] == t2[..i] + [t2[i]];
  }

  /** Two verified trails with equal hashes at positions i and j agree up to there. */
  lemma {:induction false} AgreeUpTo(h: Hasher, k1: Option<string>, t1: seq<Entry>, i: nat,
                                     k2: Option<string>, t2: seq<Entry>, j: nat)
    requires Injective(h) && ProperDigest(h)
    requires ChainOk(h, k1, t1) && FirstChained(t1) <= i < |t1|
    requires ChainOk(h, k2, t2) && FirstChained(t2) <= j < |t2|
    requires t1[i].entryHash == t2[j].entryHash
    ensures i == j && t1[..i + 1] == t2[..j + 1]
    decreases i
  {
    SealedHash(h, k1, t1, i);
    SealedHash(h, k2, t2, j);
    DigestsEqual(h, Canonical(t1[i]), t1[i].hashAlg.value, k1, Canonical(t2[j]), t2[j].hashAlg.value, k2);
    assert t1[i] == t2[j];
    var f1, f2, alg := FirstChained(t1), FirstChained(t2), t1[i].hashAlg.value;
    if i == f1 && j == f2 {
      SealsEqual(h, k1, t1[..f1], alg, k2, t2[..f2], alg);
      OneMore(t1, t2, i);
    } else if i == f1 {
      SealIsNoEntryHash(h, k1, t1[..f1], alg, k2, t2, j - 1);
    } else if j == f2 {
      SealIsNoEntryHash(h, k2, t2[..f2], alg, k1, t1, i - 1);
    } else {
      SealedHash(h, k1, t1, i - 1);
      SealedHash(h, k2, t2, j - 1);
      AgreeUpTo(h, k1, t1, i - 1, k2, t2, j - 1);
      OneMore(t1, t2, i);
    }
  }

  lemma HeadIsChained(trail: seq<Entry>)
    requires Head(trail).1.Some?
    ensures trail != [] && FirstChained(trail) < |trail| && trail[|trail| - 1].entryHash == Head(trail).1
  {
    assert IsChained(trail[|trail| - 1]);
  }

  /**
   * Two trails that both pass the chain check, under whichever keys, and end in
   * the same hash are the same trail: entries, legacy prefix and length.
   */
  lemma HeadDeterminesTrail(h: Hasher, k1: Option<string>, t1: seq<Entry>, k2: Option<string>, t2: seq<Entry>)
    requires Injective(h) && ProperDigest(h)
    requires ChainOk(h, k1, t1) && ChainOk(h, k2, t2)
    requires Head(t1).1.Some? && Head(t1).1 == Head(t2).1
    ensures t1 == t2
  {
    HeadIsChained(t1);
    HeadIsChained(t2);
    AgreeUpTo(h, k1, t1, |t1| - 1, k2, t2, |t2| - 1);
    assert t1[..|t1|] == t1 && t2[..|t2|] == t2;
  }

  // ---- Prefixes and appending --------------------------------------------------

  lemma {:induction false} FirstChainedUnique(trail: seq<Entry>, n: nat)
    requires n <= |trail|
    requires forall j :: 0 <= j < n ==> !IsChained(trail[j])
    requires n < |trail| ==> IsChained(trail[n])
    ensures FirstChained(trail) == n
  {
    var f := FirstChained(trail);
    assert f < |trail| ==> IsChained(trail[f]);
  }

  /** Entry checks look only backwards. */
  lemma ProblemInPrefix(h: Hasher, key: Option<string>, trail: seq<Entry>, first: nat, i: nat, n: nat)
    requires first <= i < n <= |trail|
    ensures EntryProblem(h, key, trail[..n], first, i) == EntryProblem(h, key, trail, first, i)
  {
    assert trail[..n][..first] == trail[..first];
  }

  lemma PrefixKeepsChain(h: Hasher, key: Option<string>, trail: seq<Entry>, n: nat)
    requires ChainOk(h, key, trail) && n <= |trail|
    ensures ChainOk(h, key, trail[..n])
  {
    var first := FirstChained(trail);
    if n <= first {
      FirstChainedUnique(trail[..n], n);
    } else {
      FirstChainedUnique(trail[..n], first);
      forall i | first <= i < n
        ensures EntryProblem(h, key, trail[..n], first, i) == None
      {
        ProblemInPrefix(h, key, trail, first, i, n);
      }
    }
  }

  /** Appending extends a good chain by a good entry, whatever legacy or plain entries precede it. */
  lemma AppendKeepsChain(h: Hasher, key: Option<string>, trail: seq<Entry>, body: Body)
    requires ProperDigest(h) && ChainOk(h, key, trail)
    ensures ChainOk(h, key, Append(h, key, trail, body))
    ensures FirstChained(Append(h, key, trail, body)) == FirstChained(trail)
  {
    var grown := Append(h, key, trail, body);
    var n := |trail|;
    var first := FirstChained(trail);
    assert IsChained(grown[n]);
    assert forall j :: 0 <= j < n ==> grown[j] == trail[j];
    FirstChainedUnique(grown, first);
    assert grown[..n] == trail;
    forall i | first <= i <= n
      ensures EntryProblem(h, key, grown, first, i) == None
    {
      if i < n {
        ProblemInPrefix(h, key, grown, first, i, n);
      } else {
        assert grown[..first] == trail[..first];
        assert first == n ==> trail[..first] == trail;
        DigestProper(h, Canonical(grown[n]), AlgFor(key), key);
      }
    }
  }

  // ---- Verification in terms of the chain --------------------------------------

  /** The verdicts that say the chain itself, and the anchor, were matched. */
  predicate ChainAccepted(s: Status) {
    s == Ok || s == Unkeyed || s == ArtifactChanged || s == DecisionChanged
  }

  lemma ProblemsAreBad(h: Hasher, key: Option<string>, trail: seq<Entry>, first: nat, i: nat)
    requires first <= i <= |trail|
    ensures var p := ProblemFrom(h, key, trail, first, i);
            p.Some? ==> p.value.1 == Broken || p.value.1 == KeyUnavailable
    decreases |trail| - i
  {
  }

  lemma VerdictOnChain(h: Hasher, key: Option<string>, trail: seq<Entry>, anchor: Option<Anchor>,
                       a: Option<Artifacts>, ds: Option<seq<Decision>>)
    requires FirstChained(trail) < |trail|
    ensures ChainAccepted(Verify(h, key, trail, anchor, a, ds).status)
            <==> && ChainOk(h, key, trail)
                 && (AnchorCount(anchor) > 0 ==>
                       && AnchorCount(anchor) <= |trail|
                       && HashText(trail[AnchorCount(anchor) - 1].entryHash) == AnchorHead(anchor))
  {
    var first := FirstChained(trail);
    NoProblemIff(h, key, trail, first, first);
    ProblemsAreBad(h, key, trail, first, first);
  }

  /** The anchor that records a trail's head. */
  function AnchorOf(trail: seq<Entry>): Anchor {
    Anchor(Some(|trail|), HashText(Head(trail).1))
  }

  /** A good chain carries the head hash of an earlier good chain at its place exactly when it extends it. */
  lemma SameHashIffPrefix(h: Hasher, k0: Option<string>, anchored: seq<Entry>, key: Option<string>, later: seq<Entry>)
    requires Injective(h) && ProperDigest(h)
    requires ChainOk(h, k0, anchored) && Head(anchored).1.Some? && ChainOk(h, key, later)
    ensures anchored != []
    ensures |anchored| <= |later| && HashText(later[|anchored| - 1].entryHash) == HashText(Head(anchored).1)
            <==> anchored <= later
  {
    var n := |anchored|;
    if n <= |later| && HashText(later[n - 1].entryHash) == HashText(Head(anchored).1) {
      PrefixKeepsChain(h, key, later, n);
      assert later[..n][n - 1] == later[n - 1];
      HeadDeterminesTrail(h, key, later[..n], k0, anchored);
    }
    if anchored <= later {
      assert later[n - 1] == anchored[n - 1];
    }
  }

  /** A trail without chained entries does not extend a chained one. */
  lemma UnchainedExtendsNothing(anchored: seq<Entry>, later: seq<Entry>)
    requires FirstChained(later) == |later| && Head(anchored).1.Some?
    ensures !(anchored <= later)
  {
    HeadIsChained(anchored);
  }

  /**
   * Against the anchor of a trail that was chained, verification accepts the
   * chain of `later` if and only if `later` is a good chain that extends it.
   */
  lemma AnchorPinsTrail(h: Hasher, k0: Option<string>, anchored: seq<Entry>, key: Option<string>, later: seq<Entry>,
                        a: Option<Artifacts>, ds: Option<seq<Decision>>)
    requires Injective(h) && ProperDigest(h)
    requires ChainOk(h, k0, anchored) && Head(anchored).1.Some?
    ensures ChainAccepted(Verify(h, key, later, Some(AnchorOf(anchored)), a, ds).status)
            <==> anchored <= later && ChainOk(h, key, later)
  {
    HeadIsChained(anchored);
    if FirstChained(later) < |later| {
      VerdictOnChain(h, key, later, Some(AnchorOf(anchored)), a, ds);
      if ChainOk(h, key, later) {
        SameHashIffPrefix(h, k0, anchored, key, later);
      }
    } else {
      UnchainedExtendsNothing(anchored, later);
    }
  }

  /** With a key set, an accepted and not `unkeyed` trail ends in a digest made with that key. */
  lemma KeyedVerdictNeedsKey(h: Hasher, key: string, trail: seq<Entry>, anchor: Option<Anchor>,
                             a: Option<Artifacts>, ds: Option<seq<Decision>>)
    requires trail != []
    ensures Verify(h, Some(key), trail, anchor, a, ds).status == Ok
            ==> trail[|trail| - 1].entryHash == Some(h(Hmac(key, Canonical(trail[|trail| - 1]))))
  {
    if Verify(h, Some(key), trail, anchor, a, ds).status == Ok {
      assert FirstChained(trail) < |trail|;
      VerdictOnChain(h, Some(key), trail, anchor, a, ds);
      SealedHash(h, Some(key), trail, |trail| - 1);
      NoProblemIff(h, Some(key), trail, FirstChained(trail), FirstChained(trail));
      assert EntryProblem(h, Some(key), trail, FirstChained(trail), |trail| - 1) == None;
    }
  }
}

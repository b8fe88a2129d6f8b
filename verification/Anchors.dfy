/** The trail-anchor store (src/swarm/session_manager.py): it only moves forward along one chain. */
module Anchors {
  import opened Options
  import opened Records
  import opened Trail
  import opened TrailVerify
  import opened TrailProofs

  /** One call of `save_trail_anchor`; the process may run with another key each time. */
  datatype Save = Save(session: string, key: Option<string>, trail: seq<Entry>)

  function NoAnchor(): Anchor { Anchor(None, "") }

  /** The store after one call, and whether the anchor is now current. */
  function SaveAnchor(h: Hasher, anchors: map<string, Anchor>, s: Save): (map<string, Anchor>, bool) {
    var (count, head) := Head(s.trail);
    var current := if s.session in anchors then anchors[s.session] else NoAnchor();
    var held := AnchorCount(Some(current));
    if head.None? || count < held then (anchors, false)
    else if held > 0 && HashText(s.trail[held - 1].entryHash) != current.head then (anchors, false)
    else if count == held then (anchors, true)
    else
      var status := Verify(h, s.key, s.trail, None, None, None).status;
      if status == Broken || status == KeyUnavailable then (anchors, false)
      else (anchors[s.session := Anchor(Some(count), head.value)], true)
  }

  class AnchorStore {
    var anchors: map<string, Anchor>

    constructor ()
      ensures anchors == map[]
    {
      anchors := map[];
    }

    /** `save_trail_anchor`, a read-modify-write under the writer lock. */
    method SaveTrailAnchor(h: Hasher, key: Option<string>, session: string, trail: seq<Entry>) returns (current: bool)
      modifies this
      ensures (anchors, current) == SaveAnchor(h, old(anchors), Save(session, key, trail))
    {
      var (count, head) := Head(trail);
      if head.None? {
        return false;
      }
      var record := if session in anchors then anchors[session] else NoAnchor();
      var held := AnchorCount(Some(record));
      if count < held {
        return false;
      }
      if held > 0 && HashText(trail[held - 1].entryHash) != record.head {
        return false;
      }
      if count == held {
        return true;
      }
      var check := VerifyTrail(h, key, trail, None, None, None);
      if check.status == Broken || check.status == KeyUnavailable {
        return false;
      }
      anchors := anchors[session := Anchor(Some(count), head.value)];
      return true;
    }
  }

  // ---- Sequences of calls ------------------------------------------------------

  /** The store after a sequence of calls on an empty one. */
  function Store(h: Hasher, saves: seq<Save>): map<string, Anchor> {
    if saves == [] then map[] else SaveAnchor(h, Store(h, saves[..|saves| - 1]), saves[|saves| - 1]).0
  }

  /** Call `i` wrote a new anchor. */
  predicate Wrote(h: Hasher, saves: seq<Save>, i: nat)
    requires i < |saves|
  {
    SaveAnchor(h, Store(h, saves[..i]), saves[i]).0 != Store(h, saves[..i])
  }

  /** A written anchor records a chain that verifies on its own and is longer than the one before. */
  lemma WriteIsChained(h: Hasher, anchors: map<string, Anchor>, s: Save)
    requires SaveAnchor(h, anchors, s).0 != anchors
    ensures SaveAnchor(h, anchors, s).0 == anchors[s.session := AnchorOf(s.trail)]
    ensures ChainOk(h, s.key, s.trail) && Head(s.trail).1.Some?
    ensures s.session in anchors ==>
              var held := AnchorCount(Some(anchors[s.session]));
              held < |s.trail| && (held > 0 ==> HashText(s.trail[held - 1].entryHash) == anchors[s.session].head)
  {
    HeadIsChained(s.trail);
    NoProblemIff(h, s.key, s.trail, FirstChained(s.trail), FirstChained(s.trail));
    ProblemsAreBad(h, s.key, s.trail, FirstChained(s.trail), FirstChained(s.trail));
  }

  /** Call `i` wrote the anchor of `session` that the store still holds after `n` calls. */
  ghost predicate Holds(h: Hasher, saves: seq<Save>, n: nat, session: string, i: nat) {
    && i < n <= |saves| && saves[i].session == session && Wrote(h, saves, i)
    && ChainOk(h, saves[i].key, saves[i].trail) && Head(saves[i].trail).1.Some?
    && session in Store(h, saves[..n]) && Store(h, saves[..n])[session] == AnchorOf(saves[i].trail)
    && ExtendsAll(h, saves, n, session, saves[i].trail)
  }

  /** The trail extends every trail anchored for the session before call `n`. */
  ghost predicate ExtendsAll(h: Hasher, saves: seq<Save>, n: nat, session: string, trail: seq<Entry>)
    requires n <= |saves|
  {
    forall k :: 0 <= k < n && saves[k].session == session && Wrote(h, saves, k) ==> saves[k].trail <= trail
  }

  lemma ExtendsMore(h: Hasher, saves: seq<Save>, n: nat, session: string, held: seq<Entry>, trail: seq<Entry>)
    requires n < |saves| && ExtendsAll(h, saves, n, session, held) && held <= trail
    requires saves[n].session == session && Wrote(h, saves, n) ==> saves[n].trail <= trail
    ensures ExtendsAll(h, saves, n + 1, session, trail)
  {
    forall k | 0 <= k < n && saves[k].session == session && Wrote(h, saves, k)
      ensures saves[k].trail <= trail
    {
      PrefixTransitive(saves[k].trail, held, trail);
    }
  }

  /** The trail anchored before call `n` is a proper prefix of the trail anchored by it. */
  lemma WriteExtends(h: Hasher, saves: seq<Save>, n: nat, i: nat)
    requires Injective(h) && ProperDigest(h)
    requires n < |saves| && Wrote(h, saves, n) && Holds(h, saves, n, saves[n].session, i)
    ensures saves[i].trail <= saves[n].trail && |saves[i].trail| < |saves[n].trail|
  {
    var before := Store(h, saves[..n]);
    WriteIsChained(h, before, saves[n]);
    var t, s := saves[i].trail, saves[n].trail;
    HeadIsChained(t);
    HeadIsChained(s);
    VerdictOnChain(h, saves[n].key, s, Some(AnchorOf(t)), None, None);
    AnchorPinsTrail(h, saves[i].key, t, saves[n].key, s, None, None);
  }

  lemma StoreStep(h: Hasher, saves: seq<Save>, n: nat)
    requires n < |saves|
    ensures Store(h, saves[..n + 1]) == SaveAnchor(h, Store(h, saves[..n]), saves[n]).0
  {
    assert saves[..n + 1][..n] == saves[..n];
  }

  /** Call `n` writes: it becomes the holder, and its trail extends the former holder's. */
  lemma HolderMoves(h: Hasher, saves: seq<Save>, n: nat, i: nat)
    requires Injective(h) && ProperDigest(h)
    requires n < |saves| && Wrote(h, saves, n) && Holds(h, saves, n, saves[n].session, i)
    ensures Holds(h, saves, n + 1, saves[n].session, n)
  {
    StoreStep(h, saves, n);
    WriteIsChained(h, Store(h, saves[..n]), saves[n]);
    WriteExtends(h, saves, n, i);
    ExtendsMore(h, saves, n, saves[n].session, saves[i].trail, saves[n].trail);
  }

  lemma PrefixTransitive<T>(a: seq<T>, b: seq<T>, c: seq<T>)
    requires a <= b <= c
    ensures a <= c
  {
  }

  /** Call `n` does not write this session's anchor: the holder stays. */
  lemma HolderStays(h: Hasher, saves: seq<Save>, n: nat, session: string, i: nat)
    requires n < |saves| && Holds(h, saves, n, session, i)
    requires saves[n].session != session || !Wrote(h, saves, n)
    ensures Holds(h, saves, n + 1, session, i)
  {
    StoreStep(h, saves, n);
    if Wrote(h, saves, n) {
      WriteIsChained(h, Store(h, saves[..n]), saves[n]);
    }
    ExtendsMore(h, saves, n, session, saves[i].trail, saves[i].trail);
  }

  /** Call `n` writes the first anchor of its session. */
  lemma FirstHolder(h: Hasher, saves: seq<Save>, n: nat)
    requires n < |saves| && Wrote(h, saves, n) && saves[n].session !in Store(h, saves[..n])
    ensures Holds(h, saves, n + 1, saves[n].session, n)
  {
    StoreStep(h, saves, n);
    WriteIsChained(h, Store(h, saves[..n]), saves[n]);
    NeverWritten(h, saves, n, saves[n].session);
  }

  lemma NotWrittenNotNew(h: Hasher, saves: seq<Save>, n: nat, session: string)
    requires n < |saves| && session !in Store(h, saves[..n]) && session in Store(h, saves[..n + 1])
    ensures Wrote(h, saves, n) && saves[n].session == session
  {
    StoreStep(h, saves, n);
  }

  /** Every stored anchor was written by a call whose trail extends all trails anchored before. */
  lemma {:induction false} AnchorHolder(h: Hasher, saves: seq<Save>, n: nat, session: string) returns (i: nat)
    requires Injective(h) && ProperDigest(h)
    requires 0 < n <= |saves| && session in Store(h, saves[..n])
    ensures Holds(h, saves, n, session, i)
  {
    if session in Store(h, saves[..n - 1]) {
      i := AnchorHolder(h, saves, n - 1, session);
      i := NextHolder(h, saves, n - 1, session, i);
    } else {
      i := NewHolder(h, saves, n - 1, session);
    }
  }

  lemma NextHolder(h: Hasher, saves: seq<Save>, n: nat, session: string, i: nat) returns (j: nat)
    requires Injective(h) && ProperDigest(h)
    requires n < |saves| && Holds(h, saves, n, session, i)
    ensures Holds(h, saves, n + 1, session, j)
  {
    if Wrote(h, saves, n) && saves[n].session == session {
      HolderMoves(h, saves, n, i);
      j := n;
    } else {
      HolderStays(h, saves, n, session, i);
      j := i;
    }
  }

  lemma NewHolder(h: Hasher, saves: seq<Save>, n: nat, session: string) returns (j: nat)
    requires Injective(h) && ProperDigest(h)
    requires n < |saves| && session !in Store(h, saves[..n]) && session in Store(h, saves[..n + 1])
    ensures Holds(h, saves, n + 1, session, j)
  {
    NotWrittenNotNew(h, saves, n, session);
    FirstHolder(h, saves, n);
    j := n;
  }

  lemma StoreGrows(h: Hasher, saves: seq<Save>, n: nat)
    requires n < |saves|
    ensures Store(h, saves[..n]).Keys <= Store(h, saves[..n + 1]).Keys
    ensures Wrote(h, saves, n) ==> saves[n].session in Store(h, saves[..n + 1])
  {
    StoreStep(h, saves, n);
  }

  lemma {:induction false} NeverWritten(h: Hasher, saves: seq<Save>, n: nat, session: string)
    requires n <= |saves| && session !in Store(h, saves[..n])
    ensures forall k :: 0 <= k < n && saves[k].session == session ==> !Wrote(h, saves, k)
  {
    if n > 0 {
      StoreGrows(h, saves, n - 1);
      NeverWritten(h, saves, n - 1, session);
    }
  }

  /**
   * Anchors move only forward along one chain: over any sequence of calls on
   * arbitrary trails, a later written anchor's trail properly extends every
   * trail anchored before it for the session.
   */
  lemma AnchorsMoveForward(h: Hasher, saves: seq<Save>, i: nat, j: nat)
    requires Injective(h) && ProperDigest(h)
    requires i < j < |saves| && saves[i].session == saves[j].session
    requires Wrote(h, saves, i) && Wrote(h, saves, j)
    ensures saves[i].trail <= saves[j].trail && |saves[i].trail| < |saves[j].trail|
  {
    var session := saves[j].session;
    if session !in Store(h, saves[..j]) {
      NeverWritten(h, saves, j, session);
    } else {
      var k := AnchorHolder(h, saves, j, session);
      WriteExtends(h, saves, j, k);
    }
  }

  /** A trail whose chain is accepted against the stored anchor extends every trail ever anchored. */
  lemma StoredAnchorPinsHistory(h: Hasher, saves: seq<Save>, session: string, key: Option<string>, trail: seq<Entry>,
                                a: Option<Artifacts>, ds: Option<seq<Decision>>)
    requires Injective(h) && ProperDigest(h)
    requires session in Store(h, saves)
    requires ChainAccepted(Verify(h, key, trail, Some(Store(h, saves)[session]), a, ds).status)
    ensures forall k :: 0 <= k < |saves| && saves[k].session == session && Wrote(h, saves, k) ==>
              saves[k].trail <= trail
  {
    assert saves[..|saves|] == saves;
    assert saves != [];
    var i := AnchorHolder(h, saves, |saves|, session);
    AnchorPinsTrail(h, saves[i].key, saves[i].trail, key, trail, a, ds);
  }

  // ---- The answer --------------------------------------------------------------

  /** The answer is yes exactly when the store then holds the anchor of this trail. */
  lemma CurrentMeans(h: Hasher, anchors: map<string, Anchor>, s: Save)
    ensures var (after, current) := SaveAnchor(h, anchors, s);
            current <==> && Head(s.trail).1.Some?
                         && s.session in after && after[s.session].head == HashText(Head(s.trail).1)
                         && AnchorCount(Some(after[s.session])) == |s.trail|
    ensures SaveAnchor(h, anchors, s).0.Keys <= anchors.Keys + {s.session}
  {
  }

  lemma GoodIsChecked(h: Hasher, key: Option<string>, trail: seq<Entry>)
    requires ChainOk(h, key, trail) && Head(trail).1.Some?
    ensures var status := Verify(h, key, trail, None, None, None).status; status != Broken && status != KeyUnavailable
  {
    HeadIsChained(trail);
    VerdictOnChain(h, key, trail, None, None, None);
  }

  lemma SaveOnGood(h: Hasher, anchors: map<string, Anchor>, s: Save, held: seq<Entry>)
    requires ChainOk(h, s.key, s.trail) && Head(s.trail).1.Some? && Head(held).1.Some?
    requires s.session in anchors && anchors[s.session] == AnchorOf(held)
    ensures SaveAnchor(h, anchors, s).1
            <==> |held| <= |s.trail| && HashText(s.trail[|held| - 1].entryHash) == HashText(Head(held).1)
  {
    GoodIsChecked(h, s.key, s.trail);
  }

  /** A good chain is anchored exactly when it extends the trail anchored before it. */
  lemma AnchoredIffExtends(h: Hasher, saves: seq<Save>, s: Save)
    requires Injective(h) && ProperDigest(h) && ChainOk(h, s.key, s.trail) && Head(s.trail).1.Some?
    ensures SaveAnchor(h, Store(h, saves), s).1
            <==> forall k :: 0 <= k < |saves| && saves[k].session == s.session && Wrote(h, saves, k) ==>
                   saves[k].trail <= s.trail
  {
    assert saves[..|saves|] == saves;
    GoodIsChecked(h, s.key, s.trail);
    if s.session in Store(h, saves) {
      var i := AnchorHolder(h, saves, |saves|, s.session);
      var held := saves[i].trail;
      SaveOnGood(h, Store(h, saves), s, held);
      SameHashIffPrefix(h, saves[i].key, held, s.key, s.trail);
      if held <= s.trail {
        forall k | 0 <= k < |saves| && saves[k].session == s.session && Wrote(h, saves, k)
          ensures saves[k].trail <= s.trail
        {
          PrefixTransitive(saves[k].trail, held, s.trail);
        }
      }
    } else {
      NeverWritten(h, saves, |saves|, s.session);
    }
  }
}

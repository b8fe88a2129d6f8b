/** What saving, restarting and deleting achieve, under every interleaving of module Sessions. */
module SessionSaves {
  import opened Options
  import opened Sessions
  import opened SessionProofs

  // ---- The steps of a save -----------------------------------------------------

  /** The snapshot that is taken is the flow object as it is then. */
  lemma TakesTheFlow(s: State, t: Thread, c: Choice)
    requires t in s.threads && s.threads[t].SaveTake? && s.threads[t].flow in s.heap
    ensures var pc, g := s.threads[t], Next(s, Runs(t, c));
            g == At(s, t, SaveWrite(pc.flow, s.heap[pc.flow], pc.after))
  {
  }

  /** A write that does not fail puts the snapshot into the session's entry, if there still is one. */
  lemma WriteStores(s: State, t: Thread, c: Choice)
    requires t in s.threads && s.threads[t].SaveWrite?
    ensures var pc, g := s.threads[t], Next(s, Runs(t, c));
            && g.threads == s.threads[t := SaveFree(!c.fails, pc.flow, pc.after)]
            && g.entry == if !c.fails && s.entry.Stored? then Stored(Some(pc.image)) else s.entry
  {
  }

  predicate StandsAt(s: State, t: Thread, pc: Pc) {
    t in s.threads && s.threads[t] == pc
  }

  // ---- From the change to the store --------------------------------------------

  /** The thread is between asking for the save lock and releasing it. */
  predicate InSave(s: State, t: Thread, f: FlowId, after: After) {
    && t in s.threads
    && var pc := s.threads[t];
       || pc == SaveWait(f, after) || pc == SaveTake(f, after)
       || (pc.SaveWrite? && pc.flow == f && pc.after == after)
       || (pc.SaveFree? && pc.saved == f && pc.after == after)
  }

  /** A flow object only moves forward. */
  lemma ObjectsMoveForward(s: State, m: Move, f: FlowId)
    requires Inv(s) && f in s.heap
    ensures f in Next(s, m).heap && Le(s.heap[f], Next(s, m).heap[f])
  {
    if m.Runs? && m.thread in s.threads {
      StepsMoveForward(s, m.thread, m.choice, f);
    }
  }

  lemma StepsMoveForward(s: State, t: Thread, c: Choice, f: FlowId)
    requires t in s.threads && f in s.heap
    ensures f in Step(s, t, c).heap && Le(s.heap[f], Step(s, t, c).heap[f])
  {
    var pc := s.threads[t];
    if pc.FetchGet? || pc.FetchLoad? || pc.FetchCache? {
      assert f in StepFetch(s, t, pc, c).heap && StepFetch(s, t, pc, c).heap[f] == s.heap[f];
    } else if pc.Enter? || pc.Crew? {
      CrewMovesForward(s, t, c, f);
    } else if pc.Act? {
      assert f in StepAct(s, t, pc, c).heap && Le(s.heap[f], StepAct(s, t, pc, c).heap[f]);
    } else {
      OthersKeepHeap(s, t, c);
    }
  }

  lemma CrewMovesForward(s: State, t: Thread, c: Choice, f: FlowId)
    requires t in s.threads && f in s.heap && (s.threads[t].Enter? || s.threads[t].Crew?)
    ensures var g := StepCrew(s, t, s.threads[t], c); f in g.heap && Le(s.heap[f], g.heap[f])
  {
  }

  lemma OthersKeepHeap(s: State, t: Thread, c: Choice)
    requires t in s.threads
    requires var pc := s.threads[t];
             !(pc.FetchGet? || pc.FetchLoad? || pc.FetchCache? || pc.Enter? || pc.Crew? || pc.Act?)
    ensures Step(s, t, c).heap == s.heap
  {
  }

  /** While a thread holds the save lock, the others at most remove the entry. */
  lemma EntryHeld(s: State, m: Move, t: Thread)
    requires Inv(s) && t in s.threads && Saving(s.threads[t])
    requires !(m.Runs? && m.thread == t)
    ensures Next(s, m).entry == s.entry || Next(s, m).entry.Missing?
  {
    if Next(s, m).entry != s.entry {
      MoveChangesAt(s, m);
      StoreChangesAt(s, m.thread, m.choice);
      OneSaver(s, t, m.thread);
      if s.threads[m.thread].StoreNew? {
        CreatorAlone(s, m.thread, t);
      }
    }
  }

  /** The states of a run after each of the further moves. */
  function After(moves: seq<Move>, more: seq<Move>, k: nat): State
    requires k <= |more|
  {
    Run(Start(), moves + more[..k])
  }

  lemma AfterNext(moves: seq<Move>, more: seq<Move>, k: nat)
    requires k < |more|
    ensures After(moves, more, k + 1) == Next(After(moves, more, k), more[k])
  {
    RunFurther(moves, more[..k + 1]);
    assert more[..k + 1][..k] == more[..k];
  }

  /** The flow object had this value at one of the moments 0 to `k`. */
  ghost predicate WasThere(moves: seq<Move>, more: seq<Move>, k: nat, f: FlowId, x: Image)
    requires k <= |more|
  {
    exists j :: 0 <= j <= k && f in After(moves, more, j).heap && After(moves, more, j).heap[f] == x
  }

  /** How far the save of the change `x0` has come. */
  ghost predicate SaveSoFar(moves: seq<Move>, more: seq<Move>, k: nat, t: Thread, f: FlowId, x0: Image)
    requires k <= |more|
  {
    var s := After(moves, more, k);
    && t in s.threads && f in s.heap && Le(x0, s.heap[f])
    && (s.threads[t].SaveWrite? ==>
          Le(x0, s.threads[t].image) && WasThere(moves, more, k, f, s.threads[t].image))
    && (s.threads[t].SaveFree? && s.threads[t].ok && s.entry.Stored? ==>
          && s.entry.snapshot.Some? && Le(x0, s.entry.snapshot.value)
          && WasThere(moves, more, k, f, s.entry.snapshot.value))
  }

  lemma WasThereStays(moves: seq<Move>, more: seq<Move>, k: nat, f: FlowId)
    requires k < |more|
    ensures forall x :: WasThere(moves, more, k, f, x) ==> WasThere(moves, more, k + 1, f, x)
  {
    forall x | WasThere(moves, more, k, f, x)
      ensures WasThere(moves, more, k + 1, f, x)
    {
      var j :| 0 <= j <= k && f in After(moves, more, j).heap && After(moves, more, j).heap[f] == x;
      assert After(moves, more, j).heap[f] == x;
    }
  }

  /** The saving thread's own step. */
  lemma OwnStep(moves: seq<Move>, more: seq<Move>, k: nat, t: Thread, f: FlowId, after: After, x0: Image)
    requires k < |more| && SaveSoFar(moves, more, k, t, f, x0) && Inv(After(moves, more, k))
    requires InSave(After(moves, more, k), t, f, after) && InSave(After(moves, more, k + 1), t, f, after)
    requires more[k].Runs? && more[k].thread == t
    ensures SaveSoFar(moves, more, k + 1, t, f, x0)
  {
    var s := After(moves, more, k);
    AfterNext(moves, more, k);
    ObjectsMoveForward(s, more[k], f);
    WasThereStays(moves, more, k, f);
    if s.threads[t].SaveTake? {
      TakesTheFlow(s, t, more[k].choice);
      assert WasThere(moves, more, k, f, s.heap[f]);
    } else if s.threads[t].SaveWrite? {
      WriteStores(s, t, more[k].choice);
    }
  }

  /** Somebody else's move. */
  lemma OthersStep(moves: seq<Move>, more: seq<Move>, k: nat, t: Thread, f: FlowId, after: After, x0: Image)
    requires k < |more| && SaveSoFar(moves, more, k, t, f, x0) && Inv(After(moves, more, k))
    requires InSave(After(moves, more, k), t, f, after) && InSave(After(moves, more, k + 1), t, f, after)
    requires !(more[k].Runs? && more[k].thread == t)
    ensures SaveSoFar(moves, more, k + 1, t, f, x0)
  {
    var s := After(moves, more, k);
    AfterNext(moves, more, k);
    ObjectsMoveForward(s, more[k], f);
    WasThereStays(moves, more, k, f);
    PointKept(s, more[k], t);
    if Saving(s.threads[t]) {
      EntryHeld(s, more[k], t);
    }
  }

  /** A move of somebody else does not move a thread, unless the process stops. */
  lemma PointKept(s: State, m: Move, t: Thread)
    requires t in s.threads && t in Next(s, m).threads && !(m.Runs? && m.thread == t)
    ensures Next(s, m).threads[t] == s.threads[t]
  {
    if m.Runs? && m.thread in s.threads {
      StepMovesOne(s, m.thread, m.choice, t);
    }
  }

  lemma StepMovesOne(s: State, u: Thread, c: Choice, t: Thread)
    requires u in s.threads && t in s.threads && t != u
    ensures t in Step(s, u, c).threads && Step(s, u, c).threads[t] == s.threads[t]
  {
    var pc := s.threads[u];
    if pc.FetchGet? || pc.FetchLoad? || pc.FetchCache? {
      assert OnlyMoves(s, StepFetch(s, u, pc, c), u);
    } else if pc.SaveWait? || pc.SaveTake? || pc.SaveWrite? || pc.SaveFree? {
      assert OnlyMoves(s, StepSave(s, u, pc, c), u);
    } else if pc.Enter? || pc.Crew? {
      CrewMovesOne(s, u, c);
    } else if pc.Act? {
      assert OnlyMoves(s, StepAct(s, u, pc, c), u);
    } else if pc.CacheNew? || pc.StoreNew? || pc.AskLock? || pc.WaitLock? || pc.Submit? || pc.Unlock? {
      OtherMovesOne(s, u, c);
    } else if !pc.Done? {
      assert OnlyMoves(s, StepDelete(s, u, pc), u);
    }
  }

  /** No thread but `u` is at another point; new threads may have come. */
  predicate OnlyMoves(s: State, g: State, u: Thread) {
    forall t :: t in s.threads && t != u ==> t in g.threads && g.threads[t] == s.threads[t]
  }

  lemma CrewMovesOne(s: State, u: Thread, c: Choice)
    requires u in s.threads && (s.threads[u].Enter? || s.threads[u].Crew?)
    ensures OnlyMoves(s, StepCrew(s, u, s.threads[u], c), u)
  {
  }

  lemma OtherMovesOne(s: State, u: Thread, c: Choice)
    requires u in s.threads
    requires var pc := s.threads[u];
             pc.CacheNew? || pc.StoreNew? || pc.AskLock? || pc.WaitLock? || pc.Submit? || pc.Unlock?
    ensures OnlyMoves(s, StepOther(s, u, s.threads[u], c), u)
  {
  }

  lemma {:induction false} SaveProgress(moves: seq<Move>, more: seq<Move>, k: nat, t: Thread, f: FlowId, after: After)
    requires k <= |more| && forall j :: 0 <= j <= k ==> InSave(After(moves, more, j), t, f, after)
    requires StandsAt(After(moves, more, 0), t, SaveWait(f, after))
    ensures f in After(moves, more, 0).heap
    ensures SaveSoFar(moves, more, k, t, f, After(moves, more, 0).heap[f])
  {
    RunKeeps(moves + more[..0]);
    assert Ok(After(moves, more, 0), t, After(moves, more, 0).threads[t]);
    if k > 0 {
      SaveProgress(moves, more, k - 1, t, f, after);
      RunKeeps(moves + more[..k - 1]);
      var x0 := After(moves, more, 0).heap[f];
      if more[k - 1].Runs? && more[k - 1].thread == t {
        OwnStep(moves, more, k - 1, t, f, after, x0);
      } else {
        OthersStep(moves, more, k - 1, t, f, after, x0);
      }
    }
  }

  /**
   * When a thread is about to leave its save with success and the session is
   * still there, the store holds the flow as it was at a moment of the save,
   * no earlier than the change the save was for.
   */
  lemma SaveIsStored(moves: seq<Move>, more: seq<Move>, t: Thread, f: FlowId, after: After)
    requires forall j :: 0 <= j <= |more| ==> InSave(After(moves, more, j), t, f, after)
    requires StandsAt(After(moves, more, 0), t, SaveWait(f, after))
    requires var s := After(moves, more, |more|); StandsAt(s, t, SaveFree(true, f, after)) && s.entry.Stored?
    ensures var s := After(moves, more, |more|);
            && f in After(moves, more, 0).heap && s.entry.snapshot.Some?
            && Le(After(moves, more, 0).heap[f], s.entry.snapshot.value)
            && WasThere(moves, more, |more|, f, s.entry.snapshot.value)
  {
    SaveProgress(moves, more, |more|, t, f, after);
  }

  // ---- Approvals ---------------------------------------------------------------

  /** An accepted approval marks the flow as approved and asks for a save. */
  lemma ApprovalMarks(s: State, t: Thread, c: Choice, f: FlowId, after: After)
    requires t in s.threads && s.threads[t].Act? && s.threads[t].action.Approving?
    requires StandsAt(Next(s, Runs(t, c)), t, SaveWait(f, after))
    ensures var g := Next(s, Runs(t, c)); f == s.threads[t].flow && f in g.heap && g.heap[f].approved
  {
  }

  /**
   * An accepted approval whose save succeeded is in the store, and stays there
   * whatever follows.
   */
  lemma ApprovalIsStored(moves: seq<Move>, c: Choice, more: seq<Move>, later: seq<Move>, t: Thread, f: FlowId,
                         after: After)
    requires var s := Run(Start(), moves); t in s.threads && s.threads[t].Act? && s.threads[t].action.Approving?
    requires StandsAt(After(moves + [Runs(t, c)], more, 0), t, SaveWait(f, after))
    requires forall j :: 0 <= j <= |more| ==> InSave(After(moves + [Runs(t, c)], more, j), t, f, after)
    requires var s := After(moves + [Runs(t, c)], more, |more|);
             StandsAt(s, t, SaveFree(true, f, after)) && s.entry.Stored?
    ensures SavedApproval(Run(Start(), moves + [Runs(t, c)] + more + later))
  {
    var base := moves + [Runs(t, c)];
    RunFurther(moves, [Runs(t, c)]);
    assert [Runs(t, c)][..0] == [] && moves + [] == moves && base + more[..0] == base;
    ApprovalMarks(Run(Start(), moves), t, c, f, after);
    SaveIsStored(base, more, t, f, after);
    assert more[..|more|] == more;
    ApprovalKept(base + more, later);
  }

  // ---- Restart -----------------------------------------------------------------

  /** The process is up, knows nothing, and the store holds `x`. */
  predicate JustUp(g: State, x: Image) {
    && g.threads == map[] && g.cache.None? && g.lockOf.None? && g.owner == map[] && g.entry == Stored(Some(x))
  }

  /** The request has the session lock and looks for the flow. */
  lemma RequestLocks(g: State, t: Thread, a: Action, c: Choice, x: Image)
    requires JustUp(g, x)
    ensures var h := Next(Next(Next(g, Request(t, a)), Runs(t, c)), Runs(t, c));
            && StandsAt(h, t, FetchGet(ForAction(a, g.nextLock)))
            && h.cache.None? && h.heap == g.heap && h.entry == g.entry
  {
    var s1 := Next(g, Request(t, a));
    assert s1.threads == map[t := AskLock(a)];
    var s2 := Next(s1, Runs(t, c));
    assert s2.threads[t] == WaitLock(a, g.nextLock) && g.nextLock !in s2.owner;
  }

  lemma RequestLoads(g: State, t: Thread, a: Action, l: Lock, c: Choice, x: Image)
    requires StandsAt(g, t, FetchGet(ForAction(a, l))) && g.cache.None? && g.entry == Stored(Some(x))
    requires c.made !in g.heap
    ensures var h := Next(Next(Next(g, Runs(t, c)), Runs(t, c)), Runs(t, c));
            && StandsAt(h, t, Act(a, l, c.made)) && h.entry == g.entry
            && h.cache == Some(c.made) && c.made in h.heap && h.heap[c.made] == x
  {
    var s1 := Next(g, Runs(t, c));
    assert StandsAt(s1, t, FetchLoad(ForAction(a, l)));
    var s2 := Next(s1, Runs(t, c));
    assert StandsAt(s2, t, FetchCache(ForAction(a, l), c.made));
  }

  /** A restarted process and its first request, one step after the other. */
  lemma FirstRequest(g: State, t: Thread, a: Action, c: Choice, x: Image)
    requires JustUp(g, x) && c.made !in g.heap
    ensures var h := Run(g, [Request(t, a), Runs(t, c), Runs(t, c), Runs(t, c), Runs(t, c), Runs(t, c)]);
            && StandsAt(h, t, Act(a, g.nextLock, c.made)) && h.entry == g.entry
            && h.cache == Some(c.made) && c.made in h.heap && h.heap[c.made] == x
  {
    RequestLocks(g, t, a, c, x);
    RequestLoads(Next(Next(Next(g, Request(t, a)), Runs(t, c)), Runs(t, c)), t, a, g.nextLock, c, x);
    SixMoves(g, Request(t, a), Runs(t, c));
  }

  lemma SixMoves(g: State, q: Move, r: Move)
    ensures Run(g, [q, r, r, r, r, r]) == Next(Next(Next(Next(Next(Next(g, q), r), r), r), r), r)
  {
    assert [] + [q] == [q] && [q] + [r] == [q, r] && [q, r] + [r] == [q, r, r];
    assert [q, r, r] + [r] == [q, r, r, r] && [q, r, r, r] + [r] == [q, r, r, r, r];
    assert [q, r, r, r, r] + [r] == [q, r, r, r, r, r];
    OneMoreMove(g, [], q);
    OneMoreMove(g, [q], r);
    OneMoreMove(g, [q, r], r);
    OneMoreMove(g, [q, r, r], r);
    OneMoreMove(g, [q, r, r, r], r);
    OneMoreMove(g, [q, r, r, r, r], r);
  }

  lemma OneMoreMove(g: State, ms: seq<Move>, m: Move)
    ensures Run(g, ms + [m]) == Next(Run(g, ms), m)
  {
    assert (ms + [m])[..|ms|] == ms;
  }

  /** After a restart the first request works on the flow exactly as it was last saved. */
  lemma RestartRecovers(moves: seq<Move>, t: Thread, a: Action, c: Choice)
    requires var s := Run(Start(), moves); s.entry.Stored? && s.entry.snapshot.Some? && c.made !in s.heap
    ensures var s := Run(Start(), moves);
            var h := Run(Restarted(s), [Request(t, a), Runs(t, c), Runs(t, c), Runs(t, c), Runs(t, c), Runs(t, c)]);
            && Next(s, Restart) == Restarted(s)
            && t in h.threads && h.threads[t].Act? && h.threads[t].action == a && h.cache == Some(h.threads[t].flow)
            && h.threads[t].flow in h.heap && h.heap[h.threads[t].flow] == s.entry.snapshot.value
  {
    RunKeeps(moves);
    var s := Run(Start(), moves);
    FirstRequest(Restarted(s), t, a, c, s.entry.snapshot.value);
  }

  // ---- Deletion ----------------------------------------------------------------

  predicate CachedApproved(s: State) {
    s.cache.Some? && s.cache.value in s.heap && s.heap[s.cache.value].approved
  }

  /** A deletion is granted exactly while no gate is approved, in memory or in what it read from the store. */
  lemma GrantedIff(moves: seq<Move>, t: Thread, c: Choice)
    requires var s := Run(Start(), moves); t in s.threads && s.threads[t].DelCheck?
    ensures var s := Run(Start(), moves);
            var pc, g := s.threads[t], Next(s, Runs(t, c));
            g.threads[t] == DelEntry(pc.lock)
            <==> pc.data.Missing?
                 || (!CachedApproved(s) && !(pc.data.snapshot.Some? && pc.data.snapshot.value.approved))
  {
    RunKeeps(moves);
    var s := Run(Start(), moves);
    assert Ok(s, t, s.threads[t]);
    if s.cache.Some? {
      SignedOffIsApproved(s.heap[s.cache.value]);
    }
    if s.threads[t].data.Stored? && s.threads[t].data.snapshot.Some? {
      SignedOffIsApproved(s.threads[t].data.snapshot.value);
    }
  }

  lemma SignedOffIsApproved(x: Image)
    requires Fair(x)
    ensures SignedOff(x) <==> x.approved
  {
  }

  /** What a granted deletion has done so far. */
  predicate Erased(s: State, pc: Pc) {
    && (pc.DelFlow? ==> s.entry.Missing?)
    && (pc.DelForget? || pc.Unlock? || pc.Done? ==> !Active(s))
  }

  predicate Deleting(pc: Pc, l: Lock) {
    pc == DelEntry(l) || pc == DelFlow(l) || pc == DelForget(l) || pc == Unlock(l) || pc == Done
  }

  /** Nothing brings a session back once it is gone from the store and from memory. */
  lemma GoneStays(s: State, m: Move)
    requires Inv(s) && s.created && !Active(s)
    ensures !Active(Next(s, m))
  {
    if m.Runs? && m.thread in s.threads {
      assert Ok(s, m.thread, s.threads[m.thread]);
      StepKeepsGone(s, m.thread, m.choice);
    }
  }

  lemma StepKeepsGone(s: State, t: Thread, c: Choice)
    requires t in s.threads && !Active(s)
    requires !s.threads[t].CacheNew? && !s.threads[t].StoreNew? && !s.threads[t].FetchCache?
    ensures !Active(Step(s, t, c))
  {
  }

  lemma DeletingNext(s: State, m: Move, t: Thread, l: Lock)
    requires Inv(s) && s.created && t in s.threads && Deleting(s.threads[t], l) && Erased(s, s.threads[t])
    requires t in Next(s, m).threads
    ensures Deleting(Next(s, m).threads[t], l) && Erased(Next(s, m), Next(s, m).threads[t])
  {
    if m.Runs? && m.thread == t {
      EraserNext(s, t, m.choice, l);
    } else {
      PointKept(s, m, t);
      if !Active(s) {
        GoneStays(s, m);
      } else if s.threads[t].DelFlow? {
        GoneFromStore(s, m);
      }
    }
  }

  lemma EraserNext(s: State, t: Thread, c: Choice, l: Lock)
    requires Inv(s) && t in s.threads && Deleting(s.threads[t], l) && Erased(s, s.threads[t])
    ensures var g := Step(s, t, c); Deleting(g.threads[t], l) && Erased(g, g.threads[t])
  {
  }

  lemma GoneFromStore(s: State, m: Move)
    requires Inv(s) && s.created && s.entry.Missing?
    ensures Next(s, m).entry.Missing?
  {
    if m.Runs? && m.thread in s.threads {
      assert Ok(s, m.thread, s.threads[m.thread]);
      OnlyCreatorStores(s, m.thread, m.choice);
    }
  }

  /** A granted deletion removes the session from the store, and by its end from memory too. */
  lemma {:induction false} GrantedDeleteErases(moves: seq<Move>, more: seq<Move>, t: Thread, l: Lock)
    requires forall j :: 0 <= j <= |more| ==> t in After(moves, more, j).threads
    requires StandsAt(After(moves, more, 0), t, DelEntry(l))
    ensures var s := After(moves, more, |more|);
            && Deleting(s.threads[t], l)
            && (s.threads[t] != DelEntry(l) ==> s.entry.Missing?)
            && (s.threads[t] == Unlock(l) || s.threads[t] == Done ==> s.cache.None?)
  {
    RunKeeps(moves + more[..0]);
    DeletingStarts(After(moves, more, 0), t, l);
    ErasedSoFar(moves, more, |more|, t, l);
  }

  /** Where a granted deletion stands in a run. */
  predicate DeletingIn(s: State, t: Thread, l: Lock) {
    s.created && t in s.threads && Deleting(s.threads[t], l) && Erased(s, s.threads[t])
  }

  lemma DeletingFurther(s: State, m: Move, t: Thread, l: Lock)
    requires Inv(s) && DeletingIn(s, t, l) && t in Next(s, m).threads
    ensures DeletingIn(Next(s, m), t, l)
  {
    DeletingNext(s, m, t, l);
    CreatedStays(s, m);
  }

  lemma CreatedStays(s: State, m: Move)
    requires s.created
    ensures Next(s, m).created
  {
    if m.Runs? && m.thread in s.threads && !Next(s, m).created {
      StoreChangesAt(s, m.thread, m.choice);
    }
  }

  lemma DeletingStarts(s: State, t: Thread, l: Lock)
    requires Inv(s) && StandsAt(s, t, DelEntry(l))
    ensures DeletingIn(s, t, l)
  {
    assert Ok(s, t, s.threads[t]);
  }

  lemma ErasedFurther(moves: seq<Move>, more: seq<Move>, k: nat, t: Thread, l: Lock)
    requires k < |more| && DeletingIn(After(moves, more, k), t, l) && t in After(moves, more, k + 1).threads
    ensures DeletingIn(After(moves, more, k + 1), t, l)
  {
    RunKeeps(moves + more[..k]);
    AfterNext(moves, more, k);
    DeletingFurther(After(moves, more, k), more[k], t, l);
  }

  lemma {:induction false} ErasedSoFar(moves: seq<Move>, more: seq<Move>, k: nat, t: Thread, l: Lock)
    requires k <= |more| && forall j :: 0 <= j <= k ==> t in After(moves, more, j).threads
    requires DeletingIn(After(moves, more, 0), t, l)
    ensures DeletingIn(After(moves, more, k), t, l)
  {
    if k > 0 {
      ErasedSoFar(moves, more, k - 1, t, l);
      ErasedFurther(moves, more, k - 1, t, l);
    }
  }
}

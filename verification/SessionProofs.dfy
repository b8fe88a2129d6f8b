/** What the locks of module Sessions guarantee under every interleaving. */
module SessionProofs {
  import opened Options
  import opened Machine
  import opened Sessions

  // ---- What a program point implies --------------------------------------------

  function LockOfUse(u: Use): Option<Lock> {
    match u case ForAction(_, l) => Some(l) case ForCrew(_) => None
  }

  function LockOfAfter(a: After): Option<Lock> {
    match a
    case ThenUnlock(l) => Some(l)
    case ThenSubmit(_, l) => Some(l)
    case ThenSubmitFirst => None
    case ThenEnd => None
  }

  /** The lock the thread holds. */
  function Holds(pc: Pc): Option<Lock> {
    match pc
    case FetchGet(u) => LockOfUse(u)
    case FetchLoad(u) => LockOfUse(u)
    case FetchCache(u, _) => LockOfUse(u)
    case Act(_, l, _) => Some(l)
    case SaveWait(_, a) => LockOfAfter(a)
    case SaveTake(_, a) => LockOfAfter(a)
    case SaveWrite(_, _, a) => LockOfAfter(a)
    case SaveFree(_, _, a) => LockOfAfter(a)
    case Submit(_, held) => held
    case Unlock(l) => Some(l)
    case DelRead(l) => Some(l)
    case DelCheck(l, _) => Some(l)
    case DelEntry(l) => Some(l)
    case DelFlow(l) => Some(l)
    case DelForget(l) => Some(l)
    case CacheNew(_) => None
    case StoreNew(_) => None
    case AskLock(_) => None
    case WaitLock(_, _) => None
    case DelAsk => None
    case DelWait(_) => None
    case Enter(_, _) => None
    case Crew(_, _) => None
    case Done => None
  }

  /** The lock the thread holds or waits for. */
  function Knows(pc: Pc): Option<Lock> {
    match pc
    case WaitLock(_, l) => Some(l)
    case DelWait(l) => Some(l)
    case _ => Holds(pc)
  }

  /** The flow object the thread works on. */
  function FlowOf(pc: Pc): Option<FlowId> {
    if pc.CacheNew? || pc.StoreNew? || pc.FetchCache? || pc.Act? || pc.SaveWait? || pc.SaveTake? || pc.SaveWrite?
       || pc.Enter? || pc.Crew?
    then Some(pc.flow) else None
  }

  predicate Saving(pc: Pc) { pc.SaveTake? || pc.SaveWrite? || pc.SaveFree? }

  /** The thread is running the crew of this phase, or will start it. */
  function Token(pc: Pc): Option<Phase> {
    match pc
    case CacheNew(_) => Some(1)
    case StoreNew(_) => Some(1)
    case FetchGet(u) => if u.ForCrew? then Some(u.phase) else None
    case FetchLoad(u) => if u.ForCrew? then Some(u.phase) else None
    case FetchCache(u, _) => if u.ForCrew? then Some(u.phase) else None
    case SaveWait(_, a) => TokenAfter(a)
    case SaveTake(_, a) => TokenAfter(a)
    case SaveWrite(_, _, a) => TokenAfter(a)
    case SaveFree(_, _, a) => TokenAfter(a)
    case Submit(n, _) => Some(n)
    case Enter(n, _) => Some(n)
    case Crew(n, _) => Some(n)
    case _ => None
  }

  function TokenAfter(a: After): Option<Phase> {
    match a case ThenSubmit(n, _) => Some(n) case ThenSubmitFirst => Some(1) case _ => None
  }

  // ---- The invariant -----------------------------------------------------------

  /** `y` is a later state of the flow than `x`. */
  predicate Le(x: Image, y: Image) {
    x.version <= y.version && (x.approved ==> y.approved)
  }

  /** Gate passed by status means a gate approved by trail. */
  predicate Fair(x: Image) {
    GatesPassed(x.status) > 0 ==> x.approved
  }

  predicate Active(s: State) {
    s.entry.Stored? || s.cache.Some?
  }

  /** What the store and the cache say about each other. */
  predicate Shared(s: State) {
    && (s.cache.Some? ==> s.cache.value in s.heap)
    && (s.entry.Stored? && s.entry.snapshot.Some? ==> Fair(s.entry.snapshot.value))
    && (s.entry.Stored? ==> s.created)
    && (s.entry.Stored? && s.entry.snapshot.Some? && s.cache.Some? ==>
        Le(s.entry.snapshot.value, s.heap[s.cache.value]))
    && (s.lockOf.Some? ==> s.lockOf.value < s.nextLock)
    && forall f :: f in s.heap ==> Fair(s.heap[f])
  }

  predicate LocksOk(s: State, t: Thread, pc: Pc) {
    && (Holds(pc).Some? ==> Holds(pc).value in s.owner && s.owner[Holds(pc).value] == t)
    && (Active(s) && Knows(pc).Some? ==> s.lockOf == Knows(pc))
    && (Saving(pc) ==> s.saveOwner == Some(t))
  }

  predicate FlowOk(s: State, pc: Pc) {
    && (FlowOf(pc).Some? ==> FlowOf(pc).value in s.heap)
    && (FlowOf(pc).Some? && Active(s) && !pc.FetchCache? ==> s.cache == FlowOf(pc))
    && (pc.FetchCache? ==>
          && pc.use.ForAction? && s.cache.None? && s.entry.Stored? && s.entry.snapshot.Some?
          && Le(s.entry.snapshot.value, s.heap[pc.flow]))
    && (pc.FetchLoad? ==> s.cache.None? && (pc.use.ForCrew? ==> s.entry.Missing?))
    && (pc.SaveWrite? ==>
          && Fair(pc.image) && Le(pc.image, s.heap[pc.flow])
          && (s.entry.Stored? && s.entry.snapshot.Some? ==> Le(s.entry.snapshot.value, pc.image)))
    && (pc.Act? || pc.StoreNew? ==> s.cache.Some?)
  }

  predicate TokenOk(s: State, pc: Pc) {
    Token(pc).Some? ==>
      && (s.entry.Stored? ==> s.cache.Some?)
      && (s.cache.Some? && s.cache.value in s.heap ==> s.heap[s.cache.value].status == RunningPhase(Token(pc).value))
      && (FlowOf(pc).Some? && FlowOf(pc).value in s.heap ==>
          s.heap[FlowOf(pc).value].status == RunningPhase(Token(pc).value))
  }

  predicate Creating(pc: Pc) { pc.CacheNew? || pc.StoreNew? }

  /** No gate is approved, in memory or in the store. */
  predicate Unapproved(s: State) {
    && (s.cache.Some? && s.cache.value in s.heap ==> !s.heap[s.cache.value].approved)
    && (s.entry.Stored? && s.entry.snapshot.Some? ==> !s.entry.snapshot.value.approved)
  }

  predicate StageOk(s: State, pc: Pc) {
    && (Creating(pc) <==> !s.created)
    && (pc.DelCheck? ==> (pc.data.Missing? ==> s.entry.Missing?) && (s.cache.None? ==> pc.data == s.entry))
    && (pc.DelCheck? && pc.data.Stored? && pc.data.snapshot.Some? ==> Fair(pc.data.snapshot.value))
    && (pc.DelEntry? && s.entry.Stored? ==> Unapproved(s))
    && (pc.DelFlow? ==> s.entry.Missing?)
    && (pc.DelForget? ==> !Active(s))
  }

  predicate Ok(s: State, t: Thread, pc: Pc) {
    LocksOk(s, t, pc) && FlowOk(s, pc) && TokenOk(s, pc) && StageOk(s, pc)
  }

  /** Only one thread runs, or is about to run, a crew. */
  predicate OneToken(s: State) {
    forall t, u :: t in s.threads && u in s.threads && t != u ==> Token(s.threads[t]).None? || Token(s.threads[u]).None?
  }

  predicate Inv(s: State) {
    && Shared(s) && OneToken(s)
    && forall t :: t in s.threads ==> Ok(s, t, s.threads[t])
  }

  // ---- One step ----------------------------------------------------------------

  /** Thread `t` went to `pc`; the other threads' points still hold. */
  lemma Moved(s: State, g: State, t: Thread, pc: Pc)
    requires Inv(s) && t in s.threads && g.threads == s.threads[t := pc]
    requires Shared(g) && Ok(g, t, pc) && (Token(pc).None? || Token(pc) == Token(s.threads[t]))
    requires forall u :: u in s.threads && u != t ==> Ok(g, u, s.threads[u])
    ensures Inv(g)
  {
  }

  /** Nothing shared changed. */
  lemma MovedAlone(s: State, t: Thread, pc: Pc)
    requires Inv(s) && t in s.threads && Ok(s, t, pc) && (Token(pc).None? || Token(pc) == Token(s.threads[t]))
    ensures Inv(At(s, t, pc))
  {
    forall u | u in s.threads && u != t
      ensures Ok(At(s, t, pc), u, s.threads[u])
    {
      assert Ok(s, u, s.threads[u]);
    }
    Moved(s, At(s, t, pc), t, pc);
  }

  /** Threads do not look at each other's points. */
  lemma PointsApart(s: State, threads: map<Thread, Pc>, u: Thread, pc: Pc)
    requires Ok(s, u, pc)
    ensures Ok(s.(threads := threads), u, pc)
  {
  }

  // ---- Fetching the flow -------------------------------------------------------

  lemma GetKeeps(s: State, t: Thread)
    requires Inv(s) && t in s.threads && s.threads[t].FetchGet?
    ensures Inv(At(s, t, if s.cache.Some? then Have(s.threads[t].use, s.cache.value) else FetchLoad(s.threads[t].use)))
  {
    assert Ok(s, t, s.threads[t]);
    MovedAlone(s, t, if s.cache.Some? then Have(s.threads[t].use, s.cache.value) else FetchLoad(s.threads[t].use));
  }

  lemma GiveUpKeeps(s: State, t: Thread)
    requires Inv(s) && t in s.threads && s.threads[t].FetchLoad?
    ensures Inv(At(s, t, GiveUp(s.threads[t].use)))
  {
    assert Ok(s, t, s.threads[t]);
    MovedAlone(s, t, GiveUp(s.threads[t].use));
  }

  /** A new object in the heap concerns nobody else. */
  lemma NewObject(s: State, f: FlowId, x: Image, u: Thread, pc: Pc)
    requires Ok(s, u, pc) && f !in s.heap
    requires s.cache.Some? ==> s.cache.value in s.heap
    ensures Ok(s.(heap := s.heap[f := x]), u, pc)
  {
  }

  lemma LoadKeeps(s: State, t: Thread, c: Choice)
    requires Inv(s) && t in s.threads && s.threads[t].FetchLoad?
    requires s.entry.Stored? && s.entry.snapshot.Some? && c.made !in s.heap
    ensures Inv(StepFetch(s, t, s.threads[t], c))
  {
    var g := StepFetch(s, t, s.threads[t], c);
    assert Ok(s, t, s.threads[t]);
    forall u | u in s.threads && u != t
      ensures Ok(g, u, s.threads[u])
    {
      assert Ok(s, u, s.threads[u]);
      NewObject(s, c.made, s.entry.snapshot.value, u, s.threads[u]);
    }
    Moved(s, g, t, g.threads[t]);
  }

  /** While the session is active its lock keeps two holders apart. */
  lemma Exclusive(s: State, t: Thread, u: Thread)
    requires Inv(s) && Active(s) && t in s.threads && u in s.threads
    requires Holds(s.threads[t]).Some? && Holds(s.threads[u]).Some?
    ensures t == u
  {
    assert Ok(s, t, s.threads[t]) && Ok(s, u, s.threads[u]);
  }

  lemma CacheKeeps(s: State, t: Thread, c: Choice)
    requires Inv(s) && t in s.threads && s.threads[t].FetchCache?
    ensures Inv(StepFetch(s, t, s.threads[t], c))
  {
    var g := StepFetch(s, t, s.threads[t], c);
    assert Ok(s, t, s.threads[t]);
    forall u | u in s.threads && u != t
      ensures Ok(g, u, s.threads[u])
    {
      assert Ok(s, u, s.threads[u]);
      if Holds(s.threads[u]).Some? {
        Exclusive(s, t, u);
      }
    }
    Moved(s, g, t, g.threads[t]);
  }

  lemma FetchKeeps(s: State, t: Thread, c: Choice)
    requires Inv(s) && t in s.threads
    requires var pc := s.threads[t]; pc.FetchGet? || pc.FetchLoad? || pc.FetchCache?
    ensures Inv(StepFetch(s, t, s.threads[t], c))
  {
    var pc := s.threads[t];
    if pc.FetchGet? {
      GetKeeps(s, t);
    } else if pc.FetchCache? {
      CacheKeeps(s, t, c);
    } else if !(s.entry.Stored? && s.entry.snapshot.Some?) {
      GiveUpKeeps(s, t);
    } else if c.made !in s.heap {
      LoadKeeps(s, t, c);
    }
  }

  // ---- Saving ------------------------------------------------------------------

  /** The save lock changes hands; only threads that save look at it. */
  lemma SaveOwnerStays(s: State, owner: Option<Thread>, u: Thread, pc: Pc)
    requires Ok(s, u, pc) && !Saving(pc)
    ensures Ok(s.(saveOwner := owner), u, pc)
  {
  }

  lemma OneSaver(s: State, t: Thread, u: Thread)
    requires Inv(s) && t in s.threads && u in s.threads && u != t
    requires Saving(s.threads[t]) || s.saveOwner.None?
    ensures !Saving(s.threads[u])
  {
    assert Ok(s, t, s.threads[t]) && Ok(s, u, s.threads[u]);
  }

  lemma WaiterOk(s: State, t: Thread, c: Choice)
    requires Inv(s) && t in s.threads && s.threads[t].SaveWait?
    ensures var g := StepSave(s, t, s.threads[t], c);
            Shared(g) && Ok(g, t, g.threads[t])
            && (Token(g.threads[t]).None? || Token(g.threads[t]) == Token(s.threads[t]))
  {
    assert Ok(s, t, s.threads[t]);
  }

  lemma SaverOk(s: State, t: Thread, c: Choice)
    requires Inv(s) && t in s.threads && s.threads[t].SaveFree?
    ensures var g := StepSave(s, t, s.threads[t], c);
            Shared(g) && Ok(g, t, g.threads[t])
            && (Token(g.threads[t]).None? || Token(g.threads[t]) == Token(s.threads[t]))
  {
    assert Ok(s, t, s.threads[t]);
  }

  lemma SaveLockKeeps(s: State, t: Thread, c: Choice)
    requires Inv(s) && t in s.threads && (s.threads[t].SaveWait? || s.threads[t].SaveFree?)
    ensures Inv(StepSave(s, t, s.threads[t], c))
  {
    var g := StepSave(s, t, s.threads[t], c);
    if g != s {
      if s.threads[t].SaveWait? {
        WaiterOk(s, t, c);
      } else {
        SaverOk(s, t, c);
      }
      forall u | u in s.threads && u != t
        ensures Ok(g, u, s.threads[u])
      {
        assert Ok(s, u, s.threads[u]);
        OneSaver(s, t, u);
        SaveOwnerStays(s, g.saveOwner, u, s.threads[u]);
        PointsApart(s.(saveOwner := g.saveOwner), g.threads, u, s.threads[u]);
      }
      Moved(s, g, t, g.threads[t]);
    }
  }

  lemma TakeKeeps(s: State, t: Thread, c: Choice)
    requires Inv(s) && t in s.threads && s.threads[t].SaveTake?
    ensures Inv(StepSave(s, t, s.threads[t], c))
  {
    assert Ok(s, t, s.threads[t]);
    MovedAlone(s, t, StepSave(s, t, s.threads[t], c).threads[t]);
  }

  /** The save lock orders the writes: nobody else is between snapshot and write. */
  lemma WriteKeeps(s: State, t: Thread, c: Choice)
    requires Inv(s) && t in s.threads && s.threads[t].SaveWrite?
    ensures Inv(StepSave(s, t, s.threads[t], c))
  {
    var g := StepSave(s, t, s.threads[t], c);
    assert Ok(s, t, s.threads[t]);
    if g.entry == s.entry {
      MovedAlone(s, t, g.threads[t]);
    } else {
      forall u | u in s.threads && u != t
        ensures Ok(g, u, s.threads[u])
      {
        assert Ok(s, u, s.threads[u]);
      }
      Moved(s, g, t, g.threads[t]);
    }
  }

  // ---- Crews -------------------------------------------------------------------

  lemma EnterKeeps(s: State, t: Thread, c: Choice)
    requires Inv(s) && t in s.threads && s.threads[t].Enter?
    ensures Inv(StepCrew(s, t, s.threads[t], c))
  {
    assert Ok(s, t, s.threads[t]);
    MovedAlone(s, t, StepCrew(s, t, s.threads[t], c).threads[t]);
  }

  /** The flow object moved on; what others hold of it is older. */
  lemma ObjectMoves(s: State, f: FlowId, x: Image, u: Thread, pc: Pc)
    requires Ok(s, u, pc) && f in s.heap && Le(s.heap[f], x)
    requires s.cache.Some? ==> s.cache.value in s.heap
    requires Token(pc).Some? ==> x.status == s.heap[f].status
    requires x.approved ==> s.heap[f].approved || !pc.DelEntry?
    ensures Ok(s.(heap := s.heap[f := x]), u, pc)
  {
  }

  lemma WorkKeeps(s: State, t: Thread, c: Choice)
    requires Inv(s) && t in s.threads && s.threads[t].Crew? && c.end == Works
    ensures Inv(StepCrew(s, t, s.threads[t], c))
  {
    var g := StepCrew(s, t, s.threads[t], c);
    assert Ok(s, t, s.threads[t]);
    var f := s.threads[t].flow;
    forall u | u in s.threads
      ensures Ok(g, u, s.threads[u])
    {
      assert Ok(s, u, s.threads[u]);
      ObjectMoves(s, f, g.heap[f], u, s.threads[u]);
    }
    Moved(s, g, t, s.threads[t]);
  }

  lemma EnderOk(s: State, t: Thread, c: Choice)
    requires Inv(s) && t in s.threads && s.threads[t].Crew? && c.end != Works && c.end != Dies
    ensures var g := StepCrew(s, t, s.threads[t], c);
            && Shared(g) && Ok(g, t, g.threads[t]) && Token(g.threads[t]).None?
            && s.threads[t].flow in s.heap && g == s.(heap := g.heap, threads := g.threads)
            && g.heap == s.heap[s.threads[t].flow := g.heap[s.threads[t].flow]]
            && Le(s.heap[s.threads[t].flow], g.heap[s.threads[t].flow])
            && g.heap[s.threads[t].flow].approved == s.heap[s.threads[t].flow].approved
  {
    assert Ok(s, t, s.threads[t]);
  }

  /** No other thread has a crew, so the others accept a new status of the crew's flow. */
  lemma BesideCrew(s: State, t: Thread, u: Thread, x: Image)
    requires Inv(s) && t in s.threads && u in s.threads && u != t && s.threads[t].Crew?
    requires s.threads[t].flow in s.heap && Le(s.heap[s.threads[t].flow], x)
    requires x.approved == s.heap[s.threads[t].flow].approved
    ensures Ok(s.(heap := s.heap[s.threads[t].flow := x]), u, s.threads[u])
  {
    assert Token(s.threads[t]).Some?;
    assert Ok(s, u, s.threads[u]);
    ObjectMoves(s, s.threads[t].flow, x, u, s.threads[u]);
  }

  lemma EndKeeps(s: State, t: Thread, c: Choice)
    requires Inv(s) && t in s.threads && s.threads[t].Crew? && c.end != Works
    ensures Inv(StepCrew(s, t, s.threads[t], c))
  {
    var g := StepCrew(s, t, s.threads[t], c);
    var f := s.threads[t].flow;
    assert Ok(s, t, s.threads[t]);
    if c.end == Dies {
      MovedAlone(s, t, Done);
    } else {
      EnderOk(s, t, c);
      forall u | u in s.threads && u != t
        ensures Ok(g, u, s.threads[u])
      {
        BesideCrew(s, t, u, g.heap[f]);
        PointsApart(s.(heap := g.heap), g.threads, u, s.threads[u]);
      }
      Moved(s, g, t, g.threads[t]);
    }
  }

  // ---- Review actions ----------------------------------------------------------

  /** A thread that becomes the only one with a crew to run. */
  lemma MovedWithToken(s: State, g: State, t: Thread, pc: Pc)
    requires Inv(s) && t in s.threads && g.threads == s.threads[t := pc]
    requires Shared(g) && Ok(g, t, pc)
    requires forall u :: u in s.threads && u != t ==> Ok(g, u, s.threads[u]) && Token(s.threads[u]).None?
    ensures Inv(g)
  {
  }

  /** An action that starts a phase finds no crew running or about to run. */
  lemma NoTokenUnlessRunning(s: State, u: Thread)
    requires Inv(s) && u in s.threads && s.cache.Some? && !s.heap[s.cache.value].status.RunningPhase?
    ensures Token(s.threads[u]).None?
  {
    assert Ok(s, u, s.threads[u]);
  }

  lemma ActKeeps(s: State, t: Thread, c: Choice)
    requires Inv(s) && t in s.threads && s.threads[t].Act?
    ensures Inv(StepAct(s, t, s.threads[t], c))
  {
    var g := StepAct(s, t, s.threads[t], c);
    var pc := s.threads[t];
    assert Ok(s, t, pc);
    if g.heap == s.heap && g == At(s, t, Unlock(pc.lock)) {
      MovedAlone(s, t, Unlock(pc.lock));
    } else {
      forall u | u in s.threads && u != t
        ensures Ok(g, u, s.threads[u]) && Token(s.threads[u]).None?
      {
        assert Ok(s, u, s.threads[u]);
        NoTokenUnlessRunning(s, u);
        if Holds(s.threads[u]).Some? {
          Exclusive(s, t, u);
        }
        ObjectMoves(s, pc.flow, g.heap[pc.flow], u, s.threads[u]);
      }
      MovedWithToken(s, g, t, g.threads[t]);
    }
  }

  // ---- Locks -------------------------------------------------------------------

  lemma AskKeeps(s: State, t: Thread, pc: Pc)
    requires Inv(s) && t in s.threads && (s.threads[t].AskLock? || s.threads[t].DelAsk?)
    requires pc == if s.threads[t].DelAsk? then DelWait(WithLock(s).1) else WaitLock(s.threads[t].action, WithLock(s).1)
    ensures Inv(At(WithLock(s).0, t, pc))
  {
    var g := At(WithLock(s).0, t, pc);
    assert Ok(s, t, s.threads[t]);
    forall u | u in s.threads && u != t
      ensures Ok(g, u, s.threads[u])
    {
      assert Ok(s, u, s.threads[u]);
    }
    Moved(s, g, t, pc);
  }

  lemma AcquireKeeps(s: State, t: Thread, l: Lock, pc: Pc)
    requires Inv(s) && t in s.threads && l !in s.owner
    requires (s.threads[t].WaitLock? && s.threads[t].lock == l && pc == FetchGet(ForAction(s.threads[t].action, l)))
             || (s.threads[t] == DelWait(l) && pc == DelRead(l))
    ensures Inv(At(s.(owner := s.owner[l := t]), t, pc))
  {
    var g := At(s.(owner := s.owner[l := t]), t, pc);
    assert Ok(s, t, s.threads[t]);
    forall u | u in s.threads && u != t
      ensures Ok(g, u, s.threads[u])
    {
      assert Ok(s, u, s.threads[u]);
    }
    Moved(s, g, t, pc);
  }

  lemma UnlockKeeps(s: State, t: Thread)
    requires Inv(s) && t in s.threads && s.threads[t].Unlock?
    ensures Inv(At(s.(owner := s.owner - {s.threads[t].lock}), t, Done))
  {
    var g := At(s.(owner := s.owner - {s.threads[t].lock}), t, Done);
    assert Ok(s, t, s.threads[t]);
    forall u | u in s.threads && u != t
      ensures Ok(g, u, s.threads[u])
    {
      assert Ok(s, u, s.threads[u]);
    }
    Moved(s, g, t, Done);
  }

  // ---- Creating and submitting -------------------------------------------------

  /** While the session is being created nobody else knows of it. */
  lemma CreatorAlone(s: State, t: Thread, u: Thread)
    requires Inv(s) && t in s.threads && u in s.threads && Creating(s.threads[t])
    ensures u == t
  {
    assert Ok(s, t, s.threads[t]) && Ok(s, u, s.threads[u]);
  }

  lemma CreateKeeps(s: State, t: Thread, c: Choice)
    requires Inv(s) && t in s.threads && Creating(s.threads[t])
    ensures Inv(StepOther(s, t, s.threads[t], c))
  {
    var g := StepOther(s, t, s.threads[t], c);
    assert Ok(s, t, s.threads[t]);
    forall u | u in s.threads
      ensures u == t
    {
      CreatorAlone(s, t, u);
    }
    Moved(s, g, t, g.threads[t]);
  }

  lemma SubmittedOk(s: State, t: Thread, spawned: Thread, pc: Pc)
    requires Ok(s, t, pc) && pc.Submit?
    ensures Ok(s, spawned, FetchGet(ForCrew(pc.phase))) && Ok(s, t, Released(pc.held))
  {
  }

  lemma AtSwaps(s: State, t: Thread, a: Pc, u: Thread, b: Pc)
    requires t != u
    ensures At(At(s, u, b), t, a) == At(At(s, t, a), u, b)
  {
    assert s.threads[u := b][t := a] == s.threads[t := a][u := b];
  }

  /** A phase thread takes the token over from the request that submits it. */
  lemma HandOver(s: State, t: Thread, spawned: Thread)
    requires Inv(s) && t in s.threads && s.threads[t].Submit? && spawned !in s.threads
    ensures Inv(At(At(s, spawned, FetchGet(ForCrew(s.threads[t].phase))), t, Released(s.threads[t].held)))
  {
    var pc := s.threads[t];
    var mid, first := At(s, t, Released(pc.held)), FetchGet(ForCrew(pc.phase));
    assert Ok(s, t, pc);
    SubmittedOk(s, t, spawned, pc);
    MovedAlone(s, t, Released(pc.held));
    PointsApart(s, mid.threads, spawned, first);
    NoOtherToken(s, t, mid);
    Spawned(mid, spawned, first);
    AtSwaps(s, t, Released(pc.held), spawned, first);
  }

  lemma NoOtherToken(s: State, t: Thread, mid: State)
    requires Inv(s) && t in s.threads && s.threads[t].Submit? && mid == At(s, t, Released(s.threads[t].held))
    ensures forall u :: u in mid.threads ==> Token(mid.threads[u]).None?
  {
    assert Token(s.threads[t]).Some?;
  }

  lemma Spawned(s: State, t: Thread, pc: Pc)
    requires Inv(s) && t !in s.threads && Ok(s, t, pc)
    requires forall u :: u in s.threads ==> Token(s.threads[u]).None?
    ensures Inv(At(s, t, pc))
  {
    var g := At(s, t, pc);
    forall u | u in s.threads
      ensures Ok(g, u, s.threads[u])
    {
      assert Ok(s, u, s.threads[u]);
    }
    assert Ok(g, t, pc);
  }

  lemma SubmitKeeps(s: State, t: Thread, c: Choice)
    requires Inv(s) && t in s.threads && s.threads[t].Submit?
    ensures Inv(StepOther(s, t, s.threads[t], c))
  {
    assert Ok(s, t, s.threads[t]);
    if c.fails {
      MovedAlone(s, t, Released(s.threads[t].held));
    } else if c.spawned !in s.threads {
      HandOver(s, t, c.spawned);
    }
  }

  lemma OtherKeeps(s: State, t: Thread, c: Choice)
    requires Inv(s) && t in s.threads
    requires var pc := s.threads[t];
             pc.CacheNew? || pc.StoreNew? || pc.AskLock? || pc.WaitLock? || pc.Submit? || pc.Unlock?
    ensures Inv(StepOther(s, t, s.threads[t], c))
  {
    var pc := s.threads[t];
    if Creating(pc) {
      CreateKeeps(s, t, c);
    } else if pc.AskLock? {
      AskKeeps(s, t, WaitLock(pc.action, WithLock(s).1));
    } else if pc.WaitLock? {
      if pc.lock !in s.owner {
        AcquireKeeps(s, t, pc.lock, FetchGet(ForAction(pc.action, pc.lock)));
      }
    } else if pc.Submit? {
      SubmitKeeps(s, t, c);
    } else {
      UnlockKeeps(s, t);
    }
  }

  // ---- Deleting ----------------------------------------------------------------

  lemma ReadKeeps(s: State, t: Thread)
    requires Inv(s) && t in s.threads && s.threads[t].DelRead?
    ensures Inv(At(s, t, DelCheck(s.threads[t].lock, s.entry)))
  {
    assert Ok(s, t, s.threads[t]);
    MovedAlone(s, t, DelCheck(s.threads[t].lock, s.entry));
  }

  /** A draft that passes the check has no approval, in memory or in the store. */
  lemma CheckKeeps(s: State, t: Thread)
    requires Inv(s) && t in s.threads && s.threads[t].DelCheck?
    ensures Inv(StepDelete(s, t, s.threads[t]))
  {
    assert Ok(s, t, s.threads[t]);
    MovedAlone(s, t, StepDelete(s, t, s.threads[t]).threads[t]);
  }

  lemma EntryErased(s: State, t: Thread, u: Thread)
    requires Inv(s) && t in s.threads && u in s.threads && u != t && s.threads[t].DelEntry?
    ensures Ok(s.(entry := Missing), u, s.threads[u])
  {
    assert Ok(s, u, s.threads[u]);
    if Active(s) && Holds(s.threads[u]).Some? {
      Exclusive(s, t, u);
    }
  }

  lemma FlowErased(s: State, t: Thread, u: Thread)
    requires Inv(s) && t in s.threads && u in s.threads && u != t && s.threads[t].DelFlow?
    ensures Ok(s.(cache := None), u, s.threads[u])
  {
    assert Ok(s, u, s.threads[u]) && Ok(s, t, s.threads[t]);
    if Active(s) && Holds(s.threads[u]).Some? {
      Exclusive(s, t, u);
    }
  }

  lemma LockErased(s: State, t: Thread, u: Thread)
    requires Inv(s) && t in s.threads && u in s.threads && u != t && s.threads[t].DelForget?
    ensures Ok(s.(lockOf := None), u, s.threads[u])
  {
    assert Ok(s, u, s.threads[u]) && Ok(s, t, s.threads[t]);
  }

  lemma EraseKeeps(s: State, t: Thread)
    requires Inv(s) && t in s.threads && (s.threads[t].DelEntry? || s.threads[t].DelFlow? || s.threads[t].DelForget?)
    ensures Inv(StepDelete(s, t, s.threads[t]))
  {
    var g := StepDelete(s, t, s.threads[t]);
    var pc := s.threads[t];
    var mid := if pc.DelEntry? then s.(entry := Missing)
               else if pc.DelFlow? then s.(cache := None)
               else s.(lockOf := None);
    assert g == mid.(threads := g.threads);
    forall u | u in s.threads && u != t
      ensures Ok(g, u, s.threads[u])
    {
      if pc.DelEntry? {
        EntryErased(s, t, u);
      } else if pc.DelFlow? {
        FlowErased(s, t, u);
      } else {
        LockErased(s, t, u);
      }
      PointsApart(mid, g.threads, u, s.threads[u]);
    }
    if pc.DelEntry? {
      EntryEraserOk(s, t);
    } else if pc.DelFlow? {
      FlowEraserOk(s, t);
    } else {
      LockEraserOk(s, t);
    }
    Moved(s, g, t, g.threads[t]);
  }

  lemma EntryEraserOk(s: State, t: Thread)
    requires Inv(s) && t in s.threads && s.threads[t].DelEntry?
    ensures var g := StepDelete(s, t, s.threads[t]); Shared(g) && Ok(g, t, g.threads[t])
  {
    assert Ok(s, t, s.threads[t]);
  }

  lemma FlowEraserOk(s: State, t: Thread)
    requires Inv(s) && t in s.threads && s.threads[t].DelFlow?
    ensures var g := StepDelete(s, t, s.threads[t]); Shared(g) && Ok(g, t, g.threads[t])
  {
    assert Ok(s, t, s.threads[t]);
  }

  lemma LockEraserOk(s: State, t: Thread)
    requires Inv(s) && t in s.threads && s.threads[t].DelForget?
    ensures var g := StepDelete(s, t, s.threads[t]); Shared(g) && Ok(g, t, g.threads[t])
  {
    assert Ok(s, t, s.threads[t]);
  }

  lemma DeleteKeeps(s: State, t: Thread)
    requires Inv(s) && t in s.threads
    requires var pc := s.threads[t];
             pc.DelAsk? || pc.DelWait? || pc.DelRead? || pc.DelCheck? || pc.DelEntry? || pc.DelFlow? || pc.DelForget?
    ensures Inv(StepDelete(s, t, s.threads[t]))
  {
    var pc := s.threads[t];
    if pc.DelAsk? {
      AskKeeps(s, t, DelWait(WithLock(s).1));
    } else if pc.DelWait? {
      if pc.lock !in s.owner {
        AcquireKeeps(s, t, pc.lock, DelRead(pc.lock));
      }
    } else if pc.DelRead? {
      ReadKeeps(s, t);
    } else if pc.DelCheck? {
      CheckKeeps(s, t);
    } else {
      EraseKeeps(s, t);
    }
  }

  // ---- Every interleaving ------------------------------------------------------

  lemma StepKeeps(s: State, t: Thread, c: Choice)
    requires Inv(s) && t in s.threads
    ensures Inv(Step(s, t, c))
  {
    var pc := s.threads[t];
    if pc.FetchGet? || pc.FetchLoad? || pc.FetchCache? {
      FetchKeeps(s, t, c);
    } else if pc.SaveWait? || pc.SaveFree? {
      SaveLockKeeps(s, t, c);
    } else if pc.SaveTake? {
      TakeKeeps(s, t, c);
    } else if pc.SaveWrite? {
      WriteKeeps(s, t, c);
    } else if pc.Enter? {
      EnterKeeps(s, t, c);
    } else if pc.Crew? {
      if c.end == Works {
        WorkKeeps(s, t, c);
      } else {
        EndKeeps(s, t, c);
      }
    } else if pc.Act? {
      ActKeeps(s, t, c);
    } else if pc.CacheNew? || pc.StoreNew? || pc.AskLock? || pc.WaitLock? || pc.Submit? || pc.Unlock? {
      OtherKeeps(s, t, c);
    } else if !pc.Done? {
      DeleteKeeps(s, t);
    }
  }

  /** A new thread that holds nothing yet. */
  lemma SpawnKeeps(s: State, t: Thread, pc: Pc)
    requires Inv(s) && s.created && t !in s.threads && (pc.AskLock? || pc.DelAsk?)
    ensures Inv(At(s, t, pc))
  {
    var g := At(s, t, pc);
    forall u | u in g.threads
      ensures Ok(g, u, g.threads[u])
    {
      if u in s.threads {
        assert Ok(s, u, s.threads[u]);
      }
    }
  }

  lemma NextKeeps(s: State, m: Move)
    requires Inv(s)
    ensures Inv(Next(s, m))
  {
    match m
    case Runs(t, c) => if t in s.threads { StepKeeps(s, t, c); }
    case Request(t, a) => if t !in s.threads && s.entry.Stored? { SpawnKeeps(s, t, AskLock(a)); }
    case Delete(t) => if t !in s.threads && s.created { SpawnKeeps(s, t, DelAsk); }
    case Restart =>
  }

  lemma StartIsGood()
    ensures Inv(Start())
  {
  }

  lemma {:induction false} RunKeeps(moves: seq<Move>)
    ensures Inv(Run(Start(), moves))
  {
    StartIsGood();
    if moves != [] {
      RunKeeps(moves[..|moves| - 1]);
      NextKeeps(Run(Start(), moves[..|moves| - 1]), moves[|moves| - 1]);
    }
  }

  // ---- What every interleaving guarantees --------------------------------------

  predicate RunsCrew(s: State, t: Thread) {
    t in s.threads && s.threads[t].Crew?
  }

  /**
   * At most one crew runs; it runs for the phase the machine is running, on
   * the flow object everybody else sees.
   */
  lemma OneCrew(moves: seq<Move>, t: Thread, u: Thread)
    ensures var s := Run(Start(), moves);
            RunsCrew(s, t) ==>
              && (RunsCrew(s, u) ==> t == u)
              && s.threads[t].flow in s.heap && s.heap[s.threads[t].flow].status == RunningPhase(s.threads[t].phase)
              && (Active(s) ==> s.cache == Some(s.threads[t].flow))
  {
    RunKeeps(moves);
    var s := Run(Start(), moves);
    if RunsCrew(s, t) {
      assert Ok(s, t, s.threads[t]);
      assert Token(s.threads[t]).Some?;
      if RunsCrew(s, u) {
        assert Token(s.threads[u]).Some?;
      }
    }
  }

  /** A step that is not a save, a deletion or a creation does not touch the store. */
  lemma OthersKeepStore(s: State, t: Thread, c: Choice)
    requires t in s.threads
    ensures var pc := s.threads[t];
            && (pc.FetchGet? || pc.FetchLoad? || pc.FetchCache? ==> SameStore(s, StepFetch(s, t, pc, c)))
            && (pc.Enter? || pc.Crew? ==> SameStore(s, StepCrew(s, t, pc, c)))
            && (pc.Act? ==> SameStore(s, StepAct(s, t, pc, c)))
  {
  }

  predicate SameStore(s: State, g: State) {
    g.entry == s.entry && g.created == s.created
  }

  lemma SaveStoresAt(s: State, t: Thread, c: Choice)
    requires t in s.threads
    requires var pc := s.threads[t]; pc.SaveWait? || pc.SaveTake? || pc.SaveWrite? || pc.SaveFree?
    ensures var pc, g := s.threads[t], StepSave(s, t, s.threads[t], c);
            && g.created == s.created
            && (g.entry != s.entry ==> pc.SaveWrite? && s.entry.Stored? && g.entry == Stored(Some(pc.image)))
  {
  }

  lemma DeleteStoresAt(s: State, t: Thread)
    requires t in s.threads
    requires var pc := s.threads[t];
             pc.DelAsk? || pc.DelWait? || pc.DelRead? || pc.DelCheck? || pc.DelEntry? || pc.DelFlow? || pc.DelForget?
    ensures var pc, g := s.threads[t], StepDelete(s, t, s.threads[t]);
            g.created == s.created && (g.entry != s.entry ==> pc.DelEntry? && g.entry == Missing)
  {
  }

  lemma OtherStoresAt(s: State, t: Thread, c: Choice)
    requires t in s.threads
    requires var pc := s.threads[t];
             pc.CacheNew? || pc.StoreNew? || pc.AskLock? || pc.WaitLock? || pc.Submit? || pc.Unlock?
    ensures var pc, g := s.threads[t], StepOther(s, t, s.threads[t], c);
            && (!SameStore(s, g) ==> pc.StoreNew?)
            && (g.entry != s.entry ==> g.entry == Stored(None))
  {
  }

  /** The store changes only where an image is written, an entry made or an entry removed. */
  lemma StoreChangesAt(s: State, t: Thread, c: Choice)
    requires t in s.threads && !SameStore(s, Step(s, t, c))
    ensures var pc, g := s.threads[t], Step(s, t, c);
            || (pc.SaveWrite? && s.entry.Stored? && g.entry == Stored(Some(pc.image)))
            || (pc.StoreNew? && (g.entry == s.entry || g.entry == Stored(None)))
            || (pc.DelEntry? && g.entry == Missing && g.created == s.created)
  {
    var pc := s.threads[t];
    OthersKeepStore(s, t, c);
    if pc.SaveWait? || pc.SaveTake? || pc.SaveWrite? || pc.SaveFree? {
      SaveStoresAt(s, t, c);
    } else if pc.CacheNew? || pc.StoreNew? || pc.AskLock? || pc.WaitLock? || pc.Submit? || pc.Unlock? {
      OtherStoresAt(s, t, c);
    } else if pc.DelAsk? || pc.DelWait? || pc.DelRead? || pc.DelCheck? || pc.DelEntry? || pc.DelFlow? || pc.DelForget? {
      DeleteStoresAt(s, t);
    }
  }

  /** Only the creating request makes an entry. */
  lemma OnlyCreatorStores(s: State, t: Thread, c: Choice)
    requires t in s.threads && !s.threads[t].StoreNew? && s.entry.Missing?
    ensures SameStore(s, Step(s, t, c))
  {
    if !SameStore(s, Step(s, t, c)) {
      StoreChangesAt(s, t, c);
    }
  }

  /** A session once deleted is never stored again: no later step recreates its entry. */
  lemma StaysDeleted(moves: seq<Move>, m: Move)
    requires Run(Start(), moves).created && Run(Start(), moves).entry.Missing?
    ensures Next(Run(Start(), moves), m).entry.Missing? && Next(Run(Start(), moves), m).created
  {
    RunKeeps(moves);
    var s := Run(Start(), moves);
    if m.Runs? && m.thread in s.threads {
      assert Ok(s, m.thread, s.threads[m.thread]);
      OnlyCreatorStores(s, m.thread, m.choice);
    }
  }

  lemma MoveChangesAt(s: State, m: Move)
    requires Next(s, m).entry != s.entry
    ensures m.Runs? && m.thread in s.threads && Next(s, m) == Step(s, m.thread, m.choice)
  {
  }

  /** What a save is about to write is later than what is stored. */
  lemma WriteIsLater(s: State, t: Thread)
    requires Inv(s) && t in s.threads
    ensures s.threads[t].SaveWrite? && s.entry.Stored? && s.entry.snapshot.Some? ==>
              Le(s.entry.snapshot.value, s.threads[t].image)
    ensures s.threads[t].StoreNew? ==> s.entry.Missing?
    ensures s.threads[t].DelEntry? && s.entry.Stored? ==> Unapproved(s)
  {
    assert Ok(s, t, s.threads[t]);
  }

  /** The stored snapshot only moves forward, whoever writes it, also across restarts. */
  lemma SnapshotsMoveForward(moves: seq<Move>, m: Move)
    ensures var s, g := Run(Start(), moves), Next(Run(Start(), moves), m);
            s.entry.Stored? && s.entry.snapshot.Some? && g.entry.Stored? ==>
              g.entry.snapshot.Some? && Le(s.entry.snapshot.value, g.entry.snapshot.value)
  {
    RunKeeps(moves);
    var s := Run(Start(), moves);
    if Next(s, m).entry != s.entry {
      MoveChangesAt(s, m);
      StoreChangesAt(s, m.thread, m.choice);
      WriteIsLater(s, m.thread);
    }
  }

  /** Deletion removes a stored session only while no gate of it is approved, in memory or in the store. */
  lemma DeletedOnlyUnapproved(moves: seq<Move>, m: Move)
    ensures var s, g := Run(Start(), moves), Next(Run(Start(), moves), m);
            s.entry.Stored? && g.entry.Missing? ==> Unapproved(s)
  {
    RunKeeps(moves);
    var s := Run(Start(), moves);
    if Next(s, m).entry != s.entry {
      MoveChangesAt(s, m);
      StoreChangesAt(s, m.thread, m.choice);
      WriteIsLater(s, m.thread);
    }
  }

  predicate SavedApproval(s: State) {
    s.entry.Stored? && s.entry.snapshot.Some? && s.entry.snapshot.value.approved
  }

  lemma RunFurther(moves: seq<Move>, more: seq<Move>)
    requires more != []
    ensures Run(Start(), moves + more) == Next(Run(Start(), moves + more[..|more| - 1]), more[|more| - 1])
  {
    LastOf(moves, more);
    RunLast(Start(), moves + more);
  }

  lemma LastOf(moves: seq<Move>, more: seq<Move>)
    requires more != []
    ensures var all := moves + more;
            all[..|all| - 1] == moves + more[..|more| - 1] && all[|all| - 1] == more[|more| - 1]
  {
  }

  lemma RunLast(s: State, all: seq<Move>)
    requires all != []
    ensures Run(s, all) == Next(Run(s, all[..|all| - 1]), all[|all| - 1])
  {
  }

  /** A saved approval is in the store for good, whatever requests, threads, deletions and restarts follow. */
  lemma {:induction false} ApprovalKept(moves: seq<Move>, more: seq<Move>)
    requires SavedApproval(Run(Start(), moves))
    ensures SavedApproval(Run(Start(), moves + more))
  {
    if more == [] {
      assert moves + more == moves;
    } else {
      var init := more[..|more| - 1];
      ApprovalKept(moves, init);
      RunFurther(moves, more);
      DeletedOnlyUnapproved(moves + init, more[|more| - 1]);
      SnapshotsMoveForward(moves + init, more[|more| - 1]);
    }
  }

  /** A deleted session stays deleted, whatever late threads do. */
  lemma {:induction false} DeletedForGood(moves: seq<Move>, more: seq<Move>)
    requires Run(Start(), moves).created && Run(Start(), moves).entry.Missing?
    ensures Run(Start(), moves + more).entry.Missing? && Run(Start(), moves + more).created
  {
    if more == [] {
      assert moves + more == moves;
    } else {
      DeletedForGood(moves, more[..|more| - 1]);
      RunFurther(moves, more);
      StaysDeleted(moves + more[..|more| - 1], more[|more| - 1]);
    }
  }
}

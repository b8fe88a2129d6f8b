/** A started phase is never forgotten, in module Sessions. */
module SessionPhases {
  import opened Options
  import opened Machine
  import opened Sessions
  import opened SessionProofs
  import opened SessionSaves

  /** Nothing fails: no save or submission, no phase thread dies, the process stays up. */
  predicate Smooth(m: Move) {
    && m != Restart
    && (m.Runs? ==> !m.choice.fails && m.choice.end != Dies)
  }

  /** The flow everybody sees is running this phase. */
  predicate Running(s: State, n: Phase) {
    && s.entry.Stored? && s.cache.Some? && s.cache.value in s.heap
    && s.heap[s.cache.value].status == RunningPhase(n)
  }

  /** Some thread is running the crew of the phase, or is on its way to it. */
  ghost predicate HasRunner(s: State, n: Phase) {
    exists t :: t in s.threads && Token(s.threads[t]) == Some(n)
  }

  ghost predicate PhasesRun(s: State) {
    && (s.entry.Stored? ==> s.cache.Some?)
    && (forall t :: t in s.threads && s.threads[t].SaveFree? ==> s.threads[t].ok)
    && forall n: Phase :: Running(s, n) ==> HasRunner(s, n)
  }

  // ---- One step ----------------------------------------------------------------

  /** The runner of a phase is another thread, or the step keeps its task. */
  lemma RunnerKept(s: State, g: State, t: Thread, n: Phase)
    requires HasRunner(s, n) && t in s.threads && OnlyMoves(s, g, t)
    requires Token(s.threads[t]) == Some(n) ==> t in g.threads && Token(g.threads[t]) == Some(n)
    ensures HasRunner(g, n)
  {
    var u :| u in s.threads && Token(s.threads[u]) == Some(n);
    assert u in g.threads && Token(g.threads[u]) == Some(n);
  }

  /** The step starts no phase, and drops its task only when the phase is no longer running. */
  predicate KeepsTask(s: State, g: State, t: Thread)
    requires t in s.threads
  {
    && g.threads.Keys == s.threads.Keys && OnlyMoves(s, g, t)
    && (g.entry.Stored? ==> g.cache.Some?) && (g.threads[t].SaveFree? ==> g.threads[t].ok)
    && forall n: Phase :: Running(g, n) ==>
         Running(s, n) && (Token(s.threads[t]) == Some(n) ==> Token(g.threads[t]) == Some(n))
  }

  lemma TaskKept(s: State, g: State, t: Thread)
    requires PhasesRun(s) && t in s.threads && KeepsTask(s, g, t)
    ensures PhasesRun(g)
  {
    forall n: Phase | Running(g, n)
      ensures HasRunner(g, n)
    {
      RunnerKept(s, g, t, n);
    }
  }

  lemma FetchRuns(s: State, t: Thread, c: Choice)
    requires Inv(s) && PhasesRun(s) && t in s.threads
    requires var pc := s.threads[t]; pc.FetchGet? || pc.FetchLoad? || pc.FetchCache?
    ensures KeepsTask(s, StepFetch(s, t, s.threads[t], c), t)
  {
    assert Ok(s, t, s.threads[t]);
  }

  /** The step leaves the flow objects alone and keeps its task. */
  predicate Quiet(s: State, g: State, t: Thread)
    requires t in s.threads && t in g.threads
  {
    && g.threads == s.threads[t := g.threads[t]] && g.heap == s.heap
    && (g.entry.Stored? ==> s.entry.Stored? && g.cache == s.cache)
    && Token(g.threads[t]) == Token(s.threads[t]) && (g.threads[t].SaveFree? ==> g.threads[t].ok)
  }

  lemma QuietRuns(s: State, g: State, t: Thread)
    requires PhasesRun(s) && t in s.threads && t in g.threads && Quiet(s, g, t)
    ensures KeepsTask(s, g, t)
  {
  }

  lemma LockIsQuiet(s: State, t: Thread, c: Choice)
    requires t in s.threads && (s.threads[t].SaveWait? || s.threads[t].SaveTake?)
    ensures var g := StepSave(s, t, s.threads[t], c); t in g.threads && Quiet(s, g, t)
  {
  }

  lemma WriteIsQuiet(s: State, t: Thread, c: Choice)
    requires t in s.threads && s.threads[t].SaveWrite? && !c.fails
    ensures var g := StepSave(s, t, s.threads[t], c); t in g.threads && Quiet(s, g, t)
  {
  }

  lemma FreeIsQuiet(s: State, t: Thread, c: Choice)
    requires t in s.threads && s.threads[t].SaveFree? && s.threads[t].ok
    ensures var g := StepSave(s, t, s.threads[t], c); t in g.threads && Quiet(s, g, t)
  {
  }

  lemma SaveRuns(s: State, t: Thread, c: Choice)
    requires PhasesRun(s) && t in s.threads && !c.fails
    requires var pc := s.threads[t]; pc.SaveWait? || pc.SaveTake? || pc.SaveWrite? || pc.SaveFree?
    ensures KeepsTask(s, StepSave(s, t, s.threads[t], c), t)
  {
    if s.threads[t].SaveWrite? {
      WriteIsQuiet(s, t, c);
    } else if s.threads[t].SaveFree? {
      FreeIsQuiet(s, t, c);
    } else {
      LockIsQuiet(s, t, c);
    }
    QuietRuns(s, StepSave(s, t, s.threads[t], c), t);
  }

  /** The thread's flow is the one everybody sees, and is running the thread's phase. */
  predicate OnDuty(s: State, pc: Pc) {
    && (pc.Enter? || pc.Crew?) && pc.flow in s.heap && s.heap[pc.flow].status == RunningPhase(pc.phase)
    && (s.entry.Stored? ==> s.cache == Some(pc.flow))
  }

  lemma EnterIsQuiet(s: State, t: Thread, c: Choice)
    requires t in s.threads && s.threads[t].Enter? && OnDuty(s, s.threads[t])
    ensures var g := StepCrew(s, t, s.threads[t], c); t in g.threads && Quiet(s, g, t)
  {
  }

  lemma CrewWorks(s: State, t: Thread, c: Choice)
    requires PhasesRun(s) && t in s.threads && s.threads[t].Crew? && OnDuty(s, s.threads[t]) && c.end != Dies
    ensures KeepsTask(s, StepCrew(s, t, s.threads[t], c), t)
  {
  }

  lemma CrewRuns(s: State, t: Thread, c: Choice)
    requires Inv(s) && PhasesRun(s) && t in s.threads && c.end != Dies
    requires s.threads[t].Enter? || s.threads[t].Crew?
    ensures KeepsTask(s, StepCrew(s, t, s.threads[t], c), t)
  {
    assert Ok(s, t, s.threads[t]);
    assert Token(s.threads[t]).Some?;
    if s.threads[t].Enter? {
      EnterIsQuiet(s, t, c);
      QuietRuns(s, StepCrew(s, t, s.threads[t], c), t);
    } else {
      CrewWorks(s, t, c);
    }
  }

  lemma ActRuns(s: State, t: Thread, c: Choice)
    requires Inv(s) && PhasesRun(s) && t in s.threads && s.threads[t].Act?
    ensures PhasesRun(StepAct(s, t, s.threads[t], c))
  {
    var g := StepAct(s, t, s.threads[t], c);
    assert Ok(s, t, s.threads[t]);
    forall n: Phase | Running(g, n)
      ensures HasRunner(g, n)
    {
      if g.threads[t].SaveWait? {
        assert Token(g.threads[t]) == Some(n);
      } else {
        assert Running(s, n);
        RunnerKept(s, g, t, n);
      }
    }
  }

  lemma SubmitRuns(s: State, t: Thread, c: Choice)
    requires Inv(s) && PhasesRun(s) && t in s.threads && s.threads[t].Submit? && !c.fails
    ensures PhasesRun(StepOther(s, t, s.threads[t], c))
  {
    var g := StepOther(s, t, s.threads[t], c);
    if c.spawned !in s.threads {
      forall n: Phase | Running(g, n)
        ensures HasRunner(g, n)
      {
        assert Running(s, n);
        var u :| u in s.threads && Token(s.threads[u]) == Some(n);
        assert Token(s.threads[t]).Some?;
        assert u == t;
        assert Token(g.threads[c.spawned]) == Some(n);
      }
    }
  }

  lemma OtherRuns(s: State, t: Thread, c: Choice)
    requires Inv(s) && PhasesRun(s) && t in s.threads && !c.fails
    requires var pc := s.threads[t];
             pc.CacheNew? || pc.StoreNew? || pc.AskLock? || pc.WaitLock? || pc.Submit? || pc.Unlock?
    ensures PhasesRun(StepOther(s, t, s.threads[t], c))
  {
    var g, pc := StepOther(s, t, s.threads[t], c), s.threads[t];
    assert Ok(s, t, pc);
    if pc.Submit? {
      SubmitRuns(s, t, c);
    } else if pc.StoreNew? {
      assert Token(g.threads[t]) == Some(1);
    } else {
      OtherMovesOne(s, t, c);
      forall n: Phase | Running(g, n)
        ensures HasRunner(g, n)
      {
        assert Running(s, n);
        RunnerKept(s, g, t, n);
      }
    }
  }

  lemma DeleteIsQuiet(s: State, t: Thread)
    requires t in s.threads && (s.threads[t].DelFlow? ==> s.entry.Missing?)
    requires var pc := s.threads[t];
             pc.DelAsk? || pc.DelWait? || pc.DelRead? || pc.DelCheck? || pc.DelEntry? || pc.DelFlow? || pc.DelForget?
    ensures var g := StepDelete(s, t, s.threads[t]); t in g.threads && Quiet(s, g, t)
  {
  }

  lemma DeleteRuns(s: State, t: Thread)
    requires Inv(s) && PhasesRun(s) && t in s.threads
    requires var pc := s.threads[t];
             pc.DelAsk? || pc.DelWait? || pc.DelRead? || pc.DelCheck? || pc.DelEntry? || pc.DelFlow? || pc.DelForget?
    ensures KeepsTask(s, StepDelete(s, t, s.threads[t]), t)
  {
    assert Ok(s, t, s.threads[t]);
    DeleteIsQuiet(s, t);
    QuietRuns(s, StepDelete(s, t, s.threads[t]), t);
  }

  lemma StepRuns(s: State, t: Thread, c: Choice)
    requires Inv(s) && PhasesRun(s) && t in s.threads && !c.fails && c.end != Dies
    ensures PhasesRun(Step(s, t, c))
  {
    var pc := s.threads[t];
    if pc.FetchGet? || pc.FetchLoad? || pc.FetchCache? {
      FetchRuns(s, t, c);
      TaskKept(s, Step(s, t, c), t);
    } else if pc.SaveWait? || pc.SaveTake? || pc.SaveWrite? || pc.SaveFree? {
      SaveRuns(s, t, c);
      TaskKept(s, Step(s, t, c), t);
    } else if pc.Enter? || pc.Crew? {
      CrewRuns(s, t, c);
      TaskKept(s, Step(s, t, c), t);
    } else if pc.Act? {
      ActRuns(s, t, c);
    } else if pc.CacheNew? || pc.StoreNew? || pc.AskLock? || pc.WaitLock? || pc.Submit? || pc.Unlock? {
      OtherRuns(s, t, c);
    } else if !pc.Done? {
      DeleteRuns(s, t);
      TaskKept(s, Step(s, t, c), t);
    }
  }

  lemma NewThreadRuns(s: State, t: Thread, pc: Pc)
    requires PhasesRun(s) && t !in s.threads && !pc.SaveFree?
    ensures PhasesRun(At(s, t, pc))
  {
    var g := At(s, t, pc);
    forall n: Phase | Running(g, n)
      ensures HasRunner(g, n)
    {
      assert Running(s, n);
      var u :| u in s.threads && Token(s.threads[u]) == Some(n);
      assert Token(g.threads[u]) == Some(n);
    }
  }

  lemma NextRuns(s: State, m: Move)
    requires Inv(s) && PhasesRun(s) && Smooth(m)
    ensures PhasesRun(Next(s, m))
  {
    match m
    case Runs(t, c) => if t in s.threads { StepRuns(s, t, c); }
    case Request(t, a) => if t !in s.threads && s.entry.Stored? { NewThreadRuns(s, t, AskLock(a)); }
    case Delete(t) => if t !in s.threads && s.created { NewThreadRuns(s, t, DelAsk); }
  }

  // ---- Every run ---------------------------------------------------------------

  lemma {:induction false} RunRuns(moves: seq<Move>)
    requires forall i :: 0 <= i < |moves| ==> Smooth(moves[i])
    ensures PhasesRun(Run(Start(), moves))
  {
    if moves != [] {
      RunRuns(moves[..|moves| - 1]);
      RunKeeps(moves[..|moves| - 1]);
      NextRuns(Run(Start(), moves[..|moves| - 1]), moves[|moves| - 1]);
    }
  }

  /**
   * As long as nothing fails, whenever the session is in a running phase,
   * exactly one thread is running that phase's crew or is on its way to it.
   */
  lemma StartedPhaseRuns(moves: seq<Move>, n: Phase) returns (t: Thread)
    requires forall i :: 0 <= i < |moves| ==> Smooth(moves[i])
    requires Running(Run(Start(), moves), n)
    ensures var s := Run(Start(), moves);
            && t in s.threads && Token(s.threads[t]) == Some(n)
            && forall u :: u in s.threads && Token(s.threads[u]).Some? ==> u == t
  {
    RunRuns(moves);
    RunKeeps(moves);
    var s := Run(Start(), moves);
    t :| t in s.threads && Token(s.threads[t]) == Some(n);
  }

  // ---- Nothing starts unsaved --------------------------------------------------

  /** A phase is started after its request's save exactly when the save succeeded, and it is the phase asked for. */
  lemma SaveDecidesStart(s: State, t: Thread, c: Choice)
    requires t in s.threads && s.threads[t].SaveFree?
    ensures var pc, g := s.threads[t], Next(s, Runs(t, c));
            && g.saveOwner.None?
            && (g.threads[t].Submit? <==> pc.ok && (pc.after.ThenSubmit? || pc.after.ThenSubmitFirst?))
            && (g.threads[t].Submit? ==> g.threads[t].phase == if pc.after.ThenSubmit? then pc.after.phase else 1)
            && (!g.threads[t].Submit? ==>
                  g.threads[t] == if pc.after.ThenUnlock? || pc.after.ThenSubmit? then Unlock(pc.after.lock) else Done)
  {
  }
}

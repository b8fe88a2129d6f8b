/**
 * Concurrent requests and phase threads on one session (src/api/routers/sessions.py,
 * src/api/job_store.py, src/swarm/state/repository.py) as interleaved steps.
 */
module Sessions {
  import opened Options
  import opened Machine

  type Thread = nat
  type Lock = nat
  type FlowId = nat

  /** What matters of a flow object, or of a snapshot of one; `version` counts its changes. */
  datatype Image = Image(status: AuditStatus, approved: bool, version: nat)

  /** The session's entry in the store; `snapshot` is None until the first save. */
  datatype Entry = Missing | Stored(snapshot: Option<Image>)

  datatype Action =
    | Approving(gate: Phase)
    | Retrying(phase: Phase)
    | Returning(phase: Phase)
    | Overriding(phase: Phase)
    | Deciding

  /** What a thread wants the flow for. */
  datatype Use = ForAction(action: Action, lock: Lock) | ForCrew(phase: Phase)

  /** What a thread does after a save. */
  datatype After = ThenUnlock(lock: Lock) | ThenSubmit(phase: Phase, lock: Lock) | ThenSubmitFirst | ThenEnd

  datatype Pc =
    // Creating the session.
    | CacheNew(flow: FlowId)
    | StoreNew(flow: FlowId)
    // A review request, after it found the session.
    | AskLock(action: Action)
    | WaitLock(action: Action, lock: Lock)
    // `_get_or_load_flow`.
    | FetchGet(use: Use)
    | FetchLoad(use: Use)
    | FetchCache(use: Use, flow: FlowId)
    | Act(action: Action, lock: Lock, flow: FlowId)
    // `FlowRepository.save`.
    | SaveWait(flow: FlowId, after: After)
    | SaveTake(flow: FlowId, after: After)
    | SaveWrite(flow: FlowId, image: Image, after: After)
    | SaveFree(ok: bool, saved: FlowId, after: After)
    | Submit(phase: Phase, held: Option<Lock>)
    | Unlock(lock: Lock)
    // Deleting the session.
    | DelAsk
    | DelWait(lock: Lock)
    | DelRead(lock: Lock)
    | DelCheck(lock: Lock, data: Entry)
    | DelEntry(lock: Lock)
    | DelFlow(lock: Lock)
    | DelForget(lock: Lock)
    // A phase thread.
    | Enter(phase: Phase, flow: FlowId)
    | Crew(phase: Phase, flow: FlowId)
    | Done

  datatype State = State(
    entry: Entry, created: bool,
    heap: map<FlowId, Image>, cache: Option<FlowId>,
    lockOf: Option<Lock>, owner: map<Lock, Thread>, nextLock: Lock, saveOwner: Option<Thread>,
    threads: map<Thread, Pc>)

  /** What the environment decides in a step. */
  datatype Choice = Choice(accept: bool, end: CrewStep, fails: bool, spawned: Thread, made: FlowId)

  datatype CrewStep = Works | ToGate | ToRejected | ToError | Dies

  // ---- Effects on a flow object ------------------------------------------------

  /** The status an action leads to, when the machine allows it. */
  function Target(status: AuditStatus, a: Action): Option<AuditStatus> {
    match a
    case Approving(n) => if status == WaitingGate(n) then Some(AfterGate(n)) else None
    case Retrying(n) => if status == QaRejectedPhase(n) || status == ErrorPhase(n) then Some(RunningPhase(n)) else None
    case Returning(n) => if status == WaitingGate(n) then Some(RunningPhase(n)) else None
    case Overriding(n) => if status == QaRejectedPhase(n) then Some(WaitingGate(n)) else None
    case Deciding => if status.WaitingGate? || status == Completed then Some(status) else None
  }

  function Applied(x: Image, a: Action, target: AuditStatus): Image {
    Image(target, x.approved || a.Approving?, x.version + 1)
  }

  /** After the action is saved: the started phase is submitted, still under the lock. */
  function AfterAction(target: AuditStatus, lock: Lock): After {
    if target.RunningPhase? then ThenSubmit(target.phase, lock) else ThenUnlock(lock)
  }

  /** `_has_sign_off`, for one state of the flow. */
  predicate SignedOff(x: Image) {
    x.approved || x.status == Completed || GatesPassed(x.status) > 0
  }

  // ---- Steps -------------------------------------------------------------------

  function At(s: State, t: Thread, pc: Pc): State {
    s.(threads := s.threads[t := pc])
  }

  function Have(use: Use, flow: FlowId): Pc {
    match use case ForAction(a, l) => Act(a, l, flow) case ForCrew(n) => Enter(n, flow)
  }

  function GiveUp(use: Use): Pc {
    match use case ForAction(_, l) => Unlock(l) case ForCrew(_) => Done
  }

  /** `session_lock`: the map's lock, made on first use. */
  function WithLock(s: State): (State, Lock) {
    if s.lockOf.Some? then (s, s.lockOf.value)
    else (s.(lockOf := Some(s.nextLock), nextLock := s.nextLock + 1), s.nextLock)
  }

  function Continue(after: After, ok: bool): Pc {
    match after
    case ThenUnlock(l) => Unlock(l)
    case ThenSubmit(n, l) => if ok then Submit(n, Some(l)) else Unlock(l)
    case ThenSubmitFirst => if ok then Submit(1, None) else Done
    case ThenEnd => Done
  }

  function Released(held: Option<Lock>): Pc {
    match held case None => Done case Some(l) => Unlock(l)
  }

  function StepFetch(s: State, t: Thread, pc: Pc, c: Choice): State
    requires pc.FetchGet? || pc.FetchLoad? || pc.FetchCache?
  {
    match pc
    case FetchGet(use) => At(s, t, if s.cache.Some? then Have(use, s.cache.value) else FetchLoad(use))
    case FetchLoad(use) =>
      if s.entry.Stored? && s.entry.snapshot.Some? then
        if c.made in s.heap then s
        else At(s.(heap := s.heap[c.made := s.entry.snapshot.value]), t, FetchCache(use, c.made))
      else At(s, t, GiveUp(use))
    case FetchCache(use, f) => At(s.(cache := Some(f)), t, Have(use, f))
  }

  function StepSave(s: State, t: Thread, pc: Pc, c: Choice): State
    requires pc.SaveWait? || pc.SaveTake? || pc.SaveWrite? || pc.SaveFree?
  {
    match pc
    case SaveWait(f, after) => if s.saveOwner.None? then At(s.(saveOwner := Some(t)), t, SaveTake(f, after)) else s
    case SaveTake(f, after) => if f in s.heap then At(s, t, SaveWrite(f, s.heap[f], after)) else s
    case SaveWrite(f, image, after) =>
      if c.fails then At(s, t, SaveFree(false, f, after))
      else if s.entry.Missing? then At(s, t, SaveFree(true, f, after))
      else At(s.(entry := Stored(Some(image))), t, SaveFree(true, f, after))
    case SaveFree(ok, f, after) => At(s.(saveOwner := None), t, Continue(after, ok))
  }

  function StepDelete(s: State, t: Thread, pc: Pc): State
    requires pc.DelAsk? || pc.DelWait? || pc.DelRead? || pc.DelCheck? || pc.DelEntry? || pc.DelFlow? || pc.DelForget?
  {
    match pc
    case DelAsk => At(WithLock(s).0, t, DelWait(WithLock(s).1))
    case DelWait(l) => if l in s.owner then s else At(s.(owner := s.owner[l := t]), t, DelRead(l))
    case DelRead(l) => At(s, t, DelCheck(l, s.entry))
    case DelCheck(l, data) =>
      var signedOff := && data.Stored?
                       && ((s.cache.Some? && s.cache.value in s.heap && SignedOff(s.heap[s.cache.value]))
                           || (data.snapshot.Some? && SignedOff(data.snapshot.value)));
      At(s, t, if signedOff then Unlock(l) else DelEntry(l))
    case DelEntry(l) => At(s.(entry := Missing), t, DelFlow(l))
    case DelFlow(l) => At(s.(cache := None), t, DelForget(l))
    case DelForget(l) => At(s.(lockOf := None), t, Unlock(l))
  }

  function StepCrew(s: State, t: Thread, pc: Pc, c: Choice): State
    requires pc.Enter? || pc.Crew?
  {
    if pc.flow !in s.heap then s
    else
      var x := s.heap[pc.flow];
      match pc
      case Enter(n, f) => At(s, t, if x.status == RunningPhase(n) then Crew(n, f) else Done)
      case Crew(n, f) =>
        match c.end
        case Works => s.(heap := s.heap[f := x.(version := x.version + 1)])
        case Dies => At(s, t, Done)
        case _ =>
          var end := if c.end == ToGate then WaitingGate(n)
                     else if c.end == ToRejected then QaRejectedPhase(n)
                     else ErrorPhase(n);
          At(s.(heap := s.heap[f := Image(end, x.approved, x.version + 1)]), t, SaveWait(f, ThenEnd))
  }

  function StepAct(s: State, t: Thread, pc: Pc, c: Choice): State
    requires pc.Act?
  {
    if pc.flow !in s.heap || !c.accept || Target(s.heap[pc.flow].status, pc.action).None? then At(s, t, Unlock(pc.lock))
    else
      var target := Target(s.heap[pc.flow].status, pc.action).value;
      At(s.(heap := s.heap[pc.flow := Applied(s.heap[pc.flow], pc.action, target)]), t,
         SaveWait(pc.flow, AfterAction(target, pc.lock)))
  }

  function StepOther(s: State, t: Thread, pc: Pc, c: Choice): State
    requires pc.CacheNew? || pc.StoreNew? || pc.AskLock? || pc.WaitLock? || pc.Submit? || pc.Unlock?
  {
    match pc
    case CacheNew(f) => At(s.(cache := Some(f)), t, StoreNew(f))
    case StoreNew(f) => At(s.(entry := Stored(None), created := true), t, SaveWait(f, ThenSubmitFirst))
    case AskLock(a) => At(WithLock(s).0, t, WaitLock(a, WithLock(s).1))
    case WaitLock(a, l) => if l in s.owner then s else At(s.(owner := s.owner[l := t]), t, FetchGet(ForAction(a, l)))
    case Submit(n, held) =>
      if c.fails then At(s, t, Released(held))
      else if c.spawned in s.threads then s
      else At(At(s, c.spawned, FetchGet(ForCrew(n))), t, Released(held))
    case Unlock(l) => At(s.(owner := s.owner - {l}), t, Done)
  }

  function Step(s: State, t: Thread, c: Choice): State
    requires t in s.threads
  {
    var pc := s.threads[t];
    if pc.FetchGet? || pc.FetchLoad? || pc.FetchCache? then StepFetch(s, t, pc, c)
    else if pc.SaveWait? || pc.SaveTake? || pc.SaveWrite? || pc.SaveFree? then StepSave(s, t, pc, c)
    else if pc.Enter? || pc.Crew? then StepCrew(s, t, pc, c)
    else if pc.Act? then StepAct(s, t, pc, c)
    else if pc.Done? then s
    else if pc.CacheNew? || pc.StoreNew? || pc.AskLock? || pc.WaitLock? || pc.Submit? || pc.Unlock? then
      StepOther(s, t, pc, c)
    else StepDelete(s, t, pc)
  }

  /** The process stops: memory, locks and threads are gone, the store stays. */
  function Restarted(s: State): State {
    s.(cache := None, lockOf := None, owner := map[], saveOwner := None, threads := map[])
  }

  datatype Move =
    | Runs(thread: Thread, choice: Choice)
    | Request(thread: Thread, action: Action)
    | Delete(thread: Thread)
    | Restart

  /** One step of the system; a move that is not possible changes nothing. */
  function Next(s: State, m: Move): State {
    match m
    case Runs(t, c) => if t in s.threads then Step(s, t, c) else s
    // A request first looks the session up and answers 404 when it is missing.
    case Request(t, a) => if t in s.threads || s.entry.Missing? then s else At(s, t, AskLock(a))
    // A session's id is known once it was stored.
    case Delete(t) => if t in s.threads || !s.created then s else At(s, t, DelAsk)
    case Restart => if s.created then Restarted(s) else s
  }

  /** A new audit: the flow is in RUNNING_PHASE_1 and its creating request is about to cache it. */
  function Start(): State {
    State(Missing, false, map[0 := Image(RunningPhase(1), false, 1)], None, None, map[], 0, None, map[0 := CacheNew(0)])
  }

  function Run(s: State, moves: seq<Move>): State {
    if moves == [] then s else Next(Run(s, moves[..|moves| - 1]), moves[|moves| - 1])
  }
}

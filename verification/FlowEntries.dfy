/** What every operation leaves in the trail (src/swarm/audit_flow.py). */
module FlowEntries {
  import opened Options
  import opened Text
  import opened Records
  import opened Trail
  import opened Decisions
  import opened Flow
  import opened FlowInvariant

  /** Who acted, how they were identified, and when the entry was stamped. */
  datatype Who = Who(human: string, source: Option<IdentitySource>, at: string)

  function ActorOf(op: Op): Option<Who> {
    match op
    case DoRecordPreparer(preparer, _, source, now) => Some(Who(preparer, source, now))
    case DoApprove(_, human, source, _, now) => Some(Who(human, source, now))
    case DoRetry(_, human, source, now) => Some(Who(human, source, now))
    case DoReturn(_, human, _, source, now) => Some(Who(human, source, now))
    case DoOverride(_, human, _, source, _, now) => Some(Who(human, source, now))
    case DoDecide(r, _, time) => Some(Who(r.decidedBy, r.source, time.stampedAt))
    case DoBegin => None
    case DoGenerate(_, _) => None
  }

  /** One more entry, in the name of whoever acted, with the identity they were accepted under. */
  predicate SaysWho(before: seq<Entry>, after: seq<Entry>, who: Who) {
    && |after| == |before| + 1 && after[..|before|] == before
    && var b := after[|before|].body;
       !Blank(b.human) && b.human == Strip(who.human) && Some(b.source) == who.source && b.timestamp == who.at
  }

  lemma AppendSays(env: Env, trail: seq<Entry>, body: Body, who: Who)
    requires body.human == Strip(who.human) && Strip(who.human) != "" && Some(body.source) == who.source
    requires body.timestamp == who.at
    ensures SaysWho(trail, Append(env.h, env.key, trail, body), who)
  {
    AppendParts(env.h, env.key, trail, body);
    StripLeaves(who.human);
  }

  lemma StripLeaves(s: string)
    requires Strip(s) != ""
    ensures !Blank(Strip(s))
  {
    assert !IsSpace(Strip(s)[|Strip(s)| - 1]);
  }

  /** What the entry of an operation must say of the state it was made in. */
  predicate Says(env: Env, f: Flow, op: Op, e: Event) {
    match op
    case DoRecordPreparer(_, required, _, _) => e == AuditCreated(required)
    case DoApprove(gate, _, _, _, _) =>
      && e.GateApproval? && e.gate == gate && e.artifact == [RacmPlan, WorkingPapers, FinalReport][gate - 1]
      && (e.decisionsDigest.None? <==> gate == 1)
    case DoRetry(n, _, _, _) =>
      && e.Retried? && e.phase == n && e.previousStatus == f.status
      && e.previousReason == (match f.qaReason case None => "" case Some(x) => x)
    case DoReturn(n, _, notes, _, _) => e.Returned? && e.phase == n && e.notes == Strip(notes) && !Blank(e.notes)
    case DoOverride(n, _, reason, _, _, _) =>
      && e.Overridden? && e.phase == n && e.reason == Strip(reason) && !Blank(e.reason)
      && e.overriddenReason == (match f.qaReason case None => "" case Some(x) => x)
    case DoDecide(r, newId, _) =>
      && e.Decided? && e.decisionId == newId && r.decisionType == Some(e.decisionType)
      && e.phase == (if e.decisionType in {SignOff, Challenge} then 2 else 3)
    case _ => true
  }

  lemma StampSays(env: Env, f: Flow, body: Body, op: Op)
    requires Says(env, f, op, body.event)
    ensures var after := Stamped(env, f, body);
            |after| == |f.trail| + 1 && Says(env, f, op, after[|f.trail|].body.event)
  {
    AppendParts(env.h, env.key, f.trail, body);
  }

  /** The operation stamped exactly this entry. */
  predicate Stamps(env: Env, f: Flow, op: Op, body: Body) {
    Do(env, f, op).0.trail == Stamped(env, f, body)
  }

  /** The entry of an accepted operation. */
  function EntryOf(env: Env, f: Flow, op: Op): Body
    requires ActorOf(op).Some? && Do(env, f, op).1.None?
  {
    match op
    case DoRecordPreparer(preparer, required, source, now) =>
      Body(Strip(preparer), now, source.value, AuditCreated(required))
    case DoApprove(gate, human, source, _, now) => Body(Strip(human), now, source.value, ApprovalEvent(env, f, gate))
    case DoRetry(n, human, source, now) =>
      Body(Strip(human), now, source.value, Retried(n, f.status, HashText(f.qaReason), RunInfo(f, n)))
    case DoReturn(n, human, notes, source, now) =>
      Body(Strip(human), now, source.value, ReturnEvent(env, f, n, notes))
    case DoOverride(n, human, reason, source, verified, now) =>
      Body(Strip(human), now, source.value, OverrideEvent(env, f, n, reason, verified))
    case DoDecide(r, newId, time) =>
      var d := Built(env, f, r, newId, time).value;
      Body(d.decidedBy, time.stampedAt, d.source, DecidedEvent(env, d))
  }

  lemma EntryStamped(env: Env, f: Flow, op: Op)
    requires ActorOf(op).Some? && Do(env, f, op).1.None?
    ensures Stamps(env, f, op, EntryOf(env, f, op))
  {
  }

  /** The entry is in the actor's name. */
  predicate Theirs(b: Body, who: Who) {
    b.human == Strip(who.human) && b.human != "" && Some(b.source) == who.source && b.timestamp == who.at
  }

  lemma DecisionIsTheirs(env: Env, f: Flow, r: Request, newId: string, time: Clock)
    requires Built(env, f, r, newId, time).Accepted?
    ensures var d := Built(env, f, r, newId, time).value;
            && d.decidedBy == Strip(r.decidedBy) && d.decidedBy != "" && Some(d.source) == r.source
            && d.id == newId && r.decisionType == Some(d.decisionType)
            && d.phase == (if d.decisionType in {SignOff, Challenge} then 2 else 3)
  {
  }

  lemma EntryIsTheirs(env: Env, f: Flow, op: Op)
    requires ActorOf(op).Some? && Do(env, f, op).1.None?
    ensures Theirs(EntryOf(env, f, op), ActorOf(op).value)
  {
    if op.DoDecide? {
      DecisionIsTheirs(env, f, op.request, op.newId, op.time);
    }
  }

  lemma ReviewSays(env: Env, f: Flow, op: Op)
    requires (op.DoReturn? || op.DoOverride?) && Do(env, f, op).1.None?
    ensures Says(env, f, op, EntryOf(env, f, op).event)
  {
    if op.DoReturn? {
      StripLeaves(op.notes);
    } else {
      StripLeaves(op.reason);
    }
  }

  lemma DecisionSays(env: Env, f: Flow, op: Op)
    requires op.DoDecide? && Do(env, f, op).1.None?
    ensures Says(env, f, op, EntryOf(env, f, op).event)
  {
    DecisionIsTheirs(env, f, op.request, op.newId, op.time);
  }

  lemma EntrySays(env: Env, f: Flow, op: Op)
    requires ActorOf(op).Some? && Do(env, f, op).1.None?
    ensures Says(env, f, op, EntryOf(env, f, op).event)
  {
    if op.DoReturn? || op.DoOverride? {
      ReviewSays(env, f, op);
    } else if op.DoDecide? {
      DecisionSays(env, f, op);
    }
  }

  /**
   * Every accepted operation on the audit adds one entry: in the name of
   * whoever acted, with the identity and the time given, and saying what was
   * done to which state.
   */
  lemma EveryActIsRecorded(env: Env, f: Flow, op: Op)
    requires ActorOf(op).Some? && Do(env, f, op).1.None?
    ensures var after := Do(env, f, op).0.trail;
            SaysWho(f.trail, after, ActorOf(op).value) && Says(env, f, op, after[|f.trail|].body.event)
  {
    EntryStamped(env, f, op);
    EntryIsTheirs(env, f, op);
    EntrySays(env, f, op);
    AppendSays(env, f.trail, EntryOf(env, f, op), ActorOf(op).value);
    StampSays(env, f, EntryOf(env, f, op), op);
  }

  /** A refused operation leaves the audit as it was. */
  lemma RefusedChangesNothing(env: Env, f: Flow, op: Op)
    requires Do(env, f, op).1.Some? && !op.DoGenerate?
    ensures Do(env, f, op).0 == f
  {
  }
}

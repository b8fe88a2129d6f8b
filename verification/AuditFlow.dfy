/** The audit flow object (src/swarm/audit_flow.py), proved against the step function of module Flow. */
module AuditFlowObject {
  import opened Options
  import opened Text
  import opened Schema
  import opened Machine
  import opened Records
  import opened Trail
  import opened Policy
  import opened Decisions
  import opened Flow

  /** `unverified_findings`. */
  method UnverifiedFindings(fs: seq<Finding>, verified: Verified) returns (ids: seq<string>)
    ensures ids == UnverifiedIn(fs, verified)
  {
    ids := [];
    for i := 0 to |fs|
      invariant ids == UnverifiedIn(fs[..i], verified)
    {
      assert fs[..i + 1][..i] == fs[..i];
      var f := fs[i];
      var shown := if f.controlId == "" then "finding #" + Decimal(i + 1) else f.controlId;
      if Blank(f.quote) {
        if !(f.result == NotTested || f.toe == OperatingNotTested) {
          ids := ids + [shown];
        }
      } else if Quote(f.vaultId, f.quote) !in verified {
        ids := ids + [shown];
      }
    }
    assert fs[..|fs|] == fs;
  }

  /** `_accepted_unverified`: the trail is scanned from the end. */
  method AcceptedControls(trail: seq<Entry>, digest: string) returns (accepted: set<string>)
    ensures accepted == AcceptedIn(trail, digest)
  {
    var i := |trail|;
    assert trail[..i] == trail;
    while 0 < i
      invariant 0 <= i <= |trail|
      invariant AcceptedIn(trail[..i], digest) == AcceptedIn(trail, digest)
    {
      i := i - 1;
      assert trail[..i + 1][..i] == trail[..i];
      var e := trail[i].body.event;
      if e.Overridden? && e.phase == 2 && e.artifactDigest == digest {
        return set c | c in SplitOn(e.unverifiedControls, ',') && c != "";
      }
    }
    accepted := {};
  }

  /** `_phase_decisions`. */
  method DecisionsOfPhase(ds: seq<Decision>, phase: nat) returns (r: seq<Decision>)
    ensures r == PhaseDecisions(ds, phase)
  {
    r := [];
    for i := 0 to |ds|
      invariant r == PhaseDecisions(ds[..i], phase)
    {
      assert ds[..i + 1][..i] == ds[..i];
      if ds[i].phase == phase {
        r := r + [ds[i]];
      }
    }
    assert ds[..|ds|] == ds;
  }

  /** `_latest_run_for_phase`. */
  method FindLatestRun(runs: seq<Run>, phase: nat) returns (r: Option<Run>)
    ensures r == LatestRun(runs, phase)
  {
    var i := |runs|;
    assert runs[..i] == runs;
    while 0 < i
      invariant 0 <= i <= |runs|
      invariant LatestRun(runs[..i], phase) == LatestRun(runs, phase)
    {
      i := i - 1;
      assert runs[..i + 1][..i] == runs[..i];
      if runs[i].phase == phase {
        return Some(runs[i]);
      }
    }
    r := None;
  }

  class AuditFlow {
    const machine: AuditStateMachine
    // The stored mirror of the machine's status.
    var status: AuditStatus
    var racm: Option<Racm>
    var papers: Option<Papers>
    var report: Option<Report>
    var preparedBy: string
    var decisionsRequired: bool
    var trail: seq<Entry>
    var decisions: seq<Decision>
    var runs: seq<Run>
    var qaReason: Option<string>

    ghost predicate Valid()
      reads this, machine
    {
      status == machine.status
    }

    function Drafts(): Artifacts
      reads this
    {
      Artifacts(racm, papers, report)
    }

    /** The value of this object in the step function's terms. */
    function Snapshot(): Flow
      reads this
    {
      Flow(status, Drafts(), preparedBy, decisionsRequired, trail, decisions, runs, qaReason)
    }

    constructor ()
      ensures Valid() && fresh(machine) && Snapshot() == Initial()
    {
      machine := new AuditStateMachine(WaitingForScope);
      status := WaitingForScope;
      racm, papers, report := None, None, None;
      preparedBy, decisionsRequired := "", false;
      trail, decisions, runs, qaReason := [], [], [], None;
    }

    // ---- Helpers -----------------------------------------------------------------

    /** `_stamp_trail`. */
    method Stamp(env: Env, body: Body)
      modifies this`trail
      ensures trail == Append(env.h, env.key, old(trail), body)
    {
      trail := AppendEntry(env.h, env.key, trail, body);
    }

    /** Moves the machine along an allowed transition and mirrors the status. */
    method MoveTo(target: AuditStatus)
      requires Valid() && target in Targets(status)
      modifies this`status, machine
      ensures Valid() && status == target
    {
      var ok := machine.Transition(target, {});
      status := machine.status;
    }

    /** `_check_sod`: no preparer, and none of the approvers the gate excludes. */
    method CheckSod(env: Env, action: ReviewAction, human: string, gate: Option<nat>) returns (barred: bool)
      ensures barred == Barred(env, Snapshot(), action, human, gate)
    {
      var names := Preparers(Snapshot());
      for i := 0 to |names|
        invariant forall j :: 0 <= j < i ==> !SodViolation(env.fold, action, human, names[j], trail, gate)
      {
        if SodViolation(env.fold, action, human, names[i], trail, gate) {
          return true;
        }
      }
      barred := false;
    }

    method RunProvenance(phase: nat) returns (info: Option<Provenance>)
      ensures info == RunInfo(Snapshot(), phase)
    {
      var run := FindLatestRun(runs, phase);
      info := if run.None? then None else Some(run.value.info);
    }

    /** `_check_evidence_for_gate_2`: the controls that neither verify nor were accepted. */
    method EvidenceGap(env: Env, verified: Verified) returns (left: seq<string>)
      ensures left == Without(Unverified(Snapshot(), verified), AcceptedUnverified(env, Snapshot()))
    {
      var ids := UnverifiedFindings(ContextFindings(Drafts()), verified);
      var accepted: set<string> := {};
      if papers.Some? {
        accepted := AcceptedControls(trail, ArtifactDigest(env.h, PapersA(papers.value)));
      }
      left := Without(ids, accepted);
    }

    // ---- Operations --------------------------------------------------------------

    method SetPreparer(env: Env, preparer: string, required: bool, source: Option<IdentitySource>, now: string)
      returns (refusal: Option<Refusal>)
      requires Valid()
      modifies this, machine
      ensures Valid() && (Snapshot(), refusal) == RecordPreparer(env, old(Snapshot()), preparer, required, source, now)
    {
      var name := Strip(preparer);
      if name == "" || source.None? || preparedBy != "" {
        return Some(BadInput);
      }
      preparedBy := name;
      decisionsRequired := required;
      Stamp(env, Body(name, now, source.value, AuditCreated(required)));
      refusal := None;
    }

    method StartPlanning() returns (refusal: Option<Refusal>)
      requires Valid()
      modifies this, machine
      ensures Valid() && (Snapshot(), refusal) == BeginPhase1(old(Snapshot()))
    {
      var ok := machine.Transition(RunningPhase(1), {WaitingForScope});
      status := machine.status;
      refusal := if ok then None else Some(InvalidTransition);
    }

    /** The checks of an approval, in the source's order. */
    method CheckApproval(env: Env, gate: Phase, human: string, source: Option<IdentitySource>, verified: Verified)
      returns (refusal: Option<Refusal>)
      requires Valid()
      ensures refusal == ApprovalRefusal(env, Snapshot(), gate, human, source, verified)
    {
      if Strip(human) == "" || source.None? {
        return Some(BadInput);
      }
      if !Can(machine.status, AfterGate(gate), {WaitingGate(gate)}) {
        return Some(InvalidTransition);
      }
      var barred := CheckSod(env, ApproveAction, Strip(human), Some(gate));
      if barred {
        return Some(SegregationOfDuties);
      }
      if gate == 2 {
        var left := EvidenceGap(env, verified);
        if left != [] {
          return Some(UnverifiedEvidence(left));
        }
      }
      if Current(Drafts(), NameOf(gate)).None? {
        return Some(ArtifactMissing);
      }
      if gate != 1 && Required(Snapshot()) {
        var missing := MissingFor(env.h, Drafts(), decisions, gate);
        if missing != [] {
          return Some(MissingDecisions(missing));
        }
      }
      refusal := None;
    }

    /** What the approval of `gate` says and seals. */
    method ApprovalEntry(env: Env, gate: Phase) returns (event: Event)
      requires Current(Drafts(), NameOf(gate)).Some?
      ensures event == ApprovalEvent(env, Snapshot(), gate)
    {
      var digest := ArtifactDigest(env.h, Current(Drafts(), NameOf(gate)).value);
      var seal: Option<string> := None;
      var count := 0;
      if gate != 1 {
        var phaseDecisions := DecisionsOfPhase(decisions, gate);
        seal := Some(DecisionsDigest(env.h, phaseDecisions));
        count := |phaseDecisions|;
      }
      var info := RunProvenance(gate);
      event := GateApproval(gate, NameOf(gate), digest, seal, count, info);
    }

    /** `_approve_gate`: checks, then the transition, then the stamp. */
    method ApproveGate(env: Env, gate: Phase, human: string, source: Option<IdentitySource>, verified: Verified,
                       now: string)
      returns (refusal: Option<Refusal>)
      requires Valid()
      modifies this, machine
      ensures Valid() && (Snapshot(), refusal) == Approve(env, old(Snapshot()), gate, human, source, verified, now)
    {
      refusal := CheckApproval(env, gate, human, source, verified);
      if refusal.Some? {
        return;
      }
      var event := ApprovalEntry(env, gate);
      MoveTo(AfterGate(gate));
      Stamp(env, Body(Strip(human), now, source.value, event));
    }

    method RetryPhase(env: Env, phase: nat, human: string, source: Option<IdentitySource>, now: string)
      returns (refusal: Option<Refusal>)
      requires Valid()
      modifies this, machine
      ensures Valid() && (Snapshot(), refusal) == Retry(env, old(Snapshot()), phase, human, source, now)
    {
      if !(1 <= phase <= 3) || Strip(human) == "" || source.None? {
        return Some(BadInput);
      }
      var previous := status;
      var ok := machine.Transition(RunningPhase(phase), {QaRejectedPhase(phase), ErrorPhase(phase)});
      if !ok {
        return Some(InvalidTransition);
      }
      status := machine.status;
      var info := RunProvenance(phase);
      Stamp(env, Body(Strip(human), now, source.value, Retried(phase, previous, HashText(qaReason), info)));
      refusal := None;
    }

    method CheckReturn(env: Env, phase: nat, human: string, notes: string, source: Option<IdentitySource>)
      returns (refusal: Option<Refusal>)
      requires Valid()
      ensures refusal == ReturnRefusal(env, Snapshot(), phase, human, notes, source)
    {
      if !(1 <= phase <= 3) || Strip(human) == "" || Strip(notes) == "" || source.None? {
        return Some(BadInput);
      }
      if !Can(machine.status, RunningPhase(phase), {WaitingGate(phase)}) {
        return Some(InvalidTransition);
      }
      var barred := CheckSod(env, ReturnAction, Strip(human), None);
      refusal := if barred then Some(SegregationOfDuties) else None;
    }

    /** Moves to `target` and stamps what a reviewer did to the draft; the QA reason is cleared. */
    method MoveAndStamp(env: Env, target: AuditStatus, body: Body)
      requires Valid() && target in Targets(status)
      modifies this, machine
      ensures Valid()
      ensures Snapshot() == old(Snapshot()).(status := target, qaReason := None,
                                             trail := Stamped(env, old(Snapshot()), body))
    {
      MoveTo(target);
      Stamp(env, body);
      qaReason := None;
    }

    method ReturnPhase(env: Env, phase: nat, human: string, notes: string, source: Option<IdentitySource>, now: string)
      returns (refusal: Option<Refusal>)
      requires Valid()
      modifies this, machine
      ensures Valid() && (Snapshot(), refusal)
              == ReturnForRework(env, old(Snapshot()), phase, human, notes, source, now)
    {
      refusal := CheckReturn(env, phase, human, notes, source);
      if refusal.Some? {
        return;
      }
      var info := RunProvenance(phase);
      var draft := Current(Drafts(), NameOf(phase));
      var digest := if draft.Some? then Some(ArtifactDigest(env.h, draft.value)) else None;
      MoveAndStamp(env, RunningPhase(phase),
                   Body(Strip(human), now, source.value, Returned(phase, Strip(notes), digest, info)));
    }

    method CheckOverride(env: Env, phase: nat, human: string, reason: string, source: Option<IdentitySource>)
      returns (refusal: Option<Refusal>)
      requires Valid()
      ensures refusal == OverrideRefusal(env, Snapshot(), phase, human, reason, source)
    {
      if !(1 <= phase <= 3) || Strip(human) == "" || Strip(reason) == "" || source.None? {
        return Some(BadInput);
      }
      if !Can(machine.status, WaitingGate(phase), {QaRejectedPhase(phase)}) {
        return Some(InvalidTransition);
      }
      var barred := CheckSod(env, OverrideAction, Strip(human), None);
      if barred {
        return Some(SegregationOfDuties);
      }
      refusal := if Current(Drafts(), NameOf(phase)).None? then Some(ArtifactMissing) else None;
    }

    /** What an override says of the draft it accepts. */
    method OverrideEntry(env: Env, phase: Phase, reason: string, verified: Verified) returns (event: Event)
      requires Current(Drafts(), NameOf(phase)).Some?
      ensures event == OverrideEvent(env, Snapshot(), phase, reason, verified)
    {
      var controls := "";
      if phase == 2 {
        var ids := UnverifiedFindings(ContextFindings(Drafts()), verified);
        controls := Join(ids, ',');
      }
      var info := RunProvenance(phase);
      event := Overridden(phase, Strip(reason), HashText(qaReason),
                          ArtifactDigest(env.h, Current(Drafts(), NameOf(phase)).value), controls, info);
    }

    method OverrideRejection(env: Env, phase: nat, human: string, reason: string, source: Option<IdentitySource>,
                             verified: Verified, now: string) returns (refusal: Option<Refusal>)
      requires Valid()
      modifies this, machine
      ensures Valid() && (Snapshot(), refusal)
              == OverrideQa(env, old(Snapshot()), phase, human, reason, source, verified, now)
    {
      refusal := CheckOverride(env, phase, human, reason, source);
      if refusal.Some? {
        return;
      }
      var event := OverrideEntry(env, phase, reason, verified);
      MoveAndStamp(env, WaitingGate(phase), Body(Strip(human), now, source.value, event));
    }

    /** Stores an accepted decision and stamps it; a refused one changes nothing. */
    method StoreDecision(env: Env, built: Checked<Decision>, stampedAt: string) returns (refusal: Option<Refusal>)
      modifies this`decisions, this`trail
      ensures (Snapshot(), refusal) == Stores(env, old(Snapshot()), built, stampedAt)
    {
      if built.Refused? {
        return Some(built.refusal);
      }
      var d := built.value;
      decisions := decisions + [d];
      Stamp(env, Body(d.decidedBy, stampedAt, d.source, DecidedEvent(env, d)));
      refusal := None;
    }

    method Decide(env: Env, r: Request, newId: string, time: Clock) returns (refusal: Option<Refusal>)
      requires Valid()
      modifies this, machine
      ensures Valid() && (Snapshot(), refusal) == RecordDecision(env, old(Snapshot()), r, newId, time)
    {
      var built := BuildDecision(env, Drafts(), machine.status, Preparers(Snapshot()), decisions, r, newId,
                                 time.decidedAt, time.today);
      refusal := StoreDecision(env, built, time.stampedAt);
    }

    // ---- Phase runs --------------------------------------------------------------

    /** `_fail_phase`. */
    method FailPhase(phase: Phase, reason: string)
      requires Valid() && status == RunningPhase(phase)
      modifies this, machine
      ensures Valid() && Snapshot() == Failed(old(Snapshot()), phase, reason)
    {
      MoveTo(ErrorPhase(phase));
      qaReason := Some(reason);
    }

    /** The attempts of one phase run: at most two, the second only after a rejection. */
    method Attempts(phase: Phase, info: Provenance, crew: CrewRun) returns (end: CrewEnd)
      requires Valid()
      modifies this`runs
      ensures end == EndOf(phase, crew)
      ensures runs == old(runs) + [Run(phase, info, AttemptsOf(end), Running, None)]
    {
      var n := |runs|;
      runs := runs + [Run(phase, info, 0, Running, None)];
      var rejection: Option<string> := None;
      var artifact: Option<Artifact> := None;
      for attempt := 1 to 3
        invariant runs == old(runs) + [Run(phase, info, attempt - 1, Running, None)] && n == |old(runs)|
        invariant attempt >= 2 ==> crew.first.Finished? && Rejection(phase, crew.first).Some?
        invariant attempt == 3 ==> crew.second.Finished?
        invariant attempt == 3 ==> rejection.Some? && rejection == Rejection(phase, crew.second)
        invariant attempt == 3 ==> artifact == ParsedOutput(crew.second)
      {
        runs := runs[n := runs[n].(attempts := attempt)];
        var a := if attempt == 1 then crew.first else crew.second;
        if a.Crashed? {
          return CrewCrashed(attempt, Label(phase) + (if attempt == 1 then " crew error: " else " crew retry error: ")
                             + a.message);
        }
        artifact := ParsedOutput(a);
        rejection := Rejection(phase, a);
        if rejection.None? {
          return CrewPassed(attempt, artifact);
        }
      }
      end := CrewRejected(artifact, rejection.value);
    }

    /** Stores an output of the phase's own kind; anything else clears the field. */
    method StoreDraft(phase: Phase, kept: Option<Artifact>)
      requires kept.Some? ==> OfPhase(kept.value, phase)
      modifies this`racm, this`papers, this`report
      ensures Drafts() == SetDraft(old(Drafts()), phase, kept)
    {
      if phase == 1 {
        racm := if kept.Some? then Some(kept.value.racm) else None;
      } else if phase == 2 {
        papers := if kept.Some? then Some(kept.value.papers) else None;
      } else {
        report := if kept.Some? then Some(kept.value.report) else None;
      }
    }

    /** The end of the latest run is written into its record. */
    method CloseRun(outcome: RunOutcome, output: Option<Artifact>)
      requires runs != []
      modifies this`runs
      ensures runs == old(runs[..|runs| - 1]) + [old(runs[|runs| - 1]).(outcome := outcome, output := output)]
    {
      var n := |runs| - 1;
      runs := runs[n := runs[n].(outcome := outcome, output := output)];
    }

    /** A phase run that leaves the drafts alone. */
    method EndWithError(phase: Phase, reason: string, ghost before: seq<Run>, ghost open: Run)
      requires Valid() && status == RunningPhase(phase) && runs == before + [open]
      modifies this, machine
      ensures Valid()
      ensures Snapshot() == Failed(old(Snapshot()).(runs := before + [open.(outcome := Errored, output := None)]),
                                   phase, reason)
    {
      CloseRun(Errored, None);
      FailPhase(phase, reason);
    }

    /** A phase run that stores its draft: at the gate, or rejected. */
    method EndWithDraft(phase: Phase, kept: Option<Artifact>, rejected: Option<string>, ghost before: seq<Run>,
                        ghost open: Run)
      requires Valid() && status == RunningPhase(phase) && runs == before + [open]
      requires kept.Some? ==> OfPhase(kept.value, phase)
      modifies this, machine
      ensures Valid()
      ensures var outcome := if rejected.Some? then QaRejected else QaApproved;
              Snapshot() == old(Snapshot()).(
                status := if rejected.Some? then QaRejectedPhase(phase) else WaitingGate(phase),
                drafts := SetDraft(old(Drafts()), phase, kept),
                runs := before + [open.(outcome := outcome, output := kept)],
                qaReason := if rejected.Some? then rejected else old(qaReason))
    {
      StoreDraft(phase, kept);
      CloseRun(if rejected.Some? then QaRejected else QaApproved, kept);
      MoveTo(if rejected.Some? then QaRejectedPhase(phase) else WaitingGate(phase));
      if rejected.Some? {
        qaReason := rejected;
      }
    }

    method FinishPhase(phase: Phase, end: CrewEnd, ghost before: seq<Run>, ghost info: Provenance)
      requires Valid() && status == RunningPhase(phase)
      requires runs == before + [Run(phase, info, AttemptsOf(end), Running, None)]
      modifies this, machine
      ensures Valid() && Snapshot() == Ended(old(Snapshot()).(runs := before), phase, info, end)
    {
      ghost var open := Run(phase, info, AttemptsOf(end), Running, None);
      match end {
        case CrewCrashed(_, message) => EndWithError(phase, message, before, open);
        case CrewRejected(output, reason) =>
          EndWithDraft(phase, if output.Some? && OfPhase(output.value, phase) then output else None, Some(reason),
                       before, open);
        case CrewPassed(_, output) =>
          if output.None? || !OfPhase(output.value, phase) {
            EndWithError(phase, NoDraftReason(phase, output), before, open);
          } else {
            EndWithDraft(phase, output, None, before, open);
          }
      }
    }

    /** `_run_crew_with_qa`, then the completion of the phase. */
    method RunCrew(phase: Phase, info: Provenance, crew: CrewRun)
      requires Valid() && status == RunningPhase(phase)
      modifies this, machine
      ensures Valid() && Snapshot() == RunPhase(old(Snapshot()), phase, info, crew)
    {
      ghost var before := runs;
      var end := Attempts(phase, info, crew);
      FinishPhase(phase, end, before, info);
    }

    /** `generate_planning`, `generate_fieldwork` and `generate_reporting`. */
    method GeneratePhase(phase: Phase, crew: CrewRun) returns (refusal: Option<Refusal>)
      requires Valid()
      modifies this, machine
      ensures Valid() && (Snapshot(), refusal) == Generate(old(Snapshot()), phase, crew)
    {
      if phase == 1 && machine.status == WaitingForScope {
        MoveTo(RunningPhase(1));
      }
      if machine.status != RunningPhase(phase) {
        return Some(NotRunnable);
      }
      qaReason := None;
      if phase == 2 && racm.None? {
        FailPhase(2, NO_RACM);
        return None;
      }
      if phase == 3 && papers.None? {
        FailPhase(3, NO_PAPERS);
        return None;
      }
      if crew.start.None? {
        return Some(RunNotStarted);
      }
      RunCrew(phase, crew.start.value, crew);
      refusal := None;
    }
  }
}

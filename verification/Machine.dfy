/** The audit lifecycle (src/swarm/state/machine.py). */
module Machine {
  type Phase = n: nat | 1 <= n <= 3 witness 1

  datatype AuditStatus =
    | WaitingForScope
    | RunningPhase(phase: Phase)
    | WaitingGate(phase: Phase)
    | QaRejectedPhase(phase: Phase)
    | ErrorPhase(phase: Phase)
    | Completed

  /** `_TRANSITIONS`. */
  function Targets(s: AuditStatus): set<AuditStatus> {
    match s
    case WaitingForScope => {RunningPhase(1)}
    case RunningPhase(n) => {WaitingGate(n), QaRejectedPhase(n), ErrorPhase(n)}
    case WaitingGate(n) => {if n == 3 then Completed else RunningPhase(n + 1), RunningPhase(n)}
    case QaRejectedPhase(n) => {RunningPhase(n), WaitingGate(n)}
    case ErrorPhase(n) => {RunningPhase(n)}
    case Completed => {}
  }

  /** `can`: an empty source set stands for "no source given". */
  predicate Can(s: AuditStatus, target: AuditStatus, sources: set<AuditStatus>) {
    (sources == {} || s in sources) && target in Targets(s)
  }

  /** What approving gate `n` starts. */
  function AfterGate(n: Phase): AuditStatus {
    if n == 3 then Completed else RunningPhase(n + 1)
  }

  class AuditStateMachine {
    var status: AuditStatus

    constructor (initial: AuditStatus)
      ensures status == initial
    {
      status := initial;
    }

    /** A refused transition leaves the status unchanged. */
    method Transition(target: AuditStatus, sources: set<AuditStatus>) returns (ok: bool)
      modifies this
      ensures ok == Can(old(status), target, sources)
      ensures status == if ok then target else old(status)
    {
      ok := Can(status, target, sources);
      if ok {
        status := target;
      }
    }
  }

  /** The named transitions, as (source, target). */
  predicate Named(s: AuditStatus, t: AuditStatus) {
    || (s == WaitingForScope && t == RunningPhase(1))                                       // start_phase_1
    || (s.RunningPhase? && t == WaitingGate(s.phase))                                       // complete_phase
    || (s.RunningPhase? && t == QaRejectedPhase(s.phase))                                   // reject_phase
    || (s.RunningPhase? && t == ErrorPhase(s.phase))                                        // error_phase
    || ((s.QaRejectedPhase? || s.ErrorPhase?) && t == RunningPhase(s.phase))                // retry_phase
    || (s.WaitingGate? && t == RunningPhase(s.phase))                                       // return_for_rework
    || (s.QaRejectedPhase? && t == WaitingGate(s.phase))                                    // override_qa
    || (s.WaitingGate? && t == AfterGate(s.phase))                                          // approve_gate_n
  }

  /** The table allows a step exactly when some named transition makes it. */
  lemma TableIsNamed(s: AuditStatus, t: AuditStatus)
    ensures t in Targets(s) <==> Named(s, t)
  {
  }

  /** Gates already approved when the audit is in a status. */
  function GatesPassed(s: AuditStatus): nat {
    match s
    case WaitingForScope => 0
    case Completed => 3
    case _ => s.phase - 1
  }

  /** A step passes at most one gate, only from that gate's waiting status, and never goes back. */
  lemma GatesInOrder(s: AuditStatus, t: AuditStatus)
    requires t in Targets(s)
    ensures GatesPassed(t) == GatesPassed(s)
            || (s.WaitingGate? && t == AfterGate(s.phase) && GatesPassed(t) == GatesPassed(s) + 1 == s.phase)
  {
  }
}

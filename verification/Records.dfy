/**
 * The stored records: reviewer decisions, approval-trail entries, generation
 * runs, and what their digests cover.
 */
module Records {
  import opened Options
  import opened Schema
  import opened Machine

  // ---- Reviewer decisions (src/swarm/schema.py) --------------------------------

  datatype DecisionType =
    | SignOff | Challenge | Classify | ScopeLimitation | Writeup
    | ManagementResponse | EngagementConclusion | RemediationVerification

  datatype SubjectType = FindingSubject | DeficiencySubject | EngagementSubject

  datatype ArtifactName = RacmPlan | WorkingPapers | FinalReport | OtherArtifact(name: string)

  datatype IdentitySource = Declared | Authenticated

  datatype Agreement = Agree | Partial | Disagree
  datatype EngagementRating = Satisfactory | NeedsImprovement | Unsatisfactory
  datatype RemediationStatus = Remediated | PartiallyRemediated | Open

  /** Days are counted from a fixed origin; None is the empty string. */
  datatype Values =
    | NoValues
    | ChallengeValues(tod: Option<Design>, toe: Option<Operating>)
    | ClassifyValues(classification: Classification, likelihood: Rating, magnitude: Rating)
    | WriteupValues(criteria: string, condition: string, cause: string, effect: string, recommendation: string)
    | ManagementValues(text: string, agreement: Agreement, receivedFrom: string, receivedOn: Option<int>,
                       owner: string, target: Option<int>)
    | EngagementValues(rating: EngagementRating)
    | RemediationValues(status: RemediationStatus, verifiedOn: Option<int>, evidence: string)

  datatype Decision = Decision(
    id: string, phase: nat, artifact: ArtifactName, draftDigest: string,
    subjectType: SubjectType, subjectId: string, decisionType: DecisionType, values: Values,
    rationale: string, decidedBy: string, source: IdentitySource, decidedAt: string,
    supersedes: Option<string>)

  // ---- Approval trail ----------------------------------------------------------

  /** The generation run an action is tied to (`_run_provenance_extra`). */
  datatype Provenance = Provenance(runId: string, fingerprint: string, model: string)

  /** What one trail entry says, by its `action`; an absent string field is "". */
  datatype Event =
    | AuditCreated(decisionsRequired: bool)
    | GateApproval(gate: nat, artifact: ArtifactName, artifactDigest: string,
                   decisionsDigest: Option<string>, decisionsCount: nat, run: Option<Provenance>)
    | Retried(phase: nat, previousStatus: AuditStatus, previousReason: string, run: Option<Provenance>)
    | Returned(phase: nat, notes: string, returnedDigest: Option<string>, run: Option<Provenance>)
    | Overridden(phase: nat, reason: string, overriddenReason: string, artifactDigest: string,
                 unverifiedControls: string, run: Option<Provenance>)
    | Decided(phase: nat, decisionId: string, decisionDigest: string, decisionType: DecisionType,
              subjectType: SubjectType, subjectId: string, artifact: ArtifactName, supersedes: Option<string>)
    | Foreign(fields: map<string, string>)

  /** Every field of a trail entry other than its three hash fields. */
  datatype Body = Body(human: string, timestamp: string, source: IdentitySource, event: Event)

  /** A stored trail entry; a missing hash field is None. */
  datatype Entry = Entry(body: Body, prevHash: Option<string>, hashAlg: Option<string>, entryHash: Option<string>)

  // ---- Generation runs (src/swarm/state/schema.py) -----------------------------

  datatype RunOutcome = Running | QaApproved | QaRejected | Errored

  /**
   * One attempted phase run. `output` is not stored by the application: it
   * names the artifact the run left in the state, so that statements about
   * "the run that made the artifact" can be written down.
   */
  datatype Run = Run(phase: nat, info: Provenance, attempts: nat, outcome: RunOutcome, output: Option<Artifact>)

  // ---- Digests -----------------------------------------------------------------

  /** The canonical JSON a digest is taken over. An entry is an object, a legacy prefix a list. */
  datatype Canon =
    | CanonEntry(body: Body, prevHash: Option<string>, hashAlg: Option<string>)
    | CanonLegacy(prefix: seq<Body>)
    | CanonArtifact(artifact: Artifact)
    | CanonDecision(decision: Decision)
    | CanonDecisions(decisions: seq<Decision>)

  /** SHA-256 of the data, or HMAC-SHA256 of it under a key. */
  datatype DigestInput = Sha(data: Canon) | Hmac(key: string, data: Canon)

  type Hasher = DigestInput -> string

  const GENESIS: string := "0000000000000000000000000000000000000000000000000000000000000000"

  /** The digest has no collisions. */
  ghost predicate Injective(h: Hasher) {
    forall x: DigestInput, y: DigestInput :: h(x) == h(y) ==> x == y
  }

  /** A digest is never the genesis value and never the empty string. */
  ghost predicate ProperDigest(h: Hasher) {
    forall x: DigestInput :: h(x) != GENESIS && h(x) != ""
  }

  function ArtifactDigest(h: Hasher, a: Artifact): string { h(Sha(CanonArtifact(a))) }

  function DecisionDigest(h: Hasher, d: Decision): string { h(Sha(CanonDecision(d))) }

  function DecisionsDigest(h: Hasher, ds: seq<Decision>): string { h(Sha(CanonDecisions(ds))) }

  // ---- Environment -------------------------------------------------------------

  /** What the process is configured with: the digest, the trail key (if any) and case folding. */
  datatype Env = Env(h: Hasher, key: Option<string>, fold: char -> string)
}

/**
 * The AI-drafted artifacts (src/swarm/schema.py): the risk and control matrix,
 * the working papers and the final report, with the validators that every
 * parsed artifact has passed.
 */
module Schema {
  import opened Options
  import opened Text

  // ---- Working papers --------------------------------------------------------

  datatype Design = DesignEffective | DesignIneffective | DesignNotTested
  datatype Operating = OperatingEffective | ExceptionsNoted | OperatingIneffective | OperatingNotTested
  datatype Outcome = NoException | ExceptionFound | NotTested

  /** A finding as written by the crew: `result` and `preliminary` may be missing. */
  datatype FindingInput = FindingInput(
    controlId: string, vaultId: string, quote: string, tod: Design, toe: Operating,
    exceptions: Option<nat>, result: Option<Outcome>, preliminary: Option<bool>, conclusion: string)

  /** A finding after validation. */
  datatype Finding = Finding(
    controlId: string, vaultId: string, quote: string, tod: Design, toe: Operating,
    exceptions: Option<nat>, result: Outcome, preliminary: bool, conclusion: string)

  datatype Papers = Papers(theme: string, findings: seq<Finding>)

  function ExceptionCount(exceptions: Option<nat>): nat {
    match exceptions case None => 0 case Some(n) => n
  }

  /** `_derive_result`. */
  function DeriveResult(tod: Design, toe: Operating, exceptions: Option<nat>): Outcome {
    if tod == DesignIneffective || toe in {ExceptionsNoted, OperatingIneffective} || ExceptionCount(exceptions) > 0 then
      ExceptionFound
    else if tod == DesignNotTested && toe == OperatingNotTested then NotTested
    else NoException
  }

  /** The rule a validated finding satisfies. */
  predicate Consistent(f: Finding) {
    && (f.toe == OperatingEffective ==> ExceptionCount(f.exceptions) == 0)
    && f.result == DeriveResult(f.tod, f.toe, f.exceptions)
    && (f.preliminary ==> f.result == ExceptionFound)
    && (f.result != NotTested ==> !Blank(f.quote) && !Blank(f.vaultId))
  }

  /** The finding is the input with its missing fields filled in: an exception is preliminary unless said otherwise. */
  predicate Completes(i: FindingInput, f: Finding) {
    && f.controlId == i.controlId && f.vaultId == i.vaultId && f.quote == i.quote && f.conclusion == i.conclusion
    && f.tod == i.tod && f.toe == i.toe && f.exceptions == i.exceptions
    && (i.result.Some? ==> f.result == i.result.value)
    && f.preliminary == if i.preliminary.Some? then i.preliminary.value else f.result == ExceptionFound
  }

  /** `AuditFindingSchema._consistent`: fills the missing fields; rejects when no consistent finding completes them. */
  function ValidateFinding(i: FindingInput): (r: Option<Finding>)
    ensures r.Some? ==> Completes(i, r.value) && Consistent(r.value)
    ensures r.None? ==> forall f :: Completes(i, f) ==> !Consistent(f)
  {
    if i.toe == OperatingEffective && ExceptionCount(i.exceptions) > 0 then None
    else
      var derived := DeriveResult(i.tod, i.toe, i.exceptions);
      if i.result.Some? && i.result.value != derived then None
      else
        var preliminary := if i.preliminary.None? then derived == ExceptionFound else i.preliminary.value;
        if preliminary && derived != ExceptionFound then None
        else if derived != NotTested && (Blank(i.quote) || Blank(i.vaultId)) then None
        else Some(Finding(i.controlId, i.vaultId, i.quote, i.tod, i.toe, i.exceptions, derived, preliminary,
                          i.conclusion))
  }

  /** The input that spells a validated finding out in full. */
  function AsInput(f: Finding): FindingInput {
    FindingInput(f.controlId, f.vaultId, f.quote, f.tod, f.toe, f.exceptions, Some(f.result), Some(f.preliminary),
                 f.conclusion)
  }

  /** Validation accepts exactly the consistent findings and leaves them unchanged. */
  lemma ValidationIsConsistency(f: Finding)
    ensures ValidateFinding(AsInput(f)) == (if Consistent(f) then Some(f) else None)
  {
  }

  /** Some procedure found the control wanting, or exceptions were counted. */
  predicate FoundWanting(f: Finding) {
    || f.tod == DesignIneffective || f.toe == ExceptionsNoted || f.toe == OperatingIneffective
    || (f.exceptions.Some? && f.exceptions.value > 0)
  }

  /** What the result of a consistent finding says about the two procedures. */
  lemma ResultMeans(f: Finding)
    requires Consistent(f)
    ensures f.result == ExceptionFound <==> FoundWanting(f)
    ensures f.result == NotTested <==> f.tod == DesignNotTested && f.toe == OperatingNotTested && !FoundWanting(f)
    ensures f.result == NoException <==> !FoundWanting(f) && (f.tod == DesignEffective || f.toe == OperatingEffective)
    ensures f.toe == OperatingEffective ==> f.exceptions.None? || f.exceptions.value == 0
    ensures f.preliminary ==> FoundWanting(f)
  {
  }

  // ---- Risk and control matrix -------------------------------------------------

  datatype Control = Control(controlId: string, keyControl: Option<bool>)
  datatype Risk = Risk(riskId: string, controls: seq<Control>)
  datatype Racm = Racm(theme: string, risks: seq<Risk>)

  // ---- Final report ------------------------------------------------------------

  datatype Rating = RatingLow | RatingMedium | RatingHigh
  datatype Classification =
    | ControlDeficiency | SignificantDeficiency | MaterialWeakness
    | Low | Medium | High
    | NotADeficiency
  datatype Scale = Icfr | RiskRating

  datatype Evaluation = Evaluation(
    deficiencyId: string, title: string, relatedFindings: seq<string>,
    classification: Classification, likelihood: Rating, magnitude: Rating, rationale: string)

  datatype Report = Report(summary: string, evaluations: seq<Evaluation>, scale: Option<Scale>)

  predicate OnScale(c: Classification, s: Scale) {
    match s
    case Icfr => c in {ControlDeficiency, SignificantDeficiency, MaterialWeakness, NotADeficiency}
    case RiskRating => c in {Low, Medium, High, NotADeficiency}
  }

  /** A Material Weakness needs a reasonable possibility of a material misstatement. */
  predicate AboveFloor(c: Classification, likelihood: Rating, magnitude: Rating) {
    c == MaterialWeakness ==> likelihood != RatingLow && magnitude == RatingHigh
  }

  predicate AllOnScale(es: seq<Evaluation>, s: Scale) {
    forall i :: 0 <= i < |es| ==> OnScale(es[i].classification, s)
  }

  /** `_check_scale`: None when the evaluations do not fit, else the scale kept on the report. */
  function CheckScale(scale: Option<Scale>, es: seq<Evaluation>): (r: Option<Option<Scale>>)
    ensures r.Some? && scale.Some? ==> r.value == scale
    ensures r.Some? && r.value.Some? ==> AllOnScale(es, r.value.value)
    // Rejected only when the given scale, or any scale, does not fit.
    ensures r.None? && scale.Some? ==> !AllOnScale(es, scale.value)
    ensures r.None? && scale.None? ==> forall s :: !AllOnScale(es, s)
    // The scale stays unknown exactly when none is given and nothing is classified as a deficiency.
    ensures r == Some(None)
            <==> scale.None? && forall i :: 0 <= i < |es| ==> es[i].classification == NotADeficiency
  {
    match scale
    case None =>
      if AllOnScale(es, Icfr) then
        if AllOnScale(es, RiskRating) then Some(None) else Some(Some(Icfr))
      else if AllOnScale(es, RiskRating) then Some(Some(RiskRating))
      else None
    case Some(s) => if AllOnScale(es, s) then Some(scale) else None
  }

  /** A report that its validators accept, with the scale they keep. */
  predicate ReportValid(r: Report) {
    && (forall i :: 0 <= i < |r.evaluations| ==>
          AboveFloor(r.evaluations[i].classification, r.evaluations[i].likelihood, r.evaluations[i].magnitude))
    && CheckScale(r.scale, r.evaluations) == Some(r.scale)
  }

  predicate PapersValid(p: Papers) {
    forall i :: 0 <= i < |p.findings| ==> Consistent(p.findings[i])
  }

  // ---- Artifacts ---------------------------------------------------------------

  datatype Artifact = RacmA(racm: Racm) | PapersA(papers: Papers) | ReportA(report: Report)

  predicate ArtifactValid(a: Artifact) {
    match a
    case RacmA(_) => true
    case PapersA(p) => PapersValid(p)
    case ReportA(r) => ReportValid(r)
  }

  // ---- Identifiers -------------------------------------------------------------

  /** Control ids as the reviewer code takes them: trimmed, comma-free, one finding each. */
  predicate FindingIdsGood(fs: seq<Finding>) {
    && (forall i :: 0 <= i < |fs| ==> Trimmed(fs[i].controlId) && ',' !in fs[i].controlId)
    && (forall i, j :: 0 <= i < j < |fs| ==> fs[i].controlId != fs[j].controlId)
  }

  predicate EvaluationIdsGood(es: seq<Evaluation>) {
    && (forall i :: 0 <= i < |es| ==> Trimmed(es[i].deficiencyId))
    && (forall i, j :: 0 <= i < j < |es| ==> es[i].deficiencyId != es[j].deficiencyId)
  }
}

/** Review policy: segregation of duties and decision rules (src/swarm/review_policy.py). */
module Policy {
  import opened Options
  import opened Text
  import opened Schema
  import opened Machine
  import opened Records

  // ---- Identities --------------------------------------------------------------

  function FoldAll(fold: char -> string, s: string): string {
    if s == "" then "" else fold(s[0]) + FoldAll(fold, s[1..])
  }

  /** `normalise_identity`: whitespace collapsed, then case folded. */
  function Normalise(fold: char -> string, s: string): string {
    FoldAll(fold, Join(Words(s), ' '))
  }

  predicate SamePerson(fold: char -> string, a: string, b: string) {
    Normalise(fold, a) != "" && Normalise(fold, a) == Normalise(fold, b)
  }

  /** Case folding maps no character to nothing. */
  ghost predicate FoldKeeps(fold: char -> string) {
    forall c: char :: fold(c) != ""
  }

  lemma FoldNonEmpty(fold: char -> string, s: string)
    requires FoldKeeps(fold) && s != ""
    ensures FoldAll(fold, s) != ""
  {
    assert fold(s[0]) != "";
  }

  /** For names that are not blank, "not the same person" is a real difference of identities. */
  lemma DifferentPeople(fold: char -> string, a: string, b: string)
    requires FoldKeeps(fold) && !Blank(a)
    ensures SamePerson(fold, a, b) <==> Normalise(fold, a) == Normalise(fold, b)
  {
    var words := Words(a);
    assert Join(words, ' ') != "" by {
      assert words != [] && words[0] != "";
    }
    FoldNonEmpty(fold, Join(words, ' '));
  }

  // ---- Respellings -------------------------------------------------------------

  /** The texts agree character by character under the fold. */
  predicate SameLetters(fold: char -> string, u: string, v: string) {
    |u| == |v| && forall i :: 0 <= i < |u| ==> fold(u[i]) == fold(v[i])
  }

  predicate SameWords(fold: char -> string, us: seq<string>, vs: seq<string>) {
    |us| == |vs| && forall i :: 0 <= i < |us| ==> SameLetters(fold, us[i], vs[i])
  }

  /** The names have the same words, in letters that fold alike; white space does not count. */
  predicate Respelled(fold: char -> string, a: string, b: string) {
    SameWords(fold, Words(a), Words(b))
  }

  lemma {:induction false} FoldSame(fold: char -> string, u: string, v: string)
    requires SameLetters(fold, u, v)
    ensures FoldAll(fold, u) == FoldAll(fold, v)
  {
    if u != "" {
      FoldSame(fold, u[1..], v[1..]);
    }
  }

  lemma {:induction false} JoinSame(fold: char -> string, us: seq<string>, vs: seq<string>)
    requires SameWords(fold, us, vs)
    ensures SameLetters(fold, Join(us, ' '), Join(vs, ' '))
  {
    if |us| > 1 {
      assert SameWords(fold, us[1..], vs[1..]);
      JoinSame(fold, us[1..], vs[1..]);
      SameJoined(fold, us[0], vs[0], Join(us[1..], ' '), Join(vs[1..], ' '));
    }
  }

  lemma SameJoined(fold: char -> string, u: string, v: string, x: string, y: string)
    requires SameLetters(fold, u, v) && SameLetters(fold, x, y)
    ensures SameLetters(fold, u + [' '] + x, v + [' '] + y)
  {
  }

  /** A respelling of a name is the same person. */
  lemma RespelledIsSame(fold: char -> string, a: string, b: string)
    requires FoldKeeps(fold) && !Blank(a) && Respelled(fold, a, b)
    ensures SamePerson(fold, a, b)
  {
    JoinSame(fold, Words(a), Words(b));
    FoldSame(fold, Join(Words(a), ' '), Join(Words(b), ' '));
    DifferentPeople(fold, a, b);
  }

  /** However the same name is spaced and cased, it names the same person. */
  lemma SpellingsAreSame(fold: char -> string, lead: string, words: seq<string>, gaps: seq<string>,
                         lead_: string, words_: seq<string>, gaps_: seq<string>)
    requires FoldKeeps(fold) && words != [] && AreWords(words) && AreWords(words_) && SameWords(fold, words, words_)
    requires Blank(lead) && |gaps| == |words| && Gaps(gaps)
    requires Blank(lead_) && |gaps_| == |words_| && Gaps(gaps_)
    ensures SamePerson(fold, lead + Spelt(words, gaps), lead_ + Spelt(words_, gaps_))
  {
    var a := lead + Spelt(words, gaps);
    WordsOfSpelt(lead, words, gaps);
    WordsOfSpelt(lead_, words_, gaps_);
    assert Blank(a) ==> Words(a) == [];
    RespelledIsSame(fold, a, lead_ + Spelt(words_, gaps_));
  }

  /** The fold takes each character to one character, and only the blank to the blank. */
  ghost predicate FoldOnce(fold: char -> string) {
    && (forall c: char :: |fold(c)| == 1)
    && forall c: char :: fold(c) == " " <==> c == ' '
  }

  lemma {:induction false} FoldedLetters(fold: char -> string, u: string, v: string)
    requires FoldOnce(fold) && FoldAll(fold, u) == FoldAll(fold, v)
    ensures SameLetters(fold, u, v)
  {
    if u != "" && v != "" {
      assert FoldAll(fold, u)[0] == fold(u[0])[0] && FoldAll(fold, v)[0] == fold(v[0])[0];
      assert FoldAll(fold, u)[1..] == FoldAll(fold, u[1..]) && FoldAll(fold, v)[1..] == FoldAll(fold, v[1..]);
      FoldedLetters(fold, u[1..], v[1..]);
      assert u == [u[0]] + u[1..] && v == [v[0]] + v[1..];
    }
  }

  lemma JoinedHead(us: seq<string>)
    requires us != [] && AreWords(us)
    ensures us[0] <= Join(us, ' ') && (forall i :: 0 <= i < |us[0]| ==> us[0][i] != ' ')
    ensures |us| > 1 ==> Join(us, ' ') == us[0] + [' '] + Join(us[1..], ' ')
  {
    assert IsWord(us[0]);
  }

  /** The first blank of a joined text ends its first word. */
  lemma HeadNotShorter(fold: char -> string, us: seq<string>, vs: seq<string>)
    requires FoldOnce(fold) && us != [] && vs != [] && AreWords(us) && AreWords(vs)
    requires SameLetters(fold, Join(us, ' '), Join(vs, ' '))
    ensures |vs[0]| <= |us[0]|
  {
    JoinedHead(us);
    JoinedHead(vs);
    var x, y := Join(us, ' '), Join(vs, ' ');
    assert |us| > 1 ==> x[|us[0]|] == ' ';
    assert forall i :: 0 <= i < |vs[0]| ==> y[i] == vs[0][i] && fold(y[i]) != " ";
  }

  /** Joined words that fold alike are the same words, folded alike. */
  lemma {:induction false} SplitSame(fold: char -> string, us: seq<string>, vs: seq<string>)
    requires FoldOnce(fold) && AreWords(us) && AreWords(vs)
    requires SameLetters(fold, Join(us, ' '), Join(vs, ' '))
    ensures SameWords(fold, us, vs)
    decreases |us|, 1
  {
    var x, y := Join(us, ' '), Join(vs, ' ');
    if us == [] || vs == [] {
      assert us != [] ==> IsWord(us[0]);
      assert vs != [] ==> IsWord(vs[0]);
    } else {
      HeadNotShorter(fold, us, vs);
      HeadNotShorter(fold, vs, us);
      SameHeads(fold, us, vs);
    }
  }

  lemma {:induction false} SameHeads(fold: char -> string, us: seq<string>, vs: seq<string>)
    requires FoldOnce(fold) && us != [] && vs != [] && AreWords(us) && AreWords(vs) && |us[0]| == |vs[0]|
    requires SameLetters(fold, Join(us, ' '), Join(vs, ' '))
    ensures SameWords(fold, us, vs)
    decreases |us|, 0
  {
    JoinedHead(us);
    JoinedHead(vs);
    var x, y, n := Join(us, ' '), Join(vs, ' '), |us[0]|;
    assert forall i :: 0 <= i < n ==> us[0][i] == x[i] && vs[0][i] == y[i];
    if |us| > 1 && |vs| > 1 {
      assert x[n + 1..] == Join(us[1..], ' ') && y[n + 1..] == Join(vs[1..], ' ');
      SplitSame(fold, us[1..], vs[1..]);
      assert us == [us[0]] + us[1..] && vs == [vs[0]] + vs[1..];
    }
  }

  /** With such a fold, two names are the same person exactly when they are respellings of each other. */
  lemma SamePersonIff(fold: char -> string, a: string, b: string)
    requires FoldOnce(fold) && !Blank(a)
    ensures SamePerson(fold, a, b) <==> Respelled(fold, a, b)
  {
    if Respelled(fold, a, b) {
      RespelledIsSame(fold, a, b);
    }
    if SamePerson(fold, a, b) {
      WordsAreWords(a);
      WordsAreWords(b);
      FoldedLetters(fold, Join(Words(a), ' '), Join(Words(b), ' '));
      SplitSame(fold, Words(a), Words(b));
    }
  }

  // ---- Segregation of duties ---------------------------------------------------

  datatype ReviewAction = ApproveAction | OverrideAction | ReturnAction

  function GateApprover(trail: seq<Entry>, gate: nat): Option<string> {
    if trail == [] then None
    else
      var e := trail[|trail| - 1].body;
      if e.event.GateApproval? && e.event.gate == gate then Some(e.human)
      else GateApprover(trail[..|trail| - 1], gate)
  }

  /** `gate_approver`: the human of the most recent approval of `gate`. */
  method FindGateApprover(trail: seq<Entry>, gate: nat) returns (approver: Option<string>)
    ensures approver == GateApprover(trail, gate)
  {
    approver := None;
    for i := 0 to |trail|
      invariant approver == GateApprover(trail[..i], gate)
    {
      assert trail[..i + 1][..i] == trail[..i];
      var e := trail[i].body;
      if e.event.GateApproval? && e.event.gate == gate {
        approver := Some(e.human);
      }
    }
    assert trail[..|trail|] == trail;
  }

  /** `DISTINCT_APPROVER_GATES`. */
  function DistinctFrom(gate: nat): seq<nat> {
    if gate == 3 then [2] else []
  }

  /**
   * `sod_violation`. The three review actions are all closed to the preparer;
   * an approval must also differ from the approvers of the listed gates.
   */
  predicate SodViolation(fold: char -> string, action: ReviewAction, human: string, preparer: string,
                         trail: seq<Entry>, gate: Option<nat>)
  {
    || SamePerson(fold, human, preparer)
    || (action == ApproveAction && gate.Some? &&
        exists i :: 0 <= i < |DistinctFrom(gate.value)|
                    && var other := GateApprover(trail, DistinctFrom(gate.value)[i]);
                       other.Some? && SamePerson(fold, human, other.value))
  }

  // ---- Reviewer decisions ------------------------------------------------------

  /** `PREPARER_EXCLUDED_DECISIONS`: the reviewer's judgement. */
  predicate ReviewerOnly(t: DecisionType) {
    t in {SignOff, Challenge, Classify, ScopeLimitation, EngagementConclusion, RemediationVerification}
  }

  /** `DECISION_RECORDABLE_STATUSES`. */
  predicate Recordable(t: DecisionType, s: AuditStatus) {
    match t
    case SignOff => s == WaitingGate(2)
    case Challenge => s == WaitingGate(2)
    case Classify => s == WaitingGate(3)
    case ScopeLimitation => s == WaitingGate(3)
    case EngagementConclusion => s == WaitingGate(3)
    case Writeup => s == WaitingGate(3)
    case ManagementResponse => s == WaitingGate(3) || s == Completed
    case RemediationVerification => s == Completed
  }

  predicate RationaleAlwaysRequired(t: DecisionType) {
    t in {Challenge, ScopeLimitation, EngagementConclusion, RemediationVerification}
  }

  predicate DecisionSodViolation(fold: char -> string, t: DecisionType, human: string, preparer: string) {
    ReviewerOnly(t) && SamePerson(fold, human, preparer)
  }

  /** `conclusion_change_allowed`, for the design conclusion. */
  predicate DesignChangeAllowed(draft: Design, new_: Design) {
    new_ == draft || (new_ == DesignNotTested && draft == DesignEffective)
  }

  /** `conclusion_change_allowed`, for the operating conclusion. */
  predicate OperatingChangeAllowed(draft: Operating, new_: Operating) {
    new_ == draft || (new_ == OperatingNotTested && draft == OperatingEffective)
  }

  predicate FindingNeedsReview(result: Outcome, keyControl: Option<bool>) {
    result == ExceptionFound || keyControl == Some(true)
  }

  predicate FindingNeedsScopeLimitation(effective: Outcome, keyControl: Option<bool>) {
    keyControl == Some(true) && effective == NotTested
  }

  predicate NeedsActionPlan(a: Agreement) { a == Agree || a == Partial }

  predicate NeedsRebuttal(a: Agreement) { a == Disagree }
}

/** Redaction of account ids (src/swarm/evidence.py, `_redact_account_ids`). */
module Redaction {
  import opened Options

  const MARK := "[REDACTED]"

  /** Which characters count as decimal digits; the marker and the hyphen hold none. */
  ghost predicate Usable(digit: char -> bool) {
    && !digit('-')
    && forall i :: 0 <= i < |MARK| ==> !digit(MARK[i])
  }

  /** The first `n` characters are digits. */
  predicate Digits(digit: char -> bool, t: string, n: nat) {
    n <= |t| && forall i :: 0 <= i < n ==> digit(t[i])
  }

  /** `dddd-dddd-dddd`. */
  predicate Grouped(digit: char -> bool, t: string) {
    && 14 <= |t| && t[4] == '-' && t[9] == '-'
    && forall i :: 0 <= i < 14 && i != 4 && i != 9 ==> digit(t[i])
  }

  predicate NoDigitAt(digit: char -> bool, t: string, i: nat) {
    i < |t| ==> !digit(t[i])
  }

  /**
   * Length of an account id at the start of `t`, 0 when there is none; `prev`
   * is the character before. Neither side may touch another digit.
   */
  function Match(digit: char -> bool, prev: Option<char>, t: string): (n: nat)
    ensures n == 0 || n == 12 || n == 14
    ensures n <= |t|
  {
    if prev.Some? && digit(prev.value) then 0
    else if Digits(digit, t, 12) && NoDigitAt(digit, t, 12) then 12
    else if Grouped(digit, t) && NoDigitAt(digit, t, 14) then 14
    else 0
  }

  /** Replaces every account id, left to right, without overlaps. */
  function RedactAfter(digit: char -> bool, prev: Option<char>, t: string): string
    decreases |t|
  {
    if t == "" then ""
    else
      var n := Match(digit, prev, t);
      if n > 0 then MARK + RedactAfter(digit, Some(t[n - 1]), t[n..])
      else [t[0]] + RedactAfter(digit, Some(t[0]), t[1..])
  }

  function Redact(digit: char -> bool, t: string): string {
    RedactAfter(digit, None, t)
  }

  /** No account id anywhere. */
  predicate CleanAfter(digit: char -> bool, prev: Option<char>, t: string)
    decreases |t|
  {
    t == "" || (Match(digit, prev, t) == 0 && CleanAfter(digit, Some(t[0]), t[1..]))
  }

  lemma {:induction false} CleanUnchanged(digit: char -> bool, prev: Option<char>, t: string)
    requires CleanAfter(digit, prev, t)
    ensures RedactAfter(digit, prev, t) == t
    decreases |t|
  {
    if t != "" {
      CleanUnchanged(digit, Some(t[0]), t[1..]);
    }
  }

  /** A character an account id may hold. */
  predicate IdChar(digit: char -> bool, c: char) { digit(c) || c == '-' }

  lemma MarkIsNoId(digit: char -> bool)
    requires Usable(digit)
    ensures !IdChar(digit, MARK[0])
  {
    assert !digit(MARK[0]);
  }

  /** An output that starts with an id character starts with the input's first character. */
  lemma FirstCopied(digit: char -> bool, prev: Option<char>, t: string)
    requires Usable(digit) && RedactAfter(digit, prev, t) != "" && IdChar(digit, RedactAfter(digit, prev, t)[0])
    ensures t != "" && RedactAfter(digit, prev, t) == [t[0]] + RedactAfter(digit, Some(t[0]), t[1..])
  {
    MarkIsNoId(digit);
  }

  lemma Rejoined(t: string, k: nat, rest: string)
    requires 1 < k <= |t|
    ensures [t[0]] + (t[1..][..k - 1] + rest) == t[..k] + rest
    ensures t[1..][k - 1..] == t[k..] && t[1..][k - 2] == t[k - 1]
  {
  }

  /** Where the output holds only id characters, it is a copy of the input. */
  lemma {:induction false} Copied(digit: char -> bool, prev: Option<char>, t: string, k: nat)
    requires Usable(digit) && 0 < k <= |RedactAfter(digit, prev, t)|
    requires forall i :: 0 <= i < k ==> IdChar(digit, RedactAfter(digit, prev, t)[i])
    ensures k <= |t| && RedactAfter(digit, prev, t) == t[..k] + RedactAfter(digit, Some(t[k - 1]), t[k..])
    decreases k
  {
    FirstCopied(digit, prev, t);
    if k > 1 {
      var rest := RedactAfter(digit, Some(t[0]), t[1..]);
      assert forall i :: 0 <= i < k - 1 ==> rest[i] == RedactAfter(digit, prev, t)[i + 1];
      Copied(digit, Some(t[0]), t[1..], k - 1);
      Rejoined(t, k, RedactAfter(digit, Some(t[k - 1]), t[k..]));
    } else {
      assert t[..1] == [t[0]];
    }
  }

  /** A digit after a digit is always copied. */
  lemma DigitCopied(digit: char -> bool, prev: char, t: string)
    requires digit(prev) && t != ""
    ensures RedactAfter(digit, Some(prev), t) != "" && RedactAfter(digit, Some(prev), t)[0] == t[0]
  {
  }

  /** Id characters at the start of the output, ending in a digit, are those of the input, and so is the next one. */
  lemma CopiedStart(digit: char -> bool, prev: Option<char>, t: string, m: nat)
    requires Usable(digit) && 0 < m <= |RedactAfter(digit, prev, t)|
    requires var out := RedactAfter(digit, prev, t);
             digit(out[m - 1]) && forall i :: 0 <= i < m ==> IdChar(digit, out[i])
    ensures var out := RedactAfter(digit, prev, t);
            && m <= |t| && (forall i :: 0 <= i < m ==> t[i] == out[i])
            && (m < |t| ==> m < |out| && out[m] == t[m])
  {
    var out := RedactAfter(digit, prev, t);
    Copied(digit, prev, t, m);
    assert forall i :: 0 <= i < m ==> t[i] == t[..m][i] == out[i];
    if m < |t| {
      DigitCopied(digit, t[m - 1], t[m..]);
    }
  }

  /** Where the input has no id, the output has none. */
  lemma NoNewMatch(digit: char -> bool, prev: Option<char>, t: string)
    requires Usable(digit) && t != "" && Match(digit, prev, t) == 0
    ensures Match(digit, prev, RedactAfter(digit, prev, t)) == 0
  {
    var m := Match(digit, prev, RedactAfter(digit, prev, t));
    if m > 0 {
      CopiedStart(digit, prev, t, m);
    }
  }

  /** The marker can be passed over. */
  lemma {:induction false} MarkIsClean(digit: char -> bool, prev: Option<char>, rest: string, i: nat)
    requires Usable(digit) && i < |MARK| && CleanAfter(digit, Some(']'), rest)
    ensures CleanAfter(digit, prev, MARK[i..] + rest)
    decreases |MARK| - i
  {
    var t := MARK[i..] + rest;
    assert t[0] == MARK[i];
    if i + 1 < |MARK| {
      MarkIsClean(digit, Some(MARK[i]), rest, i + 1);
      assert t[1..] == MARK[i + 1..] + rest;
    } else {
      assert t[1..] == rest;
    }
  }

  /** The output is clean; `shown` is the character before it in the output. */
  lemma {:induction false} OutputClean(digit: char -> bool, prev: Option<char>, shown: Option<char>, t: string)
    requires Usable(digit)
    requires shown == prev || (shown == Some(']') && NoDigitAt(digit, t, 0))
    ensures CleanAfter(digit, shown, RedactAfter(digit, prev, t))
    decreases |t|
  {
    if t != "" {
      var out := RedactAfter(digit, prev, t);
      var n := Match(digit, prev, t);
      if n > 0 {
        OutputClean(digit, Some(t[n - 1]), Some(']'), t[n..]);
        MarkIsClean(digit, shown, RedactAfter(digit, Some(t[n - 1]), t[n..]), 0);
        assert MARK[0..] == MARK;
      } else {
        OutputClean(digit, Some(t[0]), Some(t[0]), t[1..]);
        assert out[0] == t[0] && out[1..] == RedactAfter(digit, Some(t[0]), t[1..]);
        if shown == prev {
          NoNewMatch(digit, prev, t);
        }
      }
    }
  }

  /** Nothing is left to redact: redacting twice is redacting once. */
  lemma RedactionIsIdempotent(digit: char -> bool, t: string)
    requires Usable(digit)
    ensures CleanAfter(digit, None, Redact(digit, t))
    ensures Redact(digit, Redact(digit, t)) == Redact(digit, t)
  {
    OutputClean(digit, None, None, t);
    CleanUnchanged(digit, None, Redact(digit, t));
  }

  // ---- What is left ------------------------------------------------------------

  predicate TwelveDigitsAt(digit: char -> bool, t: string, i: nat) {
    && i + 12 <= |t| && (forall k :: i <= k < i + 12 ==> digit(t[k]))
    && (i + 12 < |t| ==> !digit(t[i + 12]))
  }

  predicate ThreeGroupsAt(digit: char -> bool, t: string, i: nat) {
    && i + 14 <= |t| && t[i + 4] == '-' && t[i + 9] == '-'
    && (forall k :: i <= k < i + 14 && k != i + 4 && k != i + 9 ==> digit(t[k]))
    && (i + 14 < |t| ==> !digit(t[i + 14]))
  }

  /** Twelve digits, or three groups of four, that touch no other digit. */
  predicate AccountIdAt(digit: char -> bool, t: string, i: nat) {
    && i < |t| && (i > 0 ==> !digit(t[i - 1]))
    && (TwelveDigitsAt(digit, t, i) || ThreeGroupsAt(digit, t, i))
  }

  lemma MatchIsId(digit: char -> bool, t: string, i: nat)
    requires i < |t|
    ensures Match(digit, if i == 0 then None else Some(t[i - 1]), t[i..]) > 0 <==> AccountIdAt(digit, t, i)
  {
    var rest := t[i..];
    assert forall k :: 0 <= k < |rest| ==> rest[k] == t[i + k];
    assert forall k :: i <= k < |t| ==> t[k] == rest[k - i];
  }

  lemma {:induction false} CleanHasNoId(digit: char -> bool, t: string, i: nat)
    requires i <= |t| && CleanAfter(digit, if i == 0 then None else Some(t[i - 1]), t[i..])
    ensures forall k :: i <= k < |t| ==> !AccountIdAt(digit, t, k)
    decreases |t| - i
  {
    if i < |t| {
      MatchIsId(digit, t, i);
      assert t[i..][1..] == t[i + 1..];
      CleanHasNoId(digit, t, i + 1);
    }
  }

  lemma {:induction false} NoIdIsClean(digit: char -> bool, t: string, i: nat)
    requires i <= |t| && forall k :: i <= k < |t| ==> !AccountIdAt(digit, t, k)
    ensures CleanAfter(digit, if i == 0 then None else Some(t[i - 1]), t[i..])
    decreases |t| - i
  {
    if i < |t| {
      MatchIsId(digit, t, i);
      assert t[i..][1..] == t[i + 1..];
      NoIdIsClean(digit, t, i + 1);
    }
  }

  predicate HasNoId(digit: char -> bool, t: string) {
    forall k :: 0 <= k < |t| ==> !AccountIdAt(digit, t, k)
  }

  /** No account id is left anywhere, and a text without one is left as it is. */
  lemma RedactionIsExact(digit: char -> bool, t: string)
    requires Usable(digit)
    ensures HasNoId(digit, Redact(digit, t))
    ensures Redact(digit, t) == t <==> HasNoId(digit, t)
  {
    var out := Redact(digit, t);
    RedactionIsIdempotent(digit, t);
    assert out[0..] == out && t[0..] == t;
    CleanHasNoId(digit, out, 0);
    if HasNoId(digit, t) {
      NoIdIsClean(digit, t, 0);
      CleanUnchanged(digit, None, t);
    }
  }

  /** A character at which no id starts is copied. */
  lemma OneCopied(digit: char -> bool, prev: Option<char>, t: string)
    requires t != "" && Match(digit, prev, t) == 0
    ensures RedactAfter(digit, prev, t) == [t[0]] + RedactAfter(digit, Some(t[0]), t[1..])
  {
  }

  /** No id starts before the last `n` characters of the text. */
  predicate NoneBefore(digit: char -> bool, prev: Option<char>, t: string, n: nat)
    requires n <= |t|
    decreases |t|
  {
    n == |t| || (Match(digit, prev, t) == 0 && NoneBefore(digit, Some(t[0]), t[1..], n))
  }

  lemma Put(before: string, x: string)
    requires before != ""
    ensures [before[0]] + (before[1..] + x) == before + x
  {
  }

  /** What comes before the first account id is copied. */
  lemma {:induction false} CopiedBefore(digit: char -> bool, prev: Option<char>, before: string, rest: string)
    requires NoneBefore(digit, prev, before + rest, |rest|)
    ensures RedactAfter(digit, prev, before + rest) == before + RedactAfter(digit, LastOr(prev, before), rest)
    decreases |before|
  {
    if before == "" {
      assert before + rest == rest;
    } else {
      assert (before + rest)[1..] == before[1..] + rest;
      OneCopied(digit, prev, before + rest);
      CopiedBefore(digit, Some(before[0]), before[1..], rest);
      Put(before, RedactAfter(digit, LastOr(prev, before), rest));
    }
  }

  /** The first account id of a text is replaced by the mark; what comes before it stays. */
  lemma FirstIdIsMarked(digit: char -> bool, before: string, rest: string)
    requires NoneBefore(digit, None, before + rest, |rest|) && Match(digit, LastOr(None, before), rest) > 0
    ensures var n := Match(digit, LastOr(None, before), rest);
            Redact(digit, before + rest) == before + (MARK + RedactAfter(digit, Some(rest[n - 1]), rest[n..]))
  {
    CopiedBefore(digit, None, before, rest);
  }

  /** The last character of a text, or what came before it. */
  function LastOr(prev: Option<char>, s: string): Option<char> {
    if s == "" then prev else Some(s[|s| - 1])
  }
}

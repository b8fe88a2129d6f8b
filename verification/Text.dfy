/** The absent-value type used throughout (Python's None). */
module Options {
  datatype Option<+T> = None | Some(value: T)
}

/** The string operations the audit code relies on, over sequences of characters. */
module Text {
  /** Python's `str.isspace` for one character; `str.strip` and `str.split` use the same set. */
  predicate IsSpace(c: char) {
    var n := c as int;
    || 9 <= n <= 13 || 28 <= n <= 32 || n == 0x85 || n == 0xA0 || n == 0x1680
    || 0x2000 <= n <= 0x200A || n == 0x2028 || n == 0x2029 || n == 0x202F || n == 0x205F || n == 0x3000
  }

  predicate Blank(s: string) {
    forall i :: 0 <= i < |s| ==> IsSpace(s[i])
  }

  function StripLeft(s: string): (r: string)
    ensures |r| <= |s|
    ensures r == "" || !IsSpace(r[0])
    ensures r == "" <==> Blank(s)
  {
    if s == "" then "" else if IsSpace(s[0]) then StripLeft(s[1..]) else s
  }

  function StripRight(s: string): (r: string)
    ensures r <= s
    ensures r == "" <==> Blank(s)
    ensures r == "" || !IsSpace(r[|r| - 1])
  {
    if s == "" then "" else if IsSpace(s[|s| - 1]) then StripRight(s[..|s| - 1]) else s
  }

  function Strip(s: string): (r: string)
    ensures r == "" <==> Blank(s)
  {
    StripRight(StripLeft(s))
  }

  /** An identifier that stripping leaves as it is and that is not empty. */
  predicate Trimmed(s: string) {
    s != "" && !IsSpace(s[0]) && !IsSpace(s[|s| - 1])
  }

  lemma StripOfTrimmed(s: string)
    requires Trimmed(s)
    ensures Strip(s) == s
  {
  }

  /** Length of the leading run of non-space characters. */
  function WordLength(s: string): (n: nat)
    ensures n <= |s|
    ensures s != "" && !IsSpace(s[0]) ==> 0 < n
  {
    if s == "" || IsSpace(s[0]) then 0 else 1 + WordLength(s[1..])
  }

  /** `str.split()`: the maximal runs of non-space characters. */
  function Words(s: string): (r: seq<string>)
    ensures !Blank(s) ==> r != [] && r[0] != ""
    decreases |s|
  {
    var t := StripLeft(s);
    if t == "" then []
    else
      var n := WordLength(t);
      [t[..n]] + Words(t[n..])
  }

  /** A word holds no white space. */
  predicate IsWord(w: string) {
    w != "" && forall i :: 0 <= i < |w| ==> !IsSpace(w[i])
  }

  predicate AreWords(ws: seq<string>) {
    forall i :: 0 <= i < |ws| ==> IsWord(ws[i])
  }

  lemma {:induction false} WordPrefix(s: string)
    ensures forall i :: 0 <= i < WordLength(s) ==> !IsSpace(s[i])
  {
    if s != "" && !IsSpace(s[0]) {
      WordPrefix(s[1..]);
    }
  }

  lemma {:induction false} WordsAreWords(s: string)
    ensures AreWords(Words(s))
    decreases |s|
  {
    var t := StripLeft(s);
    if t != "" {
      var n := WordLength(t);
      WordPrefix(t);
      WordsAreWords(t[n..]);
    }
  }

  lemma {:induction false} WordThenEnd(w: string, rest: string)
    requires IsWord(w) && (rest == "" || IsSpace(rest[0]))
    ensures WordLength(w + rest) == |w|
  {
    assert (w + rest)[0] == w[0] && (w + rest)[1..] == w[1..] + rest;
    if |w| > 1 {
      WordThenEnd(w[1..], rest);
    } else {
      assert (w + rest)[1..] == rest;
    }
  }

  lemma FirstWord(w: string, rest: string)
    requires IsWord(w) && (rest == "" || IsSpace(rest[0]))
    ensures Words(w + rest) == [w] + Words(rest)
  {
    WordThenEnd(w, rest);
    assert (w + rest)[..|w|] == w && (w + rest)[|w|..] == rest;
  }

  lemma NextWord(w: string, rest: string)
    requires IsWord(w)
    ensures Words(w + [' '] + rest) == [w] + Words(rest)
  {
    FirstWord(w, [' '] + rest);
    SpaceFirst(rest);
    assert w + ([' '] + rest) == w + [' '] + rest;
  }

  lemma {:induction false} WordsOfLine(ws: seq<string>)
    requires AreWords(ws)
    ensures Words(Join(ws, ' ')) == ws
  {
    if |ws| == 1 {
      FirstWord(ws[0], "");
      assert ws[0] + "" == ws[0];
    } else if ws != [] {
      WordsOfLine(ws[1..]);
      NextWord(ws[0], Join(ws[1..], ' '));
      assert ws == [ws[0]] + ws[1..];
    }
  }

  lemma SpaceFirst(rest: string)
    ensures Words([' '] + rest) == Words(rest)
  {
    assert ([' '] + rest)[1..] == rest;
  }

  // ---- Spelling a line -----------------------------------------------------------

  /** White space between words, or around them. */
  predicate Gaps(gaps: seq<string>) {
    && (forall i :: 0 <= i < |gaps| ==> Blank(gaps[i]))
    && (forall i :: 0 <= i < |gaps| - 1 ==> gaps[i] != "")
  }

  /** The words, each followed by its gap; only the last gap may be empty. */
  function Spelt(words: seq<string>, gaps: seq<string>): string
    requires |words| == |gaps|
  {
    if words == [] then "" else words[0] + gaps[0] + Spelt(words[1..], gaps[1..])
  }

  lemma {:induction false} WordsAfterGap(gap: string, rest: string)
    requires Blank(gap)
    ensures Words(gap + rest) == Words(rest)
  {
    if gap == "" {
      assert gap + rest == rest;
    } else {
      WordsAfterGap(gap[1..], rest);
      assert gap + rest == [gap[0]] + (gap[1..] + rest);
      assert (gap + rest)[1..] == gap[1..] + rest;
    }
  }

  /** After a word comes its gap, or nothing. */
  lemma SpeltHead(words: seq<string>, gaps: seq<string>)
    requires words != [] && |words| == |gaps| && Gaps(gaps)
    ensures var rest := gaps[0] + Spelt(words[1..], gaps[1..]);
            Spelt(words, gaps) == words[0] + rest && (rest == "" || IsSpace(rest[0]))
  {
    var rest := gaps[0] + Spelt(words[1..], gaps[1..]);
    assert Spelt(words, gaps) == words[0] + rest;
    if gaps[0] == "" {
      assert |words| == 1;
      assert words[1..] == [];
    } else {
      assert rest[0] == gaps[0][0];
    }
  }

  /** Splitting finds the words, whatever white space is between and around them. */
  lemma {:induction false} WordsOfSpelt(lead: string, words: seq<string>, gaps: seq<string>)
    requires Blank(lead) && AreWords(words) && |words| == |gaps| && Gaps(gaps)
    ensures Words(lead + Spelt(words, gaps)) == words
    decreases |words|
  {
    WordsAfterGap(lead, Spelt(words, gaps));
    if words != [] {
      SpeltHead(words, gaps);
      WordsOfSpelt(gaps[0], words[1..], gaps[1..]);
      FirstWord(words[0], gaps[0] + Spelt(words[1..], gaps[1..]));
      assert words == [words[0]] + words[1..];
    }
  }

  lemma {:induction false} StrippedGap(s: string) returns (gap: string)
    ensures Blank(gap) && s == gap + StripLeft(s)
  {
    if s != "" && IsSpace(s[0]) {
      var rest := StrippedGap(s[1..]);
      gap := [s[0]] + rest;
      assert s == [s[0]] + s[1..];
    } else {
      gap := "";
    }
  }

  lemma {:induction false} WordStops(s: string)
    ensures WordLength(s) < |s| ==> IsSpace(s[WordLength(s)])
  {
    if s != "" && !IsSpace(s[0]) {
      WordStops(s[1..]);
    }
  }

  /** The gap after a word is not empty when another word follows. */
  lemma GapFollows(lead: string, words: seq<string>, gaps: seq<string>)
    requires AreWords(words) && |gaps| == |words| && Gaps(gaps) && Blank(lead)
    requires var rest := lead + Spelt(words, gaps); rest == "" || IsSpace(rest[0])
    ensures Gaps([lead] + gaps)
  {
    assert words != [] ==> IsWord(words[0]) && Spelt(words, gaps)[0] == words[0][0];
  }

  /** Every text is spelt by its own words. */
  lemma {:induction false} SpellingOf(s: string) returns (lead: string, gaps: seq<string>)
    ensures |gaps| == |Words(s)| && Gaps(gaps) && Blank(lead)
    ensures s == lead + Spelt(Words(s), gaps)
    decreases |s|, 1
  {
    lead := StrippedGap(s);
    gaps := [];
    if StripLeft(s) != "" {
      gaps := SpellingFrom(StripLeft(s));
    }
  }

  /** A text that starts with a word: the gap after it, and the rest. */
  lemma {:induction false} SpellingFrom(t: string) returns (gaps: seq<string>)
    requires t != "" && !IsSpace(t[0])
    ensures Words(t) == [t[..WordLength(t)]] + Words(t[WordLength(t)..])
    ensures |gaps| == |Words(t)| && Gaps(gaps) && t == Spelt(Words(t), gaps)
    decreases |t|, 0
  {
    var n := WordLength(t);
    var next, others := SpellingOf(t[n..]);
    WordStops(t);
    WordsAreWords(t[n..]);
    GapFollows(next, Words(t[n..]), others);
    gaps := [next] + others;
    SpeltMore(t[..n], Words(t[n..]), next, others);
    assert t == t[..n] + t[n..];
  }

  lemma SpeltMore(w: string, words: seq<string>, gap: string, gaps: seq<string>)
    requires |words| == |gaps|
    ensures Spelt([w] + words, [gap] + gaps) == w + (gap + Spelt(words, gaps))
  {
    assert ([w] + words)[1..] == words && ([gap] + gaps)[1..] == gaps;
  }

  lemma {:induction false} EndGap(words: seq<string>, gaps: seq<string>, gap: string)
    requires words != [] && |words| == |gaps|
    ensures Spelt(words, gaps) + gap == Spelt(words, gaps[..|gaps| - 1] + [gaps[|gaps| - 1] + gap])
    decreases |words|
  {
    var longer := gaps[..|gaps| - 1] + [gaps[|gaps| - 1] + gap];
    if |words| > 1 {
      EndGap(words[1..], gaps[1..], gap);
      assert longer[1..] == gaps[1..][..|gaps| - 2] + [gaps[|gaps| - 1] + gap];
      assert longer[0] == gaps[0];
      var rest := Spelt(words[1..], gaps[1..]);
      assert words[0] + gaps[0] + rest + gap == words[0] + gaps[0] + (rest + gap);
    } else {
      assert longer == [gaps[0] + gap];
      assert words[0] + gaps[0] + "" + gap == words[0] + (gaps[0] + gap) + "";
    }
  }

  lemma LongerGaps(gaps: seq<string>, gap: string)
    requires gaps != [] && Gaps(gaps) && Blank(gap)
    ensures Gaps(gaps[..|gaps| - 1] + [gaps[|gaps| - 1] + gap])
  {
  }

  lemma WordsThenGap(lead: string, words: seq<string>, gaps: seq<string>, gap: string)
    requires Blank(lead) && AreWords(words) && |words| == |gaps| && Gaps(gaps) && words != [] && Blank(gap)
    ensures Words(lead + (Spelt(words, gaps) + gap)) == words
  {
    EndGap(words, gaps, gap);
    LongerGaps(gaps, gap);
    WordsOfSpelt(lead, words, gaps[..|gaps| - 1] + [gaps[|gaps| - 1] + gap]);
  }

  lemma BlankWords(s: string)
    ensures Words(s) == [] <==> Blank(s)
  {
  }

  lemma Regrouped(a: string, b: string, c: string)
    ensures (a + b) + c == a + (b + c)
  {
  }

  lemma BothBlank(s: string, gap: string)
    requires Blank(s) && Blank(gap)
    ensures Blank(s + gap)
  {
  }

  /** White space after a name does not count. */
  lemma WordsBeforeGap(s: string, gap: string)
    requires Blank(gap)
    ensures Words(s + gap) == Words(s)
  {
    BlankWords(s);
    if Blank(s) {
      BothBlank(s, gap);
      BlankWords(s + gap);
    } else {
      var lead, gaps := SpellingOf(s);
      var words := Words(s);
      WordsAreWords(s);
      WordsThenGap(lead, words, gaps, gap);
      Regrouped(lead, Spelt(words, gaps), gap);
    }
  }

  lemma {:induction false} StrippedEnd(s: string) returns (gap: string)
    ensures Blank(gap) && s == StripRight(s) + gap
  {
    if s != "" && IsSpace(s[|s| - 1]) {
      var rest := StrippedEnd(s[..|s| - 1]);
      gap := rest + [s[|s| - 1]];
      assert s == s[..|s| - 1] + [s[|s| - 1]];
    } else {
      gap := "";
    }
  }

  /** Stripping a name leaves its words. */
  lemma StripKeepsWords(s: string)
    ensures Words(Strip(s)) == Words(s)
  {
    var front := StrippedGap(s);
    var back := StrippedEnd(StripLeft(s));
    WordsAfterGap(front, StripLeft(s));
    WordsBeforeGap(Strip(s), back);
  }

  /** `str(n)`. */
  function Decimal(n: nat): string {
    if n < 10 then [('0' as int + n) as char] else Decimal(n / 10) + [('0' as int + n % 10) as char]
  }

  /** `sep.join(parts)` for a one-character separator. */
  function Join(parts: seq<string>, sep: char): string {
    if parts == [] then ""
    else if |parts| == 1 then parts[0]
    else parts[0] + [sep] + Join(parts[1..], sep)
  }

  /** `s.split(sep)` for a one-character separator: always at least one part. */
  function SplitOn(s: string, sep: char): (parts: seq<string>)
    ensures parts != []
    ensures forall i :: 0 <= i < |parts| ==> sep !in parts[i]
  {
    if s == "" then [""]
    else
      var rest := SplitOn(s[1..], sep);
      if s[0] == sep then [""] + rest
      else [[s[0]] + rest[0]] + rest[1..]
  }

  lemma {:induction false} SplitOfPlain(s: string, sep: char)
    requires sep !in s
    ensures SplitOn(s, sep) == [s]
  {
    if s != "" {
      SplitOfPlain(s[1..], sep);
      assert s == [s[0]] + s[1..];
    }
  }

  lemma {:induction false} SplitAfterPlain(s: string, sep: char, rest: string)
    requires sep !in s
    ensures SplitOn(s + [sep] + rest, sep) == [s] + SplitOn(rest, sep)
  {
    var whole := s + [sep] + rest;
    if s == "" {
      assert whole[1..] == rest;
    } else {
      SplitAfterPlain(s[1..], sep, rest);
      assert whole[1..] == s[1..] + [sep] + rest;
      assert s == [s[0]] + s[1..];
    }
  }

  /** Splitting undoes joining exactly when no part holds the separator. */
  lemma SplitOfJoin(parts: seq<string>, sep: char)
    requires parts != []
    ensures SplitOn(Join(parts, sep), sep) == parts
            <==> forall i :: 0 <= i < |parts| ==> sep !in parts[i]
  {
    if forall i :: 0 <= i < |parts| ==> sep !in parts[i] {
      SplitOfPlainJoin(parts, sep);
    }
  }

  lemma {:induction false} SplitOfPlainJoin(parts: seq<string>, sep: char)
    requires parts != []
    requires forall i :: 0 <= i < |parts| ==> sep !in parts[i]
    ensures SplitOn(Join(parts, sep), sep) == parts
  {
    if |parts| == 1 {
      SplitOfPlain(parts[0], sep);
    } else {
      SplitOfPlainJoin(parts[1..], sep);
      SplitAfterPlain(parts[0], sep, Join(parts[1..], sep));
    }
  }
}

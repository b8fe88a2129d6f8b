/** The capped findings summary and the capped read (src/swarm/tools/findings_checks.py). */
module Prowler {
  import opened Sorting

  const MAX_DETAIL_LINES := 300
  const FAIL := "FAIL"

  /** A parsed finding; `rank` is its severity rank and `line` the rest of its detail line. */
  datatype Finding = Finding(check: string, status: string, rank: nat, line: string)

  // ---- The order of the listing ------------------------------------------------

  /** `finding_key`: a FAIL first, then by severity. */
  datatype Key = Key(passing: bool, rank: nat)

  function KeyOf(f: Finding): Key { Key(f.status != FAIL, f.rank) }

  predicate KeyLe(a: Key, b: Key) {
    (!a.passing && b.passing) || (a.passing == b.passing && a.rank <= b.rank)
  }

  predicate FindingLe(a: Finding, b: Finding) { KeyLe(KeyOf(a), KeyOf(b)) }

  function IsOf(check: string): Finding -> bool {
    (f: Finding) => f.check == check
  }

  function OfCheck(fs: seq<Finding>, check: string): seq<Finding> {
    Filter(IsOf(check), fs)
  }

  lemma OfCheckMembers(fs: seq<Finding>, check: string)
    ensures forall f :: f in OfCheck(fs, check) <==> f in fs && f.check == check
  {
    FilterMembers(IsOf(check), fs);
  }

  /** A check's findings as listed. */
  function Group(fs: seq<Finding>, check: string): seq<Finding> {
    Sort(FindingLe, OfCheck(fs, check))
  }

  /** The least key of some findings. */
  function Least(fs: seq<Finding>): Key
    requires fs != []
  {
    if |fs| == 1 then KeyOf(fs[0])
    else
      var rest := Least(fs[1..]);
      if KeyLe(KeyOf(fs[0]), rest) then KeyOf(fs[0]) else rest
  }

  /** `check_key`, without its last part, the check id. */
  function CheckKey(fs: seq<Finding>, check: string): Key {
    if OfCheck(fs, check) == [] then Key(true, 0) else Least(OfCheck(fs, check))
  }

  predicate CheckLe(fs: seq<Finding>, a: string, b: string) {
    var ka, kb := CheckKey(fs, a), CheckKey(fs, b);
    if ka == kb then TextLe(a, b) else KeyLe(ka, kb)
  }

  /** The keys of `by_check`, in insertion order. */
  function Checks(fs: seq<Finding>): (r: seq<string>)
    ensures forall c :: c in r <==> exists i :: 0 <= i < |fs| && fs[i].check == c
    ensures forall i, j :: 0 <= i < j < |r| ==> r[i] != r[j]
  {
    if fs == [] then []
    else
      var rest := Checks(fs[..|fs| - 1]);
      assert fs == fs[..|fs| - 1] + [fs[|fs| - 1]];
      if fs[|fs| - 1].check in rest then rest else rest + [fs[|fs| - 1].check]
  }

  function CheckOrdering(fs: seq<Finding>): (string, string) -> bool {
    (a, b) => CheckLe(fs, a, b)
  }

  function CheckOrder(fs: seq<Finding>): seq<string> {
    Sort(CheckOrdering(fs), Checks(fs))
  }

  /** The findings of these checks, group after group. */
  function Listing(fs: seq<Finding>, checks: seq<string>): seq<Finding> {
    if checks == [] then [] else Listing(fs, checks[..|checks| - 1]) + Group(fs, checks[|checks| - 1])
  }

  /** All findings in the order in which the summary lists them. */
  function PriorityOrder(fs: seq<Finding>): seq<Finding> {
    Listing(fs, CheckOrder(fs))
  }

  lemma FindingOrderTotal()
    ensures TotalOrder(FindingLe)
  {
  }

  lemma CheckOrderTotal(fs: seq<Finding>)
    ensures TotalOrder(CheckOrdering(fs))
  {
    forall a: string, b: string
      ensures CheckLe(fs, a, b) || CheckLe(fs, b, a)
    {
      TextTotal(a, b);
    }
    forall a: string, b: string, c: string | CheckLe(fs, a, b) && CheckLe(fs, b, c)
      ensures CheckLe(fs, a, c)
    {
      if TextLe(a, b) && TextLe(b, c) {
        TextTransitive(a, b, c);
      }
    }
  }

  lemma {:induction false} NoRepeats(s: seq<string>)
    requires forall i, j :: 0 <= i < j < |s| ==> s[i] != s[j]
    ensures forall c :: multiset(s)[c] <= 1
  {
    if s != [] {
      NoRepeats(s[1..]);
      assert s == [s[0]] + s[1..];
      assert s[0] !in s[1..];
    }
  }

  lemma TwiceCounts(s: seq<string>, i: nat, j: nat)
    requires i < j < |s| && s[i] == s[j]
    ensures multiset(s)[s[i]] >= 2
  {
    assert s == s[..j] + s[j..];
    assert s[i] in s[..j] && s[j] in s[j..];
    assert multiset(s) == multiset(s[..j]) + multiset(s[j..]);
    assert s[..j][i] == s[i] && s[j..][0] == s[j];
    assert multiset(s[..j])[s[i]] >= 1 && multiset(s[j..])[s[i]] >= 1;
  }

  lemma Reordered(a: seq<string>, b: seq<string>)
    requires multiset(a) == multiset(b) && forall i, j :: 0 <= i < j < |b| ==> b[i] != b[j]
    ensures forall c :: c in a <==> c in b
    ensures forall i, j :: 0 <= i < j < |a| ==> a[i] != a[j]
  {
    forall c
      ensures c in a <==> c in b
    {
      assert c in a <==> c in multiset(a);
      assert c in b <==> c in multiset(b);
    }
    NoRepeats(b);
    forall i, j | 0 <= i < j < |a|
      ensures a[i] != a[j]
    {
      if a[i] == a[j] {
        TwiceCounts(a, i, j);
      }
    }
  }

  /** The checks in listing order: each once, in order of priority. */
  lemma OrderOfChecks(fs: seq<Finding>)
    ensures var cs := CheckOrder(fs);
            && (forall c :: c in cs <==> c in Checks(fs))
            && (forall i, j :: 0 <= i < j < |cs| ==> cs[i] != cs[j])
            && Sorted(CheckOrdering(fs), cs)
  {
    CheckOrderTotal(fs);
    SortIsSorted(CheckOrdering(fs), Checks(fs));
    Reordered(CheckOrder(fs), Checks(fs));
  }

  // ---- Every finding is listed once --------------------------------------------

  lemma {:induction false} FilterSplits(fs: seq<Finding>, check: string, last: Finding)
    ensures OfCheck(fs + [last], check) == OfCheck(fs, check) + if last.check == check then [last] else []
  {
    var all := fs + [last];
    if fs == [] {
      assert all[1..] == [];
    } else {
      FilterSplits(fs[1..], check, last);
      assert all[1..] == fs[1..] + [last];
    }
  }

  lemma GroupIsOfCheck(fs: seq<Finding>, check: string)
    ensures multiset(Group(fs, check)) == multiset(OfCheck(fs, check)) && |Group(fs, check)| == |OfCheck(fs, check)|
    ensures Sorted(FindingLe, Group(fs, check))
    ensures forall f :: f in Group(fs, check) ==> f in fs && f.check == check
  {
    FindingOrderTotal();
    SortIsSorted(FindingLe, OfCheck(fs, check));
    OfCheckMembers(fs, check);
    forall f | f in Group(fs, check)
      ensures f in OfCheck(fs, check)
    {
      assert f in multiset(Group(fs, check));
    }
    assert |multiset(Group(fs, check))| == |multiset(OfCheck(fs, check))|;
  }

  function HasKey(key: Key): Finding -> bool {
    (f: Finding) => KeyOf(f) == key
  }

  /** Findings of a check with the same status class and severity keep the order of the import. */
  lemma EqualsKeepOrder(fs: seq<Finding>, check: string, key: Key)
    ensures Filter(HasKey(key), Group(fs, check)) == Filter(HasKey(key), OfCheck(fs, check))
  {
    SortIsStable(FindingLe, HasKey(key), OfCheck(fs, check));
  }

  lemma GroupAdds(fs: seq<Finding>, last: Finding, check: string)
    ensures multiset(Group(fs + [last], check)) == multiset(Group(fs, check)) + OneIf(last.check == check, last)
  {
    GroupIsOfCheck(fs, check);
    GroupIsOfCheck(fs + [last], check);
    FilterSplits(fs, check, last);
  }

  function OneIf(listed: bool, f: Finding): multiset<Finding> {
    if listed then multiset{f} else multiset{}
  }

  lemma ListingLast(fs: seq<Finding>, checks: seq<string>)
    requires checks != []
    ensures var n := |checks| - 1;
            multiset(Listing(fs, checks)) == multiset(Listing(fs, checks[..n])) + multiset(Group(fs, checks[n]))
  {
  }

  lemma LastListed(checks: seq<string>, check: string)
    requires checks != [] && forall i, j :: 0 <= i < j < |checks| ==> checks[i] != checks[j]
    ensures var n := |checks| - 1;
            && (check in checks <==> check in checks[..n] || check == checks[n])
            && !(check in checks[..n] && check == checks[n])
  {
    assert checks == checks[..|checks| - 1] + [checks[|checks| - 1]];
  }

  /** One more finding adds itself to the listing of its check. */
  lemma {:induction false} ListingAdds(fs: seq<Finding>, last: Finding, checks: seq<string>)
    requires forall i, j :: 0 <= i < j < |checks| ==> checks[i] != checks[j]
    ensures multiset(Listing(fs + [last], checks)) == multiset(Listing(fs, checks)) + OneIf(last.check in checks, last)
  {
    if checks != [] {
      var init, c := checks[..|checks| - 1], checks[|checks| - 1];
      ListingAdds(fs, last, init);
      GroupAdds(fs, last, c);
      ListingLast(fs, checks);
      ListingLast(fs + [last], checks);
      LastListed(checks, last.check);
      AddBoth(multiset(Listing(fs, init)), multiset(Group(fs, c)), last.check in init, last.check == c, last);
    }
  }

  lemma AddBoth(a: multiset<Finding>, b: multiset<Finding>, p: bool, q: bool, f: Finding)
    requires !(p && q)
    ensures (a + OneIf(p, f)) + (b + OneIf(q, f)) == (a + b) + OneIf(p || q, f)
  {
  }

  lemma {:induction false} NothingListed(checks: seq<string>)
    ensures Listing([], checks) == []
  {
    if checks != [] {
      NothingListed(checks[..|checks| - 1]);
    }
  }

  lemma {:induction false} ListingIsAll(fs: seq<Finding>, checks: seq<string>)
    requires forall i, j :: 0 <= i < j < |checks| ==> checks[i] != checks[j]
    requires forall f :: f in fs ==> f.check in checks
    ensures multiset(Listing(fs, checks)) == multiset(fs)
  {
    if fs == [] {
      NothingListed(checks);
    } else {
      var init, last := fs[..|fs| - 1], fs[|fs| - 1];
      assert fs == init + [last];
      ListingIsAll(init, checks);
      ListingAdds(init, last, checks);
    }
  }

  /** The priority order holds every finding exactly once. */
  lemma OrderHoldsAll(fs: seq<Finding>)
    ensures multiset(PriorityOrder(fs)) == multiset(fs) && |PriorityOrder(fs)| == |fs|
  {
    OrderOfChecks(fs);
    ListingIsAll(fs, CheckOrder(fs));
    assert |multiset(PriorityOrder(fs))| == |multiset(fs)|;
  }

  // ---- The listing -------------------------------------------------------------

  /** One check in the summary: its header counts, its detail lines and how many were cut. */
  datatype Section = Section(check: string, counts: map<string, nat>, shown: seq<Finding>, left: nat)

  function Lines(sections: seq<Section>): seq<Finding> {
    if sections == [] then [] else Lines(sections[..|sections| - 1]) + sections[|sections| - 1].shown
  }

  /** How many findings have a status. */
  function WithStatus(fs: seq<Finding>, status: string): nat {
    if fs == [] then 0 else WithStatus(fs[..|fs| - 1], status) + if fs[|fs| - 1].status == status then 1 else 0
  }

  /** `_status_counts`. */
  method StatusCounts(fs: seq<Finding>) returns (counts: map<string, nat>)
    ensures forall s :: s in counts <==> WithStatus(fs, s) > 0
    ensures forall s :: s in counts ==> counts[s] == WithStatus(fs, s)
  {
    counts := map[];
    for i := 0 to |fs|
      invariant forall s :: s in counts <==> WithStatus(fs[..i], s) > 0
      invariant forall s :: s in counts ==> counts[s] == WithStatus(fs[..i], s)
    {
      assert fs[..i + 1][..i] == fs[..i];
      var status := fs[i].status;
      counts := counts[status := (if status in counts then counts[status] else 0) + 1];
    }
    assert fs[..|fs|] == fs;
  }

  function Cut(n: nat, cap: nat): nat { if n < cap then n else cap }

  /** What the header of a check says. */
  ghost predicate HeaderRight(fs: seq<Finding>, s: Section) {
    && (forall status :: status in s.counts <==> WithStatus(Group(fs, s.check), status) > 0)
    && (forall status :: status in s.counts ==> s.counts[status] == WithStatus(Group(fs, s.check), status))
    && |s.shown| + s.left == |Group(fs, s.check)|
  }

  /** One group of the listing loop. */
  method ListGroup(fs: seq<Finding>, check: string, printed: nat, cap: nat) returns (section: Section)
    requires printed <= cap
    ensures section.check == check && HeaderRight(fs, section)
    ensures section.shown == Group(fs, check)[..Cut(|Group(fs, check)|, cap - printed)]
  {
    var group := Group(fs, check);
    var counts := StatusCounts(group);
    var shown: seq<Finding> := [];
    for i := 0 to |group|
      invariant shown == group[..i] && printed + i <= cap
    {
      if printed + |shown| >= cap {
        return Section(check, counts, shown, |group| - |shown|);
      }
      shown := shown + [group[i]];
    }
    section := Section(check, counts, shown, |group| - |shown|);
  }

  lemma ListingTake(listed: seq<Finding>, group: seq<Finding>, cap: nat)
    ensures listed[..Cut(|listed|, cap)] + group[..Cut(|group|, cap - Cut(|listed|, cap))]
            == (listed + group)[..Cut(|listed| + |group|, cap)]
  {
  }

  /** The listing after some checks: their sections, the lines printed and the findings cut. */
  ghost predicate Built(fs: seq<Finding>, checks: seq<string>, sections: seq<Section>, printed: nat, omitted: nat,
                        cap: nat)
  {
    && |sections| == |checks|
    && (forall k :: 0 <= k < |checks| ==> sections[k].check == checks[k] && HeaderRight(fs, sections[k]))
    && printed == |Lines(sections)| <= cap
    && Lines(sections) == Listing(fs, checks)[..Cut(|Listing(fs, checks)|, cap)]
    && printed + omitted == |Listing(fs, checks)|
  }

  lemma BuiltMore(fs: seq<Finding>, checks: seq<string>, sections: seq<Section>, printed: nat, omitted: nat, cap: nat,
                  check: string, section: Section)
    requires Built(fs, checks, sections, printed, omitted, cap)
    requires section.check == check && HeaderRight(fs, section)
    requires section.shown == Group(fs, check)[..Cut(|Group(fs, check)|, cap - printed)]
    ensures Built(fs, checks + [check], sections + [section], printed + |section.shown|, omitted + section.left, cap)
  {
    ListingTake(Listing(fs, checks), Group(fs, check), cap);
    assert (checks + [check])[..|checks|] == checks;
    assert (sections + [section])[..|sections|] == sections;
  }

  /** The listing loop. */
  method ListChecks(fs: seq<Finding>, checks: seq<string>, cap: nat)
    returns (sections: seq<Section>, printed: nat, omitted: nat)
    ensures Built(fs, checks, sections, printed, omitted, cap)
  {
    sections, printed, omitted := [], 0, 0;
    for i := 0 to |checks|
      invariant printed <= cap
      invariant Built(fs, checks[..i], sections, printed, omitted, cap)
    {
      var section := ListGroup(fs, checks[i], printed, cap);
      BuiltMore(fs, checks[..i], sections, printed, omitted, cap, checks[i], section);
      assert checks[..i + 1] == checks[..i] + [checks[i]];
      sections, printed, omitted := sections + [section], printed + |section.shown|, omitted + section.left;
    }
    assert checks[..|checks|] == checks;
  }

  /**
   * The detail part of `build_prowler_summary`: the lines are the first `cap`
   * findings in priority order, nothing is lost, and every header is complete.
   */
  method BuildListing(fs: seq<Finding>, cap: nat) returns (sections: seq<Section>, omitted: nat)
    ensures Lines(sections) == PriorityOrder(fs)[..Cut(|PriorityOrder(fs)|, cap)]
    ensures |Lines(sections)| + omitted == |fs|
    ensures |sections| == |CheckOrder(fs)|
    ensures forall i :: 0 <= i < |sections| ==> sections[i].check == CheckOrder(fs)[i] && HeaderRight(fs, sections[i])
  {
    var printed: nat;
    sections, printed, omitted := ListChecks(fs, CheckOrder(fs), cap);
    OrderHoldsAll(fs);
  }

  /** The listing of a Prowler import, with the source's own limit. */
  method SummaryListing(fs: seq<Finding>) returns (sections: seq<Section>, omitted: nat)
    ensures |Lines(sections)| == Cut(|fs|, MAX_DETAIL_LINES) && |Lines(sections)| + omitted == |fs|
    ensures Lines(sections) <= PriorityOrder(fs)
  {
    sections, omitted := BuildListing(fs, MAX_DETAIL_LINES);
    OrderHoldsAll(fs);
  }

  // ---- Counts ------------------------------------------------------------------

  function SumWith(fs: seq<Finding>, statuses: seq<string>): nat {
    if statuses == [] then 0 else SumWith(fs, statuses[..|statuses| - 1]) + WithStatus(fs, statuses[|statuses| - 1])
  }

  lemma {:induction false} SumAdds(fs: seq<Finding>, last: Finding, statuses: seq<string>)
    requires forall i, j :: 0 <= i < j < |statuses| ==> statuses[i] != statuses[j]
    ensures SumWith(fs + [last], statuses) == SumWith(fs, statuses) + if last.status in statuses then 1 else 0
  {
    assert (fs + [last])[..|fs|] == fs;
    if statuses != [] {
      var init, s := statuses[..|statuses| - 1], statuses[|statuses| - 1];
      SumAdds(fs, last, init);
      assert statuses == init + [s];
      assert s !in init;
    }
  }

  lemma {:induction false} SumOfNone(statuses: seq<string>)
    ensures SumWith([], statuses) == 0
  {
    if statuses != [] {
      SumOfNone(statuses[..|statuses| - 1]);
    }
  }

  /** The counts of a header, over all its statuses, add up to the check's findings. */
  lemma {:induction false} CountsAddUp(fs: seq<Finding>, statuses: seq<string>)
    requires forall i, j :: 0 <= i < j < |statuses| ==> statuses[i] != statuses[j]
    requires forall f :: f in fs ==> f.status in statuses
    ensures SumWith(fs, statuses) == |fs|
  {
    if fs == [] {
      SumOfNone(statuses);
    } else {
      var init, last := fs[..|fs| - 1], fs[|fs| - 1];
      assert fs == init + [last];
      CountsAddUp(init, statuses);
      SumAdds(init, last, statuses);
    }
  }

  // ---- What the cap can cut ----------------------------------------------------

  /** In one check no finding that fails is listed after one that does not. */
  lemma FailsFirstInCheck(fs: seq<Finding>, check: string, i: nat, j: nat)
    requires i < j < |Group(fs, check)| && Group(fs, check)[j].status == FAIL
    ensures Group(fs, check)[i].status == FAIL
  {
    GroupIsOfCheck(fs, check);
    assert FindingLe(Group(fs, check)[i], Group(fs, check)[j]);
  }

  /** Within a check the FAILs come first, and on either side the more severe finding does. */
  lemma WorstFirstInCheck(fs: seq<Finding>, check: string, i: nat, j: nat)
    requires i < j < |Group(fs, check)|
    ensures var a, b := Group(fs, check)[i], Group(fs, check)[j];
            && (b.status == FAIL ==> a.status == FAIL)
            && ((a.status == FAIL <==> b.status == FAIL) ==> a.rank <= b.rank)
  {
    GroupIsOfCheck(fs, check);
    assert FindingLe(Group(fs, check)[i], Group(fs, check)[j]);
  }

  /** Within one check no FAIL is cut while another finding is listed. */
  lemma NoFailCutInCheck(fs: seq<Finding>, check: string, cap: nat, shown: Finding, cut: Finding)
    requires cap <= |Group(fs, check)| && shown in Group(fs, check)[..cap] && cut in Group(fs, check)[cap..]
    ensures cut.status == FAIL ==> shown.status == FAIL
  {
    var g := Group(fs, check);
    var i :| 0 <= i < cap && g[i] == shown;
    var j :| 0 <= j < |g| - cap && g[cap..][j] == cut;
    if cut.status == FAIL {
      FailsFirstInCheck(fs, check, i, cap + j);
    }
  }

  lemma {:induction false} LeastIsLeast(fs: seq<Finding>, f: Finding)
    requires f in fs
    ensures KeyLe(Least(fs), KeyOf(f))
  {
    if |fs| > 1 {
      assert fs == [fs[0]] + fs[1..];
      if f in fs[1..] {
        LeastIsLeast(fs[1..], f);
      }
    }
  }

  lemma {:induction false} LeastIsSome(fs: seq<Finding>)
    requires fs != []
    ensures exists i :: 0 <= i < |fs| && KeyOf(fs[i]) == Least(fs)
  {
    if |fs| > 1 && Least(fs) != KeyOf(fs[0]) {
      LeastIsSome(fs[1..]);
      var i :| 0 <= i < |fs| - 1 && KeyOf(fs[1..][i]) == Least(fs[1..]);
      assert KeyOf(fs[i + 1]) == Least(fs);
    } else {
      assert KeyOf(fs[0]) == Least(fs);
    }
  }

  predicate Fails(fs: seq<Finding>, check: string) {
    exists i :: 0 <= i < |fs| && fs[i].check == check && fs[i].status == FAIL
  }

  lemma CheckKeyFails(fs: seq<Finding>, check: string)
    ensures Fails(fs, check) <==> !CheckKey(fs, check).passing
  {
    var own := OfCheck(fs, check);
    OfCheckMembers(fs, check);
    if Fails(fs, check) {
      var i :| 0 <= i < |fs| && fs[i].check == check && fs[i].status == FAIL;
      assert fs[i] in own;
      LeastIsLeast(own, fs[i]);
    }
    if !CheckKey(fs, check).passing {
      LeastIsSome(own);
      var i :| 0 <= i < |own| && KeyOf(own[i]) == Least(own);
      assert own[i] in own;
      var k :| 0 <= k < |fs| && fs[k] == own[i];
    }
  }

  /** The finding is one of the check's, failing or not as asked. */
  predicate OneOf(fs: seq<Finding>, check: string, failing: bool, f: Finding) {
    f in fs && f.check == check && (failing ==> f.status == FAIL)
  }

  /** Some finding of the first check is at least as severe as every finding of the second. */
  ghost predicate WorseCheck(fs: seq<Finding>, first: string, second: string, failing: bool) {
    exists f :: OneOf(fs, first, failing, f) && forall g :: OneOf(fs, second, failing, g) ==> f.rank <= g.rank
  }

  lemma WorstOf(fs: seq<Finding>, check: string) returns (f: Finding)
    requires OfCheck(fs, check) != []
    ensures OneOf(fs, check, Fails(fs, check), f) && KeyOf(f) == CheckKey(fs, check)
    ensures forall g :: OneOf(fs, check, Fails(fs, check), g) ==> f.rank <= g.rank
  {
    var own := OfCheck(fs, check);
    OfCheckMembers(fs, check);
    CheckKeyFails(fs, check);
    LeastIsSome(own);
    var i :| 0 <= i < |own| && KeyOf(own[i]) == Least(own);
    f := own[i];
    assert f in own;
    forall g | OneOf(fs, check, Fails(fs, check), g)
      ensures f.rank <= g.rank
    {
      LeastIsLeast(own, g);
    }
  }

  lemma HasFindings(fs: seq<Finding>, check: string)
    requires check in Checks(fs)
    ensures OfCheck(fs, check) != []
  {
    OfCheckMembers(fs, check);
    var i :| 0 <= i < |fs| && fs[i].check == check;
    assert fs[i] in OfCheck(fs, check);
  }

  /** Checks that fail come first, then the check with the more severe worst finding, then by name. */
  lemma WorstChecksFirst(fs: seq<Finding>, i: nat, j: nat)
    requires i < j < |CheckOrder(fs)|
    ensures var a, b := CheckOrder(fs)[i], CheckOrder(fs)[j];
            && (Fails(fs, b) ==> Fails(fs, a))
            && (Fails(fs, a) == Fails(fs, b) ==> WorseCheck(fs, a, b, Fails(fs, a)))
            && (CheckKey(fs, a) == CheckKey(fs, b) ==> TextLe(a, b))
  {
    var cs := CheckOrder(fs);
    var a, b := cs[i], cs[j];
    OrderOfChecks(fs);
    assert cs[i] in cs && cs[j] in cs;
    assert CheckLe(fs, a, b);
    CheckKeyFails(fs, a);
    CheckKeyFails(fs, b);
    HasFindings(fs, a);
    HasFindings(fs, b);
    var f := WorstOf(fs, a);
    var g := WorstOf(fs, b);
    if Fails(fs, a) == Fails(fs, b) {
      assert f.rank <= g.rank;
    }
  }

  /** A place in the listing is a place in one check's group. */
  lemma {:induction false} GroupPlace(fs: seq<Finding>, checks: seq<string>, i: nat) returns (k: nat)
    requires i < |Listing(fs, checks)|
    ensures k < |checks| && |Listing(fs, checks[..k])| <= i
    ensures i - |Listing(fs, checks[..k])| < |Group(fs, checks[k])|
    ensures Listing(fs, checks)[i] == Group(fs, checks[k])[i - |Listing(fs, checks[..k])|]
  {
    var last := |checks| - 1;
    if i < |Listing(fs, checks[..last])| {
      k := GroupPlace(fs, checks[..last], i);
      assert checks[..last][..k] == checks[..k];
    } else {
      k := last;
    }
  }

  /** Where the findings of a listed check begin. */
  lemma ListedIn(fs: seq<Finding>, checks: seq<string>, i: nat) returns (k: nat)
    requires i < |Listing(fs, checks)|
    ensures k < |checks| && Listing(fs, checks)[i].check == checks[k] && Listing(fs, checks)[i] in fs
    ensures |Listing(fs, checks[..k])| <= i < |Listing(fs, checks[..k + 1])|
    ensures i - |Listing(fs, checks[..k])| < |Group(fs, checks[k])|
    ensures Listing(fs, checks)[i] == Group(fs, checks[k])[i - |Listing(fs, checks[..k])|]
  {
    k := GroupPlace(fs, checks, i);
    GroupIsOfCheck(fs, checks[k]);
    assert checks[..k + 1][..k] == checks[..k];
  }

  lemma {:induction false} ListingGrows(fs: seq<Finding>, checks: seq<string>, a: nat, b: nat)
    requires a <= b <= |checks|
    ensures |Listing(fs, checks[..a])| <= |Listing(fs, checks[..b])|
    decreases b
  {
    if a < b {
      ListingGrows(fs, checks, a, b - 1);
      assert checks[..b][..b - 1] == checks[..b - 1];
    }
  }

  lemma EarlierCheckFails(fs: seq<Finding>, a: nat, b: nat)
    requires a < b < |CheckOrder(fs)| && Fails(fs, CheckOrder(fs)[b])
    ensures Fails(fs, CheckOrder(fs)[a]) && CheckOrder(fs)[a] != CheckOrder(fs)[b]
  {
    var cs := CheckOrder(fs);
    OrderOfChecks(fs);
    assert CheckOrdering(fs)(cs[a], cs[b]);
    CheckKeyFails(fs, cs[a]);
    CheckKeyFails(fs, cs[b]);
  }

  lemma LaterInListing(fs: seq<Finding>, checks: seq<string>, i: nat, j: nat) returns (a: nat, b: nat)
    requires i < j < |Listing(fs, checks)|
    ensures a <= b < |checks|
    ensures Listing(fs, checks)[i].check == checks[a] && Listing(fs, checks)[j].check == checks[b]
    ensures Listing(fs, checks)[j] in fs
    ensures var start := |Listing(fs, checks[..a])|;
            && start <= i && i - start < |Group(fs, checks[a])|
            && Listing(fs, checks)[i] == Group(fs, checks[a])[i - start]
            && (a == b ==> j - start < |Group(fs, checks[a])|
                           && Listing(fs, checks)[j] == Group(fs, checks[a])[j - start])
  {
    a := ListedIn(fs, checks, i);
    b := ListedIn(fs, checks, j);
    if b < a {
      ListingGrows(fs, checks, b + 1, a);
      assert false;
    }
  }

  /** The checks of two findings in the listing, of which only the later fails. */
  lemma EarlierCheck(fs: seq<Finding>, i: nat, j: nat) returns (a: nat, b: nat)
    requires i < j < |PriorityOrder(fs)|
    requires PriorityOrder(fs)[i].status != FAIL && PriorityOrder(fs)[j].status == FAIL
    ensures a < b < |CheckOrder(fs)|
    ensures PriorityOrder(fs)[i].check == CheckOrder(fs)[a] && PriorityOrder(fs)[j].check == CheckOrder(fs)[b]
    ensures PriorityOrder(fs)[j] in fs
  {
    var cs := CheckOrder(fs);
    a, b := LaterInListing(fs, cs, i, j);
    if a == b {
      var start := |Listing(fs, cs[..a])|;
      FailsFirstInCheck(fs, cs[a], i - start, j - start);
      assert false;
    }
  }

  /**
   * A FAIL listed after a finding that does not fail belongs to a later check,
   * and the earlier check fails too: checks without a FAIL come after all others.
   */
  lemma LateFail(fs: seq<Finding>, i: nat, j: nat)
    requires i < j < |PriorityOrder(fs)|
    requires PriorityOrder(fs)[i].status != FAIL && PriorityOrder(fs)[j].status == FAIL
    ensures PriorityOrder(fs)[i].check != PriorityOrder(fs)[j].check && Fails(fs, PriorityOrder(fs)[i].check)
  {
    var a, b := EarlierCheck(fs, i, j);
    var k :| 0 <= k < |fs| && fs[k] == PriorityOrder(fs)[j];
    assert Fails(fs, CheckOrder(fs)[b]);
    EarlierCheckFails(fs, a, b);
  }

  /** The cap cuts a FAIL although it lists a finding that does not fail. */
  predicate CutsFail(fs: seq<Finding>, cap: nat) {
    exists i, j :: 0 <= i < cap <= j < |PriorityOrder(fs)|
                   && PriorityOrder(fs)[i].status != FAIL && PriorityOrder(fs)[j].status == FAIL
  }

  /** How many findings lead the listing before the first that does not fail. */
  function LeadingFails(order: seq<Finding>): nat {
    if order == [] || order[0].status != FAIL then 0 else 1 + LeadingFails(order[1..])
  }

  /** Where the last FAIL ends. */
  function LastFail(order: seq<Finding>): nat {
    if order == [] then 0
    else if order[|order| - 1].status == FAIL then |order|
    else LastFail(order[..|order| - 1])
  }

  lemma {:induction false} LeadingAre(order: seq<Finding>)
    ensures LeadingFails(order) <= |order|
    ensures forall i :: 0 <= i < LeadingFails(order) ==> order[i].status == FAIL
    ensures LeadingFails(order) < |order| ==> order[LeadingFails(order)].status != FAIL
  {
    if order != [] && order[0].status == FAIL {
      LeadingAre(order[1..]);
      assert forall i :: 1 <= i < |order| ==> order[i] == order[1..][i - 1];
    }
  }

  lemma {:induction false} LastIs(order: seq<Finding>)
    ensures LastFail(order) <= |order|
    ensures forall i :: LastFail(order) <= i < |order| ==> order[i].status != FAIL
    ensures LastFail(order) > 0 ==> order[LastFail(order) - 1].status == FAIL
  {
    if order != [] && order[|order| - 1].status != FAIL {
      LastIs(order[..|order| - 1]);
    }
  }

  lemma CutsFailBetween(fs: seq<Finding>, cap: nat)
    ensures CutsFail(fs, cap) <==> LeadingFails(PriorityOrder(fs)) < cap < LastFail(PriorityOrder(fs))
  {
    var order := PriorityOrder(fs);
    LeadingAre(order);
    LastIs(order);
    if LeadingFails(order) < cap < LastFail(order) {
      assert order[LeadingFails(order)].status != FAIL && order[LastFail(order) - 1].status == FAIL;
    }
  }

  // ---- The two marks, counted over the checks of the import --------------------

  /** How many findings a check has, and how many of them fail. */
  function Size(fs: seq<Finding>, check: string): nat { |OfCheck(fs, check)| }

  function FailCount(fs: seq<Finding>, check: string): nat { WithStatus(OfCheck(fs, check), FAIL) }

  /** The FAILs of the checks up to the first that also holds another finding. */
  function LeadMark(fs: seq<Finding>, checks: seq<string>): nat {
    if checks == [] then 0
    else
      var c := checks[0];
      if FailCount(fs, c) < Size(fs, c) then FailCount(fs, c) else Size(fs, c) + LeadMark(fs, checks[1..])
  }

  function SizeOf(fs: seq<Finding>, checks: seq<string>): nat {
    if checks == [] then 0 else SizeOf(fs, checks[..|checks| - 1]) + Size(fs, checks[|checks| - 1])
  }

  /** All findings of the checks before the last one that fails, and that check's FAILs. */
  function LastMark(fs: seq<Finding>, checks: seq<string>): nat {
    if checks == [] then 0
    else
      var init, c := checks[..|checks| - 1], checks[|checks| - 1];
      if FailCount(fs, c) > 0 then SizeOf(fs, init) + FailCount(fs, c) else LastMark(fs, init)
  }

  /** Counting does not look at the order. */
  lemma {:induction false} StatusCounted(fs: seq<Finding>, status: string)
    ensures WithStatus(fs, status) == |Filter(HasStatus(status), fs)|
  {
    if fs != [] {
      var init, last := fs[..|fs| - 1], fs[|fs| - 1];
      StatusCounted(init, status);
      FilterLast(HasStatus(status), init, last);
      assert fs == init + [last];
    }
  }

  function HasStatus(status: string): Finding -> bool {
    (f: Finding) => f.status == status
  }

  lemma {:induction false} FilterLast(p: Finding -> bool, fs: seq<Finding>, last: Finding)
    ensures Filter(p, fs + [last]) == Filter(p, fs) + if p(last) then [last] else []
  {
    var all := fs + [last];
    if fs == [] {
      assert all[1..] == [];
    } else {
      FilterLast(p, fs[1..], last);
      assert all[1..] == fs[1..] + [last];
    }
  }

  lemma {:induction false} InsertCounts(x: Finding, s: seq<Finding>, status: string)
    ensures |Filter(HasStatus(status), Insert(FindingLe, x, s))|
            == |Filter(HasStatus(status), s)| + if x.status == status then 1 else 0
  {
    if s != [] && !FindingLe(x, s[0]) {
      InsertCounts(x, s[1..], status);
    }
  }

  lemma {:induction false} SortCounts(s: seq<Finding>, status: string)
    ensures |Filter(HasStatus(status), Sort(FindingLe, s))| == |Filter(HasStatus(status), s)|
  {
    if s != [] {
      SortCounts(s[1..], status);
      InsertCounts(s[0], Sort(FindingLe, s[1..]), status);
    }
  }

  lemma GroupCounts(fs: seq<Finding>, check: string)
    ensures |Group(fs, check)| == Size(fs, check) && WithStatus(Group(fs, check), FAIL) == FailCount(fs, check)
  {
    GroupIsOfCheck(fs, check);
    StatusCounted(Group(fs, check), FAIL);
    StatusCounted(OfCheck(fs, check), FAIL);
    SortCounts(OfCheck(fs, check), FAIL);
  }

  /** In a list with the FAILs first, how many fail tells where they end. */
  lemma {:induction false} FailsFirst(s: seq<Finding>)
    requires forall i, j :: 0 <= i < j < |s| && s[j].status == FAIL ==> s[i].status == FAIL
    ensures WithStatus(s, FAIL) <= |s|
    ensures forall i :: 0 <= i < |s| ==> (s[i].status == FAIL <==> i < WithStatus(s, FAIL))
  {
    if s != [] {
      FailsFirst(s[..|s| - 1]);
    }
  }

  /** A check's group: its FAILs, then the rest. */
  lemma GroupShape(fs: seq<Finding>, check: string)
    ensures |Group(fs, check)| == Size(fs, check) && FailCount(fs, check) <= Size(fs, check)
    ensures forall i :: 0 <= i < |Group(fs, check)| ==>
              (Group(fs, check)[i].status == FAIL <==> i < FailCount(fs, check))
  {
    GroupCounts(fs, check);
    forall i, j | 0 <= i < j < |Group(fs, check)| && Group(fs, check)[j].status == FAIL
      ensures Group(fs, check)[i].status == FAIL
    {
      FailsFirstInCheck(fs, check, i, j);
    }
    FailsFirst(Group(fs, check));
  }

  lemma ListingSnoc(fs: seq<Finding>, init: seq<string>, c: string)
    ensures Listing(fs, init + [c]) == Listing(fs, init) + Group(fs, c)
  {
    assert (init + [c])[..|init|] == init;
  }

  lemma ConsSnoc(c: string, rest: seq<string>)
    requires rest != []
    ensures var init, last := rest[..|rest| - 1], rest[|rest| - 1];
            rest == init + [last] && [c] + rest == ([c] + init) + [last]
  {
  }

  lemma Regroup(a: seq<Finding>, b: seq<Finding>, c: seq<Finding>)
    ensures (a + b) + c == a + (b + c)
  {
  }

  lemma {:induction false} ListingCons(fs: seq<Finding>, c: string, rest: seq<string>)
    ensures Listing(fs, [c] + rest) == Group(fs, c) + Listing(fs, rest)
  {
    if rest == [] {
      ListingSnoc(fs, [], c);
      assert [c] + rest == [] + [c];
    } else {
      var init, last := rest[..|rest| - 1], rest[|rest| - 1];
      ListingCons(fs, c, init);
      ListingSnoc(fs, init, last);
      ListingSnoc(fs, [c] + init, last);
      ConsSnoc(c, rest);
      Regroup(Group(fs, c), Listing(fs, init), Group(fs, last));
    }
  }

  lemma {:induction false} LeadingOfTwo(a: seq<Finding>, b: seq<Finding>, n: nat)
    requires n <= |a| && forall i :: 0 <= i < |a| ==> (a[i].status == FAIL <==> i < n)
    ensures LeadingFails(a + b) == if n < |a| then n else |a| + LeadingFails(b)
  {
    if a == [] {
      assert a + b == b;
    } else if n > 0 {
      assert (a + b)[1..] == a[1..] + b;
      assert forall i :: 0 <= i < |a| - 1 ==> a[1..][i] == a[i + 1];
      LeadingOfTwo(a[1..], b, n - 1);
    }
  }

  lemma {:induction false} LastOfTwo(a: seq<Finding>, b: seq<Finding>, n: nat)
    requires n <= |b| && forall i :: 0 <= i < |b| ==> (b[i].status == FAIL <==> i < n)
    ensures LastFail(a + b) == if n > 0 then |a| + n else LastFail(a)
  {
    if b == [] {
      assert a + b == a;
    } else if n < |b| {
      var init := b[..|b| - 1];
      assert (a + b)[..|a + b| - 1] == a + init;
      LastOfTwo(a, init, n);
    }
  }

  lemma {:induction false} LeadMarkIs(fs: seq<Finding>, checks: seq<string>)
    ensures LeadingFails(Listing(fs, checks)) == LeadMark(fs, checks)
  {
    if checks != [] {
      LeadMarkIs(fs, checks[1..]);
      ListingCons(fs, checks[0], checks[1..]);
      assert checks == [checks[0]] + checks[1..];
      GroupShape(fs, checks[0]);
      LeadingOfTwo(Group(fs, checks[0]), Listing(fs, checks[1..]), FailCount(fs, checks[0]));
    }
  }

  lemma {:induction false} LastMarkIs(fs: seq<Finding>, checks: seq<string>)
    ensures |Listing(fs, checks)| == SizeOf(fs, checks)
    ensures LastFail(Listing(fs, checks)) == LastMark(fs, checks)
  {
    if checks != [] {
      var init, c := checks[..|checks| - 1], checks[|checks| - 1];
      LastMarkIs(fs, init);
      GroupShape(fs, c);
      LastOfTwo(Listing(fs, init), Group(fs, c), FailCount(fs, c));
    }
  }

  /**
   * The cap cuts a FAIL behind a listed finding that does not fail exactly
   * when it lies above the FAILs that lead the listing (those of the checks up
   * to the first with another finding) and below the end of the last check
   * that fails (all findings of the checks before it, and its own FAILs).
   */
  lemma CutsFailIff(fs: seq<Finding>, cap: nat)
    ensures CutsFail(fs, cap) <==> LeadMark(fs, CheckOrder(fs)) < cap < LastMark(fs, CheckOrder(fs))
  {
    CutsFailBetween(fs, cap);
    LeadMarkIs(fs, CheckOrder(fs));
    LastMarkIs(fs, CheckOrder(fs));
  }

  const FAIL_A := Finding("a", FAIL, 0, "")
  const PASS_A := Finding("a", "PASS", 0, "")
  const FAIL_B := Finding("b", FAIL, 1, "")
  const TWO_CHECKS := [FAIL_A, PASS_A, FAIL_B]

  lemma ChecksOfTwo()
    ensures Checks(TWO_CHECKS) == ["a", "b"]
  {
    assert TWO_CHECKS[..2] == [FAIL_A, PASS_A] && [FAIL_A, PASS_A][..1] == [FAIL_A] && [FAIL_A][..0] == [];
    assert Checks([FAIL_A]) == ["a"];
    assert Checks([FAIL_A, PASS_A]) == ["a"];
  }

  lemma GroupsOfTwo()
    ensures OfCheck(TWO_CHECKS, "a") == [FAIL_A, PASS_A] && OfCheck(TWO_CHECKS, "b") == [FAIL_B]
  {
    var none: seq<Finding> := [];
    assert none + [FAIL_A] == [FAIL_A] && [FAIL_A] + [PASS_A] == [FAIL_A, PASS_A]
           && [FAIL_A, PASS_A] + [FAIL_B] == TWO_CHECKS;
    FilterSplits(none, "a", FAIL_A);
    FilterSplits([FAIL_A], "a", PASS_A);
    FilterSplits([FAIL_A, PASS_A], "a", FAIL_B);
    FilterSplits(none, "b", FAIL_A);
    FilterSplits([FAIL_A], "b", PASS_A);
    FilterSplits([FAIL_A, PASS_A], "b", FAIL_B);
  }

  lemma SortTwo<T>(le: (T, T) -> bool, x: T, y: T)
    requires le(x, y)
    ensures Sort(le, [x, y]) == [x, y] && Sort(le, [x]) == [x]
  {
    assert [x, y][1..] == [y] && [y][1..] == [] && [x][1..] == [];
    assert Sort(le, [y]) == [y];
  }

  lemma OrderOfTwo()
    ensures PriorityOrder(TWO_CHECKS) == TWO_CHECKS
  {
    ChecksOfTwo();
    GroupsOfTwo();
    assert [FAIL_A, PASS_A][1..] == [PASS_A];
    assert Least([PASS_A]) == KeyOf(PASS_A) && Least([FAIL_A, PASS_A]) == KeyOf(FAIL_A);
    SortTwo(CheckOrdering(TWO_CHECKS), "a", "b");
    SortTwo(FindingLe, FAIL_A, PASS_A);
    SortTwo(FindingLe, FAIL_B, FAIL_B);
    assert ["a", "b"][..1] == ["a"] && ["a"][..0] == [];
    assert Listing(TWO_CHECKS, ["a"]) == [FAIL_A, PASS_A];
  }

  /** Two checks that fail, the first with a PASS: a cap of two lists the PASS and cuts the second FAIL. */
  lemma CapCutsFail()
    ensures CutsFail(TWO_CHECKS, 2)
  {
    OrderOfTwo();
    assert PriorityOrder(TWO_CHECKS)[1].status != FAIL && PriorityOrder(TWO_CHECKS)[2].status == FAIL;
  }

  // ---- The capped read ---------------------------------------------------------

  /** One page of the paginated read; `more` says whether the API gave a next token. */
  datatype Page<T> = Page(items: seq<T>, more: bool)

  function AllItems<T>(pages: seq<Page<T>>): seq<T> {
    if pages == [] then [] else AllItems(pages[..|pages| - 1]) + pages[|pages| - 1].items
  }

  /** The page that makes the read stop: the first that no longer fits, or any page once the limit is reached. */
  predicate Stops<T>(pages: seq<Page<T>>, k: nat, max: nat)
    requires k < |pages|
  {
    |AllItems(pages[..k])| >= max || |AllItems(pages[..k])| + |pages[k].items| > max
  }

  lemma {:induction false} ItemsGrow<T>(pages: seq<Page<T>>, k: nat)
    requires k <= |pages|
    ensures AllItems(pages[..k]) <= AllItems(pages)
  {
    if k == |pages| {
      assert pages[..k] == pages;
    } else {
      var init := pages[..|pages| - 1];
      ItemsGrow(init, k);
      assert init[..k] == pages[..k];
    }
  }

  /**
   * `collect_securityhub_findings`: the first `max` findings. "Truncated" is
   * reported exactly when some page stopped the read.
   */
  method Collect<T(==)>(pages: seq<Page<T>>, max: nat) returns (found: seq<T>, truncated: bool)
    ensures found == AllItems(pages)[..Cut(|AllItems(pages)|, max)]
    ensures truncated <==> Stopped(pages, max)
    // Nothing is lost silently.
    ensures !truncated ==> found == AllItems(pages)
  {
    found, truncated := [], false;
    for i := 0 to |pages|
      invariant !truncated && found == AllItems(pages[..i]) && |found| <= max
      invariant forall k :: 0 <= k < i ==> !Stops(pages, k, max)
    {
      assert pages[..i + 1][..i] == pages[..i];
      ItemsGrow(pages, i);
      ItemsGrow(pages, i + 1);
      var items := pages[i].items;
      var remaining := max - |found|;
      if remaining <= 0 {
        assert Stops(pages, i, max);
        return found, true;
      }
      if |items| > remaining {
        assert Stops(pages, i, max);
        truncated := pages[i].more || |items| > remaining;
        found := found + items[..remaining];
        return;
      }
      found := found + items;
    }
    assert pages[..|pages|] == pages;
  }

  /** Some page stopped the read. */
  predicate Stopped<T>(pages: seq<Page<T>>, max: nat) {
    exists k :: 0 <= k < |pages| && Stops(pages, k, max)
  }

  /** The findings fill the limit exactly and the API still sent an empty page. */
  predicate EmptyPageAtLimit<T(==)>(pages: seq<Page<T>>, max: nat) {
    pages != [] && |AllItems(pages)| == max && pages[|pages| - 1].items == []
  }

  /** "Truncated" is reported exactly when findings were left out, or the read ended in an empty page at the limit. */
  lemma TruncatedIff<T>(pages: seq<Page<T>>, max: nat)
    ensures Stopped(pages, max) <==> |AllItems(pages)| > max || EmptyPageAtLimit(pages, max)
  {
    if k :| 0 <= k < |pages| && Stops(pages, k, max) {
      assert pages[..k + 1][..k] == pages[..k];
      ItemsGrow(pages, k);
      ItemsGrow(pages, k + 1);
      if |AllItems(pages)| == max {
        NothingAfter(pages, k);
      }
    }
    if |AllItems(pages)| > max {
      var k := FirstStop(pages, max);
    } else if EmptyPageAtLimit(pages, max) {
      assert Stops(pages, |pages| - 1, max);
    }
  }

  /** When the items up to a page are all there are, the last page is empty. */
  lemma NothingAfter<T>(pages: seq<Page<T>>, k: nat)
    requires k < |pages| && |AllItems(pages[..k])| == |AllItems(pages)|
    ensures pages[|pages| - 1].items == []
  {
    var init := pages[..|pages| - 1];
    ItemsGrow(init, k);
    assert init[..k] == pages[..k];
  }

  /** Truncation is reported although nothing was left out exactly in that case. */
  lemma MisreportedIff<T>(pages: seq<Page<T>>, max: nat)
    ensures Stopped(pages, max) && AllItems(pages)[..Cut(|AllItems(pages)|, max)] == AllItems(pages)
            <==> EmptyPageAtLimit(pages, max)
  {
    TruncatedIff(pages, max);
  }

  lemma {:induction false} FirstStop<T>(pages: seq<Page<T>>, max: nat) returns (k: nat)
    requires |AllItems(pages)| > max
    ensures k < |pages| && Stops(pages, k, max)
  {
    var last := |pages| - 1;
    if |AllItems(pages[..last])| > max {
      k := FirstStop(pages[..last], max);
      assert pages[..last][..k] == pages[..k];
    } else {
      k := last;
    }
  }

  /** Such an input: one finding, a limit of one, and an empty second page. */
  lemma EmptyPageMisreports<T>(x: T)
    ensures EmptyPageAtLimit([Page([x], true), Page([], false)], 1)
  {
    var pages := [Page([x], true), Page([], false)];
    assert pages[..1] == [Page([x], true)] && pages[..1][..0] == [];
    assert AllItems(pages[..1]) == [x];
  }
}

/** Parties, roles and the assessment log of the OSCAL export (src/swarm/oscal_ar.py). */
module OscalPeople {
  import opened Options
  import opened Text
  import opened Records
  import opened Oscal

  // ---- A name in one line ------------------------------------------------------

  /** A name that is one line stays as it is. */
  lemma LineOnce(name: string)
    ensures Line(Line(name)) == Line(name)
  {
    WordsAreWords(name);
    WordsOfLine(Words(name));
  }

  /** However a name is spaced, its line is its words with one space between. */
  lemma LineOfWords(lead: string, words: seq<string>, gaps: seq<string>)
    requires Blank(lead) && AreWords(words) && |words| == |gaps| && Gaps(gaps)
    ensures Line(lead + Spelt(words, gaps)) == Join(words, ' ')
  {
    WordsOfSpelt(lead, words, gaps);
  }

  lemma OneWord(id: string)
    requires IsWord(id)
    ensures Line(id) == id
  {
    assert AreWords([id]) && Join([id], ' ') == id;
    WordsOfLine([id]);
  }

  /** An id that is a token already is its own target. */
  lemma TokenStays(id: string)
    requires id != "" && (Letter(id[0]) || id[0] == '_') && forall i :: 0 <= i < |id| ==> TokenChar(id[i])
    ensures Token(id) == id
  {
    assert IsWord(id);
    OneWord(id);
    assert Masked(id) == id;
  }

  // ---- Parties -----------------------------------------------------------------

  /** The party of a person. */
  function PartyUuid(u: Namer, sid: string, name: string): string {
    Element(u, sid, "party", Line(name))
  }

  function PeopleUuids(u: Namer, sid: string, names: seq<string>): (r: seq<string>)
    ensures |r| == |names| && forall i :: 0 <= i < |names| ==> r[i] == PartyUuid(u, sid, names[i])
  {
    seq(|names|, i requires 0 <= i < |names| => PartyUuid(u, sid, names[i]))
  }

  /** `_Parties`: one party a name, in order of appearance. */
  class Parties {
    const u: Namer
    const sid: string
    var names: seq<string>
    var byName: map<string, string>

    ghost predicate Valid()
      reads this
    {
      && AllDistinct(names) && (forall i :: 0 <= i < |names| ==> Line(names[i]) == names[i])
      && (forall n :: n in byName <==> n in names)
      && forall n :: n in byName ==> byName[n] == PartyUuid(u, sid, n)
    }

    constructor (u: Namer, sid: string)
      ensures Valid() && this.u == u && this.sid == sid && names == []
    {
      this.u, this.sid := u, sid;
      names, byName := [], map[];
    }

    method UuidFor(name: string) returns (party: string)
      requires Valid()
      modifies this
      ensures Valid() && party == PartyUuid(u, sid, name)
      ensures names == if Line(name) in old(names) then old(names) else old(names) + [Line(name)]
    {
      var line := Line(name);
      LineOnce(name);
      if line !in byName {
        byName := byName[line := Element(u, sid, "party", line)];
        names := names + [line];
      }
      party := byName[line];
    }

    method AsOscal() returns (parties: seq<string>)
      requires Valid()
      ensures parties == PeopleUuids(u, sid, names)
    {
      parties := [];
      for i := 0 to |names|
        invariant |parties| == i && forall k :: 0 <= k < i ==> parties[k] == PartyUuid(u, sid, names[k])
      {
        assert names[i] in byName;
        parties := parties + [byName[names[i]]];
      }
    }
  }

  /** Everybody is among the parties. */
  predicate Listed(names: seq<string>, people: seq<string>) {
    forall i :: 0 <= i < |people| ==> Line(people[i]) in names
  }

  lemma ListedIsWithin(u: Namer, sid: string, names: seq<string>, people: seq<string>)
    requires Listed(names, people) && forall i :: 0 <= i < |names| ==> Line(names[i]) == names[i]
    ensures Within(PeopleUuids(u, sid, people), PeopleUuids(u, sid, names))
  {
    forall i | 0 <= i < |people|
      ensures PartyUuid(u, sid, people[i]) in PeopleUuids(u, sid, names)
    {
      var k :| 0 <= k < |names| && names[k] == Line(people[i]);
      assert PeopleUuids(u, sid, names)[k] == PartyUuid(u, sid, people[i]);
    }
  }

  // ---- The log -----------------------------------------------------------------

  function LogEntry(u: Namer, sid: string, human: string, i: nat): LogOut {
    LogOut(Element(u, sid, "log", Decimal(i)), if Line(human) == "" then None else Some(PartyUuid(u, sid, human)))
  }

  function LogFor(u: Namer, sid: string, trail: seq<Entry>): (r: seq<LogOut>)
    ensures |r| == |trail| && forall i :: 0 <= i < |trail| ==> r[i] == LogEntry(u, sid, trail[i].body.human, i)
  {
    seq(|trail|, i requires 0 <= i < |trail| => LogEntry(u, sid, trail[i].body.human, i))
  }

  /** The approvers of any gate, or of the report, in trail order. */
  function ApproversIn(trail: seq<Entry>, reportOnly: bool): seq<string> {
    if trail == [] then []
    else
      var rest := ApproversIn(trail[..|trail| - 1], reportOnly);
      var b := trail[|trail| - 1].body;
      if Line(b.human) != "" && b.event.GateApproval? && (reportOnly ==> b.event.artifact == FinalReport)
      then rest + [Line(b.human)] else rest
  }

  /** The people of the trail who have a name. */
  predicate HumansListed(names: seq<string>, trail: seq<Entry>) {
    forall i :: 0 <= i < |trail| && Line(trail[i].body.human) != "" ==> Line(trail[i].body.human) in names
  }

  /** The party of one entry's human, if the entry has one. */
  method LoggedBy(parties: Parties, human: string) returns (party: Option<string>)
    requires parties.Valid()
    modifies parties
    ensures parties.Valid() && old(parties.names) <= parties.names
    ensures party == if Line(human) == "" then None else Some(PartyUuid(parties.u, parties.sid, human))
    ensures Line(human) != "" ==> Line(human) in parties.names
  {
    LineOnce(human);
    party := None;
    if Line(human) != "" {
      var p := parties.UuidFor(Line(human));
      party := Some(p);
    }
  }

  lemma LogStep(u: Namer, sid: string, trail: seq<Entry>, i: nat)
    requires i < |trail|
    ensures LogFor(u, sid, trail[..i + 1]) == LogFor(u, sid, trail[..i]) + [LogEntry(u, sid, trail[i].body.human, i)]
  {
  }

  lemma HumansStep(names: seq<string>, more: seq<string>, trail: seq<Entry>, i: nat)
    requires i < |trail| && names <= more && HumansListed(names, trail[..i])
    requires Line(trail[i].body.human) != "" ==> Line(trail[i].body.human) in more
    ensures HumansListed(more, trail[..i + 1])
  {
    forall k | 0 <= k < i && Line(trail[k].body.human) != ""
      ensures Line(trail[k].body.human) in more
    {
      assert trail[..i][k] == trail[k];
      var j :| 0 <= j < |names| && names[j] == Line(trail[k].body.human);
      assert more[j] == names[j];
    }
  }

  /** The approver an entry adds, if it is an approval. */
  function ApproverOf(b: Body, reportOnly: bool): seq<string> {
    if Line(b.human) != "" && b.event.GateApproval? && (reportOnly ==> b.event.artifact == FinalReport)
    then [Line(b.human)] else []
  }

  /** The log of `trail`, with its approvers, and everybody in it among the parties. */
  ghost predicate Logged(u: Namer, sid: string, names: seq<string>, trail: seq<Entry>, log: seq<LogOut>,
                         approvers: seq<string>, reportApprovers: seq<string>)
  {
    && HumansListed(names, trail) && log == LogFor(u, sid, trail)
    && approvers == ApproversIn(trail, false) && reportApprovers == ApproversIn(trail, true)
  }

  lemma ApproversStep(trail: seq<Entry>, i: nat, reportOnly: bool)
    requires i < |trail|
    ensures ApproversIn(trail[..i + 1], reportOnly)
            == ApproversIn(trail[..i], reportOnly) + ApproverOf(trail[i].body, reportOnly)
  {
    var part := trail[..i + 1];
    assert part[..|part| - 1] == trail[..i] && part[|part| - 1] == trail[i];
  }

  lemma LoggedMore(u: Namer, sid: string, names: seq<string>, more: seq<string>, trail: seq<Entry>, i: nat,
                   log: seq<LogOut>, approvers: seq<string>, reportApprovers: seq<string>)
    requires i < |trail| && names <= more && Logged(u, sid, names, trail[..i], log, approvers, reportApprovers)
    requires Line(trail[i].body.human) != "" ==> Line(trail[i].body.human) in more
    ensures Logged(u, sid, more, trail[..i + 1], log + [LogEntry(u, sid, trail[i].body.human, i)],
                   approvers + ApproverOf(trail[i].body, false), reportApprovers + ApproverOf(trail[i].body, true))
  {
    HumansStep(names, more, trail, i);
    LogStep(u, sid, trail, i);
    ApproversStep(trail, i, false);
    ApproversStep(trail, i, true);
  }

  /** The trail as assessment log. */
  method BuildLog(parties: Parties, trail: seq<Entry>)
    returns (log: seq<LogOut>, approvers: seq<string>, reportApprovers: seq<string>)
    requires parties.Valid()
    modifies parties
    ensures parties.Valid() && old(parties.names) <= parties.names
    ensures Logged(parties.u, parties.sid, parties.names, trail, log, approvers, reportApprovers)
  {
    log, approvers, reportApprovers := [], [], [];
    for i := 0 to |trail|
      invariant parties.Valid() && old(parties.names) <= parties.names
      invariant Logged(parties.u, parties.sid, parties.names, trail[..i], log, approvers, reportApprovers)
    {
      var b := trail[i].body;
      ghost var before := parties.names;
      var loggedBy := LoggedBy(parties, b.human);
      LoggedMore(parties.u, parties.sid, before, parties.names, trail, i, log, approvers, reportApprovers);
      log := log + [LogOut(Element(parties.u, parties.sid, "log", Decimal(i)), loggedBy)];
      approvers := approvers + ApproverOf(b, false);
      reportApprovers := reportApprovers + ApproverOf(b, true);
    }
    assert trail[..|trail|] == trail;
  }

  // ---- Roles -------------------------------------------------------------------

  /** `dict.fromkeys`: the elements, each once, in order. */
  function Once(s: seq<string>): (r: seq<string>)
    ensures forall x :: x in r <==> x in s
    ensures AllDistinct(r)
  {
    if s == [] then []
    else
      var rest := Once(s[..|s| - 1]);
      assert s == s[..|s| - 1] + [s[|s| - 1]];
      if s[|s| - 1] in rest then rest else rest + [s[|s| - 1]]
  }

  function NotBlank(names: seq<string>): (r: seq<string>)
    ensures forall n :: n in r <==> n in names && n != ""
  {
    if names == [] then []
    else
      assert names == names[..|names| - 1] + [names[|names| - 1]];
      NotBlank(names[..|names| - 1]) + if names[|names| - 1] == "" then [] else [names[|names| - 1]]
  }

  /** Who is in a role: the names given, each once, without blanks. */
  function Members(names: seq<string>): (r: seq<string>)
    ensures forall n :: n in r <==> n in names && n != ""
  {
    Once(NotBlank(names))
  }

  /** A role is declared only with somebody in it. */
  function RoleFor(u: Namer, sid: string, role: string, names: seq<string>): seq<RoleOut> {
    if Members(names) == [] then [] else [RoleOut(role, PeopleUuids(u, sid, Members(names)))]
  }

  lemma MoreListed(names: seq<string>, more: seq<string>, people: seq<string>)
    requires names <= more && Listed(names, people)
    ensures Listed(more, people)
  {
    forall i | 0 <= i < |people|
      ensures Line(people[i]) in more
    {
      var k :| 0 <= k < |names| && names[k] == Line(people[i]);
      assert more[k] == names[k];
    }
  }

  lemma PeopleStep(u: Namer, sid: string, names: seq<string>, people: seq<string>, k: nat)
    requires k < |people| && Listed(names, people[..k]) && Line(people[k]) in names
    ensures Listed(names, people[..k + 1])
    ensures PeopleUuids(u, sid, people[..k + 1]) == PeopleUuids(u, sid, people[..k]) + [PartyUuid(u, sid, people[k])]
  {
    assert people[..k + 1] == people[..k] + [people[k]];
  }

  /** Names the members one by one. */
  method NamePeople(parties: Parties, people: seq<string>) returns (uuids: seq<string>)
    requires parties.Valid()
    modifies parties
    ensures parties.Valid() && old(parties.names) <= parties.names && Listed(parties.names, people)
    ensures uuids == PeopleUuids(parties.u, parties.sid, people)
  {
    uuids := [];
    for k := 0 to |people|
      invariant parties.Valid() && old(parties.names) <= parties.names && Listed(parties.names, people[..k])
      invariant uuids == PeopleUuids(parties.u, parties.sid, people[..k])
    {
      ghost var before := parties.names;
      var p := parties.UuidFor(people[k]);
      MoreListed(before, parties.names, people[..k]);
      PeopleStep(parties.u, parties.sid, parties.names, people, k);
      uuids := uuids + [p];
    }
    assert people[..|people|] == people;
  }

  /** `_role`. */
  method DeclareRole(parties: Parties, role: string, names: seq<string>) returns (declared: seq<RoleOut>)
    requires parties.Valid()
    modifies parties
    ensures parties.Valid() && old(parties.names) <= parties.names && Listed(parties.names, Members(names))
    ensures declared == RoleFor(parties.u, parties.sid, role, names)
  {
    var named := Members(names);
    if named == [] {
      return [];
    }
    var uuids := NamePeople(parties, named);
    declared := [RoleOut(role, uuids)];
  }

  /** Everybody who has a role, by role. */
  datatype Cast = Cast(preparer: string, approvers: seq<string>, reportApprovers: seq<string>, reviewers: seq<string>)

  function RolesFor(u: Namer, sid: string, c: Cast): seq<RoleOut> {
    RoleFor(u, sid, PREPARED_BY, [c.preparer]) + RoleFor(u, sid, GATE_APPROVER, c.approvers)
    + RoleFor(u, sid, CONTENT_APPROVER, c.reportApprovers) + RoleFor(u, sid, REVIEWER, c.reviewers)
  }

  predicate CastListed(names: seq<string>, c: Cast) {
    && Listed(names, Members([c.preparer])) && Listed(names, Members(c.approvers))
    && Listed(names, Members(c.reportApprovers)) && Listed(names, Members(c.reviewers))
  }

  lemma CastGrows(start: seq<string>, first: seq<string>, second: seq<string>, third: seq<string>, last: seq<string>,
                  c: Cast)
    requires start <= first <= second <= third <= last
    requires Listed(first, Members([c.preparer])) && Listed(second, Members(c.approvers))
    requires Listed(third, Members(c.reportApprovers)) && Listed(last, Members(c.reviewers))
    ensures start <= last && CastListed(last, c)
  {
    MoreListed(first, last, Members([c.preparer]));
    MoreListed(second, last, Members(c.approvers));
    MoreListed(third, last, Members(c.reportApprovers));
  }

  method BuildRoles(parties: Parties, c: Cast) returns (roles: seq<RoleOut>)
    requires parties.Valid()
    modifies parties
    ensures parties.Valid() && old(parties.names) <= parties.names && CastListed(parties.names, c)
    ensures roles == RolesFor(parties.u, parties.sid, c)
  {
    ghost var start := parties.names;
    var prepared := DeclareRole(parties, PREPARED_BY, [c.preparer]);
    ghost var first := parties.names;
    var gates := DeclareRole(parties, GATE_APPROVER, c.approvers);
    ghost var second := parties.names;
    var content := DeclareRole(parties, CONTENT_APPROVER, c.reportApprovers);
    ghost var third := parties.names;
    var reviewers := DeclareRole(parties, REVIEWER, c.reviewers);
    CastGrows(start, first, second, third, parties.names, c);
    roles := prepared + gates + content + reviewers;
  }

  /** The named reviewers are in the reviewer role, under their own parties. */
  lemma ReviewerHasRole(u: Namer, sid: string, c: Cast, d: Document, name: string)
    requires d.roles == RolesFor(u, sid, c) && Line(name) in c.reviewers && Line(name) != ""
    ensures RoleHolds(d, REVIEWER, PartyUuid(u, sid, name))
  {
    var members := Members(c.reviewers);
    var k :| 0 <= k < |members| && members[k] == Line(name);
    LineOnce(name);
    assert PeopleUuids(u, sid, members)[k] == PartyUuid(u, sid, name);
    var last := |d.roles| - 1;
    assert d.roles[last] == RoleOut(REVIEWER, PeopleUuids(u, sid, members));
  }

  predicate RolesWithin(roles: seq<RoleOut>, parties: seq<string>) {
    forall i :: 0 <= i < |roles| ==> Within(roles[i].parties, parties)
  }

  lemma RoleWithin(u: Namer, sid: string, role: string, people: seq<string>, names: seq<string>)
    requires Listed(names, Members(people)) && forall i :: 0 <= i < |names| ==> Line(names[i]) == names[i]
    ensures RolesWithin(RoleFor(u, sid, role, people), PeopleUuids(u, sid, names))
  {
    ListedIsWithin(u, sid, names, Members(people));
  }

  lemma BothWithin(a: seq<RoleOut>, b: seq<RoleOut>, parties: seq<string>)
    requires RolesWithin(a, parties) && RolesWithin(b, parties)
    ensures RolesWithin(a + b, parties)
  {
  }

  /** All members of all roles are parties. */
  lemma AllRolesWithin(u: Namer, sid: string, c: Cast, names: seq<string>)
    requires CastListed(names, c) && forall i :: 0 <= i < |names| ==> Line(names[i]) == names[i]
    ensures RolesWithin(RolesFor(u, sid, c), PeopleUuids(u, sid, names))
  {
    var all := PeopleUuids(u, sid, names);
    var p, g := RoleFor(u, sid, PREPARED_BY, [c.preparer]), RoleFor(u, sid, GATE_APPROVER, c.approvers);
    var t, r := RoleFor(u, sid, CONTENT_APPROVER, c.reportApprovers), RoleFor(u, sid, REVIEWER, c.reviewers);
    RoleWithin(u, sid, PREPARED_BY, [c.preparer], names);
    RoleWithin(u, sid, GATE_APPROVER, c.approvers, names);
    RoleWithin(u, sid, CONTENT_APPROVER, c.reportApprovers, names);
    RoleWithin(u, sid, REVIEWER, c.reviewers, names);
    BothWithin(p, g, all);
    BothWithin(p + g, t, all);
    BothWithin(p + g + t, r, all);
  }
}

/** The OSCAL Assessment Results export (src/swarm/oscal_ar.py): its identifiers and references. */
module Oscal {
  import opened Options
  import opened Text
  import opened Records
  import opened Decisions

  // ---- Names -------------------------------------------------------------------

  /** Name-based UUIDs (section 4.3 of RFC 4122): a function of the name. */
  type Namer = string -> string

  ghost predicate NamesApart(u: Namer) {
    forall a, b :: u(a) == u(b) ==> a == b
  }

  /** `element_uuid` for a kind of element and its key. */
  function Element(u: Namer, sid: string, kind: string, key: string): string {
    u(Join([sid, kind, key], '/'))
  }

  /** `element_uuid` for an element there is one of. */
  function Single(u: Namer, sid: string, kind: string): string {
    u(Join([sid, kind], '/'))
  }

  lemma JoinThree(a: string, b: string, c: string)
    ensures Join([a, b, c], '/') == a + ['/'] + (b + ['/'] + c)
  {
    assert [a, b, c][1..] == [b, c] && [b, c][1..] == [c];
    assert Join([b, c], '/') == b + ['/'] + c;
    assert a + ['/'] + Join([b, c], '/') == a + ['/'] + (b + ['/'] + c);
  }

  lemma SplitAtFirst(a: string, x: string, b: string, y: string, sep: char)
    requires sep !in a && sep !in b && a + [sep] + x == b + [sep] + y
    ensures a == b && x == y
  {
    PartsOf(a, x, sep);
    PartsOf(b, y, sep);
  }

  lemma PartsOf(a: string, x: string, sep: char)
    requires sep !in a
    ensures var s := a + [sep] + x;
            s[|a|] == sep && s[..|a|] == a && s[|a| + 1..] == x && forall i :: 0 <= i < |a| ==> s[i] != sep
  {
    var s := a + [sep] + x;
    assert forall i :: 0 <= i < |a| ==> s[i] == a[i];
  }

  /** Within one session different kinds or keys mean different UUIDs. */
  lemma ElementsDiffer(u: Namer, sid: string, kind1: string, key1: string, kind2: string, key2: string)
    requires NamesApart(u) && '/' !in kind1 && '/' !in kind2
    requires Element(u, sid, kind1, key1) == Element(u, sid, kind2, key2)
    ensures kind1 == kind2 && key1 == key2
  {
    JoinThree(sid, kind1, key1);
    JoinThree(sid, kind2, key2);
    var s := Join([sid, kind1, key1], '/');
    assert s[|sid| + 1..] == kind1 + ['/'] + key1;
    assert s[|sid| + 1..] == kind2 + ['/'] + key2;
    SplitAtFirst(kind1, key1, kind2, key2, '/');
  }

  // ---- Occurrence keys ---------------------------------------------------------

  /** How often `id` occurs. */
  function Times(ids: seq<string>, id: string): nat {
    if ids == [] then 0 else Times(ids[..|ids| - 1], id) + if ids[|ids| - 1] == id then 1 else 0
  }

  /** The key of the i-th element: its id and which occurrence of it this is. */
  function KeyAt(ids: seq<string>, i: nat): string
    requires i < |ids|
  {
    ids[i] + ['#'] + Decimal(Times(ids[..i + 1], ids[i]))
  }

  /** `_occurrence_keys`. */
  method OccurrenceKeys(ids: seq<string>) returns (keys: seq<string>)
    ensures |keys| == |ids| && forall i :: 0 <= i < |ids| ==> keys[i] == KeyAt(ids, i)
  {
    keys := [];
    var seen: map<string, nat> := map[];
    for i := 0 to |ids|
      invariant |keys| == i && forall k :: 0 <= k < i ==> keys[k] == KeyAt(ids, k)
      invariant forall id :: (if id in seen then seen[id] else 0) == Times(ids[..i], id)
    {
      assert ids[..i + 1][..i] == ids[..i];
      seen := seen[ids[i] := (if ids[i] in seen then seen[ids[i]] else 0) + 1];
      keys := keys + [ids[i] + ['#'] + Decimal(seen[ids[i]])];
    }
  }

  lemma {:induction false} DecimalPlain(n: nat)
    ensures Decimal(n) != "" && '#' !in Decimal(n)
  {
    if n >= 10 {
      DecimalPlain(n / 10);
    }
  }

  lemma {:induction false} DecimalInjective(m: nat, n: nat)
    requires Decimal(m) == Decimal(n)
    ensures m == n
  {
    var a, b := Decimal(m), Decimal(n);
    assert a[|a| - 1] == ('0' as int + m % 10) as char && b[|b| - 1] == ('0' as int + n % 10) as char;
    if m >= 10 && n >= 10 {
      assert a[..|a| - 1] == Decimal(m / 10) && b[..|b| - 1] == Decimal(n / 10);
      DecimalInjective(m / 10, n / 10);
    } else if m >= 10 {
      DecimalPlain(m / 10);
    } else if n >= 10 {
      DecimalPlain(n / 10);
    }
  }

  lemma {:induction false} TimesGrow(ids: seq<string>, i: nat, j: nat)
    requires i < j <= |ids|
    ensures Times(ids[..i + 1], ids[i]) <= Times(ids[..j], ids[i])
    ensures j < |ids| && ids[j] == ids[i] ==> Times(ids[..i + 1], ids[i]) < Times(ids[..j + 1], ids[i])
    decreases j
  {
    if j > i + 1 {
      TimesGrow(ids, i, j - 1);
      assert ids[..j][..j - 1] == ids[..j - 1];
    }
    if j < |ids| {
      assert ids[..j + 1][..j] == ids[..j];
    }
  }

  lemma LastHash(a: string, m: nat, b: string, n: nat)
    requires a + ['#'] + Decimal(m) == b + ['#'] + Decimal(n)
    ensures a == b && m == n
  {
    DecimalPlain(m);
    DecimalPlain(n);
    var s := a + ['#'] + Decimal(m);
    var x, y := |a|, |b|;
    assert s[x] == '#' && s[y] == '#';
    assert forall i :: x < i < |s| ==> s[i] == Decimal(m)[i - x - 1];
    assert forall i :: y < i < |s| ==> s[i] == Decimal(n)[i - y - 1];
    assert x == y;
    assert a == s[..x] && b == s[..y] && Decimal(m) == s[x + 1..] && Decimal(n) == s[y + 1..];
    DecimalInjective(m, n);
  }

  /** Keys are distinct, also when ids repeat or hold `#`. */
  lemma KeysDistinct(ids: seq<string>, i: nat, j: nat)
    requires i < j < |ids|
    ensures KeyAt(ids, i) != KeyAt(ids, j)
  {
    if KeyAt(ids, i) == KeyAt(ids, j) {
      LastHash(ids[i], Times(ids[..i + 1], ids[i]), ids[j], Times(ids[..j + 1], ids[j]));
      TimesGrow(ids, i, j);
    }
  }

  predicate AllDistinct(s: seq<string>) {
    forall i, j :: 0 <= i < j < |s| ==> s[i] != s[j]
  }

  function UuidsOf(u: Namer, sid: string, kind: string, keys: seq<string>): (r: seq<string>)
    ensures |r| == |keys| && forall i :: 0 <= i < |keys| ==> r[i] == Element(u, sid, kind, keys[i])
  {
    seq(|keys|, i requires 0 <= i < |keys| => Element(u, sid, kind, keys[i]))
  }

  /** `_line`: one line, no edge whitespace. */
  function Line(s: string): string { Join(Words(s), ' ') }

  // ---- Tokens ------------------------------------------------------------------

  predicate Letter(c: char) { 'A' <= c <= 'Z' || 'a' <= c <= 'z' }

  predicate TokenChar(c: char) { Letter(c) || '0' <= c <= '9' || c == '.' || c == '_' || c == '-' }

  function Masked(s: string): (r: string)
    ensures |r| == |s| && forall i :: 0 <= i < |s| ==> r[i] == if TokenChar(s[i]) then s[i] else '_'
  {
    seq(|s|, i requires 0 <= i < |s| => if TokenChar(s[i]) then s[i] else '_')
  }

  /** `token`: an identifier as an OSCAL token. */
  function Token(id: string): (r: string)
    ensures r != "" && (Letter(r[0]) || r[0] == '_') && forall i :: 0 <= i < |r| ==> TokenChar(r[i])
  {
    var text := if Line(id) == "" then "_" else Masked(Line(id));
    if Letter(text[0]) || text[0] == '_' then text else "_" + text
  }

  // ---- The document ------------------------------------------------------------

  const REVIEWER := "reviewer"
  const GATE_APPROVER := "gate-approver"
  const CONTENT_APPROVER := "content-approver"
  const PREPARED_BY := "prepared-by"

  datatype Actor = PlatformActor(platform: string) | PartyActor(party: string, role: string)

  /** A risk: who it originates from, who recommended its remediation, and the observations it rests on. */
  datatype RiskOut = RiskOut(
    uuid: string, closed: bool, origins: seq<Actor>, recommendedBy: seq<Actor>, observations: seq<string>)
  datatype ObservationOut = ObservationOut(uuid: string, actor: Actor, subject: string, evidence: Option<string>)
  datatype FindingOut = FindingOut(uuid: string, target: string, satisfied: bool, observation: string,
                                   risks: seq<string>)
  datatype LogOut = LogOut(uuid: string, loggedBy: Option<string>)
  datatype RoleOut = RoleOut(role: string, parties: seq<string>)

  datatype Document = Document(
    plan: string, resources: seq<string>, components: seq<string>, platforms: seq<string>, objectives: seq<string>,
    risks: seq<RiskOut>, observations: seq<ObservationOut>, findings: seq<FindingOut>, log: seq<LogOut>,
    roles: seq<RoleOut>, attested: Option<RoleOut>, parties: seq<string>)

  /** Effective view of the session, as the builder reads it. */
  datatype View = View(findings: seq<FindingView>, deficiencies: seq<DeficiencyView>, conclusion: Option<Decision>)

  /** The role is declared, and the party is in it. */
  predicate RoleHolds(d: Document, role: string, party: string) {
    exists i :: 0 <= i < |d.roles| && d.roles[i].role == role && party in d.roles[i].parties
  }

  predicate ActorResolves(d: Document, a: Actor) {
    match a
    case PlatformActor(p) => p in d.platforms
    case PartyActor(p, role) => p in d.parties && RoleHolds(d, role, p)
  }

  predicate ActorsResolve(d: Document, actors: seq<Actor>) {
    forall k :: 0 <= k < |actors| ==> ActorResolves(d, actors[k])
  }

  predicate Within(a: seq<string>, b: seq<string>) {
    forall i :: 0 <= i < |a| ==> a[i] in b
  }

  predicate HasObservation(d: Document, uuid: string) {
    exists i :: 0 <= i < |d.observations| && d.observations[i].uuid == uuid
  }

  predicate HasRisk(d: Document, uuid: string) {
    exists i :: 0 <= i < |d.risks| && d.risks[i].uuid == uuid
  }

  predicate RiskResolves(d: Document, r: RiskOut) {
    && ActorsResolve(d, r.origins) && ActorsResolve(d, r.recommendedBy)
    && forall k :: 0 <= k < |r.observations| ==> HasObservation(d, r.observations[k])
  }

  predicate ObservationResolves(d: Document, o: ObservationOut) {
    && ActorResolves(d, o.actor) && o.subject in d.components
    && (o.evidence.Some? ==> o.evidence.value in d.resources)
  }

  predicate FindingResolves(d: Document, f: FindingOut) {
    && HasObservation(d, f.observation)
    && forall k :: 0 <= k < |f.risks| ==> HasRisk(d, f.risks[k])
  }

  /** Every party, role, observation, risk, component, platform and resource reference resolves. */
  predicate Closed(d: Document) {
    && d.plan in d.resources
    && (forall i :: 0 <= i < |d.risks| ==> RiskResolves(d, d.risks[i]))
    && (forall i :: 0 <= i < |d.observations| ==> ObservationResolves(d, d.observations[i]))
    && (forall i :: 0 <= i < |d.findings| ==> FindingResolves(d, d.findings[i]))
    && (forall i :: 0 <= i < |d.log| && d.log[i].loggedBy.Some? ==> d.log[i].loggedBy.value in d.parties)
    && (forall i :: 0 <= i < |d.roles| ==> Within(d.roles[i].parties, d.parties))
    && (d.attested.Some? ==>
          Within(d.attested.value.parties, d.parties)
          && forall k :: 0 <= k < |d.attested.value.parties| ==>
               RoleHolds(d, d.attested.value.role, d.attested.value.parties[k]))
  }

  /** No two observations, findings or risks share a UUID. */
  predicate UuidsApart(d: Document) {
    && (forall i, j :: 0 <= i < j < |d.observations| ==> d.observations[i].uuid != d.observations[j].uuid)
    && (forall i, j :: 0 <= i < j < |d.findings| ==> d.findings[i].uuid != d.findings[j].uuid)
    && (forall i, j :: 0 <= i < j < |d.risks| ==> d.risks[i].uuid != d.risks[j].uuid)
    && (forall i, j :: 0 <= i < |d.observations| && 0 <= j < |d.findings| ==>
          d.observations[i].uuid != d.findings[j].uuid)
    && (forall i, j :: 0 <= i < |d.observations| && 0 <= j < |d.risks| ==> d.observations[i].uuid != d.risks[j].uuid)
    && (forall i, j :: 0 <= i < |d.findings| && 0 <= j < |d.risks| ==> d.findings[i].uuid != d.risks[j].uuid)
  }
}

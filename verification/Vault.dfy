/** The evidence vault (src/swarm/evidence.py): register, verify and migrate. */
module Vault {
  import opened Options
  import opened Text
  import opened Redaction

  // ---- Values ------------------------------------------------------------------

  /** Collection metadata as JSON values; an object has no field order, as its text sorts the keys. */
  datatype Json =
    | JText(text: string)
    | JObject(fields: map<string, Json>)
    | JList(items: seq<Json>)
    | JInt(value: int)
    | JBool(truth: bool)
    | JNull

  /** A stored record; a missing key of the stored JSON is None. */
  datatype Record = Record(
    payload: Option<string>, encrypted: bool, sha: Option<string>, keyed: Option<string>, metadata: Option<Json>)

  /** A file of the vault; one that cannot be read or parsed holds no record. */
  datatype VaultFile = Unreadable | Readable(record: Record)

  type Files = map<string, VaultFile>

  /**
   * The configured key, if any, and the library functions: the digests, the
   * invertible encryption, JSON and `str` text, and the decimal digits.
   */
  datatype Tools = Tools(
    key: Option<string>,
    sha: string -> string, keyedSha: (string, string) -> string,
    encrypt: (string, string) -> string, decrypt: (string, string) -> Option<string>,
    json: Json -> string, show: Json -> string, digit: char -> bool)

  const NUL := '\0'
  const MIN_QUOTE_LENGTH := 15

  /** Decryption inverts encryption, digests do not collide, and JSON text escapes NUL. */
  ghost predicate Sound(v: Tools) {
    && (forall k, t :: v.decrypt(k, v.encrypt(k, t)) == Some(t))
    && (forall a, b :: v.sha(a) == v.sha(b) ==> a == b)
    && (forall k, a, b :: v.keyedSha(k, a) == v.keyedSha(k, b) ==> a == b)
    && (forall a, b :: v.json(a) == v.json(b) ==> a == b)
    && (forall a :: NUL !in v.json(a))
    && (forall s :: v.show(JText(s)) == s)
    && Usable(v.digit)
  }

  predicate Truthy(j: Json) {
    match j
    case JText(s) => s != ""
    case JObject(fs) => fs != map[]
    case JList(xs) => xs != []
    case JInt(n) => n != 0
    case JBool(b) => b
    case JNull => false
  }

  function Get(fs: map<string, Json>, name: string): Option<Json> {
    if name in fs then Some(fs[name]) else None
  }

  /** `_sanitize_metadata`. */
  function Sanitize(digit: char -> bool, j: Json): Json {
    match j
    case JText(s) => JText(Redact(digit, s))
    case JObject(fs) => JObject(map k | k in fs :: Sanitize(digit, fs[k]))
    case JList(xs) => JList(seq(|xs|, i requires 0 <= i < |xs| => Sanitize(digit, xs[i])))
    case JInt(_) => j
    case JBool(_) => j
    case JNull => j
  }

  /** The metadata that counts: an empty one reads as none. */
  function Bound(m: Option<Json>): Option<Json> {
    if m.Some? && Truthy(m.value) then m else None
  }

  /** `_digest_input`. */
  function DigestText(v: Tools, payload: string, metadata: Option<Json>): string {
    match Bound(metadata) case None => payload case Some(m) => payload + [NUL] + v.json(m)
  }

  /** `record_session_id`. */
  function BoundSession(v: Tools, metadata: Option<Json>): Option<string> {
    if metadata.None? || !metadata.value.JObject? then None
    else
      var own := Get(metadata.value.fields, "session_id");
      if own.Some? && Truthy(own.value) then NonEmpty(v.show(own.value))
      else
        var params := Get(metadata.value.fields, "parameters");
        if params.None? || !params.value.JObject? then None
        else
          var sid := Get(params.value.fields, "session_id");
          if sid.Some? && Truthy(sid.value) then NonEmpty(v.show(sid.value)) else None
  }

  function NonEmpty(s: string): Option<string> {
    if s == "" then None else Some(s)
  }

  // ---- Registering -------------------------------------------------------------

  function StoredMetadata(v: Tools, metadata: Option<Json>, session: string): Option<Json> {
    var clean := if metadata.Some? && Truthy(metadata.value) then Some(Sanitize(v.digit, metadata.value)) else None;
    if session == "" then clean
    else
      var fields := if clean.Some? && clean.value.JObject? then clean.value.fields else map[];
      Some(JObject(fields["session_id" := JText(session)]))
  }

  /** The record `register_evidence` writes; an absent session is "". */
  function NewRecord(v: Tools, raw: string, metadata: Option<Json>, session: string): Record {
    var payload := Redact(v.digit, raw);
    var stored := StoredMetadata(v, metadata, session);
    var text := DigestText(v, payload, stored);
    match v.key
    case Some(k) => Record(Some(v.encrypt(k, payload)), true, None, Some(v.keyedSha(k, text)), stored)
    case None => Record(Some(payload), false, Some(v.sha(text)), None, stored)
  }

  // ---- Verifying ---------------------------------------------------------------

  predicate Hex(c: char) { '0' <= c <= '9' || 'a' <= c <= 'f' || 'A' <= c <= 'F' }

  /** `_UUID_RE`. */
  predicate IsUuid(s: string) {
    && |s| == 36
    && forall i :: 0 <= i < 36 ==> if i in {8, 13, 18, 23} then s[i] == '-' else Hex(s[i])
  }

  predicate HasAt(s: string, part: string, i: nat) {
    i + |part| <= |s| && s[i..i + |part|] == part
  }

  predicate Contains(s: string, part: string) {
    exists i: nat :: i <= |s| && HasAt(s, part, i)
  }

  /** The record's payload in the clear, when it can be read. */
  function PayloadText(v: Tools, r: Record): Option<string> {
    if r.payload.None? then None
    else if !r.encrypted then r.payload
    else if v.key.None? then None
    else v.decrypt(v.key.value, r.payload.value)
  }

  /** The stored digest matches this payload and the stored metadata. */
  predicate DigestMatches(v: Tools, r: Record, payload: string) {
    var text := DigestText(v, payload, r.metadata);
    if r.keyed.Some? then v.key.Some? && v.keyedSha(v.key.value, text) == r.keyed.value
    else r.sha.Some? && v.sha(text) == r.sha.value
  }

  predicate SessionAccepts(v: Tools, r: Record, session: string) {
    var bound := BoundSession(v, r.metadata);
    session == "" || bound.None? || bound.value == session || bound.value == Redact(v.digit, session)
  }

  predicate QuoteLongEnough(quote: string) {
    !Blank(quote) && |quote| >= MIN_QUOTE_LENGTH
  }

  /** The record vouches for the quote. */
  predicate Vouches(v: Tools, r: Record, quote: string, session: string) {
    var payload := PayloadText(v, r);
    && payload.Some? && DigestMatches(v, r, payload.value)
    && SessionAccepts(v, r, session) && Contains(payload.value, quote)
  }

  /** `verify_exact_quote`, over the vault's files. */
  predicate Verifies(v: Tools, files: Files, id: string, quote: string, session: string) {
    IsUuid(id) && QuoteLongEnough(quote) && id in files && files[id].Readable?
    && Vouches(v, files[id].record, quote, session)
  }

  // ---- Migrating ---------------------------------------------------------------

  datatype Outcome = Migrated | AlreadyKeyed | Unencrypted | Failed

  /** One record of `migrate_legacy_digests`: only a payload that matches its plain digest is re-sealed. */
  function MigrateRecord(v: Tools, key: string, r: Record): (Record, Outcome) {
    if !r.encrypted then (r, Unencrypted)
    else if r.keyed.Some? then (r, AlreadyKeyed)
    else
      var payload := if r.payload.Some? then v.decrypt(key, r.payload.value) else None;
      if payload.None? || r.sha.None? then (r, Failed)
      else
        var text := DigestText(v, payload.value, r.metadata);
        if v.sha(text) != r.sha.value then (r, Failed)
        else (r.(sha := None, keyed := Some(v.keyedSha(key, text))), Migrated)
  }

  /** One file; one that cannot be read or parsed counts as failed. */
  function MigrateFile(v: Tools, key: string, file: VaultFile): (VaultFile, Outcome) {
    match file
    case Unreadable => (file, Failed)
    case Readable(r) =>
      var (record, outcome) := MigrateRecord(v, key, r);
      (Readable(record), outcome)
  }

  function MigrateAll(v: Tools, key: string, files: Files): Files {
    map id | id in files :: if IsUuid(id) then MigrateFile(v, key, files[id]).0 else files[id]
  }

  /** The vault after the files of `names` were handled. */
  function MigrateSome(v: Tools, key: string, files: Files, names: seq<string>): Files {
    map id | id in files :: if id in names && IsUuid(id) then MigrateFile(v, key, files[id]).0 else files[id]
  }

  predicate Distinct(names: seq<string>) {
    forall i, j :: 0 <= i < j < |names| ==> names[i] != names[j]
  }

  lemma SomeIsAll(v: Tools, key: string, files: Files, names: seq<string>)
    requires forall id :: id in files ==> id in names
    ensures MigrateSome(v, key, files, names) == MigrateAll(v, key, files)
    ensures MigrateSome(v, key, files, []) == files
  {
  }

  /** The counts `migrate_legacy_digests` returns. */
  datatype Tally = Tally(migrated: nat, alreadyKeyed: nat, unencrypted: nat, failed: nat)

  function Count(t: Tally, o: Outcome): Tally {
    match o
    case Migrated => t.(migrated := t.migrated + 1)
    case AlreadyKeyed => t.(alreadyKeyed := t.alreadyKeyed + 1)
    case Unencrypted => t.(unencrypted := t.unencrypted + 1)
    case Failed => t.(failed := t.failed + 1)
  }

  function Total(t: Tally): nat { t.migrated + t.alreadyKeyed + t.unencrypted + t.failed }

  /** One file: its record is migrated, unless the name is no vault id. */
  function MigrateStep(v: Tools, key: string, files: Files, tally: Tally, name: string): (Files, Tally)
    requires name in files
  {
    if IsUuid(name) then
      var (file, outcome) := MigrateFile(v, key, files[name]);
      (files[name := file], Count(tally, outcome))
    else (files, tally)
  }

  function MigrateFold(v: Tools, key: string, files: Files, names: seq<string>): (r: (Files, Tally))
    requires forall k :: 0 <= k < |names| ==> names[k] in files
    ensures r.0.Keys == files.Keys
  {
    if names == [] then (files, Tally(0, 0, 0, 0))
    else
      var (rest, tally) := MigrateFold(v, key, files, names[..|names| - 1]);
      MigrateStep(v, key, rest, tally, names[|names| - 1])
  }

  lemma CountsOne(t: Tally, o: Outcome)
    ensures Total(Count(t, o)) == Total(t) + 1
  {
  }

  /** Handling the files one by one handles each record once, and counts each vault record once. */
  lemma {:induction false} FoldIsSome(v: Tools, key: string, files: Files, names: seq<string>)
    requires Distinct(names) && forall k :: 0 <= k < |names| ==> names[k] in files
    ensures MigrateFold(v, key, files, names).0 == MigrateSome(v, key, files, names)
    ensures Total(MigrateFold(v, key, files, names).1) == |UuidNames(names)|
  {
    if names != [] {
      var init, name := names[..|names| - 1], names[|names| - 1];
      FoldIsSome(v, key, files, init);
      var (rest, tally) := MigrateFold(v, key, files, init);
      assert names == init + [name];
      assert name !in init;
      CountsOne(tally, MigrateFile(v, key, rest[name]).1);
    }
  }

  /** What migration does with each name; None where the name is no vault id. */
  function OutcomesOf(v: Tools, key: string, files: Files, names: seq<string>): (r: seq<Option<Outcome>>)
    requires forall k :: 0 <= k < |names| ==> names[k] in files
    ensures |r| == |names|
  {
    seq(|names|, k requires 0 <= k < |names| =>
      if IsUuid(names[k]) then Some(MigrateFile(v, key, files[names[k]]).1) else None)
  }

  function Places(os: seq<Option<Outcome>>, o: Outcome): set<nat> {
    set k | 0 <= k < |os| && os[k] == Some(o)
  }

  lemma PlacesGrow(os: seq<Option<Outcome>>, last: Option<Outcome>, o: Outcome)
    ensures |Places(os + [last], o)| == |Places(os, o)| + if last == Some(o) then 1 else 0
  {
    if last == Some(o) {
      assert Places(os + [last], o) == Places(os, o) + {|os|};
    } else {
      assert Places(os + [last], o) == Places(os, o);
    }
  }

  /** Each count is the number of files with that outcome. */
  predicate Tallied(os: seq<Option<Outcome>>, t: Tally) {
    && t.migrated == |Places(os, Migrated)| && t.alreadyKeyed == |Places(os, AlreadyKeyed)|
    && t.unencrypted == |Places(os, Unencrypted)| && t.failed == |Places(os, Failed)|
  }

  lemma TalliedMore(os: seq<Option<Outcome>>, last: Option<Outcome>, t: Tally)
    requires Tallied(os, t)
    ensures Tallied(os + [last], if last.None? then t else Count(t, last.value))
  {
    PlacesGrow(os, last, Migrated);
    PlacesGrow(os, last, AlreadyKeyed);
    PlacesGrow(os, last, Unencrypted);
    PlacesGrow(os, last, Failed);
  }

  lemma LastOutcome(v: Tools, key: string, files: Files, names: seq<string>)
    requires names != [] && forall k :: 0 <= k < |names| ==> names[k] in files
    ensures var n := |names| - 1;
            OutcomesOf(v, key, files, names)
            == OutcomesOf(v, key, files, names[..n])
               + [if IsUuid(names[n]) then Some(MigrateFile(v, key, files[names[n]]).1) else None]
  {
  }

  lemma {:induction false} FoldIsTallied(v: Tools, key: string, files: Files, names: seq<string>)
    requires Distinct(names) && forall k :: 0 <= k < |names| ==> names[k] in files
    ensures Tallied(OutcomesOf(v, key, files, names), MigrateFold(v, key, files, names).1)
  {
    if names != [] {
      var init, name := names[..|names| - 1], names[|names| - 1];
      FoldIsTallied(v, key, files, init);
      FoldIsSome(v, key, files, init);
      LastOutcome(v, key, files, names);
      UntouchedYet(v, key, files, names);
      TalliedMore(OutcomesOf(v, key, files, init),
                  if IsUuid(name) then Some(MigrateFile(v, key, files[name]).1) else None,
                  MigrateFold(v, key, files, init).1);
    } else {
      assert OutcomesOf(v, key, files, []) == [];
    }
  }

  /** The file of the last name is as it was when its turn comes. */
  lemma UntouchedYet(v: Tools, key: string, files: Files, names: seq<string>)
    requires names != [] && Distinct(names) && forall k :: 0 <= k < |names| ==> names[k] in files
    ensures MigrateSome(v, key, files, names[..|names| - 1])[names[|names| - 1]] == files[names[|names| - 1]]
  {
    assert names[|names| - 1] !in names[..|names| - 1];
  }

  class EvidenceVault {
    var files: Files

    constructor ()
      ensures files == map[]
    {
      files := map[];
    }

    /** `register_evidence`; `id` is the new vault id. */
    method Register(v: Tools, raw: string, metadata: Option<Json>, session: string, id: string)
      modifies this
      ensures files == old(files)[id := Readable(NewRecord(v, raw, metadata, session))]
    {
      var payload := Redact(v.digit, raw);
      var stored: Option<Json> := None;
      if metadata.Some? && Truthy(metadata.value) {
        stored := Some(Sanitize(v.digit, metadata.value));
      }
      if session != "" {
        var fields := if stored.Some? && stored.value.JObject? then stored.value.fields else map[];
        stored := Some(JObject(fields["session_id" := JText(session)]));
      }
      var text := DigestText(v, payload, stored);
      var record: Record;
      if v.key.Some? {
        record := Record(Some(v.encrypt(v.key.value, payload)), true, None, Some(v.keyedSha(v.key.value, text)),
                         stored);
      } else {
        record := Record(Some(payload), false, Some(v.sha(text)), None, stored);
      }
      files := files[id := Readable(record)];
    }

    /** `verify_exact_quote`: any failed check, or a record that cannot be read, is a no. */
    method VerifyExactQuote(v: Tools, id: string, quote: string, session: string) returns (ok: bool)
      ensures ok == Verifies(v, files, id, quote, session)
    {
      if !IsUuid(id) || Blank(quote) || |quote| < MIN_QUOTE_LENGTH || id !in files || files[id].Unreadable? {
        return false;
      }
      var r := files[id].record;
      var payload := PayloadText(v, r);
      if payload.None? || !DigestMatches(v, r, payload.value) {
        return false;
      }
      if session != "" {
        var bound := BoundSession(v, r.metadata);
        if bound.Some? && bound.value != session && bound.value != Redact(v.digit, session) {
          return false;
        }
      }
      ok := Contains(payload.value, quote);
    }

    /** The loop body of `migrate_legacy_digests`. */
    method MigrateOne(v: Tools, key: string, name: string, tally: Tally) returns (counted: Tally)
      requires name in files
      modifies this
      ensures (files, counted) == MigrateStep(v, key, old(files), tally, name)
    {
      counted := tally;
      if IsUuid(name) {
        var (file, outcome) := MigrateFile(v, key, files[name]);
        files := files[name := file];
        counted := Count(tally, outcome);
      }
    }

    /** `migrate_legacy_digests` over the vault's directory listing; None when no key is set. */
    method Migrate(v: Tools, names: seq<string>) returns (counts: Option<Tally>)
      requires Distinct(names) && forall id :: id in names <==> id in files
      modifies this
      ensures counts.None? <==> v.key.None?
      ensures files == if v.key.Some? then MigrateAll(v, v.key.value, old(files)) else old(files)
      ensures counts.Some? ==> Total(counts.value) == |UuidNames(names)|
      ensures counts.Some? ==> Tallied(OutcomesOf(v, v.key.value, old(files), names), counts.value)
    {
      assert forall k :: 0 <= k < |names| ==> names[k] in names;
      if v.key.None? {
        return None;
      }
      ghost var before := files;
      var tally := MigrateFiles(v, v.key.value, names);
      FoldIsSome(v, v.key.value, before, names);
      FoldIsTallied(v, v.key.value, before, names);
      SomeIsAll(v, v.key.value, before, names);
      counts := Some(tally);
    }

    method MigrateFiles(v: Tools, key: string, names: seq<string>) returns (tally: Tally)
      requires forall k :: 0 <= k < |names| ==> names[k] in files
      modifies this
      ensures (files, tally) == MigrateFold(v, key, old(files), names)
    {
      tally := Tally(0, 0, 0, 0);
      for i := 0 to |names|
        invariant (files, tally) == MigrateFold(v, key, old(files), names[..i])
      {
        assert names[..i + 1][..i] == names[..i];
        tally := MigrateOne(v, key, names[i], tally);
      }
      assert names[..|names|] == names;
    }
  }

  function UuidNames(names: seq<string>): seq<string> {
    if names == [] then []
    else
      var rest := UuidNames(names[..|names| - 1]);
      if IsUuid(names[|names| - 1]) then rest + [names[|names| - 1]] else rest
  }

  // ---- Properties --------------------------------------------------------------

  lemma NewRecordReads(v: Tools, raw: string, metadata: Option<Json>, session: string)
    requires Sound(v)
    ensures var r := NewRecord(v, raw, metadata, session);
            PayloadText(v, r) == Some(Redact(v.digit, raw)) && DigestMatches(v, r, Redact(v.digit, raw))
  {
  }

  lemma NewRecordBound(v: Tools, raw: string, metadata: Option<Json>, session: string)
    requires Sound(v) && session != ""
    ensures BoundSession(v, NewRecord(v, raw, metadata, session).metadata) == Some(session)
  {
  }

  /**
   * Round trip: a quote verifies exactly when it is long enough, not blank and
   * part of the redacted payload, and the session asked for, if any, is the
   * registering one, possibly after redaction of its id.
   */
  lemma RoundTrip(v: Tools, files: Files, raw: string, metadata: Option<Json>, session: string, id: string,
                  quote: string, other: string)
    requires Sound(v) && IsUuid(id) && session != ""
    ensures var after := files[id := Readable(NewRecord(v, raw, metadata, session))];
            Verifies(v, after, id, quote, other)
            <==> && |quote| >= 15 && !Blank(quote) && Contains(Redact(v.digit, raw), quote)
                 && (other == "" || other == session || Redact(v.digit, other) == session)
  {
    NewRecordReads(v, raw, metadata, session);
    NewRecordBound(v, raw, metadata, session);
  }

  /** A record registered for no session vouches in every session. */
  lemma UnboundRoundTrip(v: Tools, files: Files, raw: string, id: string, quote: string, other: string)
    requires Sound(v) && IsUuid(id)
    ensures var after := files[id := Readable(NewRecord(v, raw, None, ""))];
            Verifies(v, after, id, quote, other)
            <==> |quote| >= 15 && !Blank(quote) && Contains(Redact(v.digit, raw), quote)
  {
    NewRecordReads(v, raw, None, "");
  }

  /** Redacting leaves something of every text. */
  lemma RedactedStays(digit: char -> bool, t: string)
    requires t != ""
    ensures Redact(digit, t) != ""
  {
    assert |MARK| > 0;
  }

  /** The metadata names a session the way imported records do: under its parameters only. */
  predicate ImportedFor(metadata: Json, session: string) {
    && metadata.JObject? && "session_id" !in metadata.fields && "parameters" in metadata.fields
    && metadata.fields["parameters"].JObject? && "session_id" in metadata.fields["parameters"].fields
    && metadata.fields["parameters"].fields["session_id"] == JText(session)
  }

  lemma ImportedBound(v: Tools, raw: string, metadata: Json, session: string)
    requires Sound(v) && ImportedFor(metadata, session) && session != ""
    ensures BoundSession(v, NewRecord(v, raw, Some(metadata), "").metadata) == Some(Redact(v.digit, session))
  {
    RedactedStays(v.digit, session);
    var clean := Sanitize(v.digit, metadata);
    var params := clean.fields["parameters"];
    assert params == Sanitize(v.digit, metadata.fields["parameters"]);
    assert params.fields["session_id"] == Sanitize(v.digit, JText(session));
    assert NewRecord(v, raw, Some(metadata), "").metadata == Some(clean);
  }

  /** An imported record vouches only in the session its parameters name, which registering has redacted. */
  lemma ImportedRoundTrip(v: Tools, files: Files, raw: string, metadata: Json, session: string, id: string,
                          quote: string, other: string)
    requires Sound(v) && IsUuid(id) && ImportedFor(metadata, session) && session != ""
    ensures var after := files[id := Readable(NewRecord(v, raw, Some(metadata), ""))];
            Verifies(v, after, id, quote, other)
            <==> && |quote| >= 15 && !Blank(quote) && Contains(Redact(v.digit, raw), quote)
                 && (other == "" || other == Redact(v.digit, session)
                     || Redact(v.digit, other) == Redact(v.digit, session))
  {
    NewRecordReads(v, raw, Some(metadata), "");
    ImportedBound(v, raw, metadata, session);
  }

  /** With a key set nothing is stored in the clear, and the digest needs the key; without one it is a plain digest. */
  lemma StoredUnderKey(v: Tools, raw: string, metadata: Option<Json>, session: string)
    ensures var r := NewRecord(v, raw, metadata, session);
            var payload := Redact(v.digit, raw);
            match v.key
            case Some(k) => r.encrypted && r.payload == Some(v.encrypt(k, payload)) && r.keyed.Some? && r.sha.None?
            case None => !r.encrypted && r.payload == Some(payload) && r.keyed.None? && r.sha.Some?
  {
  }

  /** Every text in the value is free of account ids. */
  predicate TextsClean(digit: char -> bool, j: Json) {
    match j
    case JText(s) => HasNoId(digit, s)
    case JObject(fs) => forall k :: k in fs ==> TextsClean(digit, fs[k])
    case JList(xs) => forall i :: 0 <= i < |xs| ==> TextsClean(digit, xs[i])
    case _ => true
  }

  /** Sanitized metadata holds no account id in any text, and clean metadata is stored as it is. */
  lemma {:induction false} SanitizedIsClean(digit: char -> bool, j: Json)
    requires Usable(digit)
    ensures TextsClean(digit, Sanitize(digit, j))
    ensures TextsClean(digit, j) ==> Sanitize(digit, j) == j
  {
    match j
    case JText(s) => RedactionIsExact(digit, s);
    case JObject(fs) =>
      forall k | k in fs
        ensures TextsClean(digit, Sanitize(digit, fs[k]))
        ensures TextsClean(digit, fs[k]) ==> Sanitize(digit, fs[k]) == fs[k]
      {
        SanitizedIsClean(digit, fs[k]);
      }
    case JList(xs) =>
      forall i | 0 <= i < |xs|
        ensures TextsClean(digit, Sanitize(digit, xs[i]))
        ensures TextsClean(digit, xs[i]) ==> Sanitize(digit, xs[i]) == xs[i]
      {
        SanitizedIsClean(digit, xs[i]);
      }
    case _ =>
  }

  /** A stored record names no account id: neither in its payload nor in its metadata, the session id apart. */
  lemma StoredIsClean(v: Tools, raw: string, metadata: Option<Json>, session: string)
    requires Sound(v)
    ensures var r := NewRecord(v, raw, metadata, session);
            && PayloadText(v, r).Some? && HasNoId(v.digit, PayloadText(v, r).value)
            && (r.metadata.Some? && HasNoId(v.digit, session) ==> TextsClean(v.digit, r.metadata.value))
  {
    NewRecordReads(v, raw, metadata, session);
    RedactionIsExact(v.digit, raw);
    if metadata.Some? {
      SanitizedIsClean(v.digit, metadata.value);
    }
  }

  // ---- What the digest covers --------------------------------------------------

  lemma LastNul(a: string, x: string)
    requires NUL !in x
    ensures var s := a + [NUL] + x;
            && s[|a|] == NUL && s[..|a|] == a && s[|a| + 1..] == x
            && forall i :: |a| < i < |s| ==> s[i] != NUL
  {
    var s := a + [NUL] + x;
    assert forall i :: |a| < i < |s| ==> s[i] == x[i - |a| - 1];
  }

  lemma JoinedApart(a: string, x: string, b: string, y: string)
    requires NUL !in x && NUL !in y && a + [NUL] + x == b + [NUL] + y
    ensures a == b && x == y
  {
    LastNul(a, x);
    LastNul(b, y);
  }

  /** The payload `p` without metadata spells out the payload `q` with its metadata. */
  predicate Imitates(v: Tools, p: string, m: Option<Json>, q: string, n: Option<Json>) {
    Bound(m).None? && Bound(n).Some? && p == q + [NUL] + v.json(Bound(n).value)
  }

  /** Two records have the same digest text exactly when they agree, or one payload imitates the other record. */
  lemma SameDigestText(v: Tools, p: string, m: Option<Json>, q: string, n: Option<Json>)
    requires Sound(v)
    ensures DigestText(v, p, m) == DigestText(v, q, n)
            <==> (p == q && Bound(m) == Bound(n)) || Imitates(v, p, m, q, n) || Imitates(v, q, n, p, m)
  {
    if Bound(m).Some? && Bound(n).Some? && DigestText(v, p, m) == DigestText(v, q, n) {
      JoinedApart(p, v.json(Bound(m).value), q, v.json(Bound(n).value));
    }
  }

  /** The record still reads as it did: same payload, same metadata. */
  predicate ReadsSame(v: Tools, r: Record, changed: Record) {
    PayloadText(v, r) == PayloadText(v, changed) && Bound(r.metadata) == Bound(changed.metadata)
  }

  /** One of the records spells out the other in its payload. */
  predicate OneImitates(v: Tools, r: Record, changed: Record)
    requires PayloadText(v, r).Some? && PayloadText(v, changed).Some?
  {
    var p, q := PayloadText(v, r).value, PayloadText(v, changed).value;
    Imitates(v, p, r.metadata, q, changed.metadata) || Imitates(v, q, changed.metadata, p, r.metadata)
  }

  /**
   * Under an unchanged digest a changed record still matches exactly when it
   * reads the same, or one payload imitates the other record; otherwise it
   * verifies no quote at all.
   */
  lemma ChangeIsCaught(v: Tools, r: Record, changed: Record, quote: string, session: string)
    requires Sound(v) && changed.sha == r.sha && changed.keyed == r.keyed
    requires PayloadText(v, r).Some? && DigestMatches(v, r, PayloadText(v, r).value)
    requires PayloadText(v, changed).Some?
    ensures DigestMatches(v, changed, PayloadText(v, changed).value)
            <==> ReadsSame(v, r, changed) || OneImitates(v, r, changed)
    ensures !ReadsSame(v, r, changed) && !OneImitates(v, r, changed) ==> !Vouches(v, changed, quote, session)
  {
    SameDigestText(v, PayloadText(v, r).value, r.metadata, PayloadText(v, changed).value, changed.metadata);
  }

  /** Between payloads without NUL, or two records that both carry metadata, there is no imitation. */
  lemma NoImitation(v: Tools, p: string, m: Option<Json>, q: string, n: Option<Json>)
    requires (NUL !in p && NUL !in q) || Bound(m).Some? == Bound(n).Some?
    ensures !Imitates(v, p, m, q, n) && !Imitates(v, q, n, p, m)
  {
  }

  /** A payload with a NUL does pass for another record: the separator is not escaped. */
  lemma NulIsAmbiguous(v: Tools, payload: string, m: Json)
    requires Truthy(m)
    ensures Imitates(v, payload + [NUL] + v.json(m), None, payload, Some(m))
    ensures DigestText(v, payload + [NUL] + v.json(m), None) == DigestText(v, payload, Some(m))
  {
  }

  /** Migrating a record changes none of its verdicts. */
  lemma MigrationKeepsVerdict(v: Tools, r: Record, quote: string, session: string)
    requires v.key.Some?
    ensures Vouches(v, MigrateRecord(v, v.key.value, r).0, quote, session) <==> Vouches(v, r, quote, session)
  {
  }

  /** Migration changes no verdict of the vault. */
  lemma MigrationIsInvisible(v: Tools, files: Files, id: string, quote: string, session: string)
    requires v.key.Some?
    ensures Verifies(v, MigrateAll(v, v.key.value, files), id, quote, session)
            <==> Verifies(v, files, id, quote, session)
  {
    if id in files && files[id].Readable? {
      MigrationKeepsVerdict(v, files[id].record, quote, session);
    }
  }

  /**
   * After migration an encrypted record has a keyed digest, or it is the
   * record it was and matches its plain digest no more than before: corrupt
   * evidence is never sealed again.
   */
  lemma NeverResealed(v: Tools, r: Record)
    requires v.key.Some?
    ensures var (m, outcome) := MigrateRecord(v, v.key.value, r);
            && (outcome == Migrated <==>
                  r.encrypted && r.keyed.None? && PayloadText(v, r).Some? &&
                  DigestMatches(v, r, PayloadText(v, r).value))
            && (outcome == AlreadyKeyed <==> r.encrypted && r.keyed.Some?)
            && (outcome == Unencrypted <==> !r.encrypted)
            && (outcome != Migrated ==> m == r)
            && (outcome == Migrated ==>
                  m.keyed.Some? && m.sha.None? && m.payload == r.payload && m.metadata == r.metadata)
            && MigrateRecord(v, v.key.value, m).0 == m
  {
  }
}

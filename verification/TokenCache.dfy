/** The recorded provider counts: the file format and its validation. */
module TokenCache {
  import opened FileLimits
  import opened Values
  import opened FileCheck

  const SCHEMA_VERSION: int := 1

  /** Absent, not decodable, or a decoded value. */
  datatype Stored = Absent | Garbled | Holding(payload: Json)

  datatype Loaded = Rejected | Entries(entries: map<string, Entry>)

  predicate IsHex(c: char) {
    '0' <= c <= '9' || 'a' <= c <= 'f'
  }

  predicate IsDigest(s: string) {
    |s| == 64 && forall c <- s :: IsHex(c)
  }

  predicate ValidEntry(e: Entry) {
    IsDigest(e.sha256) && e.via != "" && e.family in PROVIDER_FAMILIES && e.tokens.Int? && e.tokens.n >= 0
  }

  function DecodeEntry(j: Json): Option<Entry> {
    if !j.Obj? then None
    else
      var sha, via, family, tokens :=
        Field(j.fields, "sha256"), Field(j.fields, "method"), Field(j.fields, "family"), Field(j.fields, "tokens");
      if !sha.Str? || !via.Str? || !family.Str? then None
      else
        var e := Entry(sha.s, via.s, family.s, tokens);
        if ValidEntry(e) then Some(e) else None
  }

  /** 1, 1.0 and True all compare equal to the schema version. */
  predicate IsVersion(j: Json) {
    j == Int(SCHEMA_VERSION) || j == Float(1.0) || j == Bool(true)
  }

  function Load(file: Stored): Loaded {
    match file
    case Absent => Entries(map[])
    case Garbled => Rejected
    case Holding(payload) =>
      if !payload.Obj? || !IsVersion(Field(payload.fields, "schema_version")) then Rejected
      else
        var raw := Field(payload.fields, "entries");
        if raw.Obj? then DecodeAll(raw.fields) else Rejected
  }

  /** One malformed entry rejects them all. */
  function DecodeAll(raw: map<string, Json>): Loaded {
    if exists key <- raw :: DecodeEntry(raw[key]).None? then Rejected
    else Entries(map key <- raw :: DecodeEntry(raw[key]).value)
  }

  function EncodeEntry(e: Entry): Json {
    Obj(map["sha256" := Str(e.sha256), "method" := Str(e.via), "family" := Str(e.family), "tokens" := e.tokens])
  }

  function Payload(entries: map<string, Entry>): Json {
    Obj(map["_comment" := Str("Authoritative provider counts keyed by exact file bytes; refresh with check-file-limits.py."),
            "schema_version" := Int(SCHEMA_VERSION),
            "entries" := Obj(EncodeAll(entries))])
  }

  function EncodeAll(entries: map<string, Entry>): map<string, Json> {
    map key <- entries :: EncodeEntry(entries[key])
  }

  lemma EntryRoundTrip(e: Entry)
    ensures DecodeEntry(EncodeEntry(e)) == if ValidEntry(e) then Some(e) else None
  {}

  lemma AllRoundTrip(entries: map<string, Entry>)
    ensures DecodeAll(EncodeAll(entries)) ==
            if forall key <- entries :: ValidEntry(entries[key]) then Entries(entries) else Rejected
  {
    var raw := EncodeAll(entries);
    forall key <- entries ensures DecodeEntry(raw[key]) == if ValidEntry(entries[key]) then Some(entries[key]) else None {
      EntryRoundTrip(entries[key]);
    }
    if forall key <- entries :: ValidEntry(entries[key]) {
      assert (map key <- raw :: DecodeEntry(raw[key]).value) == entries;
    } else {
      var key :| key in entries && !ValidEntry(entries[key]);
      assert key in raw && DecodeEntry(raw[key]).None?;
    }
  }

  lemma PayloadFields(entries: map<string, Entry>)
    ensures Load(Holding(Payload(entries))) == DecodeAll(EncodeAll(entries))
  {
    var fields := Payload(entries).fields;
    assert Field(fields, "schema_version") == Int(SCHEMA_VERSION);
    assert Field(fields, "entries") == Obj(EncodeAll(entries));
  }

  /** What is written is read back if every entry is valid, and rejected otherwise. */
  lemma CacheRoundTrip(entries: map<string, Entry>)
    ensures Load(Holding(Payload(entries))) ==
            if forall key <- entries :: ValidEntry(entries[key]) then Entries(entries) else Rejected
  {
    PayloadFields(entries);
    AllRoundTrip(entries);
  }

  lemma LoadedAreValid(file: Stored)
    requires Load(file).Entries?
    ensures forall key <- Load(file).entries :: ValidEntry(Load(file).entries[key])
  {}
}

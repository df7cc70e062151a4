/** The strict write path of `forge config set`: a nested update, validation by construction, then the write. */
module ConfigWrites {
  import opened Values
  import opened ConfigLayers
  import opened RuntimeConfig
  import opened ConfigTheorems

  type Mapping = map<string, Json>

  /** The mapping under a key; what is missing or no mapping gives way to a new one. */
  function ChildOf(data: Mapping, part: string): Mapping {
    var child := Field(data, part);
    if child.Obj? then child.fields else map[]
  }

  /** Sets a key below a section path. */
  function UpdateAt(data: Mapping, path: seq<string>, key: string, value: Json): Mapping
    decreases |path|
  {
    if path == [] then data[key := value]
    else data[path[0] := Obj(UpdateAt(ChildOf(data, path[0]), path[1..], key, value))]
  }

  /** _mapping_at_path, one key further: null where the path leaves the mappings. */
  function ReadAt(data: Mapping, path: seq<string>): Json
    requires path != []
    decreases |path|
  {
    var child := Field(data, path[0]);
    if |path| == 1 then child
    else if child.Obj? then ReadAt(child.fields, path[1..])
    else Null
  }

  lemma {:induction false} WrittenIsRead(data: Mapping, path: seq<string>, key: string, value: Json)
    ensures ReadAt(UpdateAt(data, path, key, value), path + [key]) == value
    decreases |path|
  {
    if path != [] {
      WrittenIsRead(ChildOf(data, path[0]), path[1..], key, value);
      assert (path + [key])[1..] == path[1..] + [key];
    }
  }

  lemma {:induction false} NothingBelow(path: seq<string>)
    requires path != []
    ensures ReadAt(map[], path) == Null
  {}

  /** Neither path leads to the other. */
  predicate AreApart(a: seq<string>, b: seq<string>) {
    !(a <= b) && !(b <= a)
  }

  /** A write leaves every path alone that neither leads to the key nor lies below it. */
  lemma {:induction false} OthersAreUntouched(data: Mapping, path: seq<string>, key: string, value: Json, other: seq<string>)
    requires other != [] && AreApart(other, path + [key])
    ensures ReadAt(UpdateAt(data, path, key, value), other) == ReadAt(data, other)
    decreases |path|
  {
    var target := path + [key];
    if other[0] == target[0] {
      assert target == [target[0]] + target[1..] && other == [other[0]] + other[1..];
      assert |other| > 1 && |target| > 1;
      assert target[1..] == path[1..] + [key];
      OthersAreUntouched(ChildOf(data, path[0]), path[1..], key, value, other[1..]);
      if !Field(data, path[0]).Obj? {
        NothingBelow(other[1..]);
      }
    }
  }

  /** The descent of _set_nested_key: each mapping on the path, new where a child is none, then the key, then back up. */
  method UpdateNested(data: Mapping, path: seq<string>, key: string, value: Json) returns (updated: Mapping)
    ensures ReadAt(updated, path + [key]) == value
    ensures forall other | other != [] && AreApart(other, path + [key]) :: ReadAt(updated, other) == ReadAt(data, other)
    ensures updated == UpdateAt(data, path, key, value)
  {
    var levels := [data];
    for i := 0 to |path|
      invariant |levels| == i + 1 && levels[0] == data
      invariant forall j :: 0 <= j < i ==> levels[j + 1] == ChildOf(levels[j], path[j])
    {
      var child := Field(levels[i], path[i]);
      levels := levels + [if child.Obj? then child.fields else map[]];
    }
    updated := levels[|path|][key := value];
    for i := |path| downto 0
      invariant updated == UpdateAt(levels[i], path[i..], key, value)
    {
      assert path[i..][1..] == path[i + 1..];
      updated := levels[i][path[i] := Obj(updated)];
    }
    assert path[0..] == path;
    WrittenIsRead(data, path, key, value);
    forall other | other != [] && AreApart(other, path + [key]) ensures ReadAt(updated, other) == ReadAt(data, other) {
      OthersAreUntouched(data, path, key, value, other);
    }
  }

  /** The configuration file. */
  class ConfigFile {
    var stored: Mapping

    /**
     * set_cmd and _set_nested_key, from the stored mapping on: a mapping that the constructor accepts is written,
     * in which the key has its value and every path apart from it is as before; otherwise nothing is.
     */
    method SetKey(k: Fields, path: seq<string>, key: string, value: Json) returns (ok: bool)
      modifies this
      ensures ok <==> Strict(k, UpdateAt(old(stored), path, key, value)).Some?
      ensures !ok ==> stored == old(stored)
      ensures ok ==> Strict(k, stored).Some? && stored == UpdateAt(old(stored), path, key, value)
      ensures ok ==> ReadAt(stored, path + [key]) == value
      ensures ok ==> forall other | other != [] && AreApart(other, path + [key]) ::
        ReadAt(stored, other) == ReadAt(old(stored), other)
    {
      var data := UpdateNested(stored, path, key, value);
      var config := Strict(k, data);
      if config.None? { return false; }
      stored := data;
      ok := true;
    }
  }

  /** Every accepted write is loaded whole, and every scalar as written but for the loader's softening. */
  lemma AcceptedWritesLoad(lex: Lexicon, stored: Mapping, path: seq<string>, key: string, value: Json)
    requires Strict(FieldsOf(lex), UpdateAt(stored, path, key, value)).Some?
    ensures var k, data := FieldsOf(lex), UpdateAt(stored, path, key, value);
      && !FallsBack(k, data) && (forall s <- SECTIONS :: !Fails(k, data, s))
      && Loaded(k, data).sections == Strict(k, data).value.sections
      && Loaded(k, data).scalars == map n <- k.scalars :: Reread(k, n, Strict(k, data).value.scalars[n])
  {
    FieldsAreSound(lex);
    WhatIsAcceptedLoads(FieldsOf(lex), UpdateAt(stored, path, key, value));
  }

  /** How the command line reads a value: int() and float() where the field is declared so. */
  datatype Parser = Parser(lower: string -> string, int_: string -> Option<int>, float_: string -> Option<real>)

  /** _coerce_value for the scalar fields; None where the command refuses the text. */
  function CoerceValue(p: Parser, name: string, text: string): Option<Json> {
    if name == "status_timeout" then
      match p.float_(text) case Some(r) => Some(Float(r)) case None => None
    else if name in NUMBERS then
      match p.int_(text) case Some(n) => Some(Int(n)) case None => None
    else if name in FLAGS then
      if p.lower(text) in YES then Some(Bool(true))
      else if p.lower(text) in NO - {""} then Some(Bool(false))
      else None
    else Some(Str(text))
  }

  lemma CoercedIsPlain(p: Parser, name: string, text: string)
    requires name in SCALARS && CoerceValue(p, name, text).Some?
    ensures var v := CoerceValue(p, name, text).value; !(name in TEXTS && v.Bool?) && !(name in FLAGS && v.Str?)
  {}

  /** What `config set` accepts for a scalar is exactly what the next load returns for it. */
  lemma SetThenLoad(lex: Lexicon, p: Parser, stored: Mapping, name: string, text: string)
    requires name in SCALARS && CoerceValue(p, name, text).Some?
    requires Strict(FieldsOf(lex), stored[name := CoerceValue(p, name, text).value]).Some?
    ensures var v := CoerceValue(p, name, text).value; var c := Loaded(FieldsOf(lex), stored[name := v]);
      name in c.scalars && c.scalars[name] == v
  {
    var k, v := FieldsOf(lex), CoerceValue(p, name, text).value;
    FieldsAreSound(lex);
    WhatIsAcceptedLoads(k, stored[name := v]);
    CoercedIsPlain(p, name, text);
    RereadDiffersIff(lex, name, v);
    StrictKeeps(k, stored[name := v], name);
  }

  lemma StrictKeeps(k: Fields, data: Mapping, name: string)
    requires Strict(k, data).Some? && name in k.scalars && name in data
    ensures Strict(k, data).value.scalars[name] == data[name]
  {
    assert Lookup(Plain(k, data), name) == Given(data[name]);
  }
}

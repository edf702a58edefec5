/** The translation table loaded from a language file and the dotted-key
    lookup `t` that every console message goes through. */
module Translations {
  import opened Base
  import opened Strings

  /** A JSON value as the lookup sees it: a string, an object, or anything
      else (number, list, boolean, null), named by its Python type. */
  datatype Json = Str(s: string) | Obj(fields: map<string, Json>) | Other(typeName: string)

  /** `value.get(part, {})` for one part. Only an object has `get`; any other
      value raises AttributeError. */
  function Step(value: Json, part: string): Outcome<Json> {
    match value
    case Obj(fields) => Ok(if part in fields then fields[part] else Obj(map[]))
    case Str(_) => Raised("'str' object has no attribute 'get'")
    case Other(t) => Raised("'" + t + "' object has no attribute 'get'")
  }

  /** The value reached by stepping through every part in turn. */
  function Walk(value: Json, parts: seq<string>): Outcome<Json>
    decreases |parts|
  {
    if parts == [] then Ok(value)
    else
      match Step(value, parts[0])
      case Raised(m) => Raised(m)
      case Ok(next) => Walk(next, parts[1..])
  }

  /** What `t(key)` returns (without format arguments): the string found at
      the full dotted path, the key itself when the path ends anywhere else,
      or the AttributeError of a step through a non-object. */
  function Translate(translations: Json, key: string): Outcome<string> {
    match Walk(translations, Split(key, '.'))
    case Raised(m) => Raised(m)
    case Ok(Str(s)) => Ok(s)
    case Ok(_) => Ok(key)
  }

  /** Walking into the empty object never raises and never leaves it. */
  lemma {:induction false} WalkEmpty(parts: seq<string>)
    ensures Walk(Obj(map[]), parts) == Ok(Obj(map[]))
    decreases |parts|
  {
    if parts != [] {
      WalkEmpty(parts[1..]);
    }
  }

  /** Once a part is missing from an object the lookup falls back to the key,
      whatever the rest of the path is. */
  lemma MissingPartGivesKey(fields: map<string, Json>, parts: seq<string>)
    requires |parts| >= 1 && parts[0] !in fields
    ensures Walk(Obj(fields), parts) == Ok(Obj(map[]))
  {
    WalkEmpty(parts[1..]);
  }

  /** With nothing loaded every key translates to itself. */
  lemma EmptyTable(key: string)
    ensures Translate(Obj(map[]), key) == Ok(key)
  {
    WalkEmpty(Split(key, '.'));
  }

  /** A key whose first part the table lacks translates to itself. */
  lemma UnknownSection(fields: map<string, Json>, key: string)
    requires Split(key, '.')[0] !in fields
    ensures Translate(Obj(fields), key) == Ok(key)
  {
    MissingPartGivesKey(fields, Split(key, '.'));
  }

  /** A string stored at a path of dot-free parts is what the joined key
      translates to. */
  lemma FoundAtPath(translations: Json, path: seq<string>, s: string)
    requires |path| >= 1 && forall k :: 0 <= k < |path| ==> '.' !in path[k]
    requires Walk(translations, path) == Ok(Str(s))
    ensures Translate(translations, Join(path, '.')) == Ok(s)
  {
    SplitJoin(path, '.');
  }

  /** A two-part key such as "errors.connect" looked up in an object table
      raises exactly when the table has its section and that section is not
      an object; so the lookups of the host succeed on every table whose
      sections are objects. */
  lemma SectionLookup(fields: map<string, Json>, key: string)
    requires |Split(key, '.')| == 2
    ensures var section := Split(key, '.')[0];
            Translate(Obj(fields), key).Raised? <==> section in fields && !fields[section].Obj?
  {
    var parts := Split(key, '.');
    var section := parts[0];
    var next := if section in fields then fields[section] else Obj(map[]);
    assert Walk(Obj(fields), parts) == Walk(next, parts[1..]);
    assert parts[1..][1..] == [];
    match Step(next, parts[1])
    case Raised(m) =>
      assert Walk(next, parts[1..]) == Raised(m);
    case Ok(value) =>
      assert Walk(next, parts[1..]) == Ok(value);
  }
}

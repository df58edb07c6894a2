/** The structural lint of the canonical contract schemas. */
module ContractLint {
  import opened Common
  import opened ContractTree

  const CANONICAL_SCHEMA: string := "https://json-schema.org/draft/2020-12/schema"
  const ID_PREFIX: string := "urn:research-os:contracts:v1:"

  const REQUIRED_NAMES: set<string> := {
    "correlation-context", "execution-budget", "secret-reference", "worker-request", "worker-result", "reauthorization-request"}

  const SECRET_VALUE_KEYS: set<string> := {
    "token", "password", "api_key", "apiKey", "raw_secret", "credential", "secret_value", "secretValue"}

  function RequiredIds(): set<string> {
    set n | n in REQUIRED_NAMES :: ID_PREFIX + n
  }

  datatype Error =
    | InvalidJson | NotAnObject | BadSchema | BadId | BadType | BadAdditional | NoTitle | SecretField
    | DuplicateId(id: string) | MissingIds | UnexpectedIds
    | EmptyRef | NetworkRef | ExternalRef | FilesystemRef | ForeignRef | UnknownRef

  /** The value of "$ref" where a node has one. */
  function RefOf(node: Json): Option<Json> {
    if node.Obj? then Get(node.fields, "$ref") else None
  }

  function RefsAmong(nodes: seq<Json>): seq<Json> {
    if nodes == [] then []
    else
      var r := RefOf(nodes[|nodes| - 1]);
      RefsAmong(nodes[..|nodes| - 1]) + if r.Some? then [r.value] else []
  }

  method CollectRefs(node: Json) returns (refs: seq<Json>)
    ensures refs == RefsAmong(Walk(node))
  {
    refs := [];
    var nodes := Walk(node);
    for i := 0 to |nodes|
      invariant refs == RefsAmong(nodes[..i])
    {
      assert nodes[..i + 1][..i] == nodes[..i];
      var item := nodes[i];
      if item.Obj? {
        var r := Get(item.fields, "$ref");
        if r.Some? {
          refs := refs + [r.value];
        }
      }
    }
    assert nodes[..|nodes|] == nodes;
  }

  // ------------------------------------------------------------- references

  predicate StartsWith(s: string, prefix: string) {
    prefix <= s
  }

  predicate PartAt(s: string, part: string, i: nat) {
    i + |part| <= |s| && s[i..i + |part|] == part
  }

  predicate Contains(s: string, part: string) {
    exists i :: 0 <= i <= |s| && PartAt(s, part, i)
  }

  /** The text before the first '#'. */
  function BeforeHash(s: string): string {
    if s == [] || s[0] == '#' then [] else [s[0]] + BeforeHash(s[1..])
  }

  function CheckRef(ref: Json, known: set<string>): Option<Error> {
    if !ref.Str? || ref.s == "" then Some(EmptyRef)
    else if StartsWith(ref.s, "#") then None
    else
      var id := BeforeHash(ref.s);
      if StartsWith(id, "http://") || StartsWith(id, "https://") then Some(NetworkRef)
      else if StartsWith(id, "file:") || Contains(id, "://") then Some(ExternalRef)
      else if '/' in id || StartsWith(id, ".") then Some(FilesystemRef)
      else if !StartsWith(id, ID_PREFIX) then Some(ForeignRef)
      else if id !in known then Some(UnknownRef)
      else None
  }

  function RefErrors(refs: seq<Json>, known: set<string>): seq<Error> {
    if refs == [] then []
    else
      var e := CheckRef(refs[|refs| - 1], known);
      RefErrors(refs[..|refs| - 1], known) + if e.Some? then [e.value] else []
  }

  // ------------------------------------------------------------------ files

  /** A schema file: its parsed content, or None when it is not JSON. */
  type Source = Option<Json>

  function Add(errors: seq<Error>, broken: bool, e: Error): seq<Error> {
    if broken then errors + [e] else errors
  }

  function FieldsOf(file: Source): Option<seq<Field>> {
    if file.Some? && file.value.Obj? then Some(file.value.fields) else None
  }

  function FileErrors(file: Source): seq<Error> {
    if file.None? then [InvalidJson]
    else if !file.value.Obj? then [NotAnObject]
    else
      var fields := file.value.fields;
      var (id, title) := (Get(fields, "$id"), Get(fields, "title"));
      var schema := Add([], Get(fields, "$schema") != Some(Str(CANONICAL_SCHEMA)), BadSchema);
      var named := Add(schema, id.None? || !id.value.Str? || !StartsWith(id.value.s, ID_PREFIX), BadId);
      var typed := Add(named, Get(fields, "type") != Some(Str("object")), BadType);
      var closed := Add(typed, Get(fields, "additionalProperties") != Some(Bool(false)), BadAdditional);
      var titled := Add(closed, title.None? || !title.value.Str? || title.value.s == "", NoTitle);
      Add(titled, PropertyNames(file.value) * SECRET_VALUE_KEYS != {}, SecretField)
  }

  /** The id a file contributes; an unreadable or empty one contributes none. */
  function IdOf(file: Source): Option<string> {
    var fields := FieldsOf(file);
    if fields.None? then None
    else
      var id := Get(fields.value, "$id");
      if id.Some? && id.value.Str? then Some(id.value.s) else None
  }

  function KnownIds(files: seq<Source>): set<string> {
    set i | 0 <= i < |files| && IdOf(files[i]).Some? :: IdOf(files[i]).value
  }

  predicate Repeats(files: seq<Source>, file: Source) {
    IdOf(file).Some? && IdOf(file).value in KnownIds(files)
  }

  /** What reading the files finds, given what is wrong with each file by itself. */
  function ReadErrors(check: Source -> seq<Error>, files: seq<Source>): seq<Error> {
    if files == [] then []
    else
      var (front, file) := (files[..|files| - 1], files[|files| - 1]);
      ReadErrors(check, front) + check(file)
      + (if Repeats(front, file) then [DuplicateId(IdOf(file).value)] else [])
  }

  function FileRefs(file: Source): seq<Json> {
    if FieldsOf(file).Some? then RefsAmong(Walk(file.value)) else []
  }

  function ReferenceErrors(files: seq<Source>, known: set<string>): seq<Error> {
    if files == [] then []
    else ReferenceErrors(files[..|files| - 1], known) + RefErrors(FileRefs(files[|files| - 1]), known)
  }

  function AllErrors(files: seq<Source>): seq<Error> {
    var known := KnownIds(files);
    Add(Add(ReadErrors(FileErrors, files), RequiredIds() - known != {}, MissingIds), known - RequiredIds() != {}, UnexpectedIds)
    + ReferenceErrors(files, known)
  }

  /** The top-level rules other than the one on secret names. */
  predicate Shaped(file: Source) {
    && FieldsOf(file).Some?
    && var fields := file.value.fields;
       var (id, title) := (Get(fields, "$id"), Get(fields, "title"));
       && Get(fields, "$schema") == Some(Str(CANONICAL_SCHEMA))
       && id.Some? && id.value.Str? && StartsWith(id.value.s, ID_PREFIX)
       && Get(fields, "type") == Some(Str("object"))
       && Get(fields, "additionalProperties") == Some(Bool(false))
       && title.Some? && title.value.Str? && title.value.s != ""
  }

  ghost predicate SecretVisible(node: Json) {
    exists n :: n in SECRET_VALUE_KEYS && Visible(node, n)
  }

  ghost predicate GoodFile(file: Source) {
    Shaped(file) && !SecretVisible(file.value)
  }

  lemma SecretVisibleIff(node: Json)
    ensures PropertyNames(node) * SECRET_VALUE_KEYS != {} <==> SecretVisible(node)
  {
    if n :| n in PropertyNames(node) * SECRET_VALUE_KEYS { NamesAreVisible(node, n); }
    if n :| n in SECRET_VALUE_KEYS && Visible(node, n) {
      NamesAreVisible(node, n);
      assert n in PropertyNames(node) * SECRET_VALUE_KEYS;
    }
  }

  /** A file is clean exactly when it has the shape and shows no secret name. */
  lemma CleanFileIff(file: Source)
    ensures FileErrors(file) == [] <==> GoodFile(file)
  {
    if FieldsOf(file).Some? { SecretVisibleIff(file.value); }
  }

  method CheckFile(file: Source) returns (errors: seq<Error>)
    ensures errors == FileErrors(file)
    ensures errors == [] <==> GoodFile(file)
  {
    CleanFileIff(file);
    if file.None? {
      return [InvalidJson];
    }
    if !file.value.Obj? {
      return [NotAnObject];
    }
    var fields := file.value.fields;
    errors := [];
    if Get(fields, "$schema") != Some(Str(CANONICAL_SCHEMA)) {
      errors := errors + [BadSchema];
    }
    var id := Get(fields, "$id");
    if id.None? || !id.value.Str? || !StartsWith(id.value.s, ID_PREFIX) {
      errors := errors + [BadId];
    }
    if Get(fields, "type") != Some(Str("object")) {
      errors := errors + [BadType];
    }
    if Get(fields, "additionalProperties") != Some(Bool(false)) {
      errors := errors + [BadAdditional];
    }
    var title := Get(fields, "title");
    if title.None? || !title.value.Str? || title.value.s == "" {
      errors := errors + [NoTitle];
    }
    var names := AddPropertyNames(file.value, {});
    if names * SECRET_VALUE_KEYS != {} {
      errors := errors + [SecretField];
    }
  }

  /** Adds the names declared below a node to a set that is filled on the way. */
  method AddPropertyNames(node: Json, acc: set<string>) returns (names: set<string>)
    ensures names == acc + PropertyNames(node)
    ensures forall n :: n in names <==> n in acc || Visible(node, n)
    decreases node
  {
    forall n ensures n in PropertyNames(node) <==> Visible(node, n) { NamesAreVisible(node, n); }
    match node
    case Obj(fields) =>
      names := AddDeclared(fields, acc);
      names := AddFromFields(fields, names, true);
    case Arr(items) => names := AddFromItems(items, acc);
    case _ => names := acc;
  }

  method AddFromItems(items: seq<Json>, acc: set<string>) returns (names: set<string>)
    ensures names == acc + NamesInItems(items)
    decreases items
  {
    names := acc;
    for i := 0 to |items|
      invariant names == acc + NamesInItems(items[..i])
    {
      assert items[..i + 1][..i] == items[..i];
      names := AddPropertyNames(items[i], names);
    }
    assert items[..|items|] == items;
  }

  method AddFromFields(fields: seq<Field>, acc: set<string>, skip: bool) returns (names: set<string>)
    ensures names == acc + NamesInFields(fields, skip)
    decreases fields, 0
  {
    names := acc;
    for i := 0 to |fields|
      invariant names == acc + NamesInFields(fields[..i], skip)
    {
      assert fields[..i + 1][..i] == fields[..i];
      assert fields[i].value < fields[i];
      if !skip || fields[i].key != "properties" {
        names := AddPropertyNames(fields[i].value, names);
      }
    }
    assert fields[..|fields|] == fields;
  }

  method AddDeclared(fields: seq<Field>, acc: set<string>) returns (names: set<string>)
    ensures names == acc + DeclaredNames(fields)
    decreases fields, 1
  {
    names := acc;
    if fields != [] {
      if fields[0].key == "properties" {
        assert fields[0].value < fields[0];
        if fields[0].value.Obj? {
          names := names + Keys(fields[0].value.fields);
          names := AddFromFields(fields[0].value.fields, names, false);
        }
      } else {
        names := AddDeclared(fields[1..], acc);
      }
    }
  }

  /** The command: reads every file, then checks ids, then references. Exit code 0 is clean. */
  method Lint(files: seq<Source>) returns (exit: nat, errors: seq<Error>)
    ensures files == [] ==> exit == 1
    ensures files != [] ==> errors == AllErrors(files) && exit == if errors == [] then 0 else 1
  {
    if files == [] {
      return 1, [];
    }
    var ids: set<string>;
    var parsed: seq<Source>;
    errors, ids, parsed := ReadFiles(files);
    if RequiredIds() - ids != {} {
      errors := errors + [MissingIds];
    }
    if ids - RequiredIds() != {} {
      errors := errors + [UnexpectedIds];
    }
    var found := CheckReferences(parsed, ids);
    SameReferences(files, ids);
    errors := errors + found;
    exit := if errors == [] then 0 else 1;
  }

  /** The files that were read as objects. */
  function Parsed(files: seq<Source>): seq<Source> {
    if files == [] then []
    else Parsed(files[..|files| - 1]) + if FieldsOf(files[|files| - 1]).Some? then [files[|files| - 1]] else []
  }

  lemma ReferenceErrorsAppend(files: seq<Source>, file: Source, known: set<string>)
    ensures ReferenceErrors(files + [file], known) == ReferenceErrors(files, known) + RefErrors(FileRefs(file), known)
  {
    assert (files + [file])[..|files|] == files;
  }

  lemma NoObjectNoErrors(file: Source, known: set<string>)
    requires FieldsOf(file).None?
    ensures RefErrors(FileRefs(file), known) == []
  {
  }

  lemma {:induction false} SameReferences(files: seq<Source>, known: set<string>)
    ensures ReferenceErrors(Parsed(files), known) == ReferenceErrors(files, known)
  {
    if files != [] {
      var (front, last) := (files[..|files| - 1], files[|files| - 1]);
      SameReferences(front, known);
      assert files == front + [last];
      ReferenceErrorsAppend(front, last, known);
      ReferenceErrorsAppend(Parsed(front), last, known);
      if FieldsOf(last).None? {
        NoObjectNoErrors(last, known);
        assert Parsed(files) == Parsed(front);
      }
    }
  }

  lemma {:induction false} ParsedAreObjects(files: seq<Source>)
    ensures forall i :: 0 <= i < |Parsed(files)| ==> FieldsOf(Parsed(files)[i]).Some?
  {
    if files != [] { ParsedAreObjects(files[..|files| - 1]); }
  }

  method ReadFiles(files: seq<Source>) returns (errors: seq<Error>, ids: set<string>, parsed: seq<Source>)
    ensures errors == ReadErrors(FileErrors, files) && ids == KnownIds(files) && parsed == Parsed(files)
    ensures forall i :: 0 <= i < |parsed| ==> FieldsOf(parsed[i]).Some?
  {
    errors, ids, parsed := [], {}, [];
    for i := 0 to |files|
      invariant errors == ReadErrors(FileErrors, files[..i]) && ids == KnownIds(files[..i]) && parsed == Parsed(files[..i])
    {
      assert files[..i + 1][..i] == files[..i];
      KnownIdsGrow(files, i);
      var fileErrors := CheckFile(files[i]);
      errors := errors + fileErrors;
      var id := IdOf(files[i]);
      if id.Some? {
        if id.value in ids {
          errors := errors + [DuplicateId(id.value)];
        } else {
          ids := ids + {id.value};
        }
      }
      if FieldsOf(files[i]).Some? {
        parsed := parsed + [files[i]];
      }
    }
    assert files[..|files|] == files;
    ParsedAreObjects(files);
  }

  lemma KnownIdsGrow(files: seq<Source>, i: nat)
    requires i < |files|
    ensures KnownIds(files[..i + 1]) == KnownIds(files[..i]) + if IdOf(files[i]).Some? then {IdOf(files[i]).value} else {}
  {
    assert files[..i + 1] == files[..i] + [files[i]];
    var (now, front) := (files[..i + 1], files[..i]);
    forall j | 0 <= j < i && IdOf(front[j]).Some? ensures IdOf(front[j]).value in KnownIds(now) { assert now[j] == front[j]; }
    forall j | 0 <= j < i && IdOf(now[j]).Some? ensures IdOf(now[j]).value in KnownIds(front) { assert now[j] == front[j]; }
    assert now[i] == files[i];
  }

  method CheckReferences(parsed: seq<Source>, known: set<string>) returns (errors: seq<Error>)
    requires forall i :: 0 <= i < |parsed| ==> FieldsOf(parsed[i]).Some?
    ensures errors == ReferenceErrors(parsed, known)
  {
    errors := [];
    for i := 0 to |parsed|
      invariant errors == ReferenceErrors(parsed[..i], known)
    {
      assert parsed[..i + 1][..i] == parsed[..i];
      var refs := CollectRefs(parsed[i].value);
      var found := CheckRefs(refs, known);
      errors := errors + found;
    }
    assert parsed[..|parsed|] == parsed;
  }

  method CheckRefs(refs: seq<Json>, known: set<string>) returns (errors: seq<Error>)
    ensures errors == RefErrors(refs, known)
  {
    errors := [];
    for i := 0 to |refs|
      invariant errors == RefErrors(refs[..i], known)
    {
      assert refs[..i + 1][..i] == refs[..i];
      var e := CheckRef(refs[i], known);
      if e.Some? {
        errors := errors + [e.value];
      }
    }
    assert refs[..|refs|] == refs;
  }
}

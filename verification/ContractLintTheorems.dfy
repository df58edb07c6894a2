/** The lint is exact: exit code 0 says what it should, and nothing else makes it fail. */
module ContractLintTheorems {
  import opened Common
  import opened ContractTree
  import opened ContractLint

  // ---------------------------------------------------- the walk is complete

  /** The node reached by child indices. */
  function At(node: Json, route: seq<nat>): Option<Json> {
    if route == [] then Some(node)
    else match node
      case Obj(fields) => if route[0] < |fields| then At(fields[route[0]].value, route[1..]) else None
      case Arr(items) => if route[0] < |items| then At(items[route[0]], route[1..]) else None
      case _ => None
  }

  ghost predicate Reaches(node: Json, x: Json) {
    exists route :: At(node, route) == Some(x)
  }

  lemma ChildReaches(node: Json, child: Json, i: nat, x: Json)
    requires Reaches(child, x) && forall rest: seq<nat> :: At(node, [i] + rest) == At(child, rest)
    ensures Reaches(node, x)
  {
    var rest: seq<nat> :| At(child, rest) == Some(x);
    assert At(node, [i] + rest) == Some(x);
  }

  lemma {:induction false} WalkedIsReached(node: Json, x: Json)
    requires x in Walk(node)
    ensures Reaches(node, x)
    decreases node
  {
    if x == node {
      assert At(node, []) == Some(x);
    } else {
      match node
      case Obj(fields) =>
        var i := FieldWalked(fields, x);
        assert fields[i].value < fields[i];
        WalkedIsReached(fields[i].value, x);
        ChildReaches(node, fields[i].value, i, x);
      case Arr(items) =>
        var i := ItemWalked(items, x);
        WalkedIsReached(items[i], x);
        ChildReaches(node, items[i], i, x);
      case _ =>
    }
  }

  lemma {:induction false} FieldWalked(fields: seq<Field>, x: Json) returns (i: nat)
    requires x in WalkFields(fields)
    ensures i < |fields| && x in Walk(fields[i].value)
  {
    var k := |fields| - 1;
    if x in WalkFields(fields[..k]) { i := FieldWalked(fields[..k], x); } else { i := k; }
  }

  lemma {:induction false} ItemWalked(items: seq<Json>, x: Json) returns (i: nat)
    requires x in WalkItems(items)
    ensures i < |items| && x in Walk(items[i])
  {
    var k := |items| - 1;
    if x in WalkItems(items[..k]) { i := ItemWalked(items[..k], x); } else { i := k; }
  }

  lemma {:induction false} ReachedIsWalked(node: Json, route: seq<nat>)
    requires At(node, route).Some?
    ensures At(node, route).value in Walk(node)
    decreases |route|
  {
    if route != [] {
      match node
      case Obj(fields) =>
        ReachedIsWalked(fields[route[0]].value, route[1..]);
        FieldIsWalked(fields, route[0], At(node, route).value);
      case Arr(items) =>
        ReachedIsWalked(items[route[0]], route[1..]);
        ItemIsWalked(items, route[0], At(node, route).value);
    }
  }

  lemma {:induction false} FieldIsWalked(fields: seq<Field>, i: nat, x: Json)
    requires i < |fields| && x in Walk(fields[i].value)
    ensures x in WalkFields(fields)
  {
    if i < |fields| - 1 { FieldIsWalked(fields[..|fields| - 1], i, x); }
  }

  lemma {:induction false} ItemIsWalked(items: seq<Json>, i: nat, x: Json)
    requires i < |items| && x in Walk(items[i])
    ensures x in WalkItems(items)
  {
    if i < |items| - 1 { ItemIsWalked(items[..|items| - 1], i, x); }
  }

  lemma {:induction false} RefsAmongIff(nodes: seq<Json>, v: Json)
    ensures v in RefsAmong(nodes) <==> exists i :: 0 <= i < |nodes| && RefOf(nodes[i]) == Some(v)
  {
    if nodes != [] {
      var front := nodes[..|nodes| - 1];
      RefsAmongIff(front, v);
      assert forall i :: 0 <= i < |front| ==> front[i] == nodes[i];
    }
  }

  /** Some node at this route carries this reference. */
  predicate RefAt(node: Json, route: seq<nat>, v: Json) {
    At(node, route).Some? && RefOf(At(node, route).value) == Some(v)
  }

  /** The references collected are exactly those at some depth of the tree. */
  lemma CollectedIffAtSomeDepth(node: Json, v: Json)
    ensures v in RefsAmong(Walk(node)) <==> exists route :: RefAt(node, route, v)
  {
    var nodes := Walk(node);
    RefsAmongIff(nodes, v);
    if v in RefsAmong(nodes) {
      var i :| 0 <= i < |nodes| && RefOf(nodes[i]) == Some(v);
      WalkedIsReached(node, nodes[i]);
      var route :| At(node, route) == Some(nodes[i]);
      assert RefAt(node, route, v);
    }
    if route :| RefAt(node, route, v) {
      ReachedIsWalked(node, route);
      var i :| 0 <= i < |nodes| && nodes[i] == At(node, route).value;
    }
  }

  // ---------------------------------------------------- good references

  /** A fragment, or a text whose part before the first '#' is a required contract id. */
  predicate NamesContract(v: Json) {
    v.Str? && v.s != "" && (v.s[0] == '#' || BeforeHash(v.s) in RequiredIds())
  }

  lemma RequiredNamesHaveNoSlash(n: string)
    requires n in REQUIRED_NAMES
    ensures '/' !in n
  {
  }

  lemma RequiredIdsAreCanonical(id: string)
    requires id in RequiredIds()
    ensures StartsWith(id, ID_PREFIX) && '/' !in id
  {
    var n :| n in REQUIRED_NAMES && id == ID_PREFIX + n;
    RequiredNamesHaveNoSlash(n);
    assert '/' !in ID_PREFIX;
  }

  lemma SlashComesAlong(id: string, part: string, i: nat)
    requires '/' in part
    ensures PartAt(id, part, i) ==> '/' in id
  {
    if PartAt(id, part, i) {
      var k :| 0 <= k < |part| && part[k] == '/';
      assert id[i + k] == id[i..i + |part|][k];
    }
  }

  lemma PrefixIsPart(id: string, part: string)
    ensures StartsWith(id, part) <==> PartAt(id, part, 0)
  {
  }

  lemma NoSlashNoScheme(id: string, part: string)
    requires '/' !in id && '/' in part
    ensures !Contains(id, part) && !StartsWith(id, part)
  {
    PrefixIsPart(id, part);
    forall i: nat ensures !PartAt(id, part, i) { SlashComesAlong(id, part, i); }
  }

  /** Against the required ids a reference passes every check exactly when it is good. */
  lemma ReferencePassesIff(v: Json)
    ensures CheckRef(v, RequiredIds()).None? <==> NamesContract(v)
  {
    if v.Str? && v.s != "" && v.s[0] != '#' && BeforeHash(v.s) in RequiredIds() {
      var id := BeforeHash(v.s);
      RequiredIdsAreCanonical(id);
      assert "://"[1] == '/' && "http://"[5] == '/' && "https://"[6] == '/';
      NoSlashNoScheme(id, "://");
      NoSlashNoScheme(id, "http://");
      NoSlashNoScheme(id, "https://");
      assert id[0] == 'u' && "file:"[0] == 'f' && "."[0] == '.';
    }
  }

  // ---------------------------------------------------- exit code

  lemma {:induction false} NoRefErrorsIff(refs: seq<Json>, known: set<string>)
    ensures RefErrors(refs, known) == [] <==> forall v :: v in refs ==> CheckRef(v, known).None?
  {
    if refs != [] {
      var k := |refs| - 1;
      NoRefErrorsIff(refs[..k], known);
      assert refs == refs[..k] + [refs[k]];
    }
  }

  ghost predicate NoFileErrors(file: Source, known: set<string>) {
    RefErrors(FileRefs(file), known) == []
  }

  lemma {:induction false} NoReferenceErrorsIff(files: seq<Source>, known: set<string>)
    ensures ReferenceErrors(files, known) == [] <==> forall i :: 0 <= i < |files| ==> NoFileErrors(files[i], known)
  {
    if files != [] {
      var (front, last) := (files[..|files| - 1], files[|files| - 1]);
      NoReferenceErrorsIff(front, known);
      assert files == front + [last];
      ReferenceErrorsAppend(front, last, known);
      LastSplits(front, last, known);
    }
  }

  lemma LastSplits(front: seq<Source>, last: Source, known: set<string>)
    ensures (forall i :: 0 <= i < |front + [last]| ==> NoFileErrors((front + [last])[i], known))
      <==> (forall i :: 0 <= i < |front| ==> NoFileErrors(front[i], known)) && NoFileErrors(last, known)
  {
    var files := front + [last];
    assert forall i :: 0 <= i < |front| ==> files[i] == front[i];
    assert files[|front|] == last;
  }

  ghost predicate Clean(files: seq<Source>) {
    forall i :: 0 <= i < |files| ==> GoodFile(files[i])
  }

  ghost predicate DistinctIds(files: seq<Source>) {
    forall i, j :: 0 <= i < j < |files| && IdOf(files[i]).Some? ==> IdOf(files[i]) != IdOf(files[j])
  }

  ghost predicate NothingFound(check: Source -> seq<Error>, files: seq<Source>) {
    forall i :: 0 <= i < |files| ==> check(files[i]) == []
  }

  lemma NothingFoundSplits(check: Source -> seq<Error>, front: seq<Source>, last: Source)
    ensures NothingFound(check, front + [last]) <==> NothingFound(check, front) && check(last) == []
  {
    var files := front + [last];
    assert forall i :: 0 <= i < |front| ==> files[i] == front[i];
    assert files[|front|] == last;
  }

  lemma ReadErrorsSplit(check: Source -> seq<Error>, front: seq<Source>, last: Source)
    ensures ReadErrors(check, front + [last]) == [] <==> ReadErrors(check, front) == [] && check(last) == [] && !Repeats(front, last)
  {
    assert (front + [last])[..|front|] == front;
  }

  lemma {:induction false} NoReadErrorsIff(check: Source -> seq<Error>, files: seq<Source>)
    ensures ReadErrors(check, files) == [] <==> NothingFound(check, files) && DistinctIds(files)
  {
    if files != [] {
      var (front, last) := (files[..|files| - 1], files[|files| - 1]);
      assert files == front + [last];
      NoReadErrorsIff(check, front);
      ReadErrorsSplit(check, front, last);
      NothingFoundSplits(check, front, last);
      RepeatedIff(files);
    }
  }

  lemma CleanIff(files: seq<Source>)
    ensures NothingFound(FileErrors, files) <==> Clean(files)
  {
    forall i | 0 <= i < |files| ensures FileErrors(files[i]) == [] <==> GoodFile(files[i]) { CleanFileIff(files[i]); }
  }

  lemma RepeatedIff(files: seq<Source>)
    requires files != []
    ensures var k := |files| - 1;
            DistinctIds(files) <==> DistinctIds(files[..k]) && !Repeats(files[..k], files[k])
  {
    var k := |files| - 1;
    var front := files[..k];
    assert forall i :: 0 <= i < k ==> front[i] == files[i];
    if IdOf(files[k]).Some? && IdOf(files[k]).value in KnownIds(front) {
      var i :| 0 <= i < k && IdOf(front[i]) == IdOf(files[k]);
    }
    forall i | 0 <= i < k && IdOf(files[i]).Some? && IdOf(files[i]) == IdOf(files[k])
      ensures IdOf(files[k]).value in KnownIds(front)
    {
      assert IdOf(front[i]) == IdOf(files[k]);
    }
  }

  lemma FileReferencesPassIff(file: Source)
    ensures RefErrors(FileRefs(file), RequiredIds()) == []
      <==> (FieldsOf(file).Some? ==> forall route, v :: RefAt(file.value, route, v) ==> NamesContract(v))
  {
    NoRefErrorsIff(FileRefs(file), RequiredIds());
    if FieldsOf(file).Some? {
      forall v ensures v in FileRefs(file) <==> exists route :: RefAt(file.value, route, v) {
        CollectedIffAtSomeDepth(file.value, v);
      }
      forall v ensures CheckRef(v, RequiredIds()).None? <==> NamesContract(v) { ReferencePassesIff(v); }
    }
  }

  /** No error is found exactly when every file has its shape and shows no secret name, the ids are pairwise distinct and together
      the required ones, and every reference at any depth of any file is a fragment or names a required id. */
  lemma LintIsExact(files: seq<Source>)
    ensures AllErrors(files) == []
      <==> && Clean(files) && DistinctIds(files) && KnownIds(files) == RequiredIds()
           && forall i :: 0 <= i < |files| && FieldsOf(files[i]).Some? ==>
                forall route, v :: RefAt(files[i].value, route, v) ==> NamesContract(v)
  {
    NoReadErrorsIff(FileErrors, files);
    CleanIff(files);
    NoReferenceErrorsIff(files, KnownIds(files));
    if KnownIds(files) == RequiredIds() {
      forall i | 0 <= i < |files|
        ensures NoFileErrors(files[i], KnownIds(files))
          <==> (FieldsOf(files[i]).Some? ==> forall route, v :: RefAt(files[i].value, route, v) ==> NamesContract(v))
      {
        FileReferencesPassIff(files[i]);
      }
    }
  }

  // ---------------------------------------------------- the secret that is not seen

  ghost predicate SecretDeclared(node: Json) {
    exists n :: n in SECRET_VALUE_KEYS && Declared(node, n)
  }

  ghost predicate SecretBehindList(node: Json) {
    exists n :: n in SECRET_VALUE_KEYS && BehindList(node, n)
  }

  /** Of a file with the right shape, a clean answer and "declares no secret name" differ exactly when a secret name
      lies below a list under "properties" and none lies elsewhere. */
  lemma CleanHidesSecretIff(file: Source)
    requires Shaped(file)
    ensures (FileErrors(file) == [] && SecretDeclared(file.value)) <==> SecretBehindList(file.value) && !SecretVisible(file.value)
    ensures FileErrors(file) != [] ==> SecretDeclared(file.value)
  {
    CleanFileIff(file);
    if n :| n in SECRET_VALUE_KEYS && Declared(file.value, n) { DeclaredIsVisibleOrBehind(file.value, n); }
    if n :| n in SECRET_VALUE_KEYS && BehindList(file.value, n) { DeclaredIsVisibleOrBehind(file.value, n); }
    if n :| n in SECRET_VALUE_KEYS && Visible(file.value, n) { DeclaredIsVisibleOrBehind(file.value, n); }
  }

  lemma GetFromCons(f: Field, rest: seq<Field>, key: string)
    ensures Get([f] + rest, key) == if f.key == key then Some(f.value) else Get(rest, key)
  {
    assert ([f] + rest)[1..] == rest;
  }

  /** The top-level fields every schema file needs, in front of others. */
  function Shape(rest: seq<Field>): seq<Field> {
    [Field("$schema", Str(CANONICAL_SCHEMA))] + ([Field("$id", Str(ID_PREFIX))] + ([Field("type", Str("object"))]
      + ([Field("additionalProperties", Bool(false))] + ([Field("title", Str("t"))] + rest))))
  }

  lemma GetFromShape(rest: seq<Field>, key: string)
    ensures Get(Shape(rest), key) ==
      if key == "$schema" then Some(Str(CANONICAL_SCHEMA))
      else if key == "$id" then Some(Str(ID_PREFIX))
      else if key == "type" then Some(Str("object"))
      else if key == "additionalProperties" then Some(Bool(false))
      else if key == "title" then Some(Str("t"))
      else Get(rest, key)
  {
    var fifth := [Field("title", Str("t"))] + rest;
    var fourth := [Field("additionalProperties", Bool(false))] + fifth;
    var third := [Field("type", Str("object"))] + fourth;
    var second := [Field("$id", Str(ID_PREFIX))] + third;
    GetFromCons(Field("$schema", Str(CANONICAL_SCHEMA)), second, key);
    GetFromCons(Field("$id", Str(ID_PREFIX)), third, key);
    GetFromCons(Field("type", Str("object")), fourth, key);
    GetFromCons(Field("additionalProperties", Bool(false)), fifth, key);
    GetFromCons(Field("title", Str("t")), rest, key);
  }

  /** [{"properties": {"token": {}}}] */
  const TOKEN_LIST: Json := Arr([Obj([Field("properties", Obj([Field("token", Obj([]))]))])])

  /** A well-shaped file that declares a token below a list under "properties". */
  const HIDING_FILE: Json := Obj(Shape([Field("properties", TOKEN_LIST)]))

  predicate Flat(f: Field) {
    f.key == "properties" || f.value.Str? || f.value.Bool?
  }

  lemma FlatFieldsNameNothing(fields: seq<Field>)
    requires forall f :: f in fields ==> Flat(f)
    ensures NamesInFields(fields, true) == {}
  {
    forall n ensures n !in NamesInFields(fields, true) {
      FieldNamesIff(fields, true, n);
      forall i | 0 <= i < |fields| && fields[i].key != "properties" ensures PropertyNames(fields[i].value) == {} {
        assert fields[i] in fields;
      }
    }
  }

  lemma ShapeIsFlat(rest: seq<Field>)
    requires forall f :: f in rest ==> Flat(f)
    ensures forall f :: f in Shape(rest) ==> Flat(f)
  {
    assert forall f :: f in [Field("title", Str("t"))] + rest ==> Flat(f);
  }

  lemma OthersDeclareNothing()
    ensures PropertyNames(HIDING_FILE) == {}
  {
    var rest := [Field("properties", TOKEN_LIST)];
    GetFromShape(rest, "properties");
    DeclaredNamesAre(Shape(rest));
    ShapeIsFlat(rest);
    FlatFieldsNameNothing(Shape(rest));
  }

  lemma TokenInList()
    ensures Declared(TOKEN_LIST, "token")
  {
    var inner := TOKEN_LIST.items[0];
    assert inner.fields[0].value.fields[0].key == "token";
    var p := [TOKEN_LIST, inner];
    assert Leads(p, TOKEN_LIST, inner) && WidePath(p);
  }

  lemma TokenIsDeclared()
    ensures BehindList(HIDING_FILE, "token") && Declared(HIDING_FILE, "token")
  {
    GetFromShape([Field("properties", TOKEN_LIST)], "properties");
    TokenInList();
    ReachableSelf(HIDING_FILE);
    assert Skips(HIDING_FILE, TOKEN_LIST);
    BehindIsDeclared(HIDING_FILE, "token");
  }

  lemma ShapeSuffices(rest: seq<Field>)
    ensures Shaped(Some(Obj(Shape(rest))))
  {
    GetFromShape(rest, "$schema");
    GetFromShape(rest, "$id");
    GetFromShape(rest, "type");
    GetFromShape(rest, "additionalProperties");
    GetFromShape(rest, "title");
    assert "t" != "";
  }

  lemma HiddenToken()
    ensures FileErrors(Some(HIDING_FILE)) == [] && SecretDeclared(HIDING_FILE)
  {
    OthersDeclareNothing();
    SecretVisibleIff(HIDING_FILE);
    ShapeSuffices([Field("properties", TOKEN_LIST)]);
    CleanFileIff(Some(HIDING_FILE));
    TokenIsDeclared();
  }
}

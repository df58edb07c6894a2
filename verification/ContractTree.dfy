/** JSON trees as the lint walks them, and which declared names it sees. */
module ContractTree {
  import opened Common

  datatype Json =
    | Null | Bool(b: bool) | Num(text: string) | Str(s: string) | Arr(items: seq<Json>) | Obj(fields: seq<Field>)

  /** An object field; an object's keys are distinct, the first one found is the one. */
  datatype Field = Field(key: string, value: Json)

  function Get(fields: seq<Field>, key: string): (v: Option<Json>)
    ensures v.Some? ==> exists i :: 0 <= i < |fields| && fields[i] == Field(key, v.value)
  {
    if fields == [] then None
    else if fields[0].key == key then
      assert fields[0] == Field(key, fields[0].value);
      Some(fields[0].value)
    else
      var rest := Get(fields[1..], key);
      assert rest.Some? ==> exists i :: 0 <= i < |fields| && fields[i] == Field(key, rest.value) by {
        if rest.Some? {
          var i :| 0 <= i < |fields[1..]| && fields[1..][i] == Field(key, rest.value);
          assert fields[i + 1] == Field(key, rest.value);
        }
      }
      rest
  }

  // ---------------------------------------------------------- tree walking

  /** Every node, parents first. */
  function Walk(node: Json): seq<Json>
    decreases node
  {
    [node] + match node
             case Obj(fields) => WalkFields(fields)
             case Arr(items) => WalkItems(items)
             case _ => []
  }

  function WalkFields(fields: seq<Field>): seq<Json>
    decreases fields
  {
    if fields == [] then []
    else
      var f := fields[|fields| - 1];
      assert f.value < f;
      WalkFields(fields[..|fields| - 1]) + Walk(f.value)
  }

  function WalkItems(items: seq<Json>): seq<Json>
    decreases items
  {
    if items == [] then [] else WalkItems(items[..|items| - 1]) + Walk(items[|items| - 1])
  }

  function Keys(fields: seq<Field>): set<string> {
    set i | 0 <= i < |fields| :: fields[i].key
  }

  /** Names declared under "properties" anywhere; a "properties" that is no object is not looked into. */
  function PropertyNames(node: Json): set<string>
    decreases node
  {
    match node
    case Obj(fields) => DeclaredNames(fields) + NamesInFields(fields, true)
    case Arr(items) => NamesInItems(items)
    case _ => {}
  }

  function DeclaredNames(fields: seq<Field>): set<string>
    decreases fields, 1
  {
    if fields == [] then {}
    else if fields[0].key == "properties" then
      assert fields[0].value < fields[0];
      match fields[0].value
      case Obj(declared) => Keys(declared) + NamesInFields(declared, false)
      case _ => {}
    else DeclaredNames(fields[1..])
  }

  function NamesInFields(fields: seq<Field>, skip: bool): set<string>
    decreases fields, 0
  {
    if fields == [] then {}
    else
      var f := fields[|fields| - 1];
      assert f.value < f;
      NamesInFields(fields[..|fields| - 1], skip)
      + if skip && f.key == "properties" then {} else PropertyNames(f.value)
  }

  function NamesInItems(items: seq<Json>): set<string>
    decreases items
  {
    if items == [] then {} else NamesInItems(items[..|items| - 1]) + PropertyNames(items[|items| - 1])
  }

  // ---------------------------------------------- what the lint sees, said without recursion

  /** This object lists the name under its "properties". */
  predicate Declares(x: Json, n: string) {
    x.Obj? &&
    var d := Get(x.fields, "properties");
    d.Some? && d.value.Obj? && n in Keys(d.value.fields)
  }

  ghost predicate AmongValues(fields: seq<Field>, y: Json) {
    exists i :: 0 <= i < |fields| && fields[i].value == y
  }

  ghost predicate OtherValue(fields: seq<Field>, y: Json) {
    exists i :: 0 <= i < |fields| && fields[i].key != "properties" && fields[i].value == y
  }

  /** y is the schema of a property that x declares. */
  ghost predicate DeclaredChild(x: Json, y: Json) {
    x.Obj? &&
    var d := Get(x.fields, "properties");
    d.Some? && d.value.Obj? && AmongValues(d.value.fields, y)
  }

  /** One step of the walk: an item, a value under any other key, or the schema of a declared property. */
  ghost predicate Enters(x: Json, y: Json) {
    || (x.Arr? && y in x.items)
    || (x.Obj? && OtherValue(x.fields, y))
    || DeclaredChild(x, y)
  }

  /** One step that the walk does not take: into a "properties" that is no object. */
  predicate Skips(x: Json, y: Json) {
    x.Obj? && Get(x.fields, "properties") == Some(y) && !y.Obj?
  }

  ghost predicate Path(p: seq<Json>) {
    forall i :: 0 <= i < |p| - 1 ==> Enters(p[i], p[i + 1])
  }

  /** A path that may also enter every "properties". */
  ghost predicate WidePath(p: seq<Json>) {
    forall i :: 0 <= i < |p| - 1 ==> Enters(p[i], p[i + 1]) || Skips(p[i], p[i + 1])
  }

  predicate Leads(p: seq<Json>, from: Json, to: Json) {
    p != [] && p[0] == from && p[|p| - 1] == to
  }

  ghost predicate Reachable(from: Json, to: Json) {
    exists p :: Leads(p, from, to) && Path(p)
  }

  ghost predicate Visible(node: Json, n: string) {
    exists x :: Reachable(node, x) && Declares(x, n)
  }

  ghost predicate Declared(node: Json, n: string) {
    exists p, x :: Leads(p, node, x) && WidePath(p) && Declares(x, n)
  }

  /** The name is declared somewhere below a reached "properties" that is no object. */
  ghost predicate BehindList(node: Json, n: string) {
    exists x, y :: Reachable(node, x) && Skips(x, y) && Declared(y, n)
  }

  lemma EnteredIsSmaller(x: Json, y: Json)
    requires Enters(x, y)
    ensures y < x
  {
    if x.Obj? {
      if DeclaredChild(x, y) {
        var d := Get(x.fields, "properties").value;
        var i :| 0 <= i < |x.fields| && x.fields[i] == Field("properties", d);
        var j :| 0 <= j < |d.fields| && d.fields[j].value == y;
        assert y < d.fields[j] < d < x.fields[i] < x;
      } else {
        var i :| 0 <= i < |x.fields| && x.fields[i].value == y;
        assert y < x.fields[i] < x;
      }
    }
  }

  lemma {:induction false} ItemNamesIff(items: seq<Json>, n: string)
    ensures n in NamesInItems(items) <==> exists i :: 0 <= i < |items| && n in PropertyNames(items[i])
  {
    if items != [] {
      var k := |items| - 1;
      ItemNamesIff(items[..k], n);
      assert forall i :: 0 <= i < k ==> items[..k][i] == items[i];
    }
  }

  lemma {:induction false} FieldNamesIff(fields: seq<Field>, skip: bool, n: string)
    ensures n in NamesInFields(fields, skip)
      <==> exists i :: 0 <= i < |fields| && !(skip && fields[i].key == "properties") && n in PropertyNames(fields[i].value)
  {
    if fields != [] {
      var k := |fields| - 1;
      FieldNamesIff(fields[..k], skip, n);
      assert forall i :: 0 <= i < k ==> fields[..k][i] == fields[i];
    }
  }

  lemma {:induction false} DeclaredNamesAre(fields: seq<Field>)
    ensures var d := Get(fields, "properties");
            DeclaredNames(fields) == if d.Some? && d.value.Obj? then Keys(d.value.fields) + NamesInFields(d.value.fields, false) else {}
  {
    if fields != [] && fields[0].key != "properties" { DeclaredNamesAre(fields[1..]); }
  }

  ghost predicate SeenBelow(x: Json, n: string) {
    exists y :: Enters(x, y) && n in PropertyNames(y)
  }

  lemma NamesOfItems(x: Json, n: string)
    requires x.Arr?
    ensures n in PropertyNames(x) <==> SeenBelow(x, n)
  {
    ItemNamesIff(x.items, n);
    if n in PropertyNames(x) {
      var i :| 0 <= i < |x.items| && n in PropertyNames(x.items[i]);
      assert Enters(x, x.items[i]);
    }
  }

  lemma NamesOfObject(x: Json, n: string)
    requires x.Obj?
    ensures n in PropertyNames(x) <==> Declares(x, n) || SeenBelow(x, n)
  {
    DeclaredNamesAre(x.fields);
    FieldNamesIff(x.fields, true, n);
    var d := Get(x.fields, "properties");
    if d.Some? && d.value.Obj? {
      var declared := d.value.fields;
      FieldNamesIff(declared, false, n);
      forall j | 0 <= j < |declared| && n in PropertyNames(declared[j].value) ensures SeenBelow(x, n) {
        assert Enters(x, declared[j].value);
      }
    }
    forall i | 0 <= i < |x.fields| && x.fields[i].key != "properties" && n in PropertyNames(x.fields[i].value)
      ensures SeenBelow(x, n)
    {
      assert Enters(x, x.fields[i].value);
    }
  }

  /** The recursion one level deep. */
  lemma NamesStep(x: Json, n: string)
    ensures n in PropertyNames(x) <==> Declares(x, n) || SeenBelow(x, n)
  {
    match x
    case Obj(_) => NamesOfObject(x, n);
    case Arr(_) => NamesOfItems(x, n);
    case _ =>
  }

  lemma ReachableFurther(x: Json, y: Json, z: Json)
    requires Enters(x, y) && Reachable(y, z)
    ensures Reachable(x, z)
  {
    var p :| Leads(p, y, z) && Path(p);
    var q := [x] + p;
    assert forall i :: 0 < i < |q| ==> q[i] == p[i - 1];
    assert Leads(q, x, z) && Path(q);
  }

  lemma ReachableSelf(x: Json)
    ensures Reachable(x, x)
  {
    assert Leads([x], x, x) && Path([x]);
  }

  lemma {:induction false} CollectedIsVisible(node: Json, n: string)
    requires n in PropertyNames(node)
    ensures Visible(node, n)
    decreases node
  {
    NamesStep(node, n);
    if Declares(node, n) {
      ReachableSelf(node);
    } else {
      var y :| Enters(node, y) && n in PropertyNames(y);
      EnteredIsSmaller(node, y);
      CollectedIsVisible(y, n);
      var x :| Reachable(y, x) && Declares(x, n);
      ReachableFurther(node, y, x);
    }
  }

  lemma {:induction false} PathIsCollected(p: seq<Json>, n: string)
    requires p != [] && Path(p) && Declares(p[|p| - 1], n)
    ensures n in PropertyNames(p[0])
  {
    NamesStep(p[0], n);
    if |p| > 1 {
      var q := p[1..];
      assert Path(q) by { assert forall i :: 0 <= i < |q| ==> q[i] == p[i + 1]; }
      PathIsCollected(q, n);
      assert Enters(p[0], p[1]);
    }
  }

  /** The lint sees a name exactly if some object declares it on a path that enters no list under "properties". */
  lemma NamesAreVisible(node: Json, n: string)
    ensures n in PropertyNames(node) <==> Visible(node, n)
  {
    if n in PropertyNames(node) { CollectedIsVisible(node, n); }
    if x :| Reachable(node, x) && Declares(x, n) {
      var p :| Leads(p, node, x) && Path(p);
      PathIsCollected(p, n);
    }
  }

  lemma {:induction false} WidePathSplits(p: seq<Json>, n: string)
    requires p != [] && WidePath(p) && Declares(p[|p| - 1], n)
    ensures Visible(p[0], n) || BehindList(p[0], n)
  {
    ReachableSelf(p[0]);
    if |p| > 1 {
      var q := p[1..];
      assert WidePath(q) by { assert forall i :: 0 <= i < |q| ==> q[i] == p[i + 1]; }
      if Skips(p[0], p[1]) {
        assert Leads(q, p[1], p[|p| - 1]);
        assert Declared(p[1], n);
      } else {
        WidePathSplits(q, n);
        StepInFront(p[0], p[1], n);
      }
    }
  }

  lemma StepInFront(x: Json, y: Json, n: string)
    requires Enters(x, y) && (Visible(y, n) || BehindList(y, n))
    ensures Visible(x, n) || BehindList(x, n)
  {
    if Visible(y, n) {
      var z :| Reachable(y, z) && Declares(z, n);
      ReachableFurther(x, y, z);
    } else {
      var z, l :| Reachable(y, z) && Skips(z, l) && Declared(l, n);
      ReachableFurther(x, y, z);
    }
  }

  lemma BehindIsDeclared(node: Json, n: string)
    requires BehindList(node, n)
    ensures Declared(node, n)
  {
    var x, y :| Reachable(node, x) && Skips(x, y) && Declared(y, n);
    var p :| Leads(p, node, x) && Path(p);
    var q, z :| Leads(q, y, z) && WidePath(q) && Declares(z, n);
    var r := p + q;
    forall i | 0 <= i < |r| - 1 ensures Enters(r[i], r[i + 1]) || Skips(r[i], r[i + 1]) {
      if i >= |p| { assert Enters(q[i - |p|], q[i - |p| + 1]) || Skips(q[i - |p|], q[i - |p| + 1]); }
    }
    assert Leads(r, node, z) && WidePath(r);
  }

  /** A declared name is seen, or lies behind a "properties" that is no object: nothing else is hidden. */
  lemma DeclaredIsVisibleOrBehind(node: Json, n: string)
    ensures Declared(node, n) <==> Visible(node, n) || BehindList(node, n)
  {
    if p, x :| Leads(p, node, x) && WidePath(p) && Declares(x, n) { WidePathSplits(p, n); }
    if x :| Reachable(node, x) && Declares(x, n) {
      var p :| Leads(p, node, x) && Path(p);
      assert WidePath(p);
    }
    if BehindList(node, n) { BehindIsDeclared(node, n); }
  }
}

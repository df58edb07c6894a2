/** Canonical redaction for replay manifests: sorted keys, secrets replaced, replacements counted. */
module ReplayRedaction {
  import opened Common

  const MARK: string := "<redacted>"

  const FRAGMENTS: seq<string> := [
    "authorization", "bearer", "cookie", "credential", "csrf", "password", "secret", "session", "token"]

  datatype Tree = Scalar(text: string) | Mapping(entries: seq<Entry>) | Items(isTuple: bool, items: seq<Tree>)

  datatype Entry = Entry(key: string, value: Tree)

  // ------------------------------------------------------------------ keys

  function Lower(s: string): string {
    seq(|s|, i requires 0 <= i < |s| => if 'A' <= s[i] <= 'Z' then s[i] - 'A' + 'a' else s[i])
  }

  predicate PartAt(s: string, part: string, i: nat) {
    i + |part| <= |s| && s[i..i + |part|] == part
  }

  predicate Contains(s: string, part: string) {
    exists i :: 0 <= i <= |s| && PartAt(s, part, i)
  }

  predicate IsSensitive(key: string) {
    exists i :: 0 <= i < |FRAGMENTS| && Contains(Lower(key), FRAGMENTS[i])
  }

  /** Code point order, shorter prefix first. */
  predicate Less(a: string, b: string) {
    b != [] && (a == [] || a[0] < b[0] || (a[0] == b[0] && Less(a[1..], b[1..])))
  }

  lemma {:induction false} LessIsTotal(a: string, b: string)
    ensures a == b || Less(a, b) || Less(b, a)
  {
    if a != [] && b != [] && a[0] == b[0] {
      LessIsTotal(a[1..], b[1..]);
      assert a == [a[0]] + a[1..] && b == [b[0]] + b[1..];
    }
  }

  lemma {:induction false} LessIsIrreflexive(a: string)
    ensures !Less(a, a)
  {
    if a != [] { LessIsIrreflexive(a[1..]); }
  }

  lemma {:induction false} LessIsTransitive(a: string, b: string, c: string)
    requires Less(a, b) && Less(b, c)
    ensures Less(a, c)
  {
    if a != [] && a[0] == b[0] && b[0] == c[0] {
      LessIsTransitive(a[1..], b[1..], c[1..]);
    }
  }

  // --------------------------------------------------------------- sorting

  function Insert(e: Entry, sorted: seq<Entry>): seq<Entry> {
    if sorted == [] || !Less(e.key, sorted[|sorted| - 1].key) then sorted + [e]
    else Insert(e, sorted[..|sorted| - 1]) + [sorted[|sorted| - 1]]
  }

  function Sort(entries: seq<Entry>): seq<Entry> {
    if entries == [] then [] else Insert(entries[|entries| - 1], Sort(entries[..|entries| - 1]))
  }

  ghost predicate Ascending(entries: seq<Entry>) {
    forall i, j :: 0 <= i < j < |entries| ==> Less(entries[i].key, entries[j].key)
  }

  ghost predicate DistinctKeys(entries: seq<Entry>) {
    forall i, j :: 0 <= i < j < |entries| ==> entries[i].key != entries[j].key
  }

  lemma {:induction false} InsertKeepsElements(e: Entry, sorted: seq<Entry>)
    ensures multiset(Insert(e, sorted)) == multiset(sorted) + multiset{e}
  {
    if sorted != [] && Less(e.key, sorted[|sorted| - 1].key) {
      InsertKeepsElements(e, sorted[..|sorted| - 1]);
      assert sorted == sorted[..|sorted| - 1] + [sorted[|sorted| - 1]];
    }
  }

  lemma {:induction false} SortKeepsElements(entries: seq<Entry>)
    ensures multiset(Sort(entries)) == multiset(entries)
  {
    if entries != [] {
      var k := |entries| - 1;
      SortKeepsElements(entries[..k]);
      InsertKeepsElements(entries[k], Sort(entries[..k]));
      assert entries == entries[..k] + [entries[k]];
    }
  }

  lemma InsertedElements(e: Entry, sorted: seq<Entry>)
    ensures forall x :: x in Insert(e, sorted) <==> x == e || x in sorted
  {
    InsertKeepsElements(e, sorted);
    forall x ensures x in Insert(e, sorted) <==> x == e || x in sorted {
      assert x in Insert(e, sorted) <==> x in multiset(Insert(e, sorted));
      assert x in sorted <==> x in multiset(sorted);
    }
  }

  lemma SortedElements(entries: seq<Entry>)
    ensures forall x :: x in Sort(entries) <==> x in entries
  {
    SortKeepsElements(entries);
    forall x ensures x in Sort(entries) <==> x in entries {
      assert x in Sort(entries) <==> x in multiset(Sort(entries));
      assert x in entries <==> x in multiset(entries);
    }
  }

  lemma {:induction false} InsertAscends(e: Entry, sorted: seq<Entry>)
    requires Ascending(sorted) && forall i :: 0 <= i < |sorted| ==> sorted[i].key != e.key
    ensures Ascending(Insert(e, sorted))
  {
    if sorted == [] {
    } else {
      var k := |sorted| - 1;
      if Less(e.key, sorted[k].key) {
        InsertAscends(e, sorted[..k]);
        InsertedElements(e, sorted[..k]);
        var front := Insert(e, sorted[..k]);
        forall i | 0 <= i < |front| ensures Less(front[i].key, sorted[k].key) {
          assert front[i] in front;
        }
      } else {
        LessIsTotal(e.key, sorted[k].key);
        forall i | 0 <= i < k ensures Less(sorted[i].key, e.key) {
          LessIsTransitive(sorted[i].key, sorted[k].key, e.key);
        }
      }
    }
  }

  lemma {:induction false} SortAscends(entries: seq<Entry>)
    requires DistinctKeys(entries)
    ensures Ascending(Sort(entries))
  {
    if entries != [] {
      var k := |entries| - 1;
      SortAscends(entries[..k]);
      SortedElements(entries[..k]);
      forall i | 0 <= i < |Sort(entries[..k])| ensures Sort(entries[..k])[i].key != entries[k].key {
        assert Sort(entries[..k])[i] in entries[..k];
      }
      InsertAscends(entries[k], Sort(entries[..k]));
    }
  }

  lemma {:induction false} AscendingIsSorted(entries: seq<Entry>)
    requires Ascending(entries)
    ensures Sort(entries) == entries
  {
    if entries != [] {
      var k := |entries| - 1;
      AscendingIsSorted(entries[..k]);
      if k > 0 {
        if Less(entries[k].key, entries[k - 1].key) {
          LessIsTransitive(entries[k - 1].key, entries[k].key, entries[k - 1].key);
          LessIsIrreflexive(entries[k - 1].key);
        }
      }
      assert entries == entries[..k] + [entries[k]];
    }
  }

  lemma SomeElement(a: seq<Entry>)
    ensures a != [] ==> exists e :: e in a
  {
    if a != [] { assert a[0] in a; }
  }

  /** Ascending sequences of the same elements are the same sequence. */
  lemma {:induction false} AscendingIsUnique(a: seq<Entry>, b: seq<Entry>)
    requires Ascending(a) && Ascending(b) && forall e :: e in a <==> e in b
    ensures a == b
  {
    if a == [] {
      SomeElement(b);
    } else if b == [] {
      SomeElement(a);
    } else {
      var (m, n) := (|a| - 1, |b| - 1);
      assert a[m] in b && b[n] in a;
      var i :| 0 <= i < |b| && b[i] == a[m];
      var j :| 0 <= j < |a| && a[j] == b[n];
      if a[m] != b[n] {
        LessIsTransitive(a[m].key, b[n].key, a[m].key);
        LessIsIrreflexive(a[m].key);
      }
      forall e ensures e in a[..m] <==> e in b[..n] {
        if e in a[..m] {
          var p :| 0 <= p < m && a[p] == e;
          LessIsIrreflexive(e.key);
          assert e in b && e != b[n];
        }
        if e in b[..n] {
          var p :| 0 <= p < n && b[p] == e;
          LessIsIrreflexive(e.key);
          assert e in a && e != a[m];
        }
      }
      AscendingIsUnique(a[..m], b[..n]);
      assert a == a[..m] + [a[m]] && b == b[..n] + [b[n]];
    }
  }

  // ------------------------------------------------------------- redaction

  /** What redaction makes of a tree: mappings in key order, lists as tuples, secrets replaced. */
  function Redacted(t: Tree): Tree
    decreases t
  {
    match t
    case Scalar(_) => t
    case Mapping(entries) => Mapping(Sort(RedactedEntries(entries)))
    case Items(_, items) => Items(true, RedactedItems(items))
  }

  function RedactedEntry(e: Entry): Entry
    decreases e
  {
    Entry(e.key, if IsSensitive(e.key) then Scalar(MARK) else Redacted(e.value))
  }

  function RedactedEntries(entries: seq<Entry>): (r: seq<Entry>)
    ensures |r| == |entries|
    ensures forall i :: 0 <= i < |entries| ==> r[i] == RedactedEntry(entries[i])
    decreases entries
  {
    if entries == [] then [] else RedactedEntries(entries[..|entries| - 1]) + [RedactedEntry(entries[|entries| - 1])]
  }

  function RedactedItems(items: seq<Tree>): (r: seq<Tree>)
    ensures |r| == |items|
    ensures forall i :: 0 <= i < |items| ==> r[i] == Redacted(items[i])
    decreases items
  {
    if items == [] then [] else RedactedItems(items[..|items| - 1]) + [Redacted(items[|items| - 1])]
  }

  /** How many values redaction replaces. */
  function Count(t: Tree): nat
    decreases t
  {
    match t
    case Scalar(_) => 0
    case Mapping(entries) => CountEntries(entries)
    case Items(_, items) => CountItems(items)
  }

  function CountEntry(e: Entry): nat
    decreases e
  {
    if IsSensitive(e.key) then 1 else Count(e.value)
  }

  function CountEntries(entries: seq<Entry>): nat
    decreases entries
  {
    if entries == [] then 0 else CountEntries(entries[..|entries| - 1]) + CountEntry(entries[|entries| - 1])
  }

  function CountItems(items: seq<Tree>): nat
    decreases items
  {
    if items == [] then 0 else CountItems(items[..|items| - 1]) + Count(items[|items| - 1])
  }

  lemma {:induction false} InsertCommutes(e: Entry, sorted: seq<Entry>)
    ensures RedactedEntries(Insert(e, sorted)) == Insert(RedactedEntry(e), RedactedEntries(sorted))
    ensures CountEntries(Insert(e, sorted)) == CountEntries(sorted) + CountEntry(e)
  {
    if sorted != [] && Less(e.key, sorted[|sorted| - 1].key) {
      var k := |sorted| - 1;
      InsertCommutes(e, sorted[..k]);
      var whole := Insert(e, sorted[..k]) + [sorted[k]];
      assert whole[..|whole| - 1] == Insert(e, sorted[..k]);
    } else {
      assert (sorted + [e])[..|sorted|] == sorted;
    }
  }

  /** Sorting before or after the replacement makes no difference, and no difference to the count. */
  lemma {:induction false} SortCommutes(entries: seq<Entry>)
    ensures RedactedEntries(Sort(entries)) == Sort(RedactedEntries(entries))
    ensures CountEntries(Sort(entries)) == CountEntries(entries)
  {
    if entries != [] {
      var k := |entries| - 1;
      SortCommutes(entries[..k]);
      SortStepCommutes(entries);
    }
  }

  lemma SortStepCommutes(entries: seq<Entry>)
    requires entries != []
    requires var front := entries[..|entries| - 1];
             RedactedEntries(Sort(front)) == Sort(RedactedEntries(front)) && CountEntries(Sort(front)) == CountEntries(front)
    ensures RedactedEntries(Sort(entries)) == Sort(RedactedEntries(entries))
    ensures CountEntries(Sort(entries)) == CountEntries(entries)
  {
    var (front, last) := (entries[..|entries| - 1], entries[|entries| - 1]);
    InsertCommutes(last, Sort(front));
    assert RedactedEntries(entries) == RedactedEntries(front) + [RedactedEntry(last)];
    SortAppend(RedactedEntries(front), RedactedEntry(last));
  }

  lemma SortAppend(front: seq<Entry>, last: Entry)
    ensures Sort(front + [last]) == Insert(last, Sort(front))
  {
    assert (front + [last])[..|front|] == front;
  }

  method Redact(value: Tree) returns (output: Tree, redactions: nat)
    ensures output == Redacted(value) && redactions == Count(value)
    decreases value
  {
    match value
    case Scalar(_) => output, redactions := value, 0;
    case Mapping(entries) =>
      SortKeepsElements(entries);
      SortCommutes(entries);
      var fields: seq<Entry>;
      fields, redactions := RedactSorted(entries, Sort(entries));
      output := Mapping(fields);
    case Items(_, items) =>
      var all: seq<Tree>;
      all, redactions := RedactItems(items);
      output := Items(true, all);
  }

  method RedactSorted(entries: seq<Entry>, sorted: seq<Entry>) returns (fields: seq<Entry>, redactions: nat)
    requires multiset(sorted) == multiset(entries)
    ensures fields == RedactedEntries(sorted) && redactions == CountEntries(sorted)
    decreases entries
  {
    fields, redactions := [], 0;
    for i := 0 to |sorted|
      invariant fields == RedactedEntries(sorted[..i]) && redactions == CountEntries(sorted[..i])
    {
      assert sorted[..i + 1][..i] == sorted[..i];
      var e := sorted[i];
      if IsSensitive(e.key) {
        fields := fields + [Entry(e.key, Scalar(MARK))];
        redactions := redactions + 1;
      } else {
        assert e in multiset(sorted) && e in entries && e.value < e;
        var child, childRedactions := Redact(e.value);
        fields := fields + [Entry(e.key, child)];
        redactions := redactions + childRedactions;
      }
    }
    assert sorted[..|sorted|] == sorted;
  }

  method RedactItems(items: seq<Tree>) returns (all: seq<Tree>, redactions: nat)
    ensures all == RedactedItems(items) && redactions == CountItems(items)
    decreases items
  {
    all, redactions := [], 0;
    for i := 0 to |items|
      invariant all == RedactedItems(items[..i]) && redactions == CountItems(items[..i])
    {
      assert items[..i + 1][..i] == items[..i];
      var child, childRedactions := Redact(items[i]);
      all := all + [child];
      redactions := redactions + childRedactions;
    }
    assert items[..|items|] == items;
  }

  // ------------------------------------------------------------- properties

  ghost predicate WellFormed(t: Tree) {
    match t
    case Scalar(_) => true
    case Mapping(entries) => DistinctKeys(entries) && forall i :: 0 <= i < |entries| ==> WellFormed(entries[i].value)
    case Items(_, items) => forall i :: 0 <= i < |items| ==> WellFormed(items[i])
  }

  /** Two values that may stand in for each other: same up to mapping order, secret values, and list or tuple. */
  ghost predicate Alike(t: Tree, u: Tree) {
    match (t, u)
    case (Mapping(es), Mapping(fs)) =>
      EachAlikeToSome(es, fs) && EachHasAlike(es, fs)
    case (Items(_, xs), Items(_, ys)) => |xs| == |ys| && forall i :: 0 <= i < |xs| ==> Alike(xs[i], ys[i])
    case _ => t == u
  }

  ghost predicate AlikeFields(e: Entry, f: Entry)
    decreases e, 0
  {
    e.key == f.key && (IsSensitive(e.key) || Alike(e.value, f.value))
  }

  ghost predicate AlikeToSome(e: Entry, fs: seq<Entry>)
    decreases e, 1
  {
    exists j :: 0 <= j < |fs| && AlikeFields(e, fs[j])
  }

  ghost predicate SomeAlikeTo(es: seq<Entry>, f: Entry)
    decreases es, 0
  {
    exists i :: 0 <= i < |es| && AlikeFields(es[i], f)
  }

  ghost predicate EachAlikeToSome(es: seq<Entry>, fs: seq<Entry>)
    decreases es, 0
  {
    forall i :: 0 <= i < |es| ==> AlikeToSome(es[i], fs)
  }

  ghost predicate EachHasAlike(es: seq<Entry>, fs: seq<Entry>)
    decreases es, 1
  {
    forall j :: 0 <= j < |fs| ==> SomeAlikeTo(es, fs[j])
  }

  predicate Within(a: seq<Entry>, b: seq<Entry>) {
    forall i :: 0 <= i < |a| ==> a[i] in b
  }

  lemma {:induction false} SortedEntriesEqualIff(es: seq<Entry>, fs: seq<Entry>)
    requires DistinctKeys(es) && DistinctKeys(fs)
    ensures Sort(RedactedEntries(es)) == Sort(RedactedEntries(fs))
      <==> forall e :: e in RedactedEntries(es) <==> e in RedactedEntries(fs)
  {
    var (a, b) := (RedactedEntries(es), RedactedEntries(fs));
    SortedElements(a);
    SortedElements(b);
    SortAscends(a);
    SortAscends(b);
    if forall e :: e in a <==> e in b {
      AscendingIsUnique(Sort(a), Sort(b));
    }
  }

  lemma {:induction false} AlikeEntry(e: Entry, f: Entry)
    requires WellFormed(e.value) && WellFormed(f.value)
    ensures RedactedEntry(e) == RedactedEntry(f) <==> AlikeFields(e, f)
    decreases e, 1
  {
    if e.key == f.key && !IsSensitive(e.key) {
      RedactedAlikeIff(e.value, f.value);
    }
  }

  lemma {:induction false} AlikeToSomeIff(e: Entry, fs: seq<Entry>)
    requires WellFormed(e.value) && forall j :: 0 <= j < |fs| ==> WellFormed(fs[j].value)
    ensures AlikeToSome(e, fs) <==> RedactedEntry(e) in RedactedEntries(fs)
    decreases e, 2
  {
    forall j | 0 <= j < |fs| ensures RedactedEntry(e) == RedactedEntry(fs[j]) <==> AlikeFields(e, fs[j]) {
      AlikeEntry(e, fs[j]);
    }
  }

  lemma {:induction false} SomeAlikeToIff(es: seq<Entry>, f: Entry)
    requires WellFormed(f.value) && forall i :: 0 <= i < |es| ==> WellFormed(es[i].value)
    ensures SomeAlikeTo(es, f) <==> RedactedEntry(f) in RedactedEntries(es)
    decreases es, 0
  {
    forall i | 0 <= i < |es| ensures RedactedEntry(f) == RedactedEntry(es[i]) <==> AlikeFields(es[i], f) {
      AlikeEntry(es[i], f);
    }
  }

  lemma {:induction false} EveryAlikeToSomeIff(es: seq<Entry>, fs: seq<Entry>)
    requires (forall i :: 0 <= i < |es| ==> WellFormed(es[i].value)) && forall j :: 0 <= j < |fs| ==> WellFormed(fs[j].value)
    ensures EachAlikeToSome(es, fs) <==> Within(RedactedEntries(es), RedactedEntries(fs))
    decreases es, 0
  {
    forall i | 0 <= i < |es| ensures AlikeToSome(es[i], fs) <==> RedactedEntries(es)[i] in RedactedEntries(fs) {
      AlikeToSomeIff(es[i], fs);
    }
  }

  lemma {:induction false} SomeAlikeToEveryIff(es: seq<Entry>, fs: seq<Entry>)
    requires (forall i :: 0 <= i < |es| ==> WellFormed(es[i].value)) && forall j :: 0 <= j < |fs| ==> WellFormed(fs[j].value)
    ensures EachHasAlike(es, fs) <==> Within(RedactedEntries(fs), RedactedEntries(es))
    decreases es, 1
  {
    forall j | 0 <= j < |fs| ensures SomeAlikeTo(es, fs[j]) <==> RedactedEntries(fs)[j] in RedactedEntries(es) {
      SomeAlikeToIff(es, fs[j]);
    }
  }

  lemma {:induction false} AlikeMappings(es: seq<Entry>, fs: seq<Entry>)
    requires WellFormed(Mapping(es)) && WellFormed(Mapping(fs))
    ensures Alike(Mapping(es), Mapping(fs)) <==> forall e :: e in RedactedEntries(es) <==> e in RedactedEntries(fs)
    decreases es, 2
  {
    EveryAlikeToSomeIff(es, fs);
    SomeAlikeToEveryIff(es, fs);
    EachInOther(RedactedEntries(es), RedactedEntries(fs));
  }

  lemma EachInOther(a: seq<Entry>, b: seq<Entry>)
    ensures (forall e :: e in a <==> e in b) <==> Within(a, b) && Within(b, a)
  {
    forall i | 0 <= i < |a| ensures a[i] in a {}
    forall j | 0 <= j < |b| ensures b[j] in b {}
  }

  /** Two values redact to the same output exactly when they are alike: mapping order and secret values never
      show, and everything else does. */
  lemma {:induction false} RedactedAlikeIff(t: Tree, u: Tree)
    requires WellFormed(t) && WellFormed(u)
    ensures Redacted(t) == Redacted(u) <==> Alike(t, u)
    decreases t, 0
  {
    match (t, u)
    case (Mapping(es), Mapping(fs)) =>
      SortedEntriesEqualIff(es, fs);
      AlikeMappings(es, fs);
    case (Items(_, xs), Items(_, ys)) =>
      if |xs| == |ys| {
        forall i | 0 <= i < |xs| ensures Redacted(xs[i]) == Redacted(ys[i]) <==> Alike(xs[i], ys[i]) {
          RedactedAlikeIff(xs[i], ys[i]);
        }
        if forall i :: 0 <= i < |xs| ==> RedactedItems(xs)[i] == RedactedItems(ys)[i] {
          assert RedactedItems(xs) == RedactedItems(ys);
        }
      }
    case _ =>
  }

  /** A second pass changes nothing and counts the same. */
  lemma {:induction false} SecondPassIsFixed(t: Tree)
    requires WellFormed(t)
    ensures Redacted(Redacted(t)) == Redacted(t) && Count(Redacted(t)) == Count(t)
    decreases t
  {
    match t
    case Scalar(_) =>
    case Mapping(entries) =>
      SecondPassOnEntries(entries);
      SortCommutes(RedactedEntries(entries));
      SortAscends(RedactedEntries(entries));
      AscendingIsSorted(Sort(RedactedEntries(entries)));
    case Items(_, items) => SecondPassOnItems(items);
  }

  lemma {:induction false} SecondPassOnEntries(entries: seq<Entry>)
    requires forall i :: 0 <= i < |entries| ==> WellFormed(entries[i].value)
    ensures RedactedEntries(RedactedEntries(entries)) == RedactedEntries(entries)
    ensures CountEntries(RedactedEntries(entries)) == CountEntries(entries)
    decreases entries
  {
    if entries != [] {
      var k := |entries| - 1;
      assert entries[k].value < entries[k];
      SecondPassOnEntries(entries[..k]);
      SecondPassIsFixed(entries[k].value);
      assert RedactedEntries(entries)[..k] == RedactedEntries(entries[..k]);
    }
  }

  lemma {:induction false} SecondPassOnItems(items: seq<Tree>)
    requires forall i :: 0 <= i < |items| ==> WellFormed(items[i])
    ensures RedactedItems(RedactedItems(items)) == RedactedItems(items)
    ensures CountItems(RedactedItems(items)) == CountItems(items)
    decreases items
  {
    if items != [] {
      var k := |items| - 1;
      SecondPassOnItems(items[..k]);
      SecondPassIsFixed(items[k]);
      assert RedactedItems(items)[..k] == RedactedItems(items[..k]);
    }
  }

  /** Alike values redact to the same output with the same count. */
  lemma AlikeValuesShareOutputAndCount(t: Tree, u: Tree)
    requires WellFormed(t) && WellFormed(u) && Alike(t, u)
    ensures Redacted(t) == Redacted(u) && Count(t) == Count(u)
  {
    RedactedAlikeIff(t, u);
    SecondPassIsFixed(t);
    SecondPassIsFixed(u);
  }

  // ------------------------------------------------------ what is counted

  /** One key of the whole tree; nested when some key above it is sensitive. */
  datatype KeyUse = KeyUse(key: string, nested: bool)

  /** Every key at every depth, also below sensitive keys. */
  function AllKeys(t: Tree, nested: bool): seq<KeyUse>
    decreases t
  {
    match t
    case Scalar(_) => []
    case Mapping(entries) => KeysOfEntries(entries, nested)
    case Items(_, items) => KeysOfItems(items, nested)
  }

  function KeysOfEntries(entries: seq<Entry>, nested: bool): seq<KeyUse>
    decreases entries
  {
    if entries == [] then []
    else
      var e := entries[|entries| - 1];
      assert e.value < e;
      KeysOfEntries(entries[..|entries| - 1], nested)
      + [KeyUse(e.key, nested)] + AllKeys(e.value, nested || IsSensitive(e.key))
  }

  function KeysOfItems(items: seq<Tree>, nested: bool): seq<KeyUse>
    decreases items
  {
    if items == [] then []
    else KeysOfItems(items[..|items| - 1], nested) + AllKeys(items[|items| - 1], nested)
  }

  /** The sensitive keys not nested under another sensitive key. */
  function Outermost(uses: seq<KeyUse>): nat {
    if uses == [] then 0
    else
      var u := uses[|uses| - 1];
      Outermost(uses[..|uses| - 1]) + if IsSensitive(u.key) && !u.nested then 1 else 0
  }

  lemma {:induction false} OutermostConcat(a: seq<KeyUse>, b: seq<KeyUse>)
    ensures Outermost(a + b) == Outermost(a) + Outermost(b)
  {
    if b == [] {
      assert a + b == a;
    } else {
      OutermostConcat(a, b[..|b| - 1]);
      assert (a + b)[..|a + b| - 1] == a + b[..|b| - 1];
    }
  }

  /** The count is the number of sensitive keys not nested under another sensitive key. */
  lemma {:induction false} CountIsOutermost(t: Tree, nested: bool)
    ensures Outermost(AllKeys(t, nested)) == if nested then 0 else Count(t)
    decreases t
  {
    match t
    case Scalar(_) =>
    case Mapping(entries) => CountIsOutermostInEntries(entries, nested);
    case Items(_, items) => CountIsOutermostInItems(items, nested);
  }

  lemma {:induction false} CountIsOutermostInEntries(entries: seq<Entry>, nested: bool)
    ensures Outermost(KeysOfEntries(entries, nested)) == if nested then 0 else CountEntries(entries)
    decreases entries
  {
    if entries != [] {
      var e := entries[|entries| - 1];
      assert e.value < e;
      var (front, below) := (KeysOfEntries(entries[..|entries| - 1], nested), AllKeys(e.value, nested || IsSensitive(e.key)));
      CountIsOutermostInEntries(entries[..|entries| - 1], nested);
      CountIsOutermost(e.value, nested || IsSensitive(e.key));
      OutermostConcat(front + [KeyUse(e.key, nested)], below);
      assert (front + [KeyUse(e.key, nested)])[..|front|] == front;
    }
  }

  lemma {:induction false} CountIsOutermostInItems(items: seq<Tree>, nested: bool)
    ensures Outermost(KeysOfItems(items, nested)) == if nested then 0 else CountItems(items)
    decreases items
  {
    if items != [] {
      CountIsOutermostInItems(items[..|items| - 1], nested);
      CountIsOutermost(items[|items| - 1], nested);
      OutermostConcat(KeysOfItems(items[..|items| - 1], nested), AllKeys(items[|items| - 1], nested));
    }
  }

  // -------------------------------------------------------- replay classes

  datatype ReplayAttempt = ReplayAttempt(requestId: string, sideEffectLevel: nat, capability: string)

  datatype ReplayClass =
    | NoExecutionAttempt | ApprovalRequired | WorkerResultMissing | WorkerResultNotSucceeded
    | BrowserEnvironment | StatefulSideEffect | Deterministic

  function ClassifyReplay(attempts: seq<ReplayAttempt>, statuses: map<string, string>): ReplayClass {
    if attempts == [] then NoExecutionAttempt
    else if exists i :: 0 <= i < |attempts| && attempts[i].sideEffectLevel > 1 then ApprovalRequired
    else if exists i :: 0 <= i < |attempts| && attempts[i].requestId !in statuses then WorkerResultMissing
    else if exists i :: 0 <= i < |attempts| && statuses[attempts[i].requestId] != "SUCCEEDED" then WorkerResultNotSucceeded
    else if exists i :: 0 <= i < |attempts| && attempts[i].capability == "browser.page" then BrowserEnvironment
    else if exists i :: 0 <= i < |attempts| && attempts[i].sideEffectLevel > 0 then StatefulSideEffect
    else Deterministic
  }

  /** A replay is called deterministic exactly when something ran, and everything that ran succeeded,
      outside a browser, without side effects. */
  lemma DeterministicIff(attempts: seq<ReplayAttempt>, statuses: map<string, string>)
    ensures ClassifyReplay(attempts, statuses) == Deterministic
      <==> attempts != [] && forall i :: 0 <= i < |attempts| ==>
             && attempts[i].sideEffectLevel == 0 && attempts[i].capability != "browser.page"
             && attempts[i].requestId in statuses && statuses[attempts[i].requestId] == "SUCCEEDED"
  {
  }
}

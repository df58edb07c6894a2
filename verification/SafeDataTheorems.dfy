/** What the secret guard promises over every tree. */
module SafeDataTheorems {
  import opened Common
  import opened SafeData

  // ------------------------------------------------- rejection is complete

  /** The node reached by child indices, through any kinds of node. */
  function At(t: Tree, route: seq<nat>): Option<Tree> {
    if route == [] then Some(t)
    else match t
      case Mapping(entries) => if route[0] < |entries| then At(entries[route[0]].value, route[1..]) else None
      case Items(_, items) => if route[0] < |items| then At(items[route[0]], route[1..]) else None
      case _ => None
  }

  /** No mapping at the end of this route holds a secret. */
  ghost predicate ClearAt(t: Tree, route: seq<nat>) {
    At(t, route).Some? && At(t, route).value.Mapping? ==>
      forall e :: e in At(t, route).value.entries ==> !Secret(e)
  }

  predicate Clear(t: Tree) {
    match t
    case Mapping(entries) => forall i :: 0 <= i < |entries| ==> !Secret(entries[i]) && Clear(entries[i].value)
    case Items(_, items) => forall i :: 0 <= i < |items| ==> Clear(items[i])
    case _ => true
  }

  /** A set holds each element once. */
  predicate WellFormed(t: Tree) {
    match t
    case Mapping(entries) => forall i :: 0 <= i < |entries| ==> WellFormed(entries[i].value)
    case Items(kind, items) =>
      && (kind.SetKind? ==> forall i, j :: 0 <= i < j < |items| ==> items[i] != items[j])
      && forall i :: 0 <= i < |items| ==> WellFormed(items[i])
    case _ => true
  }

  lemma {:induction false} ClearIffEveryRoute(t: Tree)
    ensures Clear(t) <==> forall route :: ClearAt(t, route)
  {
    if Clear(t) {
      forall route ensures ClearAt(t, route) { ClearOnRoute(t, route); }
    } else {
      NotClearHasRoute(t);
    }
  }

  lemma {:induction false} ClearOnRoute(t: Tree, route: seq<nat>)
    requires Clear(t)
    ensures ClearAt(t, route)
    decreases |route|
  {
    if route != [] {
      match t
      case Mapping(entries) => if route[0] < |entries| { ClearOnRoute(entries[route[0]].value, route[1..]); }
      case Items(_, items) => if route[0] < |items| { ClearOnRoute(items[route[0]], route[1..]); }
      case _ =>
    }
  }

  lemma {:induction false} NotClearHasRoute(t: Tree)
    requires !Clear(t)
    ensures exists route :: !ClearAt(t, route)
    decreases t
  {
    match t
    case Mapping(entries) =>
      if i :| 0 <= i < |entries| && Secret(entries[i]) {
        assert At(t, []) == Some(t) && entries[i] in t.entries;
        assert !ClearAt(t, []);
      } else {
        var i :| 0 <= i < |entries| && !Clear(entries[i].value);
        NotClearHasRoute(entries[i].value);
        var rest: seq<nat> :| !ClearAt(entries[i].value, rest);
        Deeper(t, entries[i].value, i, rest);
      }
    case Items(_, items) =>
      var i :| 0 <= i < |items| && !Clear(items[i]);
      NotClearHasRoute(items[i]);
      var rest: seq<nat> :| !ClearAt(items[i], rest);
      Deeper(t, items[i], i, rest);
  }

  lemma Deeper(t: Tree, child: Tree, i: nat, rest: seq<nat>)
    requires !ClearAt(child, rest) && At(t, [i] + rest) == At(child, rest)
    ensures exists route :: !ClearAt(t, route)
  {
    assert !ClearAt(t, [i] + rest);
  }

  lemma {:induction false} NoPathsIffClear(t: Tree, path: Path)
    ensures Paths(t, path) == [] <==> Clear(t)
    decreases t
  {
    match t
    case Mapping(entries) => NoPathsIffClearEntries(entries, path);
    case Items(kind, items) => NoPathsIffClearItems(kind, items, path);
    case _ =>
  }

  lemma {:induction false} NoPathsIffClearEntries(entries: seq<Entry>, path: Path)
    ensures PathsInEntries(entries, path) == []
      <==> forall i :: 0 <= i < |entries| ==> !Secret(entries[i]) && Clear(entries[i].value)
    decreases entries
  {
    if entries != [] {
      var k := |entries| - 1;
      assert entries[k].value < entries[k];
      NoPathsIffClearEntries(entries[..k], path);
      NoPathsIffClear(entries[k].value, ChildPath(path, entries[k].key));
      EntriesStep(entries, k, path, false);
      assert entries[..k + 1] == entries;
    }
  }

  lemma {:induction false} NoPathsIffClearItems(kind: Kind, items: seq<Tree>, path: Path)
    ensures PathsInItems(kind, items, path) == [] <==> forall i :: 0 <= i < |items| ==> Clear(items[i])
    decreases items
  {
    if items != [] {
      var k := |items| - 1;
      NoPathsIffClearItems(kind, items[..k], path);
      NoPathsIffClear(items[k], ItemPath(path, kind, k));
      ItemsStep(kind, items, k, path, false);
      assert items[..k + 1] == items;
    }
  }

  lemma {:induction false} DistinctKeeps(items: seq<Tree>)
    requires forall i, j :: 0 <= i < j < |items| ==> items[i] != items[j]
    ensures Distinct(items) == items
  {
    if items != [] {
      DistinctKeeps(items[..|items| - 1]);
    }
  }

  lemma {:induction false} ClearIsKept(t: Tree, redact: bool)
    requires Clear(t) && WellFormed(t)
    ensures Clean(t, redact) == t
    decreases t
  {
    match t
    case Mapping(entries) => ClearEntriesAreKept(entries, redact);
    case Items(kind, items) =>
      ClearItemsAreKept(items, redact);
      if kind.SetKind? { DistinctKeeps(items); }
    case _ =>
  }

  lemma {:induction false} ClearEntriesAreKept(entries: seq<Entry>, redact: bool)
    requires forall i :: 0 <= i < |entries| ==> !Secret(entries[i]) && Clear(entries[i].value) && WellFormed(entries[i].value)
    ensures CleanEntries(entries, redact) == entries
    decreases entries
  {
    if entries != [] {
      var k := |entries| - 1;
      assert entries[k].value < entries[k];
      ClearEntriesAreKept(entries[..k], redact);
      ClearIsKept(entries[k].value, redact);
    }
  }

  lemma {:induction false} ClearItemsAreKept(items: seq<Tree>, redact: bool)
    requires forall i :: 0 <= i < |items| ==> Clear(items[i]) && WellFormed(items[i])
    ensures CleanItems(items, redact) == items
    decreases items
  {
    if items != [] {
      var k := |items| - 1;
      ClearItemsAreKept(items[..k], redact);
      ClearIsKept(items[k], redact);
    }
  }

  /** Rejection passes exactly when no mapping at any depth holds a secret, that is when the walk finds no
      path, and then it returns the payload as it was. */
  lemma RejectionIsExact(payload: Tree)
    requires WellFormed(payload)
    ensures Paths(payload, []) == [] <==> forall route :: ClearAt(payload, route)
    ensures Paths(payload, []) == [] ==> Clean(payload, false) == payload
  {
    NoPathsIffClear(payload, []);
    ClearIffEveryRoute(payload);
    if Clear(payload) { ClearIsKept(payload, false); }
  }

  // ------------------------------------------------------------- redaction

  /** Equal but for values under sensitive keys, where neither side is a safe reference. */
  predicate SameButSecrets(t: Tree, u: Tree) {
    match (t, u)
    case (Mapping(es), Mapping(fs)) =>
      |es| == |fs| && forall i :: 0 <= i < |es| ==>
        es[i].key == fs[i].key && Secret(es[i]) == Secret(fs[i]) && (!Secret(es[i]) ==> SameButSecrets(es[i].value, fs[i].value))
    case (Items(k, xs), Items(l, ys)) => k == l && |xs| == |ys| && forall i :: 0 <= i < |xs| ==> SameButSecrets(xs[i], ys[i])
    case _ => t == u
  }

  predicate SameEntry(e: Entry, f: Entry) {
    e.key == f.key && Secret(e) == Secret(f) && (!Secret(e) ==> SameButSecrets(e.value, f.value))
  }

  /** Secret values leave no trace: neither in what the pass returns, in either mode, nor in the paths it reports. */
  lemma {:induction false} SecretsDoNotInterfere(t: Tree, u: Tree, redact: bool, path: Path)
    requires SameButSecrets(t, u)
    ensures Clean(t, redact) == Clean(u, redact) && Paths(t, path) == Paths(u, path)
    decreases t
  {
    match (t, u)
    case (Mapping(es), Mapping(fs)) => SecretEntriesDoNotInterfere(es, fs, redact, path);
    case (Items(k, xs), Items(_, ys)) => SecretItemsDoNotInterfere(k, xs, ys, redact, path);
    case _ =>
  }

  lemma {:induction false} SecretEntriesDoNotInterfere(es: seq<Entry>, fs: seq<Entry>, redact: bool, path: Path)
    requires |es| == |fs| && forall i :: 0 <= i < |es| ==> SameEntry(es[i], fs[i])
    ensures CleanEntries(es, redact) == CleanEntries(fs, redact) && PathsInEntries(es, path) == PathsInEntries(fs, path)
    decreases es
  {
    if es != [] {
      var k := |es| - 1;
      assert es[k].value < es[k] && SameEntry(es[k], fs[k]);
      SecretEntriesDoNotInterfere(es[..k], fs[..k], redact, path);
      if !Secret(es[k]) { SecretsDoNotInterfere(es[k].value, fs[k].value, redact, ChildPath(path, es[k].key)); }
    }
  }

  lemma {:induction false} SecretItemsDoNotInterfere(kind: Kind, xs: seq<Tree>, ys: seq<Tree>, redact: bool, path: Path)
    requires |xs| == |ys| && forall i :: 0 <= i < |xs| ==> SameButSecrets(xs[i], ys[i])
    ensures CleanItems(xs, redact) == CleanItems(ys, redact) && PathsInItems(kind, xs, path) == PathsInItems(kind, ys, path)
    decreases xs
  {
    if xs != [] {
      var k := |xs| - 1;
      SecretItemsDoNotInterfere(kind, xs[..k], ys[..k], redact, path);
      SecretsDoNotInterfere(xs[k], ys[k], redact, ItemPath(path, kind, k));
    }
  }

  lemma {:induction false} RedactedEntry(entries: seq<Entry>, i: nat)
    requires i < |entries|
    ensures |CleanEntries(entries, true)| == |entries|
    ensures CleanEntries(entries, true)[i]
         == Entry(entries[i].key, if Secret(entries[i]) then Leaf(REDACTED) else Clean(entries[i].value, true))
    decreases |entries|
  {
    var k := |entries| - 1;
    if i < k {
      RedactedEntry(entries[..k], i);
    } else if k > 0 {
      RedactedEntry(entries[..k], 0);
    }
  }

  lemma {:induction false} CleanItemAt(items: seq<Tree>, redact: bool, i: nat)
    requires i < |items|
    ensures CleanItems(items, redact)[i] == Clean(items[i], redact)
    decreases |items|
  {
    var k := |items| - 1;
    if i < k { CleanItemAt(items[..k], redact, i); }
  }

  /** Sets hold each element once and no secrets. A set that holds a mapping cannot be rebuilt at all: it would hold a
      dictionary, which does not hash. */
  predicate SetsAreClear(t: Tree) {
    match t
    case Mapping(entries) => forall i :: 0 <= i < |entries| ==> SetsAreClear(entries[i].value)
    case Items(kind, items) =>
      if kind.SetKind? then Clear(t) && WellFormed(t) else forall i :: 0 <= i < |items| ==> SetsAreClear(items[i])
    case _ => true
  }

  lemma {:induction false} SameItself(t: Tree)
    ensures SameButSecrets(t, t)
  {
    match t
    case Mapping(entries) =>
      forall i | 0 <= i < |entries| ensures SameButSecrets(entries[i].value, entries[i].value) {
        assert entries[i].value < entries[i];
        SameItself(entries[i].value);
      }
    case Items(_, items) => forall i | 0 <= i < |items| ensures SameButSecrets(items[i], items[i]) { SameItself(items[i]); }
    case _ =>
  }

  /** And redaction hides nothing else: two trees redact alike exactly when they differ in secrets only. */
  lemma {:induction false} RedactionHidesOnlySecrets(t: Tree, u: Tree)
    requires SetsAreClear(t) && SetsAreClear(u)
    ensures Clean(t, true) == Clean(u, true) <==> SameButSecrets(t, u)
    decreases t
  {
    if SameButSecrets(t, u) {
      SecretsDoNotInterfere(t, u, true, []);
    } else {
      match (t, u)
      case (Mapping(es), Mapping(fs)) => DifferentEntriesShow(es, fs);
      case (Items(k, xs), Items(l, ys)) =>
        if k == l && k.SetKind? {
          DifferentSetsShow(t, u);
        } else if k == l {
          DifferentItemsShow(xs, ys);
        }
      case _ =>
    }
  }

  lemma DifferentSetsShow(t: Tree, u: Tree)
    requires Clear(t) && WellFormed(t) && Clear(u) && WellFormed(u) && !SameButSecrets(t, u)
    ensures Clean(t, true) != Clean(u, true)
  {
    ClearIsKept(t, true);
    ClearIsKept(u, true);
    SameItself(t);
  }

  lemma {:induction false} DifferentEntriesShow(es: seq<Entry>, fs: seq<Entry>)
    requires forall i :: 0 <= i < |es| ==> SetsAreClear(es[i].value)
    requires forall i :: 0 <= i < |fs| ==> SetsAreClear(fs[i].value)
    requires |es| != |fs| || exists i :: 0 <= i < |es| && !SameEntry(es[i], fs[i])
    ensures CleanEntries(es, true) != CleanEntries(fs, true)
    decreases es
  {
    if |es| != |fs| {
      if es != [] { RedactedEntry(es, 0); }
      if fs != [] { RedactedEntry(fs, 0); }
    } else {
      var i :| 0 <= i < |es| && !SameEntry(es[i], fs[i]);
      RedactedEntry(es, i);
      RedactedEntry(fs, i);
      assert es[i].value < es[i];
      RedactionHidesOnlySecrets(es[i].value, fs[i].value);
    }
  }

  lemma {:induction false} DifferentItemsShow(xs: seq<Tree>, ys: seq<Tree>)
    requires forall i :: 0 <= i < |xs| ==> SetsAreClear(xs[i])
    requires forall i :: 0 <= i < |ys| ==> SetsAreClear(ys[i])
    requires |xs| != |ys| || exists i :: 0 <= i < |xs| && !SameButSecrets(xs[i], ys[i])
    ensures CleanItems(xs, true) != CleanItems(ys, true)
    decreases xs
  {
    if |xs| == |ys| {
      var i :| 0 <= i < |xs| && !SameButSecrets(xs[i], ys[i]);
      CleanItemAt(xs, true, i);
      CleanItemAt(ys, true, i);
      RedactionHidesOnlySecrets(xs[i], ys[i]);
    }
  }

  /** No secret value anywhere: under a sensitive key there is the constant or a safe reference. */
  predicate Masked(t: Tree) {
    match t
    case Mapping(entries) => forall i :: 0 <= i < |entries| ==>
      if Secret(entries[i]) then entries[i].value == Leaf(REDACTED) else Masked(entries[i].value)
    case Items(_, items) => forall i :: 0 <= i < |items| ==> Masked(items[i])
    case _ => true
  }

  lemma {:induction false} DistinctIsASet(items: seq<Tree>)
    ensures forall x :: x in Distinct(items) ==> x in items
    ensures forall i, j :: 0 <= i < j < |Distinct(items)| ==> Distinct(items)[i] != Distinct(items)[j]
  {
    if items != [] { DistinctIsASet(items[..|items| - 1]); }
  }

  /** Redacted output is masked, and its sets are sets again. */
  lemma {:induction false} RedactionMasks(t: Tree)
    ensures Masked(Clean(t, true)) && (WellFormed(t) ==> WellFormed(Clean(t, true)))
    decreases t
  {
    match t
    case Mapping(entries) =>
      forall i | 0 <= i < |CleanEntries(entries, true)|
        ensures var e := CleanEntries(entries, true)[i];
                && (if Secret(e) then e.value == Leaf(REDACTED) else Masked(e.value))
                && (WellFormed(t) ==> WellFormed(e.value))
      {
        if entries != [] { RedactedEntry(entries, 0); }
        RedactedEntry(entries, i);
        assert entries[i].value < entries[i];
        RedactionMasks(entries[i].value);
      }
    case Items(kind, items) =>
      var cleaned := CleanItems(items, true);
      DistinctIsASet(cleaned);
      forall x | x in Rebuilt(kind, cleaned) ensures Masked(x) && (WellFormed(t) ==> WellFormed(x)) {
        var i :| 0 <= i < |cleaned| && cleaned[i] == x;
        CleanItemAt(items, true, i);
        RedactionMasks(items[i]);
      }
    case _ =>
  }

  /** Redaction is the identity exactly on masked trees. */
  lemma {:induction false} MaskedIffFixed(t: Tree)
    requires WellFormed(t)
    ensures Clean(t, true) == t <==> Masked(t)
  {
    RedactionMasks(t);
    if Masked(t) { MaskedIsKept(t); }
  }

  lemma {:induction false} MaskedIsKept(t: Tree)
    requires Masked(t) && WellFormed(t)
    ensures Clean(t, true) == t
    decreases t
  {
    match t
    case Mapping(entries) =>
      forall i | 0 <= i < |entries|
        ensures |CleanEntries(entries, true)| == |entries| && CleanEntries(entries, true)[i] == entries[i]
      {
        RedactedEntry(entries, i);
        assert entries[i].value < entries[i];
        if !Secret(entries[i]) { MaskedIsKept(entries[i].value); }
      }
      assert entries != [] ==> |CleanEntries(entries, true)| == |entries|;
      assert CleanEntries(entries, true) == entries;
    case Items(kind, items) =>
      forall i | 0 <= i < |items| ensures CleanItems(items, true)[i] == items[i] {
        CleanItemAt(items, true, i);
        MaskedIsKept(items[i]);
      }
      assert CleanItems(items, true) == items;
      if kind.SetKind? { DistinctKeeps(items); }
    case _ =>
  }

  /** Redacting twice is redacting once. */
  lemma RedactionIsIdempotent(t: Tree)
    requires WellFormed(t)
    ensures Clean(Clean(t, true), true) == Clean(t, true)
  {
    RedactionMasks(t);
    MaskedIsKept(Clean(t, true));
  }
}

/** The shared secret guard: one recursive pass that walks, rejects or redacts sensitive keys. */
module SafeData {
  import opened Common

  const REDACTED: string := "[REDACTED]"

  const SENSITIVE_KEYS: set<string> := {
    "authorization", "proxy_authorization", "api_key", "apikey", "access_token", "refresh_token", "token", "secret",
    "password", "cookie", "set_cookie", "session", "client_secret", "session_token", "raw_secret", "secret_value",
    "credential", "openai_api_key", "anthropic_api_key"
  }

  /** A mapping key: a string, or any other object, known by its text. */
  datatype Key = StringKey(name: string) | OtherKey(text: string)

  datatype Kind = ListKind | TupleKind | SetKind

  /** A payload: scalars, safe references, mappings in insertion order, and the three sequence kinds. */
  datatype Tree =
    | Leaf(text: string)
    | SafeRef(name: string)
    | Mapping(entries: seq<Entry>)
    | Items(kind: Kind, items: seq<Tree>)

  datatype Entry = Entry(key: Key, value: Tree)

  // ------------------------------------------------------------------ keys

  predicate IsSpace(c: char) {
    c in {' ', '\t', '\n', '\r'}
  }

  function StripLeft(s: string): string {
    if s != [] && IsSpace(s[0]) then StripLeft(s[1..]) else s
  }

  function StripRight(s: string): string {
    if s != [] && IsSpace(s[|s| - 1]) then StripRight(s[..|s| - 1]) else s
  }

  function Fold(c: char): char {
    if 'A' <= c <= 'Z' then c - 'A' + 'a' else if c == '-' then '_' else c
  }

  function Normalize(key: Key): string {
    match key
    case StringKey(name) =>
      var stripped := StripRight(StripLeft(name));
      seq(|stripped|, i requires 0 <= i < |stripped| => Fold(stripped[i]))
    case OtherKey(_) => ""
  }

  predicate IsSensitive(key: Key) {
    Normalize(key) in SENSITIVE_KEYS
  }

  /** The entry carries a secret: a sensitive key whose value is not a safe reference. */
  predicate Secret(entry: Entry) {
    IsSensitive(entry.key) && !entry.value.SafeRef?
  }

  function KeyText(key: Key): string {
    match key
    case StringKey(name) => name
    case OtherKey(text) => text
  }

  // -------------------------------------------------------------- the pass

  /** Where a node sits below the payload; rendered as dotted text when it is reported. */
  datatype Segment = KeySegment(text: string) | IndexSegment(index: nat) | MemberSegment

  type Path = seq<Segment>

  function ChildPath(path: Path, key: Key): Path {
    path + [KeySegment(KeyText(key))]
  }

  function ItemPath(path: Path, kind: Kind, index: nat): Path {
    path + [if kind.SetKind? then MemberSegment else IndexSegment(index)]
  }

  function Render(root: string, path: Path): string {
    if path == [] then root
    else
      var front := Render(root, path[..|path| - 1]);
      match path[|path| - 1]
      case KeySegment(text) => if front == "" then text else front + "." + text
      case IndexSegment(index) => front + "[" + Decimal(index) + "]"
      case MemberSegment => front + "[]"
  }

  function RenderAll(root: string, paths: seq<Path>): seq<string> {
    seq(|paths|, i requires 0 <= i < |paths| => Render(root, paths[i]))
  }

  function RenderedSet(root: string, paths: seq<Path>): set<string> {
    set p | p in RenderAll(root, paths)
  }

  /** A rebuilt set holds each element once. */
  function Distinct(items: seq<Tree>): seq<Tree> {
    if items == [] then []
    else
      var rest := Distinct(items[..|items| - 1]);
      if items[|items| - 1] in rest then rest else rest + [items[|items| - 1]]
  }

  function Rebuilt(kind: Kind, items: seq<Tree>): seq<Tree> {
    if kind.SetKind? then Distinct(items) else items
  }

  /** What the pass returns: secrets dropped, or replaced by the constant. */
  function Clean(t: Tree, redact: bool): Tree
    decreases t
  {
    match t
    case Leaf(_) => t
    case SafeRef(_) => t
    case Mapping(entries) => Mapping(CleanEntries(entries, redact))
    case Items(kind, items) => Items(kind, Rebuilt(kind, CleanItems(items, redact)))
  }

  function CleanEntries(entries: seq<Entry>, redact: bool): seq<Entry>
    decreases entries
  {
    if entries == [] then []
    else
      var e := entries[|entries| - 1];
      assert e.value < e;
      CleanEntries(entries[..|entries| - 1], redact)
      + if !Secret(e) then [Entry(e.key, Clean(e.value, redact))]
        else if redact then [Entry(e.key, Leaf(REDACTED))]
        else []
  }

  function CleanItems(items: seq<Tree>, redact: bool): (cleaned: seq<Tree>)
    ensures |cleaned| == |items|
    decreases items
  {
    if items == [] then []
    else CleanItems(items[..|items| - 1], redact) + [Clean(items[|items| - 1], redact)]
  }

  /** The dotted paths of the secrets, in walking order. */
  function Paths(t: Tree, path: Path): seq<Path>
    decreases t
  {
    match t
    case Leaf(_) => []
    case SafeRef(_) => []
    case Mapping(entries) => PathsInEntries(entries, path)
    case Items(kind, items) => PathsInItems(kind, items, path)
  }

  function PathsInEntries(entries: seq<Entry>, path: Path): seq<Path>
    decreases entries
  {
    if entries == [] then []
    else
      var e := entries[|entries| - 1];
      assert e.value < e;
      PathsInEntries(entries[..|entries| - 1], path)
      + if Secret(e) then [ChildPath(path, e.key)] else Paths(e.value, ChildPath(path, e.key))
  }

  function PathsInItems(kind: Kind, items: seq<Tree>, path: Path): seq<Path>
    decreases items
  {
    if items == [] then []
    else
      PathsInItems(kind, items[..|items| - 1], path)
      + Paths(items[|items| - 1], ItemPath(path, kind, |items| - 1))
  }

  // ------------------------------------------------------- the object code

  class Findings {
    var paths: seq<Path>

    constructor ()
      ensures paths == []
    {
      paths := [];
    }
  }

  method CollectSensitive(value: Tree, path: Path, found: Findings, redact: bool) returns (cleaned: Tree)
    modifies found
    ensures cleaned == Clean(value, redact)
    ensures found.paths == old(found.paths) + Paths(value, path)
    decreases value
  {
    match value
    case Leaf(_) => cleaned := value;
    case SafeRef(_) => cleaned := value;
    case Mapping(entries) =>
      var kept := CollectEntries(entries, path, found, redact);
      cleaned := Mapping(kept);
    case Items(kind, items) =>
      var kept := CollectItems(kind, items, path, found, redact);
      cleaned := Items(kind, Rebuilt(kind, kept));
  }

  method CollectEntries(entries: seq<Entry>, path: Path, found: Findings, redact: bool) returns (kept: seq<Entry>)
    modifies found
    ensures kept == CleanEntries(entries, redact)
    ensures found.paths == old(found.paths) + PathsInEntries(entries, path)
    decreases entries
  {
    kept := [];
    ghost var (start, seen) := (found.paths, []);
    for i := 0 to |entries|
      invariant kept == CleanEntries(entries[..i], redact)
      invariant found.paths == start + seen && seen == PathsInEntries(entries[..i], path)
    {
      EntriesStep(entries, i, path, redact);
      var e := entries[i];
      assert e.value < e;
      var childPath := ChildPath(path, e.key);
      ghost var more := if Secret(e) then [childPath] else Paths(e.value, childPath);
      assert start + (seen + more) == (start + seen) + more;
      if IsSensitive(e.key) && !e.value.SafeRef? {
        found.paths := found.paths + [childPath];
        if redact {
          kept := kept + [Entry(e.key, Leaf(REDACTED))];
        }
      } else {
        var child := CollectSensitive(e.value, childPath, found, redact);
        kept := kept + [Entry(e.key, child)];
      }
      seen := seen + more;
    }
    assert entries[..|entries|] == entries;
  }

  lemma EntriesStep(entries: seq<Entry>, i: nat, path: Path, redact: bool)
    requires i < |entries|
    ensures CleanEntries(entries[..i + 1], redact) == CleanEntries(entries[..i], redact)
              + if !Secret(entries[i]) then [Entry(entries[i].key, Clean(entries[i].value, redact))]
                else if redact then [Entry(entries[i].key, Leaf(REDACTED))]
                else []
    ensures PathsInEntries(entries[..i + 1], path) == PathsInEntries(entries[..i], path)
              + if Secret(entries[i]) then [ChildPath(path, entries[i].key)]
                else Paths(entries[i].value, ChildPath(path, entries[i].key))
  {
    assert entries[..i + 1][..i] == entries[..i];
  }

  lemma ItemsStep(kind: Kind, items: seq<Tree>, i: nat, path: Path, redact: bool)
    requires i < |items|
    ensures CleanItems(items[..i + 1], redact) == CleanItems(items[..i], redact) + [Clean(items[i], redact)]
    ensures PathsInItems(kind, items[..i + 1], path)
         == PathsInItems(kind, items[..i], path) + Paths(items[i], ItemPath(path, kind, i))
  {
    assert items[..i + 1][..i] == items[..i];
  }

  method CollectItems(kind: Kind, items: seq<Tree>, path: Path, found: Findings, redact: bool) returns (kept: seq<Tree>)
    modifies found
    ensures kept == CleanItems(items, redact)
    ensures found.paths == old(found.paths) + PathsInItems(kind, items, path)
    decreases items
  {
    kept := [];
    ghost var (start, seen) := (found.paths, []);
    for i := 0 to |items|
      invariant kept == CleanItems(items[..i], redact)
      invariant found.paths == start + seen && seen == PathsInItems(kind, items[..i], path)
    {
      ItemsStep(kind, items, i, path, redact);
      ghost var more := Paths(items[i], ItemPath(path, kind, i));
      var child := CollectSensitive(items[i], ItemPath(path, kind, i), found, redact);
      assert start + (seen + more) == (start + seen) + more;
      seen := seen + more;
      kept := kept + [child];
    }
    assert items[..|items|] == items;
  }

  method WalkSensitiveKeys(value: Tree, root: string) returns (found: seq<string>)
    ensures found == RenderAll(root, Paths(value, []))
  {
    var list := new Findings();
    var _ := CollectSensitive(value, [], list, false);
    found := RenderAll(root, list.paths);
  }

  datatype Rejection = Passed(payload: Tree) | SecretMaterial(paths: set<string>)

  /** Fail closed: the error names the paths, never a value. */
  method RejectSecretKeys(payload: Tree, field: string) returns (r: Rejection)
    ensures r == if Paths(payload, []) == [] then Passed(Clean(payload, false))
                 else SecretMaterial(RenderedSet(field, Paths(payload, [])))
  {
    var list := new Findings();
    var cleaned := CollectSensitive(payload, [], list, false);
    assert list.paths == Paths(payload, []);
    if list.paths != [] {
      return SecretMaterial(RenderedSet(field, list.paths));
    }
    return Passed(cleaned);
  }

  method RedactSecretKeys(payload: Tree) returns (redacted: Tree)
    ensures redacted == Clean(payload, true)
  {
    var list := new Findings();
    redacted := CollectSensitive(payload, [], list, true);
  }
}

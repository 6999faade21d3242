/** Unknown configuration keys: the walk over a document that reports them, and
    the lookup that says whether a single path is known. A path is a sequence of
    keys; `JoinCutsAtLastDot` relates it to the dotted string of the source. */
module ConfigKeys {
  import opened Wrappers

  type Key = string
  type Path = seq<Key>

  /** The passthrough and schema tables; the flag says whether the walk goes on
      below the path. */
  datatype Tables = Tables(passthrough: map<Path, bool>, schema: map<Path, bool>) {
    predicate Has(p: Path) { p in passthrough || p in schema }

    /** The walk looks below `p`. */
    predicate Descends(p: Path) {
      if p in passthrough then passthrough[p] else p in schema && schema[p]
    }

    /** The walk knows `p` and does not look below it. */
    predicate Stops(p: Path) {
      if p in passthrough then !passthrough[p] else p in schema && !schema[p]
    }
  }

  // ------------------------------------------------------------------- the lookup

  /** What the loop finds among the proper prefixes of `p`, longest first. */
  function Decided(t: Tables, p: Path): Option<bool> {
    if |p| <= 1 then None
    else
      var q := p[..|p|-1];
      if q in t.passthrough then Some(!t.passthrough[q])
      else if q in t.schema && !t.schema[q] then Some(true)
      else Decided(t, q)
  }

  predicate IsKnown(t: Tables, p: Path) {
    p in t.passthrough || (var d := Decided(t, p); if d.Some? then d.value else p in t.schema)
  }

  /** `IsKnownManagedKey`. */
  method IsKnownManagedKey(t: Tables, path: Path) returns (known: bool)
    ensures known == IsKnown(t, path)
  {
    if path in t.passthrough {
      return true;
    }
    var prefix := path;
    while |prefix| > 1
      invariant Decided(t, path) == Decided(t, prefix)
    {
      prefix := prefix[..|prefix|-1];
      if prefix in t.passthrough {
        return !t.passthrough[prefix];
      }
      if prefix in t.schema && !t.schema[prefix] {
        return true;
      }
    }
    return path in t.schema;
  }

  // --------------------------------------------------------------------- the walk

  /** A YAML document: scalars, mappings and sequences. */
  datatype Node = Scalar | Mapping(entries: Entries) | Sequence(items: Items)
  datatype Entries = NoEntries | Entry(key: Key, value: Node, rest: Entries)
  datatype Items = NoItems | Item(head: Node, tail: Items)

  datatype UnknownKey = UnknownKey(path: Path, children: seq<Key>)

  function ChildKeys(es: Entries): seq<Key> {
    match es
    case NoEntries => []
    case Entry(key, _, rest) => (if key == "" then [] else [key]) + ChildKeys(rest)
  }

  function ChildrenOf(node: Node): seq<Key> {
    if node.Mapping? then ChildKeys(node.entries) else []
  }

  function Unknowns(t: Tables, node: Node, prefix: Path): seq<UnknownKey> {
    match node
    case Scalar => []
    case Mapping(es) => UnknownEntries(t, es, prefix)
    case Sequence(items) => UnknownItems(t, items, prefix)
  }

  function UnknownItems(t: Tables, items: Items, prefix: Path): seq<UnknownKey> {
    match items
    case NoItems => []
    case Item(head, tail) => Unknowns(t, head, prefix) + UnknownItems(t, tail, prefix)
  }

  function UnknownEntries(t: Tables, es: Entries, prefix: Path): seq<UnknownKey> {
    match es
    case NoEntries => []
    case Entry(key, value, rest) =>
      var path := prefix + [key];
      (if key == "" then []
       else if path in t.passthrough then (if t.passthrough[path] then Unknowns(t, value, path) else [])
       else if path !in t.schema then [UnknownKey(path, ChildrenOf(value))]
       else if t.schema[path] then Unknowns(t, value, path)
       else []) + UnknownEntries(t, rest, prefix)
  }

  /** `collectUnknownNode`, appending to `out`. */
  method CollectUnknownNode(t: Tables, node: Node, prefix: Path, out: seq<UnknownKey>) returns (r: seq<UnknownKey>)
    ensures r == out + Unknowns(t, node, prefix)
    decreases node
  {
    match node
    case Scalar => r := out;
    case Mapping(es) => r := CollectUnknown(t, es, prefix, out);
    case Sequence(items) =>
      r := out;
      var left := items;
      while left.Item?
        invariant r + UnknownItems(t, left, prefix) == out + UnknownItems(t, items, prefix)
        invariant left == items || left < items
        decreases left
      {
        var before := r;
        r := CollectUnknownNode(t, left.head, prefix, r);
        assert before + UnknownItems(t, left, prefix) == r + UnknownItems(t, left.tail, prefix);
        left := left.tail;
      }
  }

  /** `collectUnknown` over the entries of one mapping. */
  method CollectUnknown(t: Tables, es: Entries, prefix: Path, out: seq<UnknownKey>) returns (r: seq<UnknownKey>)
    ensures r == out + UnknownEntries(t, es, prefix)
    decreases es
  {
    r := out;
    var left := es;
    while left.Entry?
      invariant r + UnknownEntries(t, left, prefix) == out + UnknownEntries(t, es, prefix)
      invariant left == es || left < es
      decreases left
    {
      var before, path := r, prefix + [left.key];
      if left.key != "" {
        if path in t.passthrough {
          if t.passthrough[path] {
            r := CollectUnknownNode(t, left.value, path, r);
          }
        } else if path !in t.schema {
          r := r + [UnknownKey(path, ChildrenOf(left.value))];
        } else if t.schema[path] {
          r := CollectUnknownNode(t, left.value, path, r);
        }
      }
      assert before + UnknownEntries(t, left, prefix) == r + UnknownEntries(t, left.rest, prefix);
      left := left.rest;
    }
  }

  /** The keys `ks` occur nested in the document. */
  predicate Occurs(node: Node, ks: Path)
    decreases node, 1
  {
    ks == [] ||
    match node
    case Scalar => false
    case Mapping(es) => OccursEntries(es, ks)
    case Sequence(items) => OccursItems(items, ks)
  }

  predicate OccursItems(items: Items, ks: Path)
    decreases items, 0
  {
    items.Item? && (Occurs(items.head, ks) || OccursItems(items.tail, ks))
  }

  predicate OccursEntries(es: Entries, ks: Path)
    requires ks != []
    decreases es, 0
  {
    es.Entry? && ((es.key == ks[0] && Occurs(es.value, ks[1..])) || OccursEntries(es.rest, ks))
  }

  /** The walk, following `ks` down from `prefix`, reports this path. */
  function ReportOn(t: Tables, prefix: Path, ks: Path): Option<Path>
    decreases |ks|
  {
    if ks == [] then None
    else
      var path := prefix + [ks[0]];
      if t.Descends(path) then ReportOn(t, path, ks[1..])
      else if t.Has(path) then None
      else Some(path)
  }

  predicate Reports(us: seq<UnknownKey>, path: Path) {
    exists i :: 0 <= i < |us| && us[i].path == path
  }

  lemma ReportsConcat(a: seq<UnknownKey>, b: seq<UnknownKey>, path: Path)
    ensures Reports(a + b, path) <==> Reports(a, path) || Reports(b, path)
  {
    if i :| 0 <= i < |a| && a[i].path == path {
      assert (a + b)[i].path == path;
    }
    if i :| 0 <= i < |b| && b[i].path == path {
      assert (a + b)[|a| + i].path == path;
    }
  }

  ghost predicate Named(ks: Path) {
    forall i | 0 <= i < |ks| :: ks[i] != ""
  }

  /** Whatever the walk would report on the way to a path that occurs in the
      document is in its output. */
  lemma {:induction false} WalkReportsAll(t: Tables, node: Node, prefix: Path, ks: Path)
    requires Occurs(node, ks) && Named(ks) && ReportOn(t, prefix, ks).Some?
    ensures Reports(Unknowns(t, node, prefix), ReportOn(t, prefix, ks).value)
    decreases node, 1
  {
    match node
    case Scalar =>
    case Mapping(es) => EntriesReportAll(t, es, prefix, ks);
    case Sequence(items) => ItemsReportAll(t, items, prefix, ks);
  }

  lemma {:induction false} ItemsReportAll(t: Tables, items: Items, prefix: Path, ks: Path)
    requires ks != [] && OccursItems(items, ks) && Named(ks) && ReportOn(t, prefix, ks).Some?
    ensures Reports(UnknownItems(t, items, prefix), ReportOn(t, prefix, ks).value)
    decreases items, 0
  {
    ReportsConcat(Unknowns(t, items.head, prefix), UnknownItems(t, items.tail, prefix), ReportOn(t, prefix, ks).value);
    if Occurs(items.head, ks) {
      WalkReportsAll(t, items.head, prefix, ks);
    } else {
      ItemsReportAll(t, items.tail, prefix, ks);
    }
  }

  /** What one entry contributes. */
  function EntryUnknowns(t: Tables, key: Key, value: Node, prefix: Path): seq<UnknownKey> {
    var path := prefix + [key];
    if key == "" then []
    else if t.Descends(path) then Unknowns(t, value, path)
    else if t.Has(path) then []
    else [UnknownKey(path, ChildrenOf(value))]
  }

  lemma EntriesSplit(t: Tables, es: Entries, prefix: Path, path: Path)
    requires es.Entry?
    ensures UnknownEntries(t, es, prefix) == EntryUnknowns(t, es.key, es.value, prefix) + UnknownEntries(t, es.rest, prefix)
    ensures Reports(UnknownEntries(t, es, prefix), path) <==>
            Reports(EntryUnknowns(t, es.key, es.value, prefix), path) || Reports(UnknownEntries(t, es.rest, prefix), path)
  {
    ReportsConcat(EntryUnknowns(t, es.key, es.value, prefix), UnknownEntries(t, es.rest, prefix), path);
  }

  lemma {:induction false} EntriesReportAll(t: Tables, es: Entries, prefix: Path, ks: Path)
    requires ks != [] && OccursEntries(es, ks) && Named(ks) && ReportOn(t, prefix, ks).Some?
    ensures Reports(UnknownEntries(t, es, prefix), ReportOn(t, prefix, ks).value)
    decreases es, 0
  {
    var path := ReportOn(t, prefix, ks).value;
    EntriesSplit(t, es, prefix, path);
    if es.key == ks[0] && Occurs(es.value, ks[1..]) {
      var below := prefix + [ks[0]];
      if t.Descends(below) {
        WalkReportsAll(t, es.value, below, ks[1..]);
      } else {
        assert EntryUnknowns(t, es.key, es.value, prefix)[0].path == path;
      }
    } else {
      EntriesReportAll(t, es.rest, prefix, ks);
    }
  }

  /** Everything in its output is reported on the way to some path that occurs
      in the document. */
  lemma {:induction false} WalkReportsOnly(t: Tables, node: Node, prefix: Path, path: Path) returns (ks: Path)
    requires Reports(Unknowns(t, node, prefix), path)
    ensures ks != [] && Occurs(node, ks) && Named(ks) && ReportOn(t, prefix, ks) == Some(path)
    decreases node, 1
  {
    match node
    case Mapping(es) => ks := EntriesReportOnly(t, es, prefix, path);
    case Sequence(items) => ks := ItemsReportOnly(t, items, prefix, path);
  }

  lemma {:induction false} ItemsReportOnly(t: Tables, items: Items, prefix: Path, path: Path) returns (ks: Path)
    requires Reports(UnknownItems(t, items, prefix), path)
    ensures ks != [] && OccursItems(items, ks) && Named(ks) && ReportOn(t, prefix, ks) == Some(path)
    decreases items, 0
  {
    ReportsConcat(Unknowns(t, items.head, prefix), UnknownItems(t, items.tail, prefix), path);
    if Reports(Unknowns(t, items.head, prefix), path) {
      ks := WalkReportsOnly(t, items.head, prefix, path);
    } else {
      ks := ItemsReportOnly(t, items.tail, prefix, path);
    }
  }

  lemma {:induction false} EntriesReportOnly(t: Tables, es: Entries, prefix: Path, path: Path) returns (ks: Path)
    requires Reports(UnknownEntries(t, es, prefix), path)
    ensures ks != [] && OccursEntries(es, ks) && Named(ks) && ReportOn(t, prefix, ks) == Some(path)
    decreases es, 0
  {
    EntriesSplit(t, es, prefix, path);
    if Reports(EntryUnknowns(t, es.key, es.value, prefix), path) {
      var below := prefix + [es.key];
      if t.Descends(below) {
        var rest := WalkReportsOnly(t, es.value, below, path);
        ks := [es.key] + rest;
        assert ks[1..] == rest;
      } else {
        ks := [es.key];
        assert ks[1..] == [];
      }
    } else {
      ks := EntriesReportOnly(t, es.rest, prefix, path);
    }
  }
}

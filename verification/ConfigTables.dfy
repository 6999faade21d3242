/** When the lookup of a single path agrees with the walk over a document: the
    exact condition on the two tables, and that the shipped tables meet it. */
module ConfigTables {
  import opened Wrappers
  import opened ConfigKeys

  /** All non-empty prefixes of `p`, itself included, are walked into. */
  predicate AllDescend(t: Tables, p: Path) {
    p == [] || (t.Descends(p) && AllDescend(t, p[..|p|-1]))
  }

  /** The walk reports `p` or one of its prefixes. */
  predicate Reported(t: Tables, p: Path) {
    p != [] && (Reported(t, p[..|p|-1]) || (AllDescend(t, p[..|p|-1]) && !t.Has(p)))
  }

  /** Some proper prefix is known but not walked into. */
  predicate StopAbove(t: Tables, p: Path) {
    |p| >= 2 && (t.Stops(p[..|p|-1]) || StopAbove(t, p[..|p|-1]))
  }

  /** The walk reports something on the way to `done + ks` exactly when one of
      its prefixes is reported, and then it is such a prefix. */
  lemma {:induction false} ReportOnExtends(t: Tables, done: Path, ks: Path)
    requires AllDescend(t, done)
    ensures ReportOn(t, done, ks).Some? <==> Reported(t, done + ks)
    ensures ReportOn(t, done, ks).Some? ==> ReportOn(t, done, ks).value <= done + ks
    decreases |ks|
  {
    DescendingIsUnreported(t, done);
    if ks == [] {
      assert done + ks == done;
    } else {
      var path := done + [ks[0]];
      assert path[..|path|-1] == done;
      assert path + ks[1..] == done + ks;
      if t.Descends(path) {
        ReportOnExtends(t, path, ks[1..]);
      } else {
        Decisive(t, path, done + ks);
      }
    }
  }

  /** What the walk reports is the first unknown path on the way. */
  lemma {:induction false} FirstUnknownIsReported(t: Tables, done: Path, ks: Path, q: Path)
    requires AllDescend(t, done) && done < q && q <= done + ks
    requires AllDescend(t, q[..|q|-1]) && !t.Has(q)
    ensures ReportOn(t, done, ks) == Some(q)
    decreases |ks|
  {
    var path := done + [ks[0]];
    assert path[..|path|-1] == done;
    assert path + ks[1..] == done + ks;
    assert q[..|done| + 1] == path;
    if |q| == |done| + 1 {
      assert q == path;
    } else {
      assert path <= q[..|q|-1];
      DescendBelow(t, q[..|q|-1], path);
      FirstUnknownIsReported(t, path, ks[1..], q);
    }
  }

  lemma {:induction false} DescendingIsUnreported(t: Tables, p: Path)
    requires AllDescend(t, p)
    ensures !Reported(t, p)
  {
    if p != [] {
      DescendingIsUnreported(t, p[..|p|-1]);
    }
  }

  lemma {:induction false} DescendBelow(t: Tables, q: Path, p: Path)
    requires AllDescend(t, q) && p <= q && p != []
    ensures t.Descends(p)
  {
    if q != p {
      assert p <= q[..|q|-1];
      DescendBelow(t, q[..|q|-1], p);
    }
  }

  /** Where the walk stops is decided once and for all. */
  lemma {:induction false} Decisive(t: Tables, p: Path, q: Path)
    requires p != [] && p <= q && !t.Descends(p)
    ensures Reported(t, q) <==> Reported(t, p)
    ensures !AllDescend(t, q)
    decreases |q|
  {
    if q == p {
    } else {
      assert p <= q[..|q|-1];
      Decisive(t, p, q[..|q|-1]);
    }
  }

  // ------------------------------------------------------------ the condition

  /** A table key's parent is a table key. */
  ghost predicate Closed(t: Tables) {
    && [] !in t.passthrough && [] !in t.schema
    && forall p | t.Has(p) && |p| >= 2 :: t.Has(p[..|p|-1])
  }

  /** No key that is only in the schema has a descending passthrough key as its
      nearest deciding prefix. */
  ghost predicate NoSchemaUnderDescending(t: Tables) {
    forall p | p in t.schema && p !in t.passthrough :: Decided(t, p) != Some(false)
  }

  /** No descending passthrough key lies below a key the walk stops at. */
  ghost predicate NoDescendingUnderStop(t: Tables) {
    forall p | p in t.passthrough && t.passthrough[p] :: !StopAbove(t, p)
  }

  lemma {:induction false} KeysAreUnreported(t: Tables, p: Path)
    requires Closed(t) && t.Has(p)
    ensures !Reported(t, p)
    ensures AllDescend(t, p) <==> !t.Stops(p) && !StopAbove(t, p)
    decreases |p|
  {
    if |p| >= 2 {
      KeysAreUnreported(t, p[..|p|-1]);
    } else {
      assert p[..|p|-1] == [];
    }
  }

  lemma {:induction false} UnknownIsReportedUnlessStopped(t: Tables, p: Path)
    requires Closed(t) && p != [] && !t.Has(p)
    ensures Reported(t, p) <==> !StopAbove(t, p)
    decreases |p|
  {
    var q := p[..|p|-1];
    if q == [] {
    } else if t.Has(q) {
      KeysAreUnreported(t, q);
    } else {
      UnknownIsReportedUnlessStopped(t, q);
    }
  }

  lemma {:induction false} DecidedMeansStopped(t: Tables, p: Path)
    requires NoDescendingUnderStop(t)
    ensures Decided(t, p) == Some(true) <==> StopAbove(t, p)
    decreases |p|
  {
    if |p| >= 2 {
      DecidedMeansStopped(t, p[..|p|-1]);
    }
  }

  function LastLength(p: Path): nat {
    if p == [] then 0 else |p[|p|-1]|
  }

  /** A bound on the last keys of a finite set of paths. */
  lemma {:induction false} LastKeyBound(paths: set<Path>) returns (n: nat)
    ensures forall p | p in paths :: LastLength(p) < n
  {
    if paths == {} {
      n := 0;
    } else {
      var p :| p in paths;
      n := LastKeyBound(paths - {p});
      if LastLength(p) >= n {
        n := LastLength(p) + 1;
      }
      assert forall q | q in paths :: q == p || q in paths - {p};
    }
  }

  lemma FreshChild(t: Tables, q: Path) returns (key: Key)
    ensures !t.Has(q + [key]) && key != ""
  {
    var n := LastKeyBound(t.passthrough.Keys + t.schema.Keys);
    key := seq(n + 1, _ => 'x');
    assert LastLength(q + [key]) == n + 1;
  }

  /** A single path is reported. */
  ghost predicate Agrees(t: Tables, p: Path) {
    ReportOn(t, [], p).Some? <==> !IsKnown(t, p)
  }

  lemma AgreesIff(t: Tables, p: Path)
    ensures Agrees(t, p) <==> (Reported(t, p) <==> !IsKnown(t, p))
  {
    ReportOnExtends(t, [], p);
    assert [] + p == p;
  }

  lemma ConditionSuffices(t: Tables, p: Path)
    requires Closed(t) && NoSchemaUnderDescending(t) && NoDescendingUnderStop(t) && p != []
    ensures Agrees(t, p)
  {
    AgreesIff(t, p);
    if t.Has(p) {
      KeysAreUnreported(t, p);
    } else {
      UnknownIsReportedUnlessStopped(t, p);
      DecidedMeansStopped(t, p);
    }
  }

  lemma ConditionIsNeeded(t: Tables)
    requires Closed(t) && forall p | p != [] :: Agrees(t, p)
    ensures NoSchemaUnderDescending(t) && NoDescendingUnderStop(t)
  {
    forall p | p in t.schema && p !in t.passthrough
      ensures Decided(t, p) != Some(false)
    {
      assert Agrees(t, p);
      AgreesIff(t, p);
      KeysAreUnreported(t, p);
    }
    forall q | q in t.passthrough && t.passthrough[q]
      ensures !StopAbove(t, q)
    {
      var key := FreshChild(t, q);
      var p := q + [key];
      assert p[..|p|-1] == q;
      assert Agrees(t, p);
      AgreesIff(t, p);
      UnknownIsReportedUnlessStopped(t, p);
    }
  }

  /** Over closed tables, lookup and walk agree on every path exactly when no
      schema-only key is decided by a descending passthrough key above it and no
      descending passthrough key lies below a key the walk stops at. */
  lemma LookupAgreesWithWalk(t: Tables)
    requires Closed(t)
    ensures (forall p | p != [] :: Agrees(t, p)) <==> NoSchemaUnderDescending(t) && NoDescendingUnderStop(t)
  {
    if NoSchemaUnderDescending(t) && NoDescendingUnderStop(t) {
      forall p | p != []
        ensures Agrees(t, p)
      {
        ConditionSuffices(t, p);
      }
    }
    if forall p | p != [] :: Agrees(t, p) {
      ConditionIsNeeded(t);
    }
  }

  /** For whole documents: a path that occurs is unknown to the lookup exactly
      when it, or a path above it, is among the reported keys. */
  lemma ReportedIffUnknown(t: Tables, doc: Node, ks: Path)
    requires Closed(t) && NoSchemaUnderDescending(t) && NoDescendingUnderStop(t)
    requires ks != [] && Named(ks) && Occurs(doc, ks)
    ensures !IsKnown(t, ks) <==> exists q :: q != [] && q <= ks && Reports(Unknowns(t, doc, []), q)
  {
    hide Closed, NoSchemaUnderDescending, NoDescendingUnderStop, IsKnown, Occurs, Unknowns, Reports, ReportOn;
    ConditionSuffices(t, ks);
    ReportOnExtends(t, [], ks);
    assert [] + ks == ks;
    if ReportOn(t, [], ks).Some? {
      WalkReportsAll(t, doc, [], ks);
      ReportedPathIsFirstUnknown(t, [], ks);
      var first := ReportOn(t, [], ks).value;
      assert first != [] && first <= ks && Reports(Unknowns(t, doc, []), first);
    }
    if q :| q != [] && q <= ks && Reports(Unknowns(t, doc, []), q) {
      var other := WalkReportsOnly(t, doc, [], q);
      ReportedPathIsFirstUnknown(t, [], other);
      FirstUnknownIsReported(t, [], ks, q);
    }
  }

  lemma {:induction false} ReportedPathIsFirstUnknown(t: Tables, done: Path, ks: Path)
    requires AllDescend(t, done) && ReportOn(t, done, ks).Some?
    ensures var q := ReportOn(t, done, ks).value;
            q != [] && AllDescend(t, q[..|q|-1]) && !t.Has(q)
    decreases |ks|
  {
    var path := done + [ks[0]];
    assert path[..|path|-1] == done;
    if t.Descends(path) {
      ReportedPathIsFirstUnknown(t, path, ks[1..]);
    }
  }

  // ----------------------------------------------------------- the shipped tables

  const PASSTHROUGH: map<Path, bool> := map[
    ["eval"] := false, ["artifacts"] := false, ["research"] := false, ["model"] := false,
    ["resource_naming"] := false,
    ["compute", "cpus"] := false, ["compute", "cpu_limit"] := false,
    ["compute", "memory"] := false, ["compute", "memory_limit"] := false,
    ["compute", "worker_cpus"] := false, ["compute", "worker_cpu_limit"] := false,
    ["compute", "worker_memory"] := false, ["compute", "worker_memory_limit"] := false,
    ["runtime", "rdma"] := true, ["runtime", "rdma", "enabled"] := false,
    ["storage", "mounts"] := true, ["storage", "mounts", "name"] := false,
    ["storage", "mounts", "mountPath"] := false, ["storage", "mounts", "pvc"] := false,
    ["storage", "mounts", "readOnly"] := false]

  /** What the configuration types say about the schema table: it is closed, the
      three sections with passthrough keys are structures, and it has no other
      keys under the two descending passthrough keys. */
  ghost predicate ConfigSchema(schema: map<Path, bool>) {
    && [] !in schema
    && (forall p | p in schema && |p| >= 2 :: p[..|p|-1] in schema)
    && (forall s | s == "compute" || s == "runtime" || s == "storage" :: [s] in schema && schema[[s]])
    && (forall p | p in schema && ["runtime", "rdma"] <= p :: p in PASSTHROUGH)
    && (forall p | p in schema && ["storage", "mounts"] <= p :: p in PASSTHROUGH)
  }

  lemma PassthroughShape(p: Path)
    requires p in PASSTHROUGH
    ensures p != [] && |p| <= 3
    ensures |p| >= 2 ==> p[0] == "compute" || p[0] == "runtime" || p[0] == "storage"
    ensures |p| == 3 ==> p[..2] == ["runtime", "rdma"] || p[..2] == ["storage", "mounts"]
    ensures PASSTHROUGH[p] <==> p == ["runtime", "rdma"] || p == ["storage", "mounts"]
  {
  }

  /** A schema-only key decided negatively lies under a descending passthrough key. */
  lemma {:induction false} DecidedByPassthrough(t: Tables, p: Path)
    requires t.passthrough == PASSTHROUGH && Decided(t, p) == Some(false)
    ensures ["runtime", "rdma"] <= p || ["storage", "mounts"] <= p
    decreases |p|
  {
    var q := p[..|p|-1];
    if q in t.passthrough {
      PassthroughShape(q);
    } else {
      DecidedByPassthrough(t, q);
    }
  }

  /** The shipped tables meet the condition, so lookup and walk agree on them. */
  lemma ShippedTablesAgree(schema: map<Path, bool>, p: Path)
    requires ConfigSchema(schema) && p != []
    ensures Agrees(Tables(PASSTHROUGH, schema), p)
  {
    var t := Tables(PASSTHROUGH, schema);
    hide PASSTHROUGH, Agrees;
    forall k | t.Has(k) && |k| >= 2
      ensures t.Has(k[..|k|-1])
    {
      if k in PASSTHROUGH {
        PassthroughParent(t, k);
      }
    }
    forall k | k in t.schema && k !in t.passthrough
      ensures Decided(t, k) != Some(false)
    {
      if Decided(t, k) == Some(false) {
        DecidedByPassthrough(t, k);
      }
    }
    forall k | k in t.passthrough && t.passthrough[k]
      ensures !StopAbove(t, k)
    {
      PassthroughShape(k);
      SectionsDescend(t, k);
    }
    assert [] !in PASSTHROUGH by { if [] in PASSTHROUGH { PassthroughShape([]); } }
    ConditionSuffices(t, p);
  }

  lemma PassthroughFacts()
    ensures ["runtime", "rdma"] in PASSTHROUGH && ["storage", "mounts"] in PASSTHROUGH
    ensures ["runtime"] !in PASSTHROUGH && ["storage"] !in PASSTHROUGH
  {
  }

  lemma PassthroughParent(t: Tables, k: Path)
    requires t.passthrough == PASSTHROUGH && ConfigSchema(t.schema) && k in PASSTHROUGH && |k| >= 2
    ensures t.Has(k[..|k|-1])
  {
    hide PASSTHROUGH;
    PassthroughShape(k);
    PassthroughFacts();
    if |k| == 2 {
      assert k[..1] == [k[0]];
    }
  }

  lemma SectionsDescend(t: Tables, k: Path)
    requires t.passthrough == PASSTHROUGH && ConfigSchema(t.schema)
    requires k == ["runtime", "rdma"] || k == ["storage", "mounts"]
    ensures !StopAbove(t, k)
  {
    hide PASSTHROUGH;
    PassthroughFacts();
    assert k[..1] == [k[0]];
    assert [k[0]][..0] == [];
  }

  // ------------------------------------------------------------------ dotted paths

  /** `strings.Join(keys, ".")` of non-empty, dot-free keys. */
  function Join(ks: Path): string {
    if ks == [] then "" else if |ks| == 1 then ks[0] else Join(ks[..|ks|-1]) + "." + ks[|ks|-1]
  }

  /** `strings.LastIndex(s, ".")`. */
  function LastDot(s: string): (i: int)
    ensures -1 <= i < |s|
  {
    if s == "" then -1 else if s[|s|-1] == '.' then |s| - 1 else LastDot(s[..|s|-1])
  }

  lemma {:induction false} LastDotAfter(s: string, key: string)
    requires '.' !in key
    ensures LastDot(s + "." + key) == |s|
    ensures LastDot(key) == -1
  {
    if key == "" {
      assert s + "." + key == s + ".";
    } else {
      assert (s + "." + key)[..|s + "." + key|-1] == s + "." + key[..|key|-1];
      LastDotAfter(s, key[..|key|-1]);
    }
  }

  /** Cutting a dotted path at its last dot is dropping its last key, and a
      dotted path without a dot is a single key. */
  lemma JoinCutsAtLastDot(ks: Path)
    requires ks != [] && forall i | 0 <= i < |ks| :: '.' !in ks[i]
    ensures |ks| == 1 <==> LastDot(Join(ks)) < 0
    ensures |ks| > 1 ==> Join(ks)[..LastDot(Join(ks))] == Join(ks[..|ks|-1])
  {
    LastDotAfter(Join(ks[..|ks|-1]), ks[|ks|-1]);
  }

  /** Dotted paths of different keys differ. */
  lemma {:induction false} JoinIsInjective(a: Path, b: Path)
    requires a != [] && b != [] && Join(a) == Join(b)
    requires (forall i | 0 <= i < |a| :: '.' !in a[i]) && (forall i | 0 <= i < |b| :: '.' !in b[i])
    ensures a == b
  {
    JoinCutsAtLastDot(a);
    JoinCutsAtLastDot(b);
    if |a| > 1 {
      JoinIsInjective(a[..|a|-1], b[..|b|-1]);
      var dot := LastDot(Join(a));
      LastDotAfter(Join(a[..|a|-1]), a[|a|-1]);
      LastDotAfter(Join(b[..|b|-1]), b[|b|-1]);
      assert Join(a)[dot + 1..] == a[|a|-1] && Join(b)[dot + 1..] == b[|b|-1];
      assert a == a[..|a|-1] + [a[|a|-1]] && b == b[..|b|-1] + [b[|b|-1]];
    }
  }
}

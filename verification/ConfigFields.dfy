/** The schema table of the configuration types: the paths that reflection over
    their fields yields (`fieldPaths`, `structFieldPaths`, `configSchemaPaths`). */
module ConfigFields {
  import opened ConfigKeys
  import opened ConfigTables

  /** A Go type as the reflection sees it, pointers removed; structures of other
      packages and `Duration` are leaves. */
  datatype Type = Leaf | Struct(fields: seq<Field>) | List(item: Type)

  datatype Field = Field(name: Key, kind: Type)

  /** The fields that `fieldPaths` goes on to: those of a structure, or of a list of
      structures. */
  function Inner(kind: Type): seq<Field> {
    match kind
    case Leaf => []
    case Struct(fields) => fields
    case List(item) => if item.Struct? then item.fields else []
  }

  /** `fieldPaths`. */
  function FieldPaths(fields: seq<Field>, prefix: Path): set<Path> {
    if fields == [] then {}
    else
      var first, rest := fields[0], FieldPaths(fields[1..], prefix);
      if first.name == "" then rest
      else
        var path := prefix + [first.name];
        {path} + rest +
        match first.kind
        case Struct(inner) => FieldPaths(inner, path)
        case List(Struct(inner)) => FieldPaths(inner, path)
        case _ => {}
  }

  /** `structFieldPaths`: it does not look into lists. */
  function StructPaths(fields: seq<Field>, prefix: Path): set<Path> {
    if fields == [] then {}
    else
      var first, rest := fields[0], StructPaths(fields[1..], prefix);
      if first.name == "" || !first.kind.Struct? then rest
      else {prefix + [first.name]} + rest + StructPaths(first.kind.fields, prefix + [first.name])
  }

  /** `configSchemaPaths`: all field paths, and which of them are structures. */
  function SchemaOf(fields: seq<Field>): map<Path, bool> {
    (map p | p in FieldPaths(fields, []) :: false) + (map p | p in StructPaths(fields, []) :: true)
  }

  // ------------------------------------------------------- what reflection yields

  /** The keys lead along fields, from one type to the next. */
  predicate Leads(fields: seq<Field>, ks: Path)
    decreases |ks|
  {
    ks != [] && ks[0] != "" &&
    exists i | 0 <= i < |fields| :: fields[i].name == ks[0] && (|ks| == 1 || Leads(Inner(fields[i].kind), ks[1..]))
  }

  lemma {:induction false} FieldPathsLead(fields: seq<Field>, prefix: Path, p: Path)
    ensures p in FieldPaths(fields, prefix) <==> prefix <= p && Leads(fields, p[|prefix|..])
    decreases fields
  {
    if fields != [] {
      var first, path := fields[0], prefix + [fields[0].name];
      FieldPathsLead(fields[1..], prefix, p);
      match first.kind {
        case Struct(inner) => FieldPathsLead(inner, path, p);
        case List(Struct(inner)) => FieldPathsLead(inner, path, p);
        case _ =>
      }
      hide Leads;
      if prefix <= p && |p| > |prefix| {
        var ks := p[|prefix|..];
        NothingLeads(ks[1..]);
        LeadsByFirst(fields, ks);
        assert ks[1..] == p[|path|..] && (path <= p <==> ks[0] == first.name);
        assert p == path <==> ks[0] == first.name && |ks| == 1;
      } else {
        NothingLeads([]);
      }
    }
  }

  lemma NothingLeads(ks: Path)
    ensures !Leads([], ks)
    ensures forall fields :: !Leads(fields, [])
  {
  }

  lemma LeadsByFirst(fields: seq<Field>, ks: Path)
    requires fields != []
    ensures Leads(fields, ks) <==>
            || (ks != [] && ks[0] != "" && fields[0].name == ks[0] && (|ks| == 1 || Leads(Inner(fields[0].kind), ks[1..])))
            || Leads(fields[1..], ks)
  {
  }

  /** A field of structure type yields a structure path. */
  lemma {:induction false} StructPathsLead(fields: seq<Field>, prefix: Path, i: nat)
    requires i < |fields| && fields[i].name != "" && fields[i].kind.Struct?
    ensures prefix + [fields[i].name] in StructPaths(fields, prefix)
  {
    if i > 0 {
      StructPathsLead(fields[1..], prefix, i - 1);
    }
  }

  lemma {:induction false} StructPathsAreFieldPaths(fields: seq<Field>, prefix: Path)
    ensures StructPaths(fields, prefix) <= FieldPaths(fields, prefix)
    decreases fields
  {
    if fields != [] {
      StructPathsAreFieldPaths(fields[1..], prefix);
      match fields[0].kind {
        case Struct(inner) => StructPathsAreFieldPaths(inner, prefix + [fields[0].name]);
        case _ =>
      }
    }
  }

  /** The schema has exactly the paths that lead along fields. */
  lemma SchemaLeads(fields: seq<Field>, p: Path)
    ensures p in SchemaOf(fields) <==> Leads(fields, p)
  {
    StructPathsAreFieldPaths(fields, []);
    FieldPathsLead(fields, [], p);
    assert p[0..] == p;
  }

  lemma {:induction false} LeadsToParent(fields: seq<Field>, ks: Path)
    requires Leads(fields, ks) && |ks| >= 2
    ensures Leads(fields, ks[..|ks|-1])
    decreases |ks|
  {
    var i :| 0 <= i < |fields| && fields[i].name == ks[0] && Leads(Inner(fields[i].kind), ks[1..]);
    if |ks| > 2 {
      LeadsToParent(Inner(fields[i].kind), ks[1..]);
      assert ks[..|ks|-1][1..] == ks[1..][..|ks|-2];
    }
  }

  /** Whatever the types, the schema is closed: a path's parent is a path. */
  lemma SchemaIsClosed(fields: seq<Field>, p: Path)
    requires p in SchemaOf(fields)
    ensures p != [] && (|p| >= 2 ==> p[..|p|-1] in SchemaOf(fields))
  {
    SchemaLeads(fields, p);
    if |p| >= 2 {
      LeadsToParent(fields, p);
      SchemaLeads(fields, p[..|p|-1]);
    }
  }

  // ------------------------------------------------------- the configuration types

  const SOURCE: seq<Field> :=
    [Field("image", Leaf), Field("path", Leaf)]

  const SECURITY: seq<Field> :=
    [Field("mode", Leaf)]

  const RDMA: seq<Field> :=
    [Field("enabled", Leaf)]

  const IMAGE_ASSET: seq<Field> :=
    [Field("name", Leaf), Field("image", Leaf), Field("source_path", Leaf), Field("mount_path", Leaf)]

  const METRICS_OFFLOAD: seq<Field> :=
    [Field("enabled", Leaf), Field("runtime", Leaf), Field("image", Leaf), Field("out", Leaf),
     Field("delivery_mode", Leaf), Field("adx_cluster_uri", Leaf), Field("adx_database", Leaf),
     Field("adx_table", Leaf), Field("adx_mapping", Leaf), Field("adx_client_id", Leaf),
     Field("adx_max_attempts", Leaf), Field("adx_retry_backoff", Leaf), Field("adx_final_status_timeout", Leaf)]

  const RUN: seq<Field> :=
    [Field("name", Leaf), Field("engine", Leaf), Field("entrypoint", Leaf), Field("script", Leaf),
     Field("image", Leaf), Field("main_script", Leaf), Field("workload_kind", Leaf), Field("smoke_pairs", Leaf),
     Field("source", Struct(SOURCE)), Field("ttl_seconds_after_finished", Leaf), Field("working_dir", Leaf),
     Field("working_dir_excludes", List(Leaf))]

  const WORKFLOW: seq<Field> :=
    [Field("file", Leaf), Field("script", Leaf), Field("main_script", Leaf), Field("workload_kind", Leaf),
     Field("extra_scripts", List(Leaf)), Field("upstream_checkpoint", Leaf), Field("secret_payload", Leaf),
     Field("smoke_pairs", Leaf)]

  const RUNTIME: seq<Field> :=
    [Field("image", Leaf), Field("working_dir", Leaf), Field("pip", List(Leaf)), Field("env", Leaf),
     Field("env_secret", Leaf), Field("env_kv", Leaf), Field("security", Struct(SECURITY)),
     Field("rdma", Struct(RDMA))]

  const COMPUTE: seq<Field> :=
    [Field("workers", Leaf), Field("gpus", Leaf), Field("gpus_per_worker", Leaf), Field("cpu_workers", Leaf),
     Field("workload_kind", Leaf), Field("gpu_resource_mode", Leaf), Field("mig_profile", Leaf),
     Field("cpu_request", Leaf), Field("memory_request", Leaf), Field("cpu_limit", Leaf),
     Field("memory_limit", Leaf), Field("head_cpu_request", Leaf), Field("head_memory_request", Leaf),
     Field("head_cpu_limit", Leaf), Field("head_memory_limit", Leaf), Field("worker_cpu_request", Leaf),
     Field("worker_memory_request", Leaf), Field("worker_cpu_limit", Leaf), Field("worker_memory_limit", Leaf)]

  const POLICY: seq<Field> :=
    [Field("workspace", Leaf), Field("namespace", Leaf), Field("profile", Leaf), Field("queue", Leaf),
     Field("team", Leaf), Field("lane", Leaf), Field("gpu_class", Leaf), Field("mode", Leaf),
     Field("topology", Leaf), Field("shape", Leaf), Field("priority", Leaf), Field("priority_tier", Leaf),
     Field("workload_profile_snapshot", Leaf), Field("workload_priority_class", Leaf),
     Field("pod_priority_class", Leaf), Field("node_selector", Leaf), Field("clear_node_selector", Leaf),
     Field("disable_default_priorities", Leaf)]

  const STORAGE: seq<Field> :=
    [Field("data_pvc", Leaf), Field("result_pvc", Leaf), Field("output", Leaf), Field("publish", Leaf),
     Field("volumes", List(Leaf)), Field("mounts", List(Leaf)),
     Field("image_assets", List(Struct(IMAGE_ASSET))), Field("checkpoint", Leaf), Field("hot_size", Leaf)]

  const PROFILER: seq<Field> :=
    [Field("mode", Leaf), Field("rank", Leaf), Field("warmup", Leaf), Field("duration", Leaf)]

  const METRICS: seq<Field> :=
    [Field("history", List(Leaf)), Field("offload", Struct(METRICS_OFFLOAD))]

  const EXPERIMENT: seq<Field> :=
    [Field("project", Leaf), Field("name", Leaf), Field("group", Leaf), Field("title", Leaf)]

  const EXECUTION: seq<Field> :=
    [Field("launcher", Leaf), Field("processes_per_node", Leaf), Field("nodes", Leaf), Field("metric", Leaf),
     Field("mode", Leaf), Field("num_samples", Leaf), Field("max_concurrent_trials", Leaf),
     Field("configs", Leaf), Field("allow_nccl_override", Leaf)]

  const RESILIENCE: seq<Field> :=
    [Field("max_retries", Leaf), Field("retry_on", List(Leaf)), Field("checkpoint_path", Leaf),
     Field("backoff_initial", Leaf), Field("backoff_max", Leaf)]

  const CONFIG: seq<Field> :=
    [Field("schema_version", Leaf), Field("name", Leaf), Field("engine", Leaf), Field("entrypoint", Leaf),
     Field("script", Leaf), Field("image", Leaf), Field("run", Struct(RUN)),
     Field("workflow", Struct(WORKFLOW)), Field("runtime", Struct(RUNTIME)), Field("compute", Struct(COMPUTE)),
     Field("policy", Struct(POLICY)), Field("storage", Struct(STORAGE)), Field("profiler", Struct(PROFILER)),
     Field("metrics", Struct(METRICS)), Field("experiment", Struct(EXPERIMENT)),
     Field("execution", Struct(EXECUTION)), Field("resilience", Struct(RESILIENCE))]

  /** There is one field of that name. */
  predicate Only(fields: seq<Field>, i: int) {
    0 <= i < |fields| && fields[i].name != "" && forall k | 0 <= k < |fields| && fields[k].name == fields[i].name :: k == i
  }

  lemma LeadsThrough(fields: seq<Field>, i: int, ks: Path)
    requires Only(fields, i) && |ks| >= 2 && ks[0] == fields[i].name
    ensures Leads(fields, ks) <==> Leads(Inner(fields[i].kind), ks[1..])
  {
  }

  lemma ConfigSections()
    ensures Only(CONFIG, 8) && CONFIG[8] == Field("runtime", Struct(RUNTIME))
    ensures Only(CONFIG, 9) && CONFIG[9] == Field("compute", Struct(COMPUTE))
    ensures Only(CONFIG, 11) && CONFIG[11] == Field("storage", Struct(STORAGE))
  {
  }

  lemma RuntimeAndStorage()
    ensures Only(RUNTIME, 7) && RUNTIME[7] == Field("rdma", Struct(RDMA))
    ensures Only(STORAGE, 5) && STORAGE[5] == Field("mounts", List(Leaf))
  {
  }

  lemma BelowRdma(p: Path)
    requires ["runtime", "rdma"] <= p && Leads(CONFIG, p)
    ensures p in PASSTHROUGH
  {
    hide CONFIG, RUNTIME;
    ConfigSections();
    RuntimeAndStorage();
    LeadsThrough(CONFIG, 8, p);
    if |p| == 2 {
      assert p == ["runtime", "rdma"];
    } else {
      assert p[1..][0] == "rdma";
      LeadsThrough(RUNTIME, 7, p[1..]);
      assert p[1..][1..] == p[2..];
      assert p[2] == "enabled";
      if |p| == 3 {
        assert p == ["runtime", "rdma", "enabled"];
      } else {
        assert false by { NothingLeads(p[2..][1..]); }
      }
    }
  }

  lemma BelowMounts(p: Path)
    requires ["storage", "mounts"] <= p && Leads(CONFIG, p)
    ensures p in PASSTHROUGH
  {
    hide CONFIG, STORAGE;
    ConfigSections();
    RuntimeAndStorage();
    LeadsThrough(CONFIG, 11, p);
    if |p| == 2 {
      assert p == ["storage", "mounts"];
    } else {
      assert p[1..][0] == "mounts";
      LeadsThrough(STORAGE, 5, p[1..]);
      NothingLeads(p[1..][1..]);
    }
  }

  lemma SectionIsStruct(i: nat)
    requires i < |CONFIG| && CONFIG[i].name != "" && CONFIG[i].kind.Struct?
    ensures [CONFIG[i].name] in SchemaOf(CONFIG) && SchemaOf(CONFIG)[[CONFIG[i].name]]
  {
    hide CONFIG;
    StructPathsLead(CONFIG, [], i);
    StructPathsAreFieldPaths(CONFIG, []);
    assert [] + [CONFIG[i].name] == [CONFIG[i].name];
  }

  /** The configuration types yield a schema table as the agreement needs it. */
  lemma ConfigTypesYieldSchema()
    ensures ConfigSchema(SchemaOf(CONFIG))
  {
    hide CONFIG, PASSTHROUGH, SchemaOf, RUNTIME, STORAGE, COMPUTE;
    var schema := SchemaOf(CONFIG);
    forall p | p in schema
      ensures p != [] && (|p| >= 2 ==> p[..|p|-1] in schema)
      ensures ["runtime", "rdma"] <= p || ["storage", "mounts"] <= p ==> p in PASSTHROUGH
    {
      SchemaIsClosed(CONFIG, p);
      SchemaLeads(CONFIG, p);
      if ["runtime", "rdma"] <= p {
        BelowRdma(p);
      } else if ["storage", "mounts"] <= p {
        BelowMounts(p);
      }
    }
    ConfigSections();
    SectionIsStruct(8);
    SectionIsStruct(9);
    SectionIsStruct(11);
  }

  /** The shipped tables: lookup and walk agree on every path. */
  lemma ShippedConfigAgrees(p: Path)
    requires p != []
    ensures Agrees(Tables(PASSTHROUGH, SchemaOf(CONFIG)), p)
  {
    hide CONFIG, PASSTHROUGH, SchemaOf, ConfigSchema, Agrees;
    ConfigTypesYieldSchema();
    ShippedTablesAgree(SchemaOf(CONFIG), p);
  }
}

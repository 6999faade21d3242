/** The collector itself: `Runner` with its drain, replay, completion and
    cancellation paths, proved to take only steps of `CollectorProtocol`. A
    durable write that fails ends the process, with or without its effect. */
module CollectorRunner {
  import opened SourceText
  import opened Telemetry
  import opened Spool
  import opened StableOrder
  import opened Wrappers
  import opened CollectorProtocol
  import opened CollectorSafety
  import opened CollectorSteps
  import opened CollectorTheorems

  datatype Error = Crashed | SinkFailed | ReadFailed | SourceRefused | EventRefused | SpoolRejected

  datatype Loading = Nothing | Pending(name: PendingName, manifest: ChunkManifest) | Rejected

  class Runner {
    const cfg: Config
    const readyFile: bool
    const doneFile: bool
    const watch: bool
    const maxIterations: nat
    const attempts: nat

    var disk: Disk
    var sink: Sink
    var world: World
    var checkpoints: CheckpointSet
    var chunks: nat
    var events: nat

    ghost var past: Past
    ghost var trace: seq<Action>
    /** How often the operating system, the network or the clock let the program down. */
    ghost var faults: nat

    ghost function Now(): State
      reads this
    {
      State(disk, sink, world, past)
    }

    /** Everything done so far, in this process and those before it, is a run
        of the protocol. */
    ghost predicate Valid()
      reads this
    {
      && cfg.identity != "" && After(cfg, trace) == Some(Now())
      && (cfg.baseline ==> readyFile) && attempts > 0
    }

    /** The result counters against the chunks and events acknowledged. */
    ghost function Balance(): (int, int)
      reads this
    {
      (chunks - |past.log|, events - EventCount(past.log))
    }

    /** The in-memory checkpoints are those on the disk. */
    ghost predicate InStep()
      reads this
    {
      checkpoints == Loaded(cfg, disk)
    }

    /** The listed files were all read, and each is consumed to its end. */
    ghost predicate EndsReached()
      reads this
    {
      past.sight.listed == Some(past.sight.held.Keys) && AllAtEnd(checkpoints, past.sight.held)
    }

    /** The listed files were all read, and no complete record of them is left. */
    ghost predicate RecordsConsumed()
      reads this
    {
      past.sight.listed == Some(past.sight.held.Keys) && AllCaughtUp(checkpoints, past.sight.held)
    }

    /** A final drain has reached the ends of all the files it listed, in the texts
        they held when it read them. */
    ghost predicate FinalDrainComplete()
      reads this
    {
      && past.sight.finalDrain == Some(FinalDrain(past.sight.held.Keys, Texts(past.sight.held)))
      && EndsReached()
    }

    /** The status the completion file told is recorded. */
    ghost predicate OutcomeRecorded()
      reads this
    {
      past.sight.outcome.Some? && StatusSha(past.sight.outcome.value) in checkpoints.terminals
    }

    /** The checkpoints are the baseline of the listed files as they were read. */
    ghost predicate Baselined()
      reads this
    {
      && past.sight.listed == Some(past.sight.held.Keys)
      && checkpoints.sources.Keys == past.sight.held.Keys
      && forall p | p in past.sight.held ::
           checkpoints.sources[p] == BaselineSource(p, past.sight.held[p].fileId, past.sight.held[p].text, 0)
    }

    /** What the history files hold is to blame: a listed file is gone, a checkpointed
        one is not listed any more, a file that was read does not continue what was
        consumed of it, or does not project; or the completion file makes no sense. */
    ghost predicate SourceIsBad()
      reads this
    {
      || (past.sight.listed.Some? && (!Real(world.files) || exists p :: p in past.sight.listed.value && p !in world.files))
      || (past.sight.listed.Some? && exists p :: p in checkpoints.sources && p !in past.sight.listed.value && !checkpoints.sources[p].baseline)
      || (exists p, trailing :: p in past.sight.held && Unfit(checkpoints.Source(p), p, past.sight.held[p], trailing))
      || (past.sight.completionSeen && !world.completion.Present?)
    }

    /** A drain of the source would refuse what its file holds. */
    ghost predicate Unfit(c: SourceCheckpoint, path: Path, file: SourceFile, trailing: bool) {
      var read := ReadSource(path, file.fileId, file.text, c, trailing);
      read.None? || (c.lines >= 0 && Project(cfg.decode, path, c.lines + 1, Records(read.value.data)).None?)
    }

    /** The status read is to blame, or the configured tags. */
    ghost predicate EventIsBad()
      reads this
    {
      || (past.sight.outcome.Some? && TerminalEvent(cfg, past.sight.outcome.value).None?)
      || exists key :: key in cfg.tags && IsProtected(key)
    }

    /** An error has its reason: a fault, or something wrong with what the workload
        wrote or how the collector was configured. */
    ghost predicate Excused(before: nat, err: Option<Error>)
      reads this
    {
      && before <= faults
      && (faults == before ==>
            || err == None || (err == Some(SourceRefused) && SourceIsBad()) || (err == Some(EventRefused) && EventIsBad()))
    }

    /** One arbitrary outcome; a bad one counts as a fault. */
    method Works() returns (ok: bool)
      modifies this`faults
      ensures faults == if ok then old(faults) else old(faults) + 1
    {
      ok := *;
      if !ok {
        faults := faults + 1;
      }
    }

    lemma Safe()
      requires Valid()
      ensures Inv(cfg, Now())
    {
      ReachableStatesAreSafe(cfg, trace);
    }

    lemma Extend(before: seq<Action>, was: State, a: Action)
      requires After(cfg, before) == Some(was) && Enabled(cfg, was, a)
      ensures After(cfg, before + [a]) == Some(Apply(cfg, was, a))
    {
      hide Enabled, Apply;
      assert (before + [a])[..|before|] == before;
    }

    // -------------------------------------------- durable steps and observations

    /** The state moved by `a` from `was`, or stayed there. */
    ghost predicate Moved(was: State, a: Action, taken: bool)
      requires Enabled(cfg, was, a)
      reads this
    {
      Now() == if taken then Apply(cfg, was, a) else was
    }

    method WriteCheckpoints(next: CheckpointSet, ghost a: Action) returns (alive: bool)
      requires Valid() && Enabled(cfg, Now(), a)
      requires var t := Apply(cfg, Now(), a);
               t.disk == disk.(checkpoint := Some(next)) && t.sink == sink && t.world == world
      modifies this`disk, this`past, this`trace, this`faults
      ensures if alive then faults == old(faults) else faults > old(faults)
      ensures Valid() && old(trace) <= trace
      ensures Moved(old(Now()), a, true) || (!alive && Moved(old(Now()), a, false))
    {
      hide Inv, Enabled, Apply;
      var reached := Works();
      if !reached {
        return false;
      }
      Extend(trace, Now(), a);
      ghost var after := Apply(cfg, Now(), a);
      disk := disk.(checkpoint := Some(next));
      past, trace := after.past, trace + [a];
      alive := Works();
    }

    static function Existing(pending: map<PendingName, ChunkManifest>, name: PendingName): Option<ChunkManifest> {
      if name in pending then Some(pending[name]) else None
    }

    /** `writePending`: an existing file of that name must be the same chunk. */
    method WritePending(m: ChunkManifest, ghost a: Action) returns (err: Option<Error>)
      requires Valid()
      requires NameOf(m) !in disk.pending ==>
                 && Enabled(cfg, Now(), a)
                 && var t := Apply(cfg, Now(), a);
                    t.disk == disk.(pending := disk.pending[NameOf(m) := m]) && t.sink == sink && t.world == world
      modifies this`disk, this`past, this`trace, this`faults
      ensures faults >= old(faults) && (err == Some(Crashed) ==> faults > old(faults))
      ensures Valid() && old(trace) <= trace
      ensures NameOf(m) in old(disk.pending) ==>
                Now() == old(Now()) && err == if old(disk.pending[NameOf(m)]).digest == m.digest then None else Some(SpoolRejected)
      ensures NameOf(m) !in old(disk.pending) ==>
                && (err == None || err == Some(Crashed))
                && (Moved(old(Now()), a, true) || (err.Some? && Moved(old(Now()), a, false)))
    {
      hide Inv, Enabled, Apply;
      match Existing(disk.pending, NameOf(m)) {
        case Some(existing) =>
          if existing.digest != m.digest {
            return Some(SpoolRejected);
          }
          return None;
        case None =>
      }
      var reached := Works();
      if !reached {
        return Some(Crashed);
      }
      Extend(trace, Now(), a);
      ghost var after := Apply(cfg, Now(), a);
      disk := disk.(pending := disk.pending[NameOf(m) := m]);
      past, trace := after.past, trace + [a];
      var alive := Works();
      return if alive then None else Some(Crashed);
    }

    method RemovePendingFile(name: PendingName) returns (alive: bool)
      requires Valid() && Enabled(cfg, Now(), RemovePending(name))
      modifies this`disk, this`past, this`trace, this`faults
      ensures if alive then faults == old(faults) else faults > old(faults)
      ensures Valid() && old(trace) <= trace
      ensures Moved(old(Now()), RemovePending(name), true) || (!alive && Moved(old(Now()), RemovePending(name), false))
    {
      hide Inv;
      var reached := Works();
      if !reached {
        return false;
      }
      Extend(trace, Now(), RemovePending(name));
      disk := disk.(pending := disk.pending - {name});
      trace := trace + [RemovePending(name)];
      alive := Works();
    }

    method WriteReadyFile() returns (alive: bool)
      requires Valid() && Enabled(cfg, Now(), PublishReady)
      modifies this`disk, this`past, this`trace, this`faults
      ensures if alive then faults == old(faults) else faults > old(faults)
      ensures Valid() && old(trace) <= trace
      ensures Moved(old(Now()), PublishReady, true) || (!alive && Moved(old(Now()), PublishReady, false))
    {
      hide Inv;
      var reached := Works();
      if !reached {
        return false;
      }
      Extend(trace, Now(), PublishReady);
      disk := disk.(ready := true);
      trace := trace + [PublishReady];
      alive := Works();
    }

    method WriteDoneFile() returns (alive: bool)
      requires Valid() && Enabled(cfg, Now(), PublishDone)
      modifies this`disk, this`past, this`trace, this`faults
      ensures if alive then faults == old(faults) else faults > old(faults)
      ensures Valid() && old(trace) <= trace
      ensures Moved(old(Now()), PublishDone, true) || (!alive && Moved(old(Now()), PublishDone, false))
    {
      hide Inv, Enabled;
      var reached := Works();
      if !reached {
        return false;
      }
      Extend(trace, Now(), PublishDone);
      ghost var after := Apply(cfg, Now(), PublishDone);
      disk := disk.(done := true);
      past, trace := after.past, trace + [PublishDone];
      alive := Works();
    }

    /** Something the process sees; neither disk nor sink changes. */
    ghost method Observe(a: Action)
      requires Valid() && Enabled(cfg, Now(), a)
      requires a.Restart? || a.ListFiles? || a.ReadFile? || a.SeeCompletion? || a.ReadStatus? || a.BeginFinalDrain? || a.ReachEnd?
      modifies this`past, this`trace
      ensures Valid() && old(trace) <= trace && Moved(old(Now()), a, true)
    {
      hide Inv, Enabled;
      Extend(trace, Now(), a);
      past, trace := Apply(cfg, Now(), a).past, trace + [a];
    }

    /** Time passes, and the workload goes on writing what it likes. */
    method Elapse()
      requires Valid()
      modifies this`world, this`trace
      ensures Valid() && old(trace) <= trace
      ensures (trace == old(trace) && world == old(world)) || Real(world.files)
    {
      hide Inv;
      var next: World := *;
      if !Real(next.files) {
        return;
      }
      Extend(trace, Now(), Evolve(next));
      world, trace := next, trace + [Evolve(next)];
    }

    /** `deliverChunk`: submit the pending chunk until an attempt is reported as
        ingested (or skipped as already ingested). An attempt may be ingested
        without being reported, and reported only if ingested. */
    method Deliver(name: PendingName) returns (acknowledged: bool)
      requires Valid() && name in disk.pending && name.sequence == Loaded(cfg, disk).nextSequence
      modifies this`sink, this`trace, this`faults
      ensures Valid() && old(trace) <= trace
      ensures acknowledged ==> name.digest in sink.accepted
      ensures faults >= old(faults) && (!acknowledged ==> faults > old(faults))
    {
      hide Inv;
      acknowledged := false;
      for attempt := 0 to attempts
        invariant Valid() && old(trace) <= trace
        invariant faults >= old(faults) && (attempt > 0 ==> faults > old(faults))
      {
        var works := Works();
        var taken: bool := *;
        taken := taken || works;
        Extend(trace, Now(), Submit(name, taken));
        sink := Ingest(sink, name, taken);
        trace := trace + [Submit(name, taken)];
        var reported: bool := *;
        if (works || reported) && name.digest in sink.accepted {
          return true;
        }
        var retryable: bool := *;
        if !retryable {
          return false;
        }
      }
    }

    // ------------------------------------------------------------------ replay

    /** `loadPending`. */
    method LoadPending() returns (loaded: Loading)
      requires Valid()
      ensures loaded.Nothing? ==> disk.pending == map[]
      ensures loaded.Pending? ==>
                disk.pending == map[loaded.name := loaded.manifest] && loaded.name == NameOf(loaded.manifest)
      ensures loaded.Pending? ==> loaded.manifest.body.sequence > 0
      ensures !loaded.Rejected?
    {
      Safe();
      RestartAcceptsEveryState(cfg, Now());
      hide Inv, ValidManifest, AdvanceFor, Acknowledged;
      if |disk.pending| > 1 {
        return Rejected;
      }
      if disk.pending.Keys == {} {
        return Nothing;
      }
      var name :| name in disk.pending;
      OnlyKey(disk.pending, name);
      var manifest := disk.pending[name];
      if !ValidManifest(name, manifest, cfg.identity) {
        return Rejected;
      }
      NameIsManifests(name, manifest, cfg.identity);
      return Pending(name, manifest);
    }

    /** What follows every accepted delivery: write the advanced checkpoint,
        then remove the pending file. */
    method Commit(name: PendingName, next: CheckpointSet) returns (err: Option<Error>)
      requires Valid() && InStep() && name in disk.pending && name.sequence == checkpoints.nextSequence
      requires disk.pending == map[name := disk.pending[name]]
      requires AdvanceFor(checkpoints, disk.pending[name]) == Advanced(next) && name.digest in sink.accepted
      modifies this`disk, this`past, this`trace, this`checkpoints, this`faults
      ensures Valid() && old(trace) <= trace && past.sight == old(past.sight)
      ensures Excused(old(faults), err)
      ensures err == None || err == Some(Crashed)
      ensures err == None ==> InStep() && checkpoints == next && disk.pending == map[] && disk.checkpoint.Some?
      ensures err == None ==> past.log == old(past.log) + [old(disk.pending[name])]
    {
      hide Inv, AdvanceFor, SliceOf, ValidCheckpoints, After, Enabled, Apply;
      MayAcknowledge(cfg, Now(), name);
      AcknowledgeShape(cfg, Now(), name);
      AdvanceCounts(checkpoints, disk.pending[name]);
      var written := WriteCheckpoints(next, Acknowledge(name));
      if !written {
        return Some(Crashed);
      }
      checkpoints := next;
      RemoveShape(cfg, Now(), name);
      var removed := RemovePendingFile(name);
      return if removed then None else Some(Crashed);
    }

    lemma ReplayVerdict(name: PendingName, m: ChunkManifest)
      requires Valid() && disk.pending == map[name := m]
      ensures var c := Loaded(cfg, disk);
              if m.body.sequence == c.nextSequence then AdvanceFor(c, m).Advanced?
              else m.body.sequence < c.nextSequence && Acknowledged(c, m)
    {
      hide Inv, After, ValidManifest, AdvanceFor, Acknowledged, ValidCheckpoints;
      Safe();
      RestartAcceptsEveryState(cfg, Now());
      assert name in disk.pending;
    }

    /** `replaySpool`: finish what a previous process left in the spool. */
    method ReplaySpool() returns (err: Option<Error>, replayed: nat)
      requires Valid() && InStep()
      modifies this`disk, this`sink, this`past, this`trace, this`checkpoints, this`chunks, this`events, this`faults
      ensures Valid() && old(trace) <= trace
      ensures Excused(old(faults), err)
      ensures err != Some(SpoolRejected)
      ensures err != Some(Crashed) ==> InStep()
      ensures err == None ==> disk.pending == map[]
      ensures past.sight == old(past.sight)
      ensures err != Some(Crashed) ==> Balance() == old(Balance())
      ensures old(disk.pending) == map[] ==> err == None && replayed == 0
      ensures err == None && replayed == 0 ==> disk == old(disk) && checkpoints == old(checkpoints)
      ensures err == None && replayed != 0 ==> disk.checkpoint.Some?
    {
      replayed := 0;
      hide Inv, ValidManifest, AdvanceFor, Acknowledged, SliceOf, ValidCheckpoints, After, Enabled, Apply, EventCount, Balance;
      var loaded := LoadPending();
      if loaded.Rejected? {
        err := Some(SpoolRejected);
        return;
      }
      if loaded.Nothing? {
        return None, 0;
      }
      var name, manifest := loaded.name, loaded.manifest;
      assert name in disk.pending;
      ReplayVerdict(name, manifest);
      if manifest.body.sequence < checkpoints.nextSequence {
        if !Acknowledged(checkpoints, manifest) {
          err := Some(SpoolRejected);
          return;
        }
        err := DropAcknowledged(name);
        return err, if err.Some? then 0 else 1;
      }
      if manifest.body.sequence != checkpoints.nextSequence {
        err := Some(SpoolRejected);
        return;
      }
      err := Redeliver(name, manifest);
      return err, if err.Some? then 0 else 1;
    }

    /** The checkpoint already covers the pending chunk: only its file is left. */
    method DropAcknowledged(name: PendingName) returns (err: Option<Error>)
      requires Valid() && InStep() && name in disk.pending && disk.pending == map[name := disk.pending[name]]
      requires name.sequence < checkpoints.nextSequence
      modifies this`disk, this`past, this`trace, this`faults
      ensures Valid() && old(trace) <= trace && past == old(past) && Balance() == old(Balance())
      ensures Excused(old(faults), err)
      ensures err == None || err == Some(Crashed)
      ensures err == None ==> InStep() && disk.pending == map[] && disk.checkpoint == old(disk).checkpoint
    {
      hide Inv, ValidCheckpoints, After, Enabled, Apply;
      RemoveShape(cfg, Now(), name);
      var removed := RemovePendingFile(name);
      return if removed then None else Some(Crashed);
    }

    /** What happens to every chunk once it is in the spool: deliver it, write the
        advanced checkpoint, remove it, and count it. */
    method Send(manifest: ChunkManifest, next: CheckpointSet) returns (err: Option<Error>)
      requires Valid() && InStep() && disk.pending == map[NameOf(manifest) := manifest]
      requires manifest.body.sequence == checkpoints.nextSequence && AdvanceFor(checkpoints, manifest) == Advanced(next)
      modifies this`disk, this`sink, this`past, this`trace, this`checkpoints, this`chunks, this`events, this`faults
      ensures Valid() && old(trace) <= trace && past.sight == old(past.sight)
      ensures Excused(old(faults), err)
      ensures err in {None, Some(Crashed), Some(SinkFailed)} && (err != Some(Crashed) ==> InStep())
      ensures err != Some(Crashed) ==> Balance() == old(Balance())
      ensures err == None ==> checkpoints == next && disk.pending == map[] && disk.checkpoint.Some?
      ensures err == None ==> past.log == old(past.log) + [manifest]
    {
      hide Inv, AdvanceFor, ValidCheckpoints, After, Enabled, Apply, EventCount;
      var delivered := Deliver(NameOf(manifest));
      if !delivered {
        return Some(SinkFailed);
      }
      err := Commit(NameOf(manifest), next);
      if err.Some? {
        return;
      }
      EventCountSnoc(old(past.log), manifest);
      chunks, events := chunks + 1, events + |manifest.body.ndjson|;
    }

    /** The second half of `replaySpool`: the pending chunk is the next one. */
    method Redeliver(name: PendingName, manifest: ChunkManifest) returns (err: Option<Error>)
      requires Valid() && InStep() && disk.pending == map[name := manifest] && name == NameOf(manifest)
      requires manifest.body.sequence == checkpoints.nextSequence && AdvanceFor(checkpoints, manifest).Advanced?
      modifies this`disk, this`sink, this`past, this`trace, this`checkpoints, this`chunks, this`events, this`faults
      ensures Valid() && old(trace) <= trace && past.sight == old(past.sight)
      ensures Excused(old(faults), err)
      ensures err != Some(SpoolRejected) && (err != Some(Crashed) ==> InStep())
      ensures err != Some(Crashed) ==> Balance() == old(Balance())
      ensures err == None ==> disk.pending == map[] && disk.checkpoint.Some?
      ensures err == None ==> past.log == old(past.log) + [manifest]
    {
      hide Inv, ValidManifest, AdvanceFor, Acknowledged, SliceOf, ValidCheckpoints, After, Enabled, Apply, EventCount;
      var advance := AdvanceFor(checkpoints, manifest);
      if !advance.Advanced? {
        err := Some(SpoolRejected);
        return;
      }
      err := Send(manifest, advance.next);
    }

    // ------------------------------------------------------------------- drain

    /** `project`, record by record; export times are read from the clock. */
    method ProjectRead(read: SourceRead, lines: nat) returns (out: Option<seq<Event>>)
      ensures out.Some? ==> Project(cfg.decode, read.path, lines + 1, Records(read.data)) == Some(Identities(out.value))
      ensures out.None? ==> Project(cfg.decode, read.path, lines + 1, Records(read.data)) == None
    {
      var rows := Records(read.data);
      var es: seq<Event> := [];
      for index := 0 to |rows|
        invariant Project(cfg.decode, read.path, lines + 1, rows[..index]) == Some(Identities(es))
      {
        hide Project;
        ghost var row := ProjectRow(cfg.decode, read.path, lines + 1 + index, rows[index]);
        ProjectSnoc(cfg.decode, read.path, lines + 1, rows, index);
        if rows[index] == [] {
          ProjectFails(cfg.decode, read.path, lines + 1, rows, index);
          return None;
        }
        var metrics := cfg.decode(rows[index]);
        if metrics.None? {
          ProjectFails(cfg.decode, read.path, lines + 1, rows, index);
          return None;
        }
        var projected: seq<Event> := [];
        for k := 0 to |metrics.value|
          invariant |projected| == k && Identities(projected) == row.value[..k]
        {
          var exportedAt: int := *;
          var event := Measured(read.path, lines + 1 + index, metrics.value[k], exportedAt);
          IdentitiesConcat(projected, [event]);
          assert row.value[..k + 1] == row.value[..k] + [row.value[k]];
          projected := projected + [event];
        }
        assert row.value[..|metrics.value|] == row.value;
        IdentitiesConcat(es, projected);
        es := es + projected;
      }
      assert rows[..|rows|] == rows;
      return Some(es);
    }

    /** The middle of `drain`: one chunk is written, delivered, acknowledged and
        removed, in that order. */
    method DeliverHistory(read: SourceRead, ghost trailing: bool, es: seq<Event>) returns (err: Option<Error>)
      requires Valid() && InStep() && disk.pending == map[] && es != []
      requires Continues(checkpoints.Source(read.path), read)
      requires FromFile(past.sight.held, checkpoints.Source(read.path), read, trailing)
      requires Project(cfg.decode, read.path, checkpoints.Source(read.path).lines + 1, Records(read.data)) == Some(Identities(es))
      modifies this`disk, this`sink, this`past, this`trace, this`checkpoints, this`chunks, this`events, this`faults
      ensures Valid() && old(trace) <= trace && past.sight == old(past.sight)
      ensures Excused(old(faults), err)
      ensures err != Some(SpoolRejected) && (err != Some(Crashed) ==> InStep())
      ensures err == None ==> disk.pending == map[]
      ensures err == None ==> checkpoints.Source(read.path).offset == read.end && checkpoints.Source(read.path).prefix == read.prefix
      ensures err == None ==> SameBut(old(checkpoints), checkpoints, read.path)
      ensures err != Some(Crashed) ==> Balance() == old(Balance())
    {
      hide Inv, AdvanceFor, ValidCheckpoints, After, Enabled, Apply, Project, Records, Continues, FromFile, EventCount;
      var source := checkpoints.Source(read.path);
      var manifest := HistoryManifest(cfg.identity, source, read, checkpoints.nextSequence, es);
      WriteHistoryShape(cfg, Now(), read, trailing, es);
      err := WritePending(manifest, WriteHistory(read, trailing, es));
      if err.Some? {
        return;
      }
      var next := checkpoints.(nextSequence := checkpoints.nextSequence + 1,
        sources := checkpoints.sources[read.path :=
          DrainedSource(source, read, checkpoints.nextSequence, manifest.body.chunkDigest)]);
      DrainAdvances(checkpoints, read, es);
      err := Send(manifest, next);
    }

    lemma DrainAdvances(c: CheckpointSet, read: SourceRead, es: seq<Event>)
      requires Valid() && c == Loaded(cfg, disk) && Continues(c.Source(read.path), read)
      ensures var m := HistoryManifest(cfg.identity, c.Source(read.path), read, c.nextSequence, es);
              AdvanceFor(c, m) == Advanced(c.(nextSequence := c.nextSequence + 1,
                sources := c.sources[read.path :=
                  DrainedSource(c.Source(read.path), read, c.nextSequence, ChunkSha(es))]))
    {
      Safe();
      SourcesKnown(cfg, Now(), read.path);
      hide Inv, After;
      DrainAgreesWithReplay(c, cfg.identity, read, es);
    }

    lemma HeldIsUnfit(read: SourceRead, trailing: bool)
      requires checkpoints.Source(read.path).lines >= 0 && FromFile(past.sight.held, checkpoints.Source(read.path), read, trailing)
      requires Project(cfg.decode, read.path, checkpoints.Source(read.path).lines + 1, Records(read.data)) == None
      ensures SourceIsBad()
    {
      hide Project, Records, ReadSource;
      assert Unfit(checkpoints.Source(read.path), read.path, past.sight.held[read.path], trailing);
    }

    /** Project a read and record it: silently when it has no events, through
        the spool and the sink otherwise. */
    method Consume(read: SourceRead, ghost trailing: bool) returns (err: Option<Error>)
      requires Valid() && InStep() && disk.pending == map[]
      requires Continues(checkpoints.Source(read.path), read)
      requires FromFile(past.sight.held, checkpoints.Source(read.path), read, trailing)
      modifies this`disk, this`sink, this`past, this`trace, this`checkpoints, this`chunks, this`events, this`faults
      ensures Valid() && old(trace) <= trace && past.sight == old(past.sight)
      ensures Excused(old(faults), err)
      ensures err != Some(SpoolRejected) && (err != Some(Crashed) ==> InStep())
      ensures err == None ==> disk.pending == map[]
      ensures err == None ==> checkpoints.Source(read.path).offset == read.end && checkpoints.Source(read.path).prefix == read.prefix
      ensures err == None ==> SameBut(old(checkpoints), checkpoints, read.path)
      ensures err != Some(Crashed) ==> Balance() == old(Balance())
    {
      hide Inv, AdvanceFor, ValidCheckpoints, After, Enabled, Apply, Project, Records, Continues, FromFile, EventCount;
      SourceFacts(read.path);
      var source := checkpoints.Source(read.path);
      var projected := ProjectRead(read, source.lines);
      if projected.None? {
        HeldIsUnfit(read, trailing);
        return Some(SourceRefused);
      }
      if projected.value != [] {
        err := DeliverHistory(read, trailing, projected.value);
        return;
      }
      MaySkip(cfg, Now(), read, trailing);
      SkipShape(cfg, Now(), read, trailing);
      checkpoints := checkpoints.(sources := checkpoints.sources[read.path :=
        DrainedSource(source, read, source.sequence, source.chunkDigest)]);
      var written := WriteCheckpoints(checkpoints, SkipSilent(read, trailing));
      return if written then None else Some(Crashed);
    }

    /** A source whose file identity changed is checkpointed under the new one
        before anything is written from it. */
    method RebindMoved(path: Path, fileId: FileId) returns (err: Option<Error>)
      requires Valid() && InStep() && disk.pending == map[] && fileId != NoFileId
      requires path !in checkpoints.sources ==> checkpoints.Source(path).path == ""
      modifies this`disk, this`past, this`trace, this`checkpoints, this`faults
      ensures Valid() && old(trace) <= trace && past.sight == old(past.sight)
      ensures Excused(old(faults), err)
      ensures err == None || err == Some(Crashed)
      ensures err == None ==> InStep() && disk.pending == map[]
      ensures err == None ==> checkpoints.Source(path) == Rebound(old(checkpoints).Source(path), fileId)
      ensures err == None ==> SameBut(old(checkpoints), checkpoints, path)
      ensures err == None ==> past.log == old(past.log) && Balance() == old(Balance())
    {
      hide Inv, After, Enabled, Apply, ValidCheckpoints;
      var checkpoint := checkpoints.Source(path);
      if checkpoint.path == "" || checkpoint.fileId == fileId {
        return None;
      }
      var rebound := checkpoints.(sources := checkpoints.sources[path :=
        checkpoint.(fileId := fileId, baseline := false)]);
      RebindShape(cfg, Now(), path, fileId);
      var written := WriteCheckpoints(rebound, Rebind(path, fileId));
      if !written {
        return Some(Crashed);
      }
      checkpoints := rebound;
      return None;
    }

    /** A final drain notes that it has reached the end of a source, in the text its
        file held when it was read. */
    ghost method NoteEnd(final: bool, path: Path)
      requires Valid() && path in past.sight.held
      requires final ==> past.sight.finalDrain.Some? && path in past.sight.finalDrain.value.files
      requires final ==> AtEnd(Loaded(cfg, disk).Source(path), past.sight.held[path].text)
      modifies this`past, this`trace
      ensures Valid() && old(trace) <= trace
      ensures past == if !final then old(past) else old(past).(sight := old(past.sight).(finalDrain :=
                Some(old(past.sight.finalDrain.value).(reached :=
                  old(past.sight.finalDrain.value).reached[path := old(past.sight.held[path].text)]))))
    {
      hide Inv, After, Enabled, Apply;
      if final {
        ReachEndShape(cfg, Now(), path);
        Observe(ReachEnd(path));
      }
    }

    lemma SourceFacts(path: Path)
      requires Valid()
      ensures var c := Loaded(cfg, disk);
              && c.Source(path).lines >= 0
              && (path in c.sources ==> c.Source(path).path == path != "")
              && (path !in c.sources ==> c.Source(path) == NO_CHECKPOINT)
    {
      hide Inv, After;
      Safe();
      SourcesKnown(cfg, Now(), path);
    }

    /** `readSource` on whatever the file holds by now. */
    method Read(path: Path, trailing: bool) returns (err: Option<Error>, read: Option<SourceRead>)
      requires Valid() && InStep() && past.sight.listed.Some? && path in past.sight.listed.value
      modifies this`world, this`past, this`trace, this`faults
      ensures Valid() && old(trace) <= trace && Excused(old(faults), err)
      ensures err in {None, Some(ReadFailed), Some(SourceRefused)} && (err == None ==> read.Some?)
      ensures past == old(past).(sight := old(past.sight).(held := past.sight.held))
      ensures read.Some? ==> path in past.sight.held && past.sight.held == old(past.sight.held)[path := past.sight.held[path]]
      ensures read.Some? ==> ReadFrom(checkpoints.Source(path), path, past.sight.held[path], trailing, read.value)
    {
      hide Inv, ValidCheckpoints, After, PrefixDigestOf, CompletePart, Enabled, Apply, Project, Records;
      Elapse();
      SourceFacts(path);
      var readable := Works();
      if !readable {
        return Some(ReadFailed), None;
      }
      if path !in world.files || !Real(world.files) {
        return Some(SourceRefused), None;
      }
      ReadShape(cfg, Now(), path);
      Observe(ReadFile(path));
      read := ReadSource(path, world.files[path].fileId, world.files[path].text, checkpoints.Source(path), trailing);
      if read.None? {
        assert Unfit(checkpoints.Source(path), path, past.sight.held[path], trailing);
        return Some(SourceRefused), None;
      }
      err := None;
    }

    /** A read with data: rebind its source if its file was replaced, then consume it. */
    method TakeIn(path: Path, read: SourceRead, ghost trailing: bool) returns (err: Option<Error>)
      requires Valid() && InStep() && disk.pending == map[] && path == read.path && read.fileId != NoFileId
      requires Continues(Rebound(checkpoints.Source(path), read.fileId), read)
      requires FromFile(past.sight.held, Rebound(checkpoints.Source(path), read.fileId), read, trailing)
      modifies this`disk, this`sink, this`past, this`trace, this`checkpoints, this`chunks, this`events, this`faults
      ensures Valid() && old(trace) <= trace && past.sight == old(past.sight)
      ensures Excused(old(faults), err)
      ensures err != Some(SpoolRejected) && (err != Some(Crashed) ==> InStep())
      ensures err == None ==> disk.pending == map[]
      ensures err == None ==> checkpoints.Source(path).offset == read.end && checkpoints.Source(path).prefix == read.prefix
      ensures err == None ==> SameBut(old(checkpoints), checkpoints, path)
      ensures err != Some(Crashed) ==> Balance() == old(Balance())
    {
      SourceFacts(path);
      hide Inv, ValidCheckpoints, After, Continues, FromFile, SameBut, EventCount, Rebound, Loaded, Enabled, Apply, Project, Records,
        Balance;
      ghost var was := checkpoints;
      err := RebindMoved(path, read.fileId);
      if err.Some? {
        return;
      }
      ghost var middle := checkpoints;
      err := Consume(read, trailing);
      if err.Some? {
        return;
      }
      SameButTwice(was, middle, checkpoints, path);
    }

    /** What a read brings, if anything. */
    method Absorb(path: Path, read: SourceRead, ghost trailing: bool) returns (err: Option<Error>)
      requires Valid() && InStep() && disk.pending == map[] && path in past.sight.held
      requires ReadFrom(checkpoints.Source(path), path, past.sight.held[path], trailing, read)
      modifies this`disk, this`sink, this`past, this`trace, this`checkpoints, this`chunks, this`events, this`faults
      ensures Valid() && old(trace) <= trace && past.sight == old(past.sight)
      ensures Excused(old(faults), err)
      ensures err != Some(SpoolRejected) && (err != Some(Crashed) ==> InStep())
      ensures err == None ==> disk.pending == map[]
      ensures err == None ==> SameBut(old(checkpoints), checkpoints, path)
      ensures err == None ==> Drained(old(checkpoints).Source(path), checkpoints.Source(path), past.sight.held[path].text, trailing)
      ensures err != Some(Crashed) ==> Balance() == old(Balance())
    {
      hide Inv, ValidCheckpoints, After, Continues, FromFile, ReadFrom, AtEnd, Drained, SameBut, EventCount, Rebound, Loaded;
      ghost var checkpoint, file := checkpoints.Source(path), past.sight.held[path];
      if read.data == [] {
        EmptyRead(checkpoint, path, file, trailing, read);
        SameButItself(checkpoints, path);
        return None;
      }
      FullRead(checkpoint, path, file, trailing, read, past.sight.held);
      err := TakeIn(path, read, trailing);
      if err == None {
        ConsumedRead(checkpoint, path, file, trailing, read, checkpoints.Source(path));
      }
    }

    /** One turn of `drain`'s loop. `final` marks a drain with trailing records
        that began after completion was observed: it must read to the end. */
    method DrainSource(path: Path, trailing: bool, ghost final: bool) returns (err: Option<Error>)
      requires Valid() && InStep() && disk.pending == map[]
      requires past.sight.listed.Some? && path in past.sight.listed.value
      requires final ==> trailing && past.sight.finalDrain.Some? && past.sight.finalDrain.value.files == past.sight.listed.value
      modifies this`disk, this`sink, this`world, this`past, this`trace, this`checkpoints, this`chunks, this`events, this`faults
      ensures Valid() && old(trace) <= trace
      ensures Excused(old(faults), err)
      ensures err != Some(SpoolRejected) && (err != Some(Crashed) ==> InStep())
      ensures err == None ==> disk.pending == map[]
      ensures err == None ==> path in past.sight.held && past.sight.held == old(past.sight.held)[path := past.sight.held[path]]
      ensures past.sight == old(past.sight).(held := past.sight.held, finalDrain := past.sight.finalDrain)
      ensures !final ==> past.sight.finalDrain == old(past.sight.finalDrain)
      ensures final && err == None ==>
                past.sight.finalDrain == Some(old(past.sight.finalDrain.value).(reached :=
                  old(past.sight.finalDrain.value.reached)[path := past.sight.held[path].text]))
      ensures err == None ==> SameBut(old(checkpoints), checkpoints, path)
      ensures err == None ==> Drained(old(checkpoints).Source(path), checkpoints.Source(path), past.sight.held[path].text, trailing)
      ensures err != Some(Crashed) ==> Balance() == old(Balance())
    {
      hide Inv, ValidCheckpoints, After, ReadFrom, AtEnd, Drained, SameBut, EventCount, Loaded;
      var attempt;
      err, attempt := Read(path, trailing);
      if err.Some? {
        return;
      }
      err := Absorb(path, attempt.value, trailing);
      if err.Some? {
        return;
      }
      DrainedLeavesNothing(old(checkpoints).Source(path), checkpoints.Source(path), past.sight.held[path].text, trailing);
      NoteEnd(final, path);
    }

    /** The existing files a pattern names, in whatever order the file system gives. */
    method Glob(pattern: Path -> bool) returns (matches: seq<Path>)
      ensures forall p :: p in matches <==> p in world.files && pattern(p)
    {
      matches := [];
      var todo := world.files.Keys;
      while todo != {}
        invariant todo <= world.files.Keys
        invariant forall p :: p in matches <==> p in world.files && p !in todo && pattern(p)
        decreases |todo|
      {
        var p :| p in todo;
        todo := todo - {p};
        if pattern(p) {
          matches := matches + [p];
        }
      }
    }

    /** The matches of all the patterns, each once. */
    method MatchHistory() returns (found: seq<Path>)
      ensures SetOf(found) == Listed(cfg, world)
      ensures forall i, j | 0 <= i < j < |found| :: found[i] != found[j]
    {
      var seen: set<Path> := {};
      found := [];
      for i := 0 to |cfg.history|
        invariant SetOf(found) == seen
        invariant forall j, k | 0 <= j < k < |found| :: found[j] != found[k]
        invariant forall p :: p in seen <==> p in world.files && exists j | 0 <= j < i :: cfg.history[j](p)
      {
        var matches := Glob(cfg.history[i]);
        ghost var before := seen;
        for k := 0 to |matches|
          invariant SetOf(found) == seen
          invariant forall j, m | 0 <= j < m < |found| :: found[j] != found[m]
          invariant forall p :: p in seen <==> p in before || p in matches[..k]
        {
          assert matches[..k + 1] == matches[..k] + [matches[k]];
          if matches[k] !in seen {
            assert matches[k] !in found;
            seen := seen + {matches[k]};
            found := found + [matches[k]];
          }
        }
        assert matches[..|matches|] == matches;
      }
    }

    /** `expandHistory`: the existing files the patterns name, sorted, each once. */
    method ExpandHistory() returns (err: Option<Error>, files: seq<Path>)
      requires Valid()
      modifies this`world, this`past, this`trace, this`faults
      ensures Valid() && old(trace) <= trace
      ensures Excused(old(faults), err)
      ensures err == None || err == Some(ReadFailed)
      ensures err.Some? ==> past == old(past)
      ensures err == None ==> past == old(past).(sight := old(past.sight).(
                listings := old(past.sight.listings) + 1, listed := Some(SetOf(files)), held := map[]))
      ensures err == None ==> SetOf(files) == Listed(cfg, world)
      ensures forall i, j | 0 <= i < j < |files| :: Precedes(files[i], files[j])
    {
      hide Inv, After, Enabled, Apply, Listed, SortStrings;
      Elapse();
      var listable := Works();
      if !listable {
        return Some(ReadFailed), [];
      }
      var found := MatchHistory();
      files := SortStrings(found);
      SortedDistinct(found);
      assert SetOf(files) == SetOf(found);
      ListShape();
      Observe(ListFiles);
      err := None;
    }

    lemma ListShape()
      ensures Enabled(cfg, Now(), ListFiles)
      ensures Apply(cfg, Now(), ListFiles) == Now().(past := past.(sight := past.sight.(
                listings := past.sight.listings + 1, listed := Some(Listed(cfg, world)), held := map[])))
    {
    }

    lemma IncreasingIsDistinct(files: seq<Path>)
      requires forall i, j | 0 <= i < j < |files| :: Precedes(files[i], files[j])
      ensures forall i, j | 0 <= i < j < |files| :: files[i] != files[j]
    {
      hide Precedes;
      forall i, j | 0 <= i < j < |files| ensures files[i] != files[j] {
        PrecedesIsTotal(files[i], files[j]);
      }
    }

    /** `drain`: list the history files and consume every one of them in turn. */
    method Drain(trailing: bool, ghost final: bool) returns (err: Option<Error>)
      requires Valid() && InStep() && disk.pending == map[]
      requires final ==> trailing && past.sight.completionSeen
      modifies this`disk, this`sink, this`world, this`past, this`trace, this`checkpoints, this`chunks, this`events, this`faults
      ensures Valid() && old(trace) <= trace
      ensures Excused(old(faults), err)
      ensures err != Some(SpoolRejected) && (err != Some(Crashed) ==> InStep())
      ensures past.sight.completionSeen == old(past.sight.completionSeen) && past.sight.outcome == old(past.sight.outcome)
      ensures err == None ==> disk.pending == map[] && past.sight.listings == old(past.sight.listings) + 1
      ensures err == None ==>
                forall p | p in old(checkpoints).sources && p !in past.sight.held :: old(checkpoints).sources[p].baseline
      ensures err == None ==> AllDrained(old(checkpoints), checkpoints, past.sight.held, trailing)
      ensures err == None ==> RecordsConsumed() && (trailing ==> EndsReached()) && (final ==> FinalDrainComplete())
      ensures err != Some(Crashed) ==> Balance() == old(Balance())
    {
      hide Inv, ValidCheckpoints, After, Enabled, Apply, Drained, EventCount, SameBut, AllDrained, Loaded, AllCaughtUp, AllAtEnd,
        Precedes;
      ghost var was := checkpoints;
      var files;
      err, files := ExpandHistory();
      if err.Some? {
        return;
      }
      IncreasingIsDistinct(files);
      if exists p | p in checkpoints.sources :: p !in files && !checkpoints.sources[p].baseline {
        return Some(SourceRefused);
      }
      if final {
        BeginShape(cfg, Now());
        Observe(BeginFinalDrain);
      }
      err := DrainListed(files, trailing, final);
      if err == None {
        AllDrainedLeaveNothing(was, checkpoints, past.sight.held, trailing);
      }
    }

    /** The loop of `drain`. */
    method DrainListed(files: seq<Path>, trailing: bool, ghost final: bool) returns (err: Option<Error>)
      requires Valid() && InStep() && disk.pending == map[]
      requires past.sight.listed == Some(SetOf(files)) && past.sight.held == map[]
      requires forall i, j | 0 <= i < j < |files| :: files[i] != files[j]
      requires final ==> trailing && past.sight.finalDrain == Some(FinalDrain(SetOf(files), map[]))
      modifies this`disk, this`sink, this`world, this`past, this`trace, this`checkpoints, this`chunks, this`events, this`faults
      ensures Valid() && old(trace) <= trace
      ensures Excused(old(faults), err)
      ensures err != Some(SpoolRejected) && (err != Some(Crashed) ==> InStep())
      ensures past.sight == old(past.sight).(held := past.sight.held, finalDrain := past.sight.finalDrain)
      ensures err == None ==> disk.pending == map[] && past.sight.held.Keys == SetOf(files)
      ensures err == None && final ==> past.sight.finalDrain == Some(FinalDrain(SetOf(files), Texts(past.sight.held)))
      ensures err == None ==> AllDrained(old(checkpoints), checkpoints, past.sight.held, trailing)
      ensures err != Some(Crashed) ==> Balance() == old(Balance())
    {
      hide Inv, ValidCheckpoints, After, Enabled, Apply, Drained, EventCount, SameBut, AllDrained, Loaded;
      NoneDrained(checkpoints, trailing);
      for i := 0 to |files|
        invariant Valid() && InStep() && disk.pending == map[] && old(trace) <= trace
        invariant past.sight == old(past.sight).(held := past.sight.held, finalDrain := past.sight.finalDrain)
        invariant past.sight.held.Keys == SetOf(files[..i])
        invariant final ==> past.sight.finalDrain == Some(FinalDrain(SetOf(files), Texts(past.sight.held)))
        invariant AllDrained(old(checkpoints), checkpoints, past.sight.held, trailing)
        invariant Balance() == old(Balance()) && faults >= old(faults)
      {
        OneMorePath(files, i);
        ghost var middle, held := checkpoints, past.sight.held;
        err := DrainSource(files[i], trailing, final);
        if err.Some? {
          return;
        }
        OneMoreDrained(old(checkpoints), middle, checkpoints, held, trailing, files[i], past.sight.held[files[i]]);
        OneMoreText(held, files[i], past.sight.held[files[i]]);
      }
      assert files[..|files|] == files;
      err := None;
    }

    // ------------------------------------------------------ terminal observations

    /** `publishCompletion`: record one terminal observation, once. */
    method PublishCompletion(status: Completion, observation: ObservationId) returns (err: Option<Error>)
      requires Valid() && InStep() && disk.pending == map[]
      requires MayConclude(cfg, past.sight, observation, status)
      modifies this`disk, this`sink, this`past, this`trace, this`checkpoints, this`chunks, this`events, this`faults
      ensures Valid() && old(trace) <= trace && past.sight == old(past.sight)
      ensures faults >= old(faults) && (err != Some(EventRefused) ==> Excused(old(faults), err))
      ensures err != Some(SpoolRejected) && (err != Some(Crashed) ==> InStep())
      ensures err == None ==> disk.pending == map[] && observation in checkpoints.terminals
      ensures err == None ==> checkpoints.sources == old(checkpoints.sources)
      ensures err == None ==>
                if observation in old(checkpoints.terminals) then checkpoints == old(checkpoints) && past.log == old(past.log)
                else past.log == old(past.log) + [TerminalManifest(cfg.identity, TerminalSource(cfg), observation,
                       old(checkpoints.nextSequence), TerminalPayload(cfg, status))]
      ensures err == Some(EventRefused) <==>
                observation !in old(checkpoints.terminals) && TerminalEvent(cfg, status).None?
      ensures err == Some(EventRefused) ==> disk == old(disk) && checkpoints == old(checkpoints)
      ensures err != Some(Crashed) ==> Balance() == old(Balance())
    {
      hide Inv, AdvanceFor, ValidCheckpoints, After, Enabled, Apply, EventCount, TerminalEvent;
      if observation in checkpoints.terminals {
        return None;
      }
      if TerminalEvent(cfg, status).None? {
        return Some(EventRefused);
      }
      var manifest := TerminalManifest(cfg.identity, TerminalSource(cfg), observation, checkpoints.nextSequence,
                        TerminalPayload(cfg, status));
      WriteTerminalShape(cfg, Now(), observation, status);
      err := WritePending(manifest, WriteTerminal(observation, status));
      if err.Some? {
        return;
      }
      var next := checkpoints.(nextSequence := checkpoints.nextSequence + 1,
        terminals := checkpoints.terminals[observation :=
          TerminalCheckpoint(checkpoints.nextSequence, manifest.body.chunkDigest)]);
      TerminalAgreesWithReplay(checkpoints, cfg.identity, TerminalSource(cfg), observation, TerminalPayload(cfg, status));
      err := Send(manifest, next);
    }

    lemma StatusShape(status: Completion)
      requires past.sight.completionSeen && world.completion == Present(status)
      ensures Enabled(cfg, Now(), ReadStatus)
      ensures Apply(cfg, Now(), ReadStatus) == Now().(past := past.(sight := past.sight.(outcome := Some(status))))
    {
    }

    /** `readCompletion` and `publishStatus`. */
    method PublishStatus() returns (err: Option<Error>)
      requires Valid() && InStep() && disk.pending == map[] && past.sight.completionSeen
      modifies this`disk, this`sink, this`world, this`past, this`trace, this`checkpoints, this`chunks, this`events, this`faults
      ensures Valid() && old(trace) <= trace
      ensures Excused(old(faults), err)
      ensures past.sight == old(past.sight).(outcome := past.sight.outcome)
      ensures err != Some(SpoolRejected) && (err != Some(Crashed) ==> InStep())
      ensures err == None ==> disk.pending == map[] && OutcomeRecorded() && checkpoints.sources == old(checkpoints.sources)
      ensures err == Some(EventRefused) ==> past.sight.outcome.Some? && TerminalEvent(cfg, past.sight.outcome.value).None?
      ensures err != Some(Crashed) ==> Balance() == old(Balance())
    {
      hide Inv, After, ValidCheckpoints, Enabled, Apply, EventCount;
      Elapse();
      match world.completion
      case Absent => err := Some(SourceRefused);
      case Unreadable => err := Some(SourceRefused);
      case Present(status) =>
        StatusShape(status);
        Observe(ReadStatus);
        err := PublishCompletion(status, StatusSha(status));
    }

    /** `publishDone`. */
    method PublishDoneFile() returns (err: Option<Error>)
      requires Valid() && InStep() && FinalDrainComplete() && OutcomeRecorded()
      modifies this`disk, this`past, this`trace, this`faults
      ensures Valid() && old(trace) <= trace && past.sight == old(past.sight) && past.log == old(past.log)
      ensures Excused(old(faults), err)
      ensures err == None || err == Some(Crashed)
      ensures err == None ==> InStep() && (doneFile ==> disk.done) && disk.pending == old(disk.pending)
    {
      hide Inv, After, ValidCheckpoints, Enabled, Apply;
      if !doneFile {
        return None;
      }
      DoneShape(cfg, Now());
      var written := WriteDoneFile();
      return if written then None else Some(Crashed);
    }

    lemma SeeShape()
      requires cfg.completionFile != "" && world.completion != Absent
      ensures Enabled(cfg, Now(), SeeCompletion)
      ensures Apply(cfg, Now(), SeeCompletion).past.sight.completionSeen
      ensures var t := Apply(cfg, Now(), SeeCompletion);
              t.disk == disk && t.sink == sink && t.world == world && t.past.log == past.log
    {
    }

    /** `fileExists` on the completion file; once it is there, the process knows. */
    method CompletionExists() returns (err: Option<Error>, found: bool)
      requires Valid() && InStep()
      modifies this`world, this`past, this`trace, this`faults
      ensures Valid() && InStep() && old(trace) <= trace
      ensures Excused(old(faults), err)
      ensures err == None || err == Some(ReadFailed)
      ensures found ==> err == None && past.sight.completionSeen
      ensures !found ==> past == old(past)
      ensures err == None ==> found == (cfg.completionFile != "" && world.completion != Absent)
      ensures Balance() == old(Balance())
    {
      hide Inv, After, ValidCheckpoints, Enabled, Apply, EventCount;
      Elapse();
      if cfg.completionFile == "" {
        return None, false;
      }
      var accessible := Works();
      if !accessible {
        return Some(ReadFailed), false;
      }
      if world.completion == Absent {
        return None, false;
      }
      SeeShape();
      Observe(SeeCompletion);
      return None, true;
    }

    /** `finishCompleted`; a cancelled context hands over to `FinishCancelled`. */
    method FinishCompleted() returns (err: Option<Error>, completed: bool)
      requires Valid() && InStep() && disk.pending == map[] && past.sight.completionSeen
      modifies this`disk, this`sink, this`world, this`past, this`trace, this`checkpoints, this`chunks, this`events, this`faults
      ensures Valid() && old(trace) <= trace && err != Some(SpoolRejected)
      ensures Excused(old(faults), err)
      ensures completed && err == None ==> FinalDrainComplete() && OutcomeRecorded()
      ensures completed && err == None ==> disk.pending == map[] && (doneFile ==> disk.done)
      ensures err == None && !completed ==> Cancelled()
      ensures err != Some(Crashed) ==> Balance() == old(Balance())
    {
      hide Inv, After, ValidCheckpoints, Enabled, Apply, EventCount, AllCaughtUp, AllAtEnd, AllDrained;
      completed := false;
      var readable := Works();
      if !readable {
        return Some(ReadFailed), false;
      }
      err := Drain(true, true);
      if err.Some? {
        var cancelled: bool := *;
        if cancelled && err != Some(Crashed) {
          err, completed := FinishCancelled();
        }
        return;
      }
      ghost var drained := checkpoints;
      err := PublishStatus();
      if err.Some? {
        var cancelled: bool := *;
        if cancelled && err != Some(Crashed) {
          err, completed := FinishCancelled();
        }
        return;
      }
      SameSourcesSameEnds(drained, checkpoints, past.sight.held);
      completed := true;
      err := PublishDoneFile();
    }

    /** A shutdown that saw no completion: everything listed is consumed to its end,
        and the cancellation of this configuration is recorded. */
    ghost predicate Cancelled()
      reads this
    {
      InStep() && disk.pending == map[] && EndsReached() && CancellationSha(cfg.identity) in checkpoints.terminals
    }

    /** `finishCancelled`: replay what is pending, drain everything, and record
        the completion if there is one, else one synthetic cancellation. */
    method FinishCancelled() returns (err: Option<Error>, completed: bool)
      requires Valid() && InStep()
      modifies this`disk, this`sink, this`world, this`past, this`trace, this`checkpoints, this`chunks, this`events, this`faults
      ensures Valid() && old(trace) <= trace && err != Some(SpoolRejected)
      ensures Excused(old(faults), err)
      ensures completed && err == None ==> FinalDrainComplete() && OutcomeRecorded()
      ensures completed && err == None ==> disk.pending == map[] && (doneFile ==> disk.done)
      ensures err == None && !completed ==> Cancelled()
      ensures err != Some(Crashed) ==> Balance() == old(Balance())
    {
      hide Inv, After, ValidCheckpoints, Enabled, Apply, EventCount, AllCaughtUp, AllAtEnd, AllDrained;
      err, completed := CompletionExists();
      if err.Some? {
        return err, false;
      }
      var replayed;
      err, replayed := ReplaySpool();
      if err.Some? {
        return err, false;
      }
      err := Drain(true, completed);
      if err.Some? {
        return err, false;
      }
      if !completed {
        err, completed := CompletionExists();
        if err.Some? {
          return err, false;
        }
        if completed {
          err := Drain(true, true);
          if err.Some? {
            return err, false;
          }
        }
      }
      err, completed := PublishOutcome(completed);
    }

    /** The last step of a shutdown: the workload's own status and the done file,
        or one synthetic cancellation for this configuration. */
    method PublishOutcome(seen: bool) returns (err: Option<Error>, completed: bool)
      requires Valid() && InStep() && disk.pending == map[] && EndsReached()
      requires seen ==> past.sight.completionSeen && FinalDrainComplete()
      modifies this`disk, this`sink, this`world, this`past, this`trace, this`checkpoints, this`chunks, this`events, this`faults
      ensures Valid() && old(trace) <= trace && err != Some(SpoolRejected)
      ensures Excused(old(faults), err)
      ensures past.sight == old(past.sight).(outcome := past.sight.outcome)
      ensures completed && err == None ==> FinalDrainComplete() && OutcomeRecorded()
      ensures completed && err == None ==> disk.pending == map[] && (doneFile ==> disk.done)
      ensures err == None ==> completed == seen
      ensures err == None && !completed ==> Cancelled()
      ensures err != Some(Crashed) ==> Balance() == old(Balance())
    {
      hide Inv, After, ValidCheckpoints, Enabled, Apply, EventCount, AllAtEnd;
      completed := seen;
      if completed {
        err := PublishStatus();
        if err.Some? {
          return err, false;
        }
        SameSourcesSameEnds(old(checkpoints), checkpoints, past.sight.held);
        err := PublishDoneFile();
        return;
      }
      var now: int := *;
      if !ValidTime(now) {
        faults := faults + 1;
      }
      var status := Completion(CompletionState.Cancelled, "collector_context_cancelled",
        "metrics collector received cancellation before workload completion", now);
      err := PublishCompletion(status, CancellationSha(cfg.identity));
      if err == None {
        SameSourcesSameEnds(old(checkpoints), checkpoints, past.sight.held);
      }
    }

    // --------------------------------------------------------------------- run

    /** `loadCheckpoints`. */
    method LoadCheckpoints() returns (err: Option<Error>, existed: bool)
      requires Valid()
      modifies this`checkpoints
      ensures err == None && InStep() && existed == disk.checkpoint.Some?
    {
      hide Inv, After, ValidCheckpoints;
      Safe();
      LoadedIsValid(cfg, Now());
      match disk.checkpoint {
        case None =>
          checkpoints := InitialCheckpoints(cfg.identity);
          return None, false;
        case Some(stored) =>
          if !ValidCheckpoints(stored, cfg.identity) {
            err := Some(SpoolRejected);
            return;
          }
          checkpoints := stored;
          return None, true;
      }
    }

    /** `baselineSource` opens and reads a file. */
    method ReadForBaseline(path: Path) returns (err: Option<Error>, file: Option<SourceFile>)
      requires Valid() && past.sight.listed.Some? && path in past.sight.listed.value
      modifies this`world, this`past, this`trace, this`faults
      ensures Valid() && old(trace) <= trace && Excused(old(faults), err)
      ensures err in {None, Some(ReadFailed), Some(SourceRefused)} && (err == None ==> file.Some?)
      ensures past == old(past).(sight := old(past.sight).(held := past.sight.held))
      ensures file.Some? ==> past.sight.held == old(past.sight.held)[path := file.value]
      ensures file.Some? ==> path != "" && file.value.fileId != NoFileId
    {
      hide Inv, After, Enabled, Apply;
      Elapse();
      var readable := Works();
      if !readable {
        return Some(ReadFailed), None;
      }
      if path !in world.files || !Real(world.files) {
        return Some(SourceRefused), None;
      }
      ReadShape(cfg, Now(), path);
      Observe(ReadFile(path));
      return None, Some(world.files[path]);
    }

    /** The first start in baseline mode: skip the complete records every listed
        file already holds. */
    method Baseline(files: seq<Path>) returns (err: Option<Error>)
      requires Valid() && InStep() && cfg.baseline && disk.checkpoint.None? && disk.pending == map[]
      requires past.sight.listed == Some(SetOf(files)) && past.sight.held == map[] && !past.sight.completionSeen
      modifies this`disk, this`world, this`past, this`trace, this`checkpoints, this`faults
      ensures Valid() && old(trace) <= trace && past.sight == old(past.sight).(held := past.sight.held)
      ensures Excused(old(faults), err)
      ensures err in {None, Some(ReadFailed), Some(SourceRefused), Some(Crashed)}
      ensures err == None ==> InStep() && disk.pending == map[] && disk.checkpoint.Some? && Baselined()
      ensures Balance() == old(Balance())
    {
      hide Inv, After, Enabled, Apply, ValidCheckpoints, BaselineSource, BaselineCheckpoints, EventCount;
      NothingBaselined(cfg);
      var sequence := checkpoints.nextSequence - 1;
      var collected := checkpoints;
      for i := 0 to |files|
        invariant Valid() && old(trace) <= trace && disk == old(disk) && sink == old(sink)
        invariant past == old(past).(sight := old(past.sight).(held := past.sight.held))
        invariant past.sight.held.Keys == SetOf(files[..i]) && Real(past.sight.held)
        invariant collected == BaselineCheckpoints(cfg, past.sight.held) && faults >= old(faults)
      {
        assert files[..i + 1] == files[..i] + [files[i]];
        ghost var held := past.sight.held;
        var file;
        err, file := ReadForBaseline(files[i]);
        if err.Some? {
          return;
        }
        OneMoreBaselined(cfg, held, files[i], file.value);
        collected := collected.(sources := collected.sources[files[i] :=
          BaselineSource(files[i], file.value.fileId, file.value.text, sequence)]);
      }
      assert files[..|files|] == files;
      BaselineMayPersist(cfg, Now());
      var written := WriteCheckpoints(collected, PersistBaseline);
      if !written {
        return Some(Crashed);
      }
      checkpoints := collected;
      BaselinedSources();
      return None;
    }

    lemma BaselinedSources()
      requires checkpoints == BaselineCheckpoints(cfg, past.sight.held) && past.sight.listed == Some(past.sight.held.Keys)
      ensures Baselined()
    {
      hide BaselineSource;
    }

    lemma RestartShape()
      ensures Enabled(cfg, Now(), Restart)
      ensures Apply(cfg, Now(), Restart) == Now().(past := past.(sight := BLIND))
    {
    }

    /** From process start to the first drain: load, replay, list, baseline, ready. */
    method Start() returns (err: Option<Error>)
      requires Valid()
      modifies this
      ensures Valid() && old(trace) <= trace
      ensures Excused(old(faults), err)
      ensures err != Some(SpoolRejected) && (err == None || err == Some(SinkFailed) ==> InStep())
      ensures err == None ==> disk.pending == map[] && (readyFile ==> disk.ready)
      ensures err == None && cfg.baseline && old(disk.checkpoint).None? && old(disk.pending) == map[] ==> Baselined()
      ensures err != Some(Crashed) ==> chunks == |past.log| - |old(past.log)| && events == EventCount(past.log) - EventCount(old(past.log))
    {
      hide Inv, After, Enabled, Apply, ValidCheckpoints, EventCount, BaselineSource;
      chunks, events := 0, 0;
      RestartShape();
      Observe(Restart);
      var existed;
      err, existed := LoadCheckpoints();
      if err.Some? {
        return;
      }
      var replayed;
      err, replayed := ReplaySpool();
      if err.Some? {
        return;
      }
      var files;
      err, files := ExpandHistory();
      if err.Some? {
        return;
      }
      if cfg.baseline && !existed && replayed == 0 {
        err := Baseline(files);
        if err.Some? {
          return;
        }
      }
      err := AnnounceReady();
    }

    method AnnounceReady() returns (err: Option<Error>)
      requires Valid() && InStep() && disk.pending == map[] && (cfg.baseline ==> disk.checkpoint.Some?)
      modifies this`disk, this`past, this`trace, this`faults
      ensures Valid() && old(trace) <= trace && past == old(past)
      ensures Excused(old(faults), err)
      ensures err == None || err == Some(Crashed)
      ensures err == None ==> InStep() && disk.pending == map[] && (readyFile ==> disk.ready)
    {
      hide Inv, After, Enabled, Apply, ValidCheckpoints;
      if !readyFile {
        return None;
      }
      ReadyShape(cfg, Now());
      var written := WriteReadyFile();
      return if written then None else Some(Crashed);
    }

    /** `Run`. The context is cancelled after at most `polls` waits. Unless the
        process crashed, its result counts exactly what it acknowledged. A run that
        ends without completion has consumed every complete record of the files it
        listed last; one that completed, everything they held. */
    method Run(polls: nat) returns (err: Option<Error>, completed: bool)
      requires Valid()
      modifies this
      ensures Valid() && old(trace) <= trace
      ensures Excused(old(faults), err)
      ensures err != Some(SpoolRejected)
      ensures completed && err == None ==> FinalDrainComplete() && OutcomeRecorded()
      ensures completed && err == None ==> disk.pending == map[] && (doneFile ==> disk.done)
      ensures !completed && err == None ==> disk.pending == map[] && RecordsConsumed()
      ensures err != Some(Crashed) ==> chunks == |past.log| - |old(past.log)| && events == EventCount(past.log) - EventCount(old(past.log))
    {
      hide Inv, After, Enabled, Apply, ValidCheckpoints, EventCount, AllCaughtUp, AllAtEnd, AllDrained;
      completed := false;
      err := Start();
      if err.Some? {
        var cancelled: bool := *;
        if cancelled && err == Some(SinkFailed) {
          err, completed := Shutdown();
        }
        return;
      }
      var iteration, waits := 1, polls;
      while true
        invariant Valid() && InStep() && disk.pending == map[] && old(trace) <= trace
        invariant chunks == |past.log| - |old(past.log)| && events == EventCount(past.log) - EventCount(old(past.log))
        invariant faults >= old(faults)
        decreases waits
      {
        var found;
        err, found := CompletionExists();
        if err.Some? {
          return err, false;
        }
        if found {
          err, completed := Finish();
          return;
        }
        err := Drain(false, false);
        if err.Some? {
          var cancelled: bool := *;
          if cancelled && err != Some(Crashed) {
            err, completed := Shutdown();
          }
          return;
        }
        err, found := CompletionExists();
        if err.Some? {
          return err, false;
        }
        if found {
          err, completed := Finish();
          return;
        }
        if !watch || (maxIterations > 0 && iteration >= maxIterations) {
          return None, false;
        }
        var cancelled: bool := *;
        if cancelled || waits == 0 {
          err, completed := Shutdown();
          return;
        }
        iteration, waits := iteration + 1, waits - 1;
      }
    }

    method Shutdown() returns (err: Option<Error>, completed: bool)
      requires Valid() && InStep()
      modifies this`disk, this`sink, this`world, this`past, this`trace, this`checkpoints, this`chunks, this`events, this`faults
      ensures Valid() && old(trace) <= trace && err != Some(SpoolRejected)
      ensures Excused(old(faults), err)
      ensures completed && err == None ==> FinalDrainComplete() && OutcomeRecorded()
      ensures completed && err == None ==> disk.pending == map[] && (doneFile ==> disk.done)
      ensures !completed && err == None ==> disk.pending == map[] && RecordsConsumed()
      ensures err != Some(Crashed) ==> Balance() == old(Balance())
    {
      hide Inv, After, ValidCheckpoints, Enabled, Apply, EventCount, AllCaughtUp, AllAtEnd;
      err, completed := FinishCancelled();
      if err == None && !completed {
        AtEndIsCaughtUp(checkpoints, past.sight.held);
      }
    }

    method Finish() returns (err: Option<Error>, completed: bool)
      requires Valid() && InStep() && disk.pending == map[] && past.sight.completionSeen
      modifies this`disk, this`sink, this`world, this`past, this`trace, this`checkpoints, this`chunks, this`events, this`faults
      ensures Valid() && old(trace) <= trace && err != Some(SpoolRejected)
      ensures Excused(old(faults), err)
      ensures completed && err == None ==> FinalDrainComplete() && OutcomeRecorded()
      ensures completed && err == None ==> disk.pending == map[] && (doneFile ==> disk.done)
      ensures !completed && err == None ==> disk.pending == map[] && RecordsConsumed()
      ensures err != Some(Crashed) ==> Balance() == old(Balance())
    {
      hide Inv, After, ValidCheckpoints, Enabled, Apply, EventCount, AllCaughtUp, AllAtEnd;
      err, completed := FinishCompleted();
      if err == None && !completed {
        AtEndIsCaughtUp(checkpoints, past.sight.held);
      }
    }

    /** Any number of processes one after the other, each ending wherever it
        likes: the collector never refuses what it left behind, and everything
        the theorems say of reachable states holds of what remains. */
    method Lifetime(restarts: nat, polls: nat)
      requires Valid()
      modifies this
      ensures Valid() && old(trace) <= trace && Inv(cfg, Now())
    {
      for i := 0 to restarts
        invariant Valid() && old(trace) <= trace
      {
        var err, completed := Run(polls);
        assert err != Some(SpoolRejected);
      }
      Safe();
    }

    constructor (cfg: Config, readyFile: bool, doneFile: bool, watch: bool, maxIterations: nat, attempts: nat)
      requires cfg.identity != "" && (cfg.baseline ==> readyFile) && attempts > 0
      ensures Valid() && Now() == START
    {
      this.cfg, this.readyFile, this.doneFile := cfg, readyFile, doneFile;
      this.watch, this.maxIterations, this.attempts := watch, maxIterations, attempts;
      disk, sink, world, past, trace := START.disk, START.sink, START.world, START.past, [];
      checkpoints, chunks, events, faults := InitialCheckpoints(cfg.identity), 0, 0, 0;
    }
  }
}

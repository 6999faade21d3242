/** Every action of the collector's protocol keeps its invariant, so every state
    any run can reach, whatever crashes it went through, satisfies it. */
module CollectorSafety {
  import opened SourceText
  import opened Telemetry
  import opened Spool
  import opened Wrappers
  import opened CollectorProtocol

  // ------------------------------------------------------------ log and sink

  lemma AcceptsSnoc(ms: seq<ChunkManifest>, m: ChunkManifest)
    ensures Accepts(ms + [m]) ==
            if m.body.chunkDigest in Accepts(ms) then Accepts(ms) else Accepts(ms) + [m.body.chunkDigest]
  {
    assert (ms + [m])[..|ms|] == ms;
  }

  lemma LogEventsSnoc(log: seq<ChunkManifest>, m: ChunkManifest, path: Path)
    ensures LogEvents(log + [m], path) == LogEvents(log, path) + Measurements(m.body.ndjson, path)
  {
    assert (log + [m])[..|log|] == log;
  }

  lemma {:induction false} MeasurementsOnLines(es: seq<Event>, path: Path, first: nat, end: nat, other: Path)
    requires OnLines(es, path, first, end)
    ensures Measurements(es, other) == if other == path then Identities(es) else []
  {
    if es != [] {
      var front := es[..|es|-1];
      MeasurementsOnLines(front, path, first, end, other);
      assert es == front + [es[|es|-1]];
      IdentitiesConcat(front, [es[|es|-1]]);
    }
  }

  /** The tags the sink holds come from the chunks it was given. */
  lemma {:induction false} AcceptsComeFromLog(ms: seq<ChunkManifest>, tag: ChunkDigest)
    ensures tag in Accepts(ms) <==> exists i :: 0 <= i < |ms| && ms[i].body.chunkDigest == tag
  {
    if ms != [] {
      var front := ms[..|ms|-1];
      AcceptsComeFromLog(front, tag);
      if tag in Accepts(ms) && tag in Accepts(front) {
        var i :| 0 <= i < |front| && front[i].body.chunkDigest == tag;
        assert ms[i].body.chunkDigest == tag;
      }
      if i :| 0 <= i < |ms| && ms[i].body.chunkDigest == tag {
        if i < |front| {
          assert front[i].body.chunkDigest == tag;
        }
      }
    }
  }

  // ------------------------------------------------- growing one source's tail

  /** The tails after one more slice of `path` was consumed. */
  function Grown(tails: map<Path, Tail>, path: Path, slice: Bytes): map<Path, Tail> {
    tails[path := Grow(TailOf(tails, path), slice)]
  }

  /** A slice that continues the checkpoint continues the consumed text. */
  lemma ReadContinuesTail(c: CheckpointSet, tails: map<Path, Tail>, read: SourceRead)
    requires SourcesDescribeTails(c.sources, tails)
    requires Continues(c.Source(read.path), read)
    ensures var t := TailOf(tails, read.path);
            && read.start == |Consumed(t)| && c.Source(read.path).lines == LinesRead(t)
            && read.prefix == PrefixSha(Consumed(t) + read.data)
  {
    var t := TailOf(tails, read.path);
    assert read.path in c.sources ==> SourceMatches(c.sources[read.path], read.path, t);
    assert read.prefix.text == read.prefix.text[..read.start] + read.data;
  }

  lemma SourcesAfterGrowth(sources: map<Path, SourceCheckpoint>, tails: map<Path, Tail>, path: Path, slice: Bytes,
                           c: SourceCheckpoint)
    requires SourcesDescribeTails(sources, tails)
    requires c.path == path != "" && c.fileId != NoFileId && slice != []
    requires (c.sequence == 0 <==> c.chunkDigest == NoDigest)
    requires var t := TailOf(tails, path);
             && c.offset == |Consumed(t)| + |slice| && c.prefix == PrefixSha(Consumed(t) + slice)
             && c.lines == LinesRead(t) + LineCount(slice)
    ensures SourcesDescribeTails(sources[path := c], Grown(tails, path, slice))
  {
    GrowConsumed(TailOf(tails, path), slice);
  }

  lemma ProjectionAfterGrowth(decode: RowDecoder, log: seq<ChunkManifest>, log': seq<ChunkManifest>,
                              tails: map<Path, Tail>, path: Path, slice: Bytes, ids: seq<Event>)
    requires LogIsProjection(decode, log, tails)
    requires Project(decode, path, LinesRead(TailOf(tails, path)) + 1, Records(slice)) == Some(ids)
    requires forall p :: LogEvents(log', p) == LogEvents(log, p) + if p == path then ids else []
    ensures LogIsProjection(decode, log', Grown(tails, path, slice))
  {
    hide Project, Records, LogEvents, Stream, LinesRead, Grow;
    forall p
      ensures Stream(decode, p, TailOf(Grown(tails, path, slice), p)) == Some(LogEvents(log', p))
    {
      assert Stream(decode, p, TailOf(tails, p)) == Some(LogEvents(log, p));
      if p == path {
        GrowStream(decode, path, TailOf(tails, path), slice);
      } else {
        assert LogEvents(log', p) == LogEvents(log, p);
      }
    }
  }

  lemma LogSoundAfterGrowth(cfg: Config, log: seq<ChunkManifest>, tails: map<Path, Tail>, path: Path, slice: Bytes)
    requires LogIsSound(cfg, log, tails)
    ensures LogIsSound(cfg, log, Grown(tails, path, slice))
  {
    GrowConsumed(TailOf(tails, path), slice);
    forall i | 0 <= i < |log|
      ensures Sound(cfg, log[i]) && log[i].body.sequence == i + 1
      ensures log[i].body.kind.History? ==>
                log[i].body.endLines <= LinesRead(TailOf(Grown(tails, path, slice), log[i].body.sourcePath))
    {
    }
  }

  lemma CoveredAfterGrowth(tails: map<Path, Tail>, path: Path, slice: Bytes, reached: map<Path, Bytes>)
    requires Covered(tails, reached)
    ensures Covered(Grown(tails, path, slice), reached)
  {
    forall p | p in reached ensures WasConsumed(TailOf(Grown(tails, path, slice), p), reached[p]) {
      var t := TailOf(tails, p);
      var k :| 0 <= k <= |t.slices| && reached[p] == ConsumedAt(t, k);
      assert Grow(t, slice).slices[..k] == t.slices[..k];
      assert ConsumedAt(Grow(t, slice), k) == reached[p];
      assert ConsumedAt(t, k) == reached[p];
    }
  }

  lemma BasesAfterGrowth(cfg: Config, d: Disk, d': Disk, tails: map<Path, Tail>, path: Path, slice: Bytes)
    requires BasesAreWhole(cfg, d, tails)
    requires d'.ready == d.ready && d'.checkpoint.Some?
    ensures BasesAreWhole(cfg, d', Grown(tails, path, slice))
  {
  }

  lemma DoneAfterGrowth(c: CheckpointSet, c': CheckpointSet, d: Disk, d': Disk, past: Past, past': Past,
                        path: Path, slice: Bytes)
    requires DoneIsJustified(c, d, past)
    requires c.terminals.Keys <= c'.terminals.Keys && d'.done == d.done
    requires past'.sight == past.sight && past'.conclusion == past.conclusion
    requires past'.tails == past.tails || past'.tails == Grown(past.tails, path, slice)
    ensures DoneIsJustified(c', d', past')
  {
    if past.sight.finalDrain.Some? {
      CoveredAfterGrowth(past.tails, path, slice, past.sight.finalDrain.value.reached);
    }
    if past.conclusion.Some? {
      CoveredAfterGrowth(past.tails, path, slice, past.conclusion.value.reached);
    }
  }

  // ------------------------------------------------------ one lemma an action

  /** Only the chunk in flight carries the next sequence number. */
  lemma NextPendingIsInFlight(cfg: Config, s: State, name: PendingName)
    requires Inv(cfg, s)
    requires name in s.disk.pending && name.sequence == Loaded(cfg, s.disk).nextSequence
    ensures s.past.inFlight.Some? && s.disk.pending == map[name := s.past.inFlight.value]
    ensures name == NameOf(s.past.inFlight.value)
  {
    hide SourcesDescribeTails, LogIsProjection, TerminalsMatchLog, SinkHoldsLog, SubmissionsAreChunks,
      DoneIsJustified, BasesAreWhole, FollowsCheckpoint, Acknowledged, Sound;
  }

  lemma EmptyPendingMeansNoneInFlight(cfg: Config, s: State)
    requires Inv(cfg, s) && s.disk.pending == map[]
    ensures s.past.inFlight.None?
  {
    hide SourcesDescribeTails, LogIsProjection, LogIsSound, LinesAdvance, TerminalsMatchLog, SinkHoldsLog, SubmissionsAreChunks,
      DoneIsJustified, BasesAreWhole, FollowsCheckpoint, Acknowledged;
  }

  /** Nothing the workload does and nothing a process sees touches what survives it. */
  lemma WatchingKeepsInv(cfg: Config, s: State, a: Action)
    requires Inv(cfg, s) && Enabled(cfg, s, a)
    requires a.Restart? || a.Evolve? || a.ListFiles? || a.ReadFile? || a.ReadStatus?
    ensures Inv(cfg, Apply(cfg, s, a))
  {
    hide SourcesDescribeTails, LogIsProjection, LogIsSound, LinesAdvance, TerminalsMatchLog, Covered, BasesAreWhole,
      FollowsCheckpoint, Acknowledged;
  }

  lemma BaselineSources(cfg: Config, files: map<Path, SourceFile>, tails: map<Path, Tail>)
    requires cfg.identity != "" && Real(files)
    requires tails == BaselineTails(files)
    ensures SourcesDescribeTails(BaselineCheckpoints(cfg, files).sources, tails)
    ensures ValidCheckpoints(BaselineCheckpoints(cfg, files), cfg.identity)
    ensures BaselineCheckpoints(cfg, files).nextSequence == 1 && BaselineCheckpoints(cfg, files).terminals == map[]
    ensures forall p | p in tails :: AtBoundary(tails[p].base)
  {
    forall p | p in files
      ensures Consumed(tails[p]) == CompletePart(files[p].text)
    {
    }
  }

  lemma BaselineProjects(decode: RowDecoder, tails: map<Path, Tail>)
    requires forall p | p in tails :: tails[p].slices == []
    ensures LogIsProjection(decode, [], tails)
  {
  }

  lemma BaselineShape(cfg: Config, s: State)
    requires Inv(cfg, s) && Enabled(cfg, s, PersistBaseline)
    ensures s.past.log == [] && s.past.tails == map[]
    ensures var files, t := s.past.sight.held, Apply(cfg, s, PersistBaseline);
            && t.disk == s.disk.(checkpoint := Some(BaselineCheckpoints(cfg, files))) && t.sink == s.sink
            && t.past == s.past.(tails := BaselineTails(files))
  {
    hide LogIsProjection, LogIsSound, LinesAdvance, TerminalsMatchLog, PendingIsNextOrLast, SinkHoldsLog,
      SubmissionsAreChunks, DoneIsJustified, BasesAreWhole;
  }

  lemma BaselineKeepsInv(cfg: Config, s: State)
    requires Inv(cfg, s) && Enabled(cfg, s, PersistBaseline)
    ensures Inv(cfg, Apply(cfg, s, PersistBaseline))
  {
    hide SourcesDescribeTails, LogIsProjection, FollowsCheckpoint, Acknowledged, ValidCheckpoints, Enabled, Apply,
      BaselineCheckpoints, DoneIsJustified;
    MayBaseline(cfg, s);
    BaselineShape(cfg, s);
    EmptyPendingMeansNoneInFlight(cfg, s);
    NothingToConclude(cfg, s);
    var files, t := s.past.sight.held, Apply(cfg, s, PersistBaseline);
    var tails := BaselineTails(files);
    BaselineSources(cfg, files, tails);
    BaselineProjects(cfg.decode, tails);
    assert DoneIsJustified(t.disk.checkpoint.value, t.disk, t.past) by { NothingIsJustified(t.disk.checkpoint.value, t.disk, t.past); }
  }

  lemma NothingToConclude(cfg: Config, s: State)
    requires Inv(cfg, s) && s.disk.checkpoint.None? && !s.past.sight.completionSeen
    ensures s.past.sight.finalDrain.None? && s.past.conclusion.None? && !s.disk.done
  {
    hide SourcesDescribeTails, LogIsProjection, LogIsSound, LinesAdvance, TerminalsMatchLog, PendingIsNextOrLast,
      SinkHoldsLog, SubmissionsAreChunks, BasesAreWhole, Covered;
  }

  lemma NothingIsJustified(c: CheckpointSet, d: Disk, past: Past)
    requires past.sight.finalDrain.None? && past.conclusion.None? && !d.done
    ensures DoneIsJustified(c, d, past)
  {
  }

  lemma MayBaseline(cfg: Config, s: State)
    requires Enabled(cfg, s, PersistBaseline)
    ensures s.disk.checkpoint.None? && s.disk.pending == map[] && cfg.baseline && Real(s.past.sight.held)
    ensures !s.past.sight.completionSeen
  {
  }

  lemma ReadyKeepsInv(cfg: Config, s: State)
    requires Inv(cfg, s) && Enabled(cfg, s, PublishReady)
    ensures Inv(cfg, Apply(cfg, s, PublishReady))
  {
    hide SourcesDescribeTails, LogIsProjection, LogIsSound, LinesAdvance, TerminalsMatchLog, Covered,
      FollowsCheckpoint, Acknowledged;
  }

  lemma SourcesAfterRebind(identity: string, c: CheckpointSet, tails: map<Path, Tail>, path: Path, fileId: FileId)
    requires SourcesDescribeTails(c.sources, tails) && ValidCheckpoints(c, identity)
    requires path in c.sources && fileId != NoFileId
    ensures var next := c.(sources := c.sources[path := c.sources[path].(fileId := fileId, baseline := false)]);
            SourcesDescribeTails(next.sources, tails) && ValidCheckpoints(next, identity)
  {
    hide Consumed, LinesRead;
  }

  lemma RebindKeepsInv(cfg: Config, s: State, path: Path, fileId: FileId)
    requires Inv(cfg, s) && Enabled(cfg, s, Rebind(path, fileId))
    ensures Inv(cfg, Apply(cfg, s, Rebind(path, fileId)))
  {
    hide SourcesDescribeTails, LogIsProjection, LogIsSound, LinesAdvance, TerminalsMatchLog, Covered, FollowsCheckpoint,
      Acknowledged, ValidCheckpoints, DoneIsJustified, BasesAreWhole;
    EmptyPendingMeansNoneInFlight(cfg, s);
    var c, t := Loaded(cfg, s.disk), Apply(cfg, s, Rebind(path, fileId));
    SourcesAfterRebind(cfg.identity, c, s.past.tails, path, fileId);
    DoneAfterGrowth(c, Loaded(cfg, t.disk), s.disk, t.disk, s.past, t.past, "", []);
    BasesWithCheckpoint(cfg, s.disk, t.disk, s.past.tails);
  }

  lemma SkipShape(cfg: Config, s: State, read: SourceRead, trailing: bool)
    requires Enabled(cfg, s, SkipSilent(read, trailing))
    ensures var c := Loaded(cfg, s.disk);
            && s.disk.pending == map[] && Continues(c.Source(read.path), read)
            && Project(cfg.decode, read.path, c.Source(read.path).lines + 1, Records(read.data)) == Some([])
    ensures var c, t := Loaded(cfg, s.disk), Apply(cfg, s, SkipSilent(read, trailing));
            && t.disk == s.disk.(checkpoint := Some(c.(sources := c.sources[read.path :=
                 DrainedSource(c.Source(read.path), read, c.Source(read.path).sequence, c.Source(read.path).chunkDigest)])))
            && t.sink == s.sink && t.world == s.world
            && t.past == s.past.(tails := Grown(s.past.tails, read.path, read.data))
  {
    hide Project, Records, FromFile, Continues, DrainedSource, Grow;
  }

  /** The checkpoint after a silent read describes the text consumed then. */
  lemma SkippedSources(identity: string, c: CheckpointSet, tails: map<Path, Tail>, read: SourceRead)
    requires SourcesDescribeTails(c.sources, tails) && ValidCheckpoints(c, identity) && Continues(c.Source(read.path), read)
    ensures var source := c.Source(read.path);
            var next := c.(sources := c.sources[read.path := DrainedSource(source, read, source.sequence, source.chunkDigest)]);
            SourcesDescribeTails(next.sources, Grown(tails, read.path, read.data)) && ValidCheckpoints(next, identity)
    ensures c.Source(read.path).lines == LinesRead(TailOf(tails, read.path))
  {
    hide SourcesDescribeTails, LineCount, LinesRead, Consumed;
    var source := c.Source(read.path);
    ReadContinuesTail(c, tails, read);
    KnownSource(c, tails, read.path);
    SourcesAfterGrowth(c.sources, tails, read.path, read.data, DrainedSource(source, read, source.sequence, source.chunkDigest));
  }

  lemma SkipKeepsInv(cfg: Config, s: State, read: SourceRead, trailing: bool)
    requires Inv(cfg, s) && Enabled(cfg, s, SkipSilent(read, trailing))
    ensures Inv(cfg, Apply(cfg, s, SkipSilent(read, trailing)))
  {
    hide SourcesDescribeTails, LogIsProjection, LogIsSound, LinesAdvance, TerminalsMatchLog, Covered, FollowsCheckpoint,
      Acknowledged, DoneIsJustified, BasesAreWhole, Project, Records, Enabled, Apply, Continues, DrainedSource, ValidCheckpoints;
    SkipShape(cfg, s, read, trailing);
    EmptyPendingMeansNoneInFlight(cfg, s);
    var c, tails, t := Loaded(cfg, s.disk), s.past.tails, Apply(cfg, s, SkipSilent(read, trailing));
    SkippedSources(cfg.identity, c, tails, read);
    ProjectionAfterGrowth(cfg.decode, s.past.log, s.past.log, tails, read.path, read.data, []);
    LogSoundAfterGrowth(cfg, s.past.log, tails, read.path, read.data);
    DoneAfterGrowth(c, t.disk.checkpoint.value, s.disk, t.disk, s.past, t.past, read.path, read.data);
    BasesAfterGrowth(cfg, s.disk, t.disk, tails, read.path, read.data);
  }

  lemma KnownSource(c: CheckpointSet, tails: map<Path, Tail>, path: Path)
    requires SourcesDescribeTails(c.sources, tails)
    ensures c.Source(path).sequence == 0 <==> c.Source(path).chunkDigest == NoDigest
    ensures path in tails ==> path in c.sources && SourceMatches(c.sources[path], path, tails[path])
    ensures path !in tails ==> path !in c.sources
  {
  }

  /** A history chunk written from the checkpoint follows it. */
  lemma HistoryChunkFollows(cfg: Config, c: CheckpointSet, tails: map<Path, Tail>, read: SourceRead, events: seq<Event>)
    requires cfg.identity != "" && c.nextSequence > 0
    requires SourcesDescribeTails(c.sources, tails)
    requires Continues(c.Source(read.path), read) && events != []
    requires Project(cfg.decode, read.path, c.Source(read.path).lines + 1, Records(read.data)) == Some(Identities(events))
    ensures FollowsCheckpoint(cfg, c, HistoryManifest(cfg.identity, c.Source(read.path), read, c.nextSequence, events), tails)
  {
    hide SourcesDescribeTails, Records, Project, Sound, AdvanceFor, LineCount, Consumed, LinesRead, Identities, SliceOf,
      Continues, PrefixDigestOf;
    HistoryChunkIsSound(cfg, c, tails, read, events);
    HistoryChunkAdvances(cfg, c, tails, read, events);
    HistorySlice(cfg, c, read, events);
    ReadContinuesTail(c, tails, read);
  }

  lemma HistorySlice(cfg: Config, c: CheckpointSet, read: SourceRead, events: seq<Event>)
    requires Continues(c.Source(read.path), read)
    ensures SliceOf(HistoryManifest(cfg.identity, c.Source(read.path), read, c.nextSequence, events).body) == read.data
    ensures read.data != [] && read.end == read.start + |read.data|
  {
    hide LineCount;
  }

  lemma HistoryChunkAdvances(cfg: Config, c: CheckpointSet, tails: map<Path, Tail>, read: SourceRead, events: seq<Event>)
    requires SourcesDescribeTails(c.sources, tails) && Continues(c.Source(read.path), read)
    ensures AdvanceFor(c, HistoryManifest(cfg.identity, c.Source(read.path), read, c.nextSequence, events)).Advanced?
  {
    KnownSource(c, tails, read.path);
    hide SourcesDescribeTails, LineCount;
  }

  lemma HistoryChunkIsSound(cfg: Config, c: CheckpointSet, tails: map<Path, Tail>, read: SourceRead, events: seq<Event>)
    requires cfg.identity != "" && c.nextSequence > 0 && Continues(c.Source(read.path), read) && events != []
    requires Project(cfg.decode, read.path, c.Source(read.path).lines + 1, Records(read.data)) == Some(Identities(events))
    ensures Sound(cfg, HistoryManifest(cfg.identity, c.Source(read.path), read, c.nextSequence, events))
  {
    hide Records, Project;
    NonEmptyHasLines(read.data);
    RecordsLength(read.data);
    hide LineCount;
    var source := c.Source(read.path);
    ProjectedLines(cfg.decode, read.path, source.lines + 1, Records(read.data));
    SameLines(events, read.path, source.lines + 1, source.lines + 1 + LineCount(read.data));
  }

  lemma NonEmptyHasLines(raw: Bytes)
    requires raw != []
    ensures LineCount(raw) > 0
  {
  }

  lemma RecordsLength(raw: Bytes)
    ensures |Records(raw)| == LineCount(raw)
  {
  }

  lemma SameLines(events: seq<Event>, path: Path, first: nat, end: nat)
    requires OnLines(Identities(events), path, first, end)
    ensures OnLines(events, path, first, end)
  {
    forall i | 0 <= i < |events|
      ensures events[i].Measured? && events[i].path == path && first <= events[i].line < end
    {
      assert Identities(events)[i] == Identity(events[i]);
    }
  }

  lemma WriteHistoryKeepsInv(cfg: Config, s: State, read: SourceRead, trailing: bool, events: seq<Event>)
    requires Inv(cfg, s) && Enabled(cfg, s, WriteHistory(read, trailing, events))
    ensures Inv(cfg, Apply(cfg, s, WriteHistory(read, trailing, events)))
  {
    hide SourcesDescribeTails, LogIsProjection, LogIsSound, LinesAdvance, TerminalsMatchLog, Covered, FollowsCheckpoint,
      Acknowledged, DoneIsJustified, BasesAreWhole, Project, Records, HistoryManifest;
    EmptyPendingMeansNoneInFlight(cfg, s);
    HistoryChunkFollows(cfg, Loaded(cfg, s.disk), s.past.tails, read, events);
    var t := Apply(cfg, s, WriteHistory(read, trailing, events));
    DoneAfterGrowth(Loaded(cfg, s.disk), Loaded(cfg, t.disk), s.disk, t.disk, s.past, t.past, "", []);
    BasesWithCheckpoint(cfg, s.disk, t.disk, t.past.tails);
  }

  lemma BasesWithCheckpoint(cfg: Config, d: Disk, d': Disk, tails: map<Path, Tail>)
    requires BasesAreWhole(cfg, d, tails) && d'.ready == d.ready && (d.checkpoint.Some? ==> d'.checkpoint.Some?)
    ensures BasesAreWhole(cfg, d', tails)
  {
  }

  lemma WriteTerminalKeepsInv(cfg: Config, s: State, observation: ObservationId, status: Completion)
    requires Inv(cfg, s) && Enabled(cfg, s, WriteTerminal(observation, status))
    ensures Inv(cfg, Apply(cfg, s, WriteTerminal(observation, status)))
  {
    hide SourcesDescribeTails, LogIsProjection, LogIsSound, LinesAdvance, TerminalsMatchLog, Covered,
      Acknowledged, Project, Records, Accepts, BasesAreWhole, DoneIsJustified;
    EmptyPendingMeansNoneInFlight(cfg, s);
    var t := Apply(cfg, s, WriteTerminal(observation, status));
    DoneAfterGrowth(Loaded(cfg, s.disk), Loaded(cfg, t.disk), s.disk, t.disk, s.past, t.past, "", []);
    BasesWithCheckpoint(cfg, s.disk, t.disk, t.past.tails);
  }

  lemma SinkAfterSubmit(sink: Sink, past: Past, name: PendingName, taken: bool)
    requires past.inFlight.Some? && name == NameOf(past.inFlight.value)
    requires past.inFlight.value.body.sequence == |past.log| + 1
    requires SinkHoldsLog(sink, past) && SubmissionsAreChunks(sink, past)
    ensures SinkHoldsLog(Ingest(sink, name, taken), past)
    ensures SubmissionsAreChunks(Ingest(sink, name, taken), past)
  {
    hide Accepts;
    AcceptsSnoc(past.log, past.inFlight.value);
  }

  lemma SubmitKeepsInv(cfg: Config, s: State, name: PendingName, taken: bool)
    requires Inv(cfg, s) && Enabled(cfg, s, Submit(name, taken))
    ensures Inv(cfg, Apply(cfg, s, Submit(name, taken)))
  {
    hide SourcesDescribeTails, LogIsProjection, LogIsSound, LinesAdvance, TerminalsMatchLog, FollowsCheckpoint,
      Acknowledged, DoneIsJustified, BasesAreWhole, SinkHoldsLog, SubmissionsAreChunks, ValidCheckpoints, Ingest;
    NextPendingIsInFlight(cfg, s, name);
    SinkAfterSubmit(s.sink, s.past, name, taken);
  }

  lemma RemoveKeepsInv(cfg: Config, s: State, name: PendingName)
    requires Inv(cfg, s) && Enabled(cfg, s, RemovePending(name))
    ensures Inv(cfg, Apply(cfg, s, RemovePending(name)))
  {
    hide SourcesDescribeTails, LogIsProjection, LogIsSound, LinesAdvance, TerminalsMatchLog, Acknowledged, Covered, SubmissionsAreChunks;
    assert s.past.inFlight.None?;
    assert Apply(cfg, s, RemovePending(name)).disk.pending == map[];
  }

  lemma ReachedIsConsumed(c: CheckpointSet, tails: map<Path, Tail>, path: Path, text: Bytes)
    requires SourcesDescribeTails(c.sources, tails) && AtEnd(c.Source(path), text)
    ensures WasConsumed(TailOf(tails, path), text)
  {
    var t := TailOf(tails, path);
    assert t.slices[..|t.slices|] == t.slices;
    assert text == ConsumedAt(t, |t.slices|);
  }

  lemma CoveredPlus(tails: map<Path, Tail>, reached: map<Path, Bytes>, path: Path, text: Bytes)
    requires Covered(tails, reached) && WasConsumed(TailOf(tails, path), text)
    ensures Covered(tails, reached[path := text])
  {
    hide WasConsumed;
  }

  lemma NothingCovered(tails: map<Path, Tail>)
    ensures Covered(tails, map[])
  {
  }

  lemma FinishKeepsInv(cfg: Config, s: State, a: Action)
    requires Inv(cfg, s) && Enabled(cfg, s, a)
    requires a.SeeCompletion? || a.BeginFinalDrain? || a.ReachEnd? || a.PublishDone?
    ensures Inv(cfg, Apply(cfg, s, a))
  {
    hide SourcesDescribeTails, LogIsProjection, LogIsSound, LinesAdvance, TerminalsMatchLog, FollowsCheckpoint, Acknowledged,
      AtEnd, Covered, Accepts;
    assert Covered(s.past.tails, map[]) by { NothingCovered(s.past.tails); }
    if a.ReachEnd? {
      var text := s.past.sight.held[a.path].text;
      ReachedIsConsumed(Loaded(cfg, s.disk), s.past.tails, a.path, text);
      CoveredPlus(s.past.tails, s.past.sight.finalDrain.value.reached, a.path, text);
    }
  }

  lemma AcknowledgeKeepsInv(cfg: Config, s: State, name: PendingName)
    requires Inv(cfg, s) && Enabled(cfg, s, Acknowledge(name))
    ensures Inv(cfg, Apply(cfg, s, Acknowledge(name)))
  {
    NextPendingIsInFlight(cfg, s, name);
    assert FollowsCheckpoint(cfg, Loaded(cfg, s.disk), s.past.inFlight.value, s.past.tails);
    if s.past.inFlight.value.body.kind.History? {
      AcknowledgeHistoryKeepsInv(cfg, s, name, s.past.inFlight.value);
    } else {
      AcknowledgeTerminalKeepsInv(cfg, s, name, s.past.inFlight.value);
    }
  }

  lemma SinkAfterAcknowledge(sink: Sink, past: Past, past': Past, m: ChunkManifest)
    requires SinkHoldsLog(sink, past) && past.inFlight == Some(m) && past'.log == past.log + [m]
    requires m.body.chunkDigest in sink.accepted
    ensures SinkHoldsLog(sink, past')
  {
    AcceptsSnoc(past.log, m);
  }

  lemma SubmissionsAfterAcknowledge(sink: Sink, past: Past, past': Past, m: ChunkManifest)
    requires SubmissionsAreChunks(sink, past) && past.inFlight == Some(m)
    requires past'.log == past.log + [m]
    ensures SubmissionsAreChunks(sink, past')
  {
  }

  lemma LogSoundAfterAppend(cfg: Config, log: seq<ChunkManifest>, tails: map<Path, Tail>, m: ChunkManifest)
    requires LogIsSound(cfg, log, tails) && Sound(cfg, m) && m.body.sequence == |log| + 1
    requires m.body.kind.History? ==> m.body.endLines <= LinesRead(TailOf(tails, m.body.sourcePath))
    ensures LogIsSound(cfg, log + [m], tails)
  {
    forall i | 0 <= i < |log + [m]|
      ensures Sound(cfg, (log + [m])[i]) && (log + [m])[i].body.sequence == i + 1
      ensures (log + [m])[i].body.kind.History? ==>
                (log + [m])[i].body.endLines <= LinesRead(TailOf(tails, (log + [m])[i].body.sourcePath))
    {
      if i < |log| {
        assert (log + [m])[i] == log[i];
      }
    }
  }

  lemma SourcesAfterAcknowledge(cfg: Config, c: CheckpointSet, m: ChunkManifest, tails: map<Path, Tail>)
    requires FollowsCheckpoint(cfg, c, m, tails) && m.body.kind.History?
    requires SourcesDescribeTails(c.sources, tails)
    ensures SourcesDescribeTails(AdvanceFor(c, m).next.sources, Grown(tails, m.body.sourcePath, SliceOf(m.body)))
  {
    hide SourcesDescribeTails, Project, Records, LineCount, Consumed, LinesRead;
    var b := m.body;
    SourcesAfterGrowth(c.sources, tails, b.sourcePath, SliceOf(b), AdvanceFor(c, m).next.sources[b.sourcePath]);
  }

  lemma ProjectionAfterAcknowledge(cfg: Config, c: CheckpointSet, m: ChunkManifest, past: Past)
    requires FollowsCheckpoint(cfg, c, m, past.tails) && m.body.kind.History?
    requires LogIsProjection(cfg.decode, past.log, past.tails)
    ensures LogIsProjection(cfg.decode, past.log + [m], Grown(past.tails, m.body.sourcePath, SliceOf(m.body)))
  {
    hide LogIsProjection, Project, Records, LinesRead, LogEvents, Measurements, SliceOf, Identities;
    var b := m.body;
    assert OnLines(b.ndjson, b.sourcePath, b.startLines + 1, b.endLines + 1);
    forall p
      ensures LogEvents(past.log + [m], p) == LogEvents(past.log, p) + if p == b.sourcePath then Identities(b.ndjson) else []
    {
      LogEventsSnoc(past.log, m, p);
      MeasurementsOnLines(b.ndjson, b.sourcePath, b.startLines + 1, b.endLines + 1, p);
    }
    ProjectionAfterGrowth(cfg.decode, past.log, past.log + [m], past.tails, b.sourcePath, SliceOf(b), Identities(b.ndjson));
  }

  lemma LogAfterAcknowledge(cfg: Config, c: CheckpointSet, m: ChunkManifest, past: Past)
    requires FollowsCheckpoint(cfg, c, m, past.tails) && c.nextSequence == |past.log| + 1
    requires LogIsSound(cfg, past.log, past.tails)
    ensures m.body.kind.History? ==>
              LogIsSound(cfg, past.log + [m], Grown(past.tails, m.body.sourcePath, SliceOf(m.body)))
    ensures !m.body.kind.History? ==> LogIsSound(cfg, past.log + [m], past.tails)
    ensures LinesAdvance(past.log) ==> LinesAdvance(past.log + [m])
  {
    if m.body.kind.History? {
      assert forall i | 0 <= i < |past.log| && past.log[i].body.kind.History? && past.log[i].body.sourcePath == m.body.sourcePath ::
          past.log[i].body.endLines <= LinesRead(TailOf(past.tails, m.body.sourcePath));
    }
    hide LogIsSound, Sound, Project, Records, LinesRead, Consumed, SliceOf, LineCount;
    var b := m.body;
    if b.kind.History? {
      LogSoundAfterGrowth(cfg, past.log, past.tails, b.sourcePath, SliceOf(b));
      GrowConsumed(TailOf(past.tails, b.sourcePath), SliceOf(b));
      LogSoundAfterAppend(cfg, past.log, Grown(past.tails, b.sourcePath, SliceOf(b)), m);
    } else {
      LogSoundAfterAppend(cfg, past.log, past.tails, m);
    }
  }

  lemma PendingAfterAcknowledge(cfg: Config, c: CheckpointSet, pending: map<PendingName, ChunkManifest>, past: Past, m: ChunkManifest)
    requires pending == map[NameOf(m) := m] && past.inFlight.None?
    requires past.log != [] && past.log[|past.log|-1] == m && Acknowledged(c, m)
    ensures PendingIsNextOrLast(cfg, c, pending, past)
  {
  }

  lemma RemoveShape(cfg: Config, s: State, name: PendingName)
    requires name in s.disk.pending && name.sequence < Loaded(cfg, s.disk).nextSequence
    ensures Enabled(cfg, s, RemovePending(name))
    ensures Apply(cfg, s, RemovePending(name)) == s.(disk := s.disk.(pending := s.disk.pending - {name}))
  {
  }

  lemma AdvanceCounts(c: CheckpointSet, m: ChunkManifest)
    requires AdvanceFor(c, m).Advanced?
    ensures AdvanceFor(c, m).next.nextSequence == c.nextSequence + 1
  {
  }

  lemma AcknowledgeShape(cfg: Config, s: State, name: PendingName)
    requires Enabled(cfg, s, Acknowledge(name))
    ensures var c, m, p, t := Loaded(cfg, s.disk), s.disk.pending[name], s.past, Apply(cfg, s, Acknowledge(name));
            && AdvanceFor(c, m).Advanced? && name.digest in s.sink.accepted
            && t.disk == s.disk.(checkpoint := Some(AdvanceFor(c, m).next)) && t.sink == s.sink
            && t.past.log == p.log + [m] && t.past.inFlight.None?
            && t.past.sight == p.sight && t.world == s.world
            && t.past.conclusion == p.conclusion
            && t.past.tails == if m.body.kind.History? then Grown(p.tails, m.body.sourcePath, SliceOf(m.body)) else p.tails
  {
    hide AdvanceFor, SliceOf, Loaded;
  }

  lemma AcknowledgeHistoryKeepsInv(cfg: Config, s: State, name: PendingName, m: ChunkManifest)
    requires Inv(cfg, s) && Enabled(cfg, s, Acknowledge(name))
    requires s.past.inFlight == Some(m) && s.disk.pending == map[name := m] && name == NameOf(m)
    requires FollowsCheckpoint(cfg, Loaded(cfg, s.disk), m, s.past.tails) && m.body.kind.History?
    ensures Inv(cfg, Apply(cfg, s, Acknowledge(name)))
  {
    hide SourcesDescribeTails, LogIsProjection, LogIsSound, LinesAdvance, TerminalsMatchLog, SinkHoldsLog, SubmissionsAreChunks,
      DoneIsJustified, BasesAreWhole, FollowsCheckpoint, SliceOf, ValidCheckpoints, Acknowledged, AdvanceFor, PendingIsNextOrLast,
      Enabled, Apply;
    AcknowledgeShape(cfg, s, name);
    var c, past := Loaded(cfg, s.disk), s.past;
    var b, t := m.body, Apply(cfg, s, Acknowledge(name));
    CheckpointsAfterAcknowledge(cfg, c, m, past);
    SourcesAfterAcknowledge(cfg, c, m, past.tails);
    ProjectionAfterAcknowledge(cfg, c, m, past);
    LogAfterAcknowledge(cfg, c, m, past);
    SinkAfterAcknowledge(s.sink, past, t.past, m);
    SubmissionsAfterAcknowledge(s.sink, past, t.past, m);
    DoneAfterGrowth(c, t.disk.checkpoint.value, s.disk, t.disk, past, t.past, b.sourcePath, SliceOf(b));
    BasesAfterGrowth(cfg, s.disk, t.disk, past.tails, b.sourcePath, SliceOf(b));
    TerminalsAfterHistory(c.terminals, past.log, m);
    PendingAfterAcknowledge(cfg, t.disk.checkpoint.value, t.disk.pending, t.past, m);
  }

  /** An acknowledged chunk's checkpoint is valid and acknowledges it. */
  lemma CheckpointsAfterAcknowledge(cfg: Config, c: CheckpointSet, m: ChunkManifest, past: Past)
    requires FollowsCheckpoint(cfg, c, m, past.tails) && ValidCheckpoints(c, cfg.identity)
    ensures ValidCheckpoints(AdvanceFor(c, m).next, cfg.identity)
    ensures AdvanceFor(c, m).next.nextSequence == c.nextSequence + 1
    ensures Acknowledged(AdvanceFor(c, m).next, m)
    ensures c.terminals.Keys <= AdvanceFor(c, m).next.terminals.Keys
    ensures m.body.kind.History? ==> AdvanceFor(c, m).next.terminals == c.terminals
    ensures m.body.kind.Terminal? ==>
              && AdvanceFor(c, m).next.sources == c.sources
              && m.body.sourceFileId.StatusOf? && m.body.sourceFileId.observation !in c.terminals
              && m.body.sequence == c.nextSequence
              && AdvanceFor(c, m).next.terminals == c.terminals[m.body.sourceFileId.observation :=
                   TerminalCheckpoint(m.body.sequence, m.body.chunkDigest)]
  {
    hide Project, Records, LinesRead, Consumed, SliceOf, LineCount;
  }

  lemma TerminalsAfterHistory(terminals: map<ObservationId, TerminalCheckpoint>, log: seq<ChunkManifest>, m: ChunkManifest)
    requires TerminalsMatchLog(terminals, log) && m.body.kind.History?
    ensures TerminalsMatchLog(terminals, log + [m])
  {
  }

  lemma AcknowledgeTerminalKeepsInv(cfg: Config, s: State, name: PendingName, m: ChunkManifest)
    requires Inv(cfg, s) && Enabled(cfg, s, Acknowledge(name))
    requires s.past.inFlight == Some(m) && s.disk.pending == map[name := m] && name == NameOf(m)
    requires FollowsCheckpoint(cfg, Loaded(cfg, s.disk), m, s.past.tails) && m.body.kind.Terminal?
    ensures Inv(cfg, Apply(cfg, s, Acknowledge(name)))
  {
    hide SourcesDescribeTails, LogIsProjection, LogIsSound, LinesAdvance, TerminalsMatchLog, SinkHoldsLog, SubmissionsAreChunks,
      DoneIsJustified, BasesAreWhole, FollowsCheckpoint, ValidCheckpoints, Acknowledged, AdvanceFor, PendingIsNextOrLast,
      Enabled, Apply;
    AcknowledgeShape(cfg, s, name);
    var c, past := Loaded(cfg, s.disk), s.past;
    var t := Apply(cfg, s, Acknowledge(name));
    CheckpointsAfterAcknowledge(cfg, c, m, past);
    TerminalKeepsProjection(cfg, c, past, m);
    LogAfterAcknowledge(cfg, c, m, past);
    SinkAfterAcknowledge(s.sink, past, t.past, m);
    SubmissionsAfterAcknowledge(s.sink, past, t.past, m);
    DoneAfterGrowth(c, t.disk.checkpoint.value, s.disk, t.disk, past, t.past, "", []);
    BasesWithCheckpoint(cfg, s.disk, t.disk, past.tails);
    TerminalsAfterTerminal(c.terminals, past.log, m, m.body.sourceFileId.observation);
    PendingAfterAcknowledge(cfg, t.disk.checkpoint.value, t.disk.pending, t.past, m);
  }

  lemma TerminalKeepsProjection(cfg: Config, c: CheckpointSet, past: Past, m: ChunkManifest)
    requires LogIsProjection(cfg.decode, past.log, past.tails)
    requires FollowsCheckpoint(cfg, c, m, past.tails) && m.body.kind.Terminal?
    ensures LogIsProjection(cfg.decode, past.log + [m], past.tails)
  {
    hide Project, Records, LinesRead, Consumed, SliceOf, LineCount, Stream;
    forall p
      ensures Stream(cfg.decode, p, TailOf(past.tails, p)) == Some(LogEvents(past.log + [m], p))
    {
      assert Stream(cfg.decode, p, TailOf(past.tails, p)) == Some(LogEvents(past.log, p));
      LogEventsSnoc(past.log, m, p);
      assert Measurements(m.body.ndjson, p) == [];
      assert LogEvents(past.log + [m], p) == LogEvents(past.log, p);
    }
  }

  lemma TerminalsAfterTerminal(terminals: map<ObservationId, TerminalCheckpoint>, log: seq<ChunkManifest>,
                               m: ChunkManifest, id: ObservationId)
    requires TerminalsMatchLog(terminals, log) && m.body.sequence == |log| + 1
    requires Concludes(m, id) && id !in terminals
    ensures TerminalsMatchLog(terminals[id := TerminalCheckpoint(m.body.sequence, m.body.chunkDigest)], log + [m])
  {
    assert forall other | Concludes(m, other) :: other == id;
    hide Concludes;
    var log', next := log + [m], terminals[id := TerminalCheckpoint(m.body.sequence, m.body.chunkDigest)];
    forall i, other | 0 <= i < |log'| && Concludes(log'[i], other)
      ensures other in next && next[other] == TerminalCheckpoint(i + 1, log'[i].body.chunkDigest)
    {
      if i < |log| {
        assert log'[i] == log[i];
      }
    }
    forall other | other in next
      ensures 1 <= next[other].sequence <= |log'| && Concludes(log'[next[other].sequence - 1], other)
    {
      if other != id {
        assert log'[terminals[other].sequence - 1] == log[terminals[other].sequence - 1];
      }
    }
  }
}

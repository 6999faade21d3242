/** Why a failed checkpoint write must end the process. The zero-event branch of a
    drain advances the in-memory checkpoint before it writes it; a process that goes on
    after the write failed, as one does whose context was cancelled, can leave a chunk
    that every later start refuses. */
module CollectorFaults {
  import opened SourceText
  import opened Telemetry
  import opened Spool
  import opened Wrappers
  import opened CollectorProtocol
  import opened CollectorSafety
  import opened CollectorSteps

  /** The in-memory checkpoints after a read without events. */
  function Skipped(c: CheckpointSet, read: SourceRead): CheckpointSet {
    var source := c.Source(read.path);
    c.(sources := c.sources[read.path := DrainedSource(source, read, source.sequence, source.chunkDigest)])
  }

  /** Two drains of one source by a process that has `c` on its disk: the first reads
      no events and fails to write its checkpoint, the second reads some. */
  ghost predicate GoesOn(cfg: Config, c: CheckpointSet, first: SourceRead, second: SourceRead, events: seq<Event>) {
    var memory := Skipped(c, first);
    && Continues(c.Source(first.path), first)
    && Project(cfg.decode, first.path, c.Source(first.path).lines + 1, Records(first.data)) == Some([])
    && second.path == first.path && Continues(memory.Source(first.path), second) && events != []
    && Project(cfg.decode, first.path, memory.Source(first.path).lines + 1, Records(second.data)) == Some(Identities(events))
  }

  /** The chunk the second drain writes is a valid one, in its turn, and the checkpoint
      on the disk cannot be advanced for it: if the process dies before it writes its
      checkpoint, every later start fails. */
  lemma GoingOnWedges(cfg: Config, s: State, first: SourceRead, second: SourceRead, events: seq<Event>)
    requires Inv(cfg, s) && s.disk.pending == map[] && GoesOn(cfg, Loaded(cfg, s.disk), first, second, events)
    ensures var c := Loaded(cfg, s.disk);
            var memory := Skipped(c, first);
            var m := HistoryManifest(cfg.identity, memory.Source(first.path), second, memory.nextSequence, events);
            ValidManifest(NameOf(m), m, cfg.identity) && m.body.sequence == c.nextSequence && AdvanceFor(c, m).Refused?
  {
    SourcesKnown(cfg, s, first.path);
    CheckpointsCount(cfg, s);
    hide Inv, Project, Records, LineCount, Loaded, PrefixDigestOf;
    StaleStart(cfg, Loaded(cfg, s.disk), first, second, events);
  }

  lemma StaleStart(cfg: Config, c: CheckpointSet, first: SourceRead, second: SourceRead, events: seq<Event>)
    requires Continues(c.Source(first.path), first) && second.path == first.path
    requires Continues(Skipped(c, first).Source(first.path), second) && events != []
    requires c.nextSequence > 0 && cfg.identity != "" && c.Source(first.path).lines >= 0
    requires (first.path in c.sources ==> c.Source(first.path).path == first.path) && (first.path !in c.sources ==> c.Source(first.path) == NO_CHECKPOINT)
    ensures var memory := Skipped(c, first);
            var m := HistoryManifest(cfg.identity, memory.Source(first.path), second, memory.nextSequence, events);
            ValidManifest(NameOf(m), m, cfg.identity) && m.body.sequence == c.nextSequence && AdvanceFor(c, m).Refused?
  {
    hide Records, Project, PrefixDigestOf;
    assert LineCount(second.data) > 0 by { SomeLines(second.data); }
    hide LineCount;
  }

  lemma {:induction false} SomeLines(raw: Bytes)
    requires raw != []
    ensures LineCount(raw) > 0
  {
  }

  lemma CheckpointsCount(cfg: Config, s: State)
    requires Inv(cfg, s)
    ensures Loaded(cfg, s.disk).nextSequence > 0 && cfg.identity != ""
  {
    hide SourcesDescribeTails, LogIsProjection, LogIsSound, LinesAdvance, TerminalsMatchLog, PendingIsNextOrLast,
      SinkHoldsLog, SubmissionsAreChunks, DoneIsJustified, BasesAreWhole;
  }

  /** What the two drains read if the file holds one line and then two. */
  function FirstRead(path: Path, fileId: FileId, line: Bytes): SourceRead {
    var text := line + [NEWLINE];
    SourceRead(path, fileId, text, 0, |text|, PrefixSha(text))
  }

  function SecondRead(path: Path, fileId: FileId, line: Bytes, next: Bytes): SourceRead {
    var text, more := line + [NEWLINE], next + [NEWLINE];
    SourceRead(path, fileId, more, |text|, |text| + |more|, PrefixSha(text + more))
  }

  /** Such a run exists from the very start: a file gets one record without metrics,
      and after the failed write another one with metrics. */
  lemma GoingOnIsPossible(cfg: Config, path: Path, fileId: FileId, line: Bytes, next: Bytes, metric: Metric)
    requires cfg.identity != "" && path != "" && fileId != NoFileId
    requires line != [] && next != [] && NEWLINE !in line && NEWLINE !in next
    requires cfg.decode(line) == Some([]) && cfg.decode(next) == Some([metric])
    ensures GoesOn(cfg, Loaded(cfg, START.disk), FirstRead(path, fileId, line), SecondRead(path, fileId, line, next),
              [Measured(path, 2, metric, 0)])
    ensures ReadSource(path, fileId, line + [NEWLINE], Loaded(cfg, START.disk).Source(path), false) ==
            Some(FirstRead(path, fileId, line))
    ensures ReadSource(path, fileId, line + [NEWLINE] + (next + [NEWLINE]),
              Skipped(Loaded(cfg, START.disk), FirstRead(path, fileId, line)).Source(path), true) ==
            Some(SecondRead(path, fileId, line, next))
  {
    hide Continues, Project, Records, FirstRead, SecondRead, Skipped, ReadSource;
    FirstContinues(path, fileId, line);
    FirstSkips(cfg, path, fileId, line);
    SecondContinues(path, fileId, line, next);
    OneLine(cfg, path, line, 1);
    OneLine(cfg, path, next, 2);
    TheirData(path, fileId, line, next);
    assert Loaded(cfg, START.disk).Source(path) == NO_CHECKPOINT;
    assert Rows(path, 1, []) == [] && Rows(path, 2, [metric]) == [Measured(path, 2, metric, 0)];
    assert Identities([Measured(path, 2, metric, 0)]) == [Measured(path, 2, metric, 0)];
  }

  lemma TheirData(path: Path, fileId: FileId, line: Bytes, next: Bytes)
    ensures FirstRead(path, fileId, line).data == line + [NEWLINE] && FirstRead(path, fileId, line).path == path
    ensures SecondRead(path, fileId, line, next).data == next + [NEWLINE] && SecondRead(path, fileId, line, next).path == path
  {
  }

  /** The source checkpoint after the first read. */
  function AfterFirst(path: Path, fileId: FileId, line: Bytes): SourceCheckpoint {
    SourceCheckpoint(path, fileId, |line| + 1, PrefixSha(line + [NEWLINE]), 0, NoDigest, 1, false)
  }

  lemma FirstContinues(path: Path, fileId: FileId, line: Bytes)
    requires path != "" && fileId != NoFileId && NEWLINE !in line
    ensures Continues(NO_CHECKPOINT, FirstRead(path, fileId, line))
    ensures ReadSource(path, fileId, line + [NEWLINE], NO_CHECKPOINT, false) == Some(FirstRead(path, fileId, line))
  {
    WholeLine(line);
    hide CompletePart, LineCount;
    var text := line + [NEWLINE];
    assert text[0..] == text && text[..|text|] == text && text[..0] == [];
  }

  lemma FirstSkips(cfg: Config, path: Path, fileId: FileId, line: Bytes)
    requires path != "" && fileId != NoFileId && NEWLINE !in line
    ensures Skipped(Loaded(cfg, START.disk), FirstRead(path, fileId, line)).Source(path) == AfterFirst(path, fileId, line)
  {
    WholeLine(line);
    hide CompletePart, LineCount;
  }

  lemma SecondContinues(path: Path, fileId: FileId, line: Bytes, next: Bytes)
    requires path != "" && fileId != NoFileId && NEWLINE !in next
    ensures Continues(AfterFirst(path, fileId, line), SecondRead(path, fileId, line, next))
    ensures ReadSource(path, fileId, line + [NEWLINE] + (next + [NEWLINE]), AfterFirst(path, fileId, line), true) ==
            Some(SecondRead(path, fileId, line, next))
  {
    var text, more := line + [NEWLINE], next + [NEWLINE];
    assert (text + more)[|text|..] == more && (text + more)[..|text|] == text && (text + more)[..|text| + |more|] == text + more;
  }

  lemma WholeLine(line: Bytes)
    requires NEWLINE !in line
    ensures CompletePart(line + [NEWLINE]) == line + [NEWLINE] && LineCount(line + [NEWLINE]) == 1
  {
    NewlineCountConcat(line, [NEWLINE]);
    NoNewlines(line);
  }

  lemma {:induction false} NoNewlines(line: Bytes)
    requires NEWLINE !in line
    ensures NewlineCount(line) == 0
  {
    if line != [] {
      NoNewlines(line[..|line|-1]);
    }
  }

  function Rows(path: Path, k: nat, metrics: seq<Metric>): seq<Event> {
    seq(|metrics|, i requires 0 <= i < |metrics| => Measured(path, k, metrics[i], 0))
  }

  lemma OneLine(cfg: Config, path: Path, line: Bytes, k: nat)
    requires line != [] && NEWLINE !in line && cfg.decode(line).Some?
    ensures Project(cfg.decode, path, k, Records(line + [NEWLINE])) == Some(Rows(path, k, cfg.decode(line).value))
  {
    RecordsOfLine(line);
    hide Records;
    assert [line][..0] == [];
    assert ProjectRow(cfg.decode, path, k, line).value == Rows(path, k, cfg.decode(line).value);
    assert [] + Rows(path, k, cfg.decode(line).value) == Rows(path, k, cfg.decode(line).value);
  }
}

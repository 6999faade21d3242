/** The steps of the collector one at a time: when the protocol allows each and what
    it changes, and what a read of a source file amounts to. */
module CollectorSteps {
  import opened SourceText
  import opened Telemetry
  import opened Spool
  import opened Wrappers
  import opened CollectorProtocol
  import opened CollectorSafety

  // ------------------------------------------------------------ shapes of steps

  /** Neither what the process saw nor what was acknowledged changed. */
  ghost predicate SamePast(was: Past, after: Past) {
    after.sight == was.sight && after.log == was.log
  }

  lemma MayAcknowledge(cfg: Config, s: State, name: PendingName)
    requires name in s.disk.pending && name.sequence == Loaded(cfg, s.disk).nextSequence
    requires AdvanceFor(Loaded(cfg, s.disk), s.disk.pending[name]).Advanced? && name.digest in s.sink.accepted
    ensures Enabled(cfg, s, Acknowledge(name))
  {
  }

  lemma RebindShape(cfg: Config, s: State, path: Path, fileId: FileId)
    requires s.disk.pending == map[] && path in Loaded(cfg, s.disk).sources && fileId != NoFileId
    ensures Enabled(cfg, s, Rebind(path, fileId))
    ensures var c, t := Loaded(cfg, s.disk), Apply(cfg, s, Rebind(path, fileId));
            && t.disk == s.disk.(checkpoint := Some(c.(sources :=
                 c.sources[path := c.sources[path].(fileId := fileId, baseline := false)])))
            && t.sink == s.sink && t.world == s.world && SamePast(s.past, t.past)
  {
  }

  lemma MaySkip(cfg: Config, s: State, read: SourceRead, trailing: bool)
    requires s.disk.pending == map[] && Continues(Loaded(cfg, s.disk).Source(read.path), read)
    requires FromFile(s.past.sight.held, Loaded(cfg, s.disk).Source(read.path), read, trailing)
    requires var c := Loaded(cfg, s.disk).Source(read.path);
             Project(cfg.decode, read.path, c.lines + 1, Records(read.data)) == Some([])
    ensures Enabled(cfg, s, SkipSilent(read, trailing))
  {
    hide Project, Records, Continues, FromFile;
  }

  lemma WriteHistoryShape(cfg: Config, s: State, read: SourceRead, trailing: bool, es: seq<Event>)
    requires s.disk.pending == map[] && Continues(Loaded(cfg, s.disk).Source(read.path), read) && es != []
    requires FromFile(s.past.sight.held, Loaded(cfg, s.disk).Source(read.path), read, trailing)
    requires var c := Loaded(cfg, s.disk).Source(read.path);
             Project(cfg.decode, read.path, c.lines + 1, Records(read.data)) == Some(Identities(es))
    ensures Enabled(cfg, s, WriteHistory(read, trailing, es))
    ensures var c, t := Loaded(cfg, s.disk), Apply(cfg, s, WriteHistory(read, trailing, es));
            var m := HistoryManifest(cfg.identity, c.Source(read.path), read, c.nextSequence, es);
            && t.disk == s.disk.(pending := s.disk.pending[NameOf(m) := m])
            && t.sink == s.sink && t.world == s.world && SamePast(s.past, t.past)
  {
    hide Project, Records, Continues, FromFile;
  }

  lemma WriteTerminalShape(cfg: Config, s: State, observation: ObservationId, status: Completion)
    requires s.disk.pending == map[] && observation !in Loaded(cfg, s.disk).terminals
    requires MayConclude(cfg, s.past.sight, observation, status) && TerminalEvent(cfg, status).Some?
    ensures Enabled(cfg, s, WriteTerminal(observation, status))
    ensures var c, t := Loaded(cfg, s.disk), Apply(cfg, s, WriteTerminal(observation, status));
            var m := TerminalManifest(cfg.identity, TerminalSource(cfg), observation, c.nextSequence, TerminalPayload(cfg, status));
            && t.disk == s.disk.(pending := s.disk.pending[NameOf(m) := m])
            && t.sink == s.sink && t.world == s.world && SamePast(s.past, t.past)
  {
  }

  lemma ReachEndShape(cfg: Config, s: State, path: Path)
    requires s.past.sight.finalDrain.Some? && path in s.past.sight.finalDrain.value.files && path in s.past.sight.held
    requires AtEnd(Loaded(cfg, s.disk).Source(path), s.past.sight.held[path].text)
    ensures Enabled(cfg, s, ReachEnd(path))
    ensures var f := s.past.sight.finalDrain.value;
            Apply(cfg, s, ReachEnd(path)) == s.(past := s.past.(sight := s.past.sight.(finalDrain :=
              Some(f.(reached := f.reached[path := s.past.sight.held[path].text])))))
  {
  }

  lemma BeginShape(cfg: Config, s: State)
    requires s.past.sight.completionSeen && s.past.sight.listed.Some? && s.past.sight.held == map[]
    ensures Enabled(cfg, s, BeginFinalDrain)
    ensures Apply(cfg, s, BeginFinalDrain) == s.(past := s.past.(sight := s.past.sight.(finalDrain :=
              Some(FinalDrain(s.past.sight.listed.value, map[])))))
  {
  }

  lemma ReadShape(cfg: Config, s: State, path: Path)
    requires s.past.sight.listed.Some? && path in s.past.sight.listed.value && path in s.world.files && Real(s.world.files)
    ensures Enabled(cfg, s, ReadFile(path))
    ensures Apply(cfg, s, ReadFile(path)) ==
            s.(past := s.past.(sight := s.past.sight.(held := s.past.sight.held[path := s.world.files[path]])))
  {
  }

  lemma BaselineMayPersist(cfg: Config, s: State)
    requires cfg.baseline && s.disk.checkpoint.None? && s.disk.pending == map[] && !s.past.sight.completionSeen
    requires s.past.sight.listed == Some(s.past.sight.held.Keys) && Real(s.past.sight.held)
    ensures Enabled(cfg, s, PersistBaseline)
    ensures var t := Apply(cfg, s, PersistBaseline);
            && t.disk == s.disk.(checkpoint := Some(BaselineCheckpoints(cfg, s.past.sight.held)))
            && t.sink == s.sink && t.world == s.world && SamePast(s.past, t.past)
  {
  }

  lemma NothingBaselined(cfg: Config)
    ensures BaselineCheckpoints(cfg, map[]) == InitialCheckpoints(cfg.identity)
  {
  }

  lemma OneMoreBaselined(cfg: Config, held: map<Path, SourceFile>, path: Path, file: SourceFile)
    ensures var c := BaselineCheckpoints(cfg, held);
            BaselineCheckpoints(cfg, held[path := file]) ==
            c.(sources := c.sources[path := BaselineSource(path, file.fileId, file.text, 0)])
  {
    hide BaselineSource;
  }

  lemma ReadyShape(cfg: Config, s: State)
    requires cfg.baseline ==> s.disk.checkpoint.Some?
    ensures Enabled(cfg, s, PublishReady)
    ensures Apply(cfg, s, PublishReady) == s.(disk := s.disk.(ready := true))
  {
  }

  lemma DoneShape(cfg: Config, s: State)
    requires s.past.sight.finalDrain.Some? && s.past.sight.finalDrain.value.reached.Keys == s.past.sight.finalDrain.value.files
    requires s.past.sight.outcome.Some? && StatusSha(s.past.sight.outcome.value) in Loaded(cfg, s.disk).terminals
    ensures Enabled(cfg, s, PublishDone)
    ensures var t := Apply(cfg, s, PublishDone);
            t.disk == s.disk.(done := true) && t.sink == s.sink && t.world == s.world && SamePast(s.past, t.past)
  {
  }

  // ----------------------------------------------------------- reading a source

  /** The checkpoint of a source once its file identity is up to date. */
  function Rebound(c: SourceCheckpoint, fileId: FileId): SourceCheckpoint {
    if c.path != "" && c.fileId != fileId then c.(fileId := fileId, baseline := false) else c
  }

  /** `read` is what `readSource` made of a file that held `file`. */
  ghost predicate ReadFrom(c: SourceCheckpoint, path: Path, file: SourceFile, trailing: bool, read: SourceRead) {
    && file.fileId != NoFileId && c.lines >= 0 && path != "" && (c.path == "" ==> c == NO_CHECKPOINT)
    && ReadSource(path, file.fileId, file.text, c, trailing) == Some(read)
  }

  /** The source was consumed from where it stood: to the last newline of what its
      file held, or to the end with trailing records. */
  ghost predicate Drained(was: SourceCheckpoint, after: SourceCheckpoint, text: Bytes, trailing: bool) {
    && 0 <= was.offset <= |text|
    && var data := if trailing then text[was.offset..] else CompletePart(text[was.offset..]);
    && after.offset == was.offset + |data|
    && after.prefix == PrefixDigestOf(text[..after.offset])
  }

  /** No complete record of the text is left to consume. */
  ghost predicate CaughtUp(c: SourceCheckpoint, text: Bytes) {
    && 0 <= c.offset <= |text| && NEWLINE !in text[c.offset..]
    && c.prefix == PrefixDigestOf(text[..c.offset])
  }

  lemma ReadContinues(c: SourceCheckpoint, path: Path, file: SourceFile, trailing: bool, read: SourceRead)
    requires ReadFrom(c, path, file, trailing, read)
    ensures read.path == path && read.fileId == file.fileId && read.start == c.offset
    ensures read.data != [] ==> Continues(Rebound(c, file.fileId), read)
    ensures read.end == read.start + |read.data|
  {
    var text := file.text;
    var raw := text[c.offset..];
    var data := if trailing then raw else CompletePart(raw);
    assert text[..c.offset + |data|][c.offset..] == data;
    assert text[..c.offset + |data|][..c.offset] == text[..c.offset];
  }

  lemma EmptyRead(c: SourceCheckpoint, path: Path, file: SourceFile, trailing: bool, read: SourceRead)
    requires ReadFrom(c, path, file, trailing, read) && read.data == []
    ensures Drained(c, c, file.text, trailing)
  {
    hide CompletePart;
    assert file.text[..0] == [];
  }

  lemma FullRead(c: SourceCheckpoint, path: Path, file: SourceFile, trailing: bool, read: SourceRead, held: map<Path, SourceFile>)
    requires ReadFrom(c, path, file, trailing, read) && read.data != [] && path in held && held[path] == file
    ensures Continues(Rebound(c, file.fileId), read) && read.path == path && read.fileId == file.fileId != NoFileId
    ensures FromFile(held, Rebound(c, file.fileId), read, trailing)
  {
    ReadContinues(c, path, file, trailing, read);
    hide CompletePart, PrefixDigestOf;
  }

  lemma ConsumedRead(c: SourceCheckpoint, path: Path, file: SourceFile, trailing: bool, read: SourceRead, after: SourceCheckpoint)
    requires ReadFrom(c, path, file, trailing, read) && after.offset == read.end && after.prefix == read.prefix
    ensures Drained(c, after, file.text, trailing)
  {
    hide PrefixDigestOf, CompletePart;
  }

  /** A drained source has nothing left: nothing at all with trailing records. */
  lemma DrainedLeavesNothing(was: SourceCheckpoint, after: SourceCheckpoint, text: Bytes, trailing: bool)
    requires Drained(was, after, text, trailing)
    ensures CaughtUp(after, text)
    ensures trailing ==> AtEnd(after, text)
  {
    var rest := text[was.offset..];
    if trailing {
      assert text[..|text|] == text && text[|text|..] == [];
    } else {
      assert text[after.offset..] == rest[|CompletePart(rest)|..];
    }
  }

  // ----------------------------------------------------------- several sources

  /** No source but `path` changed. */
  ghost predicate SameBut(was: CheckpointSet, after: CheckpointSet, path: Path) {
    forall p | p != path :: after.Source(p) == was.Source(p)
  }

  lemma SameButTwice(a: CheckpointSet, b: CheckpointSet, c: CheckpointSet, path: Path)
    requires SameBut(a, b, path) && SameBut(b, c, path)
    ensures SameBut(a, c, path)
  {
  }

  lemma SameButItself(a: CheckpointSet, path: Path)
    ensures SameBut(a, a, path)
  {
  }

  /** Exactly the files read were drained, each as far as it went. */
  ghost predicate AllDrained(was: CheckpointSet, after: CheckpointSet, held: map<Path, SourceFile>, trailing: bool) {
    forall p :: if p in held then Drained(was.Source(p), after.Source(p), held[p].text, trailing)
                else after.Source(p) == was.Source(p)
  }

  lemma NoneDrained(c: CheckpointSet, trailing: bool)
    ensures AllDrained(c, c, map[], trailing)
  {
  }

  lemma OneMoreDrained(was: CheckpointSet, middle: CheckpointSet, after: CheckpointSet,
                       held: map<Path, SourceFile>, trailing: bool, path: Path, file: SourceFile)
    requires AllDrained(was, middle, held, trailing) && path !in held
    requires SameBut(middle, after, path) && Drained(middle.Source(path), after.Source(path), file.text, trailing)
    ensures AllDrained(was, after, held[path := file], trailing)
  {
    hide Drained;
  }

  lemma OneMoreText(held: map<Path, SourceFile>, path: Path, file: SourceFile)
    ensures Texts(held[path := file]) == Texts(held)[path := file.text]
  {
  }

  /** Everything that was read is consumed to its end. */
  ghost predicate AllAtEnd(c: CheckpointSet, held: map<Path, SourceFile>) {
    forall p | p in held :: AtEnd(c.Source(p), held[p].text)
  }

  ghost predicate AllCaughtUp(c: CheckpointSet, held: map<Path, SourceFile>) {
    forall p | p in held :: CaughtUp(c.Source(p), held[p].text)
  }

  lemma AllDrainedLeaveNothing(was: CheckpointSet, after: CheckpointSet, held: map<Path, SourceFile>, trailing: bool)
    requires AllDrained(was, after, held, trailing)
    ensures AllCaughtUp(after, held)
    ensures trailing ==> AllAtEnd(after, held)
  {
    hide Drained, CaughtUp, AtEnd;
    forall p | p in held
      ensures CaughtUp(after.Source(p), held[p].text) && (trailing ==> AtEnd(after.Source(p), held[p].text))
    {
      DrainedLeavesNothing(was.Source(p), after.Source(p), held[p].text, trailing);
    }
  }

  lemma AtEndIsCaughtUp(c: CheckpointSet, held: map<Path, SourceFile>)
    requires AllAtEnd(c, held)
    ensures AllCaughtUp(c, held)
  {
    forall p | p in held ensures CaughtUp(c.Source(p), held[p].text) {
      var text := held[p].text;
      assert AtEnd(c.Source(p), text);
      assert text[..|text|] == text && text[|text|..] == [];
    }
  }

  lemma SameSourcesSameEnds(was: CheckpointSet, after: CheckpointSet, held: map<Path, SourceFile>)
    requires after.sources == was.sources
    ensures AllAtEnd(after, held) <==> AllAtEnd(was, held)
  {
  }

  function SetOf(files: seq<Path>): set<Path> {
    set p | p in files
  }

  lemma OneMorePath(files: seq<Path>, i: nat)
    requires i < |files| && forall k, m | 0 <= k < m < |files| :: files[k] != files[m]
    ensures SetOf(files[..i + 1]) == SetOf(files[..i]) + {files[i]}
    ensures files[i] !in SetOf(files[..i]) && files[i] in SetOf(files)
  {
    assert files[..i + 1] == files[..i] + [files[i]];
  }

  // ------------------------------------------------------------------ small facts

  function EventCount(log: seq<ChunkManifest>): nat {
    if log == [] then 0 else EventCount(log[..|log|-1]) + |log[|log|-1].body.ndjson|
  }

  lemma EventCountSnoc(log: seq<ChunkManifest>, m: ChunkManifest)
    ensures EventCount(log + [m]) == EventCount(log) + |m.body.ndjson|
  {
    assert (log + [m])[..|log|] == log;
  }

  lemma ProjectSnoc(decode: RowDecoder, path: Path, line: nat, rows: seq<Bytes>, k: nat)
    requires k < |rows|
    ensures Project(decode, path, line, rows[..k + 1]) ==
            Both(Project(decode, path, line, rows[..k]), ProjectRow(decode, path, line + k, rows[k]))
  {
    assert rows[..k + 1][..k] == rows[..k];
  }

  lemma OnlyKey<K, V>(m: map<K, V>, k: K)
    requires k in m && |m| <= 1
    ensures m == map[k := m[k]]
  {
    assert |m.Keys| <= 1;
    forall j | j in m
      ensures j == k
    {
      if j != k {
        assert {j, k} <= m.Keys;
        SubsetSize({j, k}, m.Keys);
      }
    }
  }

  lemma SubsetSize<K>(a: set<K>, b: set<K>)
    requires a <= b
    ensures |a| <= |b|
  {
    assert b == a + (b - a);
  }

  lemma NameIsManifests(name: PendingName, m: ChunkManifest, identity: string)
    requires ValidManifest(name, m, identity)
    ensures name == NameOf(m) && m.body.sequence > 0
  {
  }

  lemma SourcesKnown(cfg: Config, s: State, path: Path)
    requires Inv(cfg, s)
    ensures var c := Loaded(cfg, s.disk);
            && c.Source(path).lines >= 0
            && (path in c.sources ==> c.Source(path).path == path != "")
            && (path !in c.sources ==> c.Source(path) == NO_CHECKPOINT)
  {
    hide LogIsProjection, LogIsSound, LinesAdvance, TerminalsMatchLog, PendingIsNextOrLast, SinkHoldsLog,
      SubmissionsAreChunks, DoneIsJustified, BasesAreWhole, ValidCheckpoints;
    KnownSource(Loaded(cfg, s.disk), s.past.tails, path);
  }
}

/** The collector's write-ahead protocol as a transition system. A state is what
    survives a crash (disk and sink) plus a record of the past that the program
    never reads. A crash may fall between any two actions. */
module CollectorProtocol {
  import opened SourceText
  import opened Telemetry
  import opened Spool
  import opened Wrappers

  /** Each history pattern is the set of paths it names; white space around the keys
      of tags is trimmed. */
  datatype Config = Config(
    identity: string, decode: RowDecoder, history: seq<Path -> bool>, baseline: bool, completionFile: Path,
    tags: map<string, string>)

  datatype SourceFile = SourceFile(fileId: FileId, text: Bytes)

  datatype CompletionFile = Absent | Unreadable | Present(status: Completion)

  /** What the workload has written; the collector only reads it, and it may
      change in any way between two actions of the collector. */
  datatype World = World(files: map<Path, SourceFile>, completion: CompletionFile)

  predicate Real(files: map<Path, SourceFile>) {
    forall p | p in files :: p != "" && files[p].fileId != NoFileId
  }

  function Texts(files: map<Path, SourceFile>): map<Path, Bytes> {
    map p | p in files :: files[p].text
  }

  predicate Named(cfg: Config, path: Path) {
    exists i | 0 <= i < |cfg.history| :: cfg.history[i](path)
  }

  /** The existing files that the history patterns name. */
  function Listed(cfg: Config, w: World): set<Path> {
    set p | p in w.files && Named(cfg, p)
  }

  datatype Disk = Disk(
    checkpoint: Option<CheckpointSet>, pending: map<PendingName, ChunkManifest>, ready: bool, done: bool)

  /** One payload handed to the sink, under the ingest-by tag of its digest. */
  datatype Submission = Submission(sequence: nat, tag: ChunkDigest)

  /** The sink: the tags it has ingested, in order, and every submission made. */
  datatype Sink = Sink(accepted: seq<ChunkDigest>, submissions: seq<Submission>)

  /** A drain with trailing records that began after completion was observed:
      the files listed then, and the text each of them held when it was read, for
      those that are consumed to the end of that text. */
  datatype FinalDrain = FinalDrain(files: set<Path>, reached: map<Path, Bytes>)

  /** What one process has seen of the world. `held` is what the listed files
      held when they were read. */
  datatype Sight = Sight(
    listings: nat, listed: Option<set<Path>>, held: map<Path, SourceFile>,
    completionSeen: bool, outcome: Option<Completion>, finalDrain: Option<FinalDrain>)

  const BLIND := Sight(0, None, map[], false, None, None)

  /** The status the done file was written for, and the texts of the final drain. */
  datatype Conclusion = Conclusion(status: Completion, reached: map<Path, Bytes>)

  /** The past: chunks acknowledged so far, the pending unacknowledged one, how
      each source was read, what this process saw, and what led to the done file. */
  datatype Past = Past(
    log: seq<ChunkManifest>, inFlight: Option<ChunkManifest>, tails: map<Path, Tail>,
    sight: Sight, conclusion: Option<Conclusion>)

  datatype State = State(disk: Disk, sink: Sink, world: World, past: Past)

  const START := State(
    Disk(None, map[], false, false), Sink([], []), World(map[], Absent),
    Past([], None, map[], BLIND, None))

  /** The checkpoints a process works with right after loading the disk. */
  function Loaded(cfg: Config, d: Disk): CheckpointSet {
    if d.checkpoint.Some? then d.checkpoint.value else InitialCheckpoints(cfg.identity)
  }

  function TailOf(tails: map<Path, Tail>, path: Path): Tail {
    if path in tails then tails[path] else Tail([], [])
  }

  /** The text between a history chunk's offsets. */
  function SliceOf(b: ManifestBody): Bytes {
    if b.prefix.PrefixSha? && 0 <= b.startOffset <= b.endOffset <= |b.prefix.text|
    then b.prefix.text[b.startOffset..b.endOffset] else []
  }

  const STATUS_REASON_TAG := "tau.status.reason"
  const STATUS_MESSAGE_TAG := "tau.status.message"

  /** An empty reason or message keeps a configured tag. */
  function OrTag(value: string, tags: map<string, string>, key: string): Option<string> {
    if value != "" then Some(value) else if key in tags then Some(tags[key]) else None
  }

  function TerminalPayload(cfg: Config, status: Completion): seq<Event> {
    [Concluded(status.state, OrTag(status.reason, cfg.tags, STATUS_REASON_TAG),
               OrTag(status.message, cfg.tags, STATUS_MESSAGE_TAG), status.completedAt)]
  }

  /** What `NewMetricEvent` checks of a terminal event that can fail: its time, and
      that no configured tag overrides a field. */
  predicate Acceptable(cfg: Config, at: int) {
    ValidTime(at) && forall key | key in cfg.tags :: !IsProtected(key)
  }

  /** The terminal event of a status, unless it is refused. */
  function TerminalEvent(cfg: Config, status: Completion): Option<Event> {
    if Acceptable(cfg, status.completedAt) then Some(TerminalPayload(cfg, status)[0]) else None
  }

  function TerminalSource(cfg: Config): Path {
    if cfg.completionFile == "" then CANCELLATION_PATH else cfg.completionFile
  }

  datatype Action =
    | Restart
    | Evolve(world: World)
    | ListFiles
    | ReadFile(path: Path)
    | PersistBaseline
    | PublishReady
    | Rebind(path: Path, fileId: FileId)
    | SkipSilent(read: SourceRead, trailing: bool)
    | WriteHistory(read: SourceRead, trailing: bool, events: seq<Event>)
    | WriteTerminal(observation: ObservationId, status: Completion)
    | Submit(name: PendingName, taken: bool)
    | Acknowledge(name: PendingName)
    | RemovePending(name: PendingName)
    | SeeCompletion
    | ReadStatus
    | BeginFinalDrain
    | ReachEnd(path: Path)
    | PublishDone

  /** `read` continues the checkpointed text of its source. */
  predicate Continues(c: SourceCheckpoint, read: SourceRead) {
    && read.path != "" && read.fileId != NoFileId && c.lines >= 0
    && (c.path != "" ==> c.path == read.path && c.fileId == read.fileId)
    && read.data != [] && read.start == c.offset && read.end == read.start + |read.data|
    && read.prefix.PrefixSha? && |read.prefix.text| == read.end
    && read.prefix.text[read.start..] == read.data
    && PrefixDigestOf(read.prefix.text[..read.start]) == c.prefix
  }

  /** `read` is what `readSource` makes of the file as it was read. */
  predicate FromFile(held: map<Path, SourceFile>, c: SourceCheckpoint, read: SourceRead, trailing: bool) {
    && read.path in held
    && ReadSource(read.path, held[read.path].fileId, held[read.path].text, c, trailing) == Some(read)
  }

  /** The source checkpoint ends exactly at the end of `text`. */
  predicate AtEnd(c: SourceCheckpoint, text: Bytes) {
    c.offset == |text| && c.prefix == PrefixDigestOf(text)
  }

  function BaselineCheckpoints(cfg: Config, files: map<Path, SourceFile>): CheckpointSet {
    InitialCheckpoints(cfg.identity).(sources :=
      map p | p in files :: BaselineSource(p, files[p].fileId, files[p].text, 0))
  }

  /** What the baseline skips. */
  function BaselineTails(files: map<Path, SourceFile>): map<Path, Tail> {
    map p | p in files :: Tail(CompletePart(files[p].text), [])
  }

  /** Whose end the process may record: the workload's, as its file told it, or
      its own cancellation. */
  predicate MayConclude(cfg: Config, sight: Sight, observation: ObservationId, status: Completion) {
    || (observation == StatusSha(status) && sight.outcome == Some(status))
    || (observation == CancellationSha(cfg.identity) && status.state == Cancelled)
  }

  /** When the program takes an action; every condition is on the disk, the sink,
      the world, or what this process has seen of it. */
  predicate Enabled(cfg: Config, s: State, a: Action) {
    var c, sight := Loaded(cfg, s.disk), s.past.sight;
    match a
    case Restart => true
    case Evolve(world) => Real(world.files)
    case ListFiles => true
    case ReadFile(path) =>
      sight.listed.Some? && path in sight.listed.value && path in s.world.files && Real(s.world.files)
    case PersistBaseline =>
      && cfg.baseline && s.disk.checkpoint.None? && s.disk.pending == map[] && !sight.completionSeen
      && sight.listed == Some(sight.held.Keys) && Real(sight.held)
    case PublishReady => cfg.baseline ==> s.disk.checkpoint.Some?
    case Rebind(path, fileId) =>
      s.disk.pending == map[] && path in c.sources && fileId != NoFileId
    case SkipSilent(read, trailing) =>
      && s.disk.pending == map[] && Continues(c.Source(read.path), read)
      && FromFile(sight.held, c.Source(read.path), read, trailing)
      && Project(cfg.decode, read.path, c.Source(read.path).lines + 1, Records(read.data)) == Some([])
    case WriteHistory(read, trailing, events) =>
      && s.disk.pending == map[] && Continues(c.Source(read.path), read)
      && FromFile(sight.held, c.Source(read.path), read, trailing)
      && events != []
      && Project(cfg.decode, read.path, c.Source(read.path).lines + 1, Records(read.data)) == Some(Identities(events))
    case WriteTerminal(observation, status) =>
      && s.disk.pending == map[] && observation !in c.terminals
      && MayConclude(cfg, sight, observation, status) && TerminalEvent(cfg, status).Some?
    case Submit(name, _) =>
      name in s.disk.pending && name.sequence == c.nextSequence
    case Acknowledge(name) =>
      && name in s.disk.pending && name.sequence == c.nextSequence
      && AdvanceFor(c, s.disk.pending[name]).Advanced?
      && name.digest in s.sink.accepted
    case RemovePending(name) =>
      name in s.disk.pending && name.sequence < c.nextSequence
    case SeeCompletion => cfg.completionFile != "" && s.world.completion != Absent
    case ReadStatus => sight.completionSeen && s.world.completion.Present?
    case BeginFinalDrain => sight.completionSeen && sight.listed.Some? && sight.held == map[]
    case ReachEnd(path) =>
      && sight.finalDrain.Some? && path in sight.finalDrain.value.files && path in sight.held
      && AtEnd(c.Source(path), sight.held[path].text)
    case PublishDone =>
      && sight.finalDrain.Some? && sight.finalDrain.value.reached.Keys == sight.finalDrain.value.files
      && sight.outcome.Some? && StatusSha(sight.outcome.value) in c.terminals
  }

  function Ingest(sink: Sink, name: PendingName, taken: bool): Sink {
    Sink(if taken && name.digest !in sink.accepted then sink.accepted + [name.digest] else sink.accepted,
      sink.submissions + [Submission(name.sequence, name.digest)])
  }

  function Apply(cfg: Config, s: State, a: Action): State
    requires Enabled(cfg, s, a)
  {
    var c, d, p := Loaded(cfg, s.disk), s.disk, s.past;
    var sight := p.sight;
    match a
    case Restart => s.(past := p.(sight := BLIND))
    case Evolve(world) => s.(world := world)
    case ListFiles =>
      s.(past := p.(sight := sight.(listings := sight.listings + 1, listed := Some(Listed(cfg, s.world)), held := map[])))
    case ReadFile(path) => s.(past := p.(sight := sight.(held := sight.held[path := s.world.files[path]])))
    case PersistBaseline =>
      s.(disk := d.(checkpoint := Some(BaselineCheckpoints(cfg, sight.held))),
         past := p.(tails := BaselineTails(sight.held)))
    case PublishReady => s.(disk := d.(ready := true))
    case Rebind(path, fileId) =>
      s.(disk := d.(checkpoint := Some(c.(sources :=
           c.sources[path := c.sources[path].(fileId := fileId, baseline := false)]))))
    case SkipSilent(read, _) =>
      var source := c.Source(read.path);
      s.(disk := d.(checkpoint := Some(c.(sources := c.sources[read.path :=
           DrainedSource(source, read, source.sequence, source.chunkDigest)]))),
         past := p.(tails := p.tails[read.path := Grow(TailOf(p.tails, read.path), read.data)]))
    case WriteHistory(read, _, events) =>
      var m := HistoryManifest(cfg.identity, c.Source(read.path), read, c.nextSequence, events);
      s.(disk := d.(pending := d.pending[NameOf(m) := m]), past := p.(inFlight := Some(m)))
    case WriteTerminal(observation, status) =>
      var m := TerminalManifest(cfg.identity, TerminalSource(cfg), observation, c.nextSequence, TerminalPayload(cfg, status));
      s.(disk := d.(pending := d.pending[NameOf(m) := m]), past := p.(inFlight := Some(m)))
    case Submit(name, taken) => s.(sink := Ingest(s.sink, name, taken))
    case Acknowledge(name) =>
      var m := d.pending[name];
      s.(disk := d.(checkpoint := Some(AdvanceFor(c, m).next)),
         past := p.(log := p.log + [m], inFlight := None,
           tails := if m.body.kind.History?
                    then p.tails[m.body.sourcePath := Grow(TailOf(p.tails, m.body.sourcePath), SliceOf(m.body))]
                    else p.tails))
    case RemovePending(name) => s.(disk := d.(pending := d.pending - {name}))
    case SeeCompletion =>
      s.(past := p.(sight := sight.(completionSeen := true, outcome := None, listed := None, held := map[], finalDrain := None)))
    case ReadStatus => s.(past := p.(sight := sight.(outcome := Some(s.world.completion.status))))
    case BeginFinalDrain => s.(past := p.(sight := sight.(finalDrain := Some(FinalDrain(sight.listed.value, map[])))))
    case ReachEnd(path) =>
      var f := sight.finalDrain.value;
      s.(past := p.(sight := sight.(finalDrain := Some(f.(reached := f.reached[path := sight.held[path].text])))))
    case PublishDone =>
      s.(disk := d.(done := true),
         past := p.(conclusion := Some(Conclusion(sight.outcome.value, sight.finalDrain.value.reached))))
  }

  // ---------------------------------------------------------------- invariant

  /** The tags an idempotent sink holds after ingesting the chunks in order. */
  function Accepts(ms: seq<ChunkManifest>): seq<ChunkDigest> {
    if ms == [] then []
    else
      var before, tag := Accepts(ms[..|ms|-1]), ms[|ms|-1].body.chunkDigest;
      if tag in before then before else before + [tag]
  }

  /** The measurements of one source among some events, export times aside. */
  function Measurements(es: seq<Event>, path: Path): seq<Event> {
    if es == [] then []
    else
      var last := es[|es|-1];
      Measurements(es[..|es|-1], path) +
      if last.Measured? && last.path == path then [Identity(last)] else []
  }

  function LogEvents(log: seq<ChunkManifest>, path: Path): seq<Event> {
    if log == [] then []
    else LogEvents(log[..|log|-1], path) + Measurements(log[|log|-1].body.ndjson, path)
  }

  ghost predicate SourceMatches(c: SourceCheckpoint, path: Path, t: Tail) {
    && path != "" && c.path == path && c.fileId != NoFileId
    && c.offset == |Consumed(t)| && c.prefix == PrefixDigestOf(Consumed(t)) && c.lines == LinesRead(t)
    && (c.sequence == 0 <==> c.chunkDigest == NoDigest)
  }

  /** Checkpointed sources describe exactly the text that has been read. */
  ghost predicate SourcesDescribeTails(sources: map<Path, SourceCheckpoint>, tails: map<Path, Tail>) {
    && sources.Keys == tails.Keys
    && forall p | p in tails :: SourceMatches(sources[p], p, tails[p])
  }

  /** What was acknowledged for a source is what its consumed text projects to. */
  ghost predicate LogIsProjection(decode: RowDecoder, log: seq<ChunkManifest>, tails: map<Path, Tail>) {
    forall p :: Stream(decode, p, TailOf(tails, p)) == Some(LogEvents(log, p))
  }

  /** A chunk as the protocol writes it: valid, a history chunk's events on its
      own lines, a terminal chunk's event that of the observed status. */
  ghost predicate Sound(cfg: Config, m: ChunkManifest) {
    && ValidManifest(NameOf(m), m, cfg.identity)
    && (m.body.kind.History? ==> OnLines(m.body.ndjson, m.body.sourcePath, m.body.startLines + 1, m.body.endLines + 1))
    && (m.body.kind.Terminal? ==>
          && |m.body.ndjson| == 1 && m.body.ndjson[0].Concluded? && Acceptable(cfg, m.body.ndjson[0].at)
          && (m.body.sourceFileId.observation.StatusSha? ==>
                m.body.ndjson == TerminalPayload(cfg, m.body.sourceFileId.observation.status)))
  }

  ghost predicate LogIsSound(cfg: Config, log: seq<ChunkManifest>, tails: map<Path, Tail>) {
    forall i | 0 <= i < |log| ::
      && Sound(cfg, log[i]) && log[i].body.sequence == i + 1
      && (log[i].body.kind.History? ==> log[i].body.endLines <= LinesRead(TailOf(tails, log[i].body.sourcePath)))
  }

  /** Chunks of one source cover later and later lines. */
  ghost predicate LinesAdvance(log: seq<ChunkManifest>) {
    forall i, j | 0 <= i < j < |log| && log[i].body.kind.History? && log[j].body.kind.History?
                  && log[i].body.sourcePath == log[j].body.sourcePath ::
      log[i].body.endLines <= log[j].body.startLines
  }

  /** The chunk records the terminal observation `id`. */
  predicate Concludes(m: ChunkManifest, id: ObservationId) {
    m.body.kind.Terminal? && m.body.sourceFileId == StatusOf(id)
  }

  /** Terminal checkpoints and acknowledged terminal chunks correspond one to one. */
  ghost predicate TerminalsMatchLog(terminals: map<ObservationId, TerminalCheckpoint>, log: seq<ChunkManifest>) {
    && (forall i, id | 0 <= i < |log| && Concludes(log[i], id) ::
          id in terminals && terminals[id] == TerminalCheckpoint(i + 1, log[i].body.chunkDigest))
    && (forall id | id in terminals ::
          1 <= terminals[id].sequence <= |log| && Concludes(log[terminals[id].sequence - 1], id))
  }

  /** The unacknowledged pending chunk continues the checkpoint. */
  ghost predicate FollowsCheckpoint(cfg: Config, c: CheckpointSet, m: ChunkManifest, tails: map<Path, Tail>) {
    var b := m.body;
    && Sound(cfg, m) && b.sequence == c.nextSequence && AdvanceFor(c, m).Advanced?
    && (b.kind.History? ==>
          var t := TailOf(tails, b.sourcePath);
          && SliceOf(b) != []
          && b.startLines == LinesRead(t) && b.endLines == b.startLines + LineCount(SliceOf(b))
          && b.endOffset == |Consumed(t)| + |SliceOf(b)|
          && b.prefix == PrefixSha(Consumed(t) + SliceOf(b))
          && Project(cfg.decode, b.sourcePath, LinesRead(t) + 1, Records(SliceOf(b))) == Some(Identities(b.ndjson)))
  }

  /** The pending directory holds at most one chunk: the next one, or the last
      one acknowledged and not yet removed. */
  ghost predicate PendingIsNextOrLast(cfg: Config, c: CheckpointSet, pending: map<PendingName, ChunkManifest>, past: Past) {
    if past.inFlight.Some? then
      var m := past.inFlight.value;
      NameOf(m) in pending && pending == map[NameOf(m) := m] && FollowsCheckpoint(cfg, c, m, past.tails)
    else
      || pending == map[]
      || (past.log != [] && var m := past.log[|past.log|-1]; pending == map[NameOf(m) := m] && Acknowledged(c, m))
  }

  /** The sink holds the acknowledged chunks, and perhaps the pending one. */
  ghost predicate SinkHoldsLog(sink: Sink, past: Past) {
    || sink.accepted == Accepts(past.log)
    || (past.inFlight.Some? && sink.accepted == Accepts(past.log + [past.inFlight.value]))
  }

  /** Every submission was of an acknowledged chunk or of the pending one. */
  ghost predicate SubmissionsAreChunks(sink: Sink, past: Past) {
    forall i | 0 <= i < |sink.submissions| ::
      var x := sink.submissions[i];
      || (1 <= x.sequence <= |past.log| && past.log[x.sequence - 1].body.chunkDigest == x.tag)
      || (x.sequence == |past.log| + 1 && past.inFlight.Some? && past.inFlight.value.body.chunkDigest == x.tag)
  }

  /** The text of a source after its first `k` slices. */
  function ConsumedAt(t: Tail, k: nat): Bytes
    requires k <= |t.slices|
  {
    Consumed(t.(slices := t.slices[..k]))
  }

  ghost predicate WasConsumed(t: Tail, text: Bytes) {
    exists k :: 0 <= k <= |t.slices| && text == ConsumedAt(t, k)
  }

  /** Each of these texts was at some time all that had been consumed of its source. */
  ghost predicate Covered(tails: map<Path, Tail>, reached: map<Path, Bytes>) {
    forall p | p in reached :: WasConsumed(TailOf(tails, p), reached[p])
  }

  ghost predicate DoneIsJustified(c: CheckpointSet, d: Disk, past: Past) {
    && (past.sight.finalDrain.Some? ==>
          && past.sight.completionSeen
          && past.sight.finalDrain.value.reached.Keys <= past.sight.finalDrain.value.files
          && Covered(past.tails, past.sight.finalDrain.value.reached))
    && (past.conclusion.Some? ==>
          && StatusSha(past.conclusion.value.status) in c.terminals
          && Covered(past.tails, past.conclusion.value.reached))
    && (d.done ==> past.conclusion.Some?)
  }

  ghost predicate BasesAreWhole(cfg: Config, d: Disk, tails: map<Path, Tail>) {
    && (forall p | p in tails :: AtBoundary(tails[p].base) && (!cfg.baseline ==> tails[p].base == []))
    && (d.ready && cfg.baseline ==> d.checkpoint.Some?)
  }

  ghost predicate Inv(cfg: Config, s: State) {
    var c := Loaded(cfg, s.disk);
    && cfg.identity != ""
    && ValidCheckpoints(c, cfg.identity) && c.nextSequence == |s.past.log| + 1
    && SourcesDescribeTails(c.sources, s.past.tails)
    && LogIsProjection(cfg.decode, s.past.log, s.past.tails)
    && LogIsSound(cfg, s.past.log, s.past.tails) && LinesAdvance(s.past.log)
    && TerminalsMatchLog(c.terminals, s.past.log)
    && PendingIsNextOrLast(cfg, c, s.disk.pending, s.past)
    && SinkHoldsLog(s.sink, s.past)
    && SubmissionsAreChunks(s.sink, s.past)
    && DoneIsJustified(c, s.disk, s.past)
    && BasesAreWhole(cfg, s.disk, s.past.tails)
  }
}

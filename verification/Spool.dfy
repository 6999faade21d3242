/** The collector's durable records: source and terminal checkpoints, and the
    write-once manifest of the pending chunk. SHA-256 is a free constructor over
    what is hashed, so equal digests mean equal contents. */
module Spool {
  import opened SourceText
  import opened Telemetry
  import opened Wrappers

  const CHUNK_MANIFEST_SCHEMA_V1 := "tau.experiment.metric_chunk_manifest.v1"
  const CHECKPOINT_SCHEMA_V1 := "tau.experiment.metrics_checkpoint.v1"
  const CANCELLATION_PATH := "collector-generated://cancellation"

  datatype PrefixDigest = NoPrefix | PrefixSha(text: Bytes)
  datatype ChunkDigest = NoDigest | ChunkSha(payload: seq<Event>)
  datatype ObservationId = StatusSha(status: Completion) | CancellationSha(configIdentity: string)
  datatype FileId = NoFileId | Inode(id: string) | StatusOf(observation: ObservationId)

  /** `prefixDigest`: the empty prefix has no digest. */
  function PrefixDigestOf(text: Bytes): PrefixDigest {
    if text == [] then NoPrefix else PrefixSha(text)
  }

  datatype SourceCheckpoint = SourceCheckpoint(
    path: Path, fileId: FileId, offset: int, prefix: PrefixDigest,
    sequence: nat, chunkDigest: ChunkDigest, lines: int, baseline: bool)

  /** What a Go map returns for a missing source. */
  const NO_CHECKPOINT := SourceCheckpoint("", NoFileId, 0, NoPrefix, 0, NoDigest, 0, false)

  datatype TerminalCheckpoint = TerminalCheckpoint(sequence: nat, chunkDigest: ChunkDigest)

  datatype CheckpointSet = CheckpointSet(
    schemaVersion: string, configIdentity: string, nextSequence: nat,
    sources: map<Path, SourceCheckpoint>, terminals: map<ObservationId, TerminalCheckpoint>)
  {
    function Source(path: Path): SourceCheckpoint {
      if path in sources then sources[path] else NO_CHECKPOINT
    }
  }

  function InitialCheckpoints(identity: string): CheckpointSet {
    CheckpointSet(CHECKPOINT_SCHEMA_V1, identity, 1, map[], map[])
  }

  datatype Kind = History | Terminal | Unknown(name: string)

  datatype ManifestBody = ManifestBody(
    schemaVersion: string, chunkDigest: ChunkDigest, configIdentity: string, kind: Kind,
    sequence: nat, sourcePath: Path, sourceFileId: FileId,
    startOffset: int, endOffset: int, startLines: int, endLines: int,
    startPrefix: PrefixDigest, prefix: PrefixDigest, eventCount: int, ndjson: seq<Event>)

  datatype ManifestDigest = NoManifestDigest | ManifestSha(body: ManifestBody)

  datatype ChunkManifest = ChunkManifest(body: ManifestBody, digest: ManifestDigest)

  /** The file name of a pending chunk; `SpoolNames` gives its spelling. */
  datatype PendingName = PendingName(sequence: nat, digest: ChunkDigest)

  function NameOf(m: ChunkManifest): PendingName {
    PendingName(m.body.sequence, m.body.chunkDigest)
  }

  /** The checks of `loadCheckpoints` on a checkpoint file's contents. */
  predicate ValidCheckpoints(c: CheckpointSet, identity: string) {
    && c.schemaVersion == CHECKPOINT_SCHEMA_V1
    && c.configIdentity != "" && c.nextSequence != 0
    && c.configIdentity == identity
    && (forall id | id in c.terminals :: c.terminals[id].sequence != 0 && c.terminals[id].chunkDigest.ChunkSha?)
    && (forall p | p in c.sources ::
          && c.sources[p].path == p
          && c.sources[p].offset >= 0 && c.sources[p].lines >= 0
          && !(c.sources[p].sequence == 0 && c.sources[p].chunkDigest.ChunkSha?)
          && !(c.sources[p].sequence > 0 && !c.sources[p].chunkDigest.ChunkSha?))
  }

  /** `validateManifest`. Decoding the payload is `Ndjson.Decode`: it fails on
      an empty payload and otherwise yields the payload's events. */
  predicate ValidManifest(name: PendingName, m: ChunkManifest, identity: string) {
    var b := m.body;
    && b.schemaVersion == CHUNK_MANIFEST_SCHEMA_V1 && b.sequence != 0
    && b.chunkDigest.ChunkSha? && m.digest == ManifestSha(b)
    && b.configIdentity == identity && b.eventCount > 0
    && name == NameOf(m)
    && b.chunkDigest == ChunkSha(b.ndjson)
    && b.ndjson != [] && |b.ndjson| == b.eventCount
    && match b.kind
       case History =>
         && b.sourcePath != "" && b.sourceFileId != NoFileId
         && 0 <= b.startOffset < b.endOffset
         && 0 <= b.startLines < b.endLines
         && b.prefix != NoPrefix
       case Terminal =>
         && b.sourcePath != "" && b.sourceFileId.StatusOf?
         && b.startOffset == 0 && b.endOffset == 0 && b.startLines == 0 && b.endLines == 0
       case Unknown(_) => false
  }

  /** `validateAcknowledgedManifest`: the checkpoint already covers the chunk. */
  predicate Acknowledged(c: CheckpointSet, m: ChunkManifest) {
    var b := m.body;
    match b.kind
    case History =>
      && b.sourcePath in c.sources
      && c.sources[b.sourcePath].sequence == b.sequence
      && c.sources[b.sourcePath].chunkDigest == b.chunkDigest
      && c.sources[b.sourcePath].offset >= b.endOffset
    case Terminal =>
      && b.sourceFileId.StatusOf?
      && b.sourceFileId.observation in c.terminals
      && c.terminals[b.sourceFileId.observation] == TerminalCheckpoint(b.sequence, b.chunkDigest)
    case Unknown(_) => false
  }

  datatype Advance = Unchanged | Advanced(next: CheckpointSet) | Refused

  /** `advanceCheckpointForManifest`. */
  function AdvanceFor(c: CheckpointSet, m: ChunkManifest): Advance {
    var b := m.body;
    if c.nextSequence > b.sequence then Unchanged
    else if c.nextSequence != b.sequence then Refused
    else
      match b.kind
      case History =>
        var source := c.Source(b.sourcePath);
        if source.path != "" &&
           (source.fileId != b.sourceFileId || source.offset != b.startOffset ||
            source.lines != b.startLines || source.prefix != b.startPrefix)
        then Refused
        else if source.path == "" && (b.startOffset != 0 || b.startLines != 0 || b.startPrefix != NoPrefix)
        then Refused
        else
          Advanced(c.(nextSequence := c.nextSequence + 1,
            sources := c.sources[b.sourcePath :=
              SourceCheckpoint(b.sourcePath, b.sourceFileId, b.endOffset, b.prefix,
                b.sequence, b.chunkDigest, b.endLines, false)]))
      case Terminal =>
        if !b.sourceFileId.StatusOf? || b.sourceFileId.observation in c.terminals then Refused
        else
          Advanced(c.(nextSequence := c.nextSequence + 1,
            terminals := c.terminals[b.sourceFileId.observation :=
              TerminalCheckpoint(b.sequence, b.chunkDigest)]))
      case Unknown(_) => Refused
  }

  /** What a drain learns from opening one source (`sourceRead`). */
  datatype SourceRead = SourceRead(path: Path, fileId: FileId, data: Bytes, start: nat, end: nat, prefix: PrefixDigest)

  /** `readSource` on a file that holds `content`: refused when the checkpoint
      does not describe a prefix of that file. */
  function ReadSource(path: Path, fileId: FileId, content: Bytes, c: SourceCheckpoint, trailing: bool): Option<SourceRead> {
    if c.path != "" && c.path != path then None
    else if c.offset < 0 || c.offset > |content| then None
    else if c.path != "" && PrefixDigestOf(content[..c.offset]) != c.prefix then None
    else
      var raw := content[c.offset..];
      var data := if trailing then raw else CompletePart(raw);
      var end := c.offset + |data|;
      Some(SourceRead(path, fileId, data, c.offset, end, PrefixDigestOf(content[..end])))
  }

  /** `baselineSource`: skip what is already complete. */
  function BaselineSource(path: Path, fileId: FileId, content: Bytes, sequence: nat): SourceCheckpoint {
    var base := CompletePart(content);
    SourceCheckpoint(path, fileId, |base|, PrefixDigestOf(base), sequence, NoDigest, NewlineCount(base), true)
  }

  /** `newHistoryManifest` as completed by `writePending`. */
  function HistoryManifest(identity: string, c: SourceCheckpoint, read: SourceRead, sequence: nat, events: seq<Event>)
    : ChunkManifest
  {
    var body := ManifestBody(CHUNK_MANIFEST_SCHEMA_V1, ChunkSha(events), identity, History,
                  sequence, read.path, read.fileId, read.start, read.end,
                  c.lines, c.lines + LineCount(read.data), c.prefix, read.prefix, |events|, events);
    ChunkManifest(body, ManifestSha(body))
  }

  /** `newTerminalManifest` as completed by `writePending`. */
  function TerminalManifest(identity: string, path: Path, observation: ObservationId, sequence: nat, events: seq<Event>)
    : ChunkManifest
  {
    var body := ManifestBody(CHUNK_MANIFEST_SCHEMA_V1, ChunkSha(events), identity, Terminal,
                  sequence, path, StatusOf(observation), 0, 0, 0, 0, NoPrefix, NoPrefix, |events|, events);
    ChunkManifest(body, ManifestSha(body))
  }

  /** The source checkpoint a drain writes once its chunk is delivered. */
  function DrainedSource(c: SourceCheckpoint, read: SourceRead, sequence: nat, digest: ChunkDigest): SourceCheckpoint {
    SourceCheckpoint(read.path, read.fileId, read.end, read.prefix, sequence, digest,
      c.lines + LineCount(read.data), false)
  }

  /** A drain and a replay of the chunk it left behind write the same
      checkpoint: the two code paths that acknowledge a history chunk agree. */
  lemma DrainAgreesWithReplay(c: CheckpointSet, identity: string, read: SourceRead, events: seq<Event>)
    requires c.Source(read.path).path == (if read.path in c.sources then read.path else "")
    requires read.path != "" && read.start == c.Source(read.path).offset
    requires read.path in c.sources ==> c.sources[read.path].fileId == read.fileId
    ensures var m := HistoryManifest(identity, c.Source(read.path), read, c.nextSequence, events);
            AdvanceFor(c, m) == Advanced(c.(nextSequence := c.nextSequence + 1,
              sources := c.sources[read.path :=
                DrainedSource(c.Source(read.path), read, c.nextSequence, ChunkSha(events))]))
  {
  }

  /** The same for a terminal chunk. */
  lemma TerminalAgreesWithReplay(c: CheckpointSet, identity: string, path: Path, observation: ObservationId, events: seq<Event>)
    requires observation !in c.terminals
    ensures var m := TerminalManifest(identity, path, observation, c.nextSequence, events);
            AdvanceFor(c, m) == Advanced(c.(nextSequence := c.nextSequence + 1,
              terminals := c.terminals[observation := TerminalCheckpoint(c.nextSequence, ChunkSha(events))]))
  {
  }

  /** A chunk written from a checkpoint that never reached the disk is refused
      on restart, whatever else is in it: its start does not match. */
  lemma StaleStartIsRefused(disk: CheckpointSet, memory: CheckpointSet, identity: string, read: SourceRead, events: seq<Event>)
    requires memory.nextSequence == disk.nextSequence
    requires read.path in disk.sources && disk.sources[read.path].path == read.path != ""
    requires read.start == memory.Source(read.path).offset != disk.sources[read.path].offset
    ensures AdvanceFor(disk, HistoryManifest(identity, memory.Source(read.path), read, memory.nextSequence, events)).Refused?
  {
  }
}

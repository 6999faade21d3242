/** What the collector promises over every run, with crashes anywhere. */
module CollectorTheorems {
  import opened SourceText
  import opened Telemetry
  import opened Spool
  import opened Wrappers
  import opened CollectorProtocol
  import opened CollectorSafety

  lemma StepKeepsInv(cfg: Config, s: State, a: Action)
    requires Inv(cfg, s) && Enabled(cfg, s, a)
    ensures Inv(cfg, Apply(cfg, s, a))
  {
    hide Inv, Enabled, Apply;
    match a
    case Restart => WatchingKeepsInv(cfg, s, a);
    case Evolve(_) => WatchingKeepsInv(cfg, s, a);
    case ListFiles => WatchingKeepsInv(cfg, s, a);
    case ReadFile(_) => WatchingKeepsInv(cfg, s, a);
    case ReadStatus => WatchingKeepsInv(cfg, s, a);
    case PersistBaseline => BaselineKeepsInv(cfg, s);
    case PublishReady => ReadyKeepsInv(cfg, s);
    case Rebind(path, fileId) => RebindKeepsInv(cfg, s, path, fileId);
    case SkipSilent(read, trailing) => SkipKeepsInv(cfg, s, read, trailing);
    case WriteHistory(read, trailing, events) => WriteHistoryKeepsInv(cfg, s, read, trailing, events);
    case WriteTerminal(observation, status) => WriteTerminalKeepsInv(cfg, s, observation, status);
    case Submit(name, taken) => SubmitKeepsInv(cfg, s, name, taken);
    case Acknowledge(name) => AcknowledgeKeepsInv(cfg, s, name);
    case RemovePending(name) => RemoveKeepsInv(cfg, s, name);
    case SeeCompletion => FinishKeepsInv(cfg, s, a);
    case BeginFinalDrain => FinishKeepsInv(cfg, s, a);
    case ReachEnd(_) => FinishKeepsInv(cfg, s, a);
    case PublishDone => FinishKeepsInv(cfg, s, a);
  }

  /** The state a run of actions leads to, if each was enabled in its turn. */
  function After(cfg: Config, actions: seq<Action>): Option<State> {
    if actions == [] then Some(START)
    else
      var before, a := After(cfg, actions[..|actions|-1]), actions[|actions|-1];
      if before.Some? && Enabled(cfg, before.value, a) then Some(Apply(cfg, before.value, a)) else None
  }

  lemma StartSatisfiesInv(cfg: Config)
    requires cfg.identity != ""
    ensures Inv(cfg, START)
  {
    forall p
      ensures Stream(cfg.decode, p, TailOf(START.past.tails, p)) == Some(LogEvents(START.past.log, p))
    {
    }
  }

  /** Every state a run can reach satisfies the invariant. */
  lemma {:induction false} ReachableStatesAreSafe(cfg: Config, actions: seq<Action>)
    requires cfg.identity != "" && After(cfg, actions).Some?
    ensures Inv(cfg, After(cfg, actions).value)
  {
    hide Inv, Enabled, Apply;
    if actions == [] {
      StartSatisfiesInv(cfg);
    } else {
      ReachableStatesAreSafe(cfg, actions[..|actions|-1]);
      StepKeepsInv(cfg, After(cfg, actions[..|actions|-1]).value, actions[|actions|-1]);
    }
  }

  // ------------------------------------------------------------ exactly once

  /** The measurements of one source that the sink holds, in ingestion order. */
  function SinkEvents(accepted: seq<ChunkDigest>, path: Path): seq<Event> {
    if accepted == [] then []
    else
      var last := accepted[|accepted|-1];
      SinkEvents(accepted[..|accepted|-1], path) +
      if last.ChunkSha? then Measurements(last.payload, path) else []
  }

  ghost predicate AllSound(cfg: Config, ms: seq<ChunkManifest>) {
    forall i | 0 <= i < |ms| :: Sound(cfg, ms[i])
  }

  lemma {:induction false} TerminalHasNoMeasurements(cfg: Config, m: ChunkManifest, path: Path)
    requires Sound(cfg, m) && m.body.kind.Terminal?
    ensures Measurements(m.body.ndjson, path) == []
  {
    var es := m.body.ndjson;
    assert es[..|es|-1] == [];
  }

  /** In a log whose chunks advance, a history chunk's tag is a new one. */
  lemma HistoryTagIsNew(cfg: Config, ms: seq<ChunkManifest>)
    requires ms != [] && AllSound(cfg, ms) && LinesAdvance(ms)
    requires ms[|ms|-1].body.kind.History?
    ensures ms[|ms|-1].body.chunkDigest !in Accepts(ms[..|ms|-1])
  {
    var front, b := ms[..|ms|-1], ms[|ms|-1].body;
    AcceptsComeFromLog(front, b.chunkDigest);
    assert Sound(cfg, ms[|ms|-1]) && b.ndjson[0].line > b.startLines;
    forall i | 0 <= i < |front|
      ensures front[i].body.chunkDigest != b.chunkDigest
    {
      assert front[i] == ms[i] && Sound(cfg, ms[i]);
    }
  }

  /** An idempotent sink that is given a log's chunks holds, for every source,
      exactly the log's events, once and in order. */
  lemma {:induction false} SinkHoldsLogEvents(cfg: Config, ms: seq<ChunkManifest>, path: Path)
    requires AllSound(cfg, ms) && LinesAdvance(ms)
    ensures SinkEvents(Accepts(ms), path) == LogEvents(ms, path)
  {
    if ms != [] {
      var front, m := ms[..|ms|-1], ms[|ms|-1];
      assert AllSound(cfg, front) && LinesAdvance(front) by {
        assert forall i | 0 <= i < |front| :: front[i] == ms[i] && Sound(cfg, ms[i]);
      }
      SinkHoldsLogEvents(cfg, front, path);
      assert Sound(cfg, m);
      if m.body.chunkDigest in Accepts(front) {
        if m.body.kind.History? {
          HistoryTagIsNew(cfg, ms);
        }
        TerminalHasNoMeasurements(cfg, m, path);
      } else {
        var tags := Accepts(front);
        assert (tags + [m.body.chunkDigest])[..|tags|] == tags;
      }
    }
  }

  /** Exactly once: whatever crashes happened, the sink's measurements of every
      source are exactly the projection of the text consumed from it so far,
      each record once and in order; at most the one chunk that is still
      pending has been accepted beyond that. */
  lemma ExactlyOnce(cfg: Config, s: State, path: Path)
    requires Inv(cfg, s)
    ensures var sunk, tail := SinkEvents(s.sink.accepted, path), TailOf(s.past.tails, path);
            || Some(sunk) == Stream(cfg.decode, path, tail)
            || (&& s.past.inFlight.Some? && s.past.inFlight.value.body.sourcePath == path
                && Some(sunk) == Stream(cfg.decode, path, Grow(tail, SliceOf(s.past.inFlight.value.body))))
  {
    hide SourcesDescribeTails, TerminalsMatchLog, SubmissionsAreChunks, DoneIsJustified, BasesAreWhole,
      Acknowledged, Records, Project, AdvanceFor, LinesAdvance, ValidCheckpoints, Sound, ValidManifest;
    var log := s.past.log;
    assert AllSound(cfg, log);
    assert Stream(cfg.decode, path, TailOf(s.past.tails, path)) == Some(LogEvents(log, path));
    if s.sink.accepted == Accepts(log) {
      SinkHoldsLogEvents(cfg, log, path);
    } else {
      var m, c := s.past.inFlight.value, Loaded(cfg, s.disk);
      assert FollowsCheckpoint(cfg, c, m, s.past.tails);
      LogAfterAcknowledge(cfg, c, m, s.past);
      SinkHoldsLogEvents(cfg, log + [m], path);
      if m.body.kind.History? && m.body.sourcePath == path {
        ProjectionAfterAcknowledge(cfg, c, m, s.past);
        assert LogIsProjection(cfg.decode, log + [m], Grown(s.past.tails, path, SliceOf(m.body)));
      } else {
        InFlightAddsNothing(cfg, c, m, s.past, path);
      }
    }
  }

  lemma InFlightAddsNothing(cfg: Config, c: CheckpointSet, m: ChunkManifest, past: Past, path: Path)
    requires FollowsCheckpoint(cfg, c, m, past.tails)
    requires !(m.body.kind.History? && m.body.sourcePath == path)
    ensures LogEvents(past.log + [m], path) == LogEvents(past.log, path)
  {
    hide Records, Project, AdvanceFor, Consumed, LinesRead;
    LogEventsSnoc(past.log, m, path);
    if m.body.kind.History? {
      MeasurementsOnLines(m.body.ndjson, m.body.sourcePath, m.body.startLines + 1, m.body.endLines + 1, path);
    } else {
      TerminalHasNoMeasurements(cfg, m, path);
    }
  }

  lemma BaseIsWhole(cfg: Config, s: State, path: Path)
    requires Inv(cfg, s)
    ensures AtBoundary(TailOf(s.past.tails, path).base)
  {
    hide SourcesDescribeTails, LogIsProjection, LogIsSound, LinesAdvance, TerminalsMatchLog, PendingIsNextOrLast,
      SinkHoldsLog, SubmissionsAreChunks, DoneIsJustified, ValidCheckpoints;
  }

  /** Nothing acknowledged is missing from the sink, nothing is in it twice, and
      acknowledged sequence numbers are 1, 2, 3 and so on without a gap. */
  lemma AcknowledgedMeansAccepted(cfg: Config, s: State, i: nat)
    requires Inv(cfg, s) && i < |s.past.log|
    ensures s.past.log[i].body.sequence == i + 1
    ensures multiset(s.sink.accepted)[s.past.log[i].body.chunkDigest] == 1
  {
    hide SourcesDescribeTails, LogIsProjection, TerminalsMatchLog, SubmissionsAreChunks, DoneIsJustified,
      BasesAreWhole, PendingIsNextOrLast, LinesAdvance, ValidCheckpoints;
    var log, tag := s.past.log, s.past.log[i].body.chunkDigest;
    AcceptsComeFromLog(log, tag);
    AcceptsOnce(log, tag);
    if s.sink.accepted != Accepts(log) {
      AcceptsSnoc(log, s.past.inFlight.value);
      AcceptsOnce(log + [s.past.inFlight.value], tag);
    }
  }

  lemma {:induction false} AcceptsOnce(ms: seq<ChunkManifest>, tag: ChunkDigest)
    ensures multiset(Accepts(ms))[tag] == if tag in Accepts(ms) then 1 else 0
  {
    if ms != [] {
      AcceptsOnce(ms[..|ms|-1], tag);
    }
  }

  // ---------------------------------------------------------------- recovery

  /** Every state a crash can leave is accepted on restart: the checkpoint file
      loads, the spool holds at most one chunk, it is valid, and it is either
      the next one, which the checkpoint can be advanced for, or the one before,
      which the checkpoint already acknowledges. */
  lemma RestartAcceptsEveryState(cfg: Config, s: State)
    requires Inv(cfg, s)
    ensures s.disk.checkpoint.Some? ==> ValidCheckpoints(s.disk.checkpoint.value, cfg.identity)
    ensures |s.disk.pending| <= 1
    ensures forall name | name in s.disk.pending ::
              var c, m := Loaded(cfg, s.disk), s.disk.pending[name];
              && ValidManifest(name, m, cfg.identity)
              && if m.body.sequence == c.nextSequence then AdvanceFor(c, m).Advanced?
                 else m.body.sequence == c.nextSequence - 1 && Acknowledged(c, m)
  {
    hide SourcesDescribeTails, LogIsProjection, TerminalsMatchLog, SubmissionsAreChunks, DoneIsJustified,
      BasesAreWhole, SinkHoldsLog, LinesAdvance, ValidCheckpoints, Project, Records, ValidManifest, AdvanceFor, Acknowledged;
    if s.past.inFlight.Some? {
      assert FollowsCheckpoint(cfg, Loaded(cfg, s.disk), s.past.inFlight.value, s.past.tails);
    } else if s.disk.pending != map[] {
      assert Sound(cfg, s.past.log[|s.past.log|-1]);
    }
  }

  lemma LoadedIsValid(cfg: Config, s: State)
    requires Inv(cfg, s)
    ensures ValidCheckpoints(Loaded(cfg, s.disk), cfg.identity)
  {
    hide SourcesDescribeTails, LogIsProjection, LogIsSound, LinesAdvance, TerminalsMatchLog, PendingIsNextOrLast,
      SinkHoldsLog, SubmissionsAreChunks, DoneIsJustified, BasesAreWhole, ValidCheckpoints;
  }

  /** Two submissions with one sequence number carry the same bytes. */
  lemma RedeliveryCarriesSameBytes(cfg: Config, s: State, i: nat, j: nat)
    requires Inv(cfg, s) && i < |s.sink.submissions| && j < |s.sink.submissions|
    requires s.sink.submissions[i].sequence == s.sink.submissions[j].sequence
    ensures s.sink.submissions[i].tag == s.sink.submissions[j].tag
  {
    hide SourcesDescribeTails, LogIsProjection, LogIsSound, TerminalsMatchLog, DoneIsJustified,
      BasesAreWhole, SinkHoldsLog, LinesAdvance, ValidCheckpoints, PendingIsNextOrLast;
  }

  // --------------------------------------------------------------- terminals

  /** The chunks written so far: the acknowledged ones and the one in flight. */
  function Chunks(past: Past): seq<ChunkManifest> {
    past.log + if past.inFlight.Some? then [past.inFlight.value] else []
  }

  /** Each terminal observation is recorded by at most one chunk, the one in flight
      included, over all restarts and cancellations; once acknowledged, the sink
      holds it. */
  lemma TerminalsAreRecordedOnce(cfg: Config, s: State, id: ObservationId, i: nat, j: nat)
    requires Inv(cfg, s) && i < |Chunks(s.past)| && j < |Chunks(s.past)|
    requires Concludes(Chunks(s.past)[i], id)
    ensures Concludes(Chunks(s.past)[j], id) ==> i == j
    ensures i < |s.past.log| ==> Chunks(s.past)[i].body.chunkDigest in s.sink.accepted
  {
    hide Inv, Concludes;
    TerminalsMatch(cfg, s);
    var c, log := Loaded(cfg, s.disk), s.past.log;
    if i < |log| {
      AcknowledgedMeansAccepted(cfg, s, i);
    }
    if i < |log| && j < |log| {
      ConcludedOnce(c.terminals, log, id, i, j);
    } else if s.past.inFlight.Some? && Concludes(s.past.inFlight.value, id) {
      InFlightIsNew(cfg, s, id);
    }
  }

  /** The chunk in flight records nothing that an acknowledged chunk records. */
  lemma InFlightIsNew(cfg: Config, s: State, id: ObservationId)
    requires Inv(cfg, s) && s.past.inFlight.Some? && Concludes(s.past.inFlight.value, id)
    ensures forall k | 0 <= k < |s.past.log| :: !Concludes(s.past.log[k], id)
  {
    hide SourcesDescribeTails, LogIsProjection, LogIsSound, LinesAdvance, SinkHoldsLog, SubmissionsAreChunks, DoneIsJustified,
      BasesAreWhole, ValidCheckpoints, Sound;
    assert FollowsCheckpoint(cfg, Loaded(cfg, s.disk), s.past.inFlight.value, s.past.tails);
    forall k | 0 <= k < |s.past.log| ensures !Concludes(s.past.log[k], id) {
      assert Concludes(s.past.log[k], id) ==> id in Loaded(cfg, s.disk).terminals;
    }
  }

  /** The sink holds the record of an observation under this tag. */
  ghost predicate RecordedUnder(s: State, id: ObservationId, tag: ChunkDigest) {
    tag in s.sink.accepted
    && exists i :: 0 <= i < |Chunks(s.past)| && Concludes(Chunks(s.past)[i], id) && Chunks(s.past)[i].body.chunkDigest == tag
  }

  /** The sink holds at most one record of a terminal observation. */
  lemma AtMostOneTagRecords(cfg: Config, s: State, id: ObservationId, a: ChunkDigest, b: ChunkDigest)
    requires Inv(cfg, s) && RecordedUnder(s, id, a) && RecordedUnder(s, id, b)
    ensures a == b
  {
    hide Inv, Concludes, Chunks;
    var i :| 0 <= i < |Chunks(s.past)| && Concludes(Chunks(s.past)[i], id) && Chunks(s.past)[i].body.chunkDigest == a;
    var j :| 0 <= j < |Chunks(s.past)| && Concludes(Chunks(s.past)[j], id) && Chunks(s.past)[j].body.chunkDigest == b;
    TerminalsAreRecordedOnce(cfg, s, id, i, j);
  }

  lemma ConcludedOnce(terminals: map<ObservationId, TerminalCheckpoint>, log: seq<ChunkManifest>, id: ObservationId, i: nat, j: nat)
    requires TerminalsMatchLog(terminals, log) && i < |log| && j < |log|
    ensures Concludes(log[i], id) && Concludes(log[j], id) ==> i == j
  {
    hide Concludes;
    if Concludes(log[i], id) && Concludes(log[j], id) {
      assert terminals[id].sequence == i + 1;
    }
  }

  lemma TerminalsMatch(cfg: Config, s: State)
    requires Inv(cfg, s)
    ensures TerminalsMatchLog(Loaded(cfg, s.disk).terminals, s.past.log)
    ensures DoneIsJustified(Loaded(cfg, s.disk), s.disk, s.past)
  {
    hide SourcesDescribeTails, LogIsProjection, LogIsSound, DoneIsJustified, BasesAreWhole, SinkHoldsLog,
      LinesAdvance, ValidCheckpoints, PendingIsNextOrLast, SubmissionsAreChunks, TerminalsMatchLog;
  }

  predicate Neutral(tags: map<string, string>, key: string) {
    key in tags ==> tags[key] == ""
  }

  ghost predicate StatusesDiffer(cfg: Config) {
    forall a, b | a != b && TerminalEvent(cfg, a).Some? && TerminalEvent(cfg, b).Some? ::
      TerminalEvent(cfg, a) != TerminalEvent(cfg, b)
  }

  /** Different workload statuses that are accepted are different chunks to the sink
      exactly when the configured tags do not stand in for an empty reason or message,
      or are such that no status is accepted at all. */
  lemma StatusesHaveDistinctTags(cfg: Config)
    ensures StatusesDiffer(cfg) <==>
            || (exists key :: key in cfg.tags && IsProtected(key))
            || (Neutral(cfg.tags, STATUS_REASON_TAG) && Neutral(cfg.tags, STATUS_MESSAGE_TAG))
  {
    hide IsProtected;
    if forall key | key in cfg.tags :: !IsProtected(key) {
      if !Neutral(cfg.tags, STATUS_REASON_TAG) {
        var a, b := Completion(Failed, "", "", 1), Completion(Failed, cfg.tags[STATUS_REASON_TAG], "", 1);
        assert a != b && TerminalEvent(cfg, a) == TerminalEvent(cfg, b);
      } else if !Neutral(cfg.tags, STATUS_MESSAGE_TAG) {
        var a, b := Completion(Failed, "", "", 1), Completion(Failed, "", cfg.tags[STATUS_MESSAGE_TAG], 1);
        assert a != b && TerminalEvent(cfg, a) == TerminalEvent(cfg, b);
      }
    }
  }

  // ------------------------------------------------------- done and baselines

  /** The done file means that the texts of a final drain were consumed, and that the
      log holds the record of the workload's own status, which the sink has accepted.
      `CollectorRuns` ties texts and status to what the files held. */
  lemma DoneMeansEverythingDelivered(cfg: Config, s: State)
    requires Inv(cfg, s) && s.disk.done
    ensures s.past.conclusion.Some?
    ensures var end := s.past.conclusion.value;
            && (forall p | p in end.reached :: WasConsumed(TailOf(s.past.tails, p), end.reached[p]))
            && (exists i :: 0 <= i < |s.past.log| && Concludes(s.past.log[i], StatusSha(end.status))
                            && s.past.log[i].body.ndjson == TerminalPayload(cfg, end.status)
                            && s.past.log[i].body.chunkDigest in s.sink.accepted)
  {
    hide Inv;
    TerminalsMatch(cfg, s);
    var c, end := Loaded(cfg, s.disk), s.past.conclusion.value;
    var i := c.terminals[StatusSha(end.status)].sequence - 1;
    AcknowledgedMeansAccepted(cfg, s, i);
    assert Concludes(s.past.log[i], StatusSha(end.status));
    LogEntryIsSound(cfg, s, i);
  }

  /** Only a status whose terminal event is accepted is ever recorded or concluded. */
  lemma RecordedMeansAccepted(cfg: Config, s: State, status: Completion)
    requires Inv(cfg, s)
    ensures StatusSha(status) in Loaded(cfg, s.disk).terminals ==> TerminalEvent(cfg, status).Some?
    ensures s.past.conclusion.Some? ==> TerminalEvent(cfg, s.past.conclusion.value.status).Some?
  {
    hide Inv, Acceptable;
    TerminalsMatch(cfg, s);
    var c := Loaded(cfg, s.disk);
    if StatusSha(status) in c.terminals {
      LogEntryIsSound(cfg, s, c.terminals[StatusSha(status)].sequence - 1);
    }
    if s.past.conclusion.Some? {
      LogEntryIsSound(cfg, s, c.terminals[StatusSha(s.past.conclusion.value.status)].sequence - 1);
    }
  }

  lemma LogEntryIsSound(cfg: Config, s: State, i: nat)
    requires Inv(cfg, s) && i < |s.past.log|
    ensures Sound(cfg, s.past.log[i])
  {
    hide SourcesDescribeTails, LogIsProjection, BasesAreWhole, SinkHoldsLog, DoneIsJustified, TerminalsMatchLog,
      LinesAdvance, ValidCheckpoints, PendingIsNextOrLast, SubmissionsAreChunks;
  }

  /** The past only grows: what was skipped by the baseline stays skipped, what
      was consumed, acknowledged or accepted stays so, and no source is given a
      baseline once there is a checkpoint. */
  ghost predicate OnlyGrows(s: State, t: State) {
    && s.past.log <= t.past.log && s.sink.accepted <= t.sink.accepted
    && (s.disk.checkpoint.Some? ==> t.disk.checkpoint.Some?)
    && (s.disk.ready ==> t.disk.ready) && (s.disk.done ==> t.disk.done)
    && (forall p | p in s.past.tails ::
          p in t.past.tails && t.past.tails[p].base == s.past.tails[p].base
          && s.past.tails[p].slices <= t.past.tails[p].slices)
    && (s.disk.checkpoint.Some? ==>
          forall p | p in t.past.tails && p !in s.past.tails :: t.past.tails[p].base == [])
  }

  lemma StepOnlyGrows(cfg: Config, s: State, a: Action)
    requires Inv(cfg, s) && Enabled(cfg, s, a)
    ensures OnlyGrows(s, Apply(cfg, s, a))
  {
    hide Inv, Project, Records, Continues, AdvanceFor, AtEnd, SliceOf, HistoryManifest, TerminalManifest, DrainedSource;
    if s.disk.checkpoint.None? {
      NoCheckpointNoTails(cfg, s);
    }
  }

  lemma NoCheckpointNoTails(cfg: Config, s: State)
    requires Inv(cfg, s) && s.disk.checkpoint.None?
    ensures s.past.tails == map[]
  {
    hide LogIsProjection, LogIsSound, BasesAreWhole, SinkHoldsLog, LinesAdvance, PendingIsNextOrLast,
      SubmissionsAreChunks, TerminalsMatchLog, DoneIsJustified;
  }

  lemma GrowthIsTransitive(s: State, t: State, u: State)
    requires OnlyGrows(s, t) && OnlyGrows(t, u)
    ensures OnlyGrows(s, u)
  {
    forall p | p in s.past.tails
      ensures p in u.past.tails && u.past.tails[p].base == s.past.tails[p].base
      ensures s.past.tails[p].slices <= u.past.tails[p].slices
    {
      assert p in t.past.tails;
    }
  }

  /** In baseline mode, once the ready file is out, every later byte of every
      source is consumed rather than skipped, whatever restarts follow. */
  lemma {:induction false} NothingIsSkippedAfterReady(cfg: Config, actions: seq<Action>, k: nat)
    requires cfg.identity != "" && cfg.baseline && After(cfg, actions).Some? && k <= |actions|
    requires After(cfg, actions[..k]).Some? && After(cfg, actions[..k]).value.disk.ready
    ensures var s, t := After(cfg, actions[..k]).value, After(cfg, actions).value;
            && OnlyGrows(s, t)
            && forall p | p in t.past.tails ::
                 t.past.tails[p].base == if p in s.past.tails then s.past.tails[p].base else []
  {
    hide Inv, Enabled, Apply;
    var s := After(cfg, actions[..k]).value;
    ReachableStatesAreSafe(cfg, actions[..k]);
    ReadyMeansCheckpoint(cfg, s);
    if k < |actions| {
      var front := actions[..|actions|-1];
      assert front[..k] == actions[..k];
      NothingIsSkippedAfterReady(cfg, front, k);
      ReachableStatesAreSafe(cfg, front);
      StepOnlyGrows(cfg, After(cfg, front).value, actions[|actions|-1]);
      GrowthIsTransitive(s, After(cfg, front).value, After(cfg, actions).value);
    } else {
      assert actions[..k] == actions;
    }
  }

  lemma ReadyMeansCheckpoint(cfg: Config, s: State)
    requires Inv(cfg, s) && cfg.baseline && s.disk.ready
    ensures s.disk.checkpoint.Some?
  {
    hide SourcesDescribeTails, LogIsProjection, LogIsSound, LinesAdvance, TerminalsMatchLog, PendingIsNextOrLast,
      SinkHoldsLog, SubmissionsAreChunks, DoneIsJustified, ValidCheckpoints;
  }
}

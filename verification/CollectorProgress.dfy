/** The protocol never wedges: from every reachable state the pending chunk can be
    finished, and a workload that has ended can be concluded. */
module CollectorProgress {
  import opened SourceText
  import opened Telemetry
  import opened Spool
  import opened Wrappers
  import opened CollectorProtocol
  import opened CollectorSafety
  import opened CollectorTheorems

  /** The state that further actions lead to, if each is enabled in its turn. */
  function Onward(cfg: Config, s: State, actions: seq<Action>): Option<State>
    decreases |actions|
  {
    if actions == [] then Some(s)
    else if Enabled(cfg, s, actions[0]) then Onward(cfg, Apply(cfg, s, actions[0]), actions[1..])
    else None
  }

  lemma OnwardOne(cfg: Config, s: State, a: Action, rest: seq<Action>)
    requires Enabled(cfg, s, a)
    ensures Onward(cfg, s, [a] + rest) == Onward(cfg, Apply(cfg, s, a), rest)
    ensures Onward(cfg, s, []) == Some(s)
  {
    hide Enabled, Apply;
    assert ([a] + rest)[1..] == rest;
  }

  /** Going onward from a reachable state is reaching another one. */
  lemma {:induction false} OnwardIsReachable(cfg: Config, done: seq<Action>, actions: seq<Action>)
    requires After(cfg, done).Some? && Onward(cfg, After(cfg, done).value, actions).Some?
    ensures After(cfg, done + actions) == Onward(cfg, After(cfg, done).value, actions)
    decreases |actions|
  {
    hide Enabled, Apply;
    if actions == [] {
      assert done + actions == done;
    } else {
      assert (done + [actions[0]])[..|done|] == done;
      OnwardIsReachable(cfg, done + [actions[0]], actions[1..]);
      assert done + [actions[0]] + actions[1..] == done + actions;
    }
  }

  /** Only the collector acts; the workload's files stay as they are. */
  predicate OwnSteps(actions: seq<Action>) {
    forall a | a in actions :: !a.Evolve?
  }

  lemma {:induction false} OwnStepsKeepWorld(cfg: Config, s: State, actions: seq<Action>)
    requires OwnSteps(actions) && Onward(cfg, s, actions).Some?
    ensures Onward(cfg, s, actions).value.world == s.world
    decreases |actions|
  {
    hide Enabled;
    if actions != [] {
      StepKeepsWorld(cfg, s, actions[0]);
      hide Apply;
      OwnStepsKeepWorld(cfg, Apply(cfg, s, actions[0]), actions[1..]);
    }
  }

  lemma StepKeepsWorld(cfg: Config, s: State, a: Action)
    requires Enabled(cfg, s, a) && !a.Evolve?
    ensures Apply(cfg, s, a).world == s.world
  {
    hide AdvanceFor, HistoryManifest, TerminalManifest, DrainedSource, Listed, BaselineCheckpoints;
  }

  lemma {:induction false} OnwardKeepsInv(cfg: Config, s: State, actions: seq<Action>)
    requires Inv(cfg, s) && Onward(cfg, s, actions).Some?
    ensures Inv(cfg, Onward(cfg, s, actions).value)
    decreases |actions|
  {
    hide Inv, Enabled, Apply;
    if actions != [] {
      StepKeepsInv(cfg, s, actions[0]);
      OnwardKeepsInv(cfg, Apply(cfg, s, actions[0]), actions[1..]);
    }
  }

  lemma SubmitAccepts(cfg: Config, s: State, name: PendingName)
    requires name in s.disk.pending && name.sequence == Loaded(cfg, s.disk).nextSequence
    ensures Enabled(cfg, s, Submit(name, true))
    ensures var t := Apply(cfg, s, Submit(name, true));
            t.disk == s.disk && t.world == s.world && t.past == s.past && name.digest in t.sink.accepted
  {
  }

  lemma AcknowledgeWorks(cfg: Config, s: State, name: PendingName)
    requires name in s.disk.pending && name.sequence == Loaded(cfg, s.disk).nextSequence
    requires AdvanceFor(Loaded(cfg, s.disk), s.disk.pending[name]).Advanced? && name.digest in s.sink.accepted
    ensures Enabled(cfg, s, Acknowledge(name))
    ensures var t := Apply(cfg, s, Acknowledge(name));
            && t.disk.pending == s.disk.pending && t.past.log == s.past.log + [s.disk.pending[name]]
            && Loaded(cfg, t.disk).nextSequence > name.sequence && t.sink == s.sink && t.world == s.world
            && t.past.sight == s.past.sight && t.disk.checkpoint.Some?
            && Loaded(cfg, t.disk) == AdvanceFor(Loaded(cfg, s.disk), s.disk.pending[name]).next
  {
    assert Enabled(cfg, s, Acknowledge(name));
    AcknowledgeShape(cfg, s, name);
    AdvanceCounts(Loaded(cfg, s.disk), s.disk.pending[name]);
    hide AdvanceFor, Enabled, Apply;
  }

  /** Submitting, acknowledging and removing the next chunk. */
  lemma NextChunkCompletes(cfg: Config, s: State, m: ChunkManifest) returns (actions: seq<Action>)
    requires s.disk.pending == map[NameOf(m) := m] && m.body.sequence == Loaded(cfg, s.disk).nextSequence
    requires AdvanceFor(Loaded(cfg, s.disk), m).Advanced?
    ensures Onward(cfg, s, actions).Some? && OwnSteps(actions)
    ensures var t := Onward(cfg, s, actions).value;
            && t.disk.pending == map[] && t.past.log == s.past.log + [m] && t.past.sight == s.past.sight
            && Loaded(cfg, t.disk) == AdvanceFor(Loaded(cfg, s.disk), m).next
            && m.body.chunkDigest in t.sink.accepted
  {
    hide AdvanceFor, Enabled, Apply;
    var name := NameOf(m);
    SubmitAccepts(cfg, s, name);
    var t := Apply(cfg, s, Submit(name, true));
    AcknowledgeWorks(cfg, t, name);
    var u := Apply(cfg, t, Acknowledge(name));
    RemoveShape(cfg, u, name);
    OnwardOne(cfg, s, Submit(name, true), [Acknowledge(name)] + [RemovePending(name)]);
    OnwardOne(cfg, t, Acknowledge(name), [RemovePending(name)]);
    OnwardOne(cfg, u, RemovePending(name), []);
    assert [RemovePending(name)] + [] == [RemovePending(name)];
    actions := [Submit(name, true)] + ([Acknowledge(name)] + [RemovePending(name)]);
  }

  /** Recovery can always finish: from every reachable state some steps empty the
      spool, and the chunk that was pending ends up acknowledged. */
  lemma RecoveryCanComplete(cfg: Config, s: State) returns (actions: seq<Action>)
    requires Inv(cfg, s)
    ensures Onward(cfg, s, actions).Some? && OwnSteps(actions) && Onward(cfg, s, actions).value.disk.pending == map[]
    ensures Onward(cfg, s, actions).value.past.log
         == s.past.log + if s.past.inFlight.Some? then [s.past.inFlight.value] else []
  {
    hide SourcesDescribeTails, LogIsProjection, TerminalsMatchLog, SubmissionsAreChunks, DoneIsJustified,
      BasesAreWhole, SinkHoldsLog, LinesAdvance, ValidCheckpoints, LogIsSound, AdvanceFor, Enabled, Apply, Acknowledged, Sound;
    if s.past.inFlight.Some? {
      assert FollowsCheckpoint(cfg, Loaded(cfg, s.disk), s.past.inFlight.value, s.past.tails);
      actions := NextChunkCompletes(cfg, s, s.past.inFlight.value);
    } else if s.disk.pending == map[] {
      actions := [];
    } else {
      LastIsBehind(cfg, s);
      var name := NameOf(s.past.log[|s.past.log| - 1]);
      RemoveShape(cfg, s, name);
      OnwardOne(cfg, s, RemovePending(name), []);
      actions := [RemovePending(name)] + [];
    }
  }

  lemma LastIsBehind(cfg: Config, s: State)
    requires Inv(cfg, s) && s.past.inFlight.None? && s.disk.pending != map[]
    ensures s.past.log != [] && s.past.log[|s.past.log| - 1].body.sequence < Loaded(cfg, s.disk).nextSequence
    ensures var m := s.past.log[|s.past.log| - 1]; s.disk.pending == map[NameOf(m) := m]
  {
    hide SourcesDescribeTails, LogIsProjection, TerminalsMatchLog, SubmissionsAreChunks, DoneIsJustified,
      BasesAreWhole, SinkHoldsLog, LinesAdvance, ValidCheckpoints, Acknowledged, Sound;
  }

  lemma MayWriteTerminal(cfg: Config, s: State, status: Completion)
    requires s.disk.pending == map[] && StatusSha(status) !in Loaded(cfg, s.disk).terminals
    requires s.past.sight.outcome == Some(status) && TerminalEvent(cfg, status).Some?
    ensures Enabled(cfg, s, WriteTerminal(StatusSha(status), status))
    ensures var t := Apply(cfg, s, WriteTerminal(StatusSha(status), status));
            var c := Loaded(cfg, s.disk);
            var m := TerminalManifest(cfg.identity, TerminalSource(cfg), StatusSha(status), c.nextSequence, TerminalPayload(cfg, status));
            && t.disk == s.disk.(pending := map[NameOf(m) := m]) && t.past == s.past.(inFlight := Some(m))
  {
  }

  /** A status that was read and is accepted can be recorded from every state with an
      empty spool. */
  lemma StatusCanBeRecorded(cfg: Config, s: State, status: Completion) returns (actions: seq<Action>)
    requires s.disk.pending == map[] && s.past.sight.outcome == Some(status) && TerminalEvent(cfg, status).Some?
    ensures Onward(cfg, s, actions).Some? && OwnSteps(actions)
    ensures var t := Onward(cfg, s, actions).value;
            t.disk.pending == map[] && StatusSha(status) in Loaded(cfg, t.disk).terminals && t.past.sight == s.past.sight
  {
    var c := Loaded(cfg, s.disk);
    if StatusSha(status) in c.terminals {
      return [];
    }
    var m := TerminalManifest(cfg.identity, TerminalSource(cfg), StatusSha(status), c.nextSequence, TerminalPayload(cfg, status));
    TerminalAgreesWithReplay(c, cfg.identity, TerminalSource(cfg), StatusSha(status), TerminalPayload(cfg, status));
    MayWriteTerminal(cfg, s, status);
    hide AdvanceFor, Enabled, Apply, TerminalEvent;
    var write := WriteTerminal(StatusSha(status), status);
    var rest := NextChunkCompletes(cfg, Apply(cfg, s, write), m);
    OnwardOne(cfg, s, write, rest);
    actions := [write] + rest;
  }

  /** The moment before a final drain reads its first file. */
  function AboutToDrain(cfg: Config, s: State): State {
    s.(past := s.past.(sight := Sight(s.past.sight.listings + 1, Some(Listed(cfg, s.world)), map[], true, None,
                                      Some(FinalDrain(Listed(cfg, s.world), map[])))))
  }

  lemma DrainMayBegin(cfg: Config, s: State)
    requires cfg.completionFile != "" && s.world.completion != Absent
    ensures Onward(cfg, s, [SeeCompletion, ListFiles, BeginFinalDrain]) == Some(AboutToDrain(cfg, s))
  {
    var t := Apply(cfg, s, SeeCompletion);
    var u := Apply(cfg, t, ListFiles);
    var v := Apply(cfg, u, BeginFinalDrain);
    assert Enabled(cfg, s, SeeCompletion) && Enabled(cfg, t, ListFiles) && Enabled(cfg, u, BeginFinalDrain);
    assert v == AboutToDrain(cfg, s);
    hide Enabled, Apply;
    OnwardOne(cfg, v, SeeCompletion, []);
  }

  lemma EndMayBeReached(cfg: Config, s: State, path: Path)
    requires Real(s.world.files) && path in s.world.files && AtEnd(Loaded(cfg, s.disk).Source(path), s.world.files[path].text)
    requires s.past.sight.listed.Some? && path in s.past.sight.listed.value
    requires s.past.sight.finalDrain.Some? && path in s.past.sight.finalDrain.value.files
    ensures Onward(cfg, s, [ReadFile(path), ReachEnd(path)]).Some?
    ensures var f, t := s.past.sight.finalDrain.value, Onward(cfg, s, [ReadFile(path), ReachEnd(path)]).value;
            && t.disk == s.disk && t.world == s.world
            && t.past.sight.(held := s.past.sight.held) ==
               s.past.sight.(finalDrain := Some(f.(reached := f.reached[path := s.world.files[path].text])))
  {
    MayRead(cfg, s, path);
    var t := Apply(cfg, s, ReadFile(path));
    MayReachEnd(cfg, t, path);
    hide AtEnd, Enabled, Apply, Onward;
    OnwardTwo(cfg, s, ReadFile(path), ReachEnd(path));
  }

  lemma MayRead(cfg: Config, s: State, path: Path)
    requires Real(s.world.files) && path in s.world.files && s.past.sight.listed.Some? && path in s.past.sight.listed.value
    ensures Enabled(cfg, s, ReadFile(path))
    ensures Apply(cfg, s, ReadFile(path)) ==
            s.(past := s.past.(sight := s.past.sight.(held := s.past.sight.held[path := s.world.files[path]])))
  {
  }

  lemma MayReachEnd(cfg: Config, s: State, path: Path)
    requires s.past.sight.finalDrain.Some? && path in s.past.sight.finalDrain.value.files && path in s.past.sight.held
    requires AtEnd(Loaded(cfg, s.disk).Source(path), s.past.sight.held[path].text)
    ensures Enabled(cfg, s, ReachEnd(path))
    ensures var f := s.past.sight.finalDrain.value;
            Apply(cfg, s, ReachEnd(path)) == s.(past := s.past.(sight := s.past.sight.(finalDrain :=
              Some(f.(reached := f.reached[path := s.past.sight.held[path].text])))))
  {
  }

  lemma OnwardTwo(cfg: Config, s: State, a: Action, b: Action)
    requires Enabled(cfg, s, a) && Enabled(cfg, Apply(cfg, s, a), b)
    ensures Onward(cfg, s, [a, b]) == Some(Apply(cfg, Apply(cfg, s, a), b))
  {
    hide Enabled, Apply;
    OnwardOne(cfg, s, a, [b]);
    OnwardOne(cfg, Apply(cfg, s, a), b, []);
    assert [a] + [b] == [a, b] && [b] + [] == [b];
  }

  /** Every listed source that is consumed to the end of its file can be noted. */
  lemma {:induction false} EndsCanBeReached(cfg: Config, s: State, todo: set<Path>) returns (actions: seq<Action>)
    requires Real(s.world.files) && todo <= Listed(cfg, s.world)
    requires s.past.sight.listed == Some(Listed(cfg, s.world))
    requires s.past.sight.finalDrain.Some? && s.past.sight.finalDrain.value.files == Listed(cfg, s.world)
    requires s.past.sight.finalDrain.value.reached.Keys == Listed(cfg, s.world) - todo
    requires forall p | p in Listed(cfg, s.world) :: AtEnd(Loaded(cfg, s.disk).Source(p), s.world.files[p].text)
    ensures Onward(cfg, s, actions).Some? && OwnSteps(actions)
    ensures var t := Onward(cfg, s, actions).value;
            && t.disk == s.disk && t.world == s.world && t.past.sight.completionSeen == s.past.sight.completionSeen
            && t.past.sight.finalDrain.Some? && t.past.sight.finalDrain.value.files == Listed(cfg, s.world)
            && t.past.sight.finalDrain.value.reached.Keys == Listed(cfg, s.world)
    decreases |todo|
  {
    ListedExist(cfg, s.world);
    hide Enabled, Apply, AtEnd, Loaded, Listed, Real;
    if todo == {} {
      return [];
    }
    var p :| p in todo;
    EndMayBeReached(cfg, s, p);
    var step := [ReadFile(p), ReachEnd(p)];
    var t := Onward(cfg, s, step).value;
    var rest := EndsCanBeReached(cfg, t, todo - {p});
    OnwardJoins(cfg, s, step, rest);
    actions := step + rest;
  }

  lemma ListedExist(cfg: Config, w: World)
    ensures Listed(cfg, w) <= w.files.Keys
  {
  }

  lemma MayReadStatus(cfg: Config, s: State, status: Completion)
    requires s.past.sight.completionSeen && s.world.completion == Present(status)
    ensures Enabled(cfg, s, ReadStatus)
    ensures Apply(cfg, s, ReadStatus) == s.(past := s.past.(sight := s.past.sight.(outcome := Some(status))))
  {
  }

  lemma MayPublishDone(cfg: Config, s: State)
    requires s.past.sight.finalDrain.Some? && s.past.sight.finalDrain.value.reached.Keys == s.past.sight.finalDrain.value.files
    requires s.past.sight.outcome.Some? && StatusSha(s.past.sight.outcome.value) in Loaded(cfg, s.disk).terminals
    ensures Enabled(cfg, s, PublishDone)
    ensures var t := Apply(cfg, s, PublishDone);
            t.disk.done && t.past.conclusion.Some? && t.past.conclusion.value.status == s.past.sight.outcome.value
  {
  }

  /** These steps record the status. */
  ghost predicate LeadsToRecord(cfg: Config, s: State, actions: seq<Action>, status: Completion) {
    Onward(cfg, s, actions).Some? && StatusSha(status) in Loaded(cfg, Onward(cfg, s, actions).value.disk).terminals
  }

  /** These steps write the done file for the status. */
  ghost predicate LeadsToDone(cfg: Config, s: State, actions: seq<Action>, status: Completion) {
    && Onward(cfg, s, actions).Some?
    && var t := Onward(cfg, s, actions).value;
       t.disk.done && t.past.conclusion.Some? && t.past.conclusion.value.status == status
  }

  /** Once every listed file is consumed to its end and the spool is empty, the
      status the workload left can be recorded and the done file written, if its
      terminal event is accepted. */
  lemma WorkloadCanBeConcluded(cfg: Config, s: State, status: Completion) returns (actions: seq<Action>)
    requires s.disk.pending == map[] && cfg.completionFile != "" && s.world.completion == Present(status) && Real(s.world.files)
    requires forall p | p in Listed(cfg, s.world) :: AtEnd(Loaded(cfg, s.disk).Source(p), s.world.files[p].text)
    requires TerminalEvent(cfg, status).Some?
    ensures OwnSteps(actions) && LeadsToDone(cfg, s, actions, status)
  {
    DrainMayBegin(cfg, s);
    hide Enabled, Apply, AtEnd, Loaded, Listed, Real, Onward, TerminalEvent;
    var begin := [SeeCompletion, ListFiles, BeginFinalDrain];
    var t := AboutToDrain(cfg, s);
    var ends := EndsCanBeReached(cfg, t, Listed(cfg, s.world));
    var u := Onward(cfg, t, ends).value;
    MayReadStatus(cfg, u, status);
    var v := Apply(cfg, u, ReadStatus);
    var record := StatusCanBeRecorded(cfg, v, status);
    var w := Onward(cfg, v, record).value;
    MayPublishDone(cfg, w);
    OnwardOne(cfg, w, PublishDone, []);
    OnwardOne(cfg, Apply(cfg, w, PublishDone), PublishDone, []);
    OnwardJoins(cfg, v, record, [PublishDone] + []);
    OnwardOne(cfg, u, ReadStatus, record + ([PublishDone] + []));
    OnwardJoins(cfg, t, ends, [ReadStatus] + (record + ([PublishDone] + [])));
    OnwardJoins(cfg, s, begin, ends + ([ReadStatus] + (record + ([PublishDone] + []))));
    actions := begin + (ends + ([ReadStatus] + (record + ([PublishDone] + []))));
  }

  lemma {:induction false} OnwardJoins(cfg: Config, s: State, a: seq<Action>, b: seq<Action>)
    requires Onward(cfg, s, a).Some?
    ensures Onward(cfg, s, a + b) == Onward(cfg, Onward(cfg, s, a).value, b)
    decreases |a|
  {
    hide Enabled, Apply;
    if a == [] {
      assert a + b == b;
    } else {
      assert (a + b)[1..] == a[1..] + b;
      OnwardJoins(cfg, Apply(cfg, s, a[0]), a[1..], b);
    }
  }

  // ------------------------------------------------------------ refused statuses

  /** From every reachable state, the status in the completion file can be recorded if
      and only if its completion time is set and of a four-digit year and no configured
      tag is a protected one. */
  lemma StatusRecordedIff(cfg: Config, s: State, status: Completion)
    requires Inv(cfg, s) && cfg.completionFile != "" && s.world.completion == Present(status)
    ensures (exists actions :: OwnSteps(actions) && LeadsToRecord(cfg, s, actions, status))
       <==> ValidTime(status.completedAt) && forall key | key in cfg.tags :: !IsProtected(key)
  {
    hide Inv, Enabled, Apply, ValidTime, IsProtected, Onward;
    if TerminalEvent(cfg, status).Some? {
      var actions := StatusCanBeRead(cfg, s, status);
      assert OwnSteps(actions) && LeadsToRecord(cfg, s, actions, status);
    }
    if actions :| OwnSteps(actions) && LeadsToRecord(cfg, s, actions, status) {
      OnwardKeepsInv(cfg, s, actions);
      RecordedMeansAccepted(cfg, Onward(cfg, s, actions).value, status);
    }
  }

  /** Finish what is pending, look at the completion file, read it, record it. */
  lemma StatusCanBeRead(cfg: Config, s: State, status: Completion) returns (actions: seq<Action>)
    requires Inv(cfg, s) && cfg.completionFile != "" && s.world.completion == Present(status)
    requires TerminalEvent(cfg, status).Some?
    ensures OwnSteps(actions) && LeadsToRecord(cfg, s, actions, status)
  {
    hide Inv, Enabled, Apply, TerminalEvent, Onward;
    var recover := RecoveryCanComplete(cfg, s);
    OwnStepsKeepWorld(cfg, s, recover);
    var t := Onward(cfg, s, recover).value;
    MaySeeCompletion(cfg, t);
    var u := Apply(cfg, t, SeeCompletion);
    MayReadStatus(cfg, u, status);
    var v := Apply(cfg, u, ReadStatus);
    var record := StatusCanBeRecorded(cfg, v, status);
    OnwardOne(cfg, u, ReadStatus, record);
    OnwardOne(cfg, t, SeeCompletion, [ReadStatus] + record);
    OnwardJoins(cfg, s, recover, [SeeCompletion] + ([ReadStatus] + record));
    actions := recover + ([SeeCompletion] + ([ReadStatus] + record));
  }

  lemma MaySeeCompletion(cfg: Config, s: State)
    requires cfg.completionFile != "" && s.world.completion != Absent
    ensures Enabled(cfg, s, SeeCompletion)
    ensures var t := Apply(cfg, s, SeeCompletion); t.disk == s.disk && t.world == s.world && t.past.sight.completionSeen
  {
  }

  /** The done file can be written for the status under the same condition. */
  lemma WorkloadConcludedIff(cfg: Config, s: State, status: Completion)
    requires Inv(cfg, s) && s.disk.pending == map[] && cfg.completionFile != ""
    requires s.world.completion == Present(status) && Real(s.world.files)
    requires forall p | p in Listed(cfg, s.world) :: AtEnd(Loaded(cfg, s.disk).Source(p), s.world.files[p].text)
    ensures (exists actions :: OwnSteps(actions) && LeadsToDone(cfg, s, actions, status))
       <==> ValidTime(status.completedAt) && forall key | key in cfg.tags :: !IsProtected(key)
  {
    hide Inv, Enabled, Apply, ValidTime, IsProtected, Onward, AtEnd;
    if TerminalEvent(cfg, status).Some? {
      var actions := WorkloadCanBeConcluded(cfg, s, status);
      assert OwnSteps(actions) && LeadsToDone(cfg, s, actions, status);
    }
    if actions :| OwnSteps(actions) && LeadsToDone(cfg, s, actions, status) {
      OnwardKeepsInv(cfg, s, actions);
      RecordedMeansAccepted(cfg, Onward(cfg, s, actions).value, status);
    }
  }

  /** A completion file that tells the zero time, as one written from an unset time
      does, leaves the collector unable ever to record it. */
  lemma UnsetTimeIsNeverRecorded(cfg: Config, s: State, state: CompletionState, actions: seq<Action>)
    requires Inv(cfg, s) && Onward(cfg, s, actions).Some?
    ensures !LeadsToRecord(cfg, s, actions, Completion(state, "", "", ZERO_TIME))
    ensures !LeadsToDone(cfg, s, actions, Completion(state, "", "", ZERO_TIME))
  {
    hide Inv, Onward;
    OnwardKeepsInv(cfg, s, actions);
    RecordedMeansAccepted(cfg, Onward(cfg, s, actions).value, Completion(state, "", "", ZERO_TIME));
  }

  /** With a tag named like a field, no status is ever recorded. */
  lemma ProtectedTagBlocksStatus(cfg: Config, s: State, status: Completion, actions: seq<Action>)
    requires Inv(cfg, s) && Onward(cfg, s, actions).Some? && "source" in cfg.tags
    ensures !LeadsToRecord(cfg, s, actions, status) && !LeadsToDone(cfg, s, actions, status)
  {
    hide Inv, Onward;
    OnwardKeepsInv(cfg, s, actions);
    RecordedMeansAccepted(cfg, Onward(cfg, s, actions).value, status);
  }
}

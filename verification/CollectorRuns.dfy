/** What a whole run guarantees: every text the theorems speak of was held by a
    file at some moment of the run, and where drains cut. */
module CollectorRuns {
  import opened SourceText
  import opened Telemetry
  import opened Spool
  import opened Wrappers
  import opened CollectorProtocol
  import opened CollectorSafety
  import opened CollectorTheorems

  // ------------------------------------------------------- what was really there

  /** The last of these actions read `path` while its file held `text`. */
  ghost predicate Reads(cfg: Config, front: seq<Action>, a: Action, path: Path, text: Bytes, seen: bool) {
    && a == ReadFile(path) && After(cfg, front).Some?
    && var s := After(cfg, front).value;
    && path in s.world.files && s.world.files[path].text == text && (seen ==> s.past.sight.completionSeen)
  }

  /** At some moment of the run the file held `text` and was read; with `seen`, by
      a process that had seen the workload's completion. */
  ghost predicate WasHeld(cfg: Config, actions: seq<Action>, path: Path, text: Bytes, seen: bool) {
    exists k :: 0 <= k < |actions| && Reads(cfg, actions[..k], actions[k], path, text, seen)
  }

  /** The last of these actions listed exactly `files` after completion was seen. */
  ghost predicate Lists(cfg: Config, front: seq<Action>, a: Action, files: set<Path>) {
    && a == ListFiles && After(cfg, front).Some?
    && After(cfg, front).value.past.sight.completionSeen && Listed(cfg, After(cfg, front).value.world) == files
  }

  ghost predicate WereListed(cfg: Config, actions: seq<Action>, files: set<Path>) {
    exists k :: 0 <= k < |actions| && Lists(cfg, actions[..k], actions[k], files)
  }

  /** The last of these actions read `status` from the completion file. */
  ghost predicate ReadsStatus(cfg: Config, front: seq<Action>, a: Action, status: Completion) {
    a == ReadStatus && After(cfg, front).Some? && After(cfg, front).value.world.completion == Present(status)
  }

  ghost predicate StatusWasRead(cfg: Config, actions: seq<Action>, status: Completion) {
    exists k :: 0 <= k < |actions| && ReadsStatus(cfg, actions[..k], actions[k], status)
  }

  lemma HeldLater(cfg: Config, actions: seq<Action>, a: Action, path: Path, text: Bytes, seen: bool)
    requires WasHeld(cfg, actions, path, text, seen)
    ensures WasHeld(cfg, actions + [a], path, text, seen)
  {
    hide Reads;
    var k :| 0 <= k < |actions| && Reads(cfg, actions[..k], actions[k], path, text, seen);
    assert (actions + [a])[..k] == actions[..k] && (actions + [a])[k] == actions[k];
  }

  lemma ListedLater(cfg: Config, actions: seq<Action>, a: Action, files: set<Path>)
    requires WereListed(cfg, actions, files)
    ensures WereListed(cfg, actions + [a], files)
  {
    hide Lists;
    var k :| 0 <= k < |actions| && Lists(cfg, actions[..k], actions[k], files);
    assert (actions + [a])[..k] == actions[..k] && (actions + [a])[k] == actions[k];
  }

  lemma StatusReadLater(cfg: Config, actions: seq<Action>, a: Action, status: Completion)
    requires StatusWasRead(cfg, actions, status)
    ensures StatusWasRead(cfg, actions + [a], status)
  {
    hide ReadsStatus;
    var k :| 0 <= k < |actions| && ReadsStatus(cfg, actions[..k], actions[k], status);
    assert (actions + [a])[..k] == actions[..k] && (actions + [a])[k] == actions[k];
  }

  ghost predicate AllHeld(cfg: Config, actions: seq<Action>, texts: map<Path, Bytes>, seen: bool) {
    forall p | p in texts :: WasHeld(cfg, actions, p, texts[p], seen)
  }

  /** A base is empty, or the complete part of a text the file held when it was
      read. */
  ghost predicate BaseWasHeld(cfg: Config, actions: seq<Action>, path: Path, base: Bytes) {
    base == [] || exists text :: WasHeld(cfg, actions, path, text, false) && base == CompletePart(text)
  }

  ghost predicate BasesWereHeld(cfg: Config, actions: seq<Action>, tails: map<Path, Tail>) {
    forall p | p in tails :: BaseWasHeld(cfg, actions, p, tails[p].base)
  }

  ghost predicate SightIsTrue(cfg: Config, actions: seq<Action>, sight: Sight) {
    && AllHeld(cfg, actions, Texts(sight.held), false)
    && (sight.completionSeen && sight.listed.Some? ==> WereListed(cfg, actions, sight.listed.value))
    && (sight.outcome.Some? ==> StatusWasRead(cfg, actions, sight.outcome.value))
    && (sight.finalDrain.Some? ==>
          && WereListed(cfg, actions, sight.finalDrain.value.files)
          && AllHeld(cfg, actions, Texts(sight.held), true)
          && AllHeld(cfg, actions, sight.finalDrain.value.reached, true))
  }

  ghost predicate ConclusionIsTrue(cfg: Config, actions: seq<Action>, end: Conclusion) {
    && WereListed(cfg, actions, end.reached.Keys)
    && AllHeld(cfg, actions, end.reached, true)
    && StatusWasRead(cfg, actions, end.status)
  }

  lemma AllHeldLater(cfg: Config, actions: seq<Action>, a: Action, texts: map<Path, Bytes>, seen: bool)
    requires AllHeld(cfg, actions, texts, seen)
    ensures AllHeld(cfg, actions + [a], texts, seen)
  {
    hide WasHeld;
    forall p | p in texts ensures WasHeld(cfg, actions + [a], p, texts[p], seen) {
      HeldLater(cfg, actions, a, p, texts[p], seen);
    }
  }

  lemma SightLater(cfg: Config, actions: seq<Action>, a: Action, sight: Sight)
    requires SightIsTrue(cfg, actions, sight)
    ensures SightIsTrue(cfg, actions + [a], sight)
  {
    hide AllHeld, WereListed, StatusWasRead;
    AllHeldLater(cfg, actions, a, Texts(sight.held), false);
    if sight.completionSeen && sight.listed.Some? {
      ListedLater(cfg, actions, a, sight.listed.value);
    }
    if sight.outcome.Some? {
      StatusReadLater(cfg, actions, a, sight.outcome.value);
    }
    if sight.finalDrain.Some? {
      ListedLater(cfg, actions, a, sight.finalDrain.value.files);
      AllHeldLater(cfg, actions, a, Texts(sight.held), true);
      AllHeldLater(cfg, actions, a, sight.finalDrain.value.reached, true);
    }
  }

  lemma BasesLater(cfg: Config, actions: seq<Action>, a: Action, tails: map<Path, Tail>)
    requires BasesWereHeld(cfg, actions, tails)
    ensures BasesWereHeld(cfg, actions + [a], tails)
  {
    hide WasHeld, CompletePart;
    forall p | p in tails ensures BaseWasHeld(cfg, actions + [a], p, tails[p].base) {
      assert BaseWasHeld(cfg, actions, p, tails[p].base);
      if tails[p].base != [] {
        var text :| WasHeld(cfg, actions, p, text, false) && tails[p].base == CompletePart(text);
        HeldLater(cfg, actions, a, p, text, false);
      }
    }
  }

  lemma NowHeld(cfg: Config, actions: seq<Action>, s: State, path: Path, seen: bool)
    requires After(cfg, actions) == Some(s) && path in s.world.files && (seen ==> s.past.sight.completionSeen)
    ensures WasHeld(cfg, actions + [ReadFile(path)], path, s.world.files[path].text, seen)
  {
    hide After;
    var a := ReadFile(path);
    assert (actions + [a])[..|actions|] == actions && (actions + [a])[|actions|] == a;
    assert Reads(cfg, actions, a, path, s.world.files[path].text, seen);
  }

  lemma OneMoreHeld(cfg: Config, actions: seq<Action>, held: map<Path, SourceFile>, path: Path, file: SourceFile, seen: bool)
    requires AllHeld(cfg, actions, Texts(held), seen) && WasHeld(cfg, actions, path, file.text, seen)
    ensures AllHeld(cfg, actions, Texts(held[path := file]), seen)
  {
    hide WasHeld;
    assert Texts(held[path := file]) == Texts(held)[path := file.text];
  }

  lemma ReadIsTrue(cfg: Config, actions: seq<Action>, s: State, path: Path)
    requires After(cfg, actions) == Some(s) && path in s.world.files && SightIsTrue(cfg, actions, s.past.sight)
    requires s.past.sight.finalDrain.Some? ==> s.past.sight.completionSeen
    ensures SightIsTrue(cfg, actions + [ReadFile(path)], s.past.sight.(held := s.past.sight.held[path := s.world.files[path]]))
  {
    hide WereListed, StatusWasRead, After, WasHeld, AllHeld;
    var a, was := ReadFile(path), s.past.sight;
    SightLater(cfg, actions, a, was);
    NowHeld(cfg, actions, s, path, false);
    OneMoreHeld(cfg, actions + [a], was.held, path, s.world.files[path], false);
    if was.finalDrain.Some? {
      NowHeld(cfg, actions, s, path, true);
      OneMoreHeld(cfg, actions + [a], was.held, path, s.world.files[path], true);
    }
  }

  lemma ListingIsTrue(cfg: Config, actions: seq<Action>, s: State)
    requires After(cfg, actions) == Some(s) && SightIsTrue(cfg, actions, s.past.sight)
    ensures SightIsTrue(cfg, actions + [ListFiles],
              s.past.sight.(listings := s.past.sight.listings + 1, listed := Some(Listed(cfg, s.world)), held := map[]))
  {
    hide WasHeld, StatusWasRead, After, Listed;
    SightLater(cfg, actions, ListFiles, s.past.sight);
    assert (actions + [ListFiles])[..|actions|] == actions && (actions + [ListFiles])[|actions|] == ListFiles;
    if s.past.sight.completionSeen {
      assert Lists(cfg, actions, ListFiles, Listed(cfg, s.world));
      assert WereListed(cfg, actions + [ListFiles], Listed(cfg, s.world));
    }
  }

  lemma StatusIsTrue(cfg: Config, actions: seq<Action>, s: State)
    requires After(cfg, actions) == Some(s) && s.world.completion.Present? && SightIsTrue(cfg, actions, s.past.sight)
    ensures SightIsTrue(cfg, actions + [ReadStatus], s.past.sight.(outcome := Some(s.world.completion.status)))
  {
    hide AllHeld, WereListed, After;
    SightLater(cfg, actions, ReadStatus, s.past.sight);
    assert (actions + [ReadStatus])[..|actions|] == actions && (actions + [ReadStatus])[|actions|] == ReadStatus;
    assert ReadsStatus(cfg, actions, ReadStatus, s.world.completion.status);
    assert StatusWasRead(cfg, actions + [ReadStatus], s.world.completion.status);
    hide StatusWasRead;
  }

  lemma EndIsTrue(cfg: Config, actions: seq<Action>, sight: Sight, path: Path)
    requires SightIsTrue(cfg, actions, sight) && sight.finalDrain.Some? && path in sight.held
    ensures var f := sight.finalDrain.value;
            SightIsTrue(cfg, actions, sight.(finalDrain := Some(f.(reached := f.reached[path := sight.held[path].text]))))
  {
    hide WasHeld, WereListed, StatusWasRead;
    assert Texts(sight.held)[path] == sight.held[path].text;
  }

  /** Durable steps and deliveries see nothing. */
  lemma ActingSeesNothing(cfg: Config, s: State, a: Action)
    requires Enabled(cfg, s, a)
    requires !a.Restart? && !a.ListFiles? && !a.ReadFile? && !a.ReadStatus? && !a.SeeCompletion? && !a.BeginFinalDrain? && !a.ReachEnd?
    ensures Apply(cfg, s, a).past.sight == s.past.sight
  {
    hide Project, Records, Continues, FromFile, AdvanceFor, SliceOf, HistoryManifest, TerminalManifest, DrainedSource, Listed;
  }

  /** What a process sees of the world is true of it. */
  lemma SeeingIsTrue(cfg: Config, actions: seq<Action>, s: State, a: Action)
    requires After(cfg, actions) == Some(s) && Enabled(cfg, s, a) && SightIsTrue(cfg, actions, s.past.sight)
    requires s.past.sight.finalDrain.Some? ==> s.past.sight.completionSeen
    ensures SightIsTrue(cfg, actions + [a], Apply(cfg, s, a).past.sight)
  {
    hide AllHeld, WereListed, StatusWasRead, After, Listed;
    match a
    case Restart => BlindIsTrue(cfg, actions + [a]);
    case ListFiles => ListingIsTrue(cfg, actions, s);
    case ReadFile(path) => ReadIsTrue(cfg, actions, s, path);
    case ReadStatus => StatusIsTrue(cfg, actions, s);
    case SeeCompletion =>
      SightLater(cfg, actions, a, s.past.sight);
      NothingHeld(cfg, actions + [a], false);
    case BeginFinalDrain =>
      SightLater(cfg, actions, a, s.past.sight);
      NothingHeld(cfg, actions + [a], true);
    case ReachEnd(path) =>
      SightLater(cfg, actions, a, s.past.sight);
      EndIsTrue(cfg, actions + [a], s.past.sight, path);
    case _ =>
      SightLater(cfg, actions, a, s.past.sight);
      ActingSeesNothing(cfg, s, a);
  }

  lemma BlindIsTrue(cfg: Config, actions: seq<Action>)
    ensures SightIsTrue(cfg, actions, BLIND)
  {
  }

  lemma NothingHeld(cfg: Config, actions: seq<Action>, seen: bool)
    ensures AllHeld(cfg, actions, map[], seen) && Texts(map[]) == map[]
  {
  }

  lemma BaselinesWereHeld(cfg: Config, actions: seq<Action>, held: map<Path, SourceFile>)
    requires AllHeld(cfg, actions, Texts(held), false)
    ensures BasesWereHeld(cfg, actions, BaselineTails(held))
  {
    hide WasHeld, CompletePart;
    forall p | p in held ensures BaseWasHeld(cfg, actions, p, CompletePart(held[p].text)) {
      assert Texts(held)[p] == held[p].text;
    }
  }

  /** A step leaves the bases of sources alone, gives new ones none, or sets them
      from what was just read. */
  lemma BasesMove(cfg: Config, s: State, a: Action)
    requires Inv(cfg, s) && Enabled(cfg, s, a) && !a.PersistBaseline?
    ensures forall p | p in Apply(cfg, s, a).past.tails ::
              Apply(cfg, s, a).past.tails[p].base == TailOf(s.past.tails, p).base
  {
    hide Inv, Project, Records, Continues, FromFile, AdvanceFor, SliceOf, HistoryManifest, TerminalManifest, DrainedSource, Listed;
  }

  lemma BasesStayTrue(cfg: Config, actions: seq<Action>, s: State, a: Action)
    requires Inv(cfg, s) && Enabled(cfg, s, a) && BasesWereHeld(cfg, actions, s.past.tails)
    requires SightIsTrue(cfg, actions, s.past.sight)
    ensures BasesWereHeld(cfg, actions + [a], Apply(cfg, s, a).past.tails)
  {
    hide WasHeld, Inv, AllHeld, CompletePart;
    if a.PersistBaseline? {
      SightLater(cfg, actions, a, s.past.sight);
      BaselinesWereHeld(cfg, actions + [a], s.past.sight.held);
    } else {
      BasesMove(cfg, s, a);
      hide Enabled, Apply;
      BasesLater(cfg, actions, a, s.past.tails);
    }
  }

  lemma ConclusionStaysTrue(cfg: Config, actions: seq<Action>, s: State, a: Action)
    requires Enabled(cfg, s, a) && SightIsTrue(cfg, actions, s.past.sight)
    requires s.past.conclusion.Some? ==> ConclusionIsTrue(cfg, actions, s.past.conclusion.value)
    ensures Apply(cfg, s, a).past.conclusion.Some? ==>
              ConclusionIsTrue(cfg, actions + [a], Apply(cfg, s, a).past.conclusion.value)
  {
    hide AllHeld, WereListed, StatusWasRead, After, Listed, Project, Records, Continues, FromFile, AdvanceFor, SliceOf,
      HistoryManifest, TerminalManifest, DrainedSource;
    SightLater(cfg, actions, a, s.past.sight);
    if s.past.conclusion.Some? {
      ListedLater(cfg, actions, a, s.past.conclusion.value.reached.Keys);
      AllHeldLater(cfg, actions, a, s.past.conclusion.value.reached, true);
      StatusReadLater(cfg, actions, a, s.past.conclusion.value.status);
    }
  }

  ghost predicate RunIsTrue(cfg: Config, actions: seq<Action>, past: Past) {
    && SightIsTrue(cfg, actions, past.sight)
    && BasesWereHeld(cfg, actions, past.tails)
    && (past.conclusion.Some? ==> ConclusionIsTrue(cfg, actions, past.conclusion.value))
  }

  /** Every text the protocol speaks of was held by its file at some moment of the
      run, every listing was complete, and every status was read from its file. */
  lemma {:induction false} RunsAreTrue(cfg: Config, actions: seq<Action>)
    requires cfg.identity != "" && After(cfg, actions).Some?
    ensures RunIsTrue(cfg, actions, After(cfg, actions).value.past)
  {
    hide Inv, Enabled, Apply, SightIsTrue, BasesWereHeld, ConclusionIsTrue;
    if actions == [] {
      BlindIsTrue(cfg, []);
      assert BasesWereHeld(cfg, [], map[]) by { NoBases(cfg, []); }
    } else {
      var front, a := actions[..|actions|-1], actions[|actions|-1];
      RunsAreTrue(cfg, front);
      var s := After(cfg, front).value;
      ReachableStatesAreSafe(cfg, front);
      FinalDrainWasSeen(cfg, s);
      SeeingIsTrue(cfg, front, s, a);
      BasesStayTrue(cfg, front, s, a);
      ConclusionStaysTrue(cfg, front, s, a);
      assert front + [a] == actions;
    }
  }

  lemma NoBases(cfg: Config, actions: seq<Action>)
    ensures BasesWereHeld(cfg, actions, map[])
  {
  }

  lemma FinalDrainWasSeen(cfg: Config, s: State)
    requires Inv(cfg, s)
    ensures s.past.sight.finalDrain.Some? ==> s.past.sight.completionSeen
  {
    hide SourcesDescribeTails, LogIsProjection, LogIsSound, LinesAdvance, TerminalsMatchLog, PendingIsNextOrLast,
      SinkHoldsLog, SubmissionsAreChunks, BasesAreWhole, Covered, ValidCheckpoints;
  }

  // --------------------------------------------------------------- where drains cut

  predicate Consumes(a: Action, path: Path) {
    (a.SkipSilent? || a.WriteHistory?) && a.read.path == path
  }

  /** No trailing drain consumes from `path`. */
  ghost predicate NeverTrailing(actions: seq<Action>, path: Path) {
    forall i | 0 <= i < |actions| && Consumes(actions[i], path) :: !actions[i].trailing
  }

  /** Nothing is consumed from `path` after a trailing drain has consumed from it. */
  ghost predicate TrailingLast(actions: seq<Action>, path: Path) {
    forall i, j | 0 <= i < j < |actions| && Consumes(actions[i], path) && Consumes(actions[j], path) :: !actions[i].trailing
  }

  /** The slices of a source, the one in flight included. */
  function Pieces(past: Past, path: Path): seq<Bytes> {
    TailOf(past.tails, path).slices
    + if past.inFlight.Some? && past.inFlight.value.body.kind.History? && past.inFlight.value.body.sourcePath == path
      then [SliceOf(past.inFlight.value.body)] else []
  }

  lemma WrittenSlice(cfg: Config, c: CheckpointSet, read: SourceRead, events: seq<Event>)
    requires Continues(c.Source(read.path), read)
    ensures SliceOf(HistoryManifest(cfg.identity, c.Source(read.path), read, c.nextSequence, events).body) == read.data
  {
    hide Records, Project, LineCount;
  }

  /** A step adds to the slices of `path` exactly the text it consumes. */
  lemma PiecesMove(cfg: Config, s: State, a: Action, path: Path)
    requires Inv(cfg, s) && Enabled(cfg, s, a)
    ensures Pieces(Apply(cfg, s, a).past, path)
         == Pieces(s.past, path) + if Consumes(a, path) then [a.read.data] else []
  {
    hide Inv, Project, Records, FromFile, AdvanceFor, SliceOf, HistoryManifest, TerminalManifest, DrainedSource, Listed, Continues;
    if s.disk.pending == map[] {
      EmptyPendingMeansNoneInFlight(cfg, s);
    }
    if a.WriteHistory? {
      WrittenSlice(cfg, Loaded(cfg, s.disk), a.read, a.events);
      HistoryManifestNames(cfg, Loaded(cfg, s.disk), a.read, a.events);
    } else if a.WriteTerminal? {
      TerminalManifestIsTerminal(cfg, Loaded(cfg, s.disk), a.observation, a.status);
    } else if a.Acknowledge? {
      NextPendingIsInFlight(cfg, s, a.name);
    } else if a.PersistBaseline? {
      BaselineShape(cfg, s);
    }
  }

  lemma HistoryManifestNames(cfg: Config, c: CheckpointSet, read: SourceRead, events: seq<Event>)
    ensures var m := HistoryManifest(cfg.identity, c.Source(read.path), read, c.nextSequence, events);
            m.body.kind.History? && m.body.sourcePath == read.path
  {
  }

  lemma TerminalManifestIsTerminal(cfg: Config, c: CheckpointSet, observation: ObservationId, status: Completion)
    ensures TerminalManifest(cfg.identity, TerminalSource(cfg), observation, c.nextSequence, TerminalPayload(cfg, status)).body.kind.Terminal?
  {
  }

  /** Only a trailing read can end inside a record. */
  lemma OnlyTrailingReadsTear(cfg: Config, s: State, a: Action, path: Path)
    requires Enabled(cfg, s, a) && Consumes(a, path) && !a.trailing
    ensures AtBoundary(a.read.data)
  {
    hide Project, Records, Continues, PrefixDigestOf;
  }

  /** Every read that is consumed from `path` ends where a record ends. */
  ghost predicate AllClean(actions: seq<Action>, path: Path) {
    forall i | 0 <= i < |actions| && Consumes(actions[i], path) :: AtBoundary(actions[i].read.data)
  }

  /** The same for every read but the last. */
  ghost predicate CleanCuts(actions: seq<Action>, path: Path) {
    forall i, j | 0 <= i < j < |actions| && Consumes(actions[i], path) && Consumes(actions[j], path) ::
      AtBoundary(actions[i].read.data)
  }

  /** The slices of a source are cut as the reads were. */
  lemma {:induction false} CutsAreReads(cfg: Config, actions: seq<Action>, path: Path)
    requires cfg.identity != "" && After(cfg, actions).Some?
    ensures AllClean(actions, path) ==>
              forall i | 0 <= i < |Pieces(After(cfg, actions).value.past, path)| ::
                AtBoundary(Pieces(After(cfg, actions).value.past, path)[i])
    ensures CleanCuts(actions, path) ==> CutAtRecords(Pieces(After(cfg, actions).value.past, path))
  {
    hide Inv, Enabled, Apply, AtBoundary, Pieces;
    if actions == [] {
      assert Pieces(START.past, path) == [] by { NoPieces(path); }
    } else {
      var front, a := actions[..|actions|-1], actions[|actions|-1];
      var s := After(cfg, front).value;
      CutsAreReads(cfg, front, path);
      ReachableStatesAreSafe(cfg, front);
      PiecesMove(cfg, s, a, path);
      assert forall i | 0 <= i < |front| :: front[i] == actions[i];
      if Consumes(a, path) {
        assert CleanCuts(actions, path) ==> AllClean(front, path);
      }
    }
  }

  /** Only slices of trailing drains are torn: without such drains no read is, and
      when they come last none but the last. */
  lemma {:induction false} TornSlicesAreTrailing(cfg: Config, actions: seq<Action>, path: Path)
    requires After(cfg, actions).Some?
    ensures NeverTrailing(actions, path) ==> AllClean(actions, path)
    ensures TrailingLast(actions, path) ==> CleanCuts(actions, path)
  {
    hide Enabled, Apply, AtBoundary;
    if actions != [] {
      var front, a := actions[..|actions|-1], actions[|actions|-1];
      TornSlicesAreTrailing(cfg, front, path);
      assert forall i | 0 <= i < |front| :: front[i] == actions[i];
      if Consumes(a, path) {
        if !a.trailing {
          OnlyTrailingReadsTear(cfg, After(cfg, front).value, a, path);
        }
        assert TrailingLast(actions, path) ==> NeverTrailing(front, path);
      }
    }
  }

  lemma NoPieces(path: Path)
    ensures Pieces(START.past, path) == []
  {
  }

  /** Over every run whose reads of the source, but for the last, end where records
      end, crashes and shutdowns anywhere, the sink holds the source as projected in
      one go: all that was consumed of it after its baseline, and at most the chunk in
      flight beyond that. */
  lemma WholeFileOnce(cfg: Config, actions: seq<Action>, path: Path)
    requires cfg.identity != "" && After(cfg, actions).Some? && CleanCuts(actions, path)
    ensures var s := After(cfg, actions).value;
            var t, sunk := TailOf(s.past.tails, path), Some(SinkEvents(s.sink.accepted, path));
            || sunk == Project(cfg.decode, path, LineCount(t.base) + 1, Records(Consumed(t)[|t.base|..]))
            || (&& s.past.inFlight.Some? && s.past.inFlight.value.body.sourcePath == path
                && var more := Grow(t, SliceOf(s.past.inFlight.value.body));
                   sunk == Project(cfg.decode, path, LineCount(t.base) + 1, Records(Consumed(more)[|t.base|..])))
  {
    hide Inv, Records, Project, Stream, SinkEvents, Enabled, Apply, SliceOf, CleanCuts, AtBoundary, LineCount;
    var s := After(cfg, actions).value;
    var t := TailOf(s.past.tails, path);
    ReachableStatesAreSafe(cfg, actions);
    CutsAreReads(cfg, actions, path);
    BaseIsWhole(cfg, s, path);
    ExactlyOnce(cfg, s, path);
    if Some(SinkEvents(s.sink.accepted, path)) == Stream(cfg.decode, path, t) {
      FewerCuts(s.past, path);
      SlicingIndependence(cfg.decode, path, t);
    } else {
      InFlightIsHistory(cfg, s, path);
      SlicingIndependence(cfg.decode, path, Grow(t, SliceOf(s.past.inFlight.value.body)));
    }
  }

  lemma FewerCuts(past: Past, path: Path)
    requires CutAtRecords(Pieces(past, path))
    ensures CutAtRecords(TailOf(past.tails, path).slices)
  {
    var slices := TailOf(past.tails, path).slices;
    assert forall i | 0 <= i < |slices| :: Pieces(past, path)[i] == slices[i];
  }

  /** Only a history chunk in flight makes a difference to its source. */
  lemma InFlightIsHistory(cfg: Config, s: State, path: Path)
    requires Inv(cfg, s) && s.past.inFlight.Some? && s.past.inFlight.value.body.sourcePath == path
    requires Some(SinkEvents(s.sink.accepted, path)) != Stream(cfg.decode, path, TailOf(s.past.tails, path))
    ensures Pieces(s.past, path) == Grow(TailOf(s.past.tails, path), SliceOf(s.past.inFlight.value.body)).slices
  {
    hide SourcesDescribeTails, TerminalsMatchLog, SubmissionsAreChunks, DoneIsJustified, BasesAreWhole, LogIsProjection,
      Acknowledged, Records, Project, AdvanceFor, ValidCheckpoints, ValidManifest, SliceOf, LogEvents, SinkEvents, Stream;
    var log, m := s.past.log, s.past.inFlight.value;
    if !m.body.kind.History? {
      assert FollowsCheckpoint(cfg, Loaded(cfg, s.disk), m, s.past.tails);
      LogStream(cfg, s, path);
      LogAfterAcknowledge(cfg, Loaded(cfg, s.disk), m, s.past);
      InFlightAddsNothing(cfg, Loaded(cfg, s.disk), m, s.past, path);
      SinkHoldsLogEvents(cfg, log, path);
      SinkHoldsLogEvents(cfg, log + [m], path);
    }
  }

  lemma LogStream(cfg: Config, s: State, path: Path)
    requires Inv(cfg, s)
    ensures Stream(cfg.decode, path, TailOf(s.past.tails, path)) == Some(LogEvents(s.past.log, path))
  {
    hide SourcesDescribeTails, LogIsSound, LinesAdvance, TerminalsMatchLog, PendingIsNextOrLast, BasesAreWhole,
      SinkHoldsLog, SubmissionsAreChunks, DoneIsJustified, ValidCheckpoints;
  }
}

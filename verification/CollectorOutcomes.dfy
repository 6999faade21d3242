/** What the done file and the baseline mean, in terms of the files themselves. */
module CollectorOutcomes {
  import opened SourceText
  import opened Telemetry
  import opened Spool
  import opened Wrappers
  import opened CollectorProtocol
  import opened CollectorTheorems
  import opened CollectorRuns

  /** The done file means: after completion was seen the history files were listed;
      each of them was then read and everything it held at that moment has been
      consumed; the completion file was read; and the log holds exactly the record
      of the status it told, which the sink has accepted. */
  lemma DoneMeansFilesWereDrained(cfg: Config, actions: seq<Action>)
    requires cfg.identity != "" && After(cfg, actions).Some? && After(cfg, actions).value.disk.done
    ensures After(cfg, actions).value.past.conclusion.Some?
    ensures var s := After(cfg, actions).value;
            var end := s.past.conclusion.value;
            && WereListed(cfg, actions, end.reached.Keys)
            && (forall p | p in end.reached ::
                  && WasHeld(cfg, actions, p, end.reached[p], true)
                  && WasConsumed(TailOf(s.past.tails, p), end.reached[p]))
            && StatusWasRead(cfg, actions, end.status) && TerminalEvent(cfg, end.status).Some?
            && exists i :: 0 <= i < |s.past.log| && Concludes(s.past.log[i], StatusSha(end.status))
                 && s.past.log[i].body.ndjson == TerminalPayload(cfg, end.status)
                 && s.past.log[i].body.chunkDigest in s.sink.accepted
  {
    hide Inv, Enabled, Apply, WereListed, WasHeld, StatusWasRead, WasConsumed, Concludes, SightIsTrue, BasesWereHeld, TerminalEvent;
    ReachableStatesAreSafe(cfg, actions);
    RunsAreTrue(cfg, actions);
    DoneMeansEverythingDelivered(cfg, After(cfg, actions).value);
    RecordedMeansAccepted(cfg, After(cfg, actions).value, After(cfg, actions).value.past.conclusion.value.status);
  }

  /** If every status ever read from the completion file is refused, no run writes the
      done file. */
  lemma RefusedStatusIsNeverConcluded(cfg: Config, actions: seq<Action>)
    requires cfg.identity != "" && After(cfg, actions).Some?
    requires forall status | StatusWasRead(cfg, actions, status) :: TerminalEvent(cfg, status).None?
    ensures !After(cfg, actions).value.disk.done
  {
    hide Inv, Enabled, Apply, StatusWasRead, TerminalEvent;
    if After(cfg, actions).value.disk.done {
      DoneMeansFilesWereDrained(cfg, actions);
    }
  }

  // ------------------------------------------------------------------- the sink

  lemma {:induction false} SliceEventsPrefix(decode: RowDecoder, path: Path, lines: nat, slices: seq<Bytes>, k: nat)
    requires k <= |slices| && SliceEvents(decode, path, lines, slices).Some?
    ensures SliceEvents(decode, path, lines, slices[..k]).Some?
    ensures SliceEvents(decode, path, lines, slices[..k]).value <= SliceEvents(decode, path, lines, slices).value
    decreases |slices|
  {
    if k == |slices| {
      assert slices[..k] == slices;
    } else {
      hide Project, Records, LineCount;
      var front := slices[..|slices|-1];
      assert front[..k] == slices[..k];
      assert SliceEvents(decode, path, lines, front).Some?;
      SliceEventsPrefix(decode, path, lines, front, k);
      assert SliceEvents(decode, path, lines, front).value <= SliceEvents(decode, path, lines, slices).value;
    }
  }

  lemma StreamPrefix(decode: RowDecoder, path: Path, t: Tail, more: seq<Bytes>, k: nat)
    requires k <= |t.slices| && Stream(decode, path, t.(slices := t.slices + more)).Some?
    ensures Stream(decode, path, t.(slices := t.slices[..k])).Some?
    ensures Stream(decode, path, t.(slices := t.slices[..k])).value
         <= Stream(decode, path, t.(slices := t.slices + more)).value
  {
    assert (t.slices + more)[..k] == t.slices[..k];
    SliceEventsPrefix(decode, path, NewlineCount(t.base), t.slices + more, k);
  }

  /** Whatever had been consumed of a source at some time, the sink's events of
      that source start with what it projects to. */
  lemma SinkStartsWith(cfg: Config, s: State, path: Path, k: nat)
    requires Inv(cfg, s) && k <= |TailOf(s.past.tails, path).slices|
    ensures var t := TailOf(s.past.tails, path);
            var early := Stream(cfg.decode, path, t.(slices := t.slices[..k]));
            early.Some? && early.value <= SinkEvents(s.sink.accepted, path)
  {
    hide Inv, Stream, SinkEvents, SliceOf;
    var t := TailOf(s.past.tails, path);
    ExactlyOnce(cfg, s, path);
    if Some(SinkEvents(s.sink.accepted, path)) == Stream(cfg.decode, path, t) {
      assert t.slices + [] == t.slices;
      StreamPrefix(cfg.decode, path, t, [], k);
    } else {
      StreamPrefix(cfg.decode, path, t, [SliceOf(s.past.inFlight.value.body)], k);
    }
  }

  /** The sink's events of a source start with what its first slices, which make up
      `text`, project to one after the other. */
  ghost predicate HoldsSlicesOf(cfg: Config, s: State, path: Path, text: Bytes) {
    var t := TailOf(s.past.tails, path);
    exists k :: 0 <= k <= |t.slices| && text == ConsumedAt(t, k)
      && var es := Stream(cfg.decode, path, t.(slices := t.slices[..k]));
         es.Some? && es.value <= SinkEvents(s.sink.accepted, path)
  }

  /** When the done file is out, the sink's events of every listed file start with the
      projection of all the text the file held when the final drain read it, less the
      part a baseline skipped: slice by slice, and in one go if no read but the last
      ended inside a record. */
  lemma SinkHoldsEveryListedFile(cfg: Config, actions: seq<Action>, path: Path)
    requires cfg.identity != "" && After(cfg, actions).Some? && After(cfg, actions).value.disk.done
    requires After(cfg, actions).value.past.conclusion.Some? && path in After(cfg, actions).value.past.conclusion.value.reached
    ensures var s := After(cfg, actions).value;
            var base, text := TailOf(s.past.tails, path).base, s.past.conclusion.value.reached[path];
            && base <= text && WasHeld(cfg, actions, path, text, true) && HoldsSlicesOf(cfg, s, path, text)
            && (CleanCuts(actions, path) ==>
                  var es := Project(cfg.decode, path, LineCount(base) + 1, Records(text[|base|..]));
                  es.Some? && es.value <= SinkEvents(s.sink.accepted, path))
  {
    hide Inv, Enabled, Apply, Records, Project, Stream, SinkEvents, CleanCuts, LineCount, WasHeld, WereListed, StatusWasRead,
      AtBoundary;
    DoneMeansFilesWereDrained(cfg, actions);
    var s := After(cfg, actions).value;
    var t, text := TailOf(s.past.tails, path), s.past.conclusion.value.reached[path];
    assert WasConsumed(t, text);
    var k :| 0 <= k <= |t.slices| && text == ConsumedAt(t, k);
    ReachableStatesAreSafe(cfg, actions);
    SinkStartsWith(cfg, s, path, k);
    assert HoldsSlicesOf(cfg, s, path, text);
    if CleanCuts(actions, path) {
      CutsAreReads(cfg, actions, path);
      FewerCuts(s.past, path);
      assert forall i | 0 <= i < k :: t.slices[..k][i] == t.slices[i];
      BaseIsWhole(cfg, s, path);
      SlicingIndependence(cfg.decode, path, t.(slices := t.slices[..k]));
    }
  }

  // --------------------------------------------------------------- the baseline

  /** Every event of a stream lies below its baseline. */
  lemma {:induction false} StreamLines(decode: RowDecoder, path: Path, lines: nat, slices: seq<Bytes>)
    requires SliceEvents(decode, path, lines, slices).Some?
    ensures var es := SliceEvents(decode, path, lines, slices).value;
            forall i | 0 <= i < |es| :: es[i].Measured? && es[i].path == path && es[i].line > lines
  {
    hide Records, LineCount, Project;
    if slices != [] {
      var front, last := slices[..|slices|-1], slices[|slices|-1];
      StreamLines(decode, path, lines, front);
      ProjectedLines(decode, path, lines + SliceLines(front) + 1, Records(last));
    }
  }

  /** No record below a baseline is ever delivered, and a baseline is the complete
      part of a text the file held when it was read, whatever crashes there were. */
  lemma BaselineIsNeverDelivered(cfg: Config, actions: seq<Action>, path: Path)
    requires cfg.identity != "" && After(cfg, actions).Some?
    ensures var s := After(cfg, actions).value;
            var base, sunk := TailOf(s.past.tails, path).base, SinkEvents(s.sink.accepted, path);
            && BaseWasHeld(cfg, actions, path, base) && AtBoundary(base)
            && forall i | 0 <= i < |sunk| :: sunk[i].Measured? && sunk[i].path == path && sunk[i].line > LineCount(base)
  {
    hide Inv, Enabled, Apply, SinkEvents, SliceEvents, SliceOf, SightIsTrue, ConclusionIsTrue, BaseWasHeld;
    var s := After(cfg, actions).value;
    var t := TailOf(s.past.tails, path);
    ReachableStatesAreSafe(cfg, actions);
    RunsAreTrue(cfg, actions);
    BaseIsWhole(cfg, s, path);
    EmptyBaseWasHeld(cfg, actions, path);
    ExactlyOnce(cfg, s, path);
    if Some(SinkEvents(s.sink.accepted, path)) == Stream(cfg.decode, path, t) {
      StreamLines(cfg.decode, path, NewlineCount(t.base), t.slices);
    } else {
      StreamLines(cfg.decode, path, NewlineCount(t.base), Grow(t, SliceOf(s.past.inFlight.value.body)).slices);
    }
  }

  lemma EmptyBaseWasHeld(cfg: Config, actions: seq<Action>, path: Path)
    ensures BaseWasHeld(cfg, actions, path, [])
  {
  }
}

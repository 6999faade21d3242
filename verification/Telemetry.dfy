/** Metric events and the projection of history records to them. Decoding one
    JSON row is an arbitrary function; None stands for every row the projection
    refuses (bad JSON, not an object, a bad step, time or number). */
module Telemetry {
  import opened SourceText
  import opened Wrappers

  type Path = string

  datatype Metric = Metric(rawKey: string, step: nat, wallTime: int, value: real)

  type RowDecoder = Bytes -> Option<seq<Metric>>

  datatype CompletionState = Succeeded | Failed | Cancelled

  /** Times are nanoseconds since the zero time of Go, the start of the year 1 in UTC. */
  const ZERO_TIME := 0
  const DAY := 24 * 60 * 60 * 1_000_000_000
  const YEAR_0 := -366 * DAY
  const YEAR_10000 := 3_652_059 * DAY

  /** `validateMetricTime`: the time is set, and its year has four digits. */
  predicate ValidTime(t: int) {
    t != ZERO_TIME && YEAR_0 <= t < YEAR_10000
  }

  /** `protectedMetricTagKeys`. */
  predicate IsProtected(key: string) {
    key in ["schema_version", "event_id", "workspace_id", "cluster", "namespace", "source_store_id", "project",
            "experiment_id", "run_group_id", "run_id", "metric_name", "step", "wall_time", "value", "unit", "source",
            "split", "metric_file_id", "metric_file_path", "exported_at"]
  }

  /** A workload's terminal status, as read from its completion file. */
  datatype Completion = Completion(state: CompletionState, reason: string, message: string, completedAt: int)

  datatype Event =
    | Measured(path: Path, line: nat, metric: Metric, exportedAt: int)
    | Concluded(state: CompletionState, reason: Option<string>, message: Option<string>, at: int)

  /** An event without its export time, the one part a re-read may change. */
  function Identity(e: Event): Event {
    if e.Measured? then e.(exportedAt := 0) else e
  }

  function Identities(es: seq<Event>): (ids: seq<Event>)
    ensures |ids| == |es|
  {
    seq(|es|, i requires 0 <= i < |es| => Identity(es[i]))
  }

  lemma IdentitiesConcat(a: seq<Event>, b: seq<Event>)
    ensures Identities(a + b) == Identities(a) + Identities(b)
  {
  }

  /** The events of one record, export times aside. */
  function ProjectRow(decode: RowDecoder, path: Path, line: nat, row: Bytes): Option<seq<Event>> {
    if row == [] then None
    else
      var metrics := decode(row);
      if metrics.None? then None
      else Some(seq(|metrics.value|, i requires 0 <= i < |metrics.value| =>
                  Measured(path, line, metrics.value[i], 0)))
  }

  /** The events of consecutive records, the first of them on line `line`;
      one refused record refuses them all. */
  function Project(decode: RowDecoder, path: Path, line: nat, rows: seq<Bytes>): Option<seq<Event>> {
    if rows == [] then Some([])
    else Both(Project(decode, path, line, rows[..|rows|-1]),
              ProjectRow(decode, path, line + |rows| - 1, rows[|rows|-1]))
  }

  /** Every projected event names its file and a line among the projected ones. */
  ghost predicate OnLines(es: seq<Event>, path: Path, first: nat, end: nat) {
    forall i | 0 <= i < |es| :: es[i].Measured? && es[i].path == path && first <= es[i].line < end
  }

  lemma {:induction false} ProjectedLines(decode: RowDecoder, path: Path, line: nat, rows: seq<Bytes>)
    requires Project(decode, path, line, rows).Some?
    ensures OnLines(Project(decode, path, line, rows).value, path, line, line + |rows|)
  {
    if rows != [] {
      ProjectedLines(decode, path, line, rows[..|rows|-1]);
    }
  }

  lemma {:induction false} ProjectConcat(decode: RowDecoder, path: Path, line: nat, a: seq<Bytes>, b: seq<Bytes>)
    ensures Project(decode, path, line, a + b) ==
            Both(Project(decode, path, line, a), Project(decode, path, line + |a|, b))
  {
    if b == [] {
      assert a + b == a;
      if Project(decode, path, line, a).Some? {
        assert Project(decode, path, line, a).value + [] == Project(decode, path, line, a).value;
      }
    } else {
      var front := b[..|b|-1];
      assert (a + b)[..|a + b|-1] == a + front;
      ProjectConcat(decode, path, line, a, front);
      var pa, pf := Project(decode, path, line, a), Project(decode, path, line + |a|, front);
      var last := ProjectRow(decode, path, line + |a + b| - 1, b[|b|-1]);
      if pa.Some? && pf.Some? && last.Some? {
        assert pa.value + pf.value + last.value == pa.value + (pf.value + last.value);
      }
    }
  }

  lemma {:induction false} ProjectFails(decode: RowDecoder, path: Path, line: nat, rows: seq<Bytes>, k: nat)
    requires k < |rows| && ProjectRow(decode, path, line + k, rows[k]).None?
    ensures Project(decode, path, line, rows).None?
  {
    if k < |rows| - 1 {
      ProjectFails(decode, path, line, rows[..|rows|-1], k);
    }
  }

  /** How one history file has been read: the part a baseline skipped, then the
      slices consumed by successive drains. */
  datatype Tail = Tail(base: Bytes, slices: seq<Bytes>)

  function Flatten(slices: seq<Bytes>): Bytes {
    if slices == [] then [] else Flatten(slices[..|slices|-1]) + slices[|slices|-1]
  }

  /** The text of the file up to where it has been read. */
  function Consumed(t: Tail): Bytes {
    t.base + Flatten(t.slices)
  }

  function SliceLines(slices: seq<Bytes>): nat {
    if slices == [] then 0 else SliceLines(slices[..|slices|-1]) + LineCount(slices[|slices|-1])
  }

  /** The collector's line counter after those reads. */
  function LinesRead(t: Tail): nat {
    NewlineCount(t.base) + SliceLines(t.slices)
  }

  function Grow(t: Tail, slice: Bytes): Tail {
    t.(slices := t.slices + [slice])
  }

  /** What the slices of a file project to, each starting at the line counter
      its predecessors left. */
  function SliceEvents(decode: RowDecoder, path: Path, lines: nat, slices: seq<Bytes>): Option<seq<Event>> {
    if slices == [] then Some([])
    else
      var front, last := slices[..|slices|-1], slices[|slices|-1];
      Both(SliceEvents(decode, path, lines, front),
           Project(decode, path, lines + SliceLines(front) + 1, Records(last)))
  }

  function Stream(decode: RowDecoder, path: Path, t: Tail): Option<seq<Event>> {
    SliceEvents(decode, path, NewlineCount(t.base), t.slices)
  }

  lemma GrowConsumed(t: Tail, slice: Bytes)
    ensures Consumed(Grow(t, slice)) == Consumed(t) + slice
    ensures LinesRead(Grow(t, slice)) == LinesRead(t) + LineCount(slice)
  {
    assert (t.slices + [slice])[..|t.slices|] == t.slices;
    assert t.base + (Flatten(t.slices) + slice) == t.base + Flatten(t.slices) + slice;
  }

  lemma SliceEventsStep(decode: RowDecoder, path: Path, lines: nat, front: seq<Bytes>, last: Bytes)
    ensures SliceEvents(decode, path, lines, front + [last]) ==
            Both(SliceEvents(decode, path, lines, front),
                 Project(decode, path, lines + SliceLines(front) + 1, Records(last)))
    ensures Flatten(front + [last]) == Flatten(front) + last
  {
    hide Project, Records, LineCount, AtBoundary, Both;
    assert (front + [last])[..|front|] == front;
  }

  lemma GrowStream(decode: RowDecoder, path: Path, t: Tail, slice: Bytes)
    ensures Stream(decode, path, Grow(t, slice)) ==
            Both(Stream(decode, path, t), Project(decode, path, LinesRead(t) + 1, Records(slice)))
  {
    hide Project, Records, NewlineCount, SliceLines, SliceEvents, Both;
    SliceEventsStep(decode, path, NewlineCount(t.base), t.slices, slice);
  }

  /** Every slice but the last ends where a record ends. */
  ghost predicate CutAtRecords(slices: seq<Bytes>) {
    forall i | 0 <= i < |slices| - 1 :: AtBoundary(slices[i])
  }

  lemma {:induction false} FlattenAtBoundary(slices: seq<Bytes>)
    requires forall i | 0 <= i < |slices| :: AtBoundary(slices[i])
    ensures AtBoundary(Flatten(slices))
  {
    if slices != [] {
      FlattenAtBoundary(slices[..|slices|-1]);
    }
  }

  /** However a text is cut at record ends, the slices' line counts add up to
      its own. */
  lemma {:induction false} SliceLinesAddUp(slices: seq<Bytes>)
    requires CutAtRecords(slices)
    ensures SliceLines(slices) == LineCount(Flatten(slices))
  {
    if slices != [] {
      var front := slices[..|slices|-1];
      SliceLinesAddUp(front);
      FlattenAtBoundary(front);
      SlicedLineCount(Flatten(front), slices[|slices|-1]);
    }
  }

  lemma NoSlices(decode: RowDecoder, path: Path, lines: nat)
    ensures SliceEvents(decode, path, lines, []) == Project(decode, path, lines + 1, Records(Flatten([])))
  {
  }

  lemma {:induction false} SlicesProjectAsOne(decode: RowDecoder, path: Path, lines: nat, slices: seq<Bytes>)
    requires CutAtRecords(slices)
    ensures SliceEvents(decode, path, lines, slices) == Project(decode, path, lines + 1, Records(Flatten(slices)))
  {
    hide Project, Records, LineCount, SliceEvents, Flatten, SliceLines, AtBoundary, Both;
    if slices == [] {
      NoSlices(decode, path, lines);
    } else {
      var front, last := slices[..|slices|-1], slices[|slices|-1];
      assert slices == front + [last];
      SlicesProjectAsOne(decode, path, lines, front);
      FlattenAtBoundary(front);
      SliceLinesAddUp(front);
      SliceEventsStep(decode, path, lines, front, last);
      RecordsConcat(Flatten(front), last);
      ProjectConcat(decode, path, lines + 1, Records(Flatten(front)), Records(last));
    }
  }

  /** Slicing independence: however drains cut a file at record ends, the line
      counter is the true number of lines read, and the events are those of
      projecting everything after the baseline at once. */
  lemma SlicingIndependence(decode: RowDecoder, path: Path, t: Tail)
    requires AtBoundary(t.base) && CutAtRecords(t.slices)
    ensures LinesRead(t) == LineCount(Consumed(t))
    ensures Stream(decode, path, t) ==
            Project(decode, path, LineCount(t.base) + 1, Records(Consumed(t)[|t.base|..]))
  {
    SliceLinesAddUp(t.slices);
    SlicedLineCount(t.base, Flatten(t.slices));
    SlicesProjectAsOne(decode, path, NewlineCount(t.base), t.slices);
    assert Consumed(t)[|t.base|..] == Flatten(t.slices);
  }

  /** How many slices with text in them start inside a record. */
  function Overcount(slices: seq<Bytes>): nat {
    if slices == [] then 0
    else
      var front := slices[..|slices|-1];
      Overcount(front) + if AtBoundary(Flatten(front)) || slices[|slices|-1] == [] then 0 else 1
  }

  ghost predicate NoneTorn(slices: seq<Bytes>) {
    forall i | 0 <= i < |slices| :: slices[i] == [] || AtBoundary(Flatten(slices[..i]))
  }

  lemma {:induction false} SliceLinesOvercount(slices: seq<Bytes>)
    ensures SliceLines(slices) == LineCount(Flatten(slices)) + Overcount(slices)
    ensures Overcount(slices) == 0 <==> NoneTorn(slices)
  {
    if slices != [] {
      var front, last := slices[..|slices|-1], slices[|slices|-1];
      SliceLinesOvercount(front);
      SlicedLineCount(Flatten(front), last);
      assert forall i | 0 <= i < |front| :: front[..i] == slices[..i];
    }
  }

  /** Without the condition above, the line counter is ahead of the true number of
      lines by one for every slice with text in it that starts inside a record; so it
      is right exactly when there is no such slice. */
  lemma TornSlicesMiscount(t: Tail)
    requires AtBoundary(t.base)
    ensures LinesRead(t) == LineCount(Consumed(t)) + Overcount(t.slices)
    ensures LinesRead(t) == LineCount(Consumed(t)) <==> NoneTorn(t.slices)
  {
    SliceLinesOvercount(t.slices);
    SlicedLineCount(t.base, Flatten(t.slices));
  }

  /** If the workload finishes a record that was already consumed without its
      newline, the next drain refuses the file. */
  lemma {:induction false} LateNewlineIsRefused(decode: RowDecoder, path: Path, line: nat, slice: Bytes)
    requires slice != [] && slice[0] == NEWLINE
    ensures Project(decode, path, line, Records(slice)).None?
  {
    assert slice == [NEWLINE] + slice[1..];
    RecordsOfLine([]);
    assert [] + [NEWLINE] == [NEWLINE];
    RecordsConcat([NEWLINE], slice[1..]);
    ProjectFails(decode, path, line, Records(slice), 0);
  }
}

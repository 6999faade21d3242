/** History text as the collector sees it: newline-terminated records, with at
    most one unterminated record at the end. */
module SourceText {

  type Bytes = seq<char>

  const NEWLINE := '\n'

  /** `bytes.Count(raw, "\n")`. */
  function NewlineCount(raw: Bytes): nat {
    if raw == [] then 0
    else NewlineCount(raw[..|raw|-1]) + if raw[|raw|-1] == NEWLINE then 1 else 0
  }

  /** A place where text may be cut without splitting a record. */
  predicate AtBoundary(raw: Bytes) {
    raw == [] || raw[|raw|-1] == NEWLINE
  }

  /** `sourceLineCount`: newlines, plus one for an unterminated last record. */
  function LineCount(raw: Bytes): nat {
    NewlineCount(raw) + if AtBoundary(raw) then 0 else 1
  }

  /** What a drain that leaves trailing records alone reads: everything up to
      and including the last newline. */
  function CompletePart(raw: Bytes): (r: Bytes)
    ensures r <= raw && AtBoundary(r)
    ensures NEWLINE !in raw[|r|..]
  {
    if AtBoundary(raw) then raw
    else
      var front := raw[..|raw|-1];
      var r := CompletePart(front);
      assert raw[|r|..] == front[|r|..] + [raw[|raw|-1]];
      r
  }

  /** One more byte of text: it opens a record, closes one, or extends one. */
  function Feed(rs: seq<Bytes>, opens: bool, c: char): (r: seq<Bytes>)
    requires opens || rs != []
    ensures |r| == |rs| + if opens then 1 else 0
  {
    if opens then rs + [if c == NEWLINE then [] else [c]]
    else if c == NEWLINE then rs
    else rs[..|rs|-1] + [rs[|rs|-1] + [c]]
  }

  /** The records `project` visits: the pieces between newlines, without the
      empty piece that follows a final newline. */
  function Records(raw: Bytes): (rs: seq<Bytes>)
    ensures |rs| == LineCount(raw)
  {
    if raw == [] then []
    else Feed(Records(raw[..|raw|-1]), AtBoundary(raw[..|raw|-1]), raw[|raw|-1])
  }

  /** Records written back, each with its newline. */
  function Terminated(rs: seq<Bytes>): Bytes {
    if rs == [] then [] else Terminated(rs[..|rs|-1]) + rs[|rs|-1] + [NEWLINE]
  }

  /** The same, but the last record is left without its newline. */
  function OpenText(rs: seq<Bytes>): Bytes
    requires rs != []
  {
    Terminated(rs[..|rs|-1]) + rs[|rs|-1]
  }

  ghost predicate NewlineFree(rs: seq<Bytes>) {
    forall i | 0 <= i < |rs| :: NEWLINE !in rs[i]
  }

  lemma FeedKeepsEarlier(done: seq<Bytes>, rs: seq<Bytes>, opens: bool, c: char)
    requires opens || rs != []
    ensures Feed(done + rs, opens, c) == done + Feed(rs, opens, c)
  {
    if !opens {
      assert (done + rs)[..|done + rs|-1] == done + rs[..|rs|-1];
    }
  }

  lemma FeedCarriesByte(rs: seq<Bytes>, opens: bool, c: char)
    requires opens || rs != []
    ensures opens && c == NEWLINE ==> Terminated(Feed(rs, opens, c)) == Terminated(rs) + [c]
    ensures opens && c != NEWLINE ==> OpenText(Feed(rs, opens, c)) == Terminated(rs) + [c]
    ensures !opens && c != NEWLINE ==> OpenText(Feed(rs, opens, c)) == OpenText(rs) + [c]
  {
    var fed := Feed(rs, opens, c);
    if opens {
      assert fed[..|fed|-1] == rs;
    } else if c != NEWLINE {
      assert fed[..|fed|-1] == rs[..|rs|-1];
    }
  }

  lemma {:induction false} RecordsAreNewlineFree(raw: Bytes)
    ensures NewlineFree(Records(raw))
  {
    if raw != [] {
      RecordsAreNewlineFree(raw[..|raw|-1]);
    }
  }

  /** Records carry exactly the text: writing them back gives it again, the
      last one without a newline when the text had none there. */
  lemma {:induction false} RecordsCarryText(raw: Bytes)
    ensures AtBoundary(raw) ==> Terminated(Records(raw)) == raw
    ensures !AtBoundary(raw) ==> OpenText(Records(raw)) == raw
  {
    if raw != [] {
      var front, last := raw[..|raw|-1], raw[|raw|-1];
      RecordsCarryText(front);
      FeedCarriesByte(Records(front), AtBoundary(front), last);
      assert raw == front + [last];
    }
  }

  lemma {:induction false} NewlineCountConcat(a: Bytes, b: Bytes)
    ensures NewlineCount(a + b) == NewlineCount(a) + NewlineCount(b)
  {
    if b == [] {
      assert a + b == a;
    } else {
      assert (a + b)[..|a + b|-1] == a + b[..|b|-1];
      NewlineCountConcat(a, b[..|b|-1]);
    }
  }

  /** Cutting text at a record boundary splits its records in two. */
  lemma {:induction false} RecordsConcat(a: Bytes, b: Bytes)
    requires AtBoundary(a)
    ensures Records(a + b) == Records(a) + Records(b)
  {
    if b == [] {
      assert a + b == a;
    } else {
      var front := b[..|b|-1];
      assert (a + b)[..|a + b|-1] == a + front;
      RecordsConcat(a, front);
      assert AtBoundary(a + front) <==> AtBoundary(front);
      FeedKeepsEarlier(Records(a), Records(front), AtBoundary(front), b[|b|-1]);
    }
  }

  /** Line counters of two consecutive slices add up exactly when the cut is at
      a boundary or one of the slices is empty; a cut inside a record counts
      that record twice. */
  lemma SlicedLineCount(a: Bytes, b: Bytes)
    ensures LineCount(a) + LineCount(b) == LineCount(a + b) <==> AtBoundary(a) || b == []
    ensures LineCount(a + b) <= LineCount(a) + LineCount(b) <= LineCount(a + b) + 1
  {
    NewlineCountConcat(a, b);
    if b == [] {
      assert a + b == a;
    }
  }

  lemma {:induction false} TerminatedConcat(a: seq<Bytes>, b: seq<Bytes>)
    ensures Terminated(a + b) == Terminated(a) + Terminated(b)
  {
    if b == [] {
      assert a + b == a;
    } else {
      assert (a + b)[..|a + b|-1] == a + b[..|b|-1];
      TerminatedConcat(a, b[..|b|-1]);
    }
  }

  /** Adding one newline-free line to a finished text adds one record. */
  lemma {:induction false} RecordsOfLine(line: Bytes)
    requires NEWLINE !in line
    ensures line != [] ==> Records(line) == [line]
    ensures Records(line + [NEWLINE]) == [line]
  {
    assert (line + [NEWLINE])[..|line|] == line;
    if line != [] {
      RecordsOfLine(line[..|line|-1]);
      assert line == line[..|line|-1] + [line[|line|-1]];
    }
  }

  lemma TerminatedStep(rs: seq<Bytes>)
    ensures rs == [] ==> Terminated(rs) == [] && Records([]) == []
    ensures rs != [] ==> Terminated(rs) == Terminated(rs[..|rs|-1]) + (rs[|rs|-1] + [NEWLINE])
  {
    if rs != [] {
      var front, last := rs[..|rs|-1], rs[|rs|-1];
      assert Terminated(front) + last + [NEWLINE] == Terminated(front) + (last + [NEWLINE]);
    }
  }

  /** Reading back newline-free lines gives the same lines, in order. */
  lemma {:induction false} RecordsOfTerminated(rs: seq<Bytes>)
    requires NewlineFree(rs)
    ensures AtBoundary(Terminated(rs))
    ensures Records(Terminated(rs)) == rs
  {
    hide Records, Terminated;
    TerminatedStep(rs);
    if rs != [] {
      var front, last := rs[..|rs|-1], rs[|rs|-1];
      RecordsOfTerminated(front);
      RecordsOfLine(last);
      RecordsConcat(Terminated(front), last + [NEWLINE]);
    }
  }
}

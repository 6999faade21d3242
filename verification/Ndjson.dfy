/** The canonical chunk payload: one encoded event a line. The encoder, the
    JSON parser and the UTC normalisation of timestamps are arbitrary functions
    that satisfy `Lawful`; everything below holds for all of them. */
module Ndjson {
  import opened SourceText
  import opened Wrappers

  datatype Codec<!E> = Codec(
    encode: E -> Option<Bytes>,  // one line without its newline; None when the event is invalid
    parse: Bytes -> Option<E>,   // strict decoding followed by validation
    normal: E -> E)              // timestamps moved to UTC

  /** What the telemetry library promises of its codec. */
  ghost predicate Lawful<E(!new)>(c: Codec<E>) {
    forall e | c.encode(e).Some? ::
      && c.encode(e).value != []
      && NEWLINE !in c.encode(e).value
      && c.parse(c.encode(e).value) == Some(c.normal(e))
      && c.encode(c.normal(e)) == c.encode(e)
  }

  /** The lines of a chunk, or nothing when some event cannot be encoded. */
  function EncodeLines<E>(c: Codec<E>, es: seq<E>): Option<seq<Bytes>> {
    if es == [] then Some([])
    else
      var front, last := EncodeLines(c, es[..|es|-1]), c.encode(es[|es|-1]);
      if front.Some? && last.Some? then Some(front.value + [last.value]) else None
  }

  function EncodeAll<E>(c: Codec<E>, es: seq<E>): Option<Bytes> {
    var lines := EncodeLines(c, es);
    if lines.Some? then Some(Terminated(lines.value)) else None
  }

  /** One line of a chunk: it must parse, and be what the encoder writes. */
  function DecodeLine<E>(c: Codec<E>, line: Bytes): Option<E> {
    if line == [] then None
    else
      var e := c.parse(line);
      if e.Some? && c.encode(e.value) == Some(line) then e else None
  }

  function DecodeLines<E>(c: Codec<E>, lines: seq<Bytes>): (es: Option<seq<E>>)
    ensures es.Some? ==> |es.value| == |lines|
  {
    if lines == [] then Some([])
    else
      var front, last := DecodeLines(c, lines[..|lines|-1]), DecodeLine(c, lines[|lines|-1]);
      if front.Some? && last.Some? then Some(front.value + [last.value]) else None
  }

  function Decode<E>(c: Codec<E>, raw: Bytes): Option<seq<E>> {
    if raw == [] || raw[|raw|-1] != NEWLINE then None else DecodeLines(c, Records(raw))
  }

  lemma {:induction false} DecodeLinesFails<E>(c: Codec<E>, lines: seq<Bytes>, k: nat)
    requires k < |lines| && DecodeLine(c, lines[k]).None?
    ensures DecodeLines(c, lines).None?
  {
    if k < |lines| - 1 {
      DecodeLinesFails(c, lines[..|lines|-1], k);
    }
  }

  /** `decodeCanonicalEvents`: read line by line, refusing the first bad one. */
  method DecodeCanonicalEvents<E>(c: Codec<E>, raw: Bytes) returns (events: Option<seq<E>>)
    ensures events == Decode(c, raw)
  {
    if raw == [] || raw[|raw|-1] != NEWLINE {
      return None;
    }
    var lines := Records(raw);
    var out: seq<E> := [];
    for i := 0 to |lines|
      invariant DecodeLines(c, lines[..i]) == Some(out)
    {
      assert lines[..i + 1][..i] == lines[..i];
      var event := DecodeLine(c, lines[i]);
      if event.None? {
        DecodeLinesFails(c, lines, i);
        return None;
      }
      out := out + [event.value];
    }
    assert lines[..|lines|] == lines;
    return Some(out);
  }

  function NormalAll<E>(c: Codec<E>, es: seq<E>): seq<E> {
    seq(|es|, i requires 0 <= i < |es| => c.normal(es[i]))
  }

  lemma {:induction false} LinesRoundTrip<E(!new)>(c: Codec<E>, es: seq<E>)
    requires Lawful(c) && EncodeLines(c, es).Some?
    ensures NewlineFree(EncodeLines(c, es).value)
    ensures DecodeLines(c, EncodeLines(c, es).value) == Some(NormalAll(c, es))
  {
    var lines := EncodeLines(c, es).value;
    if es != [] {
      var front := es[..|es|-1];
      LinesRoundTrip(c, front);
      assert lines[..|lines|-1] == EncodeLines(c, front).value;
      assert NormalAll(c, es) == NormalAll(c, front) + [c.normal(es[|es|-1])];
    }
  }

  /** Reading back an encoded chunk gives its events, UTC-normalised, in the
      same order and number. */
  lemma RoundTrip<E(!new)>(c: Codec<E>, es: seq<E>)
    requires Lawful(c) && es != [] && EncodeAll(c, es).Some?
    ensures Decode(c, EncodeAll(c, es).value) == Some(NormalAll(c, es))
  {
    LinesRoundTrip(c, es);
    RecordsOfTerminated(EncodeLines(c, es).value);
  }

  lemma {:induction false} DecodedLinesReencode<E>(c: Codec<E>, lines: seq<Bytes>)
    requires DecodeLines(c, lines).Some?
    ensures EncodeLines(c, DecodeLines(c, lines).value) == Some(lines)
  {
    if lines != [] {
      var front := lines[..|lines|-1];
      DecodedLinesReencode(c, front);
      var es := DecodeLines(c, lines).value;
      assert es[..|es|-1] == DecodeLines(c, front).value;
      assert lines == front + [lines[|lines|-1]];
    }
  }

  /** Only canonical bytes are accepted: what decodes is exactly what encoding
      the decoded events writes. */
  lemma DecodedIsCanonical<E>(c: Codec<E>, raw: Bytes)
    requires Decode(c, raw).Some?
    ensures Decode(c, raw).value != []
    ensures EncodeAll(c, Decode(c, raw).value) == Some(raw)
  {
    DecodedLinesReencode(c, Records(raw));
    RecordsCarryText(raw);
  }

  /** Payload bytes and event sequences determine each other, so a digest of the
      bytes is a digest of the (normalised) events. */
  lemma PayloadDeterminesEvents<E(!new)>(c: Codec<E>, xs: seq<E>, ys: seq<E>)
    requires Lawful(c) && xs != [] && ys != []
    requires EncodeAll(c, xs).Some? && EncodeAll(c, ys).Some?
    ensures EncodeAll(c, xs) == EncodeAll(c, ys) <==> NormalAll(c, xs) == NormalAll(c, ys)
  {
    RoundTrip(c, xs);
    RoundTrip(c, ys);
    DecodedIsCanonical(c, EncodeAll(c, xs).value);
    DecodedIsCanonical(c, EncodeAll(c, ys).value);
  }
}

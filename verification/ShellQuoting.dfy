/** Shell quoting (`shellQuote`, `shellJoin`) against the token and quoting rules
    of the POSIX Shell Command Language, sections 2.2.1 to 2.2.3 and 2.3. */
module ShellQuoting {
  import opened Wrappers

  // -------------------------------------------------------------------- the writer

  /** What counts as a letter or digit beyond ASCII is left open. */
  type Wide = char -> bool

  predicate IsSafe(wide: Wide, c: char) {
    || 'a' <= c <= 'z' || 'A' <= c <= 'Z' || '0' <= c <= '9'
    || c in "-_./:=,@+"
    || (c as int >= 0x80 && wide(c))
  }

  predicate AllSafe(wide: Wide, s: string) {
    forall i | 0 <= i < |s| :: IsSafe(wide, s[i])
  }

  /** `strings.ReplaceAll(s, "'", escape)`. */
  function ReplaceQuotes(s: string, escape: string): string {
    if s == "" then "" else (if s[0] == '\'' then escape else [s[0]]) + ReplaceQuotes(s[1..], escape)
  }

  const CLOSE_ESCAPE_OPEN := "'\\''"
  const CLOSE_DOUBLE_OPEN := "'\"'\"'"

  /** `shellQuote` of the launch metadata. */
  function ShellQuote(wide: Wide, s: string): string {
    if s == "" then "''"
    else if AllSafe(wide, s) then s
    else "'" + ReplaceQuotes(s, CLOSE_ESCAPE_OPEN) + "'"
  }

  /** `shellQuote` of the embedded scripts: always quoted, and a quote inside is
      written between double quotes. */
  function ScriptQuote(s: string): string {
    "'" + ReplaceQuotes(s, CLOSE_DOUBLE_OPEN) + "'"
  }

  function ShellJoin(wide: Wide, args: seq<string>): string {
    if args == [] then ""
    else if |args| == 1 then ShellQuote(wide, args[0])
    else ShellQuote(wide, args[0]) + (" " + ShellJoin(wide, args[1..]))
  }

  // -------------------------------------------------------------------- the reader

  datatype Mode = Between | InWord | Escaped(started: bool) | Single | Double | DoubleEscaped

  /** Characters that mean something to the shell outside quotes. */
  predicate IsSpecial(c: char) {
    c in "|&;<>()$`*?[]#~%!{}\n"
  }

  /** Token recognition and quote removal. An unquoted special character, an
      expansion inside double quotes, or an open quote at the end makes the
      input something else than a list of plain words: None. */
  function Scan(s: string, mode: Mode, word: string, words: seq<string>): Option<seq<string>>
    decreases |s|
  {
    if s == "" then
      match mode
      case Between => Some(words)
      case InWord => Some(words + [word])
      case _ => None
    else
      var c, rest := s[0], s[1..];
      match mode
      case Single =>
        if c == '\'' then Scan(rest, InWord, word, words) else Scan(rest, Single, word + [c], words)
      case Escaped(started) =>
        if c == '\n' then Scan(rest, if started then InWord else Between, word, words)
        else Scan(rest, InWord, word + [c], words)
      case Double =>
        if c == '"' then Scan(rest, InWord, word, words)
        else if c == '$' || c == '`' then None
        else if c == '\\' then Scan(rest, DoubleEscaped, word, words)
        else Scan(rest, Double, word + [c], words)
      case DoubleEscaped =>
        if c == '\n' then Scan(rest, Double, word, words)
        else if c in "$`\"\\" then Scan(rest, Double, word + [c], words)
        else Scan(rest, Double, word + ['\\', c], words)
      case _ =>
        if c == ' ' || c == '\t' then
          Scan(rest, Between, "", if mode == InWord then words + [word] else words)
        else if c == '\'' then Scan(rest, Single, word, words)
        else if c == '"' then Scan(rest, Double, word, words)
        else if c == '\\' then Scan(rest, Escaped(mode == InWord), word, words)
        else if IsSpecial(c) then None
        else Scan(rest, InWord, word + [c], words)
  }

  /** The words a shell makes of a command line. */
  function Words(line: string): Option<seq<string>> {
    Scan(line, Between, "", [])
  }

  // ------------------------------------------------------------------- round trip

  lemma SafeIsPlain(wide: Wide, c: char)
    requires IsSafe(wide, c)
    ensures c != ' ' && c != '\t' && c != '\'' && c != '"' && c != '\\' && !IsSpecial(c)
  {
  }

  lemma {:induction false} ScanSafe(wide: Wide, s: string, rest: string, mode: Mode, word: string, words: seq<string>)
    requires AllSafe(wide, s) && s != "" && (mode == InWord || mode == Between)
    ensures Scan(s + rest, mode, word, words) == Scan(rest, InWord, word + s, words)
    decreases |s|
  {
    SafeIsPlain(wide, s[0]);
    assert (s + rest)[1..] == s[1..] + rest;
    if |s| == 1 {
      assert s[1..] + rest == rest && word + [s[0]] == word + s;
    } else {
      ScanSafe(wide, s[1..], rest, InWord, word + [s[0]], words);
      assert word + [s[0]] + s[1..] == word + s;
    }
  }

  /** Closing the quote, writing one quote, and opening it again. */
  lemma ScanEscapedQuote(rest: string, word: string, words: seq<string>)
    ensures Scan(CLOSE_ESCAPE_OPEN + rest, Single, word, words) == Scan(rest, Single, word + "'", words)
  {
    var s := CLOSE_ESCAPE_OPEN + rest;
    assert s[1..] == "\\''" + rest;
    assert s[1..][1..] == "''" + rest;
    assert s[1..][1..][1..] == "'" + rest;
    assert s[1..][1..][1..][1..] == rest;
    assert Scan("'" + rest, InWord, word + "'", words) == Scan(rest, Single, word + "'", words);
    assert Scan("''" + rest, Escaped(true), word, words) == Scan("'" + rest, InWord, word + ['\''], words);
    assert Scan("\\''" + rest, InWord, word, words) == Scan("''" + rest, Escaped(true), word, words);
  }

  lemma ScanDoubleQuotedQuote(rest: string, word: string, words: seq<string>)
    ensures Scan(CLOSE_DOUBLE_OPEN + rest, Single, word, words) == Scan(rest, Single, word + "'", words)
  {
    var s := CLOSE_DOUBLE_OPEN + rest;
    var t1, t2, t3, t4 := "\"'\"'" + rest, "'\"'" + rest, "\"'" + rest, "'" + rest;
    assert s[1..] == t1;
    assert t1[1..] == t2;
    assert t2[1..] == t3;
    assert t3[1..] == t4;
    assert t4[1..] == rest;
    assert Scan(t4, InWord, word + "'", words) == Scan(rest, Single, word + "'", words);
    assert Scan(t3, Double, word + "'", words) == Scan(t4, InWord, word + "'", words);
    assert Scan(t2, Double, word, words) == Scan(t3, Double, word + ['\''], words);
    assert Scan(t1, InWord, word, words) == Scan(t2, Double, word, words);
  }

  lemma {:induction false} ScanQuoted(escape: string, s: string, rest: string, word: string, words: seq<string>)
    requires escape == CLOSE_ESCAPE_OPEN || escape == CLOSE_DOUBLE_OPEN
    ensures Scan(ReplaceQuotes(s, escape) + "'" + rest, Single, word, words) == Scan(rest, InWord, word + s, words)
    decreases |s|
  {
    if s == "" {
      assert ReplaceQuotes(s, escape) + "'" + rest == "'" + rest;
      assert ("'" + rest)[1..] == rest && word + s == word;
    } else {
      var head := if s[0] == '\'' then escape else [s[0]];
      var after := ReplaceQuotes(s[1..], escape) + "'" + rest;
      assert ReplaceQuotes(s, escape) + "'" + rest == head + after;
      assert word + [s[0]] + s[1..] == word + s;
      ScanQuoted(escape, s[1..], rest, word + [s[0]], words);
      if s[0] == '\'' {
        if escape == CLOSE_ESCAPE_OPEN {
          ScanEscapedQuote(after, word, words);
        } else {
          ScanDoubleQuotedQuote(after, word, words);
        }
        assert word + "'" == word + [s[0]];
      } else {
        assert (head + after)[1..] == after;
      }
    }
  }

  lemma ScanWrapped(escape: string, s: string, rest: string, words: seq<string>)
    requires escape == CLOSE_ESCAPE_OPEN || escape == CLOSE_DOUBLE_OPEN
    ensures Scan("'" + ReplaceQuotes(s, escape) + "'" + rest, Between, "", words) == Scan(rest, InWord, s, words)
  {
    var inner := ReplaceQuotes(s, escape) + "'" + rest;
    assert "'" + ReplaceQuotes(s, escape) + "'" + rest == "'" + inner;
    assert ("'" + inner)[1..] == inner;
    ScanQuoted(escape, s, rest, "", words);
    assert "" + s == s;
  }

  /** A quoted argument reads back as itself, whatever follows it. */
  lemma ScanShellQuote(wide: Wide, s: string, rest: string, words: seq<string>)
    ensures Scan(ShellQuote(wide, s) + rest, Between, "", words) == Scan(rest, InWord, s, words)
  {
    if s == "" {
      ScanWrapped(CLOSE_ESCAPE_OPEN, "", rest, words);
      assert "'" + ReplaceQuotes("", CLOSE_ESCAPE_OPEN) + "'" == "''";
    } else if AllSafe(wide, s) {
      ScanSafe(wide, s, rest, Between, "", words);
      assert "" + s == s;
    } else {
      ScanWrapped(CLOSE_ESCAPE_OPEN, s, rest, words);
    }
  }

  lemma ScanEnds(word: string, words: seq<string>)
    ensures Scan("", InWord, word, words) == Some(words + [word])
    ensures Scan("", Between, word, words) == Some(words)
  {
  }

  /** An unquoted space ends the word. */
  lemma ScanSpace(rest: string, word: string, words: seq<string>)
    ensures Scan(" " + rest, InWord, word, words) == Scan(rest, Between, "", words + [word])
  {
    assert (" " + rest)[1..] == rest;
  }

  lemma {:induction false} ScanJoined(wide: Wide, args: seq<string>, words: seq<string>)
    ensures Scan(ShellJoin(wide, args), Between, "", words) == Some(words + args)
    decreases |args|
  {
    hide Scan, ShellQuote;
    if args == [] {
      ScanEnds("", words);
      assert words + args == words;
    } else if |args| == 1 {
      ScanShellQuote(wide, args[0], "", words);
      assert ShellQuote(wide, args[0]) + "" == ShellJoin(wide, args);
      ScanEnds(args[0], words);
      assert args == [args[0]];
    } else {
      var rest := ShellJoin(wide, args[1..]);
      ScanShellQuote(wide, args[0], " " + rest, words);
      ScanSpace(rest, args[0], words);
      ScanJoined(wide, args[1..], words + [args[0]]);
      assert words + args == words + [args[0]] + args[1..];
    }
  }

  /** The shell reads a joined command line as exactly the arguments it was made
      of: every list of arguments, empty ones included, and no expansion. */
  lemma JoinedLineReadsBack(wide: Wide, args: seq<string>)
    ensures Words(ShellJoin(wide, args)) == Some(args)
  {
    ScanJoined(wide, args, []);
    assert [] + args == args;
  }

  /** The other spelling of a quoted string reads back as the same string. */
  lemma ScriptQuoteReadsBack(s: string)
    ensures Words(ScriptQuote(s)) == Some([s])
  {
    hide Scan, ReplaceQuotes;
    ScanWrapped(CLOSE_DOUBLE_OPEN, s, "", []);
    assert ScriptQuote(s) + "" == ScriptQuote(s);
    ScanEnds(s, []);
    assert [] + [s] == [s];
  }
}

/** File names in a staged publication: which staged entries the script visits,
    and which names it makes up for itself. */
module PublicationNames {

  const COMPLETION_MARKER := ".tau-artifacts-complete"
  const GENERATIONS_DIR := ".tau-artifacts"
  const TEMP_PREFIX := ".tau-publish-"
  const MARKER_TEMP_PREFIX := ".tau-artifacts-complete.tmp."

  /** The shell patterns `*`, `.[!.]*` and `..?*` of the publication loop; a
      leading dot must be matched by a dot in the pattern. */
  predicate MatchesPlain(name: string) { |name| >= 1 && name[0] != '.' }
  predicate MatchesDot(name: string) { |name| >= 2 && name[0] == '.' && name[1] != '.' }
  predicate MatchesDotDot(name: string) { |name| >= 3 && name[0] == '.' && name[1] == '.' }

  function Matches(name: string): nat {
    (if MatchesPlain(name) then 1 else 0) + (if MatchesDot(name) then 1 else 0) + (if MatchesDotDot(name) then 1 else 0)
  }

  /** Every directory entry but `.` and `..` is visited, and exactly once. */
  lemma EveryEntryVisitedOnce(name: string)
    requires name != ""
    ensures Matches(name) == if name == "." || name == ".." then 0 else 1
  {
    if |name| == 1 {
      assert name == [name[0]];
    } else if |name| == 2 {
      assert name == [name[0], name[1]];
    }
  }

  /** `$(basename …)`: command substitution drops trailing newlines. */
  function DestName(name: string): (d: string)
    ensures d <= name
    ensures d == name <==> (name == "" || name[|name|-1] != '\n')
  {
    if name == "" || name[|name|-1] != '\n' then name else DestName(name[..|name|-1])
  }

  function TempName(dest: string, pid: string): string {
    TEMP_PREFIX + dest + "." + pid
  }

  function MarkerTempName(pid: string): string {
    MARKER_TEMP_PREFIX + pid
  }

  predicate Reserved(dest: string) {
    dest == COMPLETION_MARKER || dest == GENERATIONS_DIR
  }

  lemma SuffixAfterLastDot(a: string, p: string, b: string, q: string)
    requires '.' !in p && '.' !in q && a + "." + p == b + "." + q
    ensures a == b && p == q
  {
    var s := a + "." + p;
    assert s[|a|] == '.' && s[|b|] == '.';
    assert s[..|a|] == a && s[..|b|] == b && s[|a| + 1..] == p && s[|b| + 1..] == q;
  }

  /** Process ids without dots make temporary names distinct: equal names mean
      the same process and the same destination. */
  lemma TempNamesDistinct(d1: string, p1: string, d2: string, p2: string)
    requires '.' !in p1 && '.' !in p2
    ensures TempName(d1, p1) == TempName(d2, p2) <==> d1 == d2 && p1 == p2
    ensures MarkerTempName(p1) == MarkerTempName(p2) <==> p1 == p2
    ensures TempName(d1, p1) != MarkerTempName(p2)
    ensures TempName(d1, p1) != COMPLETION_MARKER && MarkerTempName(p1) != COMPLETION_MARKER
  {
    if TempName(d1, p1) == TempName(d2, p2) {
      SuffixAfterLastDot(TEMP_PREFIX + d1, p1, TEMP_PREFIX + d2, p2);
      assert (TEMP_PREFIX + d1)[|TEMP_PREFIX|..] == d1 && (TEMP_PREFIX + d2)[|TEMP_PREFIX|..] == d2;
    }
    if MarkerTempName(p1) == MarkerTempName(p2) {
      assert MarkerTempName(p1)[|MARKER_TEMP_PREFIX|..] == p1 && MarkerTempName(p2)[|MARKER_TEMP_PREFIX|..] == p2;
    }
    assert TempName(d1, p1)[5] == 'p' && MarkerTempName(p2)[5] == 'a' && COMPLETION_MARKER[5] == 'a';
  }
}

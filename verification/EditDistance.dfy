/** The edit distance behind "did you mean" suggestions
    (`levenshtein`, `suggestFieldPath`). */
module EditDistance {
  import opened Wrappers

  function Min3(a: nat, b: nat, c: nat): nat {
    var ab := if b < a then b else a;
    if c < ab then c else ab
  }

  function SubstitutionCost(x: char, y: char): nat {
    if x == y then 0 else 1
  }

  /** The recurrence the table is filled from. */
  function Distance(a: string, b: string): nat
    decreases |a| + |b|
  {
    if a == [] then |b|
    else if b == [] then |a|
    else
      var a', b' := a[..|a|-1], b[..|b|-1];
      Min3(Distance(a, b') + 1, Distance(a', b) + 1,
        Distance(a', b') + SubstitutionCost(a[|a|-1], b[|b|-1]))
  }

  // ------------------------------------------------------------ the two-row loop

  lemma {:induction false} DistanceUnfolds(a: string, b: string)
    requires a != [] && b != []
    ensures Distance(a, b) ==
            Min3(Distance(a, b[..|b|-1]) + 1, Distance(a[..|a|-1], b) + 1,
              Distance(a[..|a|-1], b[..|b|-1]) + SubstitutionCost(a[|a|-1], b[|b|-1]))
  {
  }

  lemma {:induction false} DistanceStep(a: string, b: string, i: nat, j: nat)
    requires 1 <= i <= |a| && 1 <= j <= |b|
    ensures Distance(a[..i], b[..j]) ==
            Min3(Distance(a[..i], b[..j - 1]) + 1, Distance(a[..i - 1], b[..j]) + 1,
              Distance(a[..i - 1], b[..j - 1]) + SubstitutionCost(a[i - 1], b[j - 1]))
  {
    hide Distance, Min3, SubstitutionCost;
    DistanceUnfolds(a[..i], b[..j]);
    assert a[..i][..i - 1] == a[..i - 1] && b[..j][..j - 1] == b[..j - 1];
  }

  lemma {:induction false} DistanceBorders(a: string, b: string)
    ensures forall j | 0 <= j <= |b| :: Distance(a[..0], b[..j]) == j
    ensures forall i | 0 <= i <= |a| :: Distance(a[..i], b[..0]) == i
    ensures Distance(a[..|a|], b[..|b|]) == Distance(a, b)
    ensures a == [] ==> Distance(a, b) == |b|
    ensures b == [] ==> Distance(a, b) == |a|
  {
    assert a[..|a|] == a && b[..|b|] == b;
  }

  /** `levenshtein`: two rows, swapped after each one. */
  method Levenshtein(a: string, b: string) returns (d: int)
    ensures d == Distance(a, b)
  {
    hide Distance, Min3, SubstitutionCost;
    DistanceBorders(a, b);
    if |a| == 0 {
      return |b|;
    }
    if |b| == 0 {
      return |a|;
    }
    var prev, curr := new int[|b| + 1], new int[|b| + 1];
    for j := 0 to |b| + 1
      invariant forall l | 0 <= l < j :: prev[l] == l
    {
      prev[j] := j;
    }
    for i := 1 to |a| + 1
      invariant prev != curr && prev.Length == |b| + 1 && curr.Length == |b| + 1
      invariant fresh(prev) && fresh(curr)
      invariant forall l | 0 <= l <= |b| :: prev[l] == Distance(a[..i - 1], b[..l])
    {
      curr[0] := i;
      for j := 1 to |b| + 1
        invariant forall l | 0 <= l <= |b| :: prev[l] == Distance(a[..i - 1], b[..l])
        invariant forall l | 0 <= l < j :: curr[l] == Distance(a[..i], b[..l])
      {
        DistanceStep(a, b, i, j);
        curr[j] := Min3(curr[j - 1] + 1, prev[j] + 1, prev[j - 1] + SubstitutionCost(a[i - 1], b[j - 1]));
      }
      prev, curr := curr, prev;
    }
    return prev[|b|];
  }

  // ---------------------------------------------------- what the number means

  /** One step of turning a string into another, from left to right. */
  datatype Edit = Keep | Replace(c: char) | Delete | Insert(c: char)

  function Cost(script: seq<Edit>): nat {
    if script == [] then 0
    else Cost(script[..|script|-1]) + if script[|script|-1].Keep? then 0 else 1
  }

  /** What an edit writes, given the letter it uses up. */
  function Written(e: Edit, x: char): string {
    match e
    case Keep => [x]
    case Replace(c) => [c]
    case Delete => []
    case Insert(c) => [c]
  }

  /** What the script turns `a` into, if it uses up exactly the letters of `a`. */
  function Edited(a: string, script: seq<Edit>): Option<string>
    decreases |script|
  {
    if script == [] then (if a == [] then Some([]) else None)
    else
      var front, last := script[..|script|-1], script[|script|-1];
      if last.Insert? then Both(Edited(a, front), Some([last.c]))
      else if a == [] then None
      else Both(Edited(a[..|a|-1], front), Some(Written(last, a[|a|-1])))
  }

  /** No script is cheaper than the distance. */
  lemma {:induction false} DistanceIsLowerBound(a: string, b: string, script: seq<Edit>)
    requires Edited(a, script) == Some(b)
    ensures Distance(a, b) <= Cost(script)
    decreases |script|
  {
    if script != [] {
      var front, last := script[..|script|-1], script[|script|-1];
      if last.Insert? {
        assert b[..|b|-1] == Edited(a, front).value;
        DistanceIsLowerBound(a, b[..|b|-1], front);
        InsertionCostsOne(a, b);
      } else {
        var r := Edited(a[..|a|-1], front).value;
        DistanceIsLowerBound(a[..|a|-1], r, front);
        DeletionCostsOne(a, b);
        assert last.Delete? ==> b == r;
        assert !last.Delete? ==> b[..|b|-1] == r;
      }
    }
  }

  lemma DeletionCostsOne(a: string, b: string)
    requires a != []
    ensures Distance(a, b) <= Distance(a[..|a|-1], b) + 1
    ensures b != [] ==> Distance(a, b) <= Distance(a[..|a|-1], b[..|b|-1]) + SubstitutionCost(a[|a|-1], b[|b|-1])
  {
  }

  lemma InsertionCostsOne(a: string, b: string)
    requires b != []
    ensures Distance(a, b) <= Distance(a, b[..|b|-1]) + 1
  {
  }

  lemma InsertSnoc(a: string, script: seq<Edit>, c: char)
    requires Edited(a, script).Some?
    ensures Cost(script + [Insert(c)]) == Cost(script) + 1
    ensures Edited(a, script + [Insert(c)]) == Some(Edited(a, script).value + [c])
  {
    assert (script + [Insert(c)])[..|script|] == script;
  }

  lemma LetterSnoc(a: string, x: char, script: seq<Edit>, last: Edit)
    requires Edited(a, script).Some? && !last.Insert?
    ensures Cost(script + [last]) == Cost(script) + if last.Keep? then 0 else 1
    ensures Edited(a + [x], script + [last]) == Some(Edited(a, script).value + Written(last, x))
  {
    assert (script + [last])[..|script|] == script;
    assert (a + [x])[..|a|] == a;
  }

  /** Some script costs exactly the distance. */
  lemma {:induction false} DistanceIsAttained(a: string, b: string) returns (script: seq<Edit>)
    ensures Edited(a, script) == Some(b) && Cost(script) == Distance(a, b)
    decreases |a| + |b|
  {
    if a == [] && b == [] {
      script := [];
    } else if b != [] && (a == [] || Distance(a, b) == Distance(a, b[..|b|-1]) + 1) {
      script := DistanceIsAttained(a, b[..|b|-1]);
      InsertSnoc(a, script, b[|b|-1]);
      assert b == b[..|b|-1] + [b[|b|-1]];
      script := script + [Insert(b[|b|-1])];
    } else if b == [] || Distance(a, b) == Distance(a[..|a|-1], b) + 1 {
      script := DistanceIsAttained(a[..|a|-1], b);
      LetterSnoc(a[..|a|-1], a[|a|-1], script, Delete);
      assert a == a[..|a|-1] + [a[|a|-1]] && b + [] == b;
      script := script + [Delete];
    } else {
      var x, y := a[|a|-1], b[|b|-1];
      var last := if x == y then Keep else Replace(y);
      script := DistanceIsAttained(a[..|a|-1], b[..|b|-1]);
      LetterSnoc(a[..|a|-1], x, script, last);
      assert a == a[..|a|-1] + [x] && b == b[..|b|-1] + [y];
      script := script + [last];
    }
  }

  // -------------------------------------------------------------------- a metric

  lemma {:induction false} DistanceZeroIffEqual(a: string, b: string)
    ensures Distance(a, b) == 0 <==> a == b
    decreases |a| + |b|
  {
    if a != [] && b != [] {
      DistanceZeroIffEqual(a[..|a|-1], b[..|b|-1]);
      assert a == a[..|a|-1] + [a[|a|-1]] && b == b[..|b|-1] + [b[|b|-1]];
    }
  }

  lemma {:induction false} DistanceSymmetric(a: string, b: string)
    ensures Distance(a, b) == Distance(b, a)
    decreases |a| + |b|
  {
    if a != [] && b != [] {
      DistanceSymmetric(a[..|a|-1], b[..|b|-1]);
      DistanceSymmetric(a, b[..|b|-1]);
      DistanceSymmetric(a[..|a|-1], b);
    }
  }

  lemma {:induction false} LengthGap(a: string, b: string)
    ensures |a| - |b| <= Distance(a, b) && |b| - |a| <= Distance(a, b) <= |a| + |b|
    decreases |a| + |b|
  {
    if a != [] && b != [] {
      LengthGap(a[..|a|-1], b[..|b|-1]);
      LengthGap(a, b[..|b|-1]);
      LengthGap(a[..|a|-1], b);
    }
  }

  lemma {:induction false} TriangleInequality(a: string, b: string, c: string)
    ensures Distance(a, c) <= Distance(a, b) + Distance(b, c)
    decreases |a| + |b| + |c|
  {
    if a == [] || c == [] || b == [] {
      LengthGap(a, b);
      LengthGap(b, c);
      LengthGap(a, c);
    } else {
      var a', b', c' := a[..|a|-1], b[..|b|-1], c[..|c|-1];
      if Distance(a, b) == Distance(a', b) + 1 {
        TriangleInequality(a', b, c);
      } else if Distance(b, c) == Distance(b, c') + 1 {
        TriangleInequality(a, b, c');
      } else if Distance(a, b) == Distance(a, b') + 1 {
        if Distance(b, c) == Distance(b', c) + 1 {
          TriangleInequality(a, b', c);
        } else {
          TriangleInequality(a, b', c');
        }
      } else if Distance(b, c) == Distance(b', c) + 1 {
        TriangleInequality(a', b', c);
      } else {
        TriangleInequality(a', b', c');
      }
    }
  }

  // ------------------------------------------------------------------ suggestions

  /** The letters after the last dot. */
  function Leaf(path: string): string {
    if path == [] || path[|path|-1] == '.' then [] else Leaf(path[..|path|-1]) + [path[|path|-1]]
  }

  function Depth(path: string): nat {
    if path == [] then 0 else Depth(path[..|path|-1]) + if path[|path|-1] == '.' then 1 else 0
  }

  /** How far a candidate is from the path: whole paths, or leaves when both are
      nested equally deep. */
  function CandidateDistance(path: string, candidate: string): nat {
    var whole := Distance(path, candidate);
    var leaves := Distance(Leaf(path), Leaf(candidate));
    if Depth(candidate) == Depth(path) && leaves < whole then leaves else whole
  }

  /** The number of bytes of a letter in UTF-8, which is how Go measures strings. */
  function Utf8Length(s: string): nat {
    if s == [] then 0
    else
      var c := s[|s|-1] as int;
      Utf8Length(s[..|s|-1]) + if c < 0x80 then 1 else if c < 0x800 then 2 else if c < 0x10000 then 3 else 4
  }

  function MaxSuggestionDistance(leaf: string): nat {
    var limit := Utf8Length(leaf) / 3;
    if limit < 2 then 2 else if limit > 6 then 6 else limit
  }

  /** `x` is a better suggestion than `y`: nearer, or as near and nearer as a
      whole path. */
  predicate Nearer(path: string, x: string, y: string) {
    || CandidateDistance(path, x) < CandidateDistance(path, y)
    || (CandidateDistance(path, x) == CandidateDistance(path, y) && Distance(path, x) < Distance(path, y))
  }

  /** `suggestFieldPath`: the best candidate, the first of several equally good
      ones, unless even that is too far away. */
  method SuggestFieldPath(path: string, candidates: seq<string>) returns (suggestion: Option<string>)
    ensures suggestion.Some? ==>
              exists k :: && 0 <= k < |candidates| && candidates[k] == suggestion.value
                          && CandidateDistance(path, candidates[k]) <= MaxSuggestionDistance(Leaf(path))
                          && (forall j | 0 <= j < |candidates| :: !Nearer(path, candidates[j], candidates[k]))
                          && (forall j | 0 <= j < k :: Nearer(path, candidates[k], candidates[j]))
    ensures suggestion.None? ==>
              forall j | 0 <= j < |candidates| :: CandidateDistance(path, candidates[j]) > MaxSuggestionDistance(Leaf(path))
  {
    hide Distance, Leaf, Depth, MaxSuggestionDistance;
    var best, bestDistance, bestPathDistance := "", -1, -1;
    ghost var at := 0;
    for i := 0 to |candidates|
      invariant bestDistance < 0 <==> i == 0
      invariant i > 0 ==>
        && 0 <= at < i && best == candidates[at]
        && bestDistance == CandidateDistance(path, best) && bestPathDistance == Distance(path, best)
        && (forall j | 0 <= j < i :: !Nearer(path, candidates[j], best))
        && (forall j | 0 <= j < at :: Nearer(path, best, candidates[j]))
    {
      var candidate := candidates[i];
      var pathDistance := Levenshtein(path, candidate);
      var distance := pathDistance;
      if Depth(candidate) == Depth(path) {
        var leafDistance := Levenshtein(Leaf(path), Leaf(candidate));
        if leafDistance < distance {
          distance := leafDistance;
        }
      }
      if bestDistance < 0 || distance < bestDistance || (distance == bestDistance && pathDistance < bestPathDistance) {
        best, bestDistance, bestPathDistance := candidate, distance, pathDistance;
        at := i;
      }
    }
    if bestDistance < 0 || bestDistance > MaxSuggestionDistance(Leaf(path)) {
      return None;
    }
    return Some(best);
  }
}

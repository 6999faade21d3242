/** A stable sort and the fact that makes its algorithm irrelevant: an ordered
    arrangement that keeps equal elements in their original order is unique. */
module StableOrder {

  /** `before(a, b)`: a must stand in front of b. */
  ghost predicate StrictWeak<T(!new)>(before: (T, T) -> bool) {
    && (forall a, b :: before(a, b) ==> !before(b, a))
    && (forall a, b, c :: before(a, c) ==> before(a, b) || before(b, c))
  }

  /** One instance of what a strict weak order gives. */
  lemma Compare<T(!new)>(before: (T, T) -> bool, a: T, b: T, c: T)
    requires StrictWeak(before)
    ensures before(a, b) ==> !before(b, a)
    ensures before(a, c) ==> before(a, b) || before(b, c)
    ensures before(a, b) && before(b, c) ==> before(a, c)
  {
    assert before(a, b) ==> before(a, c) || before(c, b);
  }

  predicate Tied<T>(before: (T, T) -> bool, a: T, b: T) {
    !before(a, b) && !before(b, a)
  }

  ghost predicate Ordered<T>(before: (T, T) -> bool, s: seq<T>) {
    forall i, j | 0 <= i < j < |s| :: !before(s[j], s[i])
  }

  /** No two elements are tied. */
  ghost predicate Untied<T>(before: (T, T) -> bool, s: seq<T>) {
    forall i, j | 0 <= i < j < |s| :: !Tied(before, s[i], s[j])
  }

  /** The elements tied with c, in order of appearance. */
  function Class<T>(before: (T, T) -> bool, s: seq<T>, c: T): seq<T> {
    if s == [] then []
    else Class(before, s[..|s| - 1], c) + if Tied(before, s[|s| - 1], c) then [s[|s| - 1]] else []
  }

  /** Tied elements appear in the same order on both sides. */
  ghost predicate SameClasses<T(!new)>(before: (T, T) -> bool, a: seq<T>, b: seq<T>) {
    forall c :: Class(before, a, c) == Class(before, b, c)
  }

  function Insert<T>(before: (T, T) -> bool, s: seq<T>, x: T): seq<T> {
    if s == [] then [x]
    else if before(x, s[|s| - 1]) then Insert(before, s[..|s| - 1], x) + [s[|s| - 1]]
    else s + [x]
  }

  /** `sort.SliceStable`; `sort.Slice` too wherever no two elements are tied. */
  function Sort<T>(before: (T, T) -> bool, s: seq<T>): seq<T> {
    if s == [] then [] else Insert(before, Sort(before, s[..|s| - 1]), s[|s| - 1])
  }

  // ---------------------------------------------------------- what sorting keeps

  lemma {:induction false} InsertPermutes<T>(before: (T, T) -> bool, s: seq<T>, x: T)
    ensures multiset(Insert(before, s, x)) == multiset(s) + multiset{x}
  {
    if s != [] {
      assert s == s[..|s| - 1] + [s[|s| - 1]];
      InsertPermutes(before, s[..|s| - 1], x);
    }
  }

  lemma {:induction false} SortPermutes<T>(before: (T, T) -> bool, s: seq<T>)
    ensures multiset(Sort(before, s)) == multiset(s)
    ensures |Sort(before, s)| == |s|
  {
    if s != [] {
      assert s == s[..|s| - 1] + [s[|s| - 1]];
      SortPermutes(before, s[..|s| - 1]);
      InsertPermutes(before, Sort(before, s[..|s| - 1]), s[|s| - 1]);
    }
    assert |multiset(Sort(before, s))| == |Sort(before, s)| && |multiset(s)| == |s|;
  }

  lemma {:induction false} InsertKeepsOrder<T(!new)>(before: (T, T) -> bool, s: seq<T>, x: T)
    requires StrictWeak(before) && Ordered(before, s)
    ensures Ordered(before, Insert(before, s, x))
    ensures forall y | y in Insert(before, s, x) :: y == x || y in s
  {
    hide StrictWeak;
    if s != [] {
      var last := s[|s| - 1];
      if !before(x, last) {
        forall i | 0 <= i < |s| ensures !before(x, s[i]) {
          Compare(before, x, last, s[i]);
        }
      } else {
        Compare(before, x, last, x);
        InsertKeepsOrder(before, s[..|s| - 1], x);
        var r := Insert(before, s[..|s| - 1], x);
        forall i | 0 <= i < |r| ensures !before(last, r[i]) {
          assert r[i] in r;
          if r[i] != x {
            assert r[i] in s[..|s| - 1];
          }
        }
      }
    }
  }

  lemma {:induction false} SortOrders<T(!new)>(before: (T, T) -> bool, s: seq<T>)
    requires StrictWeak(before)
    ensures Ordered(before, Sort(before, s))
  {
    if s != [] {
      SortOrders(before, s[..|s| - 1]);
      InsertKeepsOrder(before, Sort(before, s[..|s| - 1]), s[|s| - 1]);
    }
  }

  lemma ClassOfSnoc<T>(before: (T, T) -> bool, s: seq<T>, x: T, c: T)
    ensures Class(before, s + [x], c) == Class(before, s, c) + if Tied(before, x, c) then [x] else []
  {
    assert (s + [x])[..|s|] == s;
  }

  lemma {:induction false} InsertIsStable<T(!new)>(before: (T, T) -> bool, s: seq<T>, x: T, c: T)
    requires StrictWeak(before)
    ensures Class(before, Insert(before, s, x), c) == Class(before, s + [x], c)
  {
    hide StrictWeak;
    if s != [] && before(x, s[|s| - 1]) {
      var front, last := s[..|s| - 1], s[|s| - 1];
      assert Insert(before, s, x) == Insert(before, front, x) + [last];
      hide Insert, Class;
      assert s == front + [last];
      InsertIsStable(before, front, x, c);
      ClassOfSnoc(before, Insert(before, front, x), last, c);
      ClassOfSnoc(before, front, last, c);
      ClassOfSnoc(before, front, x, c);
      ClassOfSnoc(before, s, x, c);
      Compare(before, x, c, last);
    }
  }

  /** Tied elements keep their order. */
  lemma {:induction false} SortIsStable<T(!new)>(before: (T, T) -> bool, s: seq<T>, c: T)
    requires StrictWeak(before)
    ensures Class(before, Sort(before, s), c) == Class(before, s, c)
  {
    if s != [] {
      var front, last := s[..|s| - 1], s[|s| - 1];
      SortIsStable(before, front, c);
      InsertIsStable(before, Sort(before, front), last, c);
      ClassOfSnoc(before, Sort(before, front), last, c);
    }
  }

  // ------------------------------------------------------------------- uniqueness

  lemma {:induction false} ClassFinds<T>(before: (T, T) -> bool, s: seq<T>, c: T)
    ensures forall x | x in Class(before, s, c) :: x in s && Tied(before, x, c)
    ensures forall x | x in s && Tied(before, x, c) :: x in Class(before, s, c)
  {
    if s != [] {
      ClassFinds(before, s[..|s| - 1], c);
      assert s == s[..|s| - 1] + [s[|s| - 1]];
    }
  }

  /** The last element of an ordered arrangement is in front of nothing that the
      other arrangement holds. */
  lemma LastIsNotBefore<T(!new)>(before: (T, T) -> bool, a: seq<T>, b: seq<T>)
    requires StrictWeak(before) && Ordered(before, a) && a != [] && b != []
    requires SameClasses(before, a, b)
    ensures !before(a[|a| - 1], b[|b| - 1])
  {
    hide StrictWeak;
    var x, y := a[|a| - 1], b[|b| - 1];
    ClassFinds(before, b, y);
    Compare(before, y, y, y);
    assert y in Class(before, b, y) && Class(before, a, y) == Class(before, b, y);
    ClassFinds(before, a, y);
    var z :| z in a && Tied(before, z, y);
    Compare(before, x, z, y);
    Compare(before, x, y, x);
  }

  lemma {:induction false} OrderedIsUnique<T(!new)>(before: (T, T) -> bool, a: seq<T>, b: seq<T>)
    requires StrictWeak(before) && Ordered(before, a) && Ordered(before, b)
    requires SameClasses(before, a, b)
    ensures a == b
    decreases |a|
  {
    hide StrictWeak;
    if a == [] || b == [] {
      if a != [] {
        Compare(before, a[0], a[0], a[0]);
        assert a[0] in a && Class(before, b, a[0]) == [];
        ClassFinds(before, a, a[0]);
        assert false;
      } else if b != [] {
        Compare(before, b[0], b[0], b[0]);
        assert b[0] in b && Class(before, a, b[0]) == [];
        ClassFinds(before, b, b[0]);
        assert false;
      }
    } else {
      LastIsNotBefore(before, a, b);
      LastIsNotBefore(before, b, a);
      var x, y := a[|a| - 1], b[|b| - 1];
      Compare(before, x, x, x);
      assert Class(before, a, x) == Class(before, a[..|a| - 1], x) + [x];
      assert Class(before, b, x) == Class(before, b[..|b| - 1], x) + [y];
      assert x == y by {
        var common := Class(before, a, x);
        assert Class(before, b, x) == common && common[|common| - 1] == x;
      }
      var front, rear := a[..|a| - 1], b[..|b| - 1];
      forall c ensures Class(before, front, c) == Class(before, rear, c) {
        assert Class(before, a, c) == Class(before, b, c);
        assert Class(before, front, c) == Class(before, a, c)[..|Class(before, front, c)|];
        assert Class(before, rear, c) == Class(before, b, c)[..|Class(before, rear, c)|];
      }
      OrderedIsUnique(before, a[..|a| - 1], b[..|b| - 1]);
      assert a == a[..|a| - 1] + [x] && b == b[..|b| - 1] + [y];
    }
  }

  /** Any ordered arrangement of s that keeps tied elements in order is `Sort(s)`:
      nothing depends on the algorithm the library uses. */
  lemma StableSortIsUnique<T(!new)>(before: (T, T) -> bool, s: seq<T>, r: seq<T>)
    requires StrictWeak(before)
    ensures r == Sort(before, s) <==>
            Ordered(before, r) && SameClasses(before, r, s)
  {
    hide StrictWeak, Ordered, Sort;
    SortOrders(before, s);
    forall c ensures Class(before, Sort(before, s), c) == Class(before, s, c) {
      SortIsStable(before, s, c);
    }
    if Ordered(before, r) && SameClasses(before, r, s) {
      OrderedIsUnique(before, r, Sort(before, s));
    }
  }

  lemma SortOfOrdered<T(!new)>(before: (T, T) -> bool, s: seq<T>)
    requires StrictWeak(before) && Ordered(before, s)
    ensures Sort(before, s) == s
  {
    StableSortIsUnique(before, s, s);
  }

  lemma LastIsLast<T(!new)>(before: (T, T) -> bool, s: seq<T>, x: T)
    requires StrictWeak(before) && Ordered(before, s) && x in s
    ensures !before(s[|s| - 1], x)
  {
    hide StrictWeak;
    Compare(before, x, x, x);
  }

  lemma DropLast<T>(s: seq<T>)
    requires s != []
    ensures multiset(s[..|s| - 1]) == multiset(s) - multiset{s[|s| - 1]}
    ensures s == s[..|s| - 1] + [s[|s| - 1]]
  {
    assert s == s[..|s| - 1] + [s[|s| - 1]];
  }

  lemma LastsAgree<T(!new)>(before: (T, T) -> bool, a: seq<T>, b: seq<T>)
    requires StrictWeak(before) && Ordered(before, a) && Ordered(before, b) && Untied(before, a)
    requires a != [] && b != [] && multiset(a) == multiset(b)
    ensures a[|a| - 1] == b[|b| - 1]
  {
    hide StrictWeak, Ordered;
    var x, y := a[|a| - 1], b[|b| - 1];
    assert x in multiset(a) && y in multiset(b);
    LastIsLast(before, b, x);
    LastIsLast(before, a, y);
    var i :| 0 <= i < |a| && a[i] == y;
    assert i == |a| - 1;
  }

  lemma {:induction false} UntiedPermutationsAgree<T(!new)>(before: (T, T) -> bool, a: seq<T>, b: seq<T>)
    requires StrictWeak(before) && Ordered(before, a) && Ordered(before, b)
    requires Untied(before, a) && multiset(a) == multiset(b)
    ensures a == b
    decreases |a|
  {
    hide StrictWeak;
    assert |multiset(a)| == |a| && |multiset(b)| == |b|;
    if a != [] {
      LastsAgree(before, a, b);
      DropLast(a);
      DropLast(b);
      UntiedPermutationsAgree(before, a[..|a| - 1], b[..|b| - 1]);
    }
  }

  /** Sorting forgets the order of its input when no two elements are tied. */
  lemma SortForgetsOrder<T(!new)>(before: (T, T) -> bool, a: seq<T>, b: seq<T>)
    requires StrictWeak(before) && multiset(a) == multiset(b)
    requires Untied(before, Sort(before, a))
    ensures Sort(before, a) == Sort(before, b)
  {
    SortOrders(before, a);
    SortOrders(before, b);
    SortPermutes(before, a);
    SortPermutes(before, b);
    UntiedPermutationsAgree(before, Sort(before, a), Sort(before, b));
  }

  // -------------------------------------------------------------- unique by a key

  ghost predicate UniqueBy<T, K>(key: T -> K, s: seq<T>) {
    forall i, j | 0 <= i < j < |s| :: key(s[i]) != key(s[j])
  }

  /** `seen` holds exactly the keys of s. */
  ghost predicate Keys<T, K>(key: T -> K, s: seq<T>, seen: set<K>) {
    && (forall x | x in s :: key(x) in seen)
    && (forall k | k in seen :: exists x | x in s :: key(x) == k)
  }

  lemma UniqueWhenEmpty<T, K>(key: T -> K)
    ensures UniqueBy(key, []) && Keys(key, [], {})
  {
  }

  /** The duplicate check of a loop that remembers the keys it has seen. */
  lemma SeenOneMore<T, K>(key: T -> K, s: seq<T>, x: T, seen: set<K>)
    requires Keys(key, s, seen) && UniqueBy(key, s)
    ensures key(x) in seen ==> !UniqueBy(key, s + [x])
    ensures key(x) !in seen ==> UniqueBy(key, s + [x]) && Keys(key, s + [x], seen + {key(x)})
  {
    var t := s + [x];
    if key(x) in seen {
      var y :| y in s && key(y) == key(x);
      var i :| 0 <= i < |s| && s[i] == y;
      assert key(t[i]) == key(t[|s|]);
    } else {
      forall k | k in seen + {key(x)} ensures exists y | y in t :: key(y) == k {
        if k in seen {
          var y :| y in s && key(y) == k;
          assert y in t;
        } else {
          assert x in t;
        }
      }
    }
  }

  lemma RepeatInPrefix<T, K>(key: T -> K, s: seq<T>, n: nat)
    requires n <= |s| && !UniqueBy(key, s[..n])
    ensures !UniqueBy(key, s)
  {
    var i, j :| 0 <= i < j < n && key(s[..n][i]) == key(s[..n][j]);
    assert key(s[i]) == key(s[j]);
  }

  lemma {:induction false} TwiceMeansTwoPlaces<T>(s: seq<T>, x: T)
    requires multiset(s)[x] >= 2
    ensures exists i, j :: 0 <= i < j < |s| && s[i] == s[j] == x
  {
    var front := s[..|s| - 1];
    assert s == front + [s[|s| - 1]];
    if s[|s| - 1] == x {
      assert x in multiset(front);
      var i :| 0 <= i < |front| && front[i] == x;
      assert s[i] == s[|s| - 1] == x;
    } else {
      TwiceMeansTwoPlaces(front, x);
      var i, j :| 0 <= i < j < |front| && front[i] == front[j] == x;
      assert s[i] == s[j] == x;
    }
  }

  lemma TwoPlacesMeanTwice<T>(s: seq<T>, i: nat, j: nat)
    requires i < j < |s| && s[i] == s[j]
    ensures multiset(s)[s[i]] >= 2
  {
    assert s == s[..j] + [s[j]] + s[j + 1..];
    assert s[i] in multiset(s[..j]);
  }

  lemma PermutationKeepsUnique<T, K>(key: T -> K, a: seq<T>, b: seq<T>)
    requires UniqueBy(key, a) && multiset(a) == multiset(b)
    ensures UniqueBy(key, b)
  {
    forall i, j | 0 <= i < j < |b| ensures key(b[i]) != key(b[j]) {
      assert b[i] in multiset(b) && b[j] in multiset(b);
      if b[i] == b[j] {
        TwoPlacesMeanTwice(b, i, j);
        TwiceMeansTwoPlaces(a, b[i]);
        assert false;
      } else {
        var p, q :| 0 <= p < |a| && a[p] == b[i] && 0 <= q < |a| && a[q] == b[j];
        assert p != q;
      }
    }
  }

  function Map<T, U>(f: T -> U, s: seq<T>): (r: seq<U>)
    ensures |r| == |s|
    ensures forall i | 0 <= i < |s| :: r[i] == f(s[i])
  {
    seq(|s|, i requires 0 <= i < |s| => f(s[i]))
  }

  function Without<T>(s: seq<T>, k: nat): (r: seq<T>)
    requires k < |s|
    ensures |r| == |s| - 1
  {
    s[..k] + s[k + 1..]
  }

  lemma WithoutOne<T>(s: seq<T>, k: nat)
    requires k < |s|
    ensures multiset(Without(s, k)) == multiset(s) - multiset{s[k]}
  {
    assert s == s[..k] + [s[k]] + s[k + 1..];
  }

  lemma MapWithoutOne<T, U>(f: T -> U, s: seq<T>, k: nat)
    requires k < |s|
    ensures multiset(Map(f, s)) == multiset(Map(f, Without(s, k))) + multiset{f(s[k])}
  {
    WithoutOne(Map(f, s), k);
    assert Map(f, Without(s, k)) == Without(Map(f, s), k);
    assert Map(f, s)[k] in multiset(Map(f, s));
  }

  lemma {:induction false} MapPermutes<T, U>(f: T -> U, a: seq<T>, b: seq<T>)
    requires multiset(a) == multiset(b)
    ensures multiset(Map(f, a)) == multiset(Map(f, b))
    decreases |a|
  {
    assert |multiset(a)| == |a| && |multiset(b)| == |b|;
    if a == [] {
      assert Map(f, a) == [] == Map(f, b);
    } else {
      hide Map, Without;
      assert a[0] in multiset(b);
      var k :| 0 <= k < |b| && b[k] == a[0];
      WithoutOne(a, 0);
      WithoutOne(b, k);
      MapPermutes(f, Without(a, 0), Without(b, k));
      MapWithoutOne(f, a, 0);
      MapWithoutOne(f, b, k);
    }
  }

  // ------------------------------------------------------------------ string order

  /** The `<` of Go strings. */
  predicate Precedes(a: string, b: string) {
    if b == "" then false
    else if a == "" then true
    else if a[0] != b[0] then a[0] < b[0]
    else Precedes(a[1..], b[1..])
  }

  lemma {:induction false} PrecedesIsTotal(a: string, b: string)
    ensures Precedes(a, b) || Precedes(b, a) || a == b
    ensures !(Precedes(a, b) && Precedes(b, a))
    ensures a == b ==> !Precedes(a, b)
  {
    if a != "" && b != "" && a[0] == b[0] {
      PrecedesIsTotal(a[1..], b[1..]);
      assert a == [a[0]] + a[1..] && b == [b[0]] + b[1..];
    }
  }

  lemma {:induction false} PrecedesIsTransitive(a: string, b: string, c: string)
    requires Precedes(a, b) && Precedes(b, c)
    ensures Precedes(a, c)
  {
    if a != "" && a[0] == b[0] == c[0] {
      PrecedesIsTransitive(a[1..], b[1..], c[1..]);
    }
  }

  lemma PrecedesSplits(a: string, b: string, c: string)
    ensures Precedes(a, c) ==> Precedes(a, b) || Precedes(b, c)
  {
    hide Precedes;
    PrecedesIsTotal(a, b);
    PrecedesIsTotal(b, c);
    PrecedesIsTotal(a, c);
    if Precedes(c, b) && Precedes(b, a) {
      PrecedesIsTransitive(c, b, a);
    }
  }

  lemma PrecedesIsStrictWeak()
    ensures StrictWeak(Precedes)
    ensures forall a, b :: Tied(Precedes, a, b) <==> a == b
  {
    hide Precedes;
    forall a, b ensures Tied(Precedes, a, b) <==> a == b {
      PrecedesIsTotal(a, b);
    }
    forall a, b ensures Precedes(a, b) ==> !Precedes(b, a) {
      PrecedesIsTotal(a, b);
    }
    forall a, b, c ensures Precedes(a, c) ==> Precedes(a, b) || Precedes(b, c) {
      PrecedesSplits(a, b, c);
    }
  }

  lemma SameElements<T>(a: seq<T>, b: seq<T>)
    requires multiset(a) == multiset(b)
    ensures forall x :: x in a <==> x in b
  {
    forall x ensures x in a <==> x in b {
      assert x in a <==> x in multiset(a);
      assert x in b <==> x in multiset(b);
    }
  }

  function Self(s: string): string { s }

  function SortStrings(values: seq<string>): seq<string> {
    Sort(Precedes, values)
  }

  lemma SortStringsKeeps(values: seq<string>)
    ensures forall v :: v in SortStrings(values) <==> v in values
  {
    hide Sort, Precedes;
    SortPermutes(Precedes, values);
    SameElements(values, SortStrings(values));
  }

  /** Sorting distinct strings makes them strictly increasing. */
  lemma SortedDistinct(values: seq<string>)
    requires forall i, j | 0 <= i < j < |values| :: values[i] != values[j]
    ensures var r := SortStrings(values);
            && (forall i, j | 0 <= i < j < |r| :: Precedes(r[i], r[j]))
            && (forall v :: v in r <==> v in values)
  {
    hide Sort, Precedes;
    var r := SortStrings(values);
    PrecedesIsStrictWeak();
    SortOrders(Precedes, values);
    SortPermutes(Precedes, values);
    PermutationKeepsUnique(Self, values, r);
    SameElements(values, r);
    forall i, j | 0 <= i < j < |r| ensures Precedes(r[i], r[j]) {
      assert Self(r[i]) != Self(r[j]) && !Tied(Precedes, r[i], r[j]);
    }
  }

  lemma IncreasingStaySorted(values: seq<string>)
    requires forall i, j | 0 <= i < j < |values| :: Precedes(values[i], values[j])
    ensures SortStrings(values) == values
  {
    hide Sort, Precedes;
    PrecedesIsStrictWeak();
    forall i, j | 0 <= i < j < |values| ensures !Precedes(values[j], values[i]) {
      assert Precedes(values[i], values[j]);
    }
    SortOfOrdered(Precedes, values);
  }
}

/** Merging durable run history into the live board (`mergeHistory`). */
module RunHistory {
  import opened Wrappers
  import opened StableOrder

  /** Creation times are points on a line; the zero time is a point like any other. */
  datatype Run = Run(
    name: string, kind: string, status: string, created: int, age: string, runId: string, queue: string,
    namespace: string, cluster: string, resourceUid: string, durableId: string, source: string,
    tracking: string, path: string, target: string)

  const TRACKED := "tracked"

  function DurableKey(run: Run): string { "durable:" + run.durableId }

  function ResourceKey(run: Run): string {
    "resource:" + run.cluster + "/" + run.namespace + "/" + run.resourceUid
  }

  function RunKey(run: Run): string {
    "run:" + run.cluster + "/" + run.namespace + "/" + run.runId
  }

  predicate HasDurableKey(run: Run) { run.durableId != "" }

  predicate HasResourceKey(run: Run) { run.cluster != "" && run.namespace != "" && run.resourceUid != "" }

  predicate HasRunKey(run: Run) { run.cluster != "" && run.namespace != "" && run.runId != "" }

  /** `mergeKeys`: what a run can be recognised by, strongest first. */
  function MergeKeys(run: Run): seq<string> {
    (if HasDurableKey(run) then [DurableKey(run)] else [])
    + (if HasResourceKey(run) then [ResourceKey(run)] else [])
    + (if HasRunKey(run) then [RunKey(run)] else [])
  }

  predicate IsRunKey(key: string) { "run:" <= key }

  // --------------------------------------------------------------- specification

  /** The live run a key stands for: the last one that carries it. */
  function Holder(live: seq<Run>, key: string): (r: Option<nat>)
    ensures r.Some? ==> r.value < |live| && key in MergeKeys(live[r.value])
    ensures r.None? ==> forall i | 0 <= i < |live| :: key !in MergeKeys(live[i])
  {
    if live == [] then None
    else if key in MergeKeys(live[|live| - 1]) then Some(|live| - 1)
    else Holder(live[..|live| - 1], key)
  }

  datatype Hit = Hit(index: nat, key: string)

  /** The first of the keys that stands for a live run. */
  function FirstHit(live: seq<Run>, keys: seq<string>): (r: Option<Hit>)
    ensures r.Some? ==> r.value.key in keys && Holder(live, r.value.key) == Some(r.value.index)
    ensures r.None? <==> forall key | key in keys :: Holder(live, key).None?
  {
    if keys == [] then None
    else if Holder(live, keys[0]).Some? then Some(Hit(Holder(live, keys[0]).value, keys[0]))
    else FirstHit(live, keys[1..])
  }

  function Match(live: seq<Run>, row: Run): Option<Hit> {
    FirstHit(live, MergeKeys(row))
  }

  /** A durable row is about a live run. */
  predicate About(live: seq<Run>, row: Run, i: nat) {
    Match(live, row).Some? && Match(live, row).value.index == i
  }

  /** A durable row vouches for the tracking of a live run. */
  predicate Vouches(live: seq<Run>, row: Run, i: nat) {
    About(live, row, i) && row.tracking == TRACKED && !IsRunKey(Match(live, row).value.key)
  }

  function Absorb(live: seq<Run>, row: Run, i: nat, run: Run): Run {
    if !About(live, row, i) then run
    else run.(durableId := if run.durableId == "" then row.durableId else run.durableId,
              tracking := if Vouches(live, row, i) then TRACKED else run.tracking)
  }

  /** Live run i after all rows have been looked at. */
  function Enriched(live: seq<Run>, durable: seq<Run>, i: nat): Run
    requires i < |live|
  {
    if durable == [] then live[i]
    else Absorb(live, durable[|durable| - 1], i, Enriched(live, durable[..|durable| - 1], i))
  }

  function AllEnriched(live: seq<Run>, durable: seq<Run>): (r: seq<Run>)
    ensures |r| == |live|
    ensures forall i | 0 <= i < |live| :: r[i] == Enriched(live, durable, i)
  {
    seq(|live|, i requires 0 <= i < |live| => Enriched(live, durable, i))
  }

  /** The rows about no live run, in order, with their age brought up to date. */
  function OnlyDurable(live: seq<Run>, durable: seq<Run>, age: int -> string): seq<Run> {
    if durable == [] then []
    else
      var row := durable[|durable| - 1];
      OnlyDurable(live, durable[..|durable| - 1], age)
      + if Match(live, row).None? then [row.(age := age(row.created))] else []
  }

  /** The board before it is sorted. */
  function Board(live: seq<Run>, durable: seq<Run>, age: int -> string): seq<Run> {
    AllEnriched(live, durable) + OnlyDurable(live, durable, age)
  }

  /** `sortRuns`: newest first. */
  predicate Newer(a: Run, b: Run) { a.created > b.created }

  lemma HolderOfSnoc(live: seq<Run>, i: nat, key: string)
    requires i < |live|
    ensures Holder(live[..i + 1], key) == if key in MergeKeys(live[i]) then Some(i) else Holder(live[..i], key)
  {
    assert live[..i + 1][..i] == live[..i];
  }

  /** One more row changes the live run it is about, and no other. */
  lemma EnrichedBySnoc(live: seq<Run>, done: seq<Run>, row: Run)
    ensures Match(live, row).None? ==> AllEnriched(live, done + [row]) == AllEnriched(live, done)
    ensures Match(live, row).Some? ==>
              var i := Match(live, row).value.index;
              i < |live| && AllEnriched(live, done + [row]) == AllEnriched(live, done)[i := Absorb(live, row, i, Enriched(live, done, i))]
  {
    hide Match, MergeKeys, Holder;
    MatchIsLive(live, row);
    assert (done + [row])[..|done|] == done;
  }

  lemma MatchIsLive(live: seq<Run>, row: Run)
    ensures Match(live, row).Some? ==> Match(live, row).value.index < |live|
    ensures Match(live, row).Some? ==> Match(live, row).value.key in MergeKeys(row)
    ensures Match(live, row).Some? ==> Match(live, row).value.key in MergeKeys(live[Match(live, row).value.index])
  {
    hide MergeKeys;
  }

  lemma OnlyDurableOfSnoc(live: seq<Run>, done: seq<Run>, row: Run, age: int -> string)
    ensures OnlyDurable(live, done + [row], age)
         == OnlyDurable(live, done, age) + if Match(live, row).None? then [row.(age := age(row.created))] else []
  {
    hide Match;
    assert (done + [row])[..|done|] == done;
  }

  /** One more row edits the live run it is about in place, or joins the board. */
  lemma BoardOfSnoc(live: seq<Run>, done: seq<Run>, row: Run, age: int -> string)
    ensures
      var before, r := Board(live, done, age), Board(live, done + [row], age);
      match Match(live, row)
      case None => r == before + [row.(age := age(row.created))]
      case Some(hit) =>
        && hit.index < |before|
        && var run := before[hit.index];
        && r == before[hit.index := run.(
             durableId := if run.durableId == "" then row.durableId else run.durableId,
             tracking := if row.tracking == TRACKED && !IsRunKey(hit.key) then TRACKED else run.tracking)]
  {
    hide Match, Enriched, OnlyDurable, IsRunKey;
    MatchIsLive(live, row);
    EnrichedBySnoc(live, done, row);
    OnlyDurableOfSnoc(live, done, row, age);
    if Match(live, row).Some? {
      var i := Match(live, row).value.index;
      var front, rear := AllEnriched(live, done), OnlyDurable(live, done, age);
      var run := Absorb(live, row, i, front[i]);
      assert (front + rear)[i := run] == front[i := run] + rear;
    }
  }

  // -------------------------------------------------------------------- the method

  /** The index built over the live runs; a later run takes a key over. */
  method Index(live: seq<Run>) returns (index: map<string, nat>)
    ensures forall key :: key in index <==> Holder(live, key).Some?
    ensures forall key | key in index :: Holder(live, key) == Some(index[key])
  {
    hide Holder, MergeKeys;
    index := map[];
    assert forall key :: Holder(live[..0], key).None?;
    for i := 0 to |live|
      invariant forall key :: key in index <==> Holder(live[..i], key).Some?
      invariant forall key | key in index :: Holder(live[..i], key) == Some(index[key])
    {
      var keys := MergeKeys(live[i]);
      ghost var before := index;
      for k := 0 to |keys|
        invariant forall key :: key in index <==> key in keys[..k] || key in before
        invariant forall key | key in index :: index[key] == if key in keys[..k] then i else before[key]
      {
        index := index[keys[k] := i];
        assert keys[..k + 1] == keys[..k] + [keys[k]];
      }
      assert keys[..|keys|] == keys;
      forall key ensures Holder(live[..i + 1], key) == if key in keys then Some(i) else Holder(live[..i], key) {
        HolderOfSnoc(live, i, key);
      }
    }
    assert live[..|live|] == live;
  }

  /** The search for a row's live run: strongest key first. */
  method Find(index: map<string, nat>, ghost live: seq<Run>, row: Run) returns (hit: Option<Hit>)
    requires forall key :: key in index <==> Holder(live, key).Some?
    requires forall key | key in index :: Holder(live, key) == Some(index[key])
    ensures hit == Match(live, row)
  {
    var keys := MergeKeys(row);
    for k := 0 to |keys|
      invariant FirstHit(live, keys) == FirstHit(live, keys[k..])
    {
      if keys[k] in index {
        return Some(Hit(index[keys[k]], keys[k]));
      }
      assert keys[k..][1..] == keys[k + 1..];
    }
    hit := None;
  }

  /** `mergeHistory`. The board the user sees is the stable newest-first
      arrangement of the enriched live runs followed by the rows about no live run. */
  method MergeHistory(live: seq<Run>, durable: seq<Run>, age: int -> string) returns (merged: seq<Run>)
    ensures merged == Sort(Newer, Board(live, durable, age))
  {
    var index := Index(live);
    merged := live;
    assert Board(live, [], age) == live;
    hide Board, Match, MergeKeys, Holder, Sort, IsRunKey;
    for j := 0 to |durable|
      invariant merged == Board(live, durable[..j], age)
    {
      var row := durable[j];
      assert durable[..j + 1] == durable[..j] + [row];
      BoardOfSnoc(live, durable[..j], row, age);
      var hit := Find(index, live, row);
      if hit.Some? {
        var i := hit.value.index;
        var run := merged[i];
        if run.durableId == "" {
          run := run.(durableId := row.durableId);
        }
        if row.tracking == TRACKED && !IsRunKey(hit.value.key) {
          run := run.(tracking := TRACKED);
        }
        merged := merged[i := run];
      } else {
        merged := merged + [row.(age := age(row.created))];
      }
    }
    assert durable[..|durable|] == durable;
    merged := Sort(Newer, merged);
  }

  // ------------------------------------------------------------------- conservation

  predicate SharesKey(a: Run, b: Run) {
    || (HasDurableKey(a) && HasDurableKey(b) && DurableKey(a) == DurableKey(b))
    || (HasResourceKey(a) && HasResourceKey(b) && ResourceKey(a) == ResourceKey(b))
    || (HasRunKey(a) && HasRunKey(b) && RunKey(a) == RunKey(b))
  }

  /** Keys of different kinds never meet. */
  lemma KindsDiffer(a: Run, b: Run)
    ensures DurableKey(a) != ResourceKey(b) && DurableKey(a) != RunKey(b) && ResourceKey(a) != RunKey(b)
    ensures !IsRunKey(DurableKey(a)) && !IsRunKey(ResourceKey(a)) && IsRunKey(RunKey(a))
  {
    assert DurableKey(a)[0] == 'd' && ResourceKey(a)[0] == ResourceKey(b)[0] == 'r';
    assert ResourceKey(a)[1] == 'e' && RunKey(b)[1] == 'u';
    assert RunKey(a)[..4] == "run:";
  }

  lemma CommonKeyMeansShared(a: Run, b: Run)
    ensures (exists key :: key in MergeKeys(a) && key in MergeKeys(b)) <==> SharesKey(a, b)
  {
    hide DurableKey, ResourceKey, RunKey;
    KindsDiffer(a, b);
    KindsDiffer(b, a);
    if HasDurableKey(a) && HasDurableKey(b) && DurableKey(a) == DurableKey(b) {
      assert DurableKey(a) in MergeKeys(a) && DurableKey(a) in MergeKeys(b);
    }
    if HasResourceKey(a) && HasResourceKey(b) && ResourceKey(a) == ResourceKey(b) {
      assert ResourceKey(a) in MergeKeys(a) && ResourceKey(a) in MergeKeys(b);
    }
    if HasRunKey(a) && HasRunKey(b) && RunKey(a) == RunKey(b) {
      assert RunKey(a) in MergeKeys(a) && RunKey(a) in MergeKeys(b);
    }
  }

  /** A row joins the board exactly if it shares no key with any live run. */
  lemma UnmatchedIffStranger(live: seq<Run>, row: Run)
    ensures Match(live, row).None? <==> forall run | run in live :: !SharesKey(row, run)
  {
    hide MergeKeys, SharesKey;
    if Match(live, row).None? {
      forall run | run in live ensures !SharesKey(row, run) {
        CommonKeyMeansShared(row, run);
        var i :| 0 <= i < |live| && live[i] == run;
        forall key | key in MergeKeys(row) ensures key !in MergeKeys(run) {
          assert Holder(live, key).None?;
        }
      }
    } else {
      MatchIsLive(live, row);
      CommonKeyMeansShared(row, live[Match(live, row).value.index]);
    }
  }

  /** The rows a board adds. */
  predicate Stranger(live: seq<Run>, row: Run) {
    forall run | run in live :: !SharesKey(row, run)
  }

  function Strangers(live: seq<Run>, durable: seq<Run>, age: int -> string): seq<Run> {
    if durable == [] then []
    else
      var row := durable[|durable| - 1];
      Strangers(live, durable[..|durable| - 1], age)
      + if Stranger(live, row) then [row.(age := age(row.created))] else []
  }

  lemma {:induction false} OnlyStrangersJoin(live: seq<Run>, durable: seq<Run>, age: int -> string)
    ensures OnlyDurable(live, durable, age) == Strangers(live, durable, age)
  {
    hide Match, SharesKey;
    if durable != [] {
      OnlyStrangersJoin(live, durable[..|durable| - 1], age);
      UnmatchedIffStranger(live, durable[|durable| - 1]);
    }
  }

  lemma {:induction false} EnrichedKeepsTheRest(live: seq<Run>, durable: seq<Run>, i: nat)
    requires i < |live|
    ensures Enriched(live, durable, i).(durableId := live[i].durableId, tracking := live[i].tracking) == live[i]
    ensures live[i].durableId != "" ==> Enriched(live, durable, i).durableId == live[i].durableId
  {
    hide About, Vouches;
    if durable != [] {
      EnrichedKeepsTheRest(live, durable[..|durable| - 1], i);
    }
  }

  lemma NewerIsStrictWeak()
    ensures StrictWeak(Newer)
  {
  }

  /** No run is lost, invented or doubled: the board is newest first and holds every
      live run, unchanged but for durable id and tracking, and exactly the durable
      rows that share no key with any live run. */
  lemma MergeConserves(live: seq<Run>, durable: seq<Run>, age: int -> string)
    ensures
      var merged := Sort(Newer, Board(live, durable, age));
      && (forall i, j | 0 <= i < j < |merged| :: merged[i].created >= merged[j].created)
      && multiset(merged) == multiset(AllEnriched(live, durable)) + multiset(Strangers(live, durable, age))
    ensures forall i | 0 <= i < |live| ::
              var run := AllEnriched(live, durable)[i];
              && run.(durableId := live[i].durableId, tracking := live[i].tracking) == live[i]
              && (live[i].durableId != "" ==> run.durableId == live[i].durableId)
  {
    hide Sort, Enriched, OnlyDurable, Strangers;
    NewerIsStrictWeak();
    SortOrders(Newer, Board(live, durable, age));
    SortPermutes(Newer, Board(live, durable, age));
    OnlyStrangersJoin(live, durable, age);
    forall i | 0 <= i < |live|
      ensures AllEnriched(live, durable)[i].(durableId := live[i].durableId, tracking := live[i].tracking) == live[i]
      ensures live[i].durableId != "" ==> AllEnriched(live, durable)[i].durableId == live[i].durableId
    {
      EnrichedKeepsTheRest(live, durable, i);
    }
  }

  // ---------------------------------------------------------- what rows contribute

  /** A live run ends up tracked exactly if it was, or some row vouches for it. */
  lemma {:induction false} TrackedIffVouchedFor(live: seq<Run>, durable: seq<Run>, i: nat)
    requires i < |live|
    ensures Enriched(live, durable, i).tracking
         == if exists j :: 0 <= j < |durable| && Vouches(live, durable[j], i) then TRACKED else live[i].tracking
  {
    hide Vouches, About;
    if durable != [] {
      var front := durable[..|durable| - 1];
      TrackedIffVouchedFor(live, front, i);
      if j :| 0 <= j < |front| && Vouches(live, front[j], i) {
        assert Vouches(live, durable[j], i);
      }
      VouchingIsAbout(live, durable[|durable| - 1], i);
    }
  }

  lemma VouchingIsAbout(live: seq<Run>, row: Run, i: nat)
    ensures Vouches(live, row, i) ==> About(live, row, i)
  {
  }

  /** Tracking is never promoted through a run key alone: some tracked row carries
      the durable key or the resource key of the live run. */
  lemma PromotionNeedsIdentity(live: seq<Run>, durable: seq<Run>, i: nat)
    requires i < |live| && Enriched(live, durable, i).tracking != live[i].tracking
    ensures exists j :: 0 <= j < |durable| && durable[j].tracking == TRACKED
              && (|| (HasDurableKey(live[i]) && durable[j].durableId == live[i].durableId)
                  || (HasResourceKey(live[i]) && HasResourceKey(durable[j])
                      && ResourceKey(durable[j]) == ResourceKey(live[i])))
  {
    TrackedIffVouchedFor(live, durable, i);
    var j :| 0 <= j < |durable| && Vouches(live, durable[j], i);
    VouchingSharesIdentity(live, durable[j], i);
  }

  lemma VouchingSharesIdentity(live: seq<Run>, row: Run, i: nat)
    requires i < |live| && Vouches(live, row, i)
    ensures row.tracking == TRACKED
    ensures || (HasDurableKey(live[i]) && row.durableId == live[i].durableId)
            || (HasResourceKey(live[i]) && HasResourceKey(row) && ResourceKey(row) == ResourceKey(live[i]))
  {
    MatchIsLive(live, row);
    hide Match, ResourceKey, RunKey, Holder;
    KindsDiffer(row, live[i]);
    KindsDiffer(live[i], row);
    KindsDiffer(row, row);
    if DurableKey(row) == DurableKey(live[i]) {
      assert row.durableId == DurableKey(row)[8..] == DurableKey(live[i])[8..] == live[i].durableId;
    }
  }

  /** A live run without a durable id takes the first one the rows about it offer. */
  lemma {:induction false} FirstIdIsTaken(live: seq<Run>, durable: seq<Run>, i: nat)
    requires i < |live| && live[i].durableId == ""
    ensures var id := Enriched(live, durable, i).durableId;
            if id == "" then forall j | 0 <= j < |durable| && About(live, durable[j], i) :: durable[j].durableId == ""
            else exists j :: 0 <= j < |durable| && About(live, durable[j], i) && durable[j].durableId == id
                   && forall k | 0 <= k < j && About(live, durable[k], i) :: durable[k].durableId == ""
  {
    hide Vouches, About;
    if durable != [] {
      var front := durable[..|durable| - 1];
      FirstIdIsTaken(live, front, i);
      assert forall j | 0 <= j < |front| :: front[j] == durable[j];
      if Enriched(live, front, i).durableId != "" {
        var id := Enriched(live, front, i).durableId;
        var j :| 0 <= j < |front| && About(live, front[j], i) && front[j].durableId == id
                 && forall k | 0 <= k < j && About(live, front[k], i) :: front[k].durableId == "";
        assert About(live, durable[j], i);
      }
    }
  }

  // ----------------------------------------------------------------- what keys tell

  predicate SameResource(a: Run, b: Run) {
    a.cluster == b.cluster && a.namespace == b.namespace && a.resourceUid == b.resourceUid
  }

  /** No other resource that has a key has this one's. */
  ghost predicate NamesOne(a: Run) {
    forall b | HasResourceKey(b) && ResourceKey(b) == ResourceKey(a) :: SameResource(a, b)
  }

  /** Slashes in the parts of a key, other than one at its very ends or one that is the
      whole namespace. */
  predicate Ambiguous(a: Run)
    requires HasResourceKey(a)
  {
    '/' in a.cluster[1..] || ('/' in a.namespace && a.namespace != "/") || '/' in a.resourceUid[..|a.resourceUid| - 1]
  }

  function Parts(run: Run): string {
    run.cluster + "/" + run.namespace + "/" + run.resourceUid
  }

  lemma KeyIsParts(a: Run, b: Run)
    ensures ResourceKey(a) == ResourceKey(b) <==> Parts(a) == Parts(b)
  {
    assert ResourceKey(a) == "resource:" + Parts(a) && ResourceKey(b) == "resource:" + Parts(b);
    assert ResourceKey(a)[9..] == Parts(a) && ResourceKey(b)[9..] == Parts(b);
  }

  /** The slashes inside the parts of an unambiguous key are the two that separate
      them, and the namespace if it is one. */
  lemma InnerSlashes(a: Run, k: nat)
    requires HasResourceKey(a) && 0 < k < |Parts(a)| - 1 && Parts(a)[k] == '/'
    ensures var i, j := |a.cluster|, |a.cluster| + 1 + |a.namespace|;
            k == i || k == j || (a.namespace == "/" && k == i + 1) || Ambiguous(a)
  {
    var i, j := |a.cluster|, |a.cluster| + 1 + |a.namespace|;
    if k < i {
      assert a.cluster[1..][k - 1] == '/';
    } else if i < k < j {
      assert a.namespace[k - i - 1] == '/';
    } else if j < k {
      assert a.resourceUid[..|a.resourceUid| - 1][k - j - 1] == '/';
    }
  }

  /** A resource key names one resource exactly if it is not ambiguous; keys without
      slashes in their parts never are. */
  lemma ResourceKeyIdentifies(a: Run)
    requires HasResourceKey(a)
    ensures NamesOne(a) <==> !Ambiguous(a)
    ensures '/' !in a.cluster && '/' !in a.namespace && '/' !in a.resourceUid ==> NamesOne(a)
  {
    hide Ambiguous, ResourceKey, SameResource;
    if Ambiguous(a) {
      var b := AmbiguousTwin(a);
      assert !NamesOne(a);
    } else {
      forall b | HasResourceKey(b) && ResourceKey(b) == ResourceKey(a) ensures SameResource(a, b) {
        KeyIsParts(a, b);
        UnambiguousTwins(a, b);
      }
    }
    if '/' !in a.cluster && '/' !in a.namespace && '/' !in a.resourceUid {
      SlashFreeIsUnambiguous(a);
    }
  }

  lemma SlashFreeIsUnambiguous(a: Run)
    requires HasResourceKey(a) && '/' !in a.cluster && '/' !in a.namespace && '/' !in a.resourceUid
    ensures !Ambiguous(a)
  {
  }

  lemma UnambiguousTwins(a: Run, b: Run)
    requires HasResourceKey(a) && HasResourceKey(b) && !Ambiguous(a) && Parts(a) == Parts(b)
    ensures SameResource(a, b)
  {
    hide Ambiguous;
    var i, j := |b.cluster|, |b.cluster| + 1 + |b.namespace|;
    assert Parts(b)[i] == '/' && Parts(b)[j] == '/';
    InnerSlashes(a, i);
    InnerSlashes(a, j);
    assert Parts(a)[..|a.cluster|] == a.cluster && Parts(b)[..i] == b.cluster;
    assert Parts(a)[|a.cluster| + 1..|a.cluster| + 1 + |a.namespace|] == a.namespace && Parts(b)[i + 1..j] == b.namespace;
    assert Parts(a)[|a.cluster| + 2 + |a.namespace|..] == a.resourceUid && Parts(b)[j + 1..] == b.resourceUid;
  }

  lemma CutAt(s: string, k: nat)
    requires k < |s| && s[k] == '/'
    ensures s == s[..k] + "/" + s[k + 1..]
  {
  }

  /** Moving a slash from one part to the next. */
  lemma Regroup(x: string, y: string, z: string, u: string)
    ensures (x + "/" + y) + "/" + z + "/" + u == x + "/" + (y + "/" + z) + "/" + u
    ensures x + "/" + (y + "/" + z) + "/" + u == x + "/" + y + "/" + (z + "/" + u)
  {
  }

  /** An ambiguous key is the key of another resource too. */
  lemma AmbiguousTwin(a: Run) returns (b: Run)
    requires HasResourceKey(a) && Ambiguous(a)
    ensures HasResourceKey(b) && ResourceKey(b) == ResourceKey(a) && !SameResource(a, b)
  {
    hide ResourceKey;
    if '/' in a.cluster[1..] {
      var k :| 1 <= k < |a.cluster| && a.cluster[k] == '/';
      CutAt(a.cluster, k);
      b := a.(cluster := a.cluster[..k], namespace := a.cluster[k + 1..] + "/" + a.namespace);
      Regroup(a.cluster[..k], a.cluster[k + 1..], a.namespace, a.resourceUid);
    } else if '/' in a.namespace && a.namespace != "/" {
      var k :| 0 <= k < |a.namespace| && a.namespace[k] == '/';
      CutAt(a.namespace, k);
      Regroup(a.cluster, a.namespace[..k], a.namespace[k + 1..], a.resourceUid);
      b := if k > 0 then a.(namespace := a.namespace[..k], resourceUid := a.namespace[k + 1..] + "/" + a.resourceUid)
           else a.(cluster := a.cluster + "/" + a.namespace[..k], namespace := a.namespace[k + 1..]);
    } else {
      var k :| 0 <= k < |a.resourceUid| - 1 && a.resourceUid[k] == '/';
      CutAt(a.resourceUid, k);
      b := a.(namespace := a.namespace + "/" + a.resourceUid[..k], resourceUid := a.resourceUid[k + 1..]);
      Regroup(a.cluster, a.namespace, a.resourceUid[..k], a.resourceUid[k + 1..]);
    }
    KeyIsParts(a, b);
  }

  lemma LaterHoldsTheSlash(x: string, u: string, y: string, v: string)
    requires x + "/" + u == y + "/" + v && |y| < |x|
    ensures '/' in v
  {
    assert (y + "/" + v)[|x|] == (x + "/" + u)[|x|] == '/';
    assert v[|x| - |y| - 1] == '/';
  }

  lemma LastSlashSplits(x: string, u: string, y: string, v: string)
    requires '/' !in u && '/' !in v && x + "/" + u == y + "/" + v
    ensures x == y && u == v
  {
    if |y| < |x| {
      LaterHoldsTheSlash(x, u, y, v);
    } else if |x| < |y| {
      LaterHoldsTheSlash(y, v, x, u);
    } else {
      var s := x + "/" + u;
      assert x == s[..|x|] == y && u == s[|x| + 1..] == v;
    }
  }

  /** Among resources whose namespace and uid hold no slash, as those of Kubernetes, a
      key names one resource whatever the cluster is called. */
  lemma KubernetesKeysIdentify(a: Run, b: Run)
    requires '/' !in a.namespace && '/' !in a.resourceUid && '/' !in b.namespace && '/' !in b.resourceUid
    ensures ResourceKey(a) == ResourceKey(b) <==> SameResource(a, b)
  {
    KeyIsParts(a, b);
    if Parts(a) == Parts(b) {
      LastSlashSplits(a.cluster + "/" + a.namespace, a.resourceUid, b.cluster + "/" + b.namespace, b.resourceUid);
      LastSlashSplits(a.cluster, a.namespace, b.cluster, b.namespace);
    }
  }
}

/** The workload-profile catalogue: normalisation of profiles and of the observed
    lists they carry. */
module ProfileCatalogue {
  import opened GoText
  import opened Wrappers
  import opened StableOrder

  // ------------------------------------------------------------------------- names

  predicate IsLower(c: char) { 'a' <= c <= 'z' }
  predicate IsDigit(c: char) { '0' <= c <= '9' }
  predicate IsAlnum(c: char) { IsLower(c) || IsDigit(c) }

  /** The DNS subdomain names of RFC 1123 as Kubernetes checks them. */
  predicate DnsName(s: string) {
    && 0 < |s| <= 253
    && (forall i | 0 <= i < |s| :: IsAlnum(s[i]) || s[i] == '-' || s[i] == '.')
    && IsAlnum(s[0]) && IsAlnum(s[|s| - 1])
    && (forall i | 0 < i < |s| - 1 && s[i] == '.' :: IsAlnum(s[i - 1]) && IsAlnum(s[i + 1]))
  }

  predicate LabelValue(s: string) {
    var mid := (c: char) => IsAlnum(c) || 'A' <= c <= 'Z' || c == '-' || c == '_' || c == '.';
    var end := (c: char) => IsAlnum(c) || 'A' <= c <= 'Z';
    s == "" || (|s| <= 63 && end(s[0]) && end(s[|s| - 1]) && forall i | 0 <= i < |s| :: mid(s[i]))
  }

  function Dashed(s: string): (r: string)
    ensures |r| == |s|
    ensures forall i | 0 <= i < |s| :: r[i] == if s[i] == '_' || s[i] == ' ' then '-' else s[i]
  {
    seq(|s|, i requires 0 <= i < |s| => if s[i] == '_' || s[i] == ' ' then '-' else s[i])
  }

  function TrimDotsLeft(s: string): string {
    if s != "" && s[0] == '.' then TrimDotsLeft(s[1..]) else s
  }

  function TrimDotsRight(s: string): string {
    if s != "" && s[|s| - 1] == '.' then TrimDotsRight(s[..|s| - 1]) else s
  }

  /** `normalizeLabel`. */
  function NormalizeLabel(text: Text, s: string): string {
    Dashed(text.lower(text.trim(s)))
  }

  /** `normalizeName`. */
  function NormalizeName(text: Text, s: string): string {
    TrimDotsRight(TrimDotsLeft(NormalizeLabel(text, s)))
  }

  /** Trimming and lower-casing leave DNS names alone. */
  ghost predicate KeepsDnsNames(text: Text) {
    forall s | DnsName(s) :: text.lower(text.trim(s)) == s
  }

  lemma DnsNameIsNormal(text: Text, s: string)
    requires KeepsDnsNames(text) && DnsName(s)
    ensures NormalizeName(text, s) == s
  {
    assert Dashed(s) == s;
  }

  /** What the next results need of the library: lower-casing goes character by
      character, is settled after one pass, and makes or removes no dot, blank or other
      white space; trimming shortens exactly the strings with white space at an end. */
  ghost predicate CharWise(text: Text, space: char -> bool, low: char -> char) {
    && (forall s :: |text.lower(s)| == |s| && forall i | 0 <= i < |s| :: text.lower(s)[i] == low(s[i]))
    && (forall c :: low(low(c)) == low(c) && space(low(c)) == space(c))
    && (forall c :: (low(c) == '.' <==> c == '.') && (low(c) == ' ' <==> c == ' '))
    && low('-') == '-' && !space('-') && !space('_')
    && (forall s :: if SpaceAtEnd(space, s) then |text.trim(s)| < |s| else text.trim(s) == s)
  }

  predicate SpaceAtEnd(space: char -> bool, s: string) {
    s != "" && (space(s[0]) || space(s[|s| - 1]))
  }

  /** White space other than a blank. */
  function OddSpace(space: char -> bool): char -> bool {
    (c: char) => space(c) && c != ' '
  }

  function TrimDots(s: string): string {
    TrimDotsRight(TrimDotsLeft(s))
  }

  /** What normalising does to one character. */
  function Folded(low: char -> char, c: char): char {
    if low(c) == '_' || low(c) == ' ' then '-' else low(c)
  }

  function FoldedAll(low: char -> char, s: string): string {
    seq(|s|, i requires 0 <= i < |s| => Folded(low, s[i]))
  }

  lemma LabelIsFolded(text: Text, space: char -> bool, low: char -> char, s: string)
    requires CharWise(text, space, low)
    ensures Dashed(text.lower(s)) == FoldedAll(low, s)
  {
  }

  lemma FoldedTwice(text: Text, space: char -> bool, low: char -> char, s: string)
    requires CharWise(text, space, low)
    ensures FoldedAll(low, FoldedAll(low, s)) == FoldedAll(low, s)
  {
  }

  lemma FoldedSpace(text: Text, space: char -> bool, low: char -> char, s: string)
    requires CharWise(text, space, low)
    ensures SpaceAtEnd(space, FoldedAll(low, s)) <==> SpaceAtEnd(OddSpace(space), s)
  {
  }

  predicate KeepsDots(low: char -> char, s: string) {
    forall i | 0 <= i < |s| :: Folded(low, s[i]) == '.' <==> s[i] == '.'
  }

  lemma DotsAreKept(text: Text, space: char -> bool, low: char -> char, s: string)
    requires CharWise(text, space, low)
    ensures KeepsDots(low, s)
  {
  }

  /** Trimming dots does not look at other characters. */
  lemma {:induction false} TrimDotsAlong(low: char -> char, s: string)
    requires KeepsDots(low, s)
    ensures TrimDots(FoldedAll(low, s)) == FoldedAll(low, TrimDots(s))
    ensures TrimDots(TrimDots(s)) == TrimDots(s) && |TrimDots(s)| <= |s|
    decreases |s|
  {
    var r := FoldedAll(low, s);
    if s != "" && s[0] == '.' {
      assert r[1..] == FoldedAll(low, s[1..]);
      TrimDotsAlong(low, s[1..]);
    } else if s != "" && s[|s| - 1] == '.' {
      assert r[..|s| - 1] == FoldedAll(low, s[..|s| - 1]);
      assert TrimDotsLeft(s[..|s| - 1]) == s[..|s| - 1] && TrimDotsLeft(r[..|s| - 1]) == r[..|s| - 1];
      TrimDotsAlong(low, s[..|s| - 1]);
    }
  }

  /** A normalised name, in terms of the name given. */
  lemma NameIsFoldedCore(text: Text, space: char -> bool, low: char -> char, s: string)
    requires CharWise(text, space, low)
    ensures var core, n := TrimDots(text.trim(s)), NormalizeName(text, s);
            && n == FoldedAll(low, core) && |n| <= |text.trim(s)| && FoldedAll(low, n) == n && TrimDots(n) == n
            && (SpaceAtEnd(space, n) <==> SpaceAtEnd(OddSpace(space), core))
  {
    hide CharWise, TrimDots, Folded, NormalizeName, SpaceAtEnd, Dashed, KeepsDots;
    var trimmed := text.trim(s);
    var core := TrimDots(trimmed);
    NameIsTrimmedLabel(text, s);
    LabelIsFolded(text, space, low, trimmed);
    DotsAreKept(text, space, low, trimmed);
    TrimDotsAlong(low, trimmed);
    DotsAreKept(text, space, low, core);
    TrimDotsAlong(low, core);
    FoldedTwice(text, space, low, core);
    FoldedSpace(text, space, low, core);
  }

  lemma NameIsTrimmedLabel(text: Text, s: string)
    ensures NormalizeName(text, s) == TrimDots(Dashed(text.lower(text.trim(s))))
  {
  }

  /** Dots are trimmed after white space, so normalising a name a second time changes
      nothing exactly if, white space and then dots trimmed off it, the name has no
      white space other than a blank at an end. */
  lemma NameIsFixpointIff(text: Text, space: char -> bool, low: char -> char, s: string)
    requires CharWise(text, space, low)
    ensures NormalizeName(text, NormalizeName(text, s)) == NormalizeName(text, s)
       <==> !SpaceAtEnd(OddSpace(space), TrimDots(text.trim(s)))
  {
    hide CharWise, TrimDots, FoldedAll, NormalizeName, SpaceAtEnd;
    var n := NormalizeName(text, s);
    NameIsFoldedCore(text, space, low, s);
    NameIsFoldedCore(text, space, low, n);
    if SpaceAtEnd(space, n) {
      ShorterWhenTrimmed(text, space, low, n);
    } else {
      SameWhenTrimmed(text, space, low, n);
    }
  }

  lemma ShorterWhenTrimmed(text: Text, space: char -> bool, low: char -> char, n: string)
    requires CharWise(text, space, low) && SpaceAtEnd(space, n)
    ensures |text.trim(n)| < |n|
  {
  }

  lemma SameWhenTrimmed(text: Text, space: char -> bool, low: char -> char, n: string)
    requires CharWise(text, space, low) && !SpaceAtEnd(space, n)
    ensures text.trim(n) == n
  {
  }

  /** A tab behind a dot comes off only the second time. The fixpoint results below
      rest on the validation that follows. */
  lemma NameNormalizationCanMove(text: Text, space: char -> bool, low: char -> char)
    requires CharWise(text, space, low) && space('\t') && !space('.') && !space('a')
    ensures NormalizeName(text, NormalizeName(text, ".\ta")) != NormalizeName(text, ".\ta")
  {
    hide CharWise, NormalizeName;
    SameWhenTrimmed(text, space, low, ".\ta");
    assert TrimDots(".\ta") == "\ta" by {
      assert ".\ta"[1..] == "\ta";
    }
    NameIsFixpointIff(text, space, low, ".\ta");
  }

  // ------------------------------------------------------------------------- sets

  /** The distinct non-empty normalised values in order of first appearance. */
  function DistinctNames(text: Text, values: seq<string>): seq<string> {
    if values == [] then []
    else
      var front := DistinctNames(text, values[..|values| - 1]);
      var value := NormalizeName(text, values[|values| - 1]);
      if value == "" || value in front then front else front + [value]
  }

  function NormalizeSet(text: Text, values: seq<string>): seq<string> {
    SortStrings(DistinctNames(text, values))
  }

  /** `normalizeSet` with `normalizeName`. */
  method CollectSet(text: Text, values: seq<string>) returns (result: seq<string>)
    ensures result == NormalizeSet(text, values)
  {
    if |values| == 0 {
      return [];
    }
    result := [];
    var seen: set<string> := {};
    for i := 0 to |values|
      invariant result == DistinctNames(text, values[..i])
      invariant forall v :: v in seen <==> v in result
    {
      assert values[..i + 1][..i] == values[..i];
      var value := NormalizeName(text, values[i]);
      if value == "" {
        continue;
      }
      if value in seen {
        continue;
      }
      seen := seen + {value};
      result := result + [value];
    }
    assert values[..|values|] == values;
    result := SortStrings(result);
  }

  lemma {:induction false} DistinctNamesAre(text: Text, values: seq<string>)
    ensures forall i, j | 0 <= i < j < |DistinctNames(text, values)| ::
              DistinctNames(text, values)[i] != DistinctNames(text, values)[j]
    ensures forall v :: v in DistinctNames(text, values)
                   <==> v != "" && exists i :: 0 <= i < |values| && v == NormalizeName(text, values[i])
  {
    hide NormalizeName;
    if values != [] {
      var front, last := values[..|values| - 1], values[|values| - 1];
      DistinctNamesAre(text, front);
      forall v ensures v in DistinctNames(text, values)
                  <==> v != "" && exists i :: 0 <= i < |values| && v == NormalizeName(text, values[i])
      {
        if i :| 0 <= i < |values| && v == NormalizeName(text, values[i]) {
          assert i < |front| ==> values[i] == front[i];
        }
      }
    }
  }

  /** A normalised set is strictly increasing and holds exactly the non-empty
      normalised values. */
  lemma SetIsCanonical(text: Text, values: seq<string>)
    ensures forall i, j | 0 <= i < j < |NormalizeSet(text, values)| ::
              Precedes(NormalizeSet(text, values)[i], NormalizeSet(text, values)[j])
    ensures forall v :: v in NormalizeSet(text, values)
                   <==> v != "" && exists i :: 0 <= i < |values| && v == NormalizeName(text, values[i])
  {
    hide NormalizeName, SortStrings, Precedes, DistinctNames;
    DistinctNamesAre(text, values);
    SortedDistinct(DistinctNames(text, values));
  }

  lemma {:induction false} DistinctNamesKeep(text: Text, values: seq<string>)
    requires KeepsDnsNames(text) && forall v | v in values :: DnsName(v)
    requires forall i, j | 0 <= i < j < |values| :: values[i] != values[j]
    ensures DistinctNames(text, values) == values
  {
    hide NormalizeName, DnsName;
    if values != [] {
      var front, last := values[..|values| - 1], values[|values| - 1];
      DistinctNamesKeep(text, front);
      DnsNameIsNormal(text, last);
      NotEmpty(last);
      assert values == front + [last];
      assert last !in front;
    }
  }

  lemma NotEmpty(s: string)
    requires DnsName(s)
    ensures s != ""
  {
  }

  /** Normalising a normalised set of valid names changes nothing. */
  lemma SetIsFixpoint(text: Text, values: seq<string>)
    requires KeepsDnsNames(text) && forall v | v in NormalizeSet(text, values) :: DnsName(v)
    ensures NormalizeSet(text, NormalizeSet(text, values)) == NormalizeSet(text, values)
  {
    var r := NormalizeSet(text, values);
    hide NormalizeName, SortStrings, Precedes, DistinctNames, DnsName;
    SetIsCanonical(text, values);
    IncreasingStaySorted(r);
    forall i, j | 0 <= i < j < |r| ensures r[i] != r[j] {
      PrecedesIsTotal(r[i], r[j]);
    }
    DistinctNamesKeep(text, r);
  }

  // ------------------------------------------------------------------- local queues

  datatype LocalQueue = LocalQueue(namespace: string, name: string, clusterQueue: string)

  /** The key of the duplicate check. */
  function QueueKey(q: LocalQueue): string { q.namespace + "\0" + q.name }

  function NormalQueue(text: Text): LocalQueue -> LocalQueue {
    (q: LocalQueue) => LocalQueue(NormalizeName(text, q.namespace), NormalizeName(text, q.name), NormalizeName(text, q.clusterQueue))
  }

  predicate QueueBefore(a: LocalQueue, b: LocalQueue) {
    if a.namespace == b.namespace then Precedes(a.name, b.name) else Precedes(a.namespace, b.namespace)
  }

  ghost function NormalizeQueues(text: Text, queues: seq<LocalQueue>): Option<seq<LocalQueue>> {
    var items := Map(NormalQueue(text), queues);
    if UniqueBy(QueueKey, items) then Some(Sort(QueueBefore, items)) else None
  }

  /** `normalizeLocalQueues`. */
  method CollectQueues(text: Text, queues: seq<LocalQueue>) returns (result: Option<seq<LocalQueue>>)
    ensures result == NormalizeQueues(text, queues)
  {
    if |queues| == 0 {
      assert Map(NormalQueue(text), queues) == [];
      return Some([]);
    }
    var items: seq<LocalQueue> := [];
    var seen: set<string> := {};
    ghost var all := Map(NormalQueue(text), queues);
    for i := 0 to |queues|
      invariant items == all[..i] && UniqueBy(QueueKey, items) && Keys(QueueKey, items, seen)
    {
      var raw := queues[i];
      var item := LocalQueue(NormalizeName(text, raw.namespace), NormalizeName(text, raw.name),
                             NormalizeName(text, raw.clusterQueue));
      assert item == all[i];
      hide NormalizeName, Map, QueueKey, UniqueBy, Keys;
      assert all[..i + 1] == items + [item];
      SeenOneMore(QueueKey, items, item, seen);
      if QueueKey(item) in seen {
        RepeatInPrefix(QueueKey, all, i + 1);
        return None;
      }
      seen := seen + {QueueKey(item)};
      items := items + [item];
    }
    assert all[..|queues|] == all;
    result := Some(Sort(QueueBefore, items));
  }

  lemma QueueSplits(a: LocalQueue, b: LocalQueue, c: LocalQueue)
    ensures QueueBefore(a, c) ==> QueueBefore(a, b) || QueueBefore(b, c)
    ensures QueueBefore(a, b) ==> !QueueBefore(b, a)
  {
    hide Precedes;
    PrecedesIsTotal(a.namespace, b.namespace);
    PrecedesIsTotal(a.name, b.name);
    PrecedesIsTotal(b.namespace, c.namespace);
    PrecedesSplits(a.namespace, b.namespace, c.namespace);
    PrecedesSplits(a.name, b.name, c.name);
  }

  lemma QueueBeforeIsStrictWeak()
    ensures StrictWeak(QueueBefore)
  {
    hide QueueBefore;
    forall a, b, c ensures (QueueBefore(a, c) ==> QueueBefore(a, b) || QueueBefore(b, c))
                        && (QueueBefore(a, b) ==> !QueueBefore(b, a)) {
      QueueSplits(a, b, c);
    }
  }

  predicate DnsQueue(q: LocalQueue) {
    DnsName(q.namespace) && DnsName(q.name) && DnsName(q.clusterQueue)
  }

  lemma DnsQueueIsNormal(text: Text, q: LocalQueue)
    requires KeepsDnsNames(text) && DnsQueue(q)
    ensures NormalQueue(text)(q) == q
  {
    hide NormalizeName, DnsName;
    DnsNameIsNormal(text, q.namespace);
    DnsNameIsNormal(text, q.name);
    DnsNameIsNormal(text, q.clusterQueue);
  }

  lemma QueuesAreFixpoint(text: Text, queues: seq<LocalQueue>)
    requires KeepsDnsNames(text) && NormalizeQueues(text, queues).Some?
    requires forall q | q in NormalizeQueues(text, queues).value :: DnsQueue(q)
    ensures NormalizeQueues(text, NormalizeQueues(text, queues).value) == NormalizeQueues(text, queues)
  {
    hide NormalQueue, DnsQueue, Sort, QueueBefore, QueueKey;
    var items, r := Map(NormalQueue(text), queues), NormalizeQueues(text, queues).value;
    QueueBeforeIsStrictWeak();
    SortOrders(QueueBefore, items);
    SortPermutes(QueueBefore, items);
    PermutationKeepsUnique(QueueKey, items, r);
    forall i | 0 <= i < |r| ensures NormalQueue(text)(r[i]) == r[i] {
      DnsQueueIsNormal(text, r[i]);
    }
    assert Map(NormalQueue(text), r) == r;
    SortOfOrdered(QueueBefore, r);
  }

  // --------------------------------------------------------------- profile intents

  datatype Intent = Intent(
    name: string, description: string, teams: seq<string>, lanes: seq<string>, namespaces: seq<string>,
    gpusPerWorker: int, workerCount: int, mode: string, placement: string, defaultLocalQueue: string,
    executionTarget: string, workloadPriority: string, podPriority: string, disableDefaultPriorities: bool)

  const SINGLE_CLUSTER := "singleCluster"
  const MULTI_KUEUE := "multiKueue"

  function NormalTarget(text: Text, target: string): string {
    var trimmed := text.trim(target);
    var t := text.lower(trimmed);
    if t == "" || t == text.lower(SINGLE_CLUSTER) then SINGLE_CLUSTER
    else if t == text.lower(MULTI_KUEUE) then MULTI_KUEUE
    else trimmed
  }

  function LabelOf(text: Text): string -> string { s => NormalizeLabel(text, s) }
  function NameOf(text: Text): string -> string { s => NormalizeName(text, s) }

  /** `normalizeList`. */
  function NormalizeList(normalize: string -> string, values: seq<string>): seq<string> {
    SortStrings(Map(normalize, values))
  }

  /** `NormalizeWorkloadProfile`. */
  function NormalizeIntent(text: Text, p: Intent): Intent {
    Intent(
      NormalizeName(text, p.name), text.trim(p.description),
      NormalizeList(LabelOf(text), p.teams), NormalizeList(LabelOf(text), p.lanes),
      NormalizeList(NameOf(text), p.namespaces),
      p.gpusPerWorker, p.workerCount, NormalizeLabel(text, p.mode), NormalizeLabel(text, p.placement),
      NormalizeName(text, p.defaultLocalQueue), NormalTarget(text, p.executionTarget),
      NormalizeName(text, p.workloadPriority), NormalizeName(text, p.podPriority), p.disableDefaultPriorities)
  }

  predicate ValidList(valid: string -> bool, values: seq<string>) {
    && (forall i | 0 <= i < |values| :: values[i] != "" && valid(values[i]))
    && (forall i | 0 < i < |values| :: values[i] != values[i - 1])
  }

  predicate ValidPriorities(p: Intent) {
    if p.disableDefaultPriorities then p.workloadPriority == "" && p.podPriority == ""
    else DnsName(p.workloadPriority) && DnsName(p.podPriority)
  }

  /** `ValidateWorkloadProfile`: among other things, the profile must already be normal. */
  predicate ValidIntent(text: Text, p: Intent) {
    && p == NormalizeIntent(text, p)
    && DnsName(p.name)
    && ValidList(LabelValue, p.teams) && ValidList(LabelValue, p.lanes) && ValidList(DnsName, p.namespaces)
    && p.gpusPerWorker >= 0 && p.workerCount >= 1
    && p.mode in ["fixed", "elastic"]
    && p.placement in ["unconstrained", "same-host", "same-accelerator-domain", "same-network-domain", "same-site"]
    && DnsName(p.defaultLocalQueue)
    && p.executionTarget in [SINGLE_CLUSTER, MULTI_KUEUE]
    && ValidPriorities(p)
  }

  // ------------------------------------------------------------- resolved profiles

  datatype Condition = Condition(kind: string, status: string, generation: int, reason: string, message: string)

  datatype Profile = Profile(
    intent: Intent, localQueues: seq<LocalQueue>, clusterQueues: seq<string>, resourceFlavors: seq<string>,
    topologies: seq<string>, workloadPriorityClasses: seq<string>, podPriorityClasses: seq<string>,
    conditions: seq<Condition>)

  predicate ValidNames(names: seq<string>) {
    forall name | name in names :: DnsName(name)
  }

  predicate ValidQueues(queues: seq<LocalQueue>) {
    forall q | q in queues :: DnsQueue(q)
  }

  predicate ValidLists(p: Profile) {
    && ValidQueues(p.localQueues) && ValidNames(p.clusterQueues) && ValidNames(p.resourceFlavors)
    && ValidNames(p.topologies) && ValidNames(p.workloadPriorityClasses) && ValidNames(p.podPriorityClasses)
  }

  function WithSets(text: Text, p: Profile, intent: Intent, queues: seq<LocalQueue>): Profile {
    Profile(intent, queues, NormalizeSet(text, p.clusterQueues), NormalizeSet(text, p.resourceFlavors),
            NormalizeSet(text, p.topologies), NormalizeSet(text, p.workloadPriorityClasses),
            NormalizeSet(text, p.podPriorityClasses), p.conditions)
  }

  /** `NormalizeResolvedWorkloadProfile`; None where it refuses. */
  ghost function Normalize(text: Text, p: Profile): Option<Profile> {
    var intent := NormalizeIntent(text, p.intent);
    var queues := NormalizeQueues(text, p.localQueues);
    if !ValidIntent(text, intent) || queues.None? then None
    else
      var out := WithSets(text, p, intent, queues.value);
      if ValidLists(out) then Some(out) else None
  }

  method CheckNames(names: seq<string>) returns (ok: bool)
    ensures ok == ValidNames(names)
  {
    for i := 0 to |names|
      invariant forall k | 0 <= k < i :: DnsName(names[k])
    {
      if !DnsName(names[i]) {
        return false;
      }
    }
    ok := true;
  }

  /** The final checks of every name in the observed lists. */
  method CheckLists(out: Profile) returns (ok: bool)
    ensures ok == ValidLists(out)
  {
    hide DnsName;
    for i := 0 to |out.localQueues|
      invariant forall k | 0 <= k < i :: DnsQueue(out.localQueues[k])
    {
      if !DnsQueue(out.localQueues[i]) {
        return false;
      }
    }
    assert ValidQueues(out.localQueues);
    hide ValidQueues, ValidNames;
    var lists := [out.clusterQueues, out.resourceFlavors, out.topologies, out.workloadPriorityClasses, out.podPriorityClasses];
    assert ValidLists(out) <==> forall k | 0 <= k < 5 :: ValidNames(lists[k]) by {
      assert lists[0] == out.clusterQueues && lists[1] == out.resourceFlavors && lists[2] == out.topologies
          && lists[3] == out.workloadPriorityClasses && lists[4] == out.podPriorityClasses;
    }
    for i := 0 to 5
      invariant forall k | 0 <= k < i :: ValidNames(lists[k])
    {
      ok := CheckNames(lists[i]);
      if !ok {
        return;
      }
    }
    ok := true;
  }

  method NormalizeResolved(text: Text, p: Profile) returns (result: Option<Profile>)
    ensures result == Normalize(text, p)
  {
    var intent := NormalizeIntent(text, p.intent);
    if !ValidIntent(text, intent) {
      return None;
    }
    var queues := CollectQueues(text, p.localQueues);
    if queues.None? {
      return None;
    }
    hide NormalizeIntent, ValidIntent, NormalizeQueues, NormalizeSet, ValidLists;
    var out := p.(intent := intent, localQueues := queues.value);
    var names := CollectSet(text, p.clusterQueues);
    out := out.(clusterQueues := names);
    names := CollectSet(text, p.resourceFlavors);
    out := out.(resourceFlavors := names);
    names := CollectSet(text, p.topologies);
    out := out.(topologies := names);
    names := CollectSet(text, p.workloadPriorityClasses);
    out := out.(workloadPriorityClasses := names);
    names := CollectSet(text, p.podPriorityClasses);
    out := out.(podPriorityClasses := names);
    assert out == WithSets(text, p, intent, queues.value);
    var ok := CheckLists(out);
    result := if ok then Some(out) else None;
  }

  /** What normalisation accepts is normal: normalising it again gives it back. */
  lemma NormalizeIsFixpoint(text: Text, p: Profile)
    requires KeepsDnsNames(text) && Normalize(text, p).Some?
    ensures Normalize(text, Normalize(text, p).value) == Normalize(text, p)
  {
    hide NormalizeIntent, NormalizeQueues, NormalizeSet, DnsQueue, DnsName;
    QueuesAreFixpoint(text, p.localQueues);
    SetIsFixpoint(text, p.clusterQueues);
    SetIsFixpoint(text, p.resourceFlavors);
    SetIsFixpoint(text, p.topologies);
    SetIsFixpoint(text, p.workloadPriorityClasses);
    SetIsFixpoint(text, p.podPriorityClasses);
  }

  /** Conditions pass through normalisation untouched. */
  lemma ConditionsPassThrough(text: Text, p: Profile, conditions: seq<Condition>)
    ensures Normalize(text, p.(conditions := conditions))
         == match Normalize(text, p) case Some(n) => Some(n.(conditions := conditions)) case None => None
  {
    hide NormalizeIntent, ValidIntent, NormalizeQueues, NormalizeSet, ValidNames, DnsQueue;
  }
}

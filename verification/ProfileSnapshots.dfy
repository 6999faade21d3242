/** Sets of workload profiles: their hash, their snapshots, and the set a cluster
    publishes. */
module ProfileSnapshots {
  import opened GoText
  import opened Wrappers
  import opened StableOrder
  import opened ProfileCatalogue

  function NameOfProfile(p: Profile): string { p.intent.name }

  predicate ByName(a: Profile, b: Profile) { Precedes(a.intent.name, b.intent.name) }

  predicate ByKind(a: Condition, b: Condition) { Precedes(a.kind, b.kind) }

  lemma OrdersAreStrictWeak()
    ensures StrictWeak(ByName) && StrictWeak(ByKind)
  {
    hide Precedes;
    PrecedesIsStrictWeak();
  }

  /** SHA-256 of the canonical JSON, as a function of the canonical profiles. */
  type Digest = seq<Profile> -> string

  // ------------------------------------------------------------------ normal sets

  function SortedConditions(p: Profile): Profile {
    p.(conditions := Sort(ByKind, p.conditions))
  }

  ghost predicate AllNormal(text: Text, profiles: seq<Profile>) {
    forall i | 0 <= i < |profiles| :: Normalize(text, profiles[i]).Some?
  }

  /** What becomes of one profile of a set. */
  ghost function Settled(text: Text): Profile -> Profile {
    (p: Profile) => match Normalize(text, p) case Some(n) => SortedConditions(n) case None => p
  }

  /** `normalizeResolvedProfiles`; None where it refuses. */
  ghost function NormalizeAll(text: Text, profiles: seq<Profile>): Option<seq<Profile>> {
    var settled := Map(Settled(text), profiles);
    if AllNormal(text, profiles) && UniqueBy(NameOfProfile, settled) then Some(Sort(ByName, settled)) else None
  }

  lemma SettledAt(text: Text, profiles: seq<Profile>, i: nat)
    requires i < |profiles| && Normalize(text, profiles[i]).Some?
    ensures var n := Normalize(text, profiles[i]).value;
            && Map(Settled(text), profiles)[i] == SortedConditions(n)
            && NameOfProfile(SortedConditions(n)) == n.intent.name
  {
    hide Normalize, Sort;
  }

  method NormalizeProfiles(text: Text, profiles: seq<Profile>) returns (result: Option<seq<Profile>>)
    ensures result == NormalizeAll(text, profiles)
  {
    hide Normalize, Settled, SortedConditions, UniqueBy, Keys, Map;
    UniqueWhenEmpty(NameOfProfile);
    var out: seq<Profile> := [];
    var seen: set<string> := {};
    ghost var all := Map(Settled(text), profiles);
    for i := 0 to |profiles|
      invariant out == all[..i] && UniqueBy(NameOfProfile, out) && Keys(NameOfProfile, out, seen)
      invariant forall k | 0 <= k < i :: Normalize(text, profiles[k]).Some?
    {
      var normal := NormalizeResolved(text, profiles[i]);
      if normal.None? {
        return None;
      }
      var p := SortedConditions(normal.value);
      SettledAt(text, profiles, i);
      assert all[..i + 1] == out + [p];
      SeenOneMore(NameOfProfile, out, p, seen);
      if normal.value.intent.name in seen {
        RepeatInPrefix(NameOfProfile, all, i + 1);
        return None;
      }
      seen := seen + {normal.value.intent.name};
      out := out + [p];
    }
    assert all[..|profiles|] == all;
    result := Some(Sort(ByName, out));
  }

  lemma SettledIsFixpoint(text: Text, p: Profile)
    requires KeepsDnsNames(text) && Normalize(text, p).Some?
    ensures var q := Settled(text)(p);
            && Normalize(text, q) == Some(q) && Settled(text)(q) == q
  {
    hide Normalize, Sort;
    var n := Normalize(text, p).value;
    NormalizeIsFixpoint(text, p);
    ConditionsPassThrough(text, n, Sort(ByKind, n.conditions));
    OrdersAreStrictWeak();
    SortOrders(ByKind, n.conditions);
    SortOfOrdered(ByKind, Sort(ByKind, n.conditions));
  }

  /** A settled set: every profile normal, conditions sorted by type, and the
      profiles strictly ordered by name. */
  ghost predicate SettledSet(text: Text, profiles: seq<Profile>) {
    && (forall p | p in profiles :: Normalize(text, p) == Some(p) && Settled(text)(p) == p)
    && (forall i, j | 0 <= i < j < |profiles| :: Precedes(profiles[i].intent.name, profiles[j].intent.name))
  }

  lemma UniqueNamesIncrease(profiles: seq<Profile>)
    requires UniqueBy(NameOfProfile, profiles)
    ensures var r := Sort(ByName, profiles);
            forall i, j | 0 <= i < j < |r| :: Precedes(r[i].intent.name, r[j].intent.name)
  {
    hide Sort, Precedes;
    var r := Sort(ByName, profiles);
    OrdersAreStrictWeak();
    SortOrders(ByName, profiles);
    SortPermutes(ByName, profiles);
    PermutationKeepsUnique(NameOfProfile, profiles, r);
    forall i, j | 0 <= i < j < |r| ensures Precedes(r[i].intent.name, r[j].intent.name) {
      assert NameOfProfile(r[i]) != NameOfProfile(r[j]) && !ByName(r[j], r[i]);
      PrecedesIsTotal(r[i].intent.name, r[j].intent.name);
    }
  }

  lemma EachIsSettled(text: Text, profiles: seq<Profile>, p: Profile)
    requires KeepsDnsNames(text) && AllNormal(text, profiles) && p in Map(Settled(text), profiles)
    ensures Normalize(text, p) == Some(p) && Settled(text)(p) == p
  {
    hide Normalize, Settled;
    var i :| 0 <= i < |profiles| && Map(Settled(text), profiles)[i] == p;
    SettledIsFixpoint(text, profiles[i]);
  }

  lemma NormalizeAllSettles(text: Text, profiles: seq<Profile>)
    requires KeepsDnsNames(text) && NormalizeAll(text, profiles).Some?
    ensures SettledSet(text, NormalizeAll(text, profiles).value)
  {
    hide Normalize, Sort, Settled, Precedes, UniqueBy, AllNormal, Map, KeepsDnsNames;
    var settled, r := Map(Settled(text), profiles), NormalizeAll(text, profiles).value;
    SortPermutes(ByName, settled);
    SameElements(settled, r);
    forall p | p in r ensures Normalize(text, p) == Some(p) && Settled(text)(p) == p {
      EachIsSettled(text, profiles, p);
    }
    UniqueNamesIncrease(settled);
  }

  lemma SettledSetIsFixpoint(text: Text, profiles: seq<Profile>)
    requires SettledSet(text, profiles)
    ensures NormalizeAll(text, profiles) == Some(profiles)
  {
    hide Normalize, Sort, Settled, Precedes;
    assert Map(Settled(text), profiles) == profiles;
    OrdersAreStrictWeak();
    forall i, j | 0 <= i < j < |profiles|
      ensures NameOfProfile(profiles[i]) != NameOfProfile(profiles[j]) && !ByName(profiles[j], profiles[i])
    {
      PrecedesIsTotal(profiles[i].intent.name, profiles[j].intent.name);
    }
    SortOfOrdered(ByName, profiles);
  }

  /** Normalising a set of profiles twice is normalising it once. */
  lemma NormalizeAllIsFixpoint(text: Text, profiles: seq<Profile>)
    requires KeepsDnsNames(text) && NormalizeAll(text, profiles).Some?
    ensures NormalizeAll(text, NormalizeAll(text, profiles).value) == NormalizeAll(text, profiles)
  {
    hide NormalizeAll, SettledSet;
    NormalizeAllSettles(text, profiles);
    SettledSetIsFixpoint(text, NormalizeAll(text, profiles).value);
  }

  // ------------------------------------------------------------------------- hash

  function Bare(p: Profile): Profile { p.(conditions := []) }

  /** What the hash sees of a profile. */
  ghost function Canon(text: Text): Profile -> Profile {
    (p: Profile) => match Normalize(text, p) case Some(n) => Bare(n) case None => Bare(p)
  }

  /** `ProfileSetHash`; None where it refuses. */
  ghost function SetHash(text: Text, digest: Digest, profiles: seq<Profile>): Option<string> {
    var canonical := Map(Canon(text), profiles);
    if AllNormal(text, profiles) && UniqueBy(NameOfProfile, canonical) then Some(digest(Sort(ByName, canonical)))
    else None
  }

  lemma CanonAt(text: Text, profiles: seq<Profile>, i: nat)
    requires i < |profiles| && Normalize(text, profiles[i]).Some?
    ensures var n := Normalize(text, profiles[i]).value;
            Map(Canon(text), profiles)[i] == Bare(n) && NameOfProfile(Bare(n)) == n.intent.name
  {
    hide Normalize;
  }

  method HashProfiles(text: Text, digest: Digest, profiles: seq<Profile>) returns (result: Option<string>)
    ensures result == SetHash(text, digest, profiles)
  {
    hide Normalize, Canon, Bare, UniqueBy, Keys, Map;
    UniqueWhenEmpty(NameOfProfile);
    var canonical: seq<Profile> := [];
    var seen: set<string> := {};
    ghost var all := Map(Canon(text), profiles);
    for i := 0 to |profiles|
      invariant canonical == all[..i] && UniqueBy(NameOfProfile, canonical) && Keys(NameOfProfile, canonical, seen)
      invariant forall k | 0 <= k < i :: Normalize(text, profiles[k]).Some?
    {
      var normal := NormalizeResolved(text, profiles[i]);
      if normal.None? {
        return None;
      }
      var p := Bare(normal.value);
      CanonAt(text, profiles, i);
      assert all[..i + 1] == canonical + [p];
      SeenOneMore(NameOfProfile, canonical, p, seen);
      if normal.value.intent.name in seen {
        RepeatInPrefix(NameOfProfile, all, i + 1);
        return None;
      }
      seen := seen + {normal.value.intent.name};
      canonical := canonical + [p];
    }
    assert all[..|profiles|] == all;
    result := Some(digest(Sort(ByName, canonical)));
  }

  lemma CanonIgnoresConditions(text: Text, p: Profile, conditions: seq<Condition>)
    ensures Canon(text)(p.(conditions := conditions)) == Canon(text)(p)
    ensures Normalize(text, p.(conditions := conditions)).Some? <==> Normalize(text, p).Some?
  {
    hide Normalize;
    ConditionsPassThrough(text, p, conditions);
  }

  lemma HashIgnoresConditions(text: Text, digest: Digest, profiles: seq<Profile>)
    ensures SetHash(text, digest, Map(Bare, profiles)) == SetHash(text, digest, profiles)
  {
    hide Normalize, Canon;
    var bare := Map(Bare, profiles);
    forall i | 0 <= i < |profiles|
      ensures Canon(text)(bare[i]) == Canon(text)(profiles[i])
      ensures Normalize(text, bare[i]).Some? <==> Normalize(text, profiles[i]).Some?
    {
      CanonIgnoresConditions(text, profiles[i], []);
    }
    assert Map(Canon(text), bare) == Map(Canon(text), profiles);
    assert AllNormal(text, bare) <==> AllNormal(text, profiles);
  }

  lemma UniqueNamesAreUntied(profiles: seq<Profile>)
    requires UniqueBy(NameOfProfile, profiles)
    ensures Untied(ByName, Sort(ByName, profiles))
  {
    hide Sort, Precedes;
    SortPermutes(ByName, profiles);
    var r := Sort(ByName, profiles);
    PermutationKeepsUnique(NameOfProfile, profiles, r);
    forall i, j | 0 <= i < j < |r| ensures !Tied(ByName, r[i], r[j]) {
      assert NameOfProfile(r[i]) != NameOfProfile(r[j]);
      PrecedesIsTotal(r[i].intent.name, r[j].intent.name);
    }
  }

  lemma AllNormalPermutes(text: Text, a: seq<Profile>, b: seq<Profile>)
    requires multiset(a) == multiset(b) && AllNormal(text, a)
    ensures AllNormal(text, b)
  {
    hide Normalize;
    SameElements(a, b);
    forall i | 0 <= i < |b| ensures Normalize(text, b[i]).Some? {
      assert b[i] in a;
    }
  }

  lemma HashIgnoresOrder(text: Text, digest: Digest, a: seq<Profile>, b: seq<Profile>)
    requires multiset(a) == multiset(b)
    ensures SetHash(text, digest, a) == SetHash(text, digest, b)
  {
    hide AllNormal, Canon, Sort, UniqueBy;
    var x, y := Map(Canon(text), a), Map(Canon(text), b);
    MapPermutes(Canon(text), a, b);
    if AllNormal(text, a) {
      AllNormalPermutes(text, a, b);
    }
    if AllNormal(text, b) {
      AllNormalPermutes(text, b, a);
    }
    if UniqueBy(NameOfProfile, x) {
      PermutationKeepsUnique(NameOfProfile, x, y);
      UniqueNamesAreUntied(x);
      OrdersAreStrictWeak();
      SortForgetsOrder(ByName, x, y);
    }
    if UniqueBy(NameOfProfile, y) {
      PermutationKeepsUnique(NameOfProfile, y, x);
    }
  }

  /** Two sets with the same profiles but for order and conditions have one hash, or
      are both refused. */
  lemma HashIgnoresOrderAndConditions(text: Text, digest: Digest, a: seq<Profile>, b: seq<Profile>)
    requires multiset(Map(Bare, a)) == multiset(Map(Bare, b))
    ensures SetHash(text, digest, a) == SetHash(text, digest, b)
  {
    hide SetHash;
    HashIgnoresConditions(text, digest, a);
    HashIgnoresConditions(text, digest, b);
    HashIgnoresOrder(text, digest, Map(Bare, a), Map(Bare, b));
  }

  lemma CanonOfSettled(text: Text, p: Profile)
    requires KeepsDnsNames(text) && Normalize(text, p).Some?
    ensures Canon(text)(Settled(text)(p)) == Canon(text)(p)
    ensures Normalize(text, Settled(text)(p)).Some?
    ensures NameOfProfile(Settled(text)(p)) == NameOfProfile(Canon(text)(p))
  {
    hide Normalize, Sort;
    SettledIsFixpoint(text, p);
  }

  /** Normalising a set does not change its hash. */
  lemma HashSurvivesNormalization(text: Text, digest: Digest, profiles: seq<Profile>)
    requires KeepsDnsNames(text) && NormalizeAll(text, profiles).Some?
    ensures SetHash(text, digest, NormalizeAll(text, profiles).value) == SetHash(text, digest, profiles)
    ensures SetHash(text, digest, profiles).Some?
  {
    var settled := Map(Settled(text), profiles);
    hide Normalize, Canon, Settled, Sort, NameOfProfile;
    forall i | 0 <= i < |profiles|
      ensures Canon(text)(settled[i]) == Canon(text)(profiles[i]) && Normalize(text, settled[i]).Some?
      ensures NameOfProfile(settled[i]) == NameOfProfile(Map(Canon(text), profiles)[i])
    {
      CanonOfSettled(text, profiles[i]);
    }
    assert Map(Canon(text), settled) == Map(Canon(text), profiles);
    SortPermutes(ByName, settled);
    HashIgnoresOrder(text, digest, Sort(ByName, settled), settled);
    assert AllNormal(text, settled);
    forall i, j | 0 <= i < j < |profiles|
      ensures NameOfProfile(Map(Canon(text), profiles)[i]) != NameOfProfile(Map(Canon(text), profiles)[j])
    {
      assert NameOfProfile(settled[i]) != NameOfProfile(settled[j]);
    }
  }

  // -------------------------------------------------------------------- snapshots

  const API_VERSION := "tau.azure.com/v1alpha1"
  const KIND := "TauWorkloadProfileSnapshot"

  datatype Snapshot = Snapshot(apiVersion: string, kind: string, generation: int, hash: string, profiles: seq<Profile>)

  /** The first condition of a kind. */
  function FirstOf(conditions: seq<Condition>, kind: string): Option<Condition> {
    if conditions == [] then None
    else if conditions[0].kind == kind then Some(conditions[0])
    else FirstOf(conditions[1..], kind)
  }

  predicate IsReady(p: Profile, generation: int) {
    match FirstOf(p.conditions, "Ready")
    case Some(c) => c.status == "True" && c.generation == generation
    case None => false
  }

  /** `validateSnapshotReadiness`. */
  predicate AllReady(profiles: seq<Profile>, generation: int) {
    forall p | p in profiles :: IsReady(p, generation)
  }

  /** `NewProfileSetSnapshot`. */
  ghost function NewSnapshot(text: Text, digest: Digest, generation: int, profiles: seq<Profile>): Option<Snapshot> {
    if generation < 1 then None
    else match NormalizeAll(text, profiles)
      case None => None
      case Some(normalized) =>
        if !AllReady(normalized, generation) then None
        else match SetHash(text, digest, normalized)
          case None => None
          case Some(hash) => Some(Snapshot(API_VERSION, KIND, generation, hash, normalized))
  }

  /** `DecodeProfileSetSnapshot`, past the YAML reader. */
  ghost function DecodeSnapshot(text: Text, digest: Digest, s: Snapshot): Option<Snapshot> {
    if s.apiVersion != API_VERSION || s.kind != KIND || s.generation < 1 then None
    else match NormalizeAll(text, s.profiles)
      case None => None
      case Some(normalized) =>
        if !AllReady(normalized, s.generation) then None
        else match SetHash(text, digest, normalized)
          case None => None
          case Some(hash) => if s.hash != hash then None else Some(s.(profiles := normalized))
  }

  /** Decoding undoes encoding: a snapshot that was built reads back as itself. */
  lemma SnapshotRoundTrip(text: Text, digest: Digest, generation: int, profiles: seq<Profile>)
    requires KeepsDnsNames(text) && NewSnapshot(text, digest, generation, profiles).Some?
    ensures DecodeSnapshot(text, digest, NewSnapshot(text, digest, generation, profiles).value)
         == NewSnapshot(text, digest, generation, profiles)
  {
    hide NormalizeAll, SetHash, AllReady;
    NormalizeAllIsFixpoint(text, profiles);
  }

  /** A snapshot that decodes is one that could have been built from what it holds. */
  lemma DecodedWasBuilt(text: Text, digest: Digest, s: Snapshot)
    requires KeepsDnsNames(text) && DecodeSnapshot(text, digest, s).Some?
    ensures NewSnapshot(text, digest, s.generation, s.profiles) == DecodeSnapshot(text, digest, s)
  {
    hide NormalizeAll, SetHash, AllReady;
  }

  // ------------------------------------------------------------------ cluster set

  datatype Source = FromCluster | FromSnapshot

  datatype ProfileSet = ProfileSet(generation: int, hash: string, profiles: seq<Profile>, source: Source)

  datatype Cluster = Cluster(name: string, generation: int, conditions: seq<Condition>,
                             observedGeneration: int, hash: string, profiles: seq<Profile>)

  /** `requireCondition`. */
  predicate HasCondition(conditions: seq<Condition>, kind: string, generation: int, requireTrue: bool) {
    match FirstOf(conditions, kind)
    case Some(c) => c.generation == generation && (requireTrue ==> c.status == "True")
    case None => false
  }

  /** `decodeTauClusterProfileSet`, past the converter. */
  ghost function ClusterSet(text: Text, digest: Digest, c: Cluster): Option<ProfileSet> {
    if c.name != "cluster" || c.observedGeneration != c.generation
       || !HasCondition(c.conditions, "WorkloadProfilesReady", c.generation, false) || text.trim(c.hash) == "" then None
    else match NormalizeAll(text, c.profiles)
      case None => None
      case Some(profiles) =>
        if SetHash(text, digest, profiles) == Some(c.hash)
        then Some(ProfileSet(c.generation, c.hash, profiles, FromCluster)) else None
  }

  /** `profileSetFromSnapshot`. */
  ghost function SnapshotSet(text: Text, digest: Digest, s: Snapshot): Option<ProfileSet> {
    match DecodeSnapshot(text, digest, s)
    case None => None
    case Some(d) => Some(ProfileSet(d.generation, d.hash, d.profiles, FromSnapshot))
  }

  /** The export command never refuses for a hash that does not match. */
  lemma ExportHashAlwaysMatches(text: Text, digest: Digest, c: Cluster)
    requires KeepsDnsNames(text) && ClusterSet(text, digest, c).Some?
    ensures var published := ClusterSet(text, digest, c).value;
            var snapshot := NewSnapshot(text, digest, published.generation, published.profiles);
            snapshot.Some? ==> snapshot.value.hash == published.hash && snapshot.value.profiles == published.profiles
  {
    hide NormalizeAll, SetHash, AllReady, HasCondition;
    NormalizeAllIsFixpoint(text, c.profiles);
  }

  /** Reading the exported snapshot gives back the cluster's set. */
  lemma ExportedSetReadsBack(text: Text, digest: Digest, c: Cluster)
    requires KeepsDnsNames(text) && ClusterSet(text, digest, c).Some?
    ensures var published := ClusterSet(text, digest, c).value;
            var snapshot := NewSnapshot(text, digest, published.generation, published.profiles);
            snapshot.Some? ==> SnapshotSet(text, digest, snapshot.value) == Some(published.(source := FromSnapshot))
  {
    hide NormalizeAll, SetHash, AllReady, HasCondition;
    NormalizeAllIsFixpoint(text, c.profiles);
  }
}

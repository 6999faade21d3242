/** Choosing a workload profile for a request. */
module ProfileSelection {
  import opened GoText
  import opened Wrappers
  import opened StableOrder
  import opened ProfileCatalogue
  import opened ProfileSnapshots

  datatype Request = Request(name: string, namespace: string, team: string, lane: string, gpus: Option<int>)

  datatype Selection = Selection(generation: int, hash: string, profile: Profile, source: Source)

  // ------------------------------------------------------------------ authorisation

  /** `sort.SearchStrings` between two bounds. */
  function Search(values: seq<string>, value: string, lo: nat, hi: nat): (r: nat)
    requires lo <= hi <= |values|
    ensures lo <= r <= hi
    decreases hi - lo
  {
    if lo == hi then lo
    else
      var mid := (lo + hi) / 2;
      if Precedes(values[mid], value) then Search(values, value, mid + 1, hi) else Search(values, value, lo, mid)
  }

  /** `containsOrGlobal`. */
  predicate ContainsOrGlobal(values: seq<string>, value: string) {
    values == [] ||
    var i := Search(values, value, 0, |values|);
    i < |values| && values[i] == value
  }

  /** What lies left of where the search stops precedes the value, and what lies at
      or right of it does not. */
  lemma {:induction false} SearchDivides(values: seq<string>, value: string, lo: nat, hi: nat)
    requires lo <= hi <= |values| && Ordered(Precedes, values)
    ensures var r := Search(values, value, lo, hi);
            && (forall k | lo <= k < r :: Precedes(values[k], value))
            && (forall k | r <= k < hi :: !Precedes(values[k], value))
    decreases hi - lo
  {
    hide Precedes;
    if lo < hi {
      var mid := (lo + hi) / 2;
      if Precedes(values[mid], value) {
        SearchDivides(values, value, mid + 1, hi);
        forall k | lo <= k < mid ensures Precedes(values[k], value) {
          PrecedesSplits(values[mid], values[k], value);
          assert !Precedes(values[mid], values[k]);
        }
      } else {
        SearchDivides(values, value, lo, mid);
        forall k | mid < k < hi ensures !Precedes(values[k], value) {
          PrecedesSplits(values[k], values[mid], value);
          assert !Precedes(values[k], values[mid]);
        }
      }
    }
  }

  ghost function Position(values: seq<string>, value: string): (k: nat)
    requires value in values
    ensures k < |values| && values[k] == value
  {
    var k :| 0 <= k < |values| && values[k] == value;
    k
  }

  /** Binary search authorises exactly the members of a sorted list, and everyone
      when the list is empty. */
  lemma SearchIsMembership(values: seq<string>, value: string)
    requires Ordered(Precedes, values)
    ensures ContainsOrGlobal(values, value) <==> values == [] || value in values
  {
    hide Precedes;
    SearchDivides(values, value, 0, |values|);
    if value in values {
      var r, k := Search(values, value, 0, |values|), Position(values, value);
      PrecedesIsTotal(value, value);
      assert r <= k;
      PrecedesIsTotal(values[r], value);
      assert r < k ==> !Precedes(values[k], values[r]);
    }
  }

  predicate Authorized(text: Text, p: Profile, request: Request) {
    && ContainsOrGlobal(p.intent.namespaces, NormalizeName(text, request.namespace))
    && ContainsOrGlobal(p.intent.teams, NormalizeLabel(text, request.team))
    && ContainsOrGlobal(p.intent.lanes, NormalizeLabel(text, request.lane))
  }

  lemma NormalListsAreOrdered(text: Text, p: Profile)
    requires Normalize(text, p) == Some(p)
    ensures Ordered(Precedes, p.intent.namespaces) && Ordered(Precedes, p.intent.teams) && Ordered(Precedes, p.intent.lanes)
  {
    hide Precedes, Ordered, Sort, NormalizeQueues, NormalizeSet, ValidLists, Map, DnsName;
    PrecedesIsStrictWeak();
    SortOrders(Precedes, Map(NameOf(text), p.intent.namespaces));
    SortOrders(Precedes, Map(LabelOf(text), p.intent.teams));
    SortOrders(Precedes, Map(LabelOf(text), p.intent.lanes));
  }

  predicate Covers(values: seq<string>, value: string) {
    values == [] || value in values
  }

  /** A normalised profile authorises exactly the scopes its lists name. */
  lemma AuthorizationIsMembership(text: Text, p: Profile, request: Request)
    requires Normalize(text, p) == Some(p)
    ensures Authorized(text, p, request)
       <==> && Covers(p.intent.namespaces, NormalizeName(text, request.namespace))
            && Covers(p.intent.teams, NormalizeLabel(text, request.team))
            && Covers(p.intent.lanes, NormalizeLabel(text, request.lane))
  {
    hide NormalizeName, NormalizeLabel, Ordered, Normalize, ContainsOrGlobal;
    NormalListsAreOrdered(text, p);
    SearchIsMembership(p.intent.namespaces, NormalizeName(text, request.namespace));
    SearchIsMembership(p.intent.teams, NormalizeLabel(text, request.team));
    SearchIsMembership(p.intent.lanes, NormalizeLabel(text, request.lane));
  }

  // ---------------------------------------------------------------------- selection

  /** `requireProfileReady` and `authorizeProfile` both pass. */
  predicate Usable(text: Text, published: ProfileSet, p: Profile, request: Request) {
    HasCondition(p.conditions, "Ready", published.generation, true) && Authorized(text, p, request)
  }

  predicate Matches(text: Text, published: ProfileSet, p: Profile, request: Request) {
    Usable(text, published, p, request) && (request.gpus.Some? ==> p.intent.gpusPerWorker == request.gpus.value)
  }

  function Chosen(published: ProfileSet, p: Profile): Selection {
    Selection(published.generation, published.hash, p, published.source)
  }

  function Matching(text: Text, published: ProfileSet, profiles: seq<Profile>, request: Request): seq<Profile> {
    if profiles == [] then []
    else
      var last := profiles[|profiles| - 1];
      Matching(text, published, profiles[..|profiles| - 1], request)
      + if Matches(text, published, last, request) then [last] else []
  }

  /** `selectUniqueProfile`. */
  method SelectUnique(text: Text, published: ProfileSet, request: Request) returns (result: Option<Selection>)
    ensures result == UniqueSelection(text, published, request)
  {
    hide Usable;
    var matches: seq<Profile> := [];
    for i := 0 to |published.profiles|
      invariant matches == Matching(text, published, published.profiles[..i], request)
    {
      assert published.profiles[..i + 1][..i] == published.profiles[..i];
      var candidate := published.profiles[i];
      if !Usable(text, published, candidate, request) {
        continue;
      }
      if request.gpus.Some? && candidate.intent.gpusPerWorker != request.gpus.value {
        continue;
      }
      matches := matches + [candidate];
    }
    assert published.profiles[..|published.profiles|] == published.profiles;
    if |matches| != 1 {
      return None;
    }
    result := Some(Chosen(published, matches[0]));
  }

  function UniqueSelection(text: Text, published: ProfileSet, request: Request): Option<Selection> {
    var matches := Matching(text, published, published.profiles, request);
    if |matches| == 1 then Some(Chosen(published, matches[0])) else None
  }

  function FirstNamed(profiles: seq<Profile>, name: string): Option<Profile> {
    if profiles == [] then None
    else if profiles[0].intent.name == name then Some(profiles[0])
    else FirstNamed(profiles[1..], name)
  }

  /** `ProfileSet.Select`. */
  function Select(text: Text, published: ProfileSet, request: Request): Option<Selection> {
    var name := NormalizeName(text, request.name);
    if name == "" then UniqueSelection(text, published, request)
    else match FirstNamed(published.profiles, name)
      case None => None
      case Some(p) => if Usable(text, published, p, request) then Some(Chosen(published, p)) else None
  }

  ghost predicate IsOnlyMatch(text: Text, published: ProfileSet, request: Request, i: int) {
    && 0 <= i < |published.profiles| && Matches(text, published, published.profiles[i], request)
    && forall j | 0 <= j < |published.profiles| && j != i :: !Matches(text, published, published.profiles[j], request)
  }

  lemma {:induction false} MatchingCounts(text: Text, published: ProfileSet, profiles: seq<Profile>, request: Request)
    ensures Matching(text, published, profiles, request) == []
       <==> forall j | 0 <= j < |profiles| :: !Matches(text, published, profiles[j], request)
    ensures |Matching(text, published, profiles, request)| == 1
       <==> exists i :: 0 <= i < |profiles| && Matches(text, published, profiles[i], request)
              && Matching(text, published, profiles, request) == [profiles[i]]
              && forall j | 0 <= j < |profiles| && j != i :: !Matches(text, published, profiles[j], request)
    ensures forall i | 0 <= i < |profiles| && Matches(text, published, profiles[i], request)
              && (forall j | 0 <= j < |profiles| && j != i :: !Matches(text, published, profiles[j], request)) ::
              Matching(text, published, profiles, request) == [profiles[i]]
  {
    hide Matches;
    if profiles != [] {
      var front := profiles[..|profiles| - 1];
      MatchingCounts(text, published, front, request);
      assert forall j | 0 <= j < |front| :: front[j] == profiles[j];
    }
  }

  /** Selection without a name succeeds exactly if one profile is ready, authorised
      and of the requested GPU count, and it selects that profile. */
  lemma UniqueSelectionIff(text: Text, published: ProfileSet, request: Request)
    ensures UniqueSelection(text, published, request).Some? <==> exists i :: IsOnlyMatch(text, published, request, i)
    ensures forall i | IsOnlyMatch(text, published, request, i) ::
              UniqueSelection(text, published, request) == Some(Chosen(published, published.profiles[i]))
  {
    hide Matches, Matching;
    MatchingCounts(text, published, published.profiles, request);
    if UniqueSelection(text, published, request).Some? {
      var i :| 0 <= i < |published.profiles| && Matches(text, published, published.profiles[i], request)
               && forall j | 0 <= j < |published.profiles| && j != i :: !Matches(text, published, published.profiles[j], request);
      assert IsOnlyMatch(text, published, request, i);
    }
  }

  lemma {:induction false} FirstNamedIsThatOne(profiles: seq<Profile>, i: nat)
    requires i < |profiles|
    requires forall j | 0 <= j < i :: profiles[j].intent.name != profiles[i].intent.name
    ensures FirstNamed(profiles, profiles[i].intent.name) == Some(profiles[i])
  {
    if i > 0 {
      FirstNamedIsThatOne(profiles[1..], i - 1);
    }
  }

  lemma NormalNameStays(text: Text, p: Profile)
    requires KeepsDnsNames(text) && Normalize(text, p) == Some(p)
    ensures NormalizeName(text, p.intent.name) == p.intent.name && p.intent.name != ""
  {
    hide NormalizeQueues, NormalizeSet, ValidLists, NormalizeList;
    DnsNameIsNormal(text, p.intent.name);
  }

  /** Naming the selected profile selects it again. */
  lemma SelectionByOwnName(text: Text, published: ProfileSet, request: Request)
    requires KeepsDnsNames(text) && SettledSet(text, published.profiles)
    requires UniqueSelection(text, published, request).Some?
    ensures var selection := UniqueSelection(text, published, request).value;
            Select(text, published, request.(name := selection.profile.intent.name)) == Some(selection)
  {
    hide UniqueSelection, Authorized, Normalize, Settled, HasCondition, Precedes, NormalizeName, KeepsDnsNames;
    UniqueSelectionIff(text, published, request);
    var i :| IsOnlyMatch(text, published, request, i);
    var p := published.profiles[i];
    NormalNameStays(text, p);
    forall j | 0 <= j < i ensures published.profiles[j].intent.name != p.intent.name {
      PrecedesIsTotal(published.profiles[j].intent.name, p.intent.name);
    }
    FirstNamedIsThatOne(published.profiles, i);
    NameIsNotPartOfTheScope(text, p, request, p.intent.name);
  }

  lemma NameIsNotPartOfTheScope(text: Text, p: Profile, request: Request, name: string)
    ensures Authorized(text, p, request.(name := name)) == Authorized(text, p, request)
  {
    hide NormalizeName, NormalizeLabel, ContainsOrGlobal;
  }

  // ---------------------------------------------------------------------- rendering

  datatype Rendered = Rendered(name: string, lane: string, queue: string, executionTarget: string, team: string,
                               mode: string, placement: string, podPriority: string, workloadPriority: string,
                               disableDefaultPriorities: bool, gpus: int)

  function QueueFor(queues: seq<LocalQueue>, namespace: string, fallback: string): string {
    if queues == [] then fallback
    else if queues[0].namespace == namespace then queues[0].name
    else QueueFor(queues[1..], namespace, fallback)
  }

  /** `RenderProfile`. */
  ghost function Render(text: Text, p: Profile, namespace: string, team: string, lane: string): Option<Rendered> {
    match Normalize(text, p)
    case None => None
    case Some(n) =>
      if !Authorized(text, n, Request("", namespace, team, lane, None)) then None
      else
        var space := NormalizeName(text, namespace);
        Some(Rendered(n.intent.name, NormalizeLabel(text, lane), QueueFor(n.localQueues, space, n.intent.defaultLocalQueue),
                      n.intent.executionTarget, NormalizeLabel(text, team), n.intent.mode, n.intent.placement,
                      n.intent.podPriority, n.intent.workloadPriority, n.intent.disableDefaultPriorities,
                      n.intent.gpusPerWorker))
  }

  lemma {:induction false} FirstNamedIsListed(profiles: seq<Profile>, name: string)
    ensures FirstNamed(profiles, name).Some? ==> FirstNamed(profiles, name).value in profiles
  {
    if profiles != [] {
      FirstNamedIsListed(profiles[1..], name);
    }
  }

  lemma SelectedIsUsable(text: Text, published: ProfileSet, request: Request)
    requires Select(text, published, request).Some?
    ensures var p := Select(text, published, request).value.profile;
            p in published.profiles && Usable(text, published, p, request)
  {
    hide Usable, NormalizeName, UniqueSelection;
    UniqueSelectionIff(text, published, request);
    FirstNamedIsListed(published.profiles, NormalizeName(text, request.name));
  }

  /** Whatever is selected renders for the scope it was selected for, under its own
      name and with its own GPU count. */
  lemma SelectedProfileRenders(text: Text, published: ProfileSet, request: Request)
    requires SettledSet(text, published.profiles) && Select(text, published, request).Some?
    ensures var p := Select(text, published, request).value.profile;
            var rendered := Render(text, p, request.namespace, request.team, request.lane);
            rendered.Some? && rendered.value.name == p.intent.name && rendered.value.gpus == p.intent.gpusPerWorker
  {
    hide Select, Normalize, Authorized, Settled, HasCondition, NormalizeName, NormalizeLabel, QueueFor;
    SelectedIsUsable(text, published, request);
    var p := Select(text, published, request).value.profile;
    ScopeIsTheRequest(text, p, request);
  }

  lemma ScopeIsTheRequest(text: Text, p: Profile, request: Request)
    ensures Authorized(text, p, Request("", request.namespace, request.team, request.lane, None))
         == Authorized(text, p, request)
  {
    hide NormalizeName, NormalizeLabel, ContainsOrGlobal;
  }
}

/** The staged publication script (`wrapperScript`) run by any number of
    publishers of one publication id at once: one transition per system call,
    in any interleaving. `mv -n` is an atomic rename that does not replace, and
    a checksum stands for the content it is taken of. */
module Publication {
  import opened PublicationNames

  type Bytes = seq<char>

  datatype Entry = Regular(content: Bytes) | Irregular

  /** One run of the script: its process id and what its workload staged, in the
      order of the three glob patterns. */
  datatype Publisher = Publisher(id: string, pid: string, files: seq<(string, Entry)>) {
    function Dest(k: nat): string
      requires k < |files|
    {
      DestName(files[k].0)
    }

    function Temp(k: nat): string
      requires k < |files|
    {
      TempName(Dest(k), pid)
    }

    function MarkerText(): Bytes { "complete " + id + "\n" }

    /** The names only this run writes over or removes, and the marker. */
    ghost predicate Scratch(name: string) {
      || name == COMPLETION_MARKER || name == MarkerTempName(pid)
      || exists k :: 0 <= k < |files| && name == Temp(k)
    }
  }

  /** The durable generation directory: names of inodes, and their contents. */
  datatype Shared = Shared(names: map<string, nat>, data: seq<Bytes>) {
    function Remove(name: string): Shared { this.(names := names - {name}) }

    predicate Holds(name: string, content: Bytes) {
      name in names && names[name] < |data| && data[names[name]] == content
    }
  }

  datatype Pc =
    | Starting | At(k: nat) | Comparing(k: nat) | Clearing(k: nat) | Opening(k: nat)
    | Copying(k: nat, ino: nat, n: nat) | Verifying(k: nat) | Moving(k: nat) | Moved(k: nat)
    | Racing(k: nat) | Confirming(k: nat) | Marking | MarkMoving | Finished | Failed

  predicate InRange(p: Publisher, sh: Shared, pc: Pc) {
    match pc
    case At(k) => k <= |p.files|
    case Comparing(k) => k < |p.files| && p.files[k].1.Regular?
    case Clearing(k) => k < |p.files| && p.files[k].1.Regular?
    case Opening(k) => k < |p.files| && p.files[k].1.Regular?
    case Copying(k, ino, n) =>
      k < |p.files| && p.files[k].1.Regular? && n <= |p.files[k].1.content| && ino < |sh.data|
    case Verifying(k) => k < |p.files| && p.files[k].1.Regular?
    case Moving(k) => k < |p.files| && p.files[k].1.Regular?
    case Moved(k) => k < |p.files| && p.files[k].1.Regular?
    case Racing(k) => k < |p.files| && p.files[k].1.Regular?
    case Confirming(k) => k < |p.files| && p.files[k].1.Regular?
    case _ => true
  }

  /** What writing `bytes` through an open descriptor at offset `n` leaves. */
  function WriteAt(was: Bytes, n: nat, bytes: Bytes): Bytes {
    var padded := if |was| < n then was + seq(n - |was|, _ => '\0') else was;
    padded[..n] + bytes + if n + |bytes| <= |padded| then padded[n + |bytes|..] else []
  }

  /** Creating or truncating a file by name. */
  function Truncate(sh: Shared, name: string, content: Bytes): (Shared, nat) {
    if name in sh.names && sh.names[name] < |sh.data| then
      (sh.(data := sh.data[sh.names[name] := content]), sh.names[name])
    else
      (Shared(sh.names[name := |sh.data|], sh.data + [content]), |sh.data|)
  }

  /** The next system call of one publisher. `amount` is how much a copying
      step writes. */
  function StepOne(p: Publisher, sh: Shared, pc: Pc, amount: nat): (Shared, Pc)
    requires InRange(p, sh, pc)
  {
    match pc
    case Starting => (sh.Remove(COMPLETION_MARKER), At(0))
    case At(k) =>
      if k == |p.files| then (sh, Marking)
      else if Reserved(p.Dest(k)) || p.files[k].1.Irregular? then (sh, Failed)
      else if p.Dest(k) in sh.names then (sh, Comparing(k))
      else (sh, Clearing(k))
    case Comparing(k) =>
      if sh.Holds(p.Dest(k), p.files[k].1.content) then (sh, At(k + 1)) else (sh, Failed)
    case Clearing(k) => (sh.Remove(p.Temp(k)), Opening(k))
    case Opening(k) =>
      var (created, ino) := Truncate(sh, p.Temp(k), []);
      (created, Copying(k, ino, 0))
    case Copying(k, ino, n) =>
      var content := p.files[k].1.content;
      if n == |content| then (sh, Verifying(k))
      else
        var m := if amount == 0 then 1 else if n + amount > |content| then |content| - n else amount;
        (sh.(data := sh.data[ino := WriteAt(sh.data[ino], n, content[n..n + m])]), Copying(k, ino, n + m))
    case Verifying(k) =>
      if sh.Holds(p.Temp(k), p.files[k].1.content) then (sh, Moving(k))
      else (sh.Remove(p.Temp(k)), Failed)
    case Moving(k) =>
      if p.Temp(k) !in sh.names then (sh, Failed)
      else if p.Dest(k) in sh.names then (sh, Moved(k))
      else (sh.(names := (sh.names - {p.Temp(k)})[p.Dest(k) := sh.names[p.Temp(k)]]), Moved(k))
    case Moved(k) =>
      if p.Temp(k) in sh.names then (sh, Racing(k)) else (sh, Confirming(k))
    case Racing(k) =>
      (sh.Remove(p.Temp(k)), if sh.Holds(p.Dest(k), p.files[k].1.content) then At(k + 1) else Failed)
    case Confirming(k) =>
      (sh, if sh.Holds(p.Dest(k), p.files[k].1.content) then At(k + 1) else Failed)
    case Marking => (Truncate(sh, MarkerTempName(p.pid), p.MarkerText()).0, MarkMoving)
    case MarkMoving =>
      if MarkerTempName(p.pid) !in sh.names then (sh, Failed)
      else (Shared((sh.names - {MarkerTempName(p.pid)})[COMPLETION_MARKER := sh.names[MarkerTempName(p.pid)]], sh.data), Finished)
    case Finished => (sh, Finished)
    case Failed => (sh, Failed)
  }

  datatype System = System(shared: Shared, pcs: seq<Pc>)

  // ---------------------------------------------------------------- invariant

  /** The first `k` staged files are committed under their names. */
  ghost predicate Published(p: Publisher, sh: Shared, k: nat) {
    && k <= |p.files|
    && forall j | 0 <= j < k ::
         p.files[j].1.Regular? && !Reserved(p.Dest(j)) && sh.Holds(p.Dest(j), p.files[j].1.content)
  }

  /** The marker's temporary file, if it is there, is whole. */
  predicate MarkerTempSafe(p: Publisher, sh: Shared) {
    MarkerTempName(p.pid) in sh.names ==> sh.Holds(MarkerTempName(p.pid), p.MarkerText())
  }

  ghost predicate Local(p: Publisher, sh: Shared, pc: Pc) {
    && InRange(p, sh, pc)
    && match pc
       case Starting => true
       case At(k) => Published(p, sh, k)
       case Copying(k, ino, n) =>
         && Published(p, sh, k) && !Reserved(p.Dest(k))
         && p.Temp(k) in sh.names && sh.names[p.Temp(k)] == ino && sh.data[ino] == p.files[k].1.content[..n]
       case Moving(k) =>
         Published(p, sh, k) && !Reserved(p.Dest(k)) && sh.Holds(p.Temp(k), p.files[k].1.content)
       case Marking => Published(p, sh, |p.files|)
       case MarkMoving => Published(p, sh, |p.files|) && MarkerTempSafe(p, sh)
       case Finished => Published(p, sh, |p.files|)
       case Failed => true
       case _ => Published(p, sh, pc.k) && !Reserved(p.Dest(pc.k))
  }

  /** Distinct names are distinct inodes. */
  ghost predicate NoLinks(sh: Shared) {
    && (forall a | a in sh.names :: sh.names[a] < |sh.data|)
    && (forall a, b | a in sh.names && b in sh.names && sh.names[a] == sh.names[b] :: a == b)
  }

  ghost predicate Inv(pubs: seq<Publisher>, s: System) {
    && |s.pcs| == |pubs| && NoLinks(s.shared)
    && forall i | 0 <= i < |pubs| :: Local(pubs[i], s.shared, s.pcs[i])
  }

  /** The two runs share no temporary name of a file: they do if they have one process
      id and stage files under one name. With one process id they are runs of one
      publication id, so they would write the same marker. */
  predicate Compatible(p: Publisher, q: Publisher) {
    && (forall k, l | 0 <= k < |p.files| && 0 <= l < |q.files| :: p.Temp(k) != q.Temp(l))
    && (p.pid == q.pid ==> p.id == q.id)
  }

  predicate Coexist(pubs: seq<Publisher>) {
    forall i, j | 0 <= i < |pubs| && 0 <= j < |pubs| && i != j :: Compatible(pubs[i], pubs[j])
  }

  /** Process ids are plain, no two runs share a temporary name, and nobody stages a
      file under a name that some run uses for its own temporary files. */
  ghost predicate Separated(pubs: seq<Publisher>) {
    && (forall i | 0 <= i < |pubs| :: '.' !in pubs[i].pid)
    && Coexist(pubs)
    && (forall i, j, k | 0 <= i < |pubs| && 0 <= j < |pubs| && 0 <= k < |pubs[j].files| ::
          pubs[i].Scratch(pubs[j].Dest(k)) ==> pubs[j].Dest(k) == COMPLETION_MARKER)
  }

  /** `sh'` differs from `sh` only in what `p` may touch. */
  ghost predicate Touches(p: Publisher, sh: Shared, sh': Shared) {
    && |sh.data| <= |sh'.data|
    && forall name | name in sh.names && !p.Scratch(name) ::
         name in sh'.names && sh'.names[name] == sh.names[name]
         && (sh.names[name] < |sh.data| ==> sh'.data[sh.names[name]] == sh.data[sh.names[name]])
  }

  // -------------------------------------------------------------- preservation

  /** A publisher's own destinations are no scratch names of its own. */
  ghost predicate Apart(p: Publisher) {
    && '.' !in p.pid
    && forall k | 0 <= k < |p.files| :: p.Scratch(p.Dest(k)) ==> p.Dest(k) == COMPLETION_MARKER
  }

  lemma WriteAtEnd(was: Bytes, bytes: Bytes)
    ensures WriteAt(was, |was|, bytes) == was + bytes
  {
  }

  lemma TruncateKeeps(sh: Shared, name: string, content: Bytes)
    requires NoLinks(sh)
    ensures var (t, ino) := Truncate(sh, name, content);
            && NoLinks(t) && |sh.data| <= |t.data| && t.names.Keys == sh.names.Keys + {name}
            && t.names[name] == ino && t.Holds(name, content)
            && forall other | other in sh.names && other != name ::
                 t.names[other] == sh.names[other] && t.data[t.names[other]] == sh.data[sh.names[other]]
  {
  }

  lemma RemoveTouches(p: Publisher, sh: Shared, name: string)
    requires NoLinks(sh)
    ensures NoLinks(sh.Remove(name)) && (p.Scratch(name) ==> Touches(p, sh, sh.Remove(name)))
    ensures Touches(p, sh, sh)
  {
    hide Publisher.Scratch;
  }

  lemma TruncateTouches(p: Publisher, sh: Shared, name: string, content: Bytes)
    requires NoLinks(sh) && p.Scratch(name)
    ensures var t := Truncate(sh, name, content).0; NoLinks(t) && Touches(p, sh, t)
  {
    hide Publisher.Scratch, Truncate;
    TruncateKeeps(sh, name, content);
  }

  lemma WriteTouches(p: Publisher, sh: Shared, name: string, content: Bytes)
    requires NoLinks(sh) && p.Scratch(name) && name in sh.names
    ensures var t := sh.(data := sh.data[sh.names[name] := content]); NoLinks(t) && Touches(p, sh, t)
  {
    hide Publisher.Scratch;
  }

  /** A rename over a name that is free or scratch. */
  lemma RenameTouches(p: Publisher, sh: Shared, from: string, to: string)
    requires NoLinks(sh) && p.Scratch(from) && from in sh.names && (to !in sh.names || p.Scratch(to))
    ensures var t := sh.(names := (sh.names - {from})[to := sh.names[from]]); NoLinks(t) && Touches(p, sh, t)
  {
    hide Publisher.Scratch;
  }

  lemma ScratchNames(p: Publisher)
    ensures forall k | 0 <= k < |p.files| :: p.Scratch(p.Temp(k))
    ensures p.Scratch(COMPLETION_MARKER) && p.Scratch(MarkerTempName(p.pid))
  {
    hide Publisher.Temp, MarkerTempName;
  }

  /** Every step keeps names and inodes one to one, and touches only scratch. */
  lemma StepTouchesScratch(p: Publisher, sh: Shared, pc: Pc, amount: nat)
    requires Apart(p) && NoLinks(sh) && Local(p, sh, pc)
    ensures var (sh', pc') := StepOne(p, sh, pc, amount);
            NoLinks(sh') && Touches(p, sh, sh')
  {
    hide Published, Apart, Truncate, WriteAt, Reserved, NoLinks, Touches, Publisher.Scratch, Publisher.Temp, MarkerTempName;
    ScratchNames(p);
    RemoveTouches(p, sh, COMPLETION_MARKER);
    match pc
    case Clearing(k) => RemoveTouches(p, sh, p.Temp(k));
    case Opening(k) => TruncateTouches(p, sh, p.Temp(k), []);
    case Copying(k, ino, n) =>
      var content := p.files[k].1.content;
      if n != |content| {
        var m := if amount == 0 then 1 else if n + amount > |content| then |content| - n else amount;
        WriteTouches(p, sh, p.Temp(k), WriteAt(sh.data[ino], n, content[n..n + m]));
      }
    case Verifying(k) => RemoveTouches(p, sh, p.Temp(k));
    case Moving(k) =>
      if p.Temp(k) in sh.names && p.Dest(k) !in sh.names {
        RenameTouches(p, sh, p.Temp(k), p.Dest(k));
      }
    case Racing(k) => RemoveTouches(p, sh, p.Temp(k));
    case Marking => TruncateTouches(p, sh, MarkerTempName(p.pid), p.MarkerText());
    case MarkMoving =>
      if MarkerTempName(p.pid) in sh.names {
        RenameTouches(p, sh, MarkerTempName(p.pid), COMPLETION_MARKER);
      }
    case _ =>
  }

  lemma PublishedKept(p: Publisher, q: Publisher, sh: Shared, sh': Shared, k: nat)
    requires Published(p, sh, k) && Touches(q, sh, sh')
    requires forall j | 0 <= j < |p.files| :: q.Scratch(p.Dest(j)) ==> p.Dest(j) == COMPLETION_MARKER
    ensures Published(p, sh', k)
  {
    forall j | 0 <= j < k
      ensures p.files[j].1.Regular? && !Reserved(p.Dest(j)) && sh'.Holds(p.Dest(j), p.files[j].1.content)
    {
      assert !q.Scratch(p.Dest(j));
    }
  }

  lemma PublishedNext(p: Publisher, sh: Shared, k: nat)
    requires Published(p, sh, k) && k < |p.files| && p.files[k].1.Regular? && !Reserved(p.Dest(k))
    requires sh.Holds(p.Dest(k), p.files[k].1.content)
    ensures Published(p, sh, k + 1)
  {
  }

  lemma CopyingKeepsLocal(p: Publisher, sh: Shared, pc: Pc, amount: nat)
    requires pc.Copying? && NoLinks(sh) && Local(p, sh, pc)
    requires var sh' := StepOne(p, sh, pc, amount).0; Published(p, sh', pc.k)
    ensures var (sh', pc') := StepOne(p, sh, pc, amount); Local(p, sh', pc')
  {
    hide Published;
    var content := p.files[pc.k].1.content;
    if pc.n < |content| {
      var m := if amount == 0 then 1 else if pc.n + amount > |content| then |content| - pc.n else amount;
      WriteAtEnd(content[..pc.n], content[pc.n..pc.n + m]);
      assert content[..pc.n] + content[pc.n..pc.n + m] == content[..pc.n + m];
    }
  }

  lemma OpeningKeepsLocal(p: Publisher, sh: Shared, pc: Pc, amount: nat)
    requires pc.Opening? && NoLinks(sh) && Local(p, sh, pc)
    requires var sh' := StepOne(p, sh, pc, amount).0; Published(p, sh', pc.k)
    ensures var (sh', pc') := StepOne(p, sh, pc, amount); Local(p, sh', pc')
  {
    hide Published, Truncate;
    TruncateKeeps(sh, p.Temp(pc.k), []);
  }

  /** A publisher's own step keeps what is known of it. */
  lemma StepKeepsLocal(p: Publisher, sh: Shared, pc: Pc, amount: nat)
    requires Apart(p) && NoLinks(sh) && Local(p, sh, pc)
    ensures var (sh', pc') := StepOne(p, sh, pc, amount);
            Local(p, sh', pc')
  {
    hide Apart, Touches, NoLinks, Published, Truncate, WriteAt;
    var (sh', pc') := StepOne(p, sh, pc, amount);
    StepTouchesScratch(p, sh, pc, amount);
    OwnPublishedKept(p, sh, sh', pc);
    if pc.Copying? {
      CopyingKeepsLocal(p, sh, pc, amount);
    } else if pc.Opening? {
      OpeningKeepsLocal(p, sh, pc, amount);
    } else if pc.Marking? {
      TruncateKeeps(sh, MarkerTempName(p.pid), p.MarkerText());
    } else if pc'.At? {
      if pc.Starting? {
        NothingPublished(p, sh');
      } else {
        PublishedNext(p, sh, pc.k);
      }
    }
  }

  lemma NothingPublished(p: Publisher, sh: Shared)
    ensures Published(p, sh, 0)
  {
  }

  lemma OwnPublishedKept(p: Publisher, sh: Shared, sh': Shared, pc: Pc)
    requires Apart(p) && Touches(p, sh, sh') && Local(p, sh, pc)
    ensures forall k | Published(p, sh, k) :: Published(p, sh', k)
  {
    forall k | Published(p, sh, k)
      ensures Published(p, sh', k)
    {
      PublishedKept(p, p, sh, sh', k);
    }
  }

  /** Another publisher's step keeps it too. */
  lemma OthersKeepLocal(p: Publisher, q: Publisher, sh: Shared, sh': Shared, pc: Pc)
    requires '.' !in p.pid && '.' !in q.pid && Compatible(p, q)
    requires MarkerTempSafe(p, sh) ==> MarkerTempSafe(p, sh')
    requires forall k | 0 <= k < |p.files| :: q.Scratch(p.Dest(k)) ==> p.Dest(k) == COMPLETION_MARKER
    requires Touches(q, sh, sh') && NoLinks(sh) && Local(p, sh, pc)
    ensures Local(p, sh', pc)
  {
    hide Published, NoLinks;
    forall k | Published(p, sh, k)
      ensures Published(p, sh', k)
    {
      PublishedKept(p, q, sh, sh', k);
    }
    if pc.Copying? || pc.Moving? {
      TempsApart(p, q, pc.k);
    }
  }

  lemma TempsApart(p: Publisher, q: Publisher, k: nat)
    requires '.' !in p.pid && '.' !in q.pid && Compatible(p, q) && k < |p.files|
    ensures !q.Scratch(p.Temp(k))
  {
    TempNamesDistinct(p.Dest(k), p.pid, "", q.pid);
  }

  /** Runs with different process ids are compatible. */
  lemma DistinctPidsAreCompatible(p: Publisher, q: Publisher)
    requires '.' !in p.pid && '.' !in q.pid && p.pid != q.pid
    ensures Compatible(p, q)
  {
    forall k, l | 0 <= k < |p.files| && 0 <= l < |q.files| ensures p.Temp(k) != q.Temp(l) {
      TempNamesDistinct(p.Dest(k), p.pid, q.Dest(l), q.pid);
    }
  }

  lemma MarkerTempIsApart(p: Publisher, q: Publisher)
    requires '.' !in p.pid && '.' !in q.pid
    ensures var m := MarkerTempName(p.pid);
            && m != COMPLETION_MARKER && (m == MarkerTempName(q.pid) <==> p.pid == q.pid)
            && (forall k | 0 <= k < |q.files| :: m != q.Temp(k)) && p.Scratch(m)
  {
    TempNamesDistinct("", p.pid, "", q.pid);
    forall k | 0 <= k < |q.files| ensures MarkerTempName(p.pid) != q.Temp(k) {
      TempNamesDistinct(q.Dest(k), q.pid, "", p.pid);
    }
  }

  /** Nobody spoils the temporary file of a marker. */
  lemma StepKeepsMarkerTemp(p: Publisher, q: Publisher, sh: Shared, pc: Pc, amount: nat)
    requires '.' !in p.pid && '.' !in q.pid && (p.pid == q.pid ==> p.id == q.id)
    requires NoLinks(sh) && Local(q, sh, pc) && MarkerTempSafe(p, sh)
    requires forall k | 0 <= k < |q.files| :: p.Scratch(q.Dest(k)) ==> q.Dest(k) == COMPLETION_MARKER
    ensures MarkerTempSafe(p, StepOne(q, sh, pc, amount).0)
  {
    hide Published, Truncate, WriteAt, Publisher.Temp, MarkerTempName, Publisher.Scratch;
    MarkerTempIsApart(p, q);
    match pc
    case Opening(k) => TruncateKeeps(sh, q.Temp(k), []);
    case Marking => TruncateKeeps(sh, MarkerTempName(q.pid), q.MarkerText());
    case _ =>
  }

  // ------------------------------------------------------------ runs and results

  predicate Schedulable(pubs: seq<Publisher>, s: System, i: nat) {
    i < |pubs| && |s.pcs| == |pubs| && InRange(pubs[i], s.shared, s.pcs[i])
  }

  function Step(pubs: seq<Publisher>, s: System, i: nat, amount: nat): System
    requires Schedulable(pubs, s, i)
  {
    var (sh, pc) := StepOne(pubs[i], s.shared, s.pcs[i], amount);
    System(sh, s.pcs[i := pc])
  }

  /** One publisher after another takes a step; a publisher that is killed is
      simply not scheduled again. */
  function Run(pubs: seq<Publisher>, s: System, schedule: seq<(nat, nat)>): System {
    if schedule == [] then s
    else
      var before, (i, amount) := Run(pubs, s, schedule[..|schedule|-1]), schedule[|schedule|-1];
      if Schedulable(pubs, before, i) then Step(pubs, before, i, amount) else before
  }

  function Initial(pubs: seq<Publisher>, sh: Shared): System {
    System(sh, seq(|pubs|, _ => Starting))
  }

  lemma StepKeepsInv(pubs: seq<Publisher>, s: System, i: nat, amount: nat)
    requires Separated(pubs) && Inv(pubs, s) && i < |pubs|
    ensures Schedulable(pubs, s, i) && Inv(pubs, Step(pubs, s, i, amount))
    ensures Touches(pubs[i], s.shared, Step(pubs, s, i, amount).shared)
  {
    hide Published, NoLinks, Touches, StepOne, MarkerTempSafe, Publisher.Scratch;
    var p := pubs[i];
    assert Local(p, s.shared, s.pcs[i]) && InRange(p, s.shared, s.pcs[i]);
    assert Apart(p);
    var (sh, pc) := StepOne(p, s.shared, s.pcs[i], amount);
    StepTouchesScratch(p, s.shared, s.pcs[i], amount);
    StepKeepsLocal(p, s.shared, s.pcs[i], amount);
    forall j | 0 <= j < |pubs| && j != i
      ensures Local(pubs[j], sh, s.pcs[j])
    {
      if MarkerTempSafe(pubs[j], s.shared) {
        StepKeepsMarkerTemp(pubs[j], p, s.shared, s.pcs[i], amount);
      }
      OthersKeepLocal(pubs[j], p, s.shared, sh, s.pcs[j]);
    }
  }

  lemma {:induction false} RunKeepsInv(pubs: seq<Publisher>, s: System, schedule: seq<(nat, nat)>)
    requires Separated(pubs) && Inv(pubs, s)
    ensures Inv(pubs, Run(pubs, s, schedule))
  {
    hide Inv, Separated, Step;
    if schedule != [] {
      var front, last := schedule[..|schedule|-1], schedule[|schedule|-1];
      RunKeepsInv(pubs, s, front);
      if Schedulable(pubs, Run(pubs, s, front), last.0) {
        StepKeepsInv(pubs, Run(pubs, s, front), last.0, last.1);
      }
    }
  }

  /** No scratch name of anybody, so an artifact. */
  ghost predicate Artifact(pubs: seq<Publisher>, name: string) {
    forall i | 0 <= i < |pubs| :: !pubs[i].Scratch(name)
  }

  /** Committed artifacts never change: whatever publishers run concurrently and
      whenever they are killed, a committed file keeps its inode and content. */
  lemma {:induction false} CommittedNeverChanges(pubs: seq<Publisher>, s: System, schedule: seq<(nat, nat)>,
                                                 name: string, content: Bytes)
    requires Separated(pubs) && Inv(pubs, s) && Artifact(pubs, name)
    requires s.shared.Holds(name, content)
    ensures Run(pubs, s, schedule).shared.Holds(name, content)
    ensures Run(pubs, s, schedule).shared.names[name] == s.shared.names[name]
  {
    hide Inv, Separated, Step;
    if schedule != [] {
      var front, last := schedule[..|schedule|-1], schedule[|schedule|-1];
      CommittedNeverChanges(pubs, s, front, name, content);
      RunKeepsInv(pubs, s, front);
      var t := Run(pubs, s, front);
      if Schedulable(pubs, t, last.0) {
        StepKeepsInv(pubs, t, last.0, last.1);
        assert !pubs[last.0].Scratch(name);
      }
    }
  }

  lemma InitialSatisfiesInv(pubs: seq<Publisher>, sh: Shared)
    requires NoLinks(sh)
    ensures Inv(pubs, Initial(pubs, sh))
  {
  }

  /** A publisher that has written the marker has every one of its staged files
      committed with equal content, then and ever after. */
  lemma MarkerMeansPublished(pubs: seq<Publisher>, s: System, schedule: seq<(nat, nat)>, i: nat, k: nat)
    requires Separated(pubs) && Inv(pubs, s) && i < |pubs| && k < |pubs[i].files|
    requires var t := Run(pubs, s, schedule); i < |t.pcs| && t.pcs[i] == Finished
    ensures pubs[i].files[k].1.Regular?
    ensures Run(pubs, s, schedule).shared.Holds(pubs[i].Dest(k), pubs[i].files[k].1.content)
  {
    RunKeepsInv(pubs, s, schedule);
    assert Local(pubs[i], Run(pubs, s, schedule).shared, Finished);
  }

  /** Two publishers that both wrote the marker agree on every shared name. */
  lemma FinishedPublishersAgree(pubs: seq<Publisher>, s: System, schedule: seq<(nat, nat)>, i: nat, j: nat, k: nat, l: nat)
    requires Separated(pubs) && Inv(pubs, s) && i < |pubs| && j < |pubs| && k < |pubs[i].files| && l < |pubs[j].files|
    requires var t := Run(pubs, s, schedule);
             |t.pcs| == |pubs| && t.pcs[i] == Finished && t.pcs[j] == Finished
    requires pubs[i].Dest(k) == pubs[j].Dest(l)
    ensures pubs[i].files[k].1 == pubs[j].files[l].1
  {
    MarkerMeansPublished(pubs, s, schedule, i, k);
    MarkerMeansPublished(pubs, s, schedule, j, l);
  }
}

/** What a publication commits, and why the naming conditions of
    `Publication.Separated` cannot be dropped. */
module PublicationLimits {
  import opened PublicationNames
  import opened Publication

  // ------------------------------------------------------- only staged content

  /** Somebody staged `content` under the destination `name`. */
  ghost predicate Staged(pubs: seq<Publisher>, name: string, content: Bytes) {
    exists i, k :: 0 <= i < |pubs| && 0 <= k < |pubs[i].files|
                   && pubs[i].Dest(k) == name && pubs[i].files[k].1 == Regular(content)
  }

  ghost predicate Genuine(pubs: seq<Publisher>, start: Shared, sh: Shared) {
    forall name | name in sh.names && Artifact(pubs, name) && sh.names[name] < |sh.data| ::
      start.Holds(name, sh.data[sh.names[name]]) || Staged(pubs, name, sh.data[sh.names[name]])
  }

  /** A step can commit a new name only by moving a verified copy there. */
  lemma NewNameIsMovedCopy(p: Publisher, sh: Shared, pc: Pc, amount: nat, name: string)
    requires Local(p, sh, pc) && NoLinks(sh) && !p.Scratch(name)
    requires name !in sh.names && name in StepOne(p, sh, pc, amount).0.names
    ensures pc.Moving? && p.Dest(pc.k) == name
    ensures StepOne(p, sh, pc, amount).0.Holds(name, p.files[pc.k].1.content)
  {
    hide Published;
    assert forall k | 0 <= k < |p.files| :: p.Scratch(p.Temp(k));
  }

  lemma {:induction false} CommittedIsStaged(pubs: seq<Publisher>, sh: Shared, schedule: seq<(nat, nat)>)
    requires Separated(pubs) && NoLinks(sh)
    ensures Genuine(pubs, sh, Run(pubs, Initial(pubs, sh), schedule).shared)
  {
    hide Inv, Separated, Published, NoLinks, StepOne, Touches;
    if schedule != [] {
      var front, i, amount := schedule[..|schedule|-1], schedule[|schedule|-1].0, schedule[|schedule|-1].1;
      CommittedIsStaged(pubs, sh, front);
      InitialSatisfiesInv(pubs, sh);
      RunKeepsInv(pubs, Initial(pubs, sh), front);
      var s := Run(pubs, Initial(pubs, sh), front);
      if Schedulable(pubs, s, i) {
        StepIsGenuine(pubs, sh, s, i, amount);
      }
    }
  }

  lemma StepIsGenuine(pubs: seq<Publisher>, start: Shared, s: System, i: nat, amount: nat)
    requires Separated(pubs) && Inv(pubs, s) && Schedulable(pubs, s, i) && Genuine(pubs, start, s.shared)
    ensures Genuine(pubs, start, Step(pubs, s, i, amount).shared)
  {
    hide Separated, Published, StepOne;
    var t := Step(pubs, s, i, amount);
    StepKeepsInv(pubs, s, i, amount);
    assert Local(pubs[i], s.shared, s.pcs[i]);
    forall name | name in t.shared.names && Artifact(pubs, name) && t.shared.names[name] < |t.shared.data|
      ensures start.Holds(name, t.shared.data[t.shared.names[name]])
           || Staged(pubs, name, t.shared.data[t.shared.names[name]])
    {
      assert !pubs[i].Scratch(name);
      if name !in s.shared.names {
        NewNameIsMovedCopy(pubs[i], s.shared, s.pcs[i], amount, name);
        assert pubs[i].Dest(s.pcs[i].k) == name;
      }
    }
  }

  // ------------------------------------------------- shared process ids do harm

  /** Nothing a run holds under `name` is ever changed by continuing it. */
  ghost predicate Stable(pubs: seq<Publisher>, s: System, name: string) {
    forall early, late, content | Run(pubs, s, early).shared.Holds(name, content) ::
      Run(pubs, Run(pubs, s, early), late).shared.Holds(name, content)
  }

  /** The publisher stages one non-empty file, under no reserved name. */
  predicate OneFile(p: Publisher) {
    && '.' !in p.pid && |p.files| == 1 && !Reserved(p.Dest(0))
    && p.files[0].1.Regular? && p.files[0].1.content != []
  }

  /** Two publishers, each staging one non-empty file under the same name. */
  ghost predicate SoleFile(pubs: seq<Publisher>, name: string) {
    && |pubs| == 2
    && (forall i | 0 <= i < 2 :: OneFile(pubs[i]) && pubs[i].Dest(0) == name && name != MarkerTempName(pubs[i].pid))
  }

  const EMPTY := Shared(map[], [])

  lemma RunOne(pubs: seq<Publisher>, s: System, schedule: seq<(nat, nat)>, i: nat, amount: nat)
    requires Schedulable(pubs, Run(pubs, s, schedule), i)
    ensures Run(pubs, s, schedule + [(i, amount)]) == Step(pubs, Run(pubs, s, schedule), i, amount)
  {
    hide StepOne;
    assert (schedule + [(i, amount)])[..|schedule|] == schedule;
  }

  lemma TempIsNotFile(name: string, pid: string)
    ensures TempName(name, pid) != name
  {
    assert |TempName(name, pid)| > |name|;
  }

  lemma OwnTempIsNotFile(p: Publisher)
    requires |p.files| == 1
    ensures p.Temp(0) != p.Dest(0)
  {
    TempIsNotFile(p.Dest(0), p.pid);
  }

  lemma OneFileScratch(p: Publisher, name: string)
    requires |p.files| == 1 && !Reserved(name)
    ensures p.Scratch(name) <==> name == MarkerTempName(p.pid) || name == p.Temp(0)
  {
  }

  /** One publisher opens its temporary file while the other waits. */
  lemma OneOpens(pubs: seq<Publisher>, who: nat) returns (schedule: seq<(nat, nat)>)
    requires |pubs| == 2 && who < 2 && OneFile(pubs[who])
    ensures Run(pubs, Initial(pubs, EMPTY), schedule) ==
            System(Shared(map[pubs[who].Temp(0) := 0], [[]]), [Starting, Starting][who := Copying(0, 0, 0)])
  {
    var pcs := [Starting, Starting];
    schedule := [];
    RunOne(pubs, Initial(pubs, EMPTY), schedule, who, 0);
    schedule := schedule + [(who, 0)];
    assert Run(pubs, Initial(pubs, EMPTY), schedule) == System(EMPTY, pcs[who := At(0)]);
    RunOne(pubs, Initial(pubs, EMPTY), schedule, who, 0);
    schedule := schedule + [(who, 0)];
    assert Run(pubs, Initial(pubs, EMPTY), schedule) == System(EMPTY, pcs[who := Clearing(0)]);
    RunOne(pubs, Initial(pubs, EMPTY), schedule, who, 0);
    schedule := schedule + [(who, 0)];
    assert Run(pubs, Initial(pubs, EMPTY), schedule) == System(EMPTY, pcs[who := Opening(0)]);
    RunOne(pubs, Initial(pubs, EMPTY), schedule, who, 0);
    schedule := schedule + [(who, 0)];
  }

  /** It copies and verifies its file. */
  lemma OneVerifies(pubs: seq<Publisher>, who: nat) returns (schedule: seq<(nat, nat)>)
    requires |pubs| == 2 && who < 2 && OneFile(pubs[who])
    ensures Run(pubs, Initial(pubs, EMPTY), schedule) ==
            System(Shared(map[pubs[who].Temp(0) := 0], [pubs[who].files[0].1.content]), [Starting, Starting][who := Moving(0)])
  {
    var p, content, temp, pcs := pubs[who], pubs[who].files[0].1.content, pubs[who].Temp(0), [Starting, Starting];
    schedule := OneOpens(pubs, who);
    RunOne(pubs, Initial(pubs, EMPTY), schedule, who, |content|);
    schedule := schedule + [(who, |content|)];
    assert WriteAt([], 0, content) == content && content[0..0 + |content|] == content;
    assert Run(pubs, Initial(pubs, EMPTY), schedule) ==
           System(Shared(map[temp := 0], [content]), pcs[who := Copying(0, 0, |content|)]);
    RunOne(pubs, Initial(pubs, EMPTY), schedule, who, 0);
    schedule := schedule + [(who, 0)];
    assert Run(pubs, Initial(pubs, EMPTY), schedule) == System(Shared(map[temp := 0], [content]), pcs[who := Verifying(0)]);
    RunOne(pubs, Initial(pubs, EMPTY), schedule, who, 0);
    schedule := schedule + [(who, 0)];
  }

  /** The second, with the same process id, replaces that copy by its own, and
      the first then commits what the second has written so far. */
  lemma SecondReplaces(pubs: seq<Publisher>, name: string) returns (schedule: seq<(nat, nat)>)
    requires SoleFile(pubs, name) && pubs[0].pid == pubs[1].pid
    ensures Run(pubs, Initial(pubs, EMPTY), schedule) ==
            System(Shared(map[name := 1], [pubs[0].files[0].1.content, []]), [Moved(0), Copying(0, 1, 0)])
  {
    var content, temp := pubs[0].files[0].1.content, pubs[0].Temp(0);
    var start, copied := Initial(pubs, EMPTY), Shared(map[temp := 0], [content]);
    TempIsNotFile(name, pubs[0].pid);
    TempNamesDistinct(name, pubs[0].pid, name, pubs[0].pid);
    schedule := OneVerifies(pubs, 0);
    RunOne(pubs, start, schedule, 1, 0);
    schedule := schedule + [(1, 0)];
    assert copied.Remove(COMPLETION_MARKER) == copied;
    assert Run(pubs, start, schedule) == System(copied, [Moving(0), At(0)]);
    RunOne(pubs, start, schedule, 1, 0);
    schedule := schedule + [(1, 0)];
    assert Run(pubs, start, schedule) == System(copied, [Moving(0), Clearing(0)]);
    RunOne(pubs, start, schedule, 1, 0);
    schedule := schedule + [(1, 0)];
    assert copied.Remove(temp) == Shared(map[], [content]);
    assert Run(pubs, start, schedule) == System(Shared(map[], [content]), [Moving(0), Opening(0)]);
    RunOne(pubs, start, schedule, 1, 0);
    schedule := schedule + [(1, 0)];
    assert Run(pubs, start, schedule) == System(Shared(map[temp := 1], [content, []]), [Moving(0), Copying(0, 1, 0)]);
    RunOne(pubs, start, schedule, 0, 0);
    schedule := schedule + [(0, 0)];
    assert (map[temp := 1] - {temp})[name := 1] == map[name := 1];
  }

  lemma SharedPidIsUnstable(pubs: seq<Publisher>, name: string)
    requires SoleFile(pubs, name) && pubs[0].pid == pubs[1].pid
    ensures !Stable(pubs, Initial(pubs, EMPTY), name)
  {
    var early := SecondReplaces(pubs, name);
    var s := Run(pubs, Initial(pubs, EMPTY), early);
    RunOne(pubs, s, [], 1, 1);
    assert s.shared.Holds(name, []);
    var late: seq<(nat, nat)> := [] + [(1, 1)];
    assert !Run(pubs, s, late).shared.Holds(name, []);
  }

  lemma SeparateIsStable(pubs: seq<Publisher>, name: string)
    requires Separated(pubs) && Artifact(pubs, name)
    ensures Stable(pubs, Initial(pubs, EMPTY), name)
  {
    hide Separated, Inv, Step, Artifact;
    InitialSatisfiesInv(pubs, EMPTY);
    forall early, late, content | Run(pubs, Initial(pubs, EMPTY), early).shared.Holds(name, content)
      ensures Run(pubs, Run(pubs, Initial(pubs, EMPTY), early), late).shared.Holds(name, content)
    {
      RunKeepsInv(pubs, Initial(pubs, EMPTY), early);
      CommittedNeverChanges(pubs, Run(pubs, Initial(pubs, EMPTY), early), late, name, content);
    }
  }

  // ------------------------------------------- staged names that look temporary

  /** Two publishers, each staging one non-empty file under any name; no name staged is
      a temporary name, unless the second stages its file under the first one's
      temporary name for its own. If they share a process id and not a name, they
      also share the publication id, so their markers are the same. */
  ghost predicate TwoFiles(pubs: seq<Publisher>) {
    && |pubs| == 2 && OneFile(pubs[0]) && OneFile(pubs[1])
    && (pubs[0].pid == pubs[1].pid && pubs[0].Dest(0) != pubs[1].Dest(0) ==> pubs[0].id == pubs[1].id)
    && (forall i, j | 0 <= i < 2 && 0 <= j < 2 :: pubs[i].Dest(0) != MarkerTempName(pubs[j].pid))
    && pubs[0].Dest(0) != pubs[1].Temp(0)
  }

  /** The second publisher commits its file. */
  lemma SecondCommits(pubs: seq<Publisher>) returns (schedule: seq<(nat, nat)>)
    requires TwoFiles(pubs)
    ensures Run(pubs, Initial(pubs, EMPTY), schedule) ==
            System(Shared(map[pubs[1].Dest(0) := 0], [pubs[1].files[0].1.content]), [Starting, Moved(0)])
  {
    var p, temp := pubs[1], pubs[1].Temp(0);
    TempIsNotFile(p.Dest(0), p.pid);
    schedule := OneVerifies(pubs, 1);
    RunOne(pubs, Initial(pubs, EMPTY), schedule, 1, 0);
    schedule := schedule + [(1, 0)];
    assert (map[temp := 0] - {temp})[p.Dest(0) := 0] == map[p.Dest(0) := 0];
  }

  /** The first then deletes it where it clears the way for its own copy. */
  lemma TempNameClashIsUnstable(pubs: seq<Publisher>)
    requires TwoFiles(pubs) && pubs[1].Dest(0) == pubs[0].Temp(0)
    ensures !Stable(pubs, Initial(pubs, EMPTY), pubs[1].Dest(0))
  {
    var name, content := pubs[1].Dest(0), pubs[1].files[0].1.content;
    var committed := Shared(map[name := 0], [content]);
    var early := SecondCommits(pubs);
    var s := Run(pubs, Initial(pubs, EMPTY), early);
    TempIsNotFile(pubs[0].Dest(0), pubs[0].pid);
    var late: seq<(nat, nat)> := [];
    RunOne(pubs, s, late, 0, 0);
    late := late + [(0, 0)];
    assert committed.Remove(COMPLETION_MARKER) == committed;
    assert Run(pubs, s, late) == System(committed, [At(0), Moved(0)]);
    RunOne(pubs, s, late, 0, 0);
    late := late + [(0, 0)];
    assert Run(pubs, s, late) == System(committed, [Clearing(0), Moved(0)]);
    RunOne(pubs, s, late, 0, 0);
    late := late + [(0, 0)];
    assert s.shared.Holds(name, content) && !Run(pubs, s, late).shared.Holds(name, content);
  }

  /** The second publisher's file is stable in every interleaving exactly when the
      first one's temporary name is neither that file's name nor its temporary name. */
  lemma StableIffTempIsApart(pubs: seq<Publisher>)
    requires TwoFiles(pubs)
    ensures Stable(pubs, Initial(pubs, EMPTY), pubs[1].Dest(0))
       <==> pubs[0].Temp(0) != pubs[1].Dest(0) && pubs[0].Temp(0) != pubs[1].Temp(0)
  {
    hide Stable, Publisher.Temp, Publisher.Dest, MarkerTempName;
    if pubs[1].Dest(0) == pubs[0].Temp(0) {
      TempNameClashIsUnstable(pubs);
    } else if pubs[0].Temp(0) == pubs[1].Temp(0) {
      OneTempName(pubs[0], pubs[1]);
      SharedPidIsUnstable(pubs, pubs[1].Dest(0));
    } else {
      TwoFilesAreApart(pubs);
      SeparateIsStable(pubs, pubs[1].Dest(0));
    }
  }

  lemma OneTempName(p: Publisher, q: Publisher)
    requires OneFile(p) && OneFile(q)
    ensures p.Temp(0) == q.Temp(0) <==> p.pid == q.pid && p.Dest(0) == q.Dest(0)
  {
    hide TempName;
    TempNamesDistinct(p.Dest(0), p.pid, q.Dest(0), q.pid);
  }

  /** In particular, two publishers that stage one name are safe exactly when they
      run under different process ids. */
  lemma StableIffDistinctPids(pubs: seq<Publisher>, name: string)
    requires SoleFile(pubs, name)
    ensures Stable(pubs, Initial(pubs, EMPTY), name) <==> pubs[0].pid != pubs[1].pid
  {
    hide Stable, Publisher.Temp, MarkerTempName;
    OwnTempIsNotFile(pubs[0]);
    OwnTempIsNotFile(pubs[1]);
    OneTempName(pubs[0], pubs[1]);
    StableIffTempIsApart(pubs);
  }

  lemma TwoFilesAreApart(pubs: seq<Publisher>)
    requires TwoFiles(pubs) && pubs[1].Dest(0) != pubs[0].Temp(0) && pubs[0].Temp(0) != pubs[1].Temp(0)
    ensures Separated(pubs) && Artifact(pubs, pubs[1].Dest(0))
  {
    hide Publisher.Scratch, Publisher.Temp, Publisher.Dest, MarkerTempName;
    OneTempName(pubs[0], pubs[1]);
    forall i, j | 0 <= i < 2 && 0 <= j < 2 ensures !pubs[i].Scratch(pubs[j].Dest(0)) {
      OwnTempIsNotFile(pubs[i]);
      OneFileScratch(pubs[i], pubs[j].Dest(0));
    }
  }
}

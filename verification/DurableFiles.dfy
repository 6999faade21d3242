/** Durable writes and removals (`writeFileDurable`, `removeDurable`) over a file
    system that may lose power between any two system calls. Directory changes
    reach the disk in order; a file's bytes are certain only once synced. */
module DurableFiles {
  import opened Wrappers

  type Bytes = seq<char>
  type Name = string

  datatype Inode = Inode(content: Bytes, synced: bool)

  /** `versions` are the directories a power loss may leave: the last one synced,
      then one more for every change since; the last is the current one. */
  datatype Fs = Fs(versions: seq<map<Name, nat>>, inodes: seq<Inode>) {
    ghost predicate Valid() {
      && versions != []
      && forall v, n | 0 <= v < |versions| && n in versions[v] :: versions[v][n] < |inodes|
    }

    function Live(): map<Name, nat>
      requires versions != []
    {
      versions[|versions|-1]
    }

    function Change(dir: map<Name, nat>): Fs {
      this.(versions := versions + [dir])
    }
  }

  /** What a name reads as in one version of the directory: content that was not
      synced may come back as anything. */
  datatype Reading = Unsure | Sure(content: Option<Bytes>)

  ghost function ReadingIn(fs: Fs, v: nat, name: Name): Reading
    requires v < |fs.versions|
  {
    if name !in fs.versions[v] then Sure(None)
    else if fs.versions[v][name] < |fs.inodes| && fs.inodes[fs.versions[v][name]].synced
    then Sure(Some(fs.inodes[fs.versions[v][name]].content))
    else Unsure
  }

  ghost predicate ReadsWithin(fs: Fs, v: nat, name: Name, cs: set<Option<Bytes>>)
    requires v < |fs.versions|
  {
    ReadingIn(fs, v, name).Sure? && ReadingIn(fs, v, name).content in cs
  }

  /** Whatever a power loss now leaves, `name` reads as one of `cs`. */
  ghost predicate Within(fs: Fs, name: Name, cs: set<Option<Bytes>>) {
    forall v | 0 <= v < |fs.versions| :: ReadsWithin(fs, v, name, cs)
  }

  ghost predicate Settled(fs: Fs, name: Name, c: Option<Bytes>) {
    Within(fs, name, {c})
  }

  // ------------------------------------------------------------------- power loss

  /** `after` is a disk that a power loss may leave of `fs`: one of the directories,
      every synced content, and anything for the others. */
  ghost predicate LostPower(fs: Fs, after: Fs) {
    && |after.versions| == 1 && after.versions[0] in fs.versions
    && |after.inodes| == |fs.inodes|
    && forall i | 0 <= i < |fs.inodes| ::
         after.inodes[i].synced && (fs.inodes[i].synced ==> after.inodes[i] == fs.inodes[i])
  }

  /** What a reader of a disk that lost power finds. */
  ghost function Read(after: Fs, name: Name): Option<Bytes>
    requires after.Valid()
  {
    if name in after.Live() then Some(after.inodes[after.Live()[name]].content) else None
  }

  /** After a power loss a file has one of its possible contents, and keeps it. */
  lemma PowerLossSettles(fs: Fs, after: Fs, name: Name, cs: set<Option<Bytes>>)
    requires fs.Valid() && LostPower(fs, after) && Within(fs, name, cs)
    ensures after.Valid() && Read(after, name) in cs && Settled(after, name, Read(after, name))
  {
    var v :| 0 <= v < |fs.versions| && fs.versions[v] == after.versions[0];
    assert ReadsWithin(fs, v, name, cs);
  }

  /** The disk on which a power loss left directory `v`, and `c` for lost content. */
  ghost function Remains(fs: Fs, v: nat, c: Bytes): Fs
    requires v < |fs.versions|
  {
    Fs([fs.versions[v]], seq(|fs.inodes|, i requires 0 <= i < |fs.inodes| =>
      if fs.inodes[i].synced then fs.inodes[i] else Inode(c, true)))
  }

  lemma RemainsAreLeft(fs: Fs, v: nat, c: Bytes)
    requires fs.Valid() && v < |fs.versions|
    ensures LostPower(fs, Remains(fs, v, c)) && Remains(fs, v, c).Valid()
  {
    assert fs.versions[v] in fs.versions;
  }

  /** Some content is not among finitely many. */
  lemma AnotherContent(cs: set<Option<Bytes>>) returns (c: Bytes)
    ensures c != [] && Some(c) !in cs
    ensures forall d | d in cs && d.Some? :: |d.value| < |c|
  {
    c := [' '];
    if d :| d in cs {
      var rest := AnotherContent(cs - {d});
      c := if d.Some? then rest + d.value else rest;
      assert forall e | e in cs :: e == d || e in cs - {d};
    }
  }

  /** `Within` is exactly what every power loss respects. */
  lemma WithinIsWhatSurvives(fs: Fs, name: Name, cs: set<Option<Bytes>>)
    requires fs.Valid()
    ensures Within(fs, name, cs) <==> forall after | LostPower(fs, after) :: after.Valid() && Read(after, name) in cs
  {
    forall after | LostPower(fs, after) && Within(fs, name, cs)
      ensures after.Valid() && Read(after, name) in cs
    {
      PowerLossSettles(fs, after, name, cs);
    }
    if !Within(fs, name, cs) {
      var v :| 0 <= v < |fs.versions| && !ReadsWithin(fs, v, name, cs);
      var c := AnotherContent(cs);
      RemainsAreLeft(fs, v, c);
      assert Read(Remains(fs, v, c), name) !in cs;
    }
  }

  // ------------------------------------------------------- the states of one write

  /** The temporary file exists beside everything else. */
  function Staged(was: Fs, temp: Name, inode: Inode): Fs
    requires was.versions != []
  {
    Fs(was.versions + [was.Live()[temp := |was.inodes|]], was.inodes + [inode])
  }

  function Renamed(was: Fs, temp: Name, path: Name, raw: Bytes): Fs
    requires was.versions != []
  {
    var staged := Staged(was, temp, Inode(raw, true));
    staged.Change((staged.Live() - {temp})[path := |was.inodes|])
  }

  function Synced(fs: Fs): Fs
    requires fs.versions != []
  {
    fs.(versions := [fs.Live()])
  }

  function Removed(fs: Fs, name: Name): Fs
    requires fs.versions != []
  {
    fs.Change(fs.Live() - {name})
  }

  /** The current directory reads as one of the versions already did, or as `c`. */
  lemma OneMoreVersion(was: Fs, fs: Fs, name: Name, cs: set<Option<Bytes>>, c: Option<Bytes>)
    requires was.Valid() && |fs.versions| == |was.versions| + 1 && was.versions <= fs.versions && was.inodes <= fs.inodes
    requires Within(was, name, cs)
    requires ReadingIn(fs, |was.versions|, name) == ReadingIn(was, |was.versions| - 1, name)
          || ReadingIn(fs, |was.versions|, name) == Sure(c)
    ensures Within(fs, name, cs + {c})
    ensures ReadingIn(fs, |was.versions|, name) == ReadingIn(was, |was.versions| - 1, name) ==> Within(fs, name, cs)
  {
    assert ReadsWithin(was, |was.versions| - 1, name, cs);
    forall v | 0 <= v < |was.versions|
      ensures ReadsWithin(fs, v, name, cs)
    {
      assert ReadsWithin(was, v, name, cs) && fs.versions[v] == was.versions[v];
    }
    forall v | 0 <= v < |fs.versions|
      ensures ReadsWithin(fs, v, name, cs + {c})
    {
      assert v < |was.versions| ==> ReadsWithin(fs, v, name, cs);
    }
  }

  lemma SyncKeepsWithin(fs: Fs, name: Name, cs: set<Option<Bytes>>)
    requires fs.Valid() && Within(fs, name, cs)
    ensures Synced(fs).Valid() && Within(Synced(fs), name, cs)
  {
    assert ReadsWithin(fs, |fs.versions| - 1, name, cs);
  }

  lemma MorePossibilities(fs: Fs, name: Name, cs: set<Option<Bytes>>, ds: set<Option<Bytes>>)
    requires Within(fs, name, cs) && cs <= ds
    ensures Within(fs, name, ds)
  {
    forall v | 0 <= v < |fs.versions| ensures ReadsWithin(fs, v, name, ds) {
      assert ReadsWithin(fs, v, name, cs);
    }
  }

  /** What is promised of every state between `was` and the end of one operation on
      `path`: no other file has a possible content it did not have. */
  ghost predicate Safe(was: Fs, fs: Fs, path: Name, temp: Name, ds: set<Option<Bytes>>) {
    && Within(fs, path, ds)
    && forall other, es | other != path && other != temp && Within(was, other, es) :: Within(fs, other, es)
  }

  lemma StagedIsSafe(was: Fs, path: Name, temp: Name, inode: Inode, cs: set<Option<Bytes>>, raw: Bytes)
    requires was.Valid() && temp != path && Within(was, path, cs)
    ensures Staged(was, temp, inode).Valid() && Removed(Staged(was, temp, inode), temp).Valid()
    ensures Safe(was, Staged(was, temp, inode), path, temp, cs + {Some(raw)})
    ensures Safe(was, Removed(Staged(was, temp, inode), temp), path, temp, cs + {Some(raw)})
  {
    var staged := Staged(was, temp, inode);
    forall other, es | other != temp && Within(was, other, es)
      ensures Within(staged, other, es) && Within(Removed(staged, temp), other, es)
    {
      OneMoreVersion(was, staged, other, es, None);
      OneMoreVersion(staged, Removed(staged, temp), other, es, None);
    }
    MorePossibilities(staged, path, cs, cs + {Some(raw)});
    MorePossibilities(Removed(staged, temp), path, cs, cs + {Some(raw)});
  }

  lemma RenameDisturbsNothing(was: Fs, temp: Name, path: Name, raw: Bytes, other: Name, es: set<Option<Bytes>>)
    requires was.Valid() && other != temp && other != path && Within(was, other, es)
    ensures Within(Renamed(was, temp, path, raw), other, es) && Within(Synced(Renamed(was, temp, path, raw)), other, es)
  {
    var fs := Renamed(was, temp, path, raw);
    OneMoreVersion(was, Staged(was, temp, Inode(raw, true)), other, es, None);
    OneMoreVersion(Staged(was, temp, Inode(raw, true)), fs, other, es, None);
    SyncKeepsWithin(fs, other, es);
  }

  /** The rename switches `path` over in one step, and the sync makes it last. */
  lemma RenameIsAtomic(was: Fs, temp: Name, path: Name, raw: Bytes, cs: set<Option<Bytes>>)
    requires was.Valid() && temp != path && Within(was, path, cs)
    ensures var fs := Renamed(was, temp, path, raw);
            && fs.Valid() && Synced(fs).Valid()
            && Safe(was, fs, path, temp, cs + {Some(raw)}) && Safe(was, Synced(fs), path, temp, cs + {Some(raw)})
            && Settled(Synced(fs), path, Some(raw)) && Settled(Synced(fs), temp, None)
  {
    var staged := Staged(was, temp, Inode(raw, true));
    var fs := Renamed(was, temp, path, raw);
    OneMoreVersion(was, staged, path, cs, None);
    OneMoreVersion(staged, fs, path, cs, Some(raw));
    SyncKeepsWithin(fs, path, cs + {Some(raw)});
    forall other, es | other != path && other != temp && Within(was, other, es)
      ensures Within(fs, other, es) && Within(Synced(fs), other, es)
    {
      RenameDisturbsNothing(was, temp, path, raw, other, es);
    }
  }

  lemma RemovalIsSafe(was: Fs, path: Name, cs: set<Option<Bytes>>)
    requires was.Valid() && Within(was, path, cs)
    ensures var fs := Removed(was, path);
            && fs.Valid() && Synced(fs).Valid()
            && Safe(was, fs, path, path, cs + {None}) && Safe(was, Synced(fs), path, path, cs + {None})
            && Settled(Synced(fs), path, None)
  {
    var fs := Removed(was, path);
    OneMoreVersion(was, fs, path, cs, None);
    SyncKeepsWithin(fs, path, cs + {None});
    forall other, es | other != path && Within(was, other, es)
      ensures Within(fs, other, es) && Within(Synced(fs), other, es)
    {
      OneMoreVersion(was, fs, other, es, None);
      SyncKeepsWithin(fs, other, es);
    }
  }

  // ------------------------------------------------------------- interrupted writes

  /** A power loss anywhere in an operation leaves `path` with one of the contents
      promised, and every other file with one it could have had before. */
  lemma PowerLossDuringOperation(was: Fs, fs: Fs, path: Name, temp: Name, ds: set<Option<Bytes>>, after: Fs)
    requires fs.Valid() && Safe(was, fs, path, temp, ds) && LostPower(fs, after)
    ensures after.Valid() && Read(after, path) in ds && Settled(after, path, Read(after, path))
    ensures forall other, es | other != path && other != temp && Within(was, other, es) ::
              Read(after, other) in es && Settled(after, other, Read(after, other))
  {
    PowerLossSettles(fs, after, path, ds);
    forall other, es | other != path && other != temp && Within(was, other, es)
      ensures Read(after, other) in es && Settled(after, other, Read(after, other))
    {
      PowerLossSettles(fs, after, other, es);
    }
  }

  /** Between the rename and the sync of the directory, readers already see the new
      content, and a power loss may still bring the old one back. */
  lemma SeenRenameCanRevert(was: Fs, temp: Name, path: Name, raw: Bytes, c: Option<Bytes>) returns (after: Fs)
    requires was.Valid() && temp != path && Settled(was, path, c)
    ensures ReadingIn(Renamed(was, temp, path, raw), |was.versions| + 1, path) == Sure(Some(raw))
    ensures LostPower(Renamed(was, temp, path, raw), after) && after.Valid() && Read(after, path) == c
  {
    var fs := Renamed(was, temp, path, raw);
    RenameIsAtomic(was, temp, path, raw, {c});
    after := Remains(fs, 0, []);
    RemainsAreLeft(fs, 0, []);
    assert ReadsWithin(was, 0, path, {c}) && fs.versions[0] == was.versions[0];
  }

  class Disk {
    var fs: Fs
    /** Every state the disk has been in, for power losses in between. */
    ghost var passed: seq<Fs>

    ghost predicate Valid()
      reads this
    {
      fs.Valid() && passed != [] && passed[|passed|-1] == fs
    }

    /** Everything since state `from` was safe for readers. */
    ghost predicate SafeSince(from: nat, was: Fs, path: Name, temp: Name, ds: set<Option<Bytes>>)
      reads this
    {
      forall k | from <= k < |passed| :: Safe(was, passed[k], path, temp, ds)
    }

    constructor ()
      ensures Valid() && fs == Fs([map[]], [])
    {
      fs := Fs([map[]], []);
      passed := [Fs([map[]], [])];
    }

    /** One system call: it may fail, and leaves nothing behind if it does. */
    method Call(next: Fs) returns (ok: bool)
      requires Valid() && next.Valid()
      modifies this
      ensures Valid()
      ensures fs == if ok then next else old(fs)
      ensures passed == if ok then old(passed) + [next] else old(passed)
    {
      ok := *;
      if ok {
        fs := next;
        passed := passed + [next];
      }
    }

    /** Power is lost, and the machine starts again with what is left. */
    method PowerLoss()
      requires Valid()
      modifies this
      ensures Valid() && LostPower(old(fs), fs)
      ensures forall name, cs | Within(old(fs), name, cs) :: Read(fs, name) in cs && Settled(fs, name, Read(fs, name))
    {
      var v :| 0 <= v < |fs.versions|;
      ghost var was := fs;
      var dir, inodes := fs.versions[v], fs.inodes;
      for i := 0 to |inodes|
        invariant fs == was && passed == old(passed) && |inodes| == |was.inodes|
        invariant forall k | 0 <= k < |inodes| ::
                    inodes[k] == was.inodes[k] || (k < i && !was.inodes[k].synced && inodes[k].synced)
        invariant forall k | 0 <= k < i :: inodes[k].synced
      {
        if !inodes[i].synced {
          var lost: Bytes := *;
          inodes := inodes[i := Inode(lost, true)];
        }
      }
      fs := Fs([dir], inodes);
      passed := passed + [fs];
      assert LostPower(was, fs);
      forall name, cs | Within(was, name, cs)
        ensures Read(fs, name) in cs && Settled(fs, name, Read(fs, name))
      {
        PowerLossSettles(was, fs, name, cs);
      }
    }

    /** The first half of a durable write: the content, synced, under a
        temporary name. */
    method WriteTemp(path: Name, raw: Bytes, temp: Name, ghost cs: set<Option<Bytes>>) returns (ok: bool)
      requires Valid() && temp != path && Within(fs, path, cs)
      modifies this
      ensures Valid() && old(passed) <= passed
      ensures SafeSince(|old(passed)|, old(fs), path, temp, cs + {Some(raw)})
      ensures ok ==> fs == Staged(old(fs), temp, Inode(raw, true))
      ensures !ok ==> Safe(old(fs), fs, path, temp, cs + {Some(raw)})
    {
      hide Safe, Within, Settled, Staged;
      var start := fs;
      ghost var from := |passed|;
      MayFailAtOnce(start, path, temp, cs, raw);
      StagedIsSafe(start, path, temp, Inode([], false), cs, raw);
      ok := Call(Staged(start, temp, Inode([], false)));
      if !ok {
        return;
      }
      var n := 0;
      while n < |raw|
        invariant n <= |raw| && Valid() && old(passed) <= passed
        invariant fs == Staged(start, temp, Inode(raw[..n], false))
        invariant SafeSince(from, start, path, temp, cs + {Some(raw)})
      {
        var more: int := *;
        var m := if more <= 0 || n + more > |raw| then |raw| else n + more;
        StagedIsSafe(start, path, temp, Inode(raw[..m], false), cs, raw);
        ok := Call(Staged(start, temp, Inode(raw[..m], false)));
        if !ok {
          RemoveTemp(temp, Inode(raw[..n], false), start, path, cs, raw, from);
          return;
        }
        n := m;
      }
      assert raw[..n] == raw;
      StagedIsSafe(start, path, temp, Inode(raw, true), cs, raw);
      ok := Call(Staged(start, temp, Inode(raw, true)));
      if !ok {
        RemoveTemp(temp, Inode(raw, false), start, path, cs, raw, from);
      }
    }

    lemma MayFailAtOnce(start: Fs, path: Name, temp: Name, cs: set<Option<Bytes>>, raw: Bytes)
      requires Within(start, path, cs)
      ensures Safe(start, start, path, temp, cs + {Some(raw)})
    {
      MorePossibilities(start, path, cs, cs + {Some(raw)});
    }

    /** `writeFileDurable`: write and sync a temporary file, rename it, sync the
        directory. The temporary name is new, as `os.CreateTemp` makes it. Whatever
        earlier writes left of `path`, it reads as one of `cs`; from here on, and
        after a failure too, as one of those or as the new content, never as a part
        of it. No other file is disturbed. On success the new content is the only
        one left, for good. */
    method WriteFileDurable(path: Name, raw: Bytes, temp: Name, ghost cs: set<Option<Bytes>>) returns (ok: bool)
      requires Valid() && temp != path && temp !in fs.Live() && Within(fs, path, cs)
      modifies this
      ensures Valid() && old(passed) <= passed
      ensures SafeSince(|old(passed)|, old(fs), path, temp, cs + {Some(raw)})
      ensures Safe(old(fs), fs, path, temp, cs + {Some(raw)})
      ensures ok ==> Settled(fs, path, Some(raw)) && Settled(fs, temp, None) && |fs.versions| == 1
    {
      hide Safe, Settled, Within;
      ghost var start, from := fs, |passed|;
      var ino := |fs.inodes|;
      ok := WriteTemp(path, raw, temp, cs);
      if !ok {
        return;
      }
      RenameIsAtomic(start, temp, path, raw, cs);
      ok := Call(fs.Change((fs.Live() - {temp})[path := ino]));
      if !ok {
        RemoveTemp(temp, Inode(raw, true), start, path, cs, raw, from);
        return;
      }
      ok := Call(Synced(fs));
    }

    /** The deferred clean-up of a failed write. */
    method RemoveTemp(temp: Name, ghost inode: Inode, ghost start: Fs, ghost path: Name,
                      ghost cs: set<Option<Bytes>>, ghost raw: Bytes, ghost from: nat)
      requires Valid() && start.Valid() && fs == Staged(start, temp, inode)
      requires temp != path && Within(start, path, cs)
      requires SafeSince(from, start, path, temp, cs + {Some(raw)})
      modifies this
      ensures Valid() && old(passed) <= passed && SafeSince(from, start, path, temp, cs + {Some(raw)})
      ensures Safe(start, fs, path, temp, cs + {Some(raw)})
    {
      hide Safe, Within;
      StagedIsSafe(start, path, temp, inode, cs, raw);
      var ok := Call(Removed(fs, temp));
    }

    /** `removeDurable`: a missing file is removed already. Readers find one of the
        old contents or no file. A removal that succeeds is lasting exactly when it
        found the file or the file's absence already was: one that only finds an
        earlier, unsynced removal reports success without a sync. */
    method RemoveDurable(path: Name, ghost cs: set<Option<Bytes>>) returns (ok: bool)
      requires Valid() && Within(fs, path, cs)
      modifies this
      ensures Valid() && old(passed) <= passed
      ensures SafeSince(|old(passed)|, old(fs), path, path, cs + {None})
      ensures Safe(old(fs), fs, path, path, cs + {None})
      ensures ok ==> path !in fs.Live()
      ensures ok ==> (Settled(fs, path, None) <==> old(path in fs.Live() || Settled(fs, path, None)))
    {
      MorePossibilities(fs, path, cs, cs + {None});
      if path !in fs.Live() {
        return true;
      }
      assert Safe(fs, fs, path, path, cs + {None});
      hide Safe, Settled, Within;
      RemovalIsSafe(fs, path, cs);
      ok := Call(Removed(fs, path));
      if ok {
        ok := Call(Synced(fs));
      }
    }
  }
}

/** `ensureDirectory`: the missing ancestors of a storage directory are made,
    outermost first. Paths are cleaned, as `filepath.Clean` leaves them. */
module StorageDirectories {
  import opened Wrappers

  type Path = string

  const ROOT := "/"
  const HERE := "."

  /** The position of the last slash, or -1. */
  function LastSlash(path: Path): (i: int)
    ensures -1 <= i < |path|
    ensures i >= 0 ==> path[i] == '/'
    ensures forall k | i < k < |path| :: path[k] != '/'
  {
    if path == "" then -1
    else if path[|path| - 1] == '/' then |path| - 1
    else LastSlash(path[..|path| - 1])
  }

  /** `filepath.Dir` of a cleaned path. */
  function Parent(path: Path): Path {
    var i := LastSlash(path);
    if i < 0 then HERE else if i == 0 then ROOT else path[..i]
  }

  function Depth(path: Path): nat {
    if path == HERE then 0 else |path| + 1
  }

  /** Going up ends: at the root, at the working directory, or nowhere else. */
  lemma ParentIsShallower(path: Path)
    ensures Parent(path) == path || Depth(Parent(path)) < Depth(path)
    ensures Parent(path) == path <==> path == ROOT || path == HERE
  {
    if path == ROOT {
      assert LastSlash(ROOT) == 0;
    }
  }

  /** `a` is `path` or lies above it. */
  predicate Above(a: Path, path: Path)
    decreases Depth(path)
  {
    ParentIsShallower(path);
    a == path || (Parent(path) != path && Above(a, Parent(path)))
  }

  function SetOf(paths: seq<Path>): set<Path> {
    set p | p in paths
  }

  datatype Error = NotADirectory | NoAncestor | ParentMissing | Failed

  class Storage {
    var dirs: set<Path>
    var files: set<Path>

    /** Every directory's parent is a directory, and no file is one. */
    ghost predicate Valid()
      reads this
    {
      dirs !! files && forall d | d in dirs :: Parent(d) in dirs
    }

    /** The missing directories from `path` upwards to the first thing that exists. */
    ghost function Missing(path: Path): (m: seq<Path>)
      reads this
      ensures forall d | d in m :: d !in dirs && Above(d, path)
      decreases Depth(path)
    {
      ParentIsShallower(path);
      if path in dirs || path in files then []
      else if Parent(path) == path then [path]
      else [path] + Missing(Parent(path))
    }

    /** The first thing that exists from `path` upwards. */
    ghost function Nearest(path: Path): Option<Path>
      reads this
      decreases Depth(path)
    {
      ParentIsShallower(path);
      if path in dirs || path in files then Some(path)
      else if Parent(path) == path then None
      else Nearest(Parent(path))
    }

    /** `os.Mkdir`: fails without a parent directory, and may fail anyway. */
    method MakeDirectory(dir: Path) returns (err: Option<Error>)
      requires Valid() && dir !in dirs && dir !in files
      modifies this`dirs
      ensures Valid()
      ensures err == None ==> dirs == old(dirs) + {dir}
      ensures err.Some? ==> dirs == old(dirs)
      ensures err == Some(ParentMissing) <==> Parent(dir) !in dirs
      ensures err in {None, Some(ParentMissing), Some(Failed)}
    {
      if Parent(dir) !in dirs {
        return Some(ParentMissing);
      }
      var works: bool := *;
      if !works {
        return Some(Failed);
      }
      dirs := dirs + {dir};
      return None;
    }

    /** Missing directories, innermost first, each below the next and the last below
        a directory. */
    static ghost predicate Chain(dirs: set<Path>, files: set<Path>, missing: seq<Path>) {
      && (forall k | 0 <= k < |missing| :: missing[k] !in dirs && missing[k] !in files)
      && (forall j, k | 0 <= j < k < |missing| :: missing[j] != missing[k])
      && (forall k | 0 <= k < |missing| :: Parent(missing[k]) in dirs || (k + 1 < |missing| && missing[k + 1] == Parent(missing[k])))
    }

    lemma {:induction false} MissingIsChain(path: Path)
      requires Nearest(path).Some? && Nearest(path).value in dirs
      ensures Chain(dirs, files, Missing(path))
      ensures if Missing(path) == [] then path in dirs else Missing(path)[0] == path
      ensures forall d | d in Missing(path) :: Depth(d) <= Depth(path)
      decreases Depth(path)
    {
      ParentIsShallower(path);
      hide Parent, Depth;
      if path !in dirs && path !in files {
        MissingIsChain(Parent(path));
      }
    }

    /** The first loop of `ensureDirectory`: going up to the first thing that exists.
        `os.Stat` may fail for other reasons. */
    method FindMissing(path: Path) returns (err: Option<Error>, missing: seq<Path>)
      ensures err in {None, Some(NoAncestor), Some(NotADirectory), Some(Failed)}
      ensures err == Some(NoAncestor) ==> Nearest(path) == None
      ensures err == Some(NotADirectory) ==> Nearest(path).Some? && Nearest(path).value in files
      ensures err == None ==> Nearest(path).Some? && Nearest(path).value in dirs && missing == Missing(path)
    {
      missing := [];
      var current := path;
      while true
        invariant missing + Missing(current) == Missing(path) && Nearest(current) == Nearest(path)
        decreases Depth(current)
      {
        hide Parent, Depth;
        var readable: bool := *;
        if !readable {
          return Some(Failed), missing;
        }
        if current in dirs {
          return None, missing;
        }
        if current in files {
          return Some(NotADirectory), missing;
        }
        ParentIsShallower(current);
        var parent := Parent(current);
        if parent == current {
          return Some(NoAncestor), missing;
        }
        missing := missing + [current];
        current := parent;
      }
    }

    /** The second loop: outermost first, syncing the parent after each. */
    method MakeMissing(missing: seq<Path>) returns (err: Option<Error>)
      requires Valid() && Chain(dirs, files, missing)
      modifies this`dirs
      ensures Valid() && old(dirs) <= dirs <= old(dirs) + SetOf(missing)
      ensures err == None ==> dirs == old(dirs) + SetOf(missing)
      ensures err == None || err == Some(Failed)
    {
      var index := |missing|;
      while index > 0
        invariant 0 <= index <= |missing| && Valid()
        invariant dirs == old(dirs) + SetOf(missing[index..])
      {
        hide Parent;
        index := index - 1;
        assert missing[index..] == [missing[index]] + missing[index + 1..];
        if Parent(missing[index]) !in old(dirs) {
          assert missing[index + 1] in missing[index + 1..];
        }
        err := MakeDirectory(missing[index]);
        if err.Some? {
          return;
        }
        var synced: bool := *;
        if !synced {
          return Some(Failed);
        }
      }
      assert missing[0..] == missing;
      err := None;
    }

    lemma {:induction false} EverythingAbove(path: Path)
      requires Valid() && path in dirs
      ensures forall a | Above(a, path) :: a in dirs
      decreases Depth(path)
    {
      ParentIsShallower(path);
      hide Parent, Depth;
      if Parent(path) != path {
        EverythingAbove(Parent(path));
      }
    }

    /** `ensureDirectory`. It ends; it never asks for a directory whose parent is
        missing; it makes the missing ancestors and nothing else, and what an
        interruption leaves is again a tree. */
    method EnsureDirectory(path: Path) returns (err: Option<Error>)
      requires Valid()
      modifies this`dirs
      ensures Valid() && old(dirs) <= dirs <= old(dirs) + SetOf(old(Missing(path)))
      ensures err == None ==> dirs == old(dirs) + SetOf(old(Missing(path))) && forall a | Above(a, path) :: a in dirs
      ensures old(Nearest(path)) == None ==> err in {Some(NoAncestor), Some(Failed)} && dirs == old(dirs)
      ensures old(Nearest(path)).Some? && old(Nearest(path)).value in files ==>
                err in {Some(NotADirectory), Some(Failed)} && dirs == old(dirs)
      ensures old(Nearest(path)).Some? && old(Nearest(path)).value in dirs ==> err in {None, Some(Failed)}
    {
      hide Parent, Missing, Nearest, Above;
      var missing;
      err, missing := FindMissing(path);
      if err.Some? {
        return;
      }
      MissingIsChain(path);
      err := MakeMissing(missing);
      if err == None {
        EverythingAbove(path);
      }
    }
  }
}

/** The part of the filesystem the service touches, as a set of existing paths. */
module Files {

  type Path = string

  /** `p` names something inside directory `dir`. */
  predicate Under(p: Path, dir: Path) {
    |dir| + 1 <= |p| && p[..|dir| + 1] == dir + "/"
  }

  /** `os.path.join(dir, name)` for a directory without a trailing separator and a plain name. */
  function Join(dir: Path, name: string): (p: Path)
    ensures Under(p, dir) && p != dir
  {
    dir + "/" + name
  }

  /** The paths left once `shutil.rmtree(dir)` has removed `dir` and everything below it. */
  function WithoutTree(paths: set<Path>, dir: Path): (r: set<Path>)
    ensures r <= paths
    ensures forall p :: p in paths ==> (p in r <==> p != dir && !Under(p, dir))
  {
    set p | p in paths && p != dir && !Under(p, dir)
  }

  class FileSystem {
    var paths: set<Path>

    constructor (initial: set<Path>)
      ensures paths == initial
    {
      paths := initial;
    }

    /** `os.path.exists(p)`. */
    predicate Exists(p: Path)
      reads this
    {
      p in paths
    }

    /** A file is written (or created) at `p`. */
    method Create(p: Path)
      modifies this
      ensures paths == old(paths) + {p}
    {
      paths := paths + {p};
    }

    /** `os.remove(p)`. */
    method Remove(p: Path)
      modifies this
      ensures paths == old(paths) - {p}
    {
      paths := paths - {p};
    }

    /** `shutil.rmtree(dir, ignore_errors=True)`. */
    method RemoveTree(dir: Path)
      modifies this
      ensures paths == WithoutTree(old(paths), dir)
    {
      paths := WithoutTree(paths, dir);
    }
  }
}

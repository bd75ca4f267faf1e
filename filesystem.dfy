/** The directories on disk, as far as the resolution pipeline can observe them: which directories
    exist, and `mkdir(parents=True, exist_ok=True)`. */
module FileSystems {
  import opened Errors
  import opened Paths

  class FileSystem {
    /** The process's working directory, against which relative paths are taken. */
    const cwd: Path
    /** The absolute paths of the directories that exist. */
    var dirs: set<Path>

    /** Directories are absolute, the parent of each exists, and so does the working directory. */
    ghost predicate Valid()
      reads this
    {
      && cwd.absolute
      && Lineage(cwd) <= dirs
      && forall d | d in dirs :: d.absolute && Parent(d) in dirs
    }

    constructor (cwd: Path)
      requires cwd.absolute
      ensures Valid()
      ensures this.cwd == cwd && dirs == Lineage(cwd)
    {
      this.cwd := cwd;
      dirs := Lineage(cwd);
      new;
      forall d | d in dirs ensures d.absolute && Parent(d) in dirs {
        LineageClosed(cwd, d);
      }
    }

    /** `p.is_dir()`: a relative path is looked up from the working directory. */
    predicate IsDir(p: Path)
      reads this
    {
      Absolute(p, cwd) in dirs
    }

    /** pydantic's DirectoryPath check: the path is kept as given when it names an existing directory. */
    function ValidateDirectory(p: Path): (r: Result<Path>)
      reads this
      ensures r.Ok? <==> IsDir(p)
      ensures r.Ok? ==> r.value == p
      ensures r.Err? ==> r.error.ValueError?
    {
      if IsDir(p) then Ok(p) else Err(ValueError("path does not point to a directory"))
    }

    /** `p.mkdir(parents=True, exist_ok=True)`: the directory and every missing ancestor are created;
        directories that already exist are not an error, so repeating the call changes nothing. */
    method Mkdir(p: Path)
      requires Valid()
      modifies this
      ensures Valid()
      ensures dirs == old(dirs) + Lineage(Absolute(p, cwd))
      ensures Lineage(Absolute(p, cwd)) <= old(dirs) ==> dirs == old(dirs)
      decreases |Absolute(p, cwd).parts|
    {
      var q := Absolute(p, cwd);
      if q in dirs {
        LineageWithin(q, dirs);
      } else {
        LineageEnds(cwd);
        assert q != Path(true, []);
        Mkdir(Parent(q));
        LineageEnds(Parent(q));
        dirs := dirs + {q};
        LineageStep(q);
      }
    }
  }
}

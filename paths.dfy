/** The part of pathlib the configuration core relies on, with POSIX semantics. */
module Paths {

  /** A path: whether it is anchored at the root, and its components in order.
      The current directory "." has no components, and so has the root "/". */
  datatype Path = Path(absolute: bool, parts: seq<string>)

  /** A relative path of one component, as `Path(name)` gives for a name without separators. */
  function Child(name: string): Path
  {
    Path(false, [name])
  }

  /** `a / b`: an absolute right-hand side replaces the left one. */
  function Join(a: Path, b: Path): Path
  {
    if b.absolute then b else Path(a.absolute, a.parts + b.parts)
  }

  /** `p.parent`: the last component dropped; "." and "/" are their own parents. */
  function Parent(p: Path): Path
  {
    if |p.parts| == 0 then p else Path(p.absolute, p.parts[..|p.parts| - 1])
  }

  /** `p.absolute()` with `cwd` as the working directory: relative paths are joined to it. */
  function Absolute(p: Path, cwd: Path): Path
  {
    if p.absolute then p else Join(cwd, p)
  }

  /** The directories that exist when the directory named by the components of `p` exists:
      the root, each ancestor, and that directory itself, all absolute. */
  function Lineage(p: Path): set<Path>
  {
    set i | 0 <= i <= |p.parts| :: Path(true, p.parts[..i])
  }

  /** Against an absolute working directory, `absolute()` yields an absolute path and is idempotent;
      an absolute path is left as it is. */
  lemma AbsoluteProperties(p: Path, cwd: Path)
    requires cwd.absolute
    ensures Absolute(p, cwd).absolute
    ensures Absolute(Absolute(p, cwd), cwd) == Absolute(p, cwd)
    ensures p.absolute ==> Absolute(p, cwd) == p
  {
  }

  /** The root and the directory itself belong to its lineage. */
  lemma LineageEnds(p: Path)
    ensures Path(true, []) in Lineage(p)
    ensures Path(true, p.parts) in Lineage(p)
  {
    assert p.parts[..0] == [];
    assert p.parts[..|p.parts|] == p.parts;
  }

  /** The lineage of a path is that of its parent plus the path itself. */
  lemma LineageStep(p: Path)
    requires |p.parts| > 0
    ensures Lineage(p) == Lineage(Parent(p)) + {Path(true, p.parts)}
  {
    var n := |p.parts|;
    var q := Parent(p).parts;
    forall d | d in Lineage(p) ensures d in Lineage(Parent(p)) + {Path(true, p.parts)} {
      var i :| 0 <= i <= n && d == Path(true, p.parts[..i]);
      if i < n {
        assert p.parts[..i] == q[..i];
      } else {
        assert p.parts[..i] == p.parts;
      }
    }
    forall d | d in Lineage(Parent(p)) ensures d in Lineage(p) {
      var i :| 0 <= i <= |q| && d == Path(true, q[..i]);
      assert q[..i] == p.parts[..i];
    }
    LineageEnds(p);
  }

  /** Every member of a lineage is absolute and its parent is in the lineage too. */
  lemma LineageClosed(p: Path, d: Path)
    requires d in Lineage(p)
    ensures d.absolute && Parent(d) in Lineage(p)
  {
    var i :| 0 <= i <= |p.parts| && d == Path(true, p.parts[..i]);
    if i > 0 {
      assert p.parts[..i][..i - 1] == p.parts[..i - 1];
    }
  }

  /** In a set of absolute paths that holds the parent of each of its members, every member
      brings its whole lineage with it. */
  lemma {:induction false} LineageWithin(q: Path, dirs: set<Path>)
    requires q.absolute && q in dirs
    requires forall d | d in dirs :: Parent(d) in dirs
    ensures Lineage(q) <= dirs
    decreases |q.parts|
  {
    if |q.parts| == 0 {
      forall d | d in Lineage(q) ensures d in dirs {
        var i :| 0 <= i <= |q.parts| && d == Path(true, q.parts[..i]);
        assert d == q;
      }
    } else {
      LineageWithin(Parent(q), dirs);
      LineageStep(q);
    }
  }
}

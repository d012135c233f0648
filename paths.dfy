/**
 * File-system paths as pathlib sees them once parsed: whether the path is
 * anchored at the root, and its components. The current directory "." has no
 * components.
 */
module Paths {

  datatype Path = Path(absolute: bool, parts: seq<string>)

  /** The current directory, `Path()`. */
  const Here := Path(false, [])

  /** `base / p`: an absolute `p` replaces `base`, a relative one is appended to it. */
  function Join(base: Path, p: Path): Path {
    if p.absolute then p else Path(base.absolute, base.parts + p.parts)
  }

  /**
   * Joining a relative path keeps the base as a prefix and the joined path as
   * the rest, so the joined path can be recovered; an absolute one is kept as is.
   */
  lemma JoinSpec(base: Path, p: Path)
    ensures var r := Join(base, p);
      && (p.absolute ==> r == p)
      && (!p.absolute ==>
            && r.absolute == base.absolute
            && |r.parts| == |base.parts| + |p.parts|
            && r.parts[..|base.parts|] == base.parts
            && r.parts[|base.parts|..] == p.parts)
  {
    if !p.absolute {
      var r := Join(base, p);
      assert r.parts[..|base.parts|] == base.parts;
      assert r.parts[|base.parts|..] == p.parts;
    }
  }

  /** Joining is associative, as it is in pathlib. */
  lemma JoinAssociative(a: Path, b: Path, c: Path)
    ensures Join(Join(a, b), c) == Join(a, Join(b, c))
  {
    if !b.absolute && !c.absolute {
      assert (a.parts + b.parts) + c.parts == a.parts + (b.parts + c.parts);
    }
  }

  /** The current directory is a unit of joining on both sides. */
  lemma JoinHere(p: Path)
    ensures Join(Here, p) == (if p.absolute then p else Path(false, p.parts))
    ensures Join(p, Here) == p
  {
    assert Here.parts + p.parts == p.parts;
    assert p.parts + Here.parts == p.parts;
  }
}

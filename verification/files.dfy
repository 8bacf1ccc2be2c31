/** The file system as the adapters see it: a finite set of paths that exist.
    Directories and files are both paths; a path exists beneath a directory
    when the directory is one of its ancestors. */
module Files {
  import opened Results

  /** A canonical path: the root, or a name inside a parent directory. */
  datatype Path = Root | Child(parent: Path, name: string)

  /** `File.parentFile`: null for the root. */
  function ParentFile(p: Path): (r: Option<Path>)
    ensures r.Some? ==> Depth(r.value) < Depth(p)
  {
    match p
    case Root => None
    case Child(d, _) => Some(d)
  }

  function Depth(p: Path): (n: nat) {
    match p
    case Root => 0
    case Child(d, _) => Depth(d) + 1
  }

  /** `p` lies strictly beneath directory `dir`. */
  predicate Under(p: Path, dir: Path)
    decreases p
  {
    p.Child? && (p.parent == dir || Under(p.parent, dir))
  }

  lemma {:induction false} UnderIsDeeper(p: Path, dir: Path)
    requires Under(p, dir)
    ensures Depth(p) > Depth(dir)
    decreases p
  {
    if p.parent != dir {
      UnderIsDeeper(p.parent, dir);
    }
  }

  /** Two entries of one directory never lie beneath each other. */
  lemma SiblingsNotUnder(a: Path, b: Path)
    requires a.Child? && b.Child? && a.parent == b.parent
    ensures !Under(a, b)
  {
    if Under(a, b) {
      UnderIsDeeper(a, b);
    }
  }

  lemma NotUnderSelf(p: Path)
    ensures !Under(p, p)
  {
    if Under(p, p) {
      UnderIsDeeper(p, p);
    }
  }

  /** Nothing exists beneath `p`: a regular file, or an empty directory. */
  predicate NoChildren(existing: set<Path>, p: Path) {
    forall q :: q in existing ==> !Under(q, p)
  }

  /** Creating `p` itself keeps `p` free of children. */
  lemma NoChildrenAfterCreate(existing: set<Path>, p: Path)
    requires NoChildren(existing, p)
    ensures NoChildren(existing + {p}, p)
  {
    NotUnderSelf(p);
  }

  /** What `java.io.File.delete()` leaves: the path is removed when it exists
      and nothing lies beneath it (a directory must be empty). */
  function AfterDelete(existing: set<Path>, p: Path): (s: set<Path>)
    ensures NoChildren(existing, p) ==> s == existing - {p}
    ensures !NoChildren(existing, p) ==> s == existing
  {
    if p in existing && NoChildren(existing, p) then existing - {p}
    else existing
  }

  /** A recursive delete: the path and everything beneath it are gone, and
      nothing else is touched. The adapters never call one; it is the
      cleanup the Sili adapter's temporary directory needs. */
  function AfterDeleteTree(existing: set<Path>, p: Path): (s: set<Path>)
    ensures p !in s && NoChildren(s, p)
    ensures forall q :: q in existing && q != p && !Under(q, p) ==> q in s
    ensures s <= existing
  {
    set q | q in existing && q != p && !Under(q, p)
  }

  class FileSystem {
    var existing: set<Path>

    constructor (initial: set<Path>)
      ensures existing == initial
    {
      existing := initial;
    }

    /** `File.createTempFile` or any write that creates `p`. */
    method Create(p: Path)
      modifies this
      ensures existing == old(existing) + {p}
    {
      existing := existing + {p};
    }

    /** `File.mkdirs()`; its boolean result is never read by the callers. */
    method Mkdirs(p: Path)
      modifies this
      ensures existing == old(existing) + {p}
    {
      existing := existing + {p};
    }

    /** `File.delete()` */
    method Delete(p: Path) returns (ok: bool)
      modifies this
      ensures ok == (p in old(existing) && NoChildren(old(existing), p))
      ensures existing == AfterDelete(old(existing), p)
    {
      ok := p in existing && forall q | q in existing :: !Under(q, p);
      existing := AfterDelete(existing, p);
    }

    /** A recursive delete (Kotlin's `File.deleteRecursively()`), used only
        by the corrected Sili cleanup. */
    method DeleteTree(p: Path)
      modifies this
      ensures existing == AfterDeleteTree(old(existing), p)
    {
      existing := AfterDeleteTree(existing, p);
    }

    /** `File.renameTo(dest)`, moving a regular file. */
    method RenameTo(from: Path, to: Path) returns (ok: bool)
      modifies this
      ensures ok == (from in old(existing))
      ensures existing == if ok then old(existing) - {from} + {to} else old(existing)
    {
      ok := from in existing;
      if ok {
        existing := existing - {from} + {to};
      }
    }
  }
}

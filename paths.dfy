/** `os.path.basename` and `os.path.splitext` as the POSIX flavour of Python's `os.path` defines them. */
module Paths {
  import opened Strings

  /** `b` is the part of `p` after its last '/': a suffix of `p` holding no '/', which is
      either all of `p` or directly preceded by a '/'. */
  ghost predicate IsBasename(p: string, b: string) {
    && '/' !in b
    && |b| <= |p|
    && p[|p| - |b|..] == b
    && (|b| < |p| ==> p[|p| - |b| - 1] == '/')
  }

  /** `p[i]` is the dot that starts the extension of `p`: the last '.' of the last path
      component, provided something other than a dot comes before it in that component. */
  ghost predicate ExtensionAt(p: string, i: int) {
    && 0 <= i < |p|
    && p[i] == '.'
    && '.' !in p[i + 1..]
    && '/' !in p[i + 1..]
    && exists k :: 0 <= k < i && p[k] != '.' && '/' !in p[k..i]
  }

  /** `posixpath.basename(p)`: `p[p.rfind('/') + 1:]`. */
  function Basename(p: string): (b: string)
    ensures IsBasename(p, b)
  {
    p[RFind(p, '/') + 1..]
  }

  /** At most one string is the basename of a path. */
  lemma BasenameUnique(p: string, b1: string, b2: string)
    requires IsBasename(p, b1) && IsBasename(p, b2)
    ensures b1 == b2
  {
  }

  /** `posixpath.splitext(p)`: split at the last dot after the last '/', unless every
      character between that '/' and the dot is itself a dot (leading dots, as in
      ".profile", start no extension). */
  function SplitExt(p: string): (string, string)
  {
    var sep := RFind(p, '/');
    var dot := RFind(p, '.');
    if dot > sep && exists k :: sep + 1 <= k < dot && p[k] != '.' then (p[..dot], p[dot..])
    else (p, "")
  }

  /** What `splitext` returns: root and extension put back together give the path; the
      extension is non-empty exactly when the path has one, and then it starts at the dot
      that begins it. */
  lemma SplitExtMeaning(p: string)
    ensures SplitExt(p).0 + SplitExt(p).1 == p
    ensures SplitExt(p).1 != "" <==> exists i :: ExtensionAt(p, i)
    ensures SplitExt(p).1 != "" ==> ExtensionAt(p, |p| - |SplitExt(p).1|)
  {
    var sep := RFind(p, '/');
    var dot := RFind(p, '.');
    if dot > sep && exists k :: sep + 1 <= k < dot && p[k] != '.' {
      ExtensionFound(p, sep, dot);
    } else {
      NoExtension(p, sep, dot);
    }
  }

  lemma ExtensionFound(p: string, sep: int, dot: int)
    requires sep == RFind(p, '/') && dot == RFind(p, '.')
    requires dot > sep && exists k :: sep + 1 <= k < dot && p[k] != '.'
    ensures ExtensionAt(p, dot)
  {
  }

  lemma NoExtension(p: string, sep: int, dot: int)
    requires sep == RFind(p, '/') && dot == RFind(p, '.')
    requires !(dot > sep && exists k :: sep + 1 <= k < dot && p[k] != '.')
    ensures forall i :: !ExtensionAt(p, i)
  {
  }
}

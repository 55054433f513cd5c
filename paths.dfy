/**
 * The few std::filesystem::path operations the displays use, on POSIX
 * paths written as strings with '/' separators.
 *
 * The functions carry no contracts of their own: their properties are the
 * lemmas below, called where a proof needs them, so that the slices they
 * mention stay out of every other proof.
 */
module Paths {
  import opened Wrappers

  type Path = string

  /** The index of the last occurrence of `c` in `s`. */
  function LastIndexOf(s: string, c: char): (r: Option<nat>)
    ensures r.Some? ==> r.value < |s|
  {
    if s == [] then None
    else if s[|s| - 1] == c then Some(|s| - 1)
    else LastIndexOf(s[..|s| - 1], c)
  }

  /** `LastIndexOf` finds an occurrence, and none after it; `None` means there is none. */
  lemma {:induction false} LastIndexOfSpec(s: string, c: char)
    ensures var r := LastIndexOf(s, c);
      && (r.Some? ==> s[r.value] == c && forall k :: r.value < k < |s| ==> s[k] != c)
      && (r.None? ==> forall k :: 0 <= k < |s| ==> s[k] != c)
  {
    if s != [] && s[|s| - 1] != c {
      var t := s[..|s| - 1];
      LastIndexOfSpec(t, c);
      assert forall k :: 0 <= k < |t| ==> t[k] == s[k];
    }
  }

  predicate StartsWith(s: string, prefix: string)
  {
    |prefix| <= |s| && s[..|prefix|] == prefix
  }

  /** path::filename(): the longest suffix without a separator. */
  function Filename(p: Path): (r: string)
  {
    match LastIndexOf(p, '/')
    case None => p
    case Some(k) => p[k + 1..]
  }

  /**
   * path::parent_path(): everything before the last separator, or the root
   * "/" when that separator is the first character.
   */
  function Parent(p: Path): (r: Path)
  {
    match LastIndexOf(p, '/')
    case None => ""
    case Some(k) => if k == 0 then "/" else p[..k]
  }

  /**
   * The filename is a suffix of the path with no separator in it; either it
   * is the whole path and the parent is empty, or the path is the root and
   * the filename, or the path is the parent, a separator and the filename.
   */
  lemma FilenameSpec(p: Path)
    ensures |Filename(p)| <= |p| && p[|p| - |Filename(p)|..] == Filename(p)
    ensures forall k :: 0 <= k < |Filename(p)| ==> Filename(p)[k] != '/'
    ensures |Filename(p)| == |p| ==> Parent(p) == ""
    ensures |Filename(p)| == |p| - 1 ==> Parent(p) == "/" && p == "/" + Filename(p)
    ensures |Filename(p)| < |p| - 1 ==> p == Parent(p) + "/" + Filename(p)
  {
    LastIndexOfSpec(p, '/');
    match LastIndexOf(p, '/')
    case None =>
    case Some(k) =>
      assert p == p[..k] + "/" + p[k + 1..];
  }

  /** A filename longer than `prefix` starting with it comes from a non-empty path. */
  lemma StartsWithNonEmpty(p: Path, prefix: string)
    requires prefix != "" && StartsWith(Filename(p), prefix)
    ensures p != ""
  {
    FilenameSpec(p);
  }

  /**
   * path::extension(): from the last '.' of the filename, except for "."
   * and "..", and except when that '.' is the filename's first character.
   */
  function Extension(name: string): (r: string)
  {
    if name == "." || name == ".." then ""
    else match LastIndexOf(name, '.')
      case None => ""
      case Some(k) => if k == 0 then "" else name[k..]
  }

  /**
   * A non-empty extension is a proper suffix of the name that starts with its
   * only '.'; an empty one means no '.' past the first character.
   */
  lemma ExtensionSpec(name: string)
    ensures var r := Extension(name);
      && (r != "" ==> |r| < |name| && name[|name| - |r|..] == r && r[0] == '.')
      && (r != "" ==> forall k :: 0 < k < |r| ==> r[k] != '.')
      && (r == "" && name != "." && name != ".." ==> forall k :: 0 < k < |name| ==> name[k] != '.')
  {
    LastIndexOfSpec(name, '.');
  }

  /** The first entry from index `k` on that `wanted` accepts, or the empty path. */
  function FirstFrom(entries: seq<Path>, wanted: Path -> bool, k: nat): Path
    requires k <= |entries|
    decreases |entries| - k
  {
    if k == |entries| then ""
    else if wanted(entries[k]) then entries[k]
    else FirstFrom(entries, wanted, k + 1)
  }

  /** The first entry `wanted` accepts, or the empty path. */
  function First(entries: seq<Path>, wanted: Path -> bool): Path
  {
    FirstFrom(entries, wanted, 0)
  }

  /** The first accepted entry is the one found. */
  lemma FirstAt(entries: seq<Path>, wanted: Path -> bool, i: nat)
    requires i < |entries| && wanted(entries[i])
    requires forall j :: 0 <= j < i ==> !wanted(entries[j])
    ensures First(entries, wanted) == entries[i]
  {
    FirstFromAt(entries, wanted, i, 0);
  }

  lemma {:induction false} FirstFromAt(entries: seq<Path>, wanted: Path -> bool, i: nat, k: nat)
    requires k <= i < |entries| && wanted(entries[i])
    requires forall j :: k <= j < i ==> !wanted(entries[j])
    ensures FirstFrom(entries, wanted, k) == entries[i]
    decreases i - k
  {
    if k < i {
      FirstFromAt(entries, wanted, i, k + 1);
    }
  }

  /** With no accepted entry nothing is found: the path stays empty. */
  lemma FirstNone(entries: seq<Path>, wanted: Path -> bool)
    requires forall j :: 0 <= j < |entries| ==> !wanted(entries[j])
    ensures First(entries, wanted) == ""
  {
    FirstFromNone(entries, wanted, 0);
  }

  lemma {:induction false} FirstFromNone(entries: seq<Path>, wanted: Path -> bool, k: nat)
    requires k <= |entries|
    requires forall j :: k <= j < |entries| ==> !wanted(entries[j])
    ensures FirstFrom(entries, wanted, k) == ""
    decreases |entries| - k
  {
    if k < |entries| {
      FirstFromNone(entries, wanted, k + 1);
    }
  }

  /**
   * The directory walks of the displays' `load`: the first wanted entry,
   * the loop left with `break`.
   */
  method FindFirst(entries: seq<Path>, wanted: Path -> bool) returns (path: Path)
    ensures path == First(entries, wanted)
  {
    path := "";
    var i := 0;
    while i < |entries|
      invariant 0 <= i <= |entries|
      invariant First(entries, wanted) == FirstFrom(entries, wanted, i)
    {
      if wanted(entries[i]) {
        path := entries[i];
        break;
      }
      i := i + 1;
    }
  }

  /**
   * operator/=: a relative `b` is appended after a separator, unless `a` is
   * empty or already ends with one; an absolute `b` replaces `a`.
   */
  function Join(a: Path, b: Path): (r: Path)
  {
    if b != [] && b[0] == '/' then b
    else if a == [] || a[|a| - 1] == '/' then a + b
    else a + "/" + b
  }

  /**
   * Joining a single relative component onto a path that does not end with a
   * separator is undone by filename and parent_path.
   */
  lemma JoinSplit(a: Path, b: string)
    requires a != [] && a[|a| - 1] != '/' && b != []
    requires forall k :: 0 <= k < |b| ==> b[k] != '/'
    ensures Filename(Join(a, b)) == b && Parent(Join(a, b)) == a
  {
    var j := Join(a, b);
    assert j == a + "/" + b;
    LastIndexOfSpec(j, '/');
    assert j[|a|] == '/';
    assert forall k :: |a| < k < |j| ==> j[k] == b[k - |a| - 1];
    assert LastIndexOf(j, '/') == Some(|a|);
    assert j[|a| + 1..] == b;
    assert j[..|a|] == a;
  }
}

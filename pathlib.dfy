/** The part of Python's `PurePosixPath` the service relies on: the final
    component of a path (`name`) and its split into `stem` and `suffix`.
    Paths are plain strings; '/' is the only separator. */
module PurePath {

  /** A single path component that `PurePosixPath` keeps as it is:
      non-empty, without a separator, and not the current-directory mark. */
  predicate IsSimpleName(s: string) {
    |s| > 0 && '/' !in s && s != "."
  }

  /** The text after the last '/' of `s` (all of `s` when it holds none). */
  function LastSegment(s: string): (seg: string)
    ensures |seg| <= |s| && seg == s[|s| - |seg|..]
    ensures '/' !in seg
    ensures |seg| < |s| ==> s[|s| - |seg| - 1] == '/'
    decreases |s|
  {
    if s == [] || s[|s| - 1] == '/' then []
    else LastSegment(s[..|s| - 1]) + [s[|s| - 1]]
  }

  /** `PurePosixPath(s).name`: the last component that is neither empty nor
      ".", or "" when there is none (for "", "/", "." and the like).
      Empty and "." components are dropped by pathlib; ".." is kept. */
  function Name(s: string): (n: string)
    ensures '/' !in n && n != "."
    ensures |n| <= |s|
    decreases |s|
  {
    var seg := LastSegment(s);
    if |seg| == |s| then (if seg == "." then "" else seg)
    else if seg == "" || seg == "." then Name(s[..|s| - |seg| - 1])
    else seg
  }

  /** Python's `name.rfind('.')`: the index of the last '.', or -1. */
  function RFindDot(name: string): (i: int)
    ensures -1 <= i < |name|
    ensures i >= 0 ==> name[i] == '.'
    ensures forall j :: i < j < |name| ==> name[j] != '.'
    decreases |name|
  {
    if name == [] then -1
    else if name[|name| - 1] == '.' then |name| - 1
    else RFindDot(name[..|name| - 1])
  }

  /** pathlib splits a name at its last dot only when that dot is neither
      the first nor the last character. */
  predicate HasSuffix(name: string) {
    0 < RFindDot(name) < |name| - 1
  }

  /** `PurePosixPath(name).suffix` for a final component `name`. */
  function Suffix(name: string): (x: string)
    ensures x == [] || (|x| >= 2 && x[0] == '.' && '.' !in x[1..])
    ensures |x| <= |name| && x == name[|name| - |x|..]
    ensures x == [] <==> !HasSuffix(name)
  {
    if HasSuffix(name) then name[RFindDot(name)..] else []
  }

  /** `PurePosixPath(name).stem` for a final component `name`. */
  function Stem(name: string): (st: string)
    ensures st + Suffix(name) == name
    ensures |name| > 0 ==> |st| > 0
  {
    if HasSuffix(name) then name[..RFindDot(name)] else name
  }

  /** Appending a separator and a simple component makes that component
      the last segment, whatever comes before. */
  lemma {:induction false} LastSegmentOfJoin(dir: string, seg: string)
    requires '/' !in seg
    ensures LastSegment(dir + "/" + seg) == seg
    decreases |seg|
  {
    if seg == [] {
      assert (dir + "/" + seg)[|dir + "/" + seg| - 1] == '/';
    } else {
      var init := seg[..|seg| - 1];
      assert dir + "/" + seg == (dir + "/" + init) + [seg[|seg| - 1]];
      assert (dir + "/" + seg)[..|dir + "/" + seg| - 1] == dir + "/" + init;
      LastSegmentOfJoin(dir, init);
      assert init + [seg[|seg| - 1]] == seg;
    }
  }

  /** `PurePosixPath(dir) / seg` has `seg` as its name when `seg` is a
      simple component. */
  lemma NameOfJoin(dir: string, seg: string)
    requires IsSimpleName(seg)
    ensures Name(dir + "/" + seg) == seg
  {
    LastSegmentOfJoin(dir, seg);
  }

  /** A simple component is its own name. */
  lemma {:induction false} NameOfSimple(seg: string)
    requires IsSimpleName(seg)
    ensures Name(seg) == seg
  {
    LastSegmentIsAll(seg);
  }

  lemma {:induction false} LastSegmentIsAll(s: string)
    requires '/' !in s
    ensures LastSegment(s) == s
    decreases |s|
  {
    if s != [] {
      LastSegmentIsAll(s[..|s| - 1]);
      assert s[..|s| - 1] + [s[|s| - 1]] == s;
    }
  }

  /** pathlib ignores a trailing separator. */
  lemma NameIgnoresTrailingSeparator(s: string)
    ensures Name(s + "/") == Name(s)
  {
    assert LastSegment(s + "/") == [];
    assert (s + "/")[..|s|] == s;
  }

  /** pathlib ignores a trailing "." component. */
  lemma NameIgnoresTrailingDot(s: string)
    ensures Name(s + "/.") == Name(s)
  {
    assert s + "/." == s + "/" + ".";
    LastSegmentOfJoin(s, ".");
    assert (s + "/.")[..|s|] == s;
  }

  /** A name made of a non-empty base, a dot and a dot-free non-empty
      extension splits exactly at that dot. */
  lemma SplitAtLastDot(base: string, ext: string)
    requires |base| > 0 && |ext| > 0 && '.' !in ext
    ensures Suffix(base + "." + ext) == "." + ext
    ensures Stem(base + "." + ext) == base
  {
    var name := base + "." + ext;
    var i := RFindDot(name);
    assert name[|base|] == '.';
    assert i == |base|;
    assert name[i..] == "." + ext;
    assert name[..i] == base;
  }

  /** Appending a pathlib suffix (empty, or a dot and at least one more
      character with no further dot) to a non-empty component free of dots
      and separators gives a component with exactly that suffix. */
  lemma SuffixAfterDotFreeBase(base: string, x: string)
    requires |base| > 0 && '.' !in base && '/' !in base
    requires x == [] || (|x| >= 2 && x[0] == '.' && '.' !in x[1..])
    requires '/' !in x
    ensures IsSimpleName(base + x)
    ensures Suffix(base + x) == x
  {
    if x == [] {
      assert base + x == base;
      NoDotNoSuffix(base);
    } else {
      assert x == "." + x[1..];
      assert base + x == base + "." + x[1..];
      SplitAtLastDot(base, x[1..]);
    }
  }

  /** A name without any dot has no suffix and is its own stem. */
  lemma NoDotNoSuffix(name: string)
    requires '.' !in name
    ensures Suffix(name) == [] && Stem(name) == name
  {
  }

  /** An upload name given with directories and several dots keeps only
      its final component, split at the last dot: "music/song.tar.mp3"
      has stem "song.tar" and suffix ".mp3". */
  lemma FinalComponentSplit(dir: string, base: string, ext: string)
    requires '/' !in base && '/' !in ext && '.' !in ext
    requires |base| > 0 && |ext| > 0
    ensures Stem(Name(dir + "/" + (base + "." + ext))) == base
    ensures Suffix(Name(dir + "/" + (base + "." + ext))) == "." + ext
  {
    NameOfJoin(dir, base + "." + ext);
    SplitAtLastDot(base, ext);
  }
}

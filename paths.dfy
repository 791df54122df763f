/**
 * POSIX path strings with the behaviour of Node's `path` module on POSIX
 * systems: `isAbsolute`, `normalize`, `join`, `dirname` and `basename`.
 * A path is a plain string; '/' separates its segments.
 */
module Paths {

  const Sep: char := '/'

  /** `path.isAbsolute`: the path starts at the root. */
  predicate IsAbsolute(p: string)
  {
    |p| > 0 && p[0] == Sep
  }

  /** `s` contains no separator. */
  predicate NoSep(s: string)
  {
    forall i :: 0 <= i < |s| ==> s[i] != Sep
  }

  /** A single entry name: non-empty, no separator, and not `.` or `..`. */
  predicate IsName(s: string)
  {
    s != "" && NoSep(s) && s != "." && s != ".."
  }

  /** JavaScript's `s.substring(start)`: everything from `start` on, or "" past the end. */
  function Substring(s: string, start: nat): (r: string)
    ensures start <= |s| ==> s == s[..start] + r
    ensures start >= |s| ==> r == ""
  {
    if start >= |s| then "" else s[start..]
  }

  /** Cutting `x + y` inside `y` keeps `x` whole in front. */
  lemma PrefixOfAppend<T>(x: seq<T>, y: seq<T>, j: nat)
    requires j <= |y|
    ensures (x + y)[..|x| + j] == x + y[..j]
  {
  }

  /** Cutting `x + y` inside `y` leaves the rest of `y` behind. */
  lemma SuffixOfAppend<T>(x: seq<T>, y: seq<T>, j: nat)
    requires j <= |y|
    ensures (x + y)[|x| + j..] == y[j..]
  {
  }

  /** Index of the last separator in `p`, or -1 when it has none. */
  function LastSep(p: string): (k: int)
    ensures -1 <= k < |p|
    ensures k >= 0 ==> p[k] == Sep
    ensures forall i :: k < i < |p| ==> p[i] != Sep
  {
    if |p| == 0 then -1
    else if p[|p| - 1] == Sep then |p| - 1
    else LastSep(p[..|p| - 1])
  }

  /** The separator that follows `a` is the last one in `a + "/" + b` when `b` has none. */
  lemma {:induction false} LastSepBefore(a: string, b: string)
    requires NoSep(b)
    ensures LastSep(a + [Sep] + b) == |a|
    decreases |b|
  {
    var p := a + [Sep] + b;
    if |b| > 0 {
      var b' := b[..|b| - 1];
      assert p[..|p| - 1] == a + [Sep] + b';
      assert p[|p| - 1] == b[|b| - 1];
      assert NoSep(b') by {
        forall i | 0 <= i < |b'|
          ensures b'[i] != Sep
        {
          assert b'[i] == b[i];
        }
      }
      LastSepBefore(a, b');
    }
  }

  /** The segments of `p` between separators: "/a//b/" gives ["", "a", "", "b", ""]. */
  function Split(p: string): (segs: seq<string>)
    ensures |segs| >= 1
    ensures forall i :: 0 <= i < |segs| ==> NoSep(segs[i])
    decreases |p|
  {
    var k := LastSep(p);
    if k < 0 then [p] else Split(p[..k]) + [p[k + 1..]]
  }

  /** The segments written out with one separator between neighbours. */
  function Unsplit(segs: seq<string>): (p: string)
    ensures |segs| > 0 && segs[0] != "" ==> |p| > 0 && p[0] == segs[0][0]
  {
    if |segs| == 0 then ""
    else if |segs| == 1 then segs[0]
    else Unsplit(segs[..|segs| - 1]) + [Sep] + segs[|segs| - 1]
  }

  /** Splitting and writing out again gives the original path back. */
  lemma {:induction false} UnsplitSplit(p: string)
    ensures Unsplit(Split(p)) == p
    decreases |p|
  {
    var k := LastSep(p);
    if k >= 0 {
      var init := Split(p[..k]);
      UnsplitSplit(p[..k]);
      assert Split(p) == init + [p[k + 1..]];
      assert (init + [p[k + 1..]])[..|init|] == init;
      assert p == p[..k] + [Sep] + p[k + 1..];
    }
  }

  /** Writing out separator-free segments and splitting again gives the segments back. */
  lemma {:induction false} SplitUnsplit(segs: seq<string>)
    requires |segs| >= 1
    requires forall i :: 0 <= i < |segs| ==> NoSep(segs[i])
    ensures Split(Unsplit(segs)) == segs
  {
    if |segs| > 1 {
      var init := segs[..|segs| - 1];
      var last := segs[|segs| - 1];
      assert forall i :: 0 <= i < |init| ==> NoSep(init[i]) by {
        forall i | 0 <= i < |init|
          ensures NoSep(init[i])
        {
          assert init[i] == segs[i];
        }
      }
      SplitUnsplit(init);
      var a := Unsplit(init);
      var p := a + [Sep] + last;
      assert Unsplit(segs) == p;
      LastSepBefore(a, last);
      assert p[..|a|] == a;
      assert p[|a| + 1..] == last;
      assert Split(p) == Split(a) + [last];
      assert segs == init + [last];
    } else {
      NoSepHasNoLastSep(segs[0]);
    }
  }

  /** A string without separators has no last separator, and splits into itself. */
  lemma NoSepHasNoLastSep(s: string)
    requires NoSep(s)
    ensures LastSep(s) == -1 && Split(s) == [s]
  {
  }

  /** Splitting at a separator splits both sides independently. */
  lemma {:induction false} SplitAppend(a: string, b: string)
    ensures Split(a + [Sep] + b) == Split(a) + Split(b)
    decreases |b|
  {
    var p := a + [Sep] + b;
    var kb := LastSep(b);
    PrefixOfAppend(a + [Sep], b, if kb < 0 then 0 else kb);
    SuffixOfAppend(a + [Sep], b, if kb < 0 then 0 else kb + 1);
    if kb < 0 {
      assert NoSep(b);
      LastSepBefore(a, b);
      assert p[..|a|] == a;
      assert b[0..] == b;
      assert Split(p) == Split(a) + [b];
    } else {
      LastSepShift(a, b, kb);
      SplitAppend(a, b[..kb]);
      assert Split(p) == Split(a + [Sep] + b[..kb]) + [b[kb + 1..]];
    }
  }

  /** The last separator of `b` is still the last one once `a + "/"` is put in front. */
  lemma {:induction false} LastSepShift(a: string, b: string, kb: int)
    requires kb == LastSep(b) && kb >= 0
    ensures LastSep(a + [Sep] + b) == |a| + 1 + kb
    decreases |b|
  {
    var p := a + [Sep] + b;
    assert p[|p| - 1] == b[|b| - 1];
    if b[|b| - 1] != Sep {
      var b' := b[..|b| - 1];
      assert p[..|p| - 1] == a + [Sep] + b';
      LastSepShift(a, b', kb);
    }
  }

  /**
   * One step of the segment resolution that `normalize` performs: empty and `.`
   * segments vanish, `..` removes the previous name, or stays when nothing can be
   * removed and the path is relative.
   */
  function Step(st: seq<string>, x: string, aboveRoot: bool): seq<string>
  {
    if x == "" || x == "." then st
    else if x == ".." then
      if |st| > 0 && st[|st| - 1] != ".." then st[..|st| - 1]
      else if aboveRoot then st + [".."]
      else st
    else st + [x]
  }

  /** The segments that survive resolution, left to right. */
  function Resolve(segs: seq<string>, aboveRoot: bool): (st: seq<string>)
    requires forall i :: 0 <= i < |segs| ==> NoSep(segs[i])
    ensures forall i :: 0 <= i < |st| ==> st[i] != "" && st[i] != "." && NoSep(st[i])
    ensures !aboveRoot ==> forall i :: 0 <= i < |st| ==> st[i] != ".."
  {
    if |segs| == 0 then []
    else Step(Resolve(segs[..|segs| - 1], aboveRoot), segs[|segs| - 1], aboveRoot)
  }

  /** Empty segments (doubled separators) make no difference to the resolution. */
  lemma {:induction false} ResolveSkipsEmpty(xs: seq<string>, ys: seq<string>, aboveRoot: bool)
    requires forall i :: 0 <= i < |xs| ==> NoSep(xs[i])
    requires forall i :: 0 <= i < |ys| ==> NoSep(ys[i])
    ensures Resolve(xs + [""] + ys, aboveRoot) == Resolve(xs + ys, aboveRoot)
    decreases |ys|
  {
    if |ys| == 0 {
      assert (xs + [""] + ys)[..|xs|] == xs;
      assert xs + ys == xs;
    } else {
      var init := ys[..|ys| - 1];
      ResolveSkipsEmpty(xs, init, aboveRoot);
      assert (xs + [""] + ys)[..|xs + [""] + ys| - 1] == xs + [""] + init;
      assert (xs + ys)[..|xs + ys| - 1] == xs + init;
    }
  }

  /** A name at the end of the segments survives resolution unchanged. */
  lemma ResolveAppendName(xs: seq<string>, name: string, aboveRoot: bool)
    requires forall i :: 0 <= i < |xs| ==> NoSep(xs[i])
    requires IsName(name)
    ensures Resolve(xs + [name], aboveRoot) == Resolve(xs, aboveRoot) + [name]
  {
    assert (xs + [name])[..|xs|] == xs;
  }

  /** How `normalize` writes out the resolved segments of a path. */
  function Assemble(abs: bool, trailing: bool, st: seq<string>): string
  {
    if st == [] then (if abs then "/" else if trailing then "./" else ".")
    else (if abs then "/" else "") + Unsplit(st) + (if trailing then "/" else "")
  }

  /** `path.normalize` (POSIX). */
  function Normalize(p: string): (r: string)
    ensures r != ""
    ensures IsAbsolute(r) <==> IsAbsolute(p)
  {
    if p == "" then "."
    else Assemble(p[0] == Sep, p[|p| - 1] == Sep, Resolve(Split(p), p[0] != Sep))
  }

  /** `path.join` of two arguments (POSIX): empty arguments are dropped, the rest normalized. */
  function Join(a: string, b: string): (r: string)
    ensures a != "" ==> (IsAbsolute(r) <==> IsAbsolute(a))
  {
    if a == "" && b == "" then "."
    else Normalize(if a == "" then b else if b == "" then a else a + [Sep] + b)
  }

  /** `p` without its trailing separators. */
  function TrimTrailingSeps(p: string): (q: string)
    ensures q <= p
    ensures q == "" || q[|q| - 1] != Sep
    ensures forall i :: |q| <= i < |p| ==> p[i] == Sep
  {
    if |p| > 0 && p[|p| - 1] == Sep then TrimTrailingSeps(p[..|p| - 1]) else p
  }

  /** `path.basename` (POSIX, no extension argument): the last name, trailing separators ignored. */
  function Basename(p: string): (b: string)
    ensures NoSep(b)
  {
    var q := TrimTrailingSeps(p);
    q[LastSep(q) + 1..]
  }

  /** `path.dirname` (POSIX): everything before the last name, trailing separators ignored. */
  function Dirname(p: string): (d: string)
    ensures d != ""
    ensures IsAbsolute(d) <==> IsAbsolute(p)
  {
    if p == "" then "."
    else
      var q := TrimTrailingSeps(p);
      var k := LastSep(q);
      if k < 1 then (if p[0] == Sep then "/" else ".")
      else if p[0] == Sep && k == 1 then "//"
      else q[..k]
  }

  /** The last name of `x + "/" + name` is `name`. */
  lemma BasenameOfChild(x: string, name: string)
    requires name != "" && NoSep(name)
    ensures Basename(x + [Sep] + name) == name
  {
    var p := x + [Sep] + name;
    assert p[|p| - 1] == name[|name| - 1];
    assert name[|name| - 1] != Sep;
    assert TrimTrailingSeps(p) == p;
    LastSepBefore(x, name);
    assert p[|x| + 1..] == name;
  }

  /** A bare name is its own basename. */
  lemma BasenameOfName(name: string)
    requires name != "" && NoSep(name)
    ensures Basename(name) == name
  {
    assert name[|name| - 1] != Sep;
    assert TrimTrailingSeps(name) == name;
  }

  /** Resolved segments that end in a name are written out with that name last. */
  lemma BasenameOfAssembled(abs: bool, st: seq<string>, name: string)
    requires IsName(name)
    ensures Basename(Assemble(abs, false, st + [name])) == name
  {
    var pre: string := if abs then "/" else "";
    if st == [] {
      assert Unsplit(st + [name]) == name;
      if abs {
        assert Assemble(abs, false, st + [name]) == "" + [Sep] + name;
        BasenameOfChild("", name);
      } else {
        assert Assemble(abs, false, st + [name]) == name;
        BasenameOfName(name);
      }
    } else {
      assert (st + [name])[..|st|] == st;
      assert Unsplit(st + [name]) == Unsplit(st) + [Sep] + name;
      assert Assemble(abs, false, st + [name]) == (pre + Unsplit(st)) + [Sep] + name;
      BasenameOfChild(pre + Unsplit(st), name);
    }
  }

  /** Joining a name onto any directory yields a path whose basename is that name. */
  lemma {:induction false} BasenameOfJoin(dir: string, name: string)
    requires IsName(name)
    ensures Basename(Join(dir, name)) == name
  {
    assert name[|name| - 1] != Sep;
    if dir == "" {
      SplitUnsplit([name]);
      ResolveAppendName([], name, true);
      assert [] + [name] == [name];
      BasenameOfAssembled(false, [], name);
    } else {
      var p := dir + [Sep] + name;
      SplitAppend(dir, name);
      SplitUnsplit([name]);
      assert Split(p) == Split(dir) + [name];
      ResolveAppendName(Split(dir), name, dir[0] != Sep);
      assert p[0] == dir[0] && p[|p| - 1] == name[|name| - 1];
      BasenameOfAssembled(dir[0] == Sep, Resolve(Split(dir), dir[0] != Sep), name);
    }
  }

  /** A doubled separator splits into an extra empty segment. */
  lemma SplitDoubleSep(a: string, b: string)
    ensures Split(a + [Sep] + ([Sep] + b)) == Split(a) + [""] + Split(b)
  {
    SplitAppend(a, [Sep] + b);
    SplitAppend("", b);
    EmptyPrefix([Sep]);
    assert Split("") == [""];
    ConcatAssoc(Split(a), [""], Split(b));
  }

  /** Concatenation is associative. */
  lemma ConcatAssoc<T>(x: seq<T>, y: seq<T>, z: seq<T>)
    ensures (x + y) + z == x + (y + z)
  {
  }

  /** Nothing in front changes nothing. */
  lemma EmptyPrefix<T>(x: seq<T>)
    ensures [] + x == x
  {
  }

  /** Two paths with the same ends and the same resolved segments normalize alike. */
  lemma NormalizeBySegments(p: string, q: string)
    requires p != "" && q != "" && p[0] == q[0] && p[|p| - 1] == q[|q| - 1]
    requires Resolve(Split(p), p[0] != Sep) == Resolve(Split(q), q[0] != Sep)
    ensures Normalize(p) == Normalize(q)
  {
  }

  /** A doubled separator between two non-empty paths makes no difference to `join`. */
  lemma JoinIgnoresLeadingSep(a: string, b: string)
    requires a != "" && b != ""
    ensures Join(a, [Sep] + b) == Join(a, b)
  {
    var p := a + [Sep] + ([Sep] + b);
    var q := a + [Sep] + b;
    SplitDoubleSep(a, b);
    SplitAppend(a, b);
    ResolveSkipsEmpty(Split(a), Split(b), a[0] != Sep);
    assert p[0] == q[0] && p[|p| - 1] == q[|q| - 1];
    NormalizeBySegments(p, q);
  }


  /** `makeAbsolute`: an absolute path stays as it is; a relative one is joined onto `repoRoot`. */
  function MakeAbsolute(repoRoot: string, p: string): (r: string)
    ensures IsAbsolute(p) ==> r == p
    ensures !IsAbsolute(p) ==> r == Join(repoRoot, p)
    ensures IsAbsolute(repoRoot) ==> IsAbsolute(r)
  {
    if IsAbsolute(p) then p else Join(repoRoot, p)
  }

  /** The root folder as the task resolves it: the input normalized, then made absolute. */
  function RootFolder(repoRoot: string, input: string): (r: string)
    ensures IsAbsolute(input) ==> r == Normalize(input)
    ensures IsAbsolute(repoRoot) ==> IsAbsolute(r)
  {
    MakeAbsolute(repoRoot, Normalize(input))
  }
}

/**
 * `findFiles`: which local paths the upload processes, given the root folder,
 * the recursive listing of it and the file patterns.
 */
module FileSelection {
  import opened Paths
  import opened SortedSets

  /** What `tl.stats` says a path is. */
  datatype Kind = File | Directory | Other

  /** The normalized parent directory of a path: never empty, and absolute exactly when the path is. */
  function Parent(p: string): (d: string)
    ensures d != ""
    ensures IsAbsolute(d) <==> IsAbsolute(p)
  {
    Normalize(Dirname(p))
  }

  /**
   * The pattern handed to the glob matcher: the pattern normalized and joined onto
   * the root. Under an absolute root it is absolute, whatever the pattern.
   */
  function PatternPath(root: string, pattern: string): (g: string)
    ensures root != "" ==> (IsAbsolute(g) <==> IsAbsolute(root))
  {
    Join(root, Normalize(pattern))
  }

  /** `tl.match`: the listing entries the glob accepts, in listing order. */
  function MatchList(listing: seq<string>, glob: string, matches: (string, string) -> bool): (m: seq<string>)
    ensures forall x :: x in m <==> x in listing && matches(x, glob)
  {
    if |listing| == 0 then []
    else
      var init := MatchList(listing[..|listing| - 1], glob, matches);
      var last := listing[|listing| - 1];
      assert listing == listing[..|listing| - 1] + [last];
      if matches(last, glob) then init + [last] else init
  }

  /** The matched entries of one pattern, each normalized. */
  function NormalizedMatches(root: string, listing: seq<string>, pattern: string,
                             matches: (string, string) -> bool): seq<string>
  {
    NormalizeEach(MatchList(listing, PatternPath(root, pattern), matches))
  }

  /** Each path of `ps`, normalized, in the same order. */
  function NormalizeEach(ps: seq<string>): (r: seq<string>)
    ensures |r| == |ps|
    ensures forall i :: 0 <= i < |ps| ==> r[i] == Normalize(ps[i])
  {
    if |ps| == 0 then [] else NormalizeEach(ps[..|ps| - 1]) + [Normalize(ps[|ps| - 1])]
  }

  /** Every normalized match, pattern after pattern, in the order the selection visits them. */
  function Candidates(root: string, listing: seq<string>, patterns: seq<string>,
                      matches: (string, string) -> bool): seq<string>
  {
    if |patterns| == 0 then []
    else Candidates(root, listing, patterns[..|patterns| - 1], matches)
         + NormalizedMatches(root, listing, patterns[|patterns| - 1], matches)
  }

  /** Whether the glob of `pattern` accepts an entry of the listing that normalizes to `x`. */
  ghost predicate MatchedBy(root: string, listing: seq<string>, pattern: string,
                            matches: (string, string) -> bool, x: string)
  {
    exists m :: m in listing && matches(m, PatternPath(root, pattern)) && x == Normalize(m)
  }

  /** Whether the glob of some pattern accepts an entry of the listing that normalizes to `x`. */
  ghost predicate Matched(root: string, listing: seq<string>, patterns: seq<string>,
                          matches: (string, string) -> bool, x: string)
  {
    exists p :: p in patterns && MatchedBy(root, listing, p, matches, x)
  }

  /** The normalized matches of one pattern are the normalized entries its glob accepts. */
  lemma NormalizedMatchesAre(root: string, listing: seq<string>, pattern: string,
                             matches: (string, string) -> bool, x: string)
    ensures x in NormalizedMatches(root, listing, pattern, matches) <==> MatchedBy(root, listing, pattern, matches, x)
  {
    var ml := MatchList(listing, PatternPath(root, pattern), matches);
    var nm := NormalizedMatches(root, listing, pattern, matches);
    if x in nm {
      var i :| 0 <= i < |nm| && nm[i] == x;
      assert ml[i] in ml;
    }
    if MatchedBy(root, listing, pattern, matches, x) {
      var m :| m in listing && matches(m, PatternPath(root, pattern)) && x == Normalize(m);
      var i :| 0 <= i < |ml| && ml[i] == m;
      assert nm[i] == x;
    }
  }

  /** Some element of `xs` satisfies `P` exactly when one before the last does, or the last does. */
  lemma SomeInSnoc<T>(xs: seq<T>, P: T -> bool)
    requires |xs| > 0
    ensures (exists q :: q in xs && P(q)) <==> (exists q :: q in xs[..|xs| - 1] && P(q)) || P(xs[|xs| - 1])
  {
    var init := xs[..|xs| - 1];
    if exists q :: q in xs && P(q) {
      var q :| q in xs && P(q);
      var t :| 0 <= t < |xs| && xs[t] == q;
      if t < |xs| - 1 {
        assert init[t] == q;
      }
    }
    if exists q :: q in init && P(q) {
      var q :| q in init && P(q);
      var t :| 0 <= t < |init| && init[t] == q;
      assert xs[t] == q;
    }
  }

  /** An entry matched by some pattern is matched by one of the earlier ones or by the last. */
  lemma MatchedByLastOrEarlier(root: string, listing: seq<string>, patterns: seq<string>,
                               matches: (string, string) -> bool, x: string)
    requires |patterns| > 0
    ensures Matched(root, listing, patterns, matches, x)
            <==> Matched(root, listing, patterns[..|patterns| - 1], matches, x)
                 || MatchedBy(root, listing, patterns[|patterns| - 1], matches, x)
  {
    SomeInSnoc(patterns, q => MatchedBy(root, listing, q, matches, x));
  }

  /** The candidates are exactly the normalized entries some pattern matches. */
  lemma {:induction false} CandidatesAreMatches(root: string, listing: seq<string>, patterns: seq<string>,
                                                matches: (string, string) -> bool, x: string)
    ensures x in Candidates(root, listing, patterns, matches) <==> Matched(root, listing, patterns, matches, x)
  {
    if |patterns| > 0 {
      var init := patterns[..|patterns| - 1];
      var p := patterns[|patterns| - 1];
      CandidatesAreMatches(root, listing, init, matches, x);
      NormalizedMatchesAre(root, listing, p, matches, x);
      MatchedByLastOrEarlier(root, listing, patterns, matches, x);
      assert Candidates(root, listing, patterns, matches)
          == Candidates(root, listing, init, matches) + NormalizedMatches(root, listing, p, matches);
    }
  }

  /** The normalized parents of the candidates that are files. */
  function FileParents(cands: seq<string>, kind: string -> Kind): set<string>
  {
    set y | y in cands && kind(y) == File :: Parent(y)
  }

  /**
   * What `findFiles` returns.
   * - When the root is a file: exactly its parent and itself; the patterns are not read.
   * - When some pattern is `*`: the whole listing, as it is.
   * - Otherwise: a strictly ascending (hence duplicate-free) sequence of matched
   *   entries and parents of matched files, holding every matched entry, and the
   *   parent of every matched file that is not itself the parent of a matched file.
   */
  ghost predicate IsSelection(root: string, kind: string -> Kind, listing: seq<string>,
                              patterns: seq<string>, matches: (string, string) -> bool,
                              files: seq<string>)
  {
    if kind(root) == File then files == [Parent(root), root]
    else if "*" in patterns then files == listing
    else
      var cands := Candidates(root, listing, patterns, matches);
      var parents := FileParents(cands, kind);
      && StrictlyAscending(files)
      && (forall x :: x in files ==> x in cands || x in parents)
      && (forall x :: x in cands ==> x in files)
      && (forall x :: x in cands && kind(x) == File && x !in parents ==> Parent(x) in files)
  }

  /** When no matched file is the parent of another, the selection is closed under parents. */
  lemma SelectionHasParents(root: string, kind: string -> Kind, listing: seq<string>,
                            patterns: seq<string>, matches: (string, string) -> bool,
                            files: seq<string>)
    requires IsSelection(root, kind, listing, patterns, matches, files)
    requires kind(root) != File && "*" !in patterns
    requires forall y :: y in Candidates(root, listing, patterns, matches) && kind(y) == File ==> kind(Parent(y)) != File
    ensures forall x :: x in Candidates(root, listing, patterns, matches) && kind(x) == File ==> Parent(x) in files
  {
    var cands := Candidates(root, listing, patterns, matches);
    forall x | x in cands && kind(x) == File
      ensures Parent(x) in files
    {
      assert x !in FileParents(cands, kind);
    }
  }

  /** The prefix of the candidates left after the patterns before `i`, plus the first `j` of pattern `i`. */
  function Visited(root: string, listing: seq<string>, patterns: seq<string>,
                   matches: (string, string) -> bool, i: nat, j: nat): seq<string>
    requires i < |patterns|
    requires j <= |NormalizedMatches(root, listing, patterns[i], matches)|
  {
    Candidates(root, listing, patterns[..i], matches)
    + NormalizedMatches(root, listing, patterns[i], matches)[..j]
  }

  /** The invariant of the selection loop, after the entries `done` have been visited. */
  ghost predicate Collected(items: seq<string>, done: seq<string>, kind: string -> Kind, parents: set<string>)
  {
    && (forall x :: x in items ==> x in done || x in FileParents(done, kind))
    && (forall x :: x in done ==> x in items)
    && (forall x :: x in done && kind(x) == File && x !in parents ==> Parent(x) in items)
  }

  /**
   * One match of the selection loop: added to the set, and when it was new and is a
   * file, its parent added too.
   */
  method AddMatch(found: SortedSet, m: string, kind: string -> Kind)
    requires found.Valid()
    modifies found
    ensures found.Valid()
    ensures m in old(found.items) ==> found.items == old(found.items)
    ensures m !in old(found.items) ==>
              forall y :: y in found.items <==> y in old(found.items) || y == m || (kind(m) == File && y == Parent(m))
  {
    var added := found.Add(m);
    if added && kind(m) == File {
      var _ := found.Add(Parent(m));
    }
  }

  /** `findFiles`. */
  method FindFiles(root: string, kind: string -> Kind, listing: seq<string>,
                   patterns: seq<string>, matches: (string, string) -> bool)
    returns (files: seq<string>)
    ensures IsSelection(root, kind, listing, patterns, matches, files)
  {
    if kind(root) == File {
      return [Parent(root), root];
    }
    var i := 0;
    while i < |patterns|
      invariant 0 <= i <= |patterns|
      invariant "*" !in patterns[..i]
    {
      if patterns[i] == "*" {
        return listing;
      }
      assert patterns[..i + 1] == patterns[..i] + [patterns[i]];
      i := i + 1;
    }
    assert patterns[..i] == patterns;
    ghost var cands := Candidates(root, listing, patterns, matches);
    ghost var parents := FileParents(cands, kind);
    var found := new SortedSet();
    i := 0;
    while i < |patterns|
      invariant 0 <= i <= |patterns|
      invariant found.Valid()
      invariant Collected(found.items, Candidates(root, listing, patterns[..i], matches), kind, parents)
    {
      var matched := MatchList(listing, PatternPath(root, patterns[i]), matches);
      ghost var nm := NormalizedMatches(root, listing, patterns[i], matches);
      assert nm[..0] == [];
      assert Visited(root, listing, patterns, matches, i, 0) == Candidates(root, listing, patterns[..i], matches);
      var j := 0;
      while j < |matched|
        invariant 0 <= j <= |matched|
        invariant found.Valid()
        invariant Collected(found.items, Visited(root, listing, patterns, matches, i, j), kind, parents)
      {
        var m := Normalize(matched[j]);
        ghost var before := Visited(root, listing, patterns, matches, i, j);
        ghost var items := found.items;
        VisitedGrows(root, listing, patterns, matches, i, j);
        VisitedAreCandidates(root, listing, patterns, matches, i, j);
        FileParentsMonotone(before, cands, kind);
        AddMatch(found, m, kind);
        CollectedStep(items, found.items, before, m, kind, parents);
        j := j + 1;
      }
      VisitedPrefix(root, listing, patterns, matches, i, j);
      i := i + 1;
    }
    assert patterns[..i] == patterns;
    files := found.Sorted();
  }

  /** The candidates of the first `i` patterns come first among the candidates of all of them. */
  lemma {:induction false} CandidatesPrefix(root: string, listing: seq<string>, patterns: seq<string>,
                                            matches: (string, string) -> bool, i: nat)
    requires i <= |patterns|
    ensures Candidates(root, listing, patterns[..i], matches) <= Candidates(root, listing, patterns, matches)
    decreases |patterns|
  {
    if i < |patterns| {
      var init := patterns[..|patterns| - 1];
      assert init[..i] == patterns[..i];
      CandidatesPrefix(root, listing, init, matches, i);
    } else {
      assert patterns[..i] == patterns;
    }
  }

  /** The entries visited so far are a prefix of the candidates of the patterns up to `i`. */
  lemma VisitedPrefix(root: string, listing: seq<string>, patterns: seq<string>,
                      matches: (string, string) -> bool, i: nat, j: nat)
    requires i < |patterns|
    requires j <= |NormalizedMatches(root, listing, patterns[i], matches)|
    ensures Visited(root, listing, patterns, matches, i, j) <= Candidates(root, listing, patterns[..i + 1], matches)
    ensures j == |NormalizedMatches(root, listing, patterns[i], matches)| ==>
              Visited(root, listing, patterns, matches, i, j) == Candidates(root, listing, patterns[..i + 1], matches)
  {
    CandidatesSnoc(root, listing, patterns, matches, i);
    PrefixOfConcat(Candidates(root, listing, patterns[..i], matches),
                   NormalizedMatches(root, listing, patterns[i], matches), j);
  }

  /** The candidates of one more pattern are the earlier ones followed by its normalized matches. */
  lemma CandidatesSnoc(root: string, listing: seq<string>, patterns: seq<string>,
                       matches: (string, string) -> bool, i: nat)
    requires i < |patterns|
    ensures Candidates(root, listing, patterns[..i + 1], matches)
         == Candidates(root, listing, patterns[..i], matches) + NormalizedMatches(root, listing, patterns[i], matches)
  {
    var ps := patterns[..i + 1];
    assert ps[..|ps| - 1] == patterns[..i];
    assert ps[|ps| - 1] == patterns[i];
  }

  /** A prefix of the second part extends the first part to a prefix of the whole. */
  lemma PrefixOfConcat<T>(c: seq<T>, s: seq<T>, j: nat)
    requires j <= |s|
    ensures c + s[..j] <= c + s
    ensures j == |s| ==> c + s[..j] == c + s
  {
    assert s[..|s|] == s;
  }

  /** Visiting one more match appends that match, normalized. */
  lemma VisitedGrows(root: string, listing: seq<string>, patterns: seq<string>,
                     matches: (string, string) -> bool, i: nat, j: nat)
    requires i < |patterns|
    requires j < |MatchList(listing, PatternPath(root, patterns[i]), matches)|
    ensures Visited(root, listing, patterns, matches, i, j + 1)
         == Visited(root, listing, patterns, matches, i, j)
            + [Normalize(MatchList(listing, PatternPath(root, patterns[i]), matches)[j])]
  {
    var nm := NormalizedMatches(root, listing, patterns[i], matches);
    AppendOneMore(Candidates(root, listing, patterns[..i], matches), nm, j);
  }

  /** Taking one more element of `s` after a common prefix `c`. */
  lemma AppendOneMore<T>(c: seq<T>, s: seq<T>, j: nat)
    requires j < |s|
    ensures c + s[..j + 1] == (c + s[..j]) + [s[j]]
  {
    assert s[..j + 1] == s[..j] + [s[j]];
  }

  /** Every entry visited so far is a candidate of the whole pattern list. */
  lemma VisitedAreCandidates(root: string, listing: seq<string>, patterns: seq<string>,
                             matches: (string, string) -> bool, i: nat, j: nat)
    requires i < |patterns|
    requires j <= |NormalizedMatches(root, listing, patterns[i], matches)|
    ensures forall x :: x in Visited(root, listing, patterns, matches, i, j) ==>
                          x in Candidates(root, listing, patterns, matches)
  {
    VisitedPrefix(root, listing, patterns, matches, i, j);
    CandidatesPrefix(root, listing, patterns, matches, i + 1);
  }

  /** Visiting one more entry keeps the loop invariant, whether or not the entry was new. */
  lemma CollectedStep(items: seq<string>, items': seq<string>, before: seq<string>, m: string,
                      kind: string -> Kind, parents: set<string>)
    requires Collected(items, before, kind, parents)
    requires FileParents(before, kind) <= parents
    requires m in items ==> items' == items
    requires m !in items ==>
               forall y :: y in items' <==> y in items || y == m || (kind(m) == File && y == Parent(m))
    ensures Collected(items', before + [m], kind, parents)
  {
    var done := before + [m];
    FileParentsMonotone(before, done, kind);
    if kind(m) == File {
      assert Parent(m) in FileParents(done, kind);
    }
  }

  /** Parents of files among more entries include those among fewer. */
  lemma FileParentsMonotone(xs: seq<string>, ys: seq<string>, kind: string -> Kind)
    requires forall x :: x in xs ==> x in ys
    ensures FileParents(xs, kind) <= FileParents(ys, kind)
  {
  }
}

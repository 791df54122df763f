/**
 * The ordered, duplicate-free string set the file selection collects its
 * results in. Strings are ordered lexicographically, character by character.
 * JavaScript's `<` compares UTF-16 code units, so the two orders agree on
 * strings whose characters all lie in the Basic Multilingual Plane (up to
 * U+FFFF) and may differ on strings holding characters above it.
 */
module SortedSets {

  /** Lexicographic `a < b` by character: JavaScript's string `<` on Basic Multilingual Plane text. */
  predicate Below(a: string, b: string)
  {
    if |a| == 0 then |b| > 0
    else if |b| == 0 then false
    else if a[0] != b[0] then a[0] < b[0]
    else Below(a[1..], b[1..])
  }

  /** No string is below itself. */
  lemma {:induction false} BelowIrreflexive(a: string)
    ensures !Below(a, a)
  {
    if |a| > 0 {
      BelowIrreflexive(a[1..]);
    }
  }

  /** The order is transitive. */
  lemma {:induction false} BelowTransitive(a: string, b: string, c: string)
    requires Below(a, b) && Below(b, c)
    ensures Below(a, c)
  {
    if |a| > 0 && a[0] == b[0] && b[0] == c[0] {
      BelowTransitive(a[1..], b[1..], c[1..]);
    }
  }

  /** Any two different strings are ordered one way or the other. */
  lemma {:induction false} BelowTotal(a: string, b: string)
    requires a != b
    ensures Below(a, b) || Below(b, a)
  {
    if |a| > 0 && |b| > 0 && a[0] == b[0] {
      assert a == [a[0]] + a[1..] && b == [b[0]] + b[1..];
      BelowTotal(a[1..], b[1..]);
    }
  }

  /** Every element is below every later one. */
  predicate StrictlyAscending(s: seq<string>)
  {
    forall i, j :: 0 <= i < j < |s| ==> Below(s[i], s[j])
  }

  /** A strictly ascending sequence holds no string twice. */
  lemma AscendingHasNoDuplicates(s: seq<string>)
    requires StrictlyAscending(s)
    ensures forall i, j :: 0 <= i < j < |s| ==> s[i] != s[j]
  {
    forall i, j | 0 <= i < j < |s|
      ensures s[i] != s[j]
    {
      BelowIrreflexive(s[i]);
    }
  }

  /** `collections/sorted-set`, for strings: the elements are kept in ascending order. */
  class SortedSet {
    var items: seq<string>

    ghost predicate Valid()
      reads this
    {
      StrictlyAscending(items)
    }

    constructor ()
      ensures Valid() && items == []
    {
      items := [];
    }

    /**
     * `add`: inserts `x` at its place in the order unless it is already present;
     * says whether it was new.
     */
    method Add(x: string) returns (added: bool)
      requires Valid()
      modifies this
      ensures Valid()
      ensures added <==> x !in old(items)
      ensures !added ==> items == old(items)
      ensures forall y :: y in items <==> y in old(items) || y == x
    {
      var i := 0;
      while i < |items| && Below(items[i], x)
        invariant 0 <= i <= |items|
        invariant forall t :: 0 <= t < i ==> Below(items[t], x)
      {
        i := i + 1;
      }
      if i < |items| && items[i] == x {
        return false;
      }
      forall t | i <= t < |items|
        ensures Below(x, items[t])
      {
        BelowTotal(x, items[i]);
        if t > i {
          BelowTransitive(x, items[i], items[t]);
        }
      }
      forall t | 0 <= t < i
        ensures items[t] != x
      {
        BelowIrreflexive(x);
      }
      items := items[..i] + [x] + items[i..];
      added := true;
    }

    /** `sorted()`: the elements in ascending order. */
    method Sorted() returns (s: seq<string>)
      requires Valid()
      ensures StrictlyAscending(s)
      ensures forall y :: y in s <==> y in items
    {
      s := items;
    }
  }
}

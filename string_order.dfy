/**
 * The natural order of Java strings (String.compareTo), the sortedness it
 * induces on key lists, and a reference sort: the unique sorted permutation
 * of a list, which is what Stream.sorted() produces for the store's listing.
 */
module StringOrder {

  /** String.compareTo: the difference of the first differing characters,
      or of the lengths when one string is a prefix of the other. */
  function CompareTo(a: string, b: string): int
  {
    if |a| == 0 || |b| == 0 then |a| - |b|
    else if a[0] != b[0] then a[0] as int - b[0] as int
    else CompareTo(a[1..], b[1..])
  }

  predicate LessEq(a: string, b: string)
  {
    CompareTo(a, b) <= 0
  }

  lemma {:induction false} CompareToAntisymmetric(a: string, b: string)
    ensures CompareTo(a, b) == -CompareTo(b, a)
  {
    if |a| > 0 && |b| > 0 && a[0] == b[0] {
      CompareToAntisymmetric(a[1..], b[1..]);
    }
  }

  /** compareTo reports 0 exactly on equal strings. */
  lemma {:induction false} CompareToZero(a: string, b: string)
    ensures CompareTo(a, b) == 0 <==> a == b
  {
    if |a| > 0 && |b| > 0 && a[0] == b[0] {
      CompareToZero(a[1..], b[1..]);
      assert a == [a[0]] + a[1..] && b == [b[0]] + b[1..];
    }
  }

  lemma LessEqReflexive(a: string)
    ensures LessEq(a, a)
  {
    CompareToZero(a, a);
  }

  lemma LessEqTotal(a: string, b: string)
    ensures LessEq(a, b) || LessEq(b, a)
  {
    CompareToAntisymmetric(a, b);
  }

  lemma LessEqAntisymmetric(a: string, b: string)
    requires LessEq(a, b) && LessEq(b, a)
    ensures a == b
  {
    CompareToAntisymmetric(a, b);
    CompareToZero(a, b);
  }

  lemma {:induction false} LessEqTransitive(a: string, b: string, c: string)
    requires LessEq(a, b) && LessEq(b, c)
    ensures LessEq(a, c)
  {
    if |a| > 0 && |b| > 0 && |c| > 0 && a[0] == b[0] && b[0] == c[0] {
      LessEqTransitive(a[1..], b[1..], c[1..]);
    }
  }

  /** Every element is at most every later one. */
  predicate IsSorted(s: seq<string>)
  {
    forall i, j :: 0 <= i < j < |s| ==> LessEq(s[i], s[j])
  }

  /** A lower bound of a list bounds every permutation of it. */
  lemma LowerBoundOfPermutation(x: string, s: seq<string>, t: seq<string>)
    requires forall i :: 0 <= i < |s| ==> LessEq(x, s[i])
    requires multiset(s) == multiset(t)
    ensures forall j :: 0 <= j < |t| ==> LessEq(x, t[j])
  {
    forall j | 0 <= j < |t|
      ensures LessEq(x, t[j])
    {
      assert t[j] in multiset(s);
    }
  }

  /** Inserts x into a sorted list before the first element that is not below it. */
  function Insert(x: string, s: seq<string>): (r: seq<string>)
    requires IsSorted(s)
    ensures IsSorted(r)
    ensures multiset(r) == multiset(s) + multiset{x}
  {
    if s == [] then [x]
    else if LessEq(x, s[0]) then
      assert forall j :: 0 <= j < |s| ==> LessEq(x, s[j]) by {
        forall j | 0 <= j < |s| ensures LessEq(x, s[j]) {
          if j > 0 { LessEqTransitive(x, s[0], s[j]); }
        }
      }
      [x] + s
    else
      var rest := Insert(x, s[1..]);
      LessEqTotal(x, s[0]);
      LowerBoundOfPermutation(s[0], s[1..] + [x], rest);
      assert s == [s[0]] + s[1..];
      [s[0]] + rest
  }

  /** Reference sort (insertion sort) of a key list. */
  function Sort(s: seq<string>): (r: seq<string>)
    ensures IsSorted(r)
    ensures multiset(r) == multiset(s)
  {
    if s == [] then []
    else
      assert s == [s[0]] + s[1..];
      Insert(s[0], Sort(s[1..]))
  }

  /** The first element of a sorted list is below every element of it. */
  lemma HeadIsLeast(s: seq<string>, x: string)
    requires IsSorted(s) && x in multiset(s)
    ensures |s| > 0 && LessEq(s[0], x)
  {
    var j :| 0 <= j < |s| && s[j] == x;
    if j == 0 { LessEqReflexive(x); }
  }

  /** Sorted permutations of one list start with the same element. */
  lemma SortedHeadsEqual(a: seq<string>, b: seq<string>)
    requires IsSorted(a) && IsSorted(b)
    requires multiset(a) == multiset(b) && |a| > 0
    ensures |b| > 0 && a[0] == b[0]
  {
    assert a[0] in multiset(a);
    HeadIsLeast(b, a[0]);
    assert b[0] in multiset(b);
    HeadIsLeast(a, b[0]);
    LessEqAntisymmetric(a[0], b[0]);
  }

  /** Dropping the head of a list drops one occurrence of it from its multiset. */
  lemma MultisetOfTail(s: seq<string>)
    requires |s| > 0
    ensures multiset(s[1..]) == multiset(s) - multiset{s[0]}
  {
    assert s == [s[0]] + s[1..];
  }

  /** Two sorted permutations of the same list are equal: the sorted view of
      a list does not depend on how it was sorted. */
  lemma {:induction false} SortedPermutationUnique(a: seq<string>, b: seq<string>)
    requires IsSorted(a) && IsSorted(b)
    requires multiset(a) == multiset(b)
    ensures a == b
    decreases |a|
  {
    if |a| == 0 {
      assert |b| == |multiset(b)| == 0;
    } else {
      SortedHeadsEqual(a, b);
      MultisetOfTail(a);
      MultisetOfTail(b);
      SortedPermutationUnique(a[1..], b[1..]);
      assert a == [a[0]] + a[1..] && b == [b[0]] + b[1..];
    }
  }

  /** Sort(s) is exactly the sorted permutation of s. */
  lemma SortCharacterized(s: seq<string>, t: seq<string>)
    ensures t == Sort(s) <==> IsSorted(t) && multiset(t) == multiset(s)
  {
    if IsSorted(t) && multiset(t) == multiset(s) {
      SortedPermutationUnique(t, Sort(s));
    }
  }
}

/**
 * sorted(cc_list): Python orders strings by comparing code points from the
 * left, a proper prefix coming first.
 */
module Sorting {

  /** a <= b on Python strings. */
  predicate LexLe(a: string, b: string)
    decreases |a|
  {
    |a| == 0 || (|b| > 0 && (a[0] < b[0] || (a[0] == b[0] && LexLe(a[1..], b[1..]))))
  }

  lemma {:induction false} LexLeReflexive(a: string)
    ensures LexLe(a, a)
    decreases |a|
  {
    if |a| > 0 {
      LexLeReflexive(a[1..]);
    }
  }

  lemma {:induction false} LexLeTotal(a: string, b: string)
    ensures LexLe(a, b) || LexLe(b, a)
    decreases |a|
  {
    if |a| > 0 && |b| > 0 && a[0] == b[0] {
      LexLeTotal(a[1..], b[1..]);
    }
  }

  lemma {:induction false} LexLeTransitive(a: string, b: string, c: string)
    requires LexLe(a, b) && LexLe(b, c)
    ensures LexLe(a, c)
    decreases |a|
  {
    if |a| > 0 && a[0] == b[0] && b[0] == c[0] {
      LexLeTransitive(a[1..], b[1..], c[1..]);
    }
  }

  lemma {:induction false} LexLeAntisymmetric(a: string, b: string)
    requires LexLe(a, b) && LexLe(b, a)
    ensures a == b
    decreases |a|
  {
    if |a| > 0 {
      LexLeAntisymmetric(a[1..], b[1..]);
      assert a == [a[0]] + a[1..] && b == [b[0]] + b[1..];
    }
  }

  predicate Sorted(s: seq<string>) {
    forall i, j :: 0 <= i < j < |s| ==> LexLe(s[i], s[j])
  }

  /** A head no greater than any element of an ascending tail keeps the list ascending. */
  lemma ConsSorted(h: string, t: seq<string>)
    requires Sorted(t)
    requires forall k :: 0 <= k < |t| ==> LexLe(h, t[k])
    ensures Sorted([h] + t)
  {
    forall i, j | 0 <= i < j < |[h] + t| ensures LexLe(([h] + t)[i], ([h] + t)[j]) {
      if i == 0 {
        assert ([h] + t)[j] == t[j - 1];
      } else {
        assert ([h] + t)[i] == t[i - 1] && ([h] + t)[j] == t[j - 1];
      }
    }
  }

  /** A bound on the head of an ascending list bounds all of it. */
  lemma BelowHead(x: string, s: seq<string>)
    requires Sorted(s) && s != [] && LexLe(x, s[0])
    ensures forall j :: 0 <= j < |s| ==> LexLe(x, s[j])
  {
    forall j | 0 <= j < |s| ensures LexLe(x, s[j]) {
      if j > 0 { LexLeTransitive(x, s[0], s[j]); }
    }
  }

  /** Every element of rest is an element of s or x itself, so a bound on
      both bounds rest. */
  lemma BoundsPermutation(y: string, x: string, s: seq<string>, rest: seq<string>)
    requires multiset(rest) == multiset(s) + multiset{x}
    requires LexLe(y, x) && forall j :: 0 <= j < |s| ==> LexLe(y, s[j])
    ensures forall k :: 0 <= k < |rest| ==> LexLe(y, rest[k])
  {
    forall k | 0 <= k < |rest| ensures LexLe(y, rest[k]) {
      assert rest[k] in multiset(rest);
      if rest[k] != x {
        assert rest[k] in multiset(s);
        var j :| 0 <= j < |s| && s[j] == rest[k];
      }
    }
  }

  /** Places x in front of the first element it does not exceed. */
  function Insert(x: string, s: seq<string>): (r: seq<string>)
    requires Sorted(s)
    ensures |r| == |s| + 1
    ensures Sorted(r)
    ensures multiset(r) == multiset(s) + multiset{x}
  {
    if s == [] then [x]
    else if LexLe(x, s[0]) then
      BelowHead(x, s);
      ConsSorted(x, s);
      [x] + s
    else
      var rest := Insert(x, s[1..]);
      assert s == [s[0]] + s[1..];
      LexLeTotal(x, s[0]);
      LexLeReflexive(s[0]);
      BelowHead(s[0], s);
      BoundsPermutation(s[0], x, s[1..], rest);
      ConsSorted(s[0], rest);
      [s[0]] + rest
  }

  /** sorted(ccs): an ascending permutation of the codes. */
  function SortedCodes(ccs: seq<string>): (r: seq<string>)
    ensures |r| == |ccs|
    ensures Sorted(r)
    ensures multiset(r) == multiset(ccs)
  {
    if ccs == [] then []
    else
      assert ccs == [ccs[0]] + ccs[1..];
      Insert(ccs[0], SortedCodes(ccs[1..]))
  }

  /** The head of an ascending list is at most any of its elements. */
  lemma HeadIsLeast(s: seq<string>, x: string)
    requires Sorted(s) && x in s
    ensures LexLe(s[0], x)
  {
    var i :| 0 <= i < |s| && s[i] == x;
    if i == 0 { LexLeReflexive(x); }
  }

  lemma TailMultiset(a: seq<string>)
    requires a != []
    ensures multiset(a[1..]) == multiset(a) - multiset{a[0]}
  {
    assert a == [a[0]] + a[1..];
  }

  /** Two ascending arrangements of the same codes are the same list, so the
      task list does not depend on the order of the input. */
  lemma {:induction false} SortedUnique(a: seq<string>, b: seq<string>)
    requires Sorted(a) && Sorted(b) && multiset(a) == multiset(b)
    ensures a == b
    decreases |a|
  {
    if a != [] {
      assert a[0] in multiset(b);
      HeadIsLeast(b, a[0]);
      assert b[0] in multiset(a);
      HeadIsLeast(a, b[0]);
      LexLeAntisymmetric(a[0], b[0]);
      TailMultiset(a);
      TailMultiset(b);
      SortedUnique(a[1..], b[1..]);
    }
  }
}

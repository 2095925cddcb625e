/** Order-preserving filtering of sequences, the model of `Array.filter`. */
module Seqs {

  /** The elements of `s` that satisfy `p`, in their original order. */
  function Filter<T(!new)>(p: T -> bool, s: seq<T>): (r: seq<T>)
    ensures |r| <= |s|
    ensures forall x :: x in r <==> x in s && p(x)
    ensures forall i :: 0 <= i < |r| ==> p(r[i])
    ensures Subsequence(r, s)
  {
    if |s| == 0 then []
    else if p(s[0]) then [s[0]] + Filter(p, s[1..])
    else Filter(p, s[1..])
  }

  /** Filtering keeps every copy of a kept element and drops every copy
      of the others. */
  lemma {:induction false} FilterCount<T(!new)>(p: T -> bool, s: seq<T>)
    ensures forall x :: multiset(Filter(p, s))[x] == if p(x) then multiset(s)[x] else 0
    decreases |s|
  {
    if |s| > 0 {
      FilterCount(p, s[1..]);
      assert s == [s[0]] + s[1..];
    }
  }

  /** `a` is obtained from `b` by deleting elements, keeping the order. */
  predicate Subsequence<T(==)>(a: seq<T>, b: seq<T>)
    decreases |b|
  {
    if |a| == 0 then true
    else if |b| == 0 then false
    else if a[0] == b[0] then Subsequence(a[1..], b[1..])
    else Subsequence(a, b[1..])
  }

  lemma {:induction false} SubsequenceRefl<T>(s: seq<T>)
    ensures Subsequence(s, s)
    decreases |s|
  {
    if |s| > 0 {
      SubsequenceRefl(s[1..]);
    }
  }

  lemma {:induction false} FilterAppend<T(!new)>(p: T -> bool, a: seq<T>, b: seq<T>)
    ensures Filter(p, a + b) == Filter(p, a) + Filter(p, b)
    decreases |a|
  {
    if |a| == 0 {
      assert a + b == b;
    } else {
      assert (a + b)[1..] == a[1..] + b;
      FilterAppend(p, a[1..], b);
    }
  }

  /** Filtering twice is filtering once by the conjunction. */
  lemma {:induction false} FilterFilter<T(!new)>(p: T -> bool, q: T -> bool, s: seq<T>)
    ensures Filter(q, Filter(p, s)) == Filter(x => p(x) && q(x), s)
    decreases |s|
  {
    if |s| > 0 {
      FilterFilter(p, q, s[1..]);
    }
  }

  /** Filters with predicates that agree on the elements give the same result. */
  lemma {:induction false} FilterCongruent<T(!new)>(p: T -> bool, q: T -> bool, s: seq<T>)
    requires forall i :: 0 <= i < |s| ==> p(s[i]) == q(s[i])
    ensures Filter(p, s) == Filter(q, s)
    decreases |s|
  {
    if |s| > 0 {
      FilterCongruent(p, q, s[1..]);
    }
  }

  /** A filter that keeps every element is the identity. */
  lemma {:induction false} FilterAll<T(!new)>(p: T -> bool, s: seq<T>)
    requires forall i :: 0 <= i < |s| ==> p(s[i])
    ensures Filter(p, s) == s
    decreases |s|
  {
    if |s| > 0 {
      FilterAll(p, s[1..]);
    }
  }

  /** The sequence without repeated elements. */
  predicate NoDup<T(==)>(s: seq<T>) {
    forall i, j :: 0 <= i < j < |s| ==> s[i] != s[j]
  }

  /** The tail of a duplicate-free sequence is duplicate free and lacks the head. */
  lemma NoDupTail<T>(s: seq<T>)
    requires |s| > 0 && NoDup(s)
    ensures NoDup(s[1..]) && s[0] !in s[1..]
  {
  }

  lemma {:induction false} FilterNoDup<T(!new)>(p: T -> bool, s: seq<T>)
    requires NoDup(s)
    ensures NoDup(Filter(p, s))
    decreases |s|
  {
    if |s| > 0 {
      assert NoDup(s[1..]);
      FilterNoDup(p, s[1..]);
      assert s[0] !in s[1..];
    }
  }

  function Last<T>(s: seq<T>): T
    requires |s| > 0
  {
    s[|s| - 1]
  }

  /** `a` is a trailing part of `b`. */
  predicate Suffix<T(==)>(a: seq<T>, b: seq<T>) {
    |a| <= |b| && b[|b| - |a|..] == a
  }

  lemma SuffixAppend<T>(a: seq<T>, b: seq<T>, c: seq<T>)
    requires Suffix(a, b)
    ensures Suffix(a + c, b + c)
  {
    assert (b + c)[|b + c| - |a + c|..] == b[|b| - |a|..] + c;
  }

  lemma SuffixTrans<T>(a: seq<T>, b: seq<T>, c: seq<T>)
    requires Suffix(a, b) && Suffix(b, c)
    ensures Suffix(a, c)
  {
    assert c[|c| - |a|..] == c[|c| - |b|..][|b| - |a|..];
  }

  lemma SuffixOfAppend<T>(a: seq<T>, b: seq<T>)
    ensures Suffix(b, a + b)
  {
    assert (a + b)[|a|..] == b;
  }

  /** One step of a history that keeps a suffix of what it has seen. */
  lemma SuffixStep<T>(r: seq<T>, h1: seq<T>, history: seq<T>, items: seq<T>)
    requires |items| > 0 && Suffix(h1, history + [items[0]]) && Suffix(r, h1 + items[1..])
    ensures Suffix(r, history + items)
  {
    SuffixAppend(h1, history + [items[0]], items[1..]);
    assert history + [items[0]] + items[1..] == history + items;
    assert Suffix(h1 + items[1..], history + items);
    SuffixTrans(r, h1 + items[1..], history + items);
  }

  lemma AppendAssoc<T>(a: seq<T>, b: seq<T>, c: seq<T>)
    ensures (a + b) + c == a + (b + c)
  {
  }

  /** The first two parts of a three-part concatenation, recovered by slicing. */
  lemma SlicesOfConcat<T>(a: seq<T>, b: seq<T>, c: seq<T>)
    ensures var r := a + b + c; |r| >= |a| + |b| && r[..|a|] == a && r[|a|..|a| + |b|] == b
  {
  }
}

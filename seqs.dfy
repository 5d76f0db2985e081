/**
 * Django's `QuerySet.filter` seen on a sequence of rows: the rows that satisfy
 * a condition, in their original order.
 */
module Seqs {

  /** The elements of `s` that satisfy `p`, in order. */
  function Filter<T(!new)>(p: T -> bool, s: seq<T>): (r: seq<T>)
    ensures |r| <= |s|
    ensures forall x :: x in r <==> x in s && p(x)
  {
    if s == [] then []
    else if p(s[0]) then [s[0]] + Filter(p, s[1..])
    else Filter(p, s[1..])
  }

  /** A filter keeps every copy of a row it accepts and no copy of one it rejects. */
  lemma {:induction false} FilterMultiset<T(!new)>(p: T -> bool, s: seq<T>, x: T)
    ensures multiset(Filter(p, s))[x] == if p(x) then multiset(s)[x] else 0
  {
    if s != [] {
      FilterMultiset(p, s[1..], x);
      assert s == [s[0]] + s[1..];
    }
  }

  /** Filtering twice is filtering once by the conjunction. */
  lemma {:induction false} FilterFilter<T(!new)>(p: T -> bool, q: T -> bool, s: seq<T>)
    ensures Filter(q, Filter(p, s)) == Filter(x => p(x) && q(x), s)
  {
    if s != [] {
      FilterFilter(p, q, s[1..]);
    }
  }

  /** Two filters give the same rows in the same order whichever is applied first. */
  lemma {:induction false} FilterCommutes<T(!new)>(p: T -> bool, q: T -> bool, s: seq<T>)
    ensures Filter(q, Filter(p, s)) == Filter(p, Filter(q, s))
  {
    FilterFilter(p, q, s);
    FilterFilter(q, p, s);
    FilterCongruent(x => p(x) && q(x), x => q(x) && p(x), s);
  }

  /** Filters by conditions that agree on every element of `s` give the same result. */
  lemma {:induction false} FilterCongruent<T(!new)>(p: T -> bool, q: T -> bool, s: seq<T>)
    requires forall x :: x in s ==> (p(x) <==> q(x))
    ensures Filter(p, s) == Filter(q, s)
  {
    if s != [] {
      FilterCongruent(p, q, s[1..]);
    }
  }

  /** A condition that every element meets keeps the whole sequence. */
  lemma {:induction false} FilterAll<T(!new)>(p: T -> bool, s: seq<T>)
    requires forall x :: x in s ==> p(x)
    ensures Filter(p, s) == s
  {
    if s != [] {
      FilterAll(p, s[1..]);
    }
  }
}

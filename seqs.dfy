/** `Array.prototype.filter` and the facts about it that every derived view
    of the dashboard uses: the result keeps exactly the entries that pass, as
    many times as they occur, and in their original order. */
module Seqs {

  /** `a` can be obtained from `b` by deleting entries: the order of what is
      kept is the order in `b`. */
  ghost predicate Subsequence<T>(a: seq<T>, b: seq<T>)
    decreases |b|
  {
    if a == [] then true
    else if b == [] then false
    else (a[0] == b[0] && Subsequence(a[1..], b[1..])) || Subsequence(a, b[1..])
  }

  lemma {:induction false} SubsequenceRefl<T>(s: seq<T>)
    ensures Subsequence(s, s)
    decreases |s|
  {
    if s != [] {
      SubsequenceRefl(s[1..]);
    }
  }

  function Filter<T>(s: seq<T>, p: T -> bool): (r: seq<T>)
    ensures |r| <= |s|
    ensures forall i :: 0 <= i < |r| ==> p(r[i])
    decreases |s|
  {
    if s == [] then []
    else if p(s[0]) then [s[0]] + Filter(s[1..], p)
    else Filter(s[1..], p)
  }

  /** The filter keeps each passing value as often as it occurs, and drops
      every other value. */
  lemma {:induction false} FilterMultiset<T(!new)>(s: seq<T>, p: T -> bool)
    ensures forall x :: multiset(Filter(s, p))[x] == if p(x) then multiset(s)[x] else 0
    decreases |s|
  {
    if s != [] {
      assert s == [s[0]] + s[1..];
      FilterMultiset(s[1..], p);
    }
  }

  /** The filter keeps the original order. */
  lemma {:induction false} FilterSubsequence<T>(s: seq<T>, p: T -> bool)
    ensures Subsequence(Filter(s, p), s)
    decreases |s|
  {
    if s != [] {
      FilterSubsequence(s[1..], p);
      if p(s[0]) {
        assert ([s[0]] + Filter(s[1..], p))[1..] == Filter(s[1..], p);
      }
    }
  }

  /** Membership in a filter result, stated with `in`. */
  lemma FilterMember<T(!new)>(s: seq<T>, p: T -> bool, x: T)
    ensures x in Filter(s, p) <==> x in s && p(x)
  {
    FilterMultiset(s, p);
    assert x in Filter(s, p) <==> multiset(Filter(s, p))[x] > 0;
    assert x in s <==> multiset(s)[x] > 0;
  }

  lemma FilterMembers<T(!new)>(s: seq<T>, p: T -> bool)
    ensures forall x :: x in Filter(s, p) <==> x in s && p(x)
  {
    forall x ensures x in Filter(s, p) <==> x in s && p(x) {
      FilterMember(s, p, x);
    }
  }

  /** A filter that rejects exactly the entry at `k` removes just that entry. */
  lemma {:induction false} FilterRemovesOne<T>(s: seq<T>, p: T -> bool, k: nat)
    requires k < |s|
    requires forall i :: 0 <= i < |s| ==> (p(s[i]) <==> i != k)
    ensures Filter(s, p) == s[..k] + s[k + 1..]
    decreases |s|
  {
    if k == 0 {
      FilterAll(s[1..], p);
    } else {
      FilterRemovesOne(s[1..], p, k - 1);
      assert s[1..][..k - 1] + s[1..][k..] == s[1..k] + s[k + 1..];
      assert s[..k] == [s[0]] + s[1..k];
    }
  }

  /** A filter that every entry passes returns its input unchanged. */
  lemma {:induction false} FilterAll<T>(s: seq<T>, p: T -> bool)
    requires forall i :: 0 <= i < |s| ==> p(s[i])
    ensures Filter(s, p) == s
    decreases |s|
  {
    if s != [] {
      FilterAll(s[1..], p);
    }
  }

  /** Filters whose tests agree on every entry of `s` give the same result. */
  lemma {:induction false} FilterCongruent<T>(s: seq<T>, p: T -> bool, q: T -> bool)
    requires forall i :: 0 <= i < |s| ==> p(s[i]) == q(s[i])
    ensures Filter(s, p) == Filter(s, q)
    decreases |s|
  {
    if s != [] {
      FilterCongruent(s[1..], p, q);
    }
  }

  /** Number of entries satisfying `p`: the `.filter(p).length` idiom. */
  function Count<T>(s: seq<T>, p: T -> bool): (n: nat)
    ensures n <= |s|
  {
    |Filter(s, p)|
  }

  /** An entry that fails `p` keeps the count strictly below the length. */
  lemma {:induction false} CountBelowLength<T>(s: seq<T>, p: T -> bool, k: nat)
    requires k < |s| && !p(s[k])
    ensures Count(s, p) < |s|
    decreases |s|
  {
    if k > 0 {
      CountBelowLength(s[1..], p, k - 1);
    }
  }

  /** Every entry passes `p` exactly when the count is the length. */
  lemma CountFullIff<T>(s: seq<T>, p: T -> bool)
    ensures Count(s, p) == |s| <==> forall i :: 0 <= i < |s| ==> p(s[i])
  {
    if forall i :: 0 <= i < |s| ==> p(s[i]) {
      FilterAll(s, p);
    } else {
      var k :| 0 <= k < |s| && !p(s[k]);
      CountBelowLength(s, p, k);
    }
  }

  /** No entry passes `p` exactly when the count is zero. */
  lemma CountZeroIff<T(!new)>(s: seq<T>, p: T -> bool)
    ensures Count(s, p) == 0 <==> forall i :: 0 <= i < |s| ==> !p(s[i])
  {
    FilterMembers(s, p);
    var r := Filter(s, p);
    if Count(s, p) == 0 {
      forall i | 0 <= i < |s| ensures !p(s[i]) {
        assert s[i] in s;
      }
    } else {
      assert r[0] in r;
    }
  }

  /** Filtering distributes over concatenation. */
  lemma {:induction false} FilterAppend<T>(a: seq<T>, b: seq<T>, p: T -> bool)
    ensures Filter(a + b, p) == Filter(a, p) + Filter(b, p)
    decreases |a|
  {
    if a != [] {
      assert (a + b)[0] == a[0];
      assert (a + b)[1..] == a[1..] + b;
      FilterAppend(a[1..], b, p);
    } else {
      assert a + b == b;
    }
  }
}

/**
 * The database queries `orderBy: { createdAt: 'desc' }, take: n`: a stable sort on a
 * timestamp key, newest first, followed by taking a prefix.
 */
module Ordering {

  /** Every element is at least as new as every later one. */
  ghost predicate SortedDesc<T>(s: seq<T>, key: T -> int) {
    forall i, j :: 0 <= i < j < |s| ==> key(s[i]) >= key(s[j])
  }

  /** Put `x` in front of the first element that is not newer than it. */
  function InsertDesc<T>(x: T, s: seq<T>, key: T -> int): (r: seq<T>)
    ensures multiset(r) == multiset(s) + multiset{x}
  {
    if s == [] then [x]
    else if key(x) >= key(s[0]) then [x] + s
    else
      assert s == [s[0]] + s[1..];
      [s[0]] + InsertDesc(x, s[1..], key)
  }

  /** Inserting an element no newer than `b` into elements no newer than `b`. */
  lemma {:induction false} InsertDescBound<T>(x: T, s: seq<T>, key: T -> int, b: int)
    requires key(x) <= b
    requires forall y :: y in s ==> key(y) <= b
    ensures forall y :: y in InsertDesc(x, s, key) ==> key(y) <= b
  {
    if s != [] && key(x) < key(s[0]) {
      var t := InsertDesc(x, s[1..], key);
      InsertDescBound(x, s[1..], key, b);
      assert InsertDesc(x, s, key) == [s[0]] + t;
    }
  }

  /** An element at least as new as all of a newest-first sequence may lead it. */
  lemma ConsSorted<T>(a: T, t: seq<T>, key: T -> int)
    requires SortedDesc(t, key)
    requires forall y :: y in t ==> key(y) <= key(a)
    ensures SortedDesc([a] + t, key)
  {
    var r := [a] + t;
    forall i, j | 0 <= i < j < |r| ensures key(r[i]) >= key(r[j]) {
      assert r[j] == t[j - 1] && r[j] in t;
      if i > 0 {
        assert r[i] == t[i - 1];
      }
    }
  }

  /** Inserting into a newest-first sequence keeps it newest first. */
  lemma {:induction false} InsertDescSorted<T>(x: T, s: seq<T>, key: T -> int)
    requires SortedDesc(s, key)
    ensures SortedDesc(InsertDesc(x, s, key), key)
  {
    if s != [] && key(x) < key(s[0]) {
      var t := InsertDesc(x, s[1..], key);
      InsertDescSorted(x, s[1..], key);
      InsertDescBound(x, s[1..], key, key(s[0]));
      ConsSorted(s[0], t, key);
      assert InsertDesc(x, s, key) == [s[0]] + t;
    }
  }

  /** Newest first; records with equal timestamps keep their original order. */
  function SortDesc<T>(s: seq<T>, key: T -> int): (r: seq<T>)
    ensures multiset(r) == multiset(s)
  {
    if s == [] then []
    else
      assert s == [s[0]] + s[1..];
      InsertDesc(s[0], SortDesc(s[1..], key), key)
  }

  lemma {:induction false} SortDescSorted<T>(s: seq<T>, key: T -> int)
    ensures SortedDesc(SortDesc(s, key), key)
  {
    if s != [] {
      SortDescSorted(s[1..], key);
      InsertDescSorted(s[0], SortDesc(s[1..], key), key);
    }
  }

  /** The `n` newest elements of `s`, newest first. */
  function Newest<T>(s: seq<T>, key: T -> int, n: nat): seq<T>
  {
    var sorted := SortDesc(s, key);
    if |sorted| <= n then sorted else sorted[..n]
  }

  /**
   * What `orderBy desc, take n` promises: at most `n` elements (exactly `n` when there
   * are that many), drawn from `s`, newest first, and no element left out is newer than
   * any element returned.
   */
  lemma NewestSpec<T>(s: seq<T>, key: T -> int, n: nat)
    ensures var r := Newest(s, key, n);
      && |r| == (if |s| < n then |s| else n)
      && multiset(r) <= multiset(s)
      && SortedDesc(r, key)
      && forall y :: y in s ==> y in r || forall z :: z in r ==> key(z) >= key(y)
  {
    var sorted := SortDesc(s, key);
    var r := Newest(s, key, n);
    SortDescSorted(s, key);
    assert |sorted| == |multiset(sorted)| == |multiset(s)| == |s|;
    if |sorted| > n {
      assert sorted == r + sorted[n..];
      assert multiset(sorted) == multiset(r) + multiset(sorted[n..]);
    }
    forall y | y in s
      ensures y in r || forall z :: z in r ==> key(z) >= key(y)
    {
      assert y in multiset(sorted);
      var j :| 0 <= j < |sorted| && sorted[j] == y;
      if j >= n {
        forall z | z in r ensures key(z) >= key(y) {
          var i :| 0 <= i < |r| && r[i] == z;
          assert sorted[i] == z;
        }
      }
    }
  }

  /** `s` with `f` applied to each element, as a `select` projects each row of a result. */
  function Image<A, B>(s: seq<A>, f: A -> B): (r: seq<B>)
    ensures |r| == |s| && forall i :: 0 <= i < |s| ==> r[i] == f(s[i])
  {
    seq(|s|, i requires 0 <= i < |s| => f(s[i]))
  }

  lemma ImageConcat<A, B>(a: seq<A>, b: seq<A>, f: A -> B)
    ensures Image(a + b, f) == Image(a, f) + Image(b, f)
  {
    assert forall i :: 0 <= i < |a| + |b| ==> Image(a + b, f)[i] == (Image(a, f) + Image(b, f))[i];
  }

  /** Taking out the element at `k`, before and after projecting. */
  lemma RemoveAt<A, B>(t: seq<A>, k: nat, f: A -> B)
    requires k < |t|
    ensures multiset(t) == multiset(t[..k] + t[k + 1..]) + multiset{t[k]}
    ensures multiset(Image(t, f)) == multiset(Image(t[..k] + t[k + 1..], f)) + multiset{f(t[k])}
  {
    assert t == t[..k] + ([t[k]] + t[k + 1..]);
    ImageConcat(t[..k], [t[k]] + t[k + 1..], f);
    ImageConcat([t[k]], t[k + 1..], f);
    ImageConcat(t[..k], t[k + 1..], f);
    assert Image([t[k]], f) == [f(t[k])];
  }

  lemma CancelOne<T>(a: multiset<T>, b: multiset<T>, x: T)
    requires a + multiset{x} <= b + multiset{x}
    ensures a <= b
  {
    forall y ensures a[y] <= b[y] {
      assert (a + multiset{x})[y] <= (b + multiset{x})[y];
    }
  }

  /** Projecting a sub-multiset gives a sub-multiset of the projection: no entry is repeated. */
  lemma {:induction false} ImageSubMultiset<A, B>(s: seq<A>, t: seq<A>, f: A -> B)
    requires multiset(s) <= multiset(t)
    ensures multiset(Image(s, f)) <= multiset(Image(t, f))
  {
    if s != [] {
      var x := s[0];
      assert s == [x] + s[1..];
      assert x in multiset(t);
      var k :| 0 <= k < |t| && t[k] == x;
      var rest := t[..k] + t[k + 1..];
      RemoveAt(t, k, f);
      assert multiset(s) == multiset(s[1..]) + multiset{x};
      CancelOne(multiset(s[1..]), multiset(rest), x);
      ImageSubMultiset(s[1..], rest, f);
      ImageConcat([x], s[1..], f);
      assert Image([x], f) == [f(x)];
    }
  }
}

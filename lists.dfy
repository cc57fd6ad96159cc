/** Order-preserving list operations shared by the client and the server:
    JavaScript's `Array.prototype.filter` and the `[...new Set(xs)]` idiom. */
module Lists {

  /** `s.filter(p)`: the elements of `s` that satisfy `p`, in their original order. */
  function Filter<T>(s: seq<T>, p: T -> bool): (r: seq<T>)
    ensures |r| <= |s|
    ensures forall i :: 0 <= i < |r| ==> p(r[i])
    ensures forall i :: 0 <= i < |r| ==> r[i] in s
    ensures forall i :: 0 <= i < |s| && p(s[i]) ==> s[i] in r
  {
    if s == [] then []
    else (if p(s[0]) then [s[0]] else []) + Filter(s[1..], p)
  }

  /** Filtering distributes over concatenation: filter keeps the relative order of what it keeps. */
  lemma {:induction false} FilterAppend<T>(a: seq<T>, b: seq<T>, p: T -> bool)
    ensures Filter(a + b, p) == Filter(a, p) + Filter(b, p)
  {
    if a == [] {
      assert a + b == b;
    } else {
      var head: seq<T> := if p(a[0]) then [a[0]] else [];
      assert (a + b)[0] == a[0];
      assert (a + b)[1..] == a[1..] + b;
      FilterAppend(a[1..], b, p);
      assert Filter(a + b, p) == head + Filter(a[1..] + b, p);
    }
  }

  /** A filter that rejects nothing returns its input unchanged. */
  lemma {:induction false} FilterKeepsAll<T>(s: seq<T>, p: T -> bool)
    requires forall i :: 0 <= i < |s| ==> p(s[i])
    ensures Filter(s, p) == s
  {
    if s != [] {
      FilterKeepsAll(s[1..], p);
      assert [s[0]] + s[1..] == s;
    }
  }

  /** A filter that keeps nothing returns the empty list. */
  lemma {:induction false} FilterDropsAll<T>(s: seq<T>, p: T -> bool)
    requires forall i :: 0 <= i < |s| ==> !p(s[i])
    ensures Filter(s, p) == []
  {
    if s != [] {
      FilterDropsAll(s[1..], p);
    }
  }

  /** A filter that rejects exactly one position removes just that element. */
  lemma {:induction false} FilterRemovesOne<T>(s: seq<T>, k: int, p: T -> bool)
    requires 0 <= k < |s| && !p(s[k])
    requires forall i :: 0 <= i < |s| && i != k ==> p(s[i])
    ensures Filter(s, p) == s[..k] + s[k + 1..]
  {
    if k == 0 {
      assert forall i :: 0 <= i < |s[1..]| ==> s[1..][i] == s[i + 1];
      FilterKeepsAll(s[1..], p);
      assert Filter(s, p) == Filter(s[1..], p);
      assert s[..0] + s[1..] == s[1..];
    } else {
      var tail := s[1..];
      forall i | 0 <= i < |tail| && i != k - 1
        ensures p(tail[i])
      {
        assert tail[i] == s[i + 1];
      }
      assert tail[k - 1] == s[k];
      FilterRemovesOne(tail, k - 1, p);
      assert p(s[0]);
      assert Filter(s, p) == [s[0]] + Filter(tail, p);
      assert [s[0]] + tail[..k - 1] == s[..k];
      assert tail[k..] == s[k + 1..];
      assert [s[0]] + (tail[..k - 1] + tail[k..]) == ([s[0]] + tail[..k - 1]) + tail[k..];
    }
  }

  /** Filtering by a predicate and by its negation splits the list: the two lengths add up. */
  lemma {:induction false} FilterComplement<T>(s: seq<T>, p: T -> bool, q: T -> bool)
    requires forall x :: q(x) == !p(x)
    ensures |Filter(s, p)| + |Filter(s, q)| == |s|
  {
    if s != [] {
      FilterComplement(s[1..], p, q);
    }
  }

  /** `a` is an order-preserving sub-list of `b` (greedy matching decides it). */
  predicate Subseq<T(==)>(a: seq<T>, b: seq<T>)
    decreases |b|
  {
    if a == [] then true
    else if b == [] then false
    else if a[0] == b[0] then Subseq(a[1..], b[1..])
    else Subseq(a, b[1..])
  }

  /** Prepending an element to the longer list keeps the sub-list relation. */
  lemma {:induction false} SubseqPrepend<T>(a: seq<T>, b: seq<T>, x: T)
    requires Subseq(a, b)
    ensures Subseq(a, [x] + b)
    decreases |b|, 1
  {
    assert ([x] + b)[1..] == b;
    if a != [] && a[0] == x {
      SubseqDropHead(a, b);
    }
  }

  /** Dropping the first element of the shorter list keeps the sub-list relation. */
  lemma {:induction false} SubseqDropHead<T>(a: seq<T>, b: seq<T>)
    requires a != [] && Subseq(a, b)
    ensures Subseq(a[1..], b)
    decreases |b|, 0
  {
    assert [b[0]] + b[1..] == b;
    if a[0] == b[0] {
      SubseqPrepend(a[1..], b[1..], b[0]);
    } else {
      SubseqDropHead(a, b[1..]);
      SubseqPrepend(a[1..], b[1..], b[0]);
    }
  }

  /** What a filter returns is an order-preserving sub-list of its input. */
  lemma {:induction false} FilterIsSubseq<T>(s: seq<T>, p: T -> bool)
    ensures Subseq(Filter(s, p), s)
  {
    if s != [] {
      FilterIsSubseq(s[1..], p);
      var r := Filter(s[1..], p);
      if p(s[0]) {
        assert Filter(s, p) == [s[0]] + r;
        assert ([s[0]] + r)[1..] == r;
      } else {
        assert Filter(s, p) == r;
        SubseqPrepend(r, s[1..], s[0]);
        assert [s[0]] + s[1..] == s;
      }
    }
  }

  /** No element occurs twice. */
  predicate NoDuplicates<T(==)>(s: seq<T>) {
    forall i, j :: 0 <= i < j < |s| ==> s[i] != s[j]
  }

  /** The elements of `r` come in the order of their first occurrence in `s`: wherever `s`
      holds a later element of `r`, every earlier element of `r` has already occurred. */
  ghost predicate FirstOccurrenceOrder<T>(r: seq<T>, s: seq<T>) {
    forall i, j, m {:trigger OccursBefore(r[i], s, m), r[j]} ::
      0 <= i < j < |r| && 0 <= m < |s| && s[m] == r[j] ==> OccursBefore(r[i], s, m)
  }

  /** `x` occurs in `s` before index `m`. */
  ghost predicate OccursBefore<T>(x: T, s: seq<T>, m: int)
    requires 0 <= m <= |s|
  {
    x in s[..m]
  }

  /** `[...new Set(s)]`: each distinct element once, in the order of its first occurrence. */
  function Dedup<T(==)>(s: seq<T>): (r: seq<T>)
    ensures forall i :: 0 <= i < |r| ==> r[i] in s
    ensures forall i :: 0 <= i < |s| ==> s[i] in r
    ensures NoDuplicates(r)
    ensures FirstOccurrenceOrder(r, s)
    ensures |r| <= |s|
  {
    if s == [] then []
    else
      var init, x := s[..|s| - 1], s[|s| - 1];
      var rest := Dedup(init);
      assert s == init + [x];
      var r := if x in rest then rest else rest + [x];
      forall i, j, m | 0 <= i < j < |r| && 0 <= m < |s| && s[m] == r[j]
        ensures OccursBefore(r[i], s, m)
      {
        if m < |init| {
          assert s[..m] == init[..m];
          if j == |rest| {
            // `x` occurs in `init`, so it is already in `rest` and was not appended
            assert false;
          } else {
            assert r[i] == rest[i] && r[j] == rest[j];
            assert OccursBefore(rest[i], init, m);
          }
        } else {
          assert s[..m] == init;
        }
      }
      r
  }

  /** Filtering keeps the first-occurrence order of what it keeps. */
  lemma {:induction false} FilterKeepsFirstOccurrenceOrder<T>(u: seq<T>, s: seq<T>, p: T -> bool)
    requires FirstOccurrenceOrder(u, s)
    ensures FirstOccurrenceOrder(Filter(u, p), s)
  {
    if u != [] {
      var tail := Filter(u[1..], p);
      forall i, j, m | 0 <= i < j < |u[1..]| && 0 <= m < |s| && s[m] == u[1..][j]
        ensures OccursBefore(u[1..][i], s, m)
      {
        assert u[1..][i] == u[i + 1] && u[1..][j] == u[j + 1];
      }
      FilterKeepsFirstOccurrenceOrder(u[1..], s, p);
      if p(u[0]) {
        assert Filter(u, p) == [u[0]] + tail;
        HeadKeepsFirstOccurrenceOrder(u, tail, s);
      } else {
        assert Filter(u, p) == tail;
      }
    }
  }

  /** The head of `u` put before a list drawn from the rest of `u` keeps the order. */
  lemma HeadKeepsFirstOccurrenceOrder<T>(u: seq<T>, tail: seq<T>, s: seq<T>)
    requires u != [] && FirstOccurrenceOrder(u, s) && FirstOccurrenceOrder(tail, s)
    requires forall k :: 0 <= k < |tail| ==> tail[k] in u[1..]
    ensures FirstOccurrenceOrder([u[0]] + tail, s)
  {
    var r := [u[0]] + tail;
    forall i, j, m | 0 <= i < j < |r| && 0 <= m < |s| && s[m] == r[j]
      ensures OccursBefore(r[i], s, m)
    {
      assert r[j] == tail[j - 1];
      if i == 0 {
        var k :| 0 <= k < |u[1..]| && u[1..][k] == r[j];
        assert u[k + 1] == r[j];
        assert OccursBefore(u[0], s, m);
      } else {
        assert r[i] == tail[i - 1];
        assert OccursBefore(tail[i - 1], s, m);
      }
    }
  }

  /** Filtering a list without duplicates leaves a list without duplicates. */
  lemma {:induction false} FilterNoDuplicates<T>(s: seq<T>, p: T -> bool)
    requires NoDuplicates(s)
    ensures NoDuplicates(Filter(s, p))
  {
    if s != [] {
      var rest := Filter(s[1..], p);
      FilterNoDuplicates(s[1..], p);
      if p(s[0]) {
        assert s[0] !in s[1..] by {
          forall j | 0 <= j < |s[1..]|
            ensures s[1..][j] != s[0]
          {
            assert s[1..][j] == s[j + 1];
          }
        }
        assert s[0] !in rest;
        var r := [s[0]] + rest;
        assert Filter(s, p) == r;
        forall i, j | 0 <= i < j < |r|
          ensures r[i] != r[j]
        {
          if i == 0 {
            assert r[j] == rest[j - 1];
          } else {
            assert r[i] == rest[i - 1] && r[j] == rest[j - 1];
          }
        }
      }
    }
  }

  /** `s.slice(0, n)`: the first `n` elements, or all of them when there are fewer. */
  function Take<T>(s: seq<T>, n: nat): (r: seq<T>)
    ensures |r| == if n < |s| then n else |s|
    ensures forall i :: 0 <= i < |r| ==> r[i] == s[i]
  {
    if n < |s| then s[..n] else s
  }
}

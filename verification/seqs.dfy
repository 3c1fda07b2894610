/**
 Java stream idioms over lists: order-preserving filtering, flattening, and
 the maps that `Collectors.toMap`-style collectors build from a list.
 */
module Seqs {

  /** `ys` keeps some of the elements of `xs`, in their order in `xs`. */
  predicate IsSubsequence<T(==)>(ys: seq<T>, xs: seq<T>)
    decreases |xs|
  {
    |ys| == 0 ||
    (|xs| > 0 && ((ys[0] == xs[0] && IsSubsequence(ys[1..], xs[1..])) || IsSubsequence(ys, xs[1..])))
  }

  /** Every list is a subsequence of itself. */
  lemma {:induction false} IsSubsequenceRefl<T>(xs: seq<T>)
    ensures IsSubsequence(xs, xs)
  {
    if |xs| > 0 {
      IsSubsequenceRefl(xs[1..]);
    }
  }

  /** `xs.stream().filter(p).collect(Collectors.toList())`; a parallel stream keeps encounter order too. */
  function Filter<T(==,!new)>(xs: seq<T>, p: T -> bool): (r: seq<T>)
    ensures |r| <= |xs|
    ensures forall x :: x in r <==> x in xs && p(x)
    ensures IsSubsequence(r, xs)
  {
    if |xs| == 0 then []
    else if p(xs[0]) then [xs[0]] + Filter(xs[1..], p)
    else Filter(xs[1..], p)
  }

  /** Two filters applied one after the other give the same list in either order. */
  lemma {:induction false} FilterCommutes<T(!new)>(xs: seq<T>, p: T -> bool, q: T -> bool)
    ensures Filter(Filter(xs, p), q) == Filter(Filter(xs, q), p)
  {
    if |xs| > 0 {
      FilterCommutes(xs[1..], p, q);
      var a := Filter(xs[1..], p);
      var b := Filter(xs[1..], q);
      if p(xs[0]) {
        assert ([xs[0]] + a)[1..] == a;
      }
      if q(xs[0]) {
        assert ([xs[0]] + b)[1..] == b;
      }
    }
  }

  /** A filter that every element passes returns its input. */
  lemma {:induction false} FilterKeepsAll<T(!new)>(xs: seq<T>, p: T -> bool)
    requires forall i :: 0 <= i < |xs| ==> p(xs[i])
    ensures Filter(xs, p) == xs
  {
    if |xs| > 0 {
      FilterKeepsAll(xs[1..], p);
    }
  }

  /** A filter that no element passes returns nothing. */
  lemma {:induction false} FilterDropsAll<T(!new)>(xs: seq<T>, p: T -> bool)
    requires forall i :: 0 <= i < |xs| ==> !p(xs[i])
    ensures Filter(xs, p) == []
  {
    if |xs| > 0 {
      FilterDropsAll(xs[1..], p);
    }
  }

  /** Filtering depends only on the predicate's values on the list. */
  lemma {:induction false} FilterCongruent<T(!new)>(xs: seq<T>, p: T -> bool, q: T -> bool)
    requires forall i :: 0 <= i < |xs| ==> p(xs[i]) == q(xs[i])
    ensures Filter(xs, p) == Filter(xs, q)
  {
    if |xs| > 0 {
      FilterCongruent(xs[1..], p, q);
    }
  }

  /** The elements of a list, as a set. */
  function Elems<T>(xs: seq<T>): set<T>
  {
    set x | x in xs
  }

  /** `xs.stream().flatMap(f)`: the lists `f` gives for each element, concatenated in order. */
  function FlatMap<T, U(!new)>(xs: seq<T>, f: T -> seq<U>): (r: seq<U>)
    ensures forall u :: u in r <==> exists i :: 0 <= i < |xs| && u in f(xs[i])
  {
    if |xs| == 0 then []
    else
      var rest := FlatMap(xs[1..], f);
      assert forall u :: u in rest <==> exists i :: 1 <= i < |xs| && u in f(xs[i]) by {
        forall u | u in rest ensures exists i :: 1 <= i < |xs| && u in f(xs[i]) {
          var j :| 0 <= j < |xs[1..]| && u in f(xs[1..][j]);
          assert u in f(xs[j + 1]);
        }
        forall u, i | 1 <= i < |xs| && u in f(xs[i]) ensures u in rest {
          assert u in f(xs[1..][i - 1]);
        }
      }
      f(xs[0]) + rest
  }

  /** `FlatMap` depends only on the lists `f` gives for the elements present. */
  lemma {:induction false} FlatMapCongruent<T, U(!new)>(xs: seq<T>, f: T -> seq<U>, g: T -> seq<U>)
    requires forall i :: 0 <= i < |xs| ==> f(xs[i]) == g(xs[i])
    ensures FlatMap(xs, f) == FlatMap(xs, g)
  {
    if |xs| > 0 {
      FlatMapCongruent(xs[1..], f, g);
    }
  }

  /** The map a stream collector builds when the first element with each key wins:
      `toMap(key, identity, (a, b) -> a)` run in encounter order. */
  function FirstWins<T, K(!new)>(xs: seq<T>, key: T -> K): (m: map<K, T>)
    ensures forall k :: k in m <==> exists i :: 0 <= i < |xs| && key(xs[i]) == k
    ensures forall i :: 0 <= i < |xs| && (forall j :: 0 <= j < i ==> key(xs[j]) != key(xs[i])) ==> m[key(xs[i])] == xs[i]
    ensures forall k :: k in m ==> key(m[k]) == k && m[k] in xs
  {
    if |xs| == 0 then map[]
    else
      var rest := FirstWins(xs[1..], key);
      var m := rest[key(xs[0]) := xs[0]];
      FirstWinsKeys(xs, key, rest, m);
      FirstWinsFirst(xs, key, rest, m);
      m
  }

  /** Putting the head in front adds its key to those of the tail. */
  lemma FirstWinsKeys<T, K>(xs: seq<T>, key: T -> K, rest: map<K, T>, m: map<K, T>)
    requires |xs| > 0 && m == rest[key(xs[0]) := xs[0]]
    requires forall k :: k in rest <==> exists i :: 0 <= i < |xs[1..]| && key(xs[1..][i]) == k
    ensures forall k :: k in m <==> exists i :: 0 <= i < |xs| && key(xs[i]) == k
  {
    forall k | k in rest ensures exists i :: 1 <= i < |xs| && key(xs[i]) == k {
      var j :| 0 <= j < |xs[1..]| && key(xs[1..][j]) == k;
      assert key(xs[j + 1]) == k;
    }
    forall k, i | 1 <= i < |xs| && key(xs[i]) == k ensures k in rest {
      assert key(xs[1..][i - 1]) == k;
    }
  }

  /** The head wins its key; a later element that is first with its key keeps winning it. */
  lemma FirstWinsFirst<T, K>(xs: seq<T>, key: T -> K, rest: map<K, T>, m: map<K, T>)
    requires |xs| > 0 && m == rest[key(xs[0]) := xs[0]]
    requires forall i :: 0 <= i < |xs[1..]| ==> key(xs[1..][i]) in rest
    requires forall i :: 0 <= i < |xs[1..]| && (forall j :: 0 <= j < i ==> key(xs[1..][j]) != key(xs[1..][i])) ==>
      rest[key(xs[1..][i])] == xs[1..][i]
    ensures forall i :: 0 <= i < |xs| ==> key(xs[i]) in m
    ensures forall i :: 0 <= i < |xs| && (forall j :: 0 <= j < i ==> key(xs[j]) != key(xs[i])) ==> m[key(xs[i])] == xs[i]
  {
    forall i | 1 <= i < |xs| ensures key(xs[i]) in m {
      assert xs[1..][i - 1] == xs[i];
    }
    forall i | 1 <= i < |xs| && (forall j :: 0 <= j < i ==> key(xs[j]) != key(xs[i]))
      ensures m[key(xs[i])] == xs[i]
    {
      assert xs[1..][i - 1] == xs[i];
      forall j | 0 <= j < i - 1 ensures key(xs[1..][j]) != key(xs[1..][i - 1]) {
        assert xs[1..][j] == xs[j + 1];
      }
    }
  }
}

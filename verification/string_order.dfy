/**
 The natural order of strings (`String.compareTo`): lexicographic by
 character, a proper prefix coming first. It is a strict total order, and a
 set of strings has exactly one strictly ascending enumeration, which
 `SortedEnumeration` builds by insertion.
 */
module StringOrder {
  import opened Seqs

  /** `a.compareTo(b) < 0` */
  predicate Below(a: string, b: string)
    decreases |a|
  {
    if |a| == 0 then |b| > 0
    else |b| > 0 && (a[0] < b[0] || (a[0] == b[0] && Below(a[1..], b[1..])))
  }

  lemma {:induction false} BelowIrreflexive(a: string)
    ensures !Below(a, a)
  {
    if |a| > 0 {
      BelowIrreflexive(a[1..]);
    }
  }

  lemma {:induction false} BelowTransitive(a: string, b: string, c: string)
    requires Below(a, b) && Below(b, c)
    ensures Below(a, c)
  {
    if |a| > 0 && a[0] == b[0] && b[0] == c[0] {
      BelowTransitive(a[1..], b[1..], c[1..]);
    }
  }

  /** Any two different strings are ordered one way or the other. */
  lemma {:induction false} BelowTotal(a: string, b: string)
    ensures a == b || Below(a, b) || Below(b, a)
  {
    if |a| > 0 && |b| > 0 && a[0] == b[0] {
      BelowTotal(a[1..], b[1..]);
      if a[1..] == b[1..] {
        assert a == [a[0]] + a[1..] && b == [b[0]] + b[1..];
      }
    }
  }

  /** Strictly ascending: each element comes before every later one. */
  predicate Ascending(xs: seq<string>)
  {
    forall i, j :: 0 <= i < j < |xs| ==> Below(xs[i], xs[j])
  }

  /** A strictly ascending list has no repeated element. */
  lemma AscendingDistinct(xs: seq<string>)
    requires Ascending(xs)
    ensures forall i, j :: 0 <= i < j < |xs| ==> xs[i] != xs[j]
    ensures |Elems(xs)| == |xs|
  {
    forall i, j | 0 <= i < j < |xs| ensures xs[i] != xs[j] {
      BelowIrreflexive(xs[i]);
    }
    DistinctCard(xs);
  }

  lemma {:induction false} DistinctCard(xs: seq<string>)
    requires forall i, j :: 0 <= i < j < |xs| ==> xs[i] != xs[j]
    ensures |Elems(xs)| == |xs|
  {
    if |xs| > 0 {
      DistinctCard(xs[1..]);
      assert Elems(xs) == Elems(xs[1..]) + {xs[0]};
      assert xs[0] !in Elems(xs[1..]) by {
        forall j | 0 <= j < |xs[1..]| ensures xs[1..][j] != xs[0] {
          assert xs[1..][j] == xs[j + 1];
        }
      }
    }
  }

  /** An element below every element of an ascending list can lead it. */
  lemma AscendingCons(y: string, xs: seq<string>)
    requires Ascending(xs)
    requires forall j :: 0 <= j < |xs| ==> Below(y, xs[j])
    ensures Ascending([y] + xs)
    ensures y !in xs
  {
    BelowIrreflexive(y);
    var r := [y] + xs;
    forall i, j | 0 <= i < j < |r| ensures Below(r[i], r[j]) {
      assert r[j] == xs[j - 1];
      if i > 0 { assert r[i] == xs[i - 1]; }
    }
  }

  /** An element below the head of an ascending list is below all of it. */
  lemma BelowHead(x: string, xs: seq<string>)
    requires Ascending(xs) && |xs| > 0 && Below(x, xs[0])
    ensures forall j :: 0 <= j < |xs| ==> Below(x, xs[j])
  {
    forall j | 0 < j < |xs| ensures Below(x, xs[j]) {
      BelowTransitive(x, xs[0], xs[j]);
    }
  }

  /** The head of an ascending list is below every element of the list `Insert` makes of its tail. */
  lemma HeadBelowInserted(x: string, xs: seq<string>, rest: seq<string>)
    requires Ascending(xs) && |xs| > 0 && Below(xs[0], x)
    requires Elems(rest) == Elems(xs[1..]) + {x}
    ensures forall j :: 0 <= j < |rest| ==> Below(xs[0], rest[j])
  {
    forall j | 0 <= j < |rest| ensures Below(xs[0], rest[j]) {
      assert rest[j] in Elems(rest);
      if rest[j] != x {
        var k :| 0 <= k < |xs[1..]| && xs[1..][k] == rest[j];
        assert xs[k + 1] == rest[j];
      }
    }
  }

  /** `x` placed into an ascending list at its position; nothing changes when it is already there. */
  function Insert(x: string, xs: seq<string>): (r: seq<string>)
    requires Ascending(xs)
    ensures Ascending(r)
    ensures Elems(r) == Elems(xs) + {x}
    ensures x in xs ==> r == xs
    ensures x !in xs ==> |r| == |xs| + 1
  {
    if |xs| == 0 then [x]
    else if x == xs[0] then xs
    else if Below(x, xs[0]) then
      BelowHead(x, xs);
      AscendingCons(x, xs);
      [x] + xs
    else
      BelowTotal(x, xs[0]);
      var rest := Insert(x, xs[1..]);
      assert Elems(xs) == {xs[0]} + Elems(xs[1..]);
      HeadBelowInserted(x, xs, rest);
      AscendingCons(xs[0], rest);
      [xs[0]] + rest
  }

  /**
   The strictly ascending enumeration of a set of strings
   (`set.stream().sorted().collect(toList())`), built by inserting one element at a time.
   */
  method SortedEnumeration(s: set<string>) returns (r: seq<string>)
    ensures Ascending(r)
    ensures Elems(r) == s
    ensures |r| == |s|
  {
    r := [];
    var rest := s;
    while rest != {}
      invariant Ascending(r)
      invariant Elems(r) + rest == s
      invariant Elems(r) !! rest
      invariant |r| + |rest| == |s|
      decreases |rest|
    {
      var x :| x in rest;
      r := Insert(x, r);
      rest := rest - {x};
    }
  }

  /** Two ascending lists with the same elements start with the same element, their least. */
  lemma SameFirst(xs: seq<string>, ys: seq<string>)
    requires Ascending(xs) && Ascending(ys) && |xs| > 0 && |ys| > 0
    requires Elems(xs) == Elems(ys)
    ensures xs[0] == ys[0]
  {
    assert xs[0] in Elems(ys) && ys[0] in Elems(xs);
    if xs[0] != ys[0] {
      var i :| 0 <= i < |xs| && xs[i] == ys[0];
      var j :| 0 <= j < |ys| && ys[j] == xs[0];
      BelowTransitive(xs[0], ys[0], xs[0]);
      BelowIrreflexive(xs[0]);
    }
  }

  /** Without its first element, an ascending list holds the others' elements. */
  lemma TailElems(xs: seq<string>)
    requires Ascending(xs) && |xs| > 0
    ensures Elems(xs[1..]) == Elems(xs) - {xs[0]}
  {
    assert Elems(xs) == {xs[0]} + Elems(xs[1..]);
    forall j | 0 <= j < |xs[1..]| ensures xs[1..][j] != xs[0] {
      assert xs[1..][j] == xs[j + 1];
      BelowIrreflexive(xs[0]);
    }
  }

  /** Two ascending lists with the same elements are the same list: the enumeration is unique. */
  lemma {:induction false} AscendingUnique(xs: seq<string>, ys: seq<string>)
    requires Ascending(xs) && Ascending(ys)
    requires Elems(xs) == Elems(ys)
    ensures xs == ys
  {
    if |xs| > 0 {
      assert xs[0] in Elems(ys);
      SameFirst(xs, ys);
      TailElems(xs);
      TailElems(ys);
      AscendingUnique(xs[1..], ys[1..]);
      assert xs == [xs[0]] + xs[1..] && ys == [ys[0]] + ys[1..];
    } else {
      ElemsEmpty(ys);
    }
  }

  lemma ElemsEmpty(xs: seq<string>)
    ensures Elems(xs) == {} <==> xs == []
  {
    if xs != [] {
      assert xs[0] in Elems(xs);
    }
  }
}

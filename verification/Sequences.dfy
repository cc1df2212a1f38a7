/** Sequence vocabulary shared by the models: bounded suffixes, filters, stable sorting
    and the uniqueness of a strictly sorted sequence. */
module Sequences {

  datatype Option<+T> = None | Some(value: T)

  /** The last `n` elements: Python's `deque(maxlen=n)` and JavaScript's `slice(-n)`. */
  function LastN<T(!new)>(s: seq<T>, n: nat): (r: seq<T>)
    ensures |r| == if |s| <= n then |s| else n
    ensures r == s[|s| - |r|..]
  {
    if |s| <= n then s else s[|s| - n..]
  }

  lemma LastNSnoc<T(!new)>(s: seq<T>, x: T, n: nat)
    ensures LastN(LastN(s, n) + [x], n) == LastN(s + [x], n)
  {
  }

  function Filter<T(!new)>(s: seq<T>, keep: T -> bool): (r: seq<T>)
    ensures forall x :: x in r <==> x in s && keep(x)
    ensures |r| <= |s|
  {
    if s == [] then []
    else
      var rest := Filter(s[..|s| - 1], keep);
      if keep(s[|s| - 1]) then rest + [s[|s| - 1]] else rest
  }

  lemma FilterSnoc<T(!new)>(s: seq<T>, x: T, keep: T -> bool)
    ensures Filter(s + [x], keep) == Filter(s, keep) + (if keep(x) then [x] else [])
  {
    assert (s + [x])[..|s|] == s;
  }

  lemma FilterAll<T(!new)>(s: seq<T>, keep: T -> bool)
    requires forall x :: x in s ==> keep(x)
    ensures Filter(s, keep) == s
  {
    if s != [] {
      FilterAll(s[..|s| - 1], keep);
    }
  }

  lemma FilterPrefix<T(!new)>(s: seq<T>, keep: T -> bool, n: nat)
    requires n <= |s|
    requires forall i :: 0 <= i < n ==> keep(s[i])
    requires forall i :: n <= i < |s| ==> !keep(s[i])
    ensures Filter(s, keep) == s[..n]
  {
    if n == |s| {
      assert s[..n] == s;
      FilterAll(s, keep);
    } else {
      FilterPrefix(s[..|s| - 1], keep, n);
      assert s[..|s| - 1][..n] == s[..n];
    }
  }

  lemma {:induction false} FilterSorted<T(!new)>(s: seq<T>, keep: T -> bool, lt: (T, T) -> bool)
    requires Sorted(s, lt)
    ensures Sorted(Filter(s, keep), lt)
  {
    if s != [] {
      var n := |s| - 1;
      FilterSorted(s[..n], keep, lt);
      var rest := Filter(s[..n], keep);
      forall x | x in rest
        ensures lt(x, s[n])
      {
        var i :| 0 <= i < n && s[..n][i] == x;
        assert lt(s[i], s[n]);
      }
    }
  }

  /** Stable insertion: `x` goes in front of the first element it does not exceed. */
  function Insert<T(!new)>(x: T, s: seq<T>, leq: (T, T) -> bool): (r: seq<T>)
    ensures |r| == |s| + 1
    ensures multiset(r) == multiset(s) + multiset{x}
  {
    if s == [] then [x]
    else if leq(x, s[0]) then [x] + s
    else
      assert s == [s[0]] + s[1..];
      [s[0]] + Insert(x, s[1..], leq)
  }

  /** Stable sort, as Python's `sorted` and JavaScript's `Array.prototype.sort` promise. */
  function StableSort<T(!new)>(s: seq<T>, leq: (T, T) -> bool): (r: seq<T>)
    ensures |r| == |s|
    ensures multiset(r) == multiset(s)
  {
    if s == [] then []
    else
      assert s == [s[0]] + s[1..];
      Insert(s[0], StableSort(s[1..], leq), leq)
  }

  ghost predicate Sorted<T(!new)>(s: seq<T>, leq: (T, T) -> bool)
  {
    forall i, j :: 0 <= i < j < |s| ==> leq(s[i], s[j])
  }

  ghost predicate TotalPreorder<T(!new)>(leq: (T, T) -> bool)
  {
    && (forall x, y :: leq(x, y) || leq(y, x))
    && (forall x, y, z :: leq(x, y) && leq(y, z) ==> leq(x, z))
  }

  lemma SameMembers<T(!new)>(a: seq<T>, b: seq<T>)
    requires multiset(a) == multiset(b)
    ensures forall x :: x in a <==> x in b
  {
    forall x
      ensures x in a <==> x in b
    {
      assert x in a <==> x in multiset(a);
      assert x in b <==> x in multiset(b);
    }
  }

  lemma InsertMembers<T(!new)>(x: T, s: seq<T>, leq: (T, T) -> bool)
    ensures forall y :: y in Insert(x, s, leq) <==> y == x || y in s
  {
    SameMembers(Insert(x, s, leq), s + [x]);
  }

  lemma SortMembers<T(!new)>(s: seq<T>, leq: (T, T) -> bool)
    ensures forall y :: y in StableSort(s, leq) <==> y in s
  {
    SameMembers(StableSort(s, leq), s);
  }

  lemma {:induction false} InsertSorted<T(!new)>(x: T, s: seq<T>, leq: (T, T) -> bool)
    requires TotalPreorder(leq) && Sorted(s, leq)
    ensures Sorted(Insert(x, s, leq), leq)
  {
    if s == [] {
    } else if leq(x, s[0]) {
      var r := [x] + s;
      forall i, j | 0 <= i < j < |r|
        ensures leq(r[i], r[j])
      {
        if i == 0 && j > 1 {
          assert leq(s[0], s[j - 1]);
        }
      }
    } else {
      InsertSorted(x, s[1..], leq);
      InsertMembers(x, s[1..], leq);
      var rest := Insert(x, s[1..], leq);
      forall y | y in rest
        ensures leq(s[0], y)
      {
        if y != x {
          var k :| 0 <= k < |s[1..]| && s[1..][k] == y;
          assert leq(s[0], s[k + 1]);
        }
      }
    }
  }

  lemma {:induction false} SortSorted<T(!new)>(s: seq<T>, leq: (T, T) -> bool)
    requires TotalPreorder(leq)
    ensures Sorted(StableSort(s, leq), leq)
  {
    if s != [] {
      SortSorted(s[1..], leq);
      InsertSorted(s[0], StableSort(s[1..], leq), leq);
    }
  }

  /** Sorting what is already sorted changes nothing: this is where stability shows. */
  lemma {:induction false} SortOfSorted<T(!new)>(s: seq<T>, leq: (T, T) -> bool)
    requires Sorted(s, leq)
    ensures StableSort(s, leq) == s
  {
    if s != [] {
      SortOfSorted(s[1..], leq);
      if |s| > 1 {
        assert leq(s[0], s[1]);
      }
    }
  }

  /** Sequences sorted by an order that is strict on them are determined by their members. */
  lemma {:induction false} SortedUnique<T(!new)>(a: seq<T>, b: seq<T>, lt: (T, T) -> bool)
    requires Sorted(a, lt) && Sorted(b, lt)
    requires forall x, y :: x in a && y in a ==> !(lt(x, y) && lt(y, x))
    requires forall x :: x in a <==> x in b
    ensures a == b
  {
    assert |a| > 0 ==> a[0] in b;
    assert |b| > 0 ==> b[0] in a;
    if a != [] {
      HeadLeast(a, b[0], lt);
      HeadLeast(b, a[0], lt);
      forall x
        ensures x in a[1..] <==> x in b[1..]
      {
        TailMembers(a, x, lt);
        TailMembers(b, x, lt);
      }
      SortedUnique(a[1..], b[1..], lt);
      assert a == [a[0]] + a[1..] && b == [b[0]] + b[1..];
    }
  }

  lemma HeadLeast<T(!new)>(a: seq<T>, x: T, lt: (T, T) -> bool)
    requires Sorted(a, lt) && x in a
    ensures a[0] == x || lt(a[0], x)
  {
    var i :| 0 <= i < |a| && a[i] == x;
  }

  lemma TailMembers<T(!new)>(a: seq<T>, x: T, lt: (T, T) -> bool)
    requires a != [] && Sorted(a, lt)
    requires !lt(a[0], a[0])
    ensures x in a[1..] <==> x in a && x != a[0]
  {
    if x in a && x != a[0] {
      var i :| 0 <= i < |a| && a[i] == x;
      assert a[1..][i - 1] == x;
    }
    if x in a[1..] {
      var i :| 0 <= i < |a[1..]| && a[1..][i] == x;
      assert lt(a[0], a[i + 1]);
    }
  }

  /** `x` strictly before `y`. */
  function Strict<T(!new)>(leq: (T, T) -> bool): (T, T) -> bool
  {
    (x, y) => leq(x, y) && !leq(y, x)
  }

  /** No two elements, at different positions, tie. */
  ghost predicate NoTies<T(!new)>(s: seq<T>, leq: (T, T) -> bool)
  {
    forall i, j :: 0 <= i < j < |s| ==> !(leq(s[i], s[j]) && leq(s[j], s[i]))
  }

  lemma {:induction false} InsertStrict<T(!new)>(x: T, s: seq<T>, leq: (T, T) -> bool)
    requires TotalPreorder(leq) && Sorted(s, Strict(leq))
    requires forall y :: y in s ==> !(leq(x, y) && leq(y, x))
    ensures Sorted(Insert(x, s, leq), Strict(leq))
  {
    var lt := Strict(leq);
    if s == [] {
    } else if leq(x, s[0]) {
      var r := [x] + s;
      forall i, j | 0 <= i < j < |r|
        ensures lt(r[i], r[j])
      {
        if i == 0 {
          HeadLeast(s, s[j - 1], lt);
        }
      }
    } else {
      var rest := Insert(x, s[1..], leq);
      InsertStrict(x, s[1..], leq);
      InsertMembers(x, s[1..], leq);
      forall y | y in rest
        ensures lt(s[0], y)
      {
        if y != x {
          var k :| 0 <= k < |s[1..]| && s[1..][k] == y;
          assert lt(s[0], s[k + 1]);
        }
      }
    }
  }

  lemma {:induction false} SortStrict<T(!new)>(s: seq<T>, leq: (T, T) -> bool)
    requires TotalPreorder(leq) && NoTies(s, leq)
    ensures Sorted(StableSort(s, leq), Strict(leq))
  {
    if s != [] {
      SortStrict(s[1..], leq);
      SortMembers(s[1..], leq);
      InsertStrict(s[0], StableSort(s[1..], leq), leq);
    }
  }

  // ---- finite sets of ordered identifiers ----

  predicate Below(x: int, y: int) { x < y }

  /** Python's `sorted(set)`. */
  function SortedInts(s: set<int>): (r: seq<int>)
    ensures Sorted(r, Below)
    ensures forall x :: x in r <==> x in s
    decreases s
  {
    if s == {} then []
    else
      LeastExists(s);
      var m :| m in s && forall x :: x in s ==> m <= x;
      [m] + SortedInts(s - {m})
  }

  /** How many of an increasing sequence are at most `t`. */
  lemma {:induction false} CutPoint(s: seq<int>, t: int) returns (n: nat)
    requires Sorted(s, Below)
    ensures n <= |s|
    ensures forall i :: 0 <= i < n ==> s[i] <= t
    ensures forall i :: n <= i < |s| ==> s[i] > t
  {
    if s == [] {
      n := 0;
    } else if s[|s| - 1] <= t {
      n := |s|;
      forall i | 0 <= i < n
        ensures s[i] <= t
      {
        assert i < |s| - 1 ==> Below(s[i], s[|s| - 1]);
      }
    } else {
      n := CutPoint(s[..|s| - 1], t);
    }
  }

  lemma MemberOf(s: set<int>)
    requires s != {}
    ensures exists x :: x in s
  {
    assert (forall x :: x !in s) ==> s == {};
  }

  lemma {:induction false} LeastExists(s: set<int>)
    requires s != {}
    ensures exists m :: m in s && forall x :: x in s ==> m <= x
  {
    MemberOf(s);
    var y :| y in s;
    if s - {y} == {} {
      assert s == {y};
    } else {
      LeastExists(s - {y});
      var m :| m in s - {y} && forall x :: x in s - {y} ==> m <= x;
      var least := if m <= y then m else y;
      forall x | x in s
        ensures least <= x
      {
        assert x == y || x in s - {y};
      }
    }
  }
}

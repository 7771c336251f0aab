/** Sorting a finite set into the one ascending sequence of its members. */
module Ordering {

  ghost predicate TotalOn<T(!new)>(s: set<T>, less: (T, T) -> bool) {
    && (forall x | x in s :: !less(x, x))
    && (forall x, y | x in s && y in s && x != y :: less(x, y) || less(y, x))
    && (forall x, y, z | x in s && y in s && z in s && less(x, y) && less(y, z) :: less(x, z))
  }

  ghost predicate Ascending<T(!new)>(r: seq<T>, less: (T, T) -> bool) {
    forall i, j | 0 <= i < j < |r| :: less(r[i], r[j])
  }

  function Elements<T(==,!new)>(r: seq<T>): set<T> {
    set x | x in r
  }

  ghost predicate IsLeast<T(!new)>(s: set<T>, less: (T, T) -> bool, m: T) {
    m in s && forall y | y in s && y != m :: less(m, y)
  }

  lemma {:induction false} LeastExists<T(!new)>(s: set<T>, less: (T, T) -> bool)
    requires s != {} && TotalOn(s, less)
    ensures exists m :: IsLeast(s, less, m)
  {
    var x :| x in s;
    if s == {x} {
      assert IsLeast(s, less, x);
    } else {
      assert s == {x} + (s - {x});
      LeastExists(s - {x}, less);
      var m :| IsLeast(s - {x}, less, m);
      assert IsLeast(s, less, if less(x, m) then x else m);
    }
  }

  // The smallest member; unique, because less is a strict total order on s.
  function Least<T(==,!new)>(s: set<T>, less: (T, T) -> bool): (m: T)
    requires s != {} && TotalOn(s, less)
    ensures IsLeast(s, less, m)
  {
    LeastExists(s, less);
    assert forall a, b | IsLeast(s, less, a) && IsLeast(s, less, b) :: a == b;
    var m :| m in s && forall y | y in s && y != m :: less(m, y);
    m
  }

  function Sort<T(==,!new)>(s: set<T>, less: (T, T) -> bool): (r: seq<T>)
    requires TotalOn(s, less)
    ensures Ascending(r, less)
    ensures forall x :: x in r <==> x in s
  {
    if s == {} then []
    else
      var m := Least(s, less);
      [m] + Sort(s - {m}, less)
  }

  lemma HeadIsLeast<T(!new)>(a: seq<T>, less: (T, T) -> bool)
    requires a != [] && Ascending(a, less) && TotalOn(Elements(a), less)
    ensures IsLeast(Elements(a), less, a[0])
    ensures Elements(a[1..]) == Elements(a) - {a[0]}
  {
    assert forall i | 1 <= i < |a| :: less(a[0], a[i]) && a[i] in Elements(a);
    assert a == [a[0]] + a[1..];
    assert a[0] !in a[1..] by {
      assert forall i | 0 <= i < |a[1..]| :: a[1..][i] == a[i + 1];
    }
  }

  lemma NoElements<T(!new)>(r: seq<T>)
    ensures Elements(r) == {} <==> r == []
  {
    if r != [] { assert r[0] in Elements(r); }
  }

  // A set has only one ascending enumeration.
  lemma {:induction false} AscendingUnique<T(!new)>(a: seq<T>, b: seq<T>, less: (T, T) -> bool)
    requires Ascending(a, less) && Ascending(b, less)
    requires Elements(a) == Elements(b)
    requires TotalOn(Elements(a), less)
    ensures a == b
  {
    NoElements(a);
    NoElements(b);
    if a != [] {
      HeadIsLeast(a, less);
      HeadIsLeast(b, less);
      AscendingUnique(a[1..], b[1..], less);
    }
  }

  predicate NoRepeats<T(==,!new)>(r: seq<T>) {
    forall i, j | 0 <= i < j < |r| :: r[i] != r[j]
  }

  // Two enumerations without repeats of the same members are permutations of each other.
  lemma {:induction false} SameMembersPermute<T(!new)>(a: seq<T>, b: seq<T>)
    requires NoRepeats(a) && NoRepeats(b)
    requires forall x :: x in a <==> x in b
    ensures multiset(a) == multiset(b)
  {
    CountOnce(a);
    CountOnce(b);
    forall x ensures multiset(a)[x] == multiset(b)[x] {
      if x in a { assert x in b; } else { assert x !in b; assert multiset(a)[x] == 0; }
    }
  }

  lemma {:induction false} CountOnce<T(!new)>(a: seq<T>)
    requires NoRepeats(a)
    ensures forall x | x in a :: multiset(a)[x] == 1
  {
    if a != [] {
      var n := |a| - 1;
      assert a == a[..n] + [a[n]];
      assert NoRepeats(a[..n]) by {
        forall i, j | 0 <= i < j < n ensures a[..n][i] != a[..n][j] { assert a[i] != a[j]; }
      }
      CountOnce(a[..n]);
      assert a[n] !in a[..n];
      forall x | x in a ensures multiset(a)[x] == 1 {
        assert multiset(a) == multiset(a[..n]) + multiset{a[n]};
      }
    }
  }
}

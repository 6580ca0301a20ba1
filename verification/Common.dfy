/** Small vocabulary shared by every component of the model. */
module Common {

  /** A nullable value, `undefined` or a missing map entry. */
  datatype Option<+T> = None | Some(value: T)

  /** A call that either returns or throws. */
  datatype Result<+T> = Ok(value: T) | Err(error: string)

  function Min(a: int, b: int): int {
    if a <= b then a else b
  }

  function Max(a: int, b: int): int {
    if a >= b then a else b
  }

  /** 2^n, the number of values `n` halvings divide by. */
  function Pow2(n: nat): (r: nat)
    ensures r >= 1
  {
    if n == 0 then 1 else 2 * Pow2(n - 1)
  }
}

/** The library call `Array.prototype.sort` with a comparator: a stable sort. */
module Sorting {

  ghost predicate TotalPreorder<T(!new)>(le: (T, T) -> bool) {
    && (forall a, b :: le(a, b) || le(b, a))
    && (forall a, b, c :: le(a, b) && le(b, c) ==> le(a, c))
  }

  ghost predicate SortedBy<T>(le: (T, T) -> bool, s: seq<T>) {
    forall i, j :: 0 <= i < j < |s| ==> le(s[i], s[j])
  }

  /** Put `x` in front of the first element it may precede. */
  function InsertBy<T>(le: (T, T) -> bool, x: T, s: seq<T>): (r: seq<T>)
    ensures |r| == |s| + 1
    ensures multiset(r) == multiset(s) + multiset{x}
  {
    if s == [] || le(x, s[0]) then
      [x] + s
    else
      assert s == [s[0]] + s[1..];
      [s[0]] + InsertBy(le, x, s[1..])
  }

  function SortBy<T>(le: (T, T) -> bool, s: seq<T>): (r: seq<T>)
    ensures |r| == |s|
    ensures multiset(r) == multiset(s)
  {
    if s == [] then []
    else
      assert s == [s[0]] + s[1..];
      InsertBy(le, s[0], SortBy(le, s[1..]))
  }

  lemma {:induction false} InsertBySorted<T(!new)>(le: (T, T) -> bool, x: T, s: seq<T>)
    requires TotalPreorder(le) && SortedBy(le, s)
    ensures SortedBy(le, InsertBy(le, x, s))
  {
    if s == [] {
    } else if le(x, s[0]) {
      forall j | 0 <= j < |s| ensures le(x, s[j]) {
        assert j == 0 || le(s[0], s[j]);
      }
    } else {
      var tail := s[1..];
      InsertBySorted(le, x, tail);
      var r := InsertBy(le, x, tail);
      forall j | 0 <= j < |r| ensures le(s[0], r[j]) {
        assert r[j] in multiset(r);
        assert r[j] == x || r[j] in tail;
      }
    }
  }

  /** Sorting with a total preorder yields a sorted permutation. */
  lemma {:induction false} SortBySorted<T(!new)>(le: (T, T) -> bool, s: seq<T>)
    requires TotalPreorder(le)
    ensures SortedBy(le, SortBy(le, s))
    ensures multiset(SortBy(le, s)) == multiset(s)
  {
    if s != [] {
      SortBySorted(le, s[1..]);
      InsertBySorted(le, s[0], SortBy(le, s[1..]));
    }
  }

  lemma MultisetWithout<T>(s: seq<T>, k: nat)
    requires k < |s|
    ensures multiset(s[..k] + s[k + 1..]) == multiset(s) - multiset{s[k]}
  {
    assert s == s[..k] + [s[k]] + s[k + 1..];
  }

  lemma FindIn<T>(s: seq<T>, x: T) returns (k: nat)
    requires x in multiset(s)
    ensures k < |s| && s[k] == x
  {
    k :| 0 <= k < |s| && s[k] == x;
  }

  /** A repeated element has multiplicity at least two. */
  lemma RepeatedElement<T>(s: seq<T>, k: nat, l: nat)
    requires k < l < |s| && s[k] == s[l]
    ensures multiset(s)[s[k]] >= 2
  {
    assert s == s[..l] + [s[l]] + s[l + 1..];
    assert s[k] in s[..l];
  }

  /** Membership survives sorting. */
  lemma SortByMembers<T>(le: (T, T) -> bool, s: seq<T>)
    ensures forall x :: x in SortBy(le, s) <==> x in s
  {
    forall x
      ensures x in SortBy(le, s) <==> x in s
    {
      assert x in SortBy(le, s) <==> x in multiset(SortBy(le, s));
      assert x in s <==> x in multiset(s);
    }
  }

  /** The distinct elements in order of first appearance, as a set built from `s` enumerates them. */
  function Distinct<T(==, !new)>(s: seq<T>): (r: seq<T>)
    ensures forall x :: x in r <==> x in s
    ensures NoRepeats(r)
    ensures |r| <= |s|
  {
    if s == [] then []
    else
      var d := Distinct(s[..|s| - 1]);
      assert s == s[..|s| - 1] + [s[|s| - 1]];
      if s[|s| - 1] in d then d else d + [s[|s| - 1]]
  }

  ghost predicate NoRepeats<T>(s: seq<T>) {
    forall i, j :: 0 <= i < j < |s| ==> s[i] != s[j]
  }

  lemma {:induction false} OnceEach<T>(s: seq<T>, x: T)
    requires NoRepeats(s)
    ensures multiset(s)[x] <= 1
  {
    if s != [] {
      var n := |s| - 1;
      OnceEach(s[..n], x);
      assert s == s[..n] + [s[n]];
      if s[n] == x {
        assert x !in s[..n];
      }
    }
  }

  /** Sorting a list without repeats keeps it without repeats. */
  lemma SortKeepsDistinct<T>(le: (T, T) -> bool, s: seq<T>)
    requires NoRepeats(s)
    ensures NoRepeats(SortBy(le, s))
  {
    var r := SortBy(le, s);
    forall i, j | 0 <= i < j < |r| ensures r[i] != r[j] {
      if r[i] == r[j] {
        RepeatedElement(r, i, j);
        OnceEach(s, r[i]);
        assert false;
      }
    }
  }

  lemma SharedElement<T(!new)>(a: seq<T>, b: seq<T>)
    requires a != [] && forall x :: x in a <==> x in b
    ensures b != []
  {
    assert a[0] in a;
  }

  /** Two sorted lists without repeats and with the same elements are the same list. */
  lemma {:induction false} SortedDetermined<T(!new)>(le: (T, T) -> bool, a: seq<T>, b: seq<T>)
    requires SortedBy(le, a) && NoRepeats(a) && SortedBy(le, b) && NoRepeats(b)
    requires forall x, y :: x in a && y in a && le(x, y) && le(y, x) ==> x == y
    requires forall x :: x in a <==> x in b
    ensures a == b
  {
    if a != [] {
      SharedElement(a, b);
    }
    if b != [] {
      SharedElement(b, a);
      assert a[0] in b && b[0] in a;
      var j :| 0 <= j < |b| && b[j] == a[0];
      var i :| 0 <= i < |a| && a[i] == b[0];
      assert a[0] == b[0];
      assert a[0] !in a[1..] && b[0] !in b[1..];
      forall x ensures x in a[1..] <==> x in b[1..] {
        assert x in a <==> x == a[0] || x in a[1..];
        assert x in b <==> x == b[0] || x in b[1..];
      }
      SortedDetermined(le, a[1..], b[1..]);
    }
  }
}

// Sorting by a key, as sort.Slice does, and the one order it can lead to.
module SortedLists {
  import opened Basics

  ghost predicate AscendingBy<T(!new)>(s: seq<T>, key: T -> nat) {
    forall i, j :: 0 <= i < j < |s| ==> key(s[i]) <= key(s[j])
  }

  ghost predicate StrictlyBy<T(!new)>(s: seq<T>, key: T -> nat) {
    forall i, j :: 0 <= i < j < |s| ==> key(s[i]) < key(s[j])
  }

  function InsertBy<T>(x: T, s: seq<T>, key: T -> nat): (r: seq<T>)
    ensures |r| == |s| + 1
  {
    if s == [] then [x]
    else if key(x) <= key(s[0]) then [x] + s
    else [s[0]] + InsertBy(x, s[1..], key)
  }

  function SortBy<T>(s: seq<T>, key: T -> nat): (r: seq<T>)
    ensures |r| == |s|
  {
    if s == [] then [] else InsertBy(s[0], SortBy(s[1..], key), key)
  }

  lemma {:induction false} InsertByElements<T(!new)>(x: T, s: seq<T>, key: T -> nat)
    ensures multiset(InsertBy(x, s, key)) == multiset(s) + multiset{x}
    decreases |s|
  {
    if s != [] {
      assert s == [s[0]] + s[1..];
      InsertByElements(x, s[1..], key);
    }
  }

  lemma SameMembers<T(!new)>(a: seq<T>, b: seq<T>)
    requires multiset(a) == multiset(b)
    ensures forall y :: y in a <==> y in b
  {
    forall y
      ensures y in a <==> y in b
    {
      assert y in multiset(a) <==> y in multiset(b);
    }
  }

  lemma ConsAscends<T(!new)>(x: T, s: seq<T>, key: T -> nat)
    requires AscendingBy(s, key) && forall y :: y in s ==> key(x) <= key(y)
    ensures AscendingBy([x] + s, key)
  {
  }

  lemma {:induction false} InsertByKeeps<T(!new)>(x: T, s: seq<T>, key: T -> nat)
    requires AscendingBy(s, key)
    ensures AscendingBy(InsertBy(x, s, key), key)
    ensures multiset(InsertBy(x, s, key)) == multiset(s) + multiset{x}
    decreases |s|
  {
    InsertByElements(x, s, key);
    if s != [] {
      if key(x) <= key(s[0]) {
        ConsAscends(x, s, key);
      } else {
        InsertByKeeps(x, s[1..], key);
        SameMembers(InsertBy(x, s[1..], key), s[1..] + [x]);
        ConsAscends(s[0], InsertBy(x, s[1..], key), key);
      }
    }
  }

  lemma {:induction false} SortBySorts<T(!new)>(s: seq<T>, key: T -> nat)
    ensures AscendingBy(SortBy(s, key), key)
    ensures multiset(SortBy(s, key)) == multiset(s)
    decreases |s|
  {
    if s != [] {
      SortBySorts(s[1..], key);
      InsertByKeeps(s[0], SortBy(s[1..], key), key);
      assert s == [s[0]] + s[1..];
    }
  }

  // No two members share a key.
  ghost predicate KeysApart<T(!new)>(s: seq<T>, key: T -> nat) {
    forall x, y :: x in s && y in s && key(x) == key(y) ==> x == y
  }

  lemma SameFirst<T(!new)>(a: seq<T>, b: seq<T>, key: T -> nat)
    requires AscendingBy(a, key) && AscendingBy(b, key) && multiset(a) == multiset(b) && a != [] && KeysApart(a, key)
    ensures b != [] && a[0] == b[0]
  {
    assert a[0] in multiset(a);
    SameMembers(a, b);
    assert a[0] in b && b[0] in a;
    var i :| 0 <= i < |a| && a[i] == b[0];
    var j :| 0 <= j < |b| && b[j] == a[0];
    assert key(a[0]) == key(b[0]);
  }

  lemma SameTails<T(!new)>(a: seq<T>, b: seq<T>)
    requires a != [] && b != [] && a[0] == b[0] && multiset(a) == multiset(b)
    ensures multiset(a[1..]) == multiset(b[1..])
  {
    assert a == [a[0]] + a[1..] && b == [b[0]] + b[1..];
    assert multiset(a[1..]) == multiset(a) - multiset{a[0]};
    assert multiset(b[1..]) == multiset(b) - multiset{b[0]};
  }

  lemma TailFits<T(!new)>(s: seq<T>, key: T -> nat)
    requires s != [] && AscendingBy(s, key)
    ensures AscendingBy(s[1..], key) && (KeysApart(s, key) ==> KeysApart(s[1..], key))
  {
  }

  // Two ascending lists of the same elements, keys apart, are one list.
  lemma {:induction false} AscendingUnique<T(!new)>(a: seq<T>, b: seq<T>, key: T -> nat)
    requires AscendingBy(a, key) && AscendingBy(b, key) && multiset(a) == multiset(b) && KeysApart(a, key)
    ensures a == b
    decreases |a|
  {
    if a == [] {
      assert |multiset(b)| == 0;
    } else {
      SameFirst(a, b, key);
      SameTails(a, b);
      TailFits(a, key);
      TailFits(b, key);
      AscendingUnique(a[1..], b[1..], key);
      assert a == [a[0]] + a[1..] && b == [b[0]] + b[1..];
    }
  }

  lemma NoElems<T(!new)>(s: seq<T>)
    ensures Elems(s) == {} <==> s == []
  {
    if s != [] {
      assert s[0] in Elems(s);
    }
  }

  // A strictly ascending list is determined by its set.
  lemma {:induction false} StrictUnique<T(!new)>(a: seq<T>, b: seq<T>, key: T -> nat)
    requires StrictlyBy(a, key) && StrictlyBy(b, key) && Elems(a) == Elems(b)
    ensures a == b
    decreases |a|
  {
    NoElems(a);
    NoElems(b);
    if a != [] {
      assert a[0] in Elems(b) && b[0] in Elems(a);
      assert a[0] == b[0];
      forall x
        ensures x in Elems(a[1..]) <==> x in Elems(b[1..])
      {
        InTail(a, x, key);
        InTail(b, x, key);
        assert x in Elems(a) <==> x in Elems(b);
      }
      StrictUnique(a[1..], b[1..], key);
      assert a == [a[0]] + a[1..] && b == [b[0]] + b[1..];
    }
  }

  lemma InTail<T(!new)>(s: seq<T>, x: T, key: T -> nat)
    requires s != [] && StrictlyBy(s, key)
    ensures x in s[1..] <==> x in s && x != s[0]
  {
  }
}

/** The contract of Go's sort.SliceStable and sort.Slice, with one function
    that meets it and the theorem that nothing else does. */
module Sorting {

  /** What a Go comparator has to be for a sort to mean anything. */
  ghost predicate StrictWeakOrder<T(!new)>(less: (T, T) -> bool) {
    && (forall x :: !less(x, x))
    && (forall x, y, z :: less(x, y) && less(y, z) ==> less(x, z))
    && (forall x, y, z :: less(x, z) ==> less(x, y) || less(y, z))
  }

  /** Distinct elements of s never tie. */
  ghost predicate NoTies<T(!new)>(less: (T, T) -> bool, s: seq<T>) {
    forall x, y :: x in s && y in s && x != y ==> less(x, y) || less(y, x)
  }

  ghost predicate Sorted<T>(less: (T, T) -> bool, s: seq<T>) {
    forall i, j :: 0 <= i < j < |s| ==> !less(s[j], s[i])
  }

  /** Puts x before the first element that is not below it. */
  function Insert<T>(less: (T, T) -> bool, x: T, s: seq<T>): (r: seq<T>)
    ensures multiset(r) == multiset{x} + multiset(s)
  {
    if s == [] || !less(s[0], x) then [x] + s
    else
      assert s == [s[0]] + s[1..];
      [s[0]] + Insert(less, x, s[1..])
  }

  /** A stable sort: an element stays ahead of every later one it ties with. */
  function Sort<T>(less: (T, T) -> bool, s: seq<T>): (r: seq<T>)
    ensures multiset(r) == multiset(s)
    ensures |r| == |s|
  {
    if s == [] then []
    else
      assert s == [s[0]] + s[1..];
      assert |Insert(less, s[0], Sort(less, s[1..]))| == |multiset(s)|;
      Insert(less, s[0], Sort(less, s[1..]))
  }

  lemma {:induction false} SameMembers<T>(a: seq<T>, b: seq<T>)
    requires multiset(a) == multiset(b)
    ensures |a| == |b|
    ensures forall x :: x in a <==> x in b
  {
    assert |a| == |multiset(a)| && |b| == |multiset(b)|;
    forall x ensures x in a <==> x in b {
      assert x in a <==> x in multiset(a);
      assert x in b <==> x in multiset(b);
    }
  }

  lemma {:induction false} InsertSorted<T(!new)>(less: (T, T) -> bool, x: T, s: seq<T>)
    requires StrictWeakOrder(less) && Sorted(less, s)
    ensures Sorted(less, Insert(less, x, s))
  {
    var r := Insert(less, x, s);
    if s == [] {
    } else if !less(s[0], x) {
      forall j | 0 <= j < |s| ensures !less(s[j], x) {
        var y, head := s[j], s[0];
        assert less(y, x) ==> less(y, head) || less(head, x);
      }
    } else {
      var tail := Insert(less, x, s[1..]);
      InsertSorted(less, x, s[1..]);
      SameMembers(tail, [x] + s[1..]);
      forall j | 0 < j < |r| ensures !less(r[j], r[0]) {
        assert r[j] == tail[j - 1];
        assert tail[j - 1] in [x] + s[1..];
        if tail[j - 1] == x {
        } else {
          assert tail[j - 1] in s[1..];
        }
      }
      forall i, j | 0 <= i < j < |r| ensures !less(r[j], r[i]) {
        if i > 0 {
          assert r[i] == tail[i - 1] && r[j] == tail[j - 1];
        }
      }
    }
  }

  lemma {:induction false} SortSorted<T(!new)>(less: (T, T) -> bool, s: seq<T>)
    requires StrictWeakOrder(less)
    ensures Sorted(less, Sort(less, s))
  {
    if s != [] {
      SortSorted(less, s[1..]);
      InsertSorted(less, s[0], Sort(less, s[1..]));
    }
  }

  lemma {:induction false} SortedSameHead<T(!new)>(less: (T, T) -> bool, a: seq<T>, b: seq<T>)
    requires NoTies(less, a) && Sorted(less, a) && Sorted(less, b)
    requires forall x :: x in a <==> x in b
    requires a != []
    ensures b != [] && a[0] == b[0]
  {
    assert a[0] in b;
    assert b[0] in a;
    var i :| 0 <= i < |a| && a[i] == b[0];
    var j :| 0 <= j < |b| && b[j] == a[0];
  }

  lemma {:induction false} TailMultiset<T>(a: seq<T>, b: seq<T>)
    requires multiset(a) == multiset(b) && a != [] && b != [] && a[0] == b[0]
    ensures multiset(a[1..]) == multiset(b[1..])
  {
    assert a == [a[0]] + a[1..] && b == [b[0]] + b[1..];
    assert multiset(a[1..]) == multiset(a) - multiset{a[0]};
    assert multiset(b[1..]) == multiset(b) - multiset{b[0]};
  }

  /** Two sorted orders of the same tie-free elements are the same order. */
  lemma {:induction false} SortedUnique<T(!new)>(less: (T, T) -> bool, a: seq<T>, b: seq<T>)
    requires NoTies(less, a) && Sorted(less, a) && Sorted(less, b)
    requires multiset(a) == multiset(b)
    ensures a == b
  {
    SameMembers(a, b);
    if a != [] {
      SortedSameHead(less, a, b);
      TailMultiset(a, b);
      SortedUnique(less, a[1..], b[1..]);
      assert a == [a[0]] + a[1..] && b == [b[0]] + b[1..];
    }
  }

  ghost predicate NoRepeats<T>(s: seq<T>) {
    forall i, j :: 0 <= i < j < |s| ==> s[i] != s[j]
  }

  lemma {:induction false} OccursTwice<T>(s: seq<T>, i: nat, j: nat)
    requires i < j < |s| && s[i] == s[j]
    ensures multiset(s)[s[i]] >= 2
  {
    assert s == s[..i] + [s[i]] + s[i + 1..j] + [s[j]] + s[j + 1..];
  }

  /** Repeats show in the multiset, and only repeats do. */
  lemma {:induction false} NoRepeatsCounts<T>(s: seq<T>)
    ensures NoRepeats(s) <==> forall x :: multiset(s)[x] <= 1
  {
    if forall x :: multiset(s)[x] <= 1 {
      forall i, j | 0 <= i < j < |s| ensures s[i] != s[j] {
        if s[i] == s[j] {
          OccursTwice(s, i, j);
        }
      }
    }
    if NoRepeats(s) && s != [] {
      NoRepeatsCounts(s[1..]);
      assert s == [s[0]] + s[1..];
      assert s[0] !in s[1..];
    }
  }

  /** Without repeats, the same members in order are the same sequence. */
  lemma {:induction false} SortedSameMembers<T(!new)>(less: (T, T) -> bool, a: seq<T>, b: seq<T>)
    requires NoTies(less, a) && Sorted(less, a) && Sorted(less, b) && NoRepeats(a) && NoRepeats(b)
    requires forall x :: x in a <==> x in b
    ensures a == b
  {
    if a == [] {
      forall x ensures x !in multiset(b) {
        assert x !in a && x !in b;
      }
      assert multiset(b) == multiset{} && |b| == |multiset(b)|;
    } else {
      SortedSameHead(less, a, b);
      forall x ensures x in a[1..] <==> x in b[1..] {
        assert x in a[1..] ==> x in a && x != a[0];
        assert x in b[1..] ==> x in b && x != b[0];
      }
      SortedSameMembers(less, a[1..], b[1..]);
      assert a == [a[0]] + a[1..] && b == [b[0]] + b[1..];
    }
  }

  /** Sorting forgets the order its input arrived in. */
  lemma {:induction false} SortForgetsOrder<T(!new)>(less: (T, T) -> bool, a: seq<T>, b: seq<T>)
    requires StrictWeakOrder(less) && NoTies(less, a)
    requires multiset(a) == multiset(b)
    ensures Sort(less, a) == Sort(less, b)
  {
    SortSorted(less, a);
    SortSorted(less, b);
    SameMembers(a, Sort(less, a));
    SortedUnique(less, Sort(less, a), Sort(less, b));
  }

  /** The elements of s that tie with x, in the order s holds them. */
  function Ties<T>(less: (T, T) -> bool, x: T, s: seq<T>): seq<T> {
    if s == [] then []
    else if !less(x, s[0]) && !less(s[0], x) then [s[0]] + Ties(less, x, s[1..])
    else Ties(less, x, s[1..])
  }

  /** r orders s, and ties keep the order they had: the whole contract of a
      stable sort. */
  ghost predicate IsStableSortOf<T(!new)>(less: (T, T) -> bool, s: seq<T>, r: seq<T>) {
    && Sorted(less, r)
    && |r| == |s|
    && forall x :: Ties(less, x, r) == Ties(less, x, s)
  }

  lemma {:induction false} InsertTies<T(!new)>(less: (T, T) -> bool, y: T, x: T, s: seq<T>)
    requires StrictWeakOrder(less)
    ensures Ties(less, y, Insert(less, x, s)) == Ties(less, y, [x] + s)
  {
    assert ([x] + s)[1..] == s;
    if s == [] || !less(s[0], x) {
    } else {
      InsertTies(less, y, x, s[1..]);
      assert ([x] + s[1..])[1..] == s[1..];
      var r := [s[0]] + Insert(less, x, s[1..]);
      assert r[1..] == Insert(less, x, s[1..]);
      // s[0] < x, so at most one of the two ties with y.
    }
  }

  lemma {:induction false} SortTies<T(!new)>(less: (T, T) -> bool, y: T, s: seq<T>)
    requires StrictWeakOrder(less)
    ensures Ties(less, y, Sort(less, s)) == Ties(less, y, s)
  {
    if s != [] {
      SortTies(less, y, s[1..]);
      InsertTies(less, y, s[0], Sort(less, s[1..]));
      assert ([s[0]] + Sort(less, s[1..]))[1..] == Sort(less, s[1..]);
    }
  }

  lemma {:induction false} TiesMember<T(!new)>(less: (T, T) -> bool, x: T, s: seq<T>)
    requires StrictWeakOrder(less)
    ensures forall t :: t in Ties(less, x, s) ==> t in s && !less(x, t) && !less(t, x)
    ensures x in s ==> x in Ties(less, x, s)
  {
    if s != [] {
      TiesMember(less, x, s[1..]);
    }
  }

  /** The head of a sorted sequence is at or below every element of it. */
  lemma {:induction false} SameTiesSameHead<T(!new)>(less: (T, T) -> bool, a: seq<T>, b: seq<T>)
    requires StrictWeakOrder(less) && Sorted(less, a) && Sorted(less, b)
    requires a != [] && b != []
    requires forall x :: Ties(less, x, a) == Ties(less, x, b)
    ensures a[0] == b[0]
  {
    TiesMember(less, a[0], a);
    TiesMember(less, a[0], b);
    TiesMember(less, b[0], b);
    TiesMember(less, b[0], a);
    assert a[0] in b && b[0] in a;
    assert !less(a[0], b[0]) && !less(b[0], a[0]);
    assert Ties(less, a[0], a)[0] == a[0];
    assert Ties(less, a[0], b)[0] == b[0];
  }

  lemma {:induction false} SortedSameTies<T(!new)>(less: (T, T) -> bool, a: seq<T>, b: seq<T>)
    requires StrictWeakOrder(less) && Sorted(less, a) && Sorted(less, b)
    requires |a| == |b|
    requires forall x :: Ties(less, x, a) == Ties(less, x, b)
    ensures a == b
  {
    if a != [] {
      SameTiesSameHead(less, a, b);
      forall x ensures Ties(less, x, a[1..]) == Ties(less, x, b[1..]) {
        assert Ties(less, x, a) == Ties(less, x, b);
        if !less(x, a[0]) && !less(a[0], x) {
          assert Ties(less, x, a[1..]) == Ties(less, x, a)[1..];
          assert Ties(less, x, b[1..]) == Ties(less, x, b)[1..];
        }
      }
      SortedSameTies(less, a[1..], b[1..]);
      assert a == [a[0]] + a[1..] && b == [b[0]] + b[1..];
    }
  }

  /** Sort is the stable sort: r meets the contract if and only if r is Sort(s). */
  lemma {:induction false} StableSortUnique<T(!new)>(less: (T, T) -> bool, s: seq<T>, r: seq<T>)
    requires StrictWeakOrder(less)
    ensures IsStableSortOf(less, s, r) <==> r == Sort(less, s)
  {
    SortSorted(less, s);
    forall x ensures Ties(less, x, Sort(less, s)) == Ties(less, x, s) {
      SortTies(less, x, s);
    }
    if IsStableSortOf(less, s, r) {
      SortedSameTies(less, r, Sort(less, s));
    }
  }
}

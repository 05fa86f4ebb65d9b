/**
 Python's `sorted` and `sorted(set(...))`, and its order on strings.

 Both sorts are pinned down completely: a sequence that is sorted under a total order is
 determined by its multiset of elements, and a strictly sorted one by its set of elements.
 */
module Ordering {

  /** An order by a key: two values may share a key. */
  ghost predicate TotalPreorder<T(!new)>(le: (T, T) -> bool)
  {
    && (forall x, y :: le(x, y) || le(y, x))
    && (forall x, y, z :: le(x, y) && le(y, z) ==> le(x, z))
  }

  ghost predicate TotalOrder<T(!new)>(le: (T, T) -> bool)
  {
    && TotalPreorder(le)
    && (forall x, y :: le(x, y) && le(y, x) ==> x == y)
  }

  /** Equal keys mean equal values, among the values of `s`. */
  ghost predicate KeysTell<T>(s: seq<T>, le: (T, T) -> bool)
  {
    forall x, y :: x in s && y in s && le(x, y) && le(y, x) ==> x == y
  }

  /** `x` comes no later than anything in `s`. */
  ghost predicate Below<T>(x: T, s: seq<T>, le: (T, T) -> bool)
  {
    forall y :: y in s ==> le(x, y)
  }

  ghost predicate Sorted<T>(s: seq<T>, le: (T, T) -> bool)
  {
    s == [] || (Below(s[0], s[1..], le) && Sorted(s[1..], le))
  }

  ghost predicate Distinct<T>(s: seq<T>)
  {
    s == [] || (s[0] !in s[1..] && Distinct(s[1..]))
  }

  ghost function Elements<T>(s: seq<T>): set<T>
  {
    set x | x in s
  }

  lemma ElementsUnion<T>(a: seq<T>, b: seq<T>)
    ensures Elements(a + b) == Elements(a) + Elements(b)
  {
  }

  lemma ElementsOne<T>(x: T)
    ensures Elements([x]) == {x}
  {
  }

  function Insert<T>(x: T, s: seq<T>, le: (T, T) -> bool): seq<T>
  {
    if s == [] then [x]
    else if le(x, s[0]) then [x] + s
    else [s[0]] + Insert(x, s[1..], le)
  }

  /** `sorted(s)` */
  function Sort<T>(s: seq<T>, le: (T, T) -> bool): seq<T>
  {
    if s == [] then [] else Insert(s[0], Sort(s[1..], le), le)
  }

  function InsertNew<T(==)>(x: T, s: seq<T>, le: (T, T) -> bool): seq<T>
  {
    if s == [] then [x]
    else if x == s[0] then s
    else if le(x, s[0]) then [x] + s
    else [s[0]] + InsertNew(x, s[1..], le)
  }

  /** `sorted(set(s))` */
  function SortSet<T(==)>(s: seq<T>, le: (T, T) -> bool): seq<T>
  {
    if s == [] then [] else InsertNew(s[0], SortSet(s[1..], le), le)
  }

  // ---- sorted -----------------------------------------------------------------------

  lemma {:induction false} InsertCorrect<T(!new)>(x: T, s: seq<T>, le: (T, T) -> bool)
    requires TotalPreorder(le) && Sorted(s, le)
    ensures Sorted(Insert(x, s, le), le)
    ensures multiset(Insert(x, s, le)) == multiset(s) + multiset{x}
  {
    if s == [] {
    } else if le(x, s[0]) {
      assert ([x] + s)[1..] == s;
      assert s == [s[0]] + s[1..];
      assert Below(x, s, le);
    } else {
      var t, r := s[1..], Insert(x, s[1..], le);
      InsertCorrect(x, t, le);
      assert s == [s[0]] + t;
      assert ([s[0]] + r)[1..] == r;
      assert Below(s[0], r, le) by {
        forall y | y in r
          ensures le(s[0], y)
        {
          assert y in multiset(r);
          assert y == x || y in t;
        }
      }
      assert multiset([s[0]] + r) == multiset{s[0]} + multiset(r);
      assert multiset(s) == multiset{s[0]} + multiset(t);
    }
  }

  lemma {:induction false} SortCorrect<T(!new)>(s: seq<T>, le: (T, T) -> bool)
    requires TotalPreorder(le)
    ensures Sorted(Sort(s, le), le)
    ensures multiset(Sort(s, le)) == multiset(s)
  {
    if s != [] {
      SortCorrect(s[1..], le);
      InsertCorrect(s[0], Sort(s[1..], le), le);
      assert s == [s[0]] + s[1..];
    }
  }

  lemma SortMembers<T(!new)>(s: seq<T>, le: (T, T) -> bool, x: T)
    requires TotalPreorder(le)
    ensures x in Sort(s, le) <==> x in s
  {
    SortCorrect(s, le);
    assert x in Sort(s, le) <==> x in multiset(Sort(s, le));
    assert x in s <==> x in multiset(s);
  }

  /** A sorted sequence is determined by what it contains. */
  lemma {:induction false} SortedIsUnique<T(!new)>(a: seq<T>, b: seq<T>, le: (T, T) -> bool)
    requires TotalPreorder(le)
    requires Sorted(a, le) && Sorted(b, le)
    requires KeysTell(a, le) && multiset(a) == multiset(b)
    ensures a == b
  {
    assert |a| == |multiset(a)| == |b|;
    if a != [] {
      assert b[0] in multiset(a) && a[0] in multiset(b);
      assert b[0] in a && a[0] in b;
      HeadIsLeast(a, b[0], le);
      HeadIsLeast(b, a[0], le);
      assert a[0] == b[0];
      TailMultiset(a);
      TailMultiset(b);
      assert KeysTell(a[1..], le) by { assert forall x :: x in a[1..] ==> x in a; }
      SortedIsUnique(a[1..], b[1..], le);
      assert a == [a[0]] + a[1..] && b == [b[0]] + b[1..];
    }
  }

  lemma TailMultiset<T>(s: seq<T>)
    requires s != []
    ensures multiset(s[1..]) == multiset(s) - multiset{s[0]}
  {
    assert s == [s[0]] + s[1..];
  }

  /** Sorting neither adds nor removes repetitions. */
  lemma {:induction false} SortDistinct<T(!new)>(s: seq<T>, le: (T, T) -> bool)
    requires TotalPreorder(le) && Distinct(s)
    ensures Distinct(Sort(s, le))
  {
    if s != [] {
      SortDistinct(s[1..], le);
      SortMembers(s[1..], le, s[0]);
      InsertDistinct(s[0], Sort(s[1..], le), le);
    }
  }

  lemma {:induction false} InsertDistinct<T(!new)>(x: T, s: seq<T>, le: (T, T) -> bool)
    requires Distinct(s) && x !in s
    ensures Distinct(Insert(x, s, le))
    ensures forall y :: y in Insert(x, s, le) <==> y == x || y in s
  {
    if s == [] {
    } else if le(x, s[0]) {
      assert ([x] + s)[1..] == s;
    } else {
      InsertDistinct(x, s[1..], le);
      var r := Insert(x, s[1..], le);
      assert ([s[0]] + r)[1..] == r;
      assert s == [s[0]] + s[1..];
    }
  }

  lemma HeadIsLeast<T(!new)>(s: seq<T>, x: T, le: (T, T) -> bool)
    requires TotalPreorder(le) && Sorted(s, le) && x in s
    ensures s != [] && le(s[0], x)
  {
    assert s == [s[0]] + s[1..];
  }

  // ---- sorted(set(...)) -------------------------------------------------------------

  lemma {:induction false} InsertNewCorrect<T(!new)>(x: T, s: seq<T>, le: (T, T) -> bool)
    requires TotalOrder(le) && Sorted(s, le) && Distinct(s)
    ensures Sorted(InsertNew(x, s, le), le) && Distinct(InsertNew(x, s, le))
    ensures Elements(InsertNew(x, s, le)) == Elements(s) + {x}
  {
    if s == [] || x == s[0] {
    } else if le(x, s[0]) {
      assert ([x] + s)[1..] == s;
      assert s == [s[0]] + s[1..];
      assert Below(x, s, le);
      assert x !in s;
    } else {
      var t, r := s[1..], InsertNew(x, s[1..], le);
      InsertNewCorrect(x, t, le);
      assert s == [s[0]] + t;
      assert ([s[0]] + r)[1..] == r;
      assert Below(s[0], r, le) && s[0] !in r by {
        forall y | y in r
          ensures le(s[0], y) && y != s[0]
        {
          assert y in Elements(r);
          assert y == x || y in t;
        }
      }
      assert Elements([s[0]] + r) == {s[0]} + Elements(r);
    }
  }

  lemma {:induction false} SortSetCorrect<T(!new)>(s: seq<T>, le: (T, T) -> bool)
    requires TotalOrder(le)
    ensures Sorted(SortSet(s, le), le) && Distinct(SortSet(s, le))
    ensures Elements(SortSet(s, le)) == Elements(s)
  {
    if s != [] {
      SortSetCorrect(s[1..], le);
      InsertNewCorrect(s[0], SortSet(s[1..], le), le);
      assert s == [s[0]] + s[1..];
    }
  }

  /** A strictly sorted sequence is determined by its set of elements. */
  lemma {:induction false} StrictlySortedIsUnique<T(!new)>(a: seq<T>, b: seq<T>, le: (T, T) -> bool)
    requires TotalPreorder(le) && KeysTell(a, le)
    requires Sorted(a, le) && Sorted(b, le) && Distinct(a) && Distinct(b)
    requires Elements(a) == Elements(b)
    ensures a == b
  {
    assert forall x :: x in a <==> x in Elements(a);
    assert forall x :: x in b <==> x in Elements(b);
    assert a == [] <==> b == [] by {
      if a != [] { assert a[0] in Elements(b); }
      if b != [] { assert b[0] in Elements(a); }
    }
    if a != [] && b != [] {
      assert b[0] in a && a[0] in b;
      HeadIsLeast(a, b[0], le);
      HeadIsLeast(b, a[0], le);
      assert a == [a[0]] + a[1..] && b == [b[0]] + b[1..];
      assert Elements(a[1..]) == Elements(a) - {a[0]};
      assert Elements(b[1..]) == Elements(b) - {b[0]};
      StrictlySortedIsUnique(a[1..], b[1..], le);
    }
  }

  // ---- strings ----------------------------------------------------------------------

  /** Python's `a <= b` on strings: code points, compared left to right. */
  predicate StringLe(a: string, b: string)
  {
    if a == [] then true
    else if b == [] then false
    else if a[0] == b[0] then StringLe(a[1..], b[1..])
    else a[0] < b[0]
  }

  lemma {:induction false} StringLeTotal(a: string, b: string)
    ensures StringLe(a, b) || StringLe(b, a)
    ensures StringLe(a, b) && StringLe(b, a) ==> a == b
  {
    if a != [] && b != [] && a[0] == b[0] {
      StringLeTotal(a[1..], b[1..]);
      assert a == [a[0]] + a[1..] && b == [b[0]] + b[1..];
    }
  }

  lemma {:induction false} StringLeTransitive(a: string, b: string, c: string)
    requires StringLe(a, b) && StringLe(b, c)
    ensures StringLe(a, c)
  {
    if a != [] && a[0] == b[0] == c[0] {
      StringLeTransitive(a[1..], b[1..], c[1..]);
    }
  }

  lemma StringOrder()
    ensures TotalOrder(StringLe)
  {
    forall a: string, b: string ensures (StringLe(a, b) || StringLe(b, a)) { StringLeTotal(a, b); }
    forall a: string, b: string | StringLe(a, b) && StringLe(b, a) ensures a == b { StringLeTotal(a, b); }
    forall a: string, b: string, c: string | StringLe(a, b) && StringLe(b, c) ensures StringLe(a, c) {
      StringLeTransitive(a, b, c);
    }
  }
}

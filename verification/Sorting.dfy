/** Python's `sorted`: total orders on strings and lists, and why a sorted result is unique. */
module Sorting {

  // ---- Lexicographic order by code point ------------------------------------------------

  predicate StringLe(a: string, b: string) {
    a == [] || (b != [] && (a[0] < b[0] || (a[0] == b[0] && StringLe(a[1..], b[1..]))))
  }

  lemma {:induction false} StringTotal(a: string, b: string)
    ensures StringLe(a, b) || StringLe(b, a)
    ensures StringLe(a, b) && StringLe(b, a) ==> a == b
  {
    if a != [] && b != [] {
      StringTotal(a[1..], b[1..]);
      assert a == [a[0]] + a[1..] && b == [b[0]] + b[1..];
    }
  }

  lemma {:induction false} StringTransitive(a: string, b: string, c: string)
    requires StringLe(a, b) && StringLe(b, c)
    ensures StringLe(a, c)
  {
    if a != [] && b != [] && c != [] && a[0] == b[0] && b[0] == c[0] {
      StringTransitive(a[1..], b[1..], c[1..]);
    }
  }

  predicate ListLe(a: seq<string>, b: seq<string>) {
    a == [] || (b != [] && (if a[0] == b[0] then ListLe(a[1..], b[1..]) else StringLe(a[0], b[0])))
  }

  lemma {:induction false} ListTotal(a: seq<string>, b: seq<string>)
    ensures ListLe(a, b) || ListLe(b, a)
    ensures ListLe(a, b) && ListLe(b, a) ==> a == b
  {
    if a != [] && b != [] {
      StringTotal(a[0], b[0]);
      ListTotal(a[1..], b[1..]);
      assert a == [a[0]] + a[1..] && b == [b[0]] + b[1..];
    }
  }

  lemma {:induction false} ListTransitive(a: seq<string>, b: seq<string>, c: seq<string>)
    requires ListLe(a, b) && ListLe(b, c)
    ensures ListLe(a, c)
  {
    if a != [] && b != [] && c != [] {
      if a[0] == b[0] && b[0] == c[0] {
        ListTransitive(a[1..], b[1..], c[1..]);
      } else {
        StringTotal(a[0], b[0]);
        StringTotal(b[0], c[0]);
        if a[0] != b[0] && b[0] != c[0] {
          StringTransitive(a[0], b[0], c[0]);
        }
      }
    }
  }

  // ---- Sorting by any total order -------------------------------------------------------

  ghost predicate TotalOrder<T(!new)>(le: (T, T) -> bool) {
    && (forall a, b :: le(a, b) || le(b, a))
    && (forall a, b :: le(a, b) && le(b, a) ==> a == b)
    && (forall a, b, c :: le(a, b) && le(b, c) ==> le(a, c))
  }

  ghost predicate SortedBy<T(!new)>(le: (T, T) -> bool, s: seq<T>) {
    forall i, j :: 0 <= i < j < |s| ==> le(s[i], s[j])
  }

  function Insert<T(!new)>(le: (T, T) -> bool, x: T, s: seq<T>): seq<T> {
    if s == [] || le(x, s[0]) then [x] + s else [s[0]] + Insert(le, x, s[1..])
  }

  function Sort<T(!new)>(le: (T, T) -> bool, s: seq<T>): seq<T> {
    if s == [] then [] else Insert(le, s[0], Sort(le, s[1..]))
  }

  lemma {:induction false} InsertSorts<T(!new)>(le: (T, T) -> bool, x: T, s: seq<T>)
    requires TotalOrder(le) && SortedBy(le, s)
    ensures SortedBy(le, Insert(le, x, s))
    ensures multiset(Insert(le, x, s)) == multiset(s) + multiset{x}
  {
    if s == [] {
    } else if le(x, s[0]) {
      assert forall k :: 0 <= k < |s| ==> le(x, s[k]);
    } else {
      InsertSorts(le, x, s[1..]);
      var rest := Insert(le, x, s[1..]);
      assert s == [s[0]] + s[1..];
      forall k | 0 <= k < |rest| ensures le(s[0], rest[k]) {
        assert rest[k] in multiset(rest);
        assert rest[k] in s[1..] || rest[k] == x;
      }
    }
  }

  lemma {:induction false} SortSorts<T(!new)>(le: (T, T) -> bool, s: seq<T>)
    requires TotalOrder(le)
    ensures SortedBy(le, Sort(le, s)) && multiset(Sort(le, s)) == multiset(s) && |Sort(le, s)| == |s|
  {
    if s != [] {
      SortSorts(le, s[1..]);
      InsertSorts(le, s[0], Sort(le, s[1..]));
      assert s == [s[0]] + s[1..];
      assert |multiset(Sort(le, s))| == |multiset(s)|;
    }
  }

  /** Two sorted sequences with the same elements are the same sequence. */
  lemma {:induction false} SortedUnique<T(!new)>(le: (T, T) -> bool, a: seq<T>, b: seq<T>)
    requires TotalOrder(le) && SortedBy(le, a) && SortedBy(le, b) && multiset(a) == multiset(b)
    ensures a == b
  {
    assert |multiset(a)| == |a| && |multiset(b)| == |b|;
    if a != [] {
      SameHead(le, a, b);
      RestMultiset(a);
      RestMultiset(b);
      SortedUnique(le, a[1..], b[1..]);
      assert a == [a[0]] + a[1..] && b == [b[0]] + b[1..];
    }
  }

  lemma SameHead<T(!new)>(le: (T, T) -> bool, a: seq<T>, b: seq<T>)
    requires TotalOrder(le) && SortedBy(le, a) && SortedBy(le, b) && multiset(a) == multiset(b)
    requires a != [] && b != []
    ensures a[0] == b[0]
  {
    assert a[0] in multiset(b) && b[0] in multiset(a);
    assert a[0] in b && b[0] in a;
    assert le(a[0], b[0]) && le(b[0], a[0]);
  }

  lemma RestMultiset<T>(a: seq<T>)
    requires a != []
    ensures multiset(a[1..]) == multiset(a) - multiset{a[0]}
  {
    assert a == [a[0]] + a[1..];
  }

  lemma SortFixed<T(!new)>(le: (T, T) -> bool, s: seq<T>)
    requires TotalOrder(le) && SortedBy(le, s)
    ensures Sort(le, s) == s
  {
    SortSorts(le, s);
    SortedUnique(le, Sort(le, s), s);
  }

  lemma SortPermutation<T(!new)>(le: (T, T) -> bool, a: seq<T>, b: seq<T>)
    requires TotalOrder(le) && multiset(a) == multiset(b)
    ensures Sort(le, a) == Sort(le, b)
  {
    SortSorts(le, a);
    SortSorts(le, b);
    SortedUnique(le, Sort(le, a), Sort(le, b));
  }

  lemma StringsOrdered()
    ensures TotalOrder(StringLe)
  {
    forall a, b ensures StringLe(a, b) || StringLe(b, a)
      ensures StringLe(a, b) && StringLe(b, a) ==> a == b {
      StringTotal(a, b);
    }
    forall a, b, c | StringLe(a, b) && StringLe(b, c) ensures StringLe(a, c) {
      StringTransitive(a, b, c);
    }
  }

  // ---- Sorting a set --------------------------------------------------------------------

  /** `sorted(set)`: the strictly increasing sequence of its members. */
  ghost predicate SortedSetOf(r: seq<string>, s: set<string>) {
    && SortedBy(StringLe, r)
    && (forall i, j :: 0 <= i < j < |r| ==> r[i] != r[j])
    && (forall x :: x in r <==> x in s)
  }

  lemma {:induction false} DistinctMultiset(r: seq<string>)
    requires forall i, j :: 0 <= i < j < |r| ==> r[i] != r[j]
    ensures multiset(r) == multiset(set x <- r)
  {
    if r != [] {
      var k := |r| - 1;
      DistinctMultiset(r[..k]);
      assert r == r[..k] + [r[k]];
      assert r[k] !in r[..k];
      assert (set x <- r) == (set x <- r[..k]) + {r[k]};
    }
  }

  lemma SortedSetUnique(a: seq<string>, b: seq<string>, s: set<string>)
    requires SortedSetOf(a, s) && SortedSetOf(b, s)
    ensures a == b
  {
    DistinctMultiset(a);
    DistinctMultiset(b);
    assert (set x <- a) == s && (set x <- b) == s;
    StringsOrdered();
    SortedUnique(StringLe, a, b);
  }

  method SortSet(s: set<string>) returns (r: seq<string>)
    ensures SortedSetOf(r, s)
  {
    StringsOrdered();
    r := [];
    var rest := s;
    while rest != {}
      invariant rest <= s && SortedSetOf(r, s - rest)
      decreases rest
    {
      var x :| x in rest;
      InsertSorts(StringLe, x, r);
      InsertDistinct(x, r);
      r := Insert(StringLe, x, r);
      rest := rest - {x};
    }
  }

  lemma SimpleIsDistinct(t: seq<string>)
    requires forall y :: multiset(t)[y] <= 1
    ensures forall i, j :: 0 <= i < j < |t| ==> t[i] != t[j]
  {
    forall i, j | 0 <= i < j < |t| ensures t[i] != t[j] {
      assert t == t[..j] + t[j..];
      assert t[i] in t[..j] && t[j] in t[j..];
      assert multiset(t)[t[i]] == multiset(t[..j])[t[i]] + multiset(t[j..])[t[i]];
    }
  }

  lemma InsertDistinct(x: string, r: seq<string>)
    requires SortedBy(StringLe, r) && x !in r
    requires forall i, j :: 0 <= i < j < |r| ==> r[i] != r[j]
    ensures var t := Insert(StringLe, x, r);
            && (forall i, j :: 0 <= i < j < |t| ==> t[i] != t[j])
            && (forall y :: y in t <==> y in r || y == x)
  {
    StringsOrdered();
    InsertSorts(StringLe, x, r);
    hide Insert, SortedBy, TotalOrder;
    var t := Insert(StringLe, x, r);
    DistinctMultiset(r);
    assert x !in multiset(r);
    assert forall y :: y in t <==> y in multiset(t);
    assert forall y :: multiset(r)[y] <= 1;
    SimpleIsDistinct(t);
  }

  /** The one sorted sequence of a set's members. */
  ghost function SortedSeq(s: set<string>): (r: seq<string>)
    ensures SortedSetOf(r, s)
  {
    if s == {} then [] else
    var x :| x in s;
    var rest := SortedSeq(s - {x});
    StringsOrdered();
    InsertSorts(StringLe, x, rest);
    InsertDistinct(x, rest);
    Insert(StringLe, x, rest)
  }
}

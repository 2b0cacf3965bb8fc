/** Shared vocabulary: optional values, JavaScript's insertion-ordered `Map`, and its stable `sort`. */
module Prelude {

  datatype Option<+T> = None | Some(value: T)

  /** `Date.now()`: milliseconds since 1970, so always positive. */
  type Clock = t: int | t > 0 witness 1

  function Min(a: int, b: int): int { if a <= b then a else b }

  function Max(a: int, b: int): int { if a >= b then a else b }

  /** JavaScript's `Math.round`: the nearest integer, halves going up. */
  function Round(x: real): int { (x + 0.5).Floor }

  ghost predicate NoDup<T>(s: seq<T>) {
    forall i, j :: 0 <= i < j < |s| ==> s[i] != s[j]
  }

  function Filter<T(!new)>(p: T -> bool, s: seq<T>): (r: seq<T>)
    ensures forall x :: x in r <==> x in s && p(x)
    ensures |r| <= |s|
  {
    if s == [] then []
    else if p(s[0]) then [s[0]] + Filter(p, s[1..])
    else Filter(p, s[1..])
  }

  lemma {:induction false} FilterNoDup<T(!new)>(p: T -> bool, s: seq<T>)
    requires NoDup(s)
    ensures NoDup(Filter(p, s))
  {
    if s != [] {
      assert forall i, j :: 0 <= i < j < |s[1..]| ==> s[1..][i] == s[i + 1] && s[1..][j] == s[j + 1];
      FilterNoDup(p, s[1..]);
      assert s[0] !in s[1..];
    }
  }

  lemma {:induction false} FilterIncreasing<T(!new)>(p: T -> bool, rank: T -> int, s: seq<T>)
    requires Increasing(rank, s)
    ensures Increasing(rank, Filter(p, s))
  {
    if s != [] {
      assert forall i :: 0 <= i < |s[1..]| ==> s[1..][i] == s[i + 1];
      FilterIncreasing(p, rank, s[1..]);
      forall y | y in Filter(p, s[1..])
        ensures rank(s[0]) < rank(y)
      {
        var i :| 0 <= i < |s[1..]| && s[1..][i] == y;
        assert s[i + 1] == y;
      }
    }
  }

  /** Where an element first occurs in a list. */
  function Place<T(==)>(s: seq<T>, x: T): (r: nat)
    ensures if x in s then r < |s| && s[r] == x else r == |s|
  {
    if s == [] || s[0] == x then 0 else 1 + Place(s[1..], x)
  }

  /** A list without repeats has as many members as entries. */
  lemma {:induction false} NoDupSize<T>(s: seq<T>, members: set<T>)
    requires NoDup(s)
    requires forall x :: x in s ==> x in members
    ensures |s| <= |members|
  {
    if s != [] {
      var n := |s| - 1;
      assert s[n] !in s[..n];
      NoDupSize(s[..n], members - {s[n]});
      assert |members - {s[n]}| == |members| - 1;
    }
  }

  /** An injection into a finite set bounds the size of its domain. */
  lemma {:induction false} InjectionSize<A, B>(a: set<A>, b: set<B>, f: A --> B)
    requires forall x :: x in a ==> f.requires(x) && f(x) in b
    requires forall x, y :: x in a && y in a && f(x) == f(y) ==> x == y
    ensures |a| <= |b|
  {
    if a != {} {
      var x :| x in a;
      InjectionSize(a - {x}, b - {f(x)}, f);
    }
  }

  lemma {:induction false} NoDupMultiset<T>(s: seq<T>)
    ensures NoDup(s) <==> forall x :: x in s ==> multiset(s)[x] == 1
  {
    if s != [] {
      var n := |s| - 1;
      NoDupMultiset(s[..n]);
      assert s == s[..n] + [s[n]];
      assert NoDup(s) <==> NoDup(s[..n]) && s[n] !in s[..n];
      assert multiset(s) == multiset(s[..n]) + multiset{s[n]};
      assert s[n] in s;
      assert forall x :: x in s[..n] ==> x in s;
    }
  }

  // ---------------------------------------------------------------- stable sort

  ghost predicate TotalPreorder<T(!new)>(le: (T, T) -> bool) {
    && (forall a, b :: le(a, b) || le(b, a))
    && (forall a, b, c :: le(a, b) && le(b, c) ==> le(a, c))
  }

  ghost predicate Sorted<T>(le: (T, T) -> bool, s: seq<T>) {
    forall i, j :: 0 <= i < j < |s| ==> le(s[i], s[j])
  }

  /** Puts `x` in front of the first element it is not greater than. */
  function Insert<T>(le: (T, T) -> bool, x: T, s: seq<T>): (r: seq<T>)
    ensures multiset(r) == multiset{x} + multiset(s)
    ensures |r| == |s| + 1
  {
    if s == [] then [x]
    else if le(x, s[0]) then [x] + s
    else
      var rest := Insert(le, x, s[1..]);
      assert s == [s[0]] + s[1..];
      [s[0]] + rest
  }

  /** `Array.prototype.sort`: equal elements keep their order. */
  function StableSort<T>(le: (T, T) -> bool, s: seq<T>): (r: seq<T>)
    ensures multiset(r) == multiset(s)
    ensures |r| == |s|
  {
    if s == [] then []
    else
      assert s == [s[0]] + s[1..];
      Insert(le, s[0], StableSort(le, s[1..]))
  }

  lemma {:induction false} InsertSorted<T(!new)>(le: (T, T) -> bool, x: T, s: seq<T>)
    requires TotalPreorder(le) && Sorted(le, s)
    ensures Sorted(le, Insert(le, x, s))
  {
    if s != [] && !le(x, s[0]) {
      var rest := Insert(le, x, s[1..]);
      InsertSorted(le, x, s[1..]);
      forall y | y in rest
        ensures le(s[0], y)
      {
        assert y in multiset(rest);
        assert y == x || y in s[1..];
      }
    }
  }

  /** The sort really sorts. */
  lemma {:induction false} StableSortSorts<T(!new)>(le: (T, T) -> bool, s: seq<T>)
    requires TotalPreorder(le)
    ensures Sorted(le, StableSort(le, s))
  {
    if s != [] {
      StableSortSorts(le, s[1..]);
      InsertSorted(le, s[0], StableSort(le, s[1..]));
    }
  }

  /** A list that is already in order is left alone; with the previous lemma, exactly those lists are. */
  lemma {:induction false} StableSortFixed<T(!new)>(le: (T, T) -> bool, s: seq<T>)
    requires TotalPreorder(le)
    ensures StableSort(le, s) == s <==> Sorted(le, s)
  {
    StableSortSorts(le, s);
    hide TotalPreorder;
    if Sorted(le, s) && s != [] {
      var rest := s[1..];
      assert forall i :: 0 <= i < |rest| ==> rest[i] == s[i + 1];
      assert Sorted(le, rest);
      StableSortFixed(le, rest);
      assert rest != [] ==> le(s[0], rest[0]);
      assert Insert(le, s[0], rest) == [s[0]] + rest == s;
    }
  }

  ghost predicate Increasing<T>(p: T -> int, s: seq<T>) {
    forall i, j :: 0 <= i < j < |s| ==> p(s[i]) < p(s[j])
  }

  /** `le`, with ties broken by `p`. */
  function Ties<T>(le: (T, T) -> bool, p: T -> int): (T, T) -> bool { (a, b) => le(a, b) && (le(b, a) ==> p(a) <= p(b)) }

  lemma {:induction false} InsertStable<T(!new)>(le: (T, T) -> bool, p: T -> int, x: T, s: seq<T>)
    requires TotalPreorder(le) && Sorted(Ties(le, p), s)
    requires forall y :: y in s ==> p(x) < p(y)
    ensures Sorted(Ties(le, p), Insert(le, x, s))
  {
    if s != [] {
      assert forall i :: 0 < i < |s| ==> Ties(le, p)(s[0], s[i]);
      if le(x, s[0]) {
        forall y | y in s
          ensures Ties(le, p)(x, y)
        {
          assert y == s[0] || le(s[0], y);
        }
      } else {
        var rest := Insert(le, x, s[1..]);
        InsertStable(le, p, x, s[1..]);
        forall y | y in rest
          ensures Ties(le, p)(s[0], y)
        {
          assert y in multiset(rest);
          assert y == x || y in s[1..];
        }
      }
    }
  }

  /** The sort is stable: where `le` ties, elements keep the order they came in, given by `p`. */
  lemma {:induction false} StableSortIsStable<T(!new)>(le: (T, T) -> bool, p: T -> int, s: seq<T>)
    requires TotalPreorder(le) && Increasing(p, s)
    ensures Sorted(Ties(le, p), StableSort(le, s))
  {
    if s != [] {
      assert forall i :: 0 <= i < |s[1..]| ==> s[1..][i] == s[i + 1];
      StableSortIsStable(le, p, s[1..]);
      StableSortMembers(le, s[1..]);
      InsertStable(le, p, s[0], StableSort(le, s[1..]));
    }
  }

  lemma StableSortMembers<T(!new)>(le: (T, T) -> bool, s: seq<T>)
    ensures forall x :: x in StableSort(le, s) <==> x in s
  {
    forall x
      ensures x in StableSort(le, s) <==> x in s
    {
      assert x in StableSort(le, s) <==> x in multiset(StableSort(le, s));
      assert x in s <==> x in multiset(s);
    }
  }

  lemma StableSortNoDup<T(!new)>(le: (T, T) -> bool, s: seq<T>)
    requires NoDup(s)
    ensures NoDup(StableSort(le, s))
  {
    NoDupMultiset(s);
    NoDupMultiset(StableSort(le, s));
    StableSortMembers(le, s);
  }

  /** `r` is `s` put in a stable order: `at` says which element of `s` comes where. */
  ghost predicate PlacedBy<T>(le: (T, T) -> bool, s: seq<T>, r: seq<T>, at: seq<nat>) {
    && |at| == |r|
    && (forall k :: 0 <= k < |r| ==> at[k] < |s| && r[k] == s[at[k]])
    && (forall i :: 0 <= i < |s| ==> i in at)
    && (forall j, k :: 0 <= j < k < |r| ==> le(r[j], r[k]) && (le(r[k], r[j]) ==> at[j] < at[k]))
  }

  /** `r` is `s` with `x` at place `p`. */
  ghost predicate PutAt<T>(s: seq<T>, x: T, p: nat, r: seq<T>) {
    && p <= |s| && |r| == |s| + 1 && r[p] == x
    && (forall k :: 0 <= k < p ==> r[k] == s[k])
    && (forall k :: p < k <= |s| ==> r[k] == s[k - 1])
  }

  /** Where `Insert` puts an element. */
  lemma {:induction false} InsertAt<T>(le: (T, T) -> bool, x: T, s: seq<T>) returns (p: nat)
    ensures PutAt(s, x, p, Insert(le, x, s))
    ensures (forall k :: 0 <= k < p ==> !le(x, s[k])) && (p < |s| ==> le(x, s[p]))
  {
    if s == [] || le(x, s[0]) {
      p := 0;
    } else {
      var q := InsertAt(le, x, s[1..]);
      p := q + 1;
      assert forall k :: 0 < k < |s| ==> s[k] == s[1..][k - 1];
    }
  }

  lemma InsertPlaces<T(!new)>(le: (T, T) -> bool, s: seq<T>, r: seq<T>, before: seq<nat>) returns (at: seq<nat>)
    requires TotalPreorder(le) && s != [] && PlacedBy(le, s[1..], r, before)
    ensures PlacedBy(le, s, Insert(le, s[0], r), at)
  {
    hide Insert;
    var p := InsertAt(le, s[0], r);
    var t := Insert(le, s[0], r);
    InsertOrders(le, s[0], r, p, t);
    var later := seq(|before|, k requires 0 <= k < |before| => before[k] + 1);
    at := later[..p] + [0] + later[p..];
    assert Later(before, p, at);
    ElementsPlaced(le, s, r, before, p, t, at);
    TiesPlaced(le, s, r, before, p, t, at);
    hide TotalPreorder;
  }

  /** The places after an insertion of the first element. */
  ghost predicate Later(before: seq<nat>, p: nat, at: seq<nat>) {
    && p <= |before| && |at| == |before| + 1 && at[p] == 0
    && (forall k :: 0 <= k < p ==> at[k] == before[k] + 1)
    && (forall k :: p < k <= |before| ==> at[k] == before[k - 1] + 1)
  }

  lemma ElementsPlaced<T(!new)>(le: (T, T) -> bool, s: seq<T>, r: seq<T>, before: seq<nat>, p: nat, t: seq<T>, at: seq<nat>)
    requires s != [] && PlacedBy(le, s[1..], r, before) && PutAt(r, s[0], p, t) && Later(before, p, at)
    ensures forall k :: 0 <= k < |t| ==> at[k] < |s| && t[k] == s[at[k]]
    ensures forall i :: 0 <= i < |s| ==> i in at
  {
    forall k | 0 <= k < |t|
      ensures at[k] < |s| && t[k] == s[at[k]]
    {
      if k != p {
        var q := if k < p then k else k - 1;
        assert r[q] == s[1..][before[q]];
      }
    }
    forall i | 0 <= i < |s|
      ensures i in at
    {
      if i > 0 {
        assert i - 1 in before;
        var k :| 0 <= k < |before| && before[k] == i - 1;
        assert at[if k < p then k else k + 1] == i;
      }
    }
  }

  lemma TiesPlaced<T(!new)>(le: (T, T) -> bool, s: seq<T>, r: seq<T>, before: seq<nat>, p: nat, t: seq<T>, at: seq<nat>)
    requires s != [] && PlacedBy(le, s[1..], r, before) && PutAt(r, s[0], p, t) && Later(before, p, at)
    requires forall k :: 0 <= k < p ==> !le(s[0], t[k])
    ensures forall j, k :: 0 <= j < k < |t| && le(t[k], t[j]) ==> at[j] < at[k]
  {
    forall j, k | 0 <= j < k < |t| && le(t[k], t[j])
      ensures at[j] < at[k]
    {
      if k != p && j != p {
        var i, l := if j < p then j else j - 1, if k < p then k else k - 1;
        assert le(r[l], r[i]) ==> before[i] < before[l];
      }
    }
  }

  /** The order, with the new element in front of what it ties with. */
  lemma InsertOrders<T(!new)>(le: (T, T) -> bool, x: T, s: seq<T>, p: nat, r: seq<T>)
    requires TotalPreorder(le) && Sorted(le, s) && PutAt(s, x, p, r)
    requires (forall k :: 0 <= k < p ==> !le(x, s[k])) && (p < |s| ==> le(x, s[p]))
    ensures Sorted(le, r)
    ensures forall k :: 0 <= k < p ==> !le(x, r[k])
  {
    forall j, k | 0 <= j < k < |r|
      ensures le(r[j], r[k])
    {
      if k == p {
        assert !le(x, s[j]);
      } else if j == p {
        assert k - 1 == p || le(s[p], s[k - 1]);
      }
    }
  }

  /** What the sort does, place by place: it orders, keeps every element, and keeps the order of ties. */
  lemma {:induction false} StableSortPlaces<T(!new)>(le: (T, T) -> bool, s: seq<T>) returns (at: seq<nat>)
    requires TotalPreorder(le)
    ensures PlacedBy(le, s, StableSort(le, s), at)
  {
    if s == [] {
      at := [];
    } else {
      var before := StableSortPlaces(le, s[1..]);
      at := InsertPlaces(le, s, StableSort(le, s[1..]), before);
    }
  }

  // ------------------------------------------------------- insertion-ordered map

  /** A JavaScript `Map` with string keys: `keys` lists the keys in insertion order. */
  datatype JsMap<V> = JsMap(keys: seq<string>, at: map<string, V>) {
    ghost predicate Valid() {
      NoDup(keys) && forall k :: k in keys <==> k in at
    }

    function Get(k: string): Option<V> {
      if k in at then Some(at[k]) else None
    }

    /** Overwriting keeps a key's place; a new key goes last. */
    function Set(k: string, v: V): JsMap<V> {
      JsMap(if k in at then keys else keys + [k], at[k := v])
    }

    lemma SetValid(k: string, v: V)
      requires Valid()
      ensures Set(k, v).Valid()
    {
      assert k !in at ==> k !in keys;
    }
  }
}

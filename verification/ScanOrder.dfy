/** The order in which a scan looks at due devices: by due time, and among devices due at the same time by the place of
    their bookkeeping. */
module ScanOrder {
  import opened Prelude

  predicate Precedes(at: string -> int, keys: seq<string>, a: string, b: string) {
    at(a) < at(b) || (at(a) == at(b) && Place(keys, a) < Place(keys, b))
  }

  ghost predicate InTurn(at: string -> int, keys: seq<string>, list: seq<string>) {
    forall i, j :: 0 <= i < j < |list| ==> Precedes(at, keys, list[i], list[j])
  }

  lemma PlacesIncrease(keys: seq<string>, place: string -> int)
    requires NoDup(keys) && forall u :: place(u) == Place(keys, u)
    ensures Increasing(place, keys)
  {
    assert forall i :: 0 <= i < |keys| ==> keys[i] in keys && Place(keys, keys[i]) == i;
  }

  lemma TiesAreTurns(at: string -> int, keys: seq<string>, le: (string, string) -> bool, place: string -> int, list: seq<string>)
    requires (forall a, b :: le(a, b) <==> at(a) <= at(b)) && forall u :: place(u) == Place(keys, u)
    requires Sorted(Ties(le, place), list) && NoDup(list) && forall u :: u in list ==> u in keys
    ensures InTurn(at, keys, list)
  {
    forall i, j | 0 <= i < j < |list|
      ensures Precedes(at, keys, list[i], list[j])
    {
      assert Ties(le, place)(list[i], list[j]);
      assert list[i] in list && list[j] in list && list[i] != list[j];
    }
  }

  /** Filtering the bookkeeping and sorting by due time lists each selected device once, in the order of the scan. */
  lemma ScanList(at: string -> int, keys: seq<string>, p: string -> bool, le: (string, string) -> bool)
    requires NoDup(keys) && forall a, b :: le(a, b) <==> at(a) <= at(b)
    ensures var list := StableSort(le, Filter(p, keys));
      NoDup(list) && InTurn(at, keys, list) && forall u :: u in list <==> u in keys && p(u)
  {
    var place := (u: string) => Place(keys, u) as int;
    var list := Filter(p, keys);
    PlacesIncrease(keys, place);
    hide NoDup;
    hide Increasing;
    hide StableSort;
    hide InTurn;
    FilterNoDup(p, keys);
    StableSortNoDup(le, list);
    StableSortMembers(le, list);
    FilterIncreasing(p, place, keys);
    StableSortIsStable(le, place, list);
    TiesAreTurns(at, keys, le, place, StableSort(le, list));
  }

  /** The part of a list in front of `d`. */
  function Before(list: seq<string>, d: string): (r: seq<string>)
    ensures r <= list && d !in r
    ensures d !in list ==> r == list
    ensures |r| < |list| ==> list[|r|] == d
  {
    if list == [] || list[0] == d then [] else [list[0]] + Before(list[1..], d)
  }

  /** What stands in front of `d` in the scan's list precedes it. */
  lemma FrontPrecedes(at: string -> int, keys: seq<string>, list: seq<string>, front: seq<string>, d: string)
    requires InTurn(at, keys, list) && front <= list && d in list && d !in front
    ensures forall e :: e in front ==> e in list && Precedes(at, keys, e, d)
  {
    hide Precedes;
    var j :| 0 <= j < |list| && list[j] == d;
    assert forall k :: 0 <= k < |front| ==> list[k] == front[k] && front[k] != d;
  }

  /** A device is at the head of the scan's list exactly if it is on it and precedes all others. */
  lemma HeadPrecedes(at: string -> int, keys: seq<string>, list: seq<string>, d: string)
    requires InTurn(at, keys, list) && list != []
    ensures list[0] == d <==> d in list && forall u :: u in list && u != d ==> Precedes(at, keys, d, u)
  {
    if list[0] == d {
      forall u | u in list && u != d
        ensures Precedes(at, keys, d, u)
      {
        var j :| 0 <= j < |list| && list[j] == u;
        assert Precedes(at, keys, list[0], list[j]);
      }
    } else if d in list {
      var j :| 0 <= j < |list| && list[j] == d;
      assert Precedes(at, keys, list[0], list[j]) && list[0] in list;
    }
  }

  lemma PrefixNoDup<T>(front: seq<T>, list: seq<T>)
    requires NoDup(list) && front <= list
    ensures NoDup(front)
  {
    assert forall i :: 0 <= i < |front| ==> front[i] == list[i];
  }

  lemma NoDupAppend<T>(a: seq<T>, b: seq<T>)
    requires NoDup(a) && NoDup(b) && forall x :: x in a ==> x !in b
    ensures NoDup(a + b)
  {
    forall i, j | 0 <= i < j < |a + b|
      ensures (a + b)[i] != (a + b)[j]
    {
      assert i < |a| <= j ==> a[i] in a && b[j - |a|] in b;
    }
  }
}

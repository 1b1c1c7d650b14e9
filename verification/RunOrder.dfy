/** The sorted order in which a run's characters are locked, checked and handed over. */
module RunOrder {
  import opened Common

  /** Strings in lexicographic order, a proper prefix first. */
  predicate Before(a: Id, b: Id) {
    b != "" && (a == "" || a[0] < b[0] || (a[0] == b[0] && Before(a[1..], b[1..])))
  }

  function Insert(id: Id, ids: seq<Id>): seq<Id> {
    if ids == [] || !Before(ids[0], id) then [id] + ids else [ids[0]] + Insert(id, ids[1..])
  }

  function SortedIds(ids: seq<Id>): seq<Id> {
    if ids == [] then [] else Insert(ids[0], SortedIds(ids[1..]))
  }

  ghost predicate InOrder(ids: seq<Id>) {
    forall i, j :: 0 <= i < j < |ids| ==> !Before(ids[j], ids[i])
  }

  lemma {:induction false} OneComesFirst(a: Id, b: Id)
    ensures Before(a, b) ==> !Before(b, a)
    ensures !Before(a, b) && !Before(b, a) ==> a == b
    decreases |a|
  {
    if a != "" && b != "" && a[0] == b[0] {
      OneComesFirst(a[1..], b[1..]);
      assert a == [a[0]] + a[1..] && b == [b[0]] + b[1..];
    }
  }

  lemma {:induction false} BeforeThrough(a: Id, b: Id, c: Id)
    requires Before(a, b) && !Before(c, b)
    ensures Before(a, c)
    decreases |a|
  {
    if a != "" && b != "" && c != "" && a[0] == b[0] == c[0] {
      BeforeThrough(a[1..], b[1..], c[1..]);
    }
  }

  lemma {:induction false} InsertAdds(id: Id, ids: seq<Id>)
    ensures multiset(Insert(id, ids)) == multiset(ids) + multiset{id}
    ensures forall x :: x in Insert(id, ids) <==> x == id || x in ids
    decreases |ids|
  {
    hide Before;
    if ids != [] && Before(ids[0], id) {
      InsertAdds(id, ids[1..]);
      assert ids == [ids[0]] + ids[1..];
    }
  }

  lemma OrderedCons(x: Id, ids: seq<Id>)
    requires InOrder(ids) && forall y :: y in ids ==> !Before(y, x)
    ensures InOrder([x] + ids)
  {
    hide Before;
  }

  lemma {:induction false} InsertKeepsOrder(id: Id, ids: seq<Id>)
    requires InOrder(ids)
    ensures InOrder(Insert(id, ids))
    decreases |ids|
  {
    hide Before;
    if ids == [] {
    } else if Before(ids[0], id) {
      InsertKeepsOrder(id, ids[1..]);
      InsertAdds(id, ids[1..]);
      OneComesFirst(ids[0], id);
      OrderedCons(ids[0], Insert(id, ids[1..]));
    } else {
      forall x | x in ids ensures !Before(x, id) {
        if Before(x, id) {
          BeforeThrough(x, id, ids[0]);
          assert false;
        }
      }
      OrderedCons(id, ids);
    }
  }

  lemma {:induction false} SortedIdsAre(ids: seq<Id>)
    ensures InOrder(SortedIds(ids)) && multiset(SortedIds(ids)) == multiset(ids)
    decreases |ids|
  {
    if ids != [] {
      SortedIdsAre(ids[1..]);
      InsertKeepsOrder(ids[0], SortedIds(ids[1..]));
      InsertAdds(ids[0], SortedIds(ids[1..]));
      assert ids == [ids[0]] + ids[1..];
    }
  }

  lemma {:induction false} CountedOnce(s: seq<Id>)
    ensures NoDuplicates(s) <==> forall x :: x in multiset(s) ==> multiset(s)[x] == 1
    decreases |s|
  {
    if s != [] {
      var n := |s| - 1;
      CountedOnce(s[..n]);
      assert s == s[..n] + [s[n]];
      assert s[n] in s[..n] <==> s[n] in multiset(s[..n]);
      assert NoDuplicates(s) <==> NoDuplicates(s[..n]) && s[n] !in s[..n];
      assert forall x :: multiset(s)[x] == multiset(s[..n])[x] + if x == s[n] then 1 else 0;
    }
  }

  /** The same characters, none twice that was not there twice. */
  lemma SortedIdsKeep(ids: seq<Id>)
    ensures |SortedIds(ids)| == |ids|
    ensures forall id :: id in SortedIds(ids) <==> id in ids
    ensures NoDuplicates(ids) ==> NoDuplicates(SortedIds(ids))
  {
    SortedIdsAre(ids);
    assert |multiset(SortedIds(ids))| == |multiset(ids)|;
    forall id ensures id in SortedIds(ids) <==> id in ids {
      assert id in SortedIds(ids) <==> id in multiset(SortedIds(ids));
      assert id in ids <==> id in multiset(ids);
    }
    CountedOnce(ids);
    CountedOnce(SortedIds(ids));
  }

  lemma OneIsSorted(id: Id)
    ensures SortedIds([id]) == [id]
  {
    assert SortedIds([id][1..]) == [];
  }
}

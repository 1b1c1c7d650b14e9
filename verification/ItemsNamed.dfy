/** Lists of requests that name stacks: when they are met, and what they take from each stack. */
module ItemsNamed {
  import opened Common
  import opened ItemsStock

  // ---------- one request for a named stack ----------

  lemma {:induction false} NoCandidateTakesNothing(snapshot: seq<Instance>, bag: Bag, w: Wanted, remaining: int)
    requires forall i :: 0 <= i < |snapshot| ==> !Candidate(snapshot[i], w)
    ensures Walk(snapshot, bag, w, remaining) == Success((bag, remaining)) && Available(snapshot, w) == 0
    decreases |snapshot|
  {
    hide Candidate, TakeFrom;
    if snapshot != [] {
      NoCandidateTakesNothing(snapshot[1..], bag, w, remaining);
    }
  }

  /** Only stack `k` of the list will do. */
  ghost predicate OnlyOne(snapshot: seq<Instance>, w: Wanted, k: nat) {
    k < |snapshot| && forall i :: 0 <= i < |snapshot| ==> (Candidate(snapshot[i], w) <==> i == k)
  }

  lemma {:induction false} WalkToOne(snapshot: seq<Instance>, bag: Bag, w: Wanted, remaining: int, k: nat)
    requires OnlyOne(snapshot, w, k) && 0 < remaining <= snapshot[k].quantity
    requires TakeFrom(bag, snapshot[k].id, remaining).Success?
    ensures Walk(snapshot, bag, w, remaining) == Success((TakeFrom(bag, snapshot[k].id, remaining).value, 0))
    decreases |snapshot|
  {
    hide Candidate, TakeFrom;
    if k > 0 {
      assert OnlyOne(snapshot[1..], w, k - 1);
      WalkToOne(snapshot[1..], bag, w, remaining, k - 1);
    }
  }

  lemma {:induction false} OneIsAvailable(snapshot: seq<Instance>, w: Wanted, k: nat)
    requires OnlyOne(snapshot, w, k)
    ensures Available(snapshot, w) == snapshot[k].quantity
    decreases |snapshot|
  {
    hide Candidate;
    if k > 0 {
      assert OnlyOne(snapshot[1..], w, k - 1);
      OneIsAvailable(snapshot[1..], w, k - 1);
    } else {
      NoCandidateTakesNothing(snapshot[1..], Bag([], map[]), w, 0);
    }
  }

  lemma NamesOne(items: seq<Instance>, w: Wanted, x: Instance)
    requires WellStocked(items) && x in items && w.instance != NOBODY && Candidate(x, w)
    ensures exists k: nat :: OnlyOne(items, w, k) && items[k] == x
  {
    var k :| 0 <= k < |items| && items[k] == x;
    assert OnlyOne(items, w, k);
  }

  /** The named stack is there, is of the requested definition and holds as much. */
  predicate Holds(items: seq<Instance>, w: Wanted, quantity: int) {
    exists x :: x in items && x.id == w.instance && x.definition == w.definition && quantity <= x.quantity
  }

  /** The stack with this much less; it is gone when nothing is left. */
  ghost predicate Reduced(before: seq<Instance>, after: seq<Instance>, id: Id, quantity: int) {
    && OthersKept(before, after, id)
    && (forall x :: x in before && x.id == id && quantity < x.quantity ==> x.(quantity := x.quantity - quantity) in after)
    && (forall x :: x in before && x.id == id && quantity == x.quantity ==> !Owned(after, id))
  }

  /** A request that names a stack takes exactly its quantity from that stack. */
  lemma NamedRequestTakes(bag: Bag, w: Wanted)
    requires WellStocked(bag.items) && w.instance != NOBODY && w.quantity > 0
    ensures ConsumeWanted(bag, w).Success? <==> Holds(bag.items, w, w.quantity)
    ensures ConsumeWanted(bag, w).Success? ==>
      && WellStocked(ConsumeWanted(bag, w).value.items)
      && Reduced(bag.items, ConsumeWanted(bag, w).value.items, w.instance, w.quantity)
  {
    hide Walk, TakeFrom, Taken, WellStocked, Reduced, ConsumeWanted;
    RequestIsMetIff(bag, w);
    if x :| x in bag.items && x.id == w.instance && x.definition == w.definition {
      NamesOne(bag.items, w, x);
      var k: nat :| OnlyOne(bag.items, w, k) && bag.items[k] == x;
      OneIsAvailable(bag.items, w, k);
      TheOnlyStack(bag.items, x);
      if w.quantity <= x.quantity {
        StackIsReduced(bag, w, k);
      }
    } else {
      NoCandidateTakesNothing(bag.items, bag, w, w.quantity);
    }
  }

  lemma TheOnlyStack(items: seq<Instance>, x: Instance)
    requires WellStocked(items) && x in items
    ensures forall y :: y in items && y.id == x.id ==> y == x
  {
  }

  lemma StackIsReduced(bag: Bag, w: Wanted, k: nat)
    requires WellStocked(bag.items) && OnlyOne(bag.items, w, k) && 0 < w.quantity <= bag.items[k].quantity
    requires w.instance == bag.items[k].id
    ensures ConsumeWanted(bag, w).Success? && WellStocked(ConsumeWanted(bag, w).value.items)
    ensures Reduced(bag.items, ConsumeWanted(bag, w).value.items, w.instance, w.quantity)
  {
    hide Walk, Total, Owned, OthersKept, Candidate;
    var x := bag.items[k];
    ConsumeTakes(bag.items, x, w.quantity);
    WalkToOne(bag.items, bag, w, w.quantity, k);
    TheOnlyStack(bag.items, x);
    var after := Consume(bag.items, x.id, w.quantity).value;
    if w.quantity < x.quantity {
      var i := IndexOf(bag.items, x.id);
      assert bag.items[i] == x && after[i] == x.(quantity := x.quantity - w.quantity);
    }
  }

  // ---------- whole lists ----------

  ghost predicate AllNamed(wanted: seq<Wanted>) {
    forall k :: 0 <= k < |wanted| ==> wanted[k].instance != NOBODY
  }

  /** What the requests that name a stack ask of it together. */
  function AskedOf(wanted: seq<Wanted>, id: Id): int {
    if wanted == [] then 0
    else
      var last := wanted[|wanted| - 1];
      AskedOf(wanted[..|wanted| - 1], id) + (if last.instance == id then last.quantity else 0)
  }

  function Left(x: Instance, wanted: seq<Wanted>): Instance {
    x.(quantity := x.quantity - AskedOf(wanted, x.id))
  }

  /** Every stack has exactly what was asked of it less, and is gone exactly when that was all of it. */
  ghost predicate TakenAsAsked(before: seq<Instance>, after: seq<Instance>, wanted: seq<Wanted>) {
    && (forall x :: x in before ==> 0 <= AskedOf(wanted, x.id) <= x.quantity)
    && (forall x :: x in before ==> (AskedOf(wanted, x.id) < x.quantity <==> Left(x, wanted) in after))
    && forall y :: y in after ==> y.quantity > 0 && exists x :: x in before && y == Left(x, wanted)
  }

  ghost predicate CoveredAt(items: seq<Instance>, wanted: seq<Wanted>, k: nat)
    requires k < |wanted|
  {
    Holds(items, wanted[k], AskedOf(wanted, wanted[k].instance))
  }

  ghost predicate AllCovered(items: seq<Instance>, wanted: seq<Wanted>) {
    forall k :: 0 <= k < |wanted| ==> CoveredAt(items, wanted, k)
  }

  lemma {:induction false} AskedGrows(wanted: seq<Wanted>, id: Id)
    requires wanted != [] && Positive(wanted)
    ensures 0 <= AskedOf(wanted[..|wanted| - 1], id) <= AskedOf(wanted, id)
    decreases |wanted|
  {
    var n := |wanted| - 1;
    if n > 0 {
      assert Positive(wanted[..n]);
      AskedGrows(wanted[..n], id);
    }
  }

  lemma AllCoveredByPrefix(items: seq<Instance>, wanted: seq<Wanted>)
    requires WellStocked(items) && wanted != [] && Positive(wanted)
    ensures var n := |wanted| - 1; AllCovered(items, wanted) <==> AllCovered(items, wanted[..n]) && CoveredAt(items, wanted, n)
  {
    hide AskedOf;
    var n := |wanted| - 1;
    forall k | 0 <= k < n
      ensures CoveredAt(items, wanted, k) ==> CoveredAt(items, wanted[..n], k)
      ensures CoveredAt(items, wanted[..n], k) && CoveredAt(items, wanted, n) ==> CoveredAt(items, wanted, k)
    {
      assert wanted[..n][k] == wanted[k];
      AskedGrows(wanted, wanted[k].instance);
      if CoveredAt(items, wanted[..n], k) && CoveredAt(items, wanted, n) {
        CoveredTogether(items, wanted, k);
      }
    }
  }

  lemma CoveredTogether(items: seq<Instance>, wanted: seq<Wanted>, k: nat)
    requires WellStocked(items) && k < |wanted| - 1
    requires var n := |wanted| - 1; CoveredAt(items, wanted[..n], k) && CoveredAt(items, wanted, n)
    ensures CoveredAt(items, wanted, k)
  {
    var n := |wanted| - 1;
    assert wanted[..n][k] == wanted[k];
    var x :| x in items && x.id == wanted[k].instance && x.definition == wanted[k].definition
      && AskedOf(wanted[..n], wanted[k].instance) <= x.quantity;
    if wanted[n].instance == wanted[k].instance {
      TheOnlyStack(items, x);
    }
  }

  lemma NothingAsked(items: seq<Instance>)
    requires WellStocked(items)
    ensures TakenAsAsked(items, items, []) && AllCovered(items, [])
  {
  }

  /** One more request, for a stack that still holds as much. */
  lemma OneMoreRequest(a: seq<Instance>, b: seq<Instance>, c: seq<Instance>, wanted: seq<Wanted>)
    requires WellStocked(a) && WellStocked(b) && WellStocked(c) && wanted != [] && Positive(wanted)
    requires var n := |wanted| - 1;
      TakenAsAsked(a, b, wanted[..n]) && Holds(b, wanted[n], wanted[n].quantity) && Reduced(b, c, wanted[n].instance, wanted[n].quantity)
    ensures TakenAsAsked(a, c, wanted)
  {
    hide AskedOf, WellStocked, Reduced, Holds, Positive, Left;
    var n := |wanted| - 1;
    forall x | x in a
      ensures 0 <= AskedOf(wanted, x.id) <= x.quantity && (AskedOf(wanted, x.id) < x.quantity <==> Left(x, wanted) in c)
    {
      OneMoreAtStack(a, b, c, wanted, x);
    }
    forall y | y in c ensures y.quantity > 0 && exists x :: x in a && y == Left(x, wanted) {
      Stocked(c, y);
      OneMoreLeftOver(a, b, c, wanted, y);
    }
  }

  lemma Stocked(items: seq<Instance>, x: Instance)
    requires WellStocked(items) && x in items
    ensures x.quantity > 0
  {
  }

  lemma OwnedBy(items: seq<Instance>, x: Instance)
    requires x in items
    ensures Owned(items, x.id)
  {
    var i :| 0 <= i < |items| && items[i] == x;
  }

  lemma AskedOfMore(wanted: seq<Wanted>, id: Id)
    requires wanted != []
    ensures var n := |wanted| - 1;
      AskedOf(wanted, id) == AskedOf(wanted[..n], id) + (if wanted[n].instance == id then wanted[n].quantity else 0)
  {
  }

  lemma AskedOfElsewhere(wanted: seq<Wanted>, x: Instance)
    requires wanted != [] && wanted[|wanted| - 1].instance != x.id
    ensures Left(x, wanted) == Left(x, wanted[..|wanted| - 1])
  {
  }

  lemma TakenAt(a: seq<Instance>, b: seq<Instance>, wanted: seq<Wanted>, x: Instance)
    requires TakenAsAsked(a, b, wanted) && x in a
    ensures 0 <= AskedOf(wanted, x.id) <= x.quantity && (AskedOf(wanted, x.id) < x.quantity <==> Left(x, wanted) in b)
  {
    hide AskedOf;
  }

  /** The stack asked for, as the requests before left it. */
  lemma AskedStack(a: seq<Instance>, b: seq<Instance>, wanted: seq<Wanted>, x: Instance)
    requires WellStocked(a) && wanted != [] && x in a && wanted[|wanted| - 1].instance == x.id
    requires var n := |wanted| - 1; TakenAsAsked(a, b, wanted[..n]) && Holds(b, wanted[n], wanted[n].quantity)
    ensures var n := |wanted| - 1;
      && Left(x, wanted[..n]) in b && wanted[n].quantity <= Left(x, wanted[..n]).quantity
      && Left(x, wanted) == Left(x, wanted[..n]).(quantity := Left(x, wanted[..n]).quantity - wanted[n].quantity)
  {
    hide AskedOf, WellStocked;
    var n := |wanted| - 1;
    AskedOfMore(wanted, x.id);
    var y :| y in b && y.id == x.id && wanted[n].quantity <= y.quantity;
    var z :| z in a && y == Left(z, wanted[..n]);
    TheOnlyStack(a, x);
  }

  lemma ReducedAt(b: seq<Instance>, c: seq<Instance>, y: Instance, quantity: int)
    requires Reduced(b, c, y.id, quantity) && WellStocked(c) && y in b && quantity <= y.quantity
    ensures quantity < y.quantity <==> y.(quantity := y.quantity - quantity) in c
  {
    hide Owned;
    if y.(quantity := y.quantity - quantity) in c {
      OwnedBy(c, y.(quantity := y.quantity - quantity));
    }
  }

  lemma OneMoreAtStack(a: seq<Instance>, b: seq<Instance>, c: seq<Instance>, wanted: seq<Wanted>, x: Instance)
    requires WellStocked(a) && WellStocked(b) && WellStocked(c) && wanted != [] && Positive(wanted) && x in a
    requires var n := |wanted| - 1;
      TakenAsAsked(a, b, wanted[..n]) && Holds(b, wanted[n], wanted[n].quantity) && Reduced(b, c, wanted[n].instance, wanted[n].quantity)
    ensures 0 <= AskedOf(wanted, x.id) <= x.quantity && (AskedOf(wanted, x.id) < x.quantity <==> Left(x, wanted) in c)
  {
    hide AskedOf, WellStocked, Reduced, TakenAsAsked, Holds, Positive;
    var n := |wanted| - 1;
    AskedGrows(wanted, x.id);
    TakenAt(a, b, wanted[..n], x);
    if wanted[n].instance == x.id {
      AskedStack(a, b, wanted, x);
      ReducedAt(b, c, Left(x, wanted[..n]), wanted[n].quantity);
    } else {
      AskedOfElsewhere(wanted, x);
      OtherStackKept(b, c, wanted[n].instance, wanted[n].quantity, Left(x, wanted));
    }
  }

  lemma OtherStackKept(b: seq<Instance>, c: seq<Instance>, id: Id, quantity: int, y: Instance)
    requires Reduced(b, c, id, quantity) && y.id != id
    ensures y in b <==> y in c
  {
  }

  lemma OneMoreLeftOver(a: seq<Instance>, b: seq<Instance>, c: seq<Instance>, wanted: seq<Wanted>, y: Instance)
    requires WellStocked(a) && WellStocked(b) && WellStocked(c) && wanted != [] && y in c
    requires var n := |wanted| - 1;
      TakenAsAsked(a, b, wanted[..n]) && Holds(b, wanted[n], wanted[n].quantity) && Reduced(b, c, wanted[n].instance, wanted[n].quantity)
    ensures exists x :: x in a && y == Left(x, wanted)
  {
    hide AskedOf, WellStocked, Owned;
    var n := |wanted| - 1;
    if y.id == wanted[n].instance {
      var z :| z in b && z.id == y.id && wanted[n].quantity <= z.quantity;
      OwnedBy(c, y);
      TheOnlyStack(c, y);
      assert y == z.(quantity := z.quantity - wanted[n].quantity);
      var x :| x in a && z == Left(x, wanted[..n]);
      AskedOfMore(wanted, x.id);
      assert y == Left(x, wanted);
    } else {
      assert y in b;
      var x :| x in a && y == Left(x, wanted[..n]);
      AskedOfMore(wanted, x.id);
      assert y == Left(x, wanted);
    }
  }

  /** The last request of a covered list finds its stack with enough left, and only then. */
  lemma LastIsHeld(a: seq<Instance>, b: seq<Instance>, wanted: seq<Wanted>)
    requires WellStocked(a) && WellStocked(b) && wanted != [] && Positive(wanted)
    requires TakenAsAsked(a, b, wanted[..|wanted| - 1])
    ensures Holds(b, wanted[|wanted| - 1], wanted[|wanted| - 1].quantity) <==> CoveredAt(a, wanted, |wanted| - 1)
  {
    hide AskedOf, WellStocked;
    var n := |wanted| - 1;
    var w := wanted[n];
    AskedOfMore(wanted, w.instance);
    if Holds(b, w, w.quantity) {
      var y :| y in b && y.id == w.instance && y.definition == w.definition && w.quantity <= y.quantity;
      var x :| x in a && y == Left(x, wanted[..n]);
      assert AskedOf(wanted, w.instance) <= x.quantity;
    }
    if CoveredAt(a, wanted, n) {
      var x :| x in a && x.id == w.instance && x.definition == w.definition && AskedOf(wanted, w.instance) <= x.quantity;
      assert Left(x, wanted[..n]) in b;
      assert Left(x, wanted[..n]).quantity >= w.quantity;
    }
  }

  /**
   A list in which every request names a stack is met exactly when each named stack is there, has the requested
   definition and covers all that the list asks of it; afterwards every stack has exactly that much less, used-up
   stacks are gone, and stacks nobody named are as they were.
   */
  lemma {:induction false} NamedListIsMetIff(bag: Bag, wanted: seq<Wanted>)
    requires WellStocked(bag.items) && AllNamed(wanted) && Positive(wanted)
    ensures ConsumeAll(bag, wanted).Success? <==> AllCovered(bag.items, wanted)
    ensures ConsumeAll(bag, wanted).Success? ==>
      WellStocked(ConsumeAll(bag, wanted).value.items) && TakenAsAsked(bag.items, ConsumeAll(bag, wanted).value.items, wanted)
    decreases |wanted|
  {
    hide ConsumeWanted, WellStocked, AllCovered, CoveredAt, TakenAsAsked, Reduced, Holds;
    if wanted == [] {
      NothingAsked(bag.items);
    } else {
      var n := |wanted| - 1;
      assert AllNamed(wanted[..n]) && Positive(wanted[..n]);
      NamedListIsMetIff(bag, wanted[..n]);
      AllCoveredByPrefix(bag.items, wanted);
      if ConsumeAll(bag, wanted[..n]).Success? {
        var before := ConsumeAll(bag, wanted[..n]).value;
        NamedRequestTakes(before, wanted[n]);
        LastIsHeld(bag.items, before.items, wanted);
        if ConsumeAll(bag, wanted).Success? {
          OneMoreRequest(bag.items, before.items, ConsumeAll(bag, wanted).value.items, wanted);
        }
      }
    }
  }

  // ---------- lists that mix both kinds ----------

  const HERBS: seq<Instance> := [Instance("one", "herb", 1, false), Instance("two", "herb", 1, false)]

  const ANY_HERB := Wanted("herb", NOBODY, 1)

  const FIRST_HERB := Wanted("herb", "one", 1)

  lemma AnyHerbFirst(bag: Bag)
    requires bag.items == HERBS
    ensures ConsumeWanted(bag, ANY_HERB).Success? && ConsumeWanted(bag, ANY_HERB).value.items == [HERBS[1]]
    ensures ConsumeWanted(bag, FIRST_HERB).Success? && ConsumeWanted(bag, FIRST_HERB).value.items == [HERBS[1]]
  {
    hide Unequip, Owned;
    assert IndexOf(bag.items, "one") == 0;
    assert bag.items[..0] + bag.items[1..] == [HERBS[1]];
    assert Consume(bag.items, "one", 1) == Success([HERBS[1]]);
  }

  lemma SecondHerb(bag: Bag)
    requires bag.items == [HERBS[1]]
    ensures ConsumeWanted(bag, ANY_HERB).Success?
    ensures ConsumeWanted(bag, FIRST_HERB) == Failure(ItemNotFound)
  {
    hide Unequip, Owned, Walk;
    assert bag.items[1..] == [];
    RequestIsMetIff(bag, ANY_HERB);
    RequestIsMetIff(bag, FIRST_HERB);
  }

  lemma ListOfTwo(bag: Bag, v: Wanted, w: Wanted)
    requires ConsumeWanted(bag, v).Success?
    ensures ConsumeAll(bag, [v, w]) == ConsumeWanted(ConsumeWanted(bag, v).value, w)
  {
    hide ConsumeWanted;
    assert [v, w][..1] == [v] && [v][..0] == [];
    assert ConsumeAll(bag, [v]) == ConsumeWanted(bag, v);
  }

  /** Two herbs cover a request for any herb and one for the first, but only if the named one is asked for first. */
  lemma MixedListsDependOnOrder(slots: map<Slot, Id>)
    ensures ConsumeAll(Bag(HERBS, slots), [ANY_HERB, FIRST_HERB]) == Failure(ItemNotFound)
    ensures ConsumeAll(Bag(HERBS, slots), [FIRST_HERB, ANY_HERB]).Success?
  {
    hide ConsumeWanted, ConsumeAll;
    var bag := Bag(HERBS, slots);
    AnyHerbFirst(bag);
    ListOfTwo(bag, ANY_HERB, FIRST_HERB);
    ListOfTwo(bag, FIRST_HERB, ANY_HERB);
    SecondHerb(ConsumeWanted(bag, ANY_HERB).value);
    SecondHerb(ConsumeWanted(bag, FIRST_HERB).value);
  }
}

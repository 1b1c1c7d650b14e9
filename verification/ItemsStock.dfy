/** Consuming over several stacks that shrink while they are walked, with equipment pointing into them. */
module ItemsStock {
  import opened Common

  datatype Error = InvalidQuantity | ItemNotFound | InsufficientMaterials | NotLearned | InProgress | NotReady | NothingToClaim | DepotFull

  type Slot = string

  datatype Instance = Instance(id: Id, definition: Id, quantity: int, enhanced: bool)

  /** Owned stacks and the equipment slots that name them; a depot has no slots. */
  datatype Bag = Bag(items: seq<Instance>, slots: map<Slot, Id>)

  /** `instance` is empty when any stack of the definition will do. */
  datatype Wanted = Wanted(definition: Id, instance: Id, quantity: int)

  function IndexOf(items: seq<Instance>, id: Id): (i: int)
    ensures -1 <= i < |items| && (i >= 0 ==> items[i].id == id)
    ensures i < 0 ==> forall j :: 0 <= j < |items| ==> items[j].id != id
  {
    if items == [] then -1
    else
      var before := IndexOf(items[..|items| - 1], id);
      if before >= 0 then before else if items[|items| - 1].id == id then |items| - 1 else -1
  }

  predicate Owned(items: seq<Instance>, id: Id) {
    exists i :: 0 <= i < |items| && items[i].id == id
  }

  /** Part of one stack; an emptied stack is removed. */
  function Consume(items: seq<Instance>, id: Id, quantity: int): Result<seq<Instance>, Error> {
    var i := IndexOf(items, id);
    if quantity <= 0 then Failure(InvalidQuantity)
    else if i < 0 then Failure(ItemNotFound)
    else if items[i].quantity < quantity then Failure(InvalidQuantity)
    else if items[i].quantity == quantity then Success(items[..i] + items[i + 1..])
    else Success(items[i := items[i].(quantity := items[i].quantity - quantity)])
  }

  function Unequip(slots: map<Slot, Id>, id: Id): map<Slot, Id> {
    map slot | slot in slots && slots[slot] != id :: slots[slot]
  }

  predicate Candidate(x: Instance, w: Wanted) {
    x.definition == w.definition && (w.instance == NOBODY || x.id == w.instance)
  }

  function TakeFrom(bag: Bag, id: Id, quantity: int): Result<Bag, Error> {
    var items :- Consume(bag.items, id, quantity);
    Success(Bag(items, if Owned(items, id) then bag.slots else Unequip(bag.slots, id)))
  }

  /** Greedily through a snapshot of the stacks, until nothing remains to be taken. */
  function Walk(snapshot: seq<Instance>, bag: Bag, w: Wanted, remaining: int): Result<(Bag, int), Error> {
    if snapshot == [] then Success((bag, remaining))
    else if !Candidate(snapshot[0], w) then Walk(snapshot[1..], bag, w, remaining)
    else
      var take := Min(snapshot[0].quantity, remaining);
      var after :- TakeFrom(bag, snapshot[0].id, take);
      if remaining == take then Success((after, 0)) else Walk(snapshot[1..], after, w, remaining - take)
  }

  function ConsumeWanted(bag: Bag, w: Wanted): Result<Bag, Error> {
    if w.quantity <= 0 then Failure(InvalidQuantity)
    else
      var (after, remaining) :- Walk(bag.items, bag, w, w.quantity);
      if remaining != 0 then Failure(ItemNotFound) else Success(after)
  }

  function ConsumeAll(bag: Bag, wanted: seq<Wanted>): Result<Bag, Error> {
    if wanted == [] then Success(bag)
    else
      var before :- ConsumeAll(bag, wanted[..|wanted| - 1]);
      ConsumeWanted(before, wanted[|wanted| - 1])
  }

  // ---------- what a stock holds ----------

  ghost predicate WellStocked(items: seq<Instance>) {
    && (forall i, j :: 0 <= i < j < |items| ==> items[i].id != items[j].id)
    && forall i :: 0 <= i < |items| ==> items[i].quantity > 0
  }

  function Total(items: seq<Instance>, definition: Id): int {
    if items == [] then 0
    else Total(items[..|items| - 1], definition) + (if items[|items| - 1].definition == definition then items[|items| - 1].quantity else 0)
  }

  /** What the candidates of a request hold together. */
  function Available(items: seq<Instance>, w: Wanted): int {
    if items == [] then 0
    else (if Candidate(items[0], w) then items[0].quantity else 0) + Available(items[1..], w)
  }

  /** Every stack but the named one is exactly as it was. */
  ghost predicate OthersKept(before: seq<Instance>, after: seq<Instance>, id: Id) {
    forall x: Instance :: x.id != id ==> (x in before <==> x in after)
  }

  lemma {:induction false} TotalSplit(a: seq<Instance>, b: seq<Instance>, definition: Id)
    ensures Total(a + b, definition) == Total(a, definition) + Total(b, definition)
    decreases |b|
  {
    if b == [] {
      assert a + b == a;
    } else {
      var n := |b| - 1;
      TotalSplit(a, b[..n], definition);
      assert (a + b)[..|a| + n] == a + b[..n];
    }
  }

  lemma TotalOne(x: Instance, definition: Id)
    ensures Total([x], definition) == if x.definition == definition then x.quantity else 0
  {
    assert [x][..0] == [];
  }

  /** A stack gives a positive quantity that it holds, and only then. */
  lemma ConsumedIff(items: seq<Instance>, id: Id, quantity: int)
    requires WellStocked(items)
    ensures Consume(items, id, quantity).Success? <==> exists x :: x in items && x.id == id && 0 < quantity <= x.quantity
    ensures Consume(items, id, quantity).Failure? ==>
      Consume(items, id, quantity).error == if quantity > 0 && !Owned(items, id) then ItemNotFound else InvalidQuantity
  {
    var i := IndexOf(items, id);
    if i >= 0 { assert items[i] in items; }
  }

  /** Taking part of a stack takes exactly that much of its definition and touches no other stack. */
  lemma ConsumeTakes(items: seq<Instance>, x: Instance, quantity: int)
    requires WellStocked(items) && x in items && 0 < quantity <= x.quantity
    ensures Consume(items, x.id, quantity).Success?
    ensures var after := Consume(items, x.id, quantity).value;
      && WellStocked(after) && OthersKept(items, after, x.id)
      && (forall d :: Total(after, d) == Total(items, d) - (if d == x.definition then quantity else 0))
      && (Owned(after, x.id) <==> quantity < x.quantity)
  {
    hide Total, Owned, OthersKept;
    var i := IndexOf(items, x.id);
    assert items[i] == x;
    var after := Consume(items, x.id, quantity).value;
    var left := if quantity == x.quantity then [] else [x.(quantity := x.quantity - quantity)];
    assert after == items[..i] + left + items[i + 1..];
    forall d ensures Total(after, d) == Total(items, d) - (if d == x.definition then quantity else 0) {
      ReplacedTotal(items, after, i, left, d);
    }
    ConsumeKeepsOthers(items, after, i, x, left);
  }

  lemma ReplacedTotal(items: seq<Instance>, after: seq<Instance>, i: nat, left: seq<Instance>, d: Id)
    requires i < |items| && |left| <= 1 && after == items[..i] + left + items[i + 1..]
    ensures Total(after, d) == Total(items, d) - (if items[i].definition == d then items[i].quantity else 0)
      + (if left != [] && left[0].definition == d then left[0].quantity else 0)
  {
    assert items == items[..i] + [items[i]] + items[i + 1..];
    TotalSplit(items[..i], [items[i]], d);
    TotalSplit(items[..i] + [items[i]], items[i + 1..], d);
    TotalSplit(items[..i], left, d);
    TotalSplit(items[..i] + left, items[i + 1..], d);
    TotalOne(items[i], d);
    if left != [] {
      TotalOne(left[0], d);
      assert left == [left[0]];
    }
  }

  /** Stack `i` gives way to `left`, which is at most one stack. */
  ghost predicate Cut(items: seq<Instance>, after: seq<Instance>, i: nat, left: seq<Instance>) {
    && i < |items| && |left| <= 1 && |after| == |items| - 1 + |left|
    && (forall k :: 0 <= k < i ==> after[k] == items[k])
    && (left != [] ==> after[i] == left[0] && left[0].id == items[i].id && left[0].quantity > 0)
    && (forall k :: i + |left| <= k < |after| ==> after[k] == items[k + 1 - |left|])
  }

  lemma ConsumeKeepsOthers(items: seq<Instance>, after: seq<Instance>, i: nat, x: Instance, left: seq<Instance>)
    requires WellStocked(items) && i < |items| && items[i] == x
    requires |left| <= 1 && (left != [] ==> left[0].id == x.id && left[0].quantity > 0)
    requires after == items[..i] + left + items[i + 1..]
    ensures WellStocked(after) && OthersKept(items, after, x.id) && (Owned(after, x.id) <==> left != [])
  {
    assert Cut(items, after, i, left);
    CutStaysStocked(items, after, i, left);
    forall y: Instance | y.id != x.id ensures y in items <==> y in after {
      CutKeeps(items, after, i, left, y);
    }
    if left != [] {
      assert after[i].id == x.id;
    }
  }

  lemma CutStaysStocked(items: seq<Instance>, after: seq<Instance>, i: nat, left: seq<Instance>)
    requires WellStocked(items) && Cut(items, after, i, left)
    ensures WellStocked(after) && (left == [] ==> !Owned(after, items[i].id))
  {
    hide WellStocked, Owned;
    if left == [] {
      assert forall k :: 0 <= k < |after| ==> after[k] == items[if k < i then k else k + 1];
      GapStaysStocked(items, after, i);
    } else {
      assert forall k :: 0 <= k < |after| && k != i ==> after[k] == items[k];
      SameIdsStocked(items, after, i);
    }
  }

  lemma GapStaysStocked(items: seq<Instance>, after: seq<Instance>, i: nat)
    requires WellStocked(items) && i < |items| && |after| == |items| - 1
    requires forall k :: 0 <= k < |after| ==> after[k] == items[if k < i then k else k + 1]
    ensures WellStocked(after) && !Owned(after, items[i].id)
  {
  }

  lemma SameIdsStocked(items: seq<Instance>, after: seq<Instance>, i: nat)
    requires WellStocked(items) && i < |items| && |after| == |items|
    requires after[i].id == items[i].id && after[i].quantity > 0
    requires forall k :: 0 <= k < |after| && k != i ==> after[k] == items[k]
    ensures WellStocked(after)
  {
  }

  lemma CutKeeps(items: seq<Instance>, after: seq<Instance>, i: nat, left: seq<Instance>, y: Instance)
    requires Cut(items, after, i, left) && y.id != items[i].id
    ensures y in items <==> y in after
  {
    if y in items {
      var k :| 0 <= k < |items| && items[k] == y;
      var j := if k < i then k else k + |left| - 1;
      assert after[j] == y;
    }
  }

  // ---------- one request ----------

  /** The snapshot's stacks still lie untouched in the bag. */
  ghost predicate Untouched(snapshot: seq<Instance>, items: seq<Instance>) {
    && (forall i, j :: 0 <= i < j < |snapshot| ==> snapshot[i].id != snapshot[j].id)
    && forall i :: 0 <= i < |snapshot| ==> snapshot[i] in items && snapshot[i].quantity > 0
  }

  /** Stacks that no candidate names are exactly as they were. */
  ghost predicate OnlyCandidates(before: seq<Instance>, after: seq<Instance>, w: Wanted) {
    && (forall x: Instance :: !Candidate(x, w) ==> (x in before <==> x in after))
    && forall x: Instance :: x in after ==> exists y :: y in before && y.id == x.id && y.definition == x.definition && x.quantity <= y.quantity
  }

  /** A slot is emptied exactly when its stack was there and is gone. */
  ghost predicate SlotsFollow(before: Bag, after: Bag) {
    && (forall s :: s in after.slots ==> s in before.slots && after.slots[s] == before.slots[s])
    && forall s :: s in before.slots ==>
      (s in after.slots <==> (Owned(before.items, before.slots[s]) ==> Owned(after.items, before.slots[s])))
  }

  ghost predicate Taken(before: Bag, after: Bag, w: Wanted, quantity: int) {
    && WellStocked(after.items)
    && (forall d :: Total(after.items, d) == Total(before.items, d) - (if d == w.definition then quantity else 0))
    && OnlyCandidates(before.items, after.items, w)
    && SlotsFollow(before, after)
    && Shrunk(before.items, after.items)
  }

  /** No stack appears. */
  ghost predicate Shrunk(before: seq<Instance>, after: seq<Instance>) {
    forall id :: Owned(after, id) ==> Owned(before, id)
  }

  lemma TakeFromTakes(bag: Bag, x: Instance, w: Wanted, quantity: int)
    requires WellStocked(bag.items) && x in bag.items && Candidate(x, w) && 0 < quantity <= x.quantity
    ensures TakeFrom(bag, x.id, quantity).Success?
    ensures Taken(bag, TakeFrom(bag, x.id, quantity).value, w, quantity)
    ensures OthersKept(bag.items, TakeFrom(bag, x.id, quantity).value.items, x.id)
  {
    ConsumeTakes(bag.items, x, quantity);
    var after := TakeFrom(bag, x.id, quantity).value;
    OneStackTaken(bag.items, after.items, x, w, quantity);
    assert Owned(bag.items, x.id) by {
      var i :| 0 <= i < |bag.items| && bag.items[i] == x;
    }
    forall id | id != x.id ensures Owned(bag.items, id) <==> Owned(after.items, id) {
      OwnedKept(bag.items, after.items, x.id, id);
    }
  }

  lemma OwnedKept(before: seq<Instance>, after: seq<Instance>, id: Id, other: Id)
    requires OthersKept(before, after, id) && other != id
    ensures Owned(before, other) <==> Owned(after, other)
  {
    if Owned(before, other) {
      var i :| 0 <= i < |before| && before[i].id == other;
      assert before[i] in after;
    }
    if Owned(after, other) {
      var i :| 0 <= i < |after| && after[i].id == other;
      assert after[i] in before;
    }
  }

  lemma OneStackTaken(items: seq<Instance>, after: seq<Instance>, x: Instance, w: Wanted, quantity: int)
    requires WellStocked(items) && x in items && Candidate(x, w) && 0 < quantity <= x.quantity
    requires Consume(items, x.id, quantity) == Success(after) && OthersKept(items, after, x.id) && WellStocked(after)
    ensures OnlyCandidates(items, after, w)
  {
    var i := IndexOf(items, x.id);
    assert items[i] == x;
    forall y | y in after ensures exists z :: z in items && z.id == y.id && z.definition == y.definition && y.quantity <= z.quantity {
      if y.id == x.id {
        assert y == x.(quantity := x.quantity - quantity);
      } else {
        assert y in items;
      }
    }
    forall y: Instance | !Candidate(y, w) ensures y in items <==> y in after {
      if y.id == x.id {
        assert y in items ==> y == x;
        assert y in after ==> y == x.(quantity := x.quantity - quantity);
      }
    }
  }

  // ---------- whole walks ----------

  lemma NothingTaken(bag: Bag, w: Wanted)
    requires WellStocked(bag.items)
    ensures Taken(bag, bag, w, 0)
  {
  }

  lemma TakenOn(a: Bag, b: Bag, c: Bag, w: Wanted, q: int, r: int)
    requires Taken(a, b, w, q) && Taken(b, c, w, r)
    ensures Taken(a, c, w, q + r)
  {
    hide Total, WellStocked, Owned;
    OnlyCandidatesOn(a.items, b.items, c.items, w);
  }

  lemma OnlyCandidatesOn(a: seq<Instance>, b: seq<Instance>, c: seq<Instance>, w: Wanted)
    requires OnlyCandidates(a, b, w) && OnlyCandidates(b, c, w)
    ensures OnlyCandidates(a, c, w)
  {
    forall x: Instance | x in c ensures exists y :: y in a && y.id == x.id && y.definition == x.definition && x.quantity <= y.quantity {
      var y :| y in b && y.id == x.id && y.definition == x.definition && x.quantity <= y.quantity;
    }
  }

  lemma RestUntouched(snapshot: seq<Instance>, before: seq<Instance>, after: seq<Instance>)
    requires snapshot != [] && Untouched(snapshot, before) && OthersKept(before, after, snapshot[0].id)
    ensures Untouched(snapshot[1..], after)
  {
    forall i | 0 <= i < |snapshot| - 1 ensures snapshot[1..][i] in after {
      assert snapshot[1..][i] == snapshot[i + 1];
    }
  }

  lemma TakeHead(snapshot: seq<Instance>, bag: Bag, w: Wanted, remaining: int)
    requires WellStocked(bag.items) && Untouched(snapshot, bag.items) && remaining > 0
    requires snapshot != [] && Candidate(snapshot[0], w)
    ensures var take := Min(snapshot[0].quantity, remaining);
      && 0 < take <= remaining && TakeFrom(bag, snapshot[0].id, take).Success?
      && Taken(bag, TakeFrom(bag, snapshot[0].id, take).value, w, take)
      && WellStocked(TakeFrom(bag, snapshot[0].id, take).value.items)
      && Untouched(snapshot[1..], TakeFrom(bag, snapshot[0].id, take).value.items)
      && (take < remaining ==> take == snapshot[0].quantity)
  {
    hide Taken, WellStocked, OthersKept, TakeFrom, Candidate;
    var take := Min(snapshot[0].quantity, remaining);
    TakeFromTakes(bag, snapshot[0], w, take);
    RestUntouched(snapshot, bag.items, TakeFrom(bag, snapshot[0].id, take).value.items);
    TakenStocked(bag, TakeFrom(bag, snapshot[0].id, take).value, w, take);
  }

  /** A walk takes the smaller of what is wanted and what there is, exactly, and touches nothing else. */
  lemma {:induction false} WalkTakes(snapshot: seq<Instance>, bag: Bag, w: Wanted, remaining: int)
    requires WellStocked(bag.items) && Untouched(snapshot, bag.items) && remaining > 0
    ensures Walk(snapshot, bag, w, remaining).Success?
    ensures var (after, left) := Walk(snapshot, bag, w, remaining).value;
      left == Max(0, remaining - Available(snapshot, w)) && Taken(bag, after, w, remaining - left)
    ensures Available(snapshot, w) >= 0
    decreases |snapshot|
  {
    hide Taken, WellStocked, TakeFrom, Candidate, Untouched;
    if snapshot == [] {
      NothingTaken(bag, w);
    } else {
      TailUntouched(snapshot, bag.items);
      UntouchedIsNatural(snapshot[1..], bag.items, w);
      if Candidate(snapshot[0], w) {
        TakeHead(snapshot, bag, w, remaining);
        var take := Min(snapshot[0].quantity, remaining);
        var after := TakeFrom(bag, snapshot[0].id, take).value;
        if remaining != take {
          WalkTakes(snapshot[1..], after, w, remaining - take);
          var (final, left) := Walk(snapshot[1..], after, w, remaining - take).value;
          TakenOn(bag, after, final, w, take, remaining - take - left);
        }
      } else {
        WalkTakes(snapshot[1..], bag, w, remaining);
      }
    }
  }

  lemma UntouchedIsNatural(snapshot: seq<Instance>, items: seq<Instance>, w: Wanted)
    requires Untouched(snapshot, items)
    ensures Available(snapshot, w) >= 0
  {
    AvailableIsNatural(snapshot, w);
  }

  lemma TailUntouched(snapshot: seq<Instance>, items: seq<Instance>)
    requires snapshot != [] && Untouched(snapshot, items)
    ensures Untouched(snapshot[1..], items)
  {
  }

  lemma TakenStocked(a: Bag, b: Bag, w: Wanted, q: int)
    requires Taken(a, b, w, q)
    ensures WellStocked(b.items)
  {
  }

  lemma {:induction false} AvailableIsNatural(items: seq<Instance>, w: Wanted)
    requires forall i :: 0 <= i < |items| ==> items[i].quantity > 0
    ensures Available(items, w) >= 0
    decreases |items|
  {
    if items != [] {
      AvailableIsNatural(items[1..], w);
    }
  }

  /** A request is met exactly when it is positive and the candidates suffice; then exactly it is taken, otherwise it says why. */
  lemma RequestIsMetIff(bag: Bag, w: Wanted)
    requires WellStocked(bag.items)
    ensures ConsumeWanted(bag, w).Success? <==> 0 < w.quantity <= Available(bag.items, w)
    ensures ConsumeWanted(bag, w).Success? ==> Taken(bag, ConsumeWanted(bag, w).value, w, w.quantity)
    ensures w.quantity <= 0 ==> ConsumeWanted(bag, w) == Failure(InvalidQuantity)
    ensures w.quantity > Available(bag.items, w) && w.quantity > 0 ==> ConsumeWanted(bag, w) == Failure(ItemNotFound)
  {
    if w.quantity > 0 {
      hide Taken;
      WalkTakes(bag.items, bag, w, w.quantity);
    }
  }

  // ---------- whole lists of requests ----------

  function Requested(wanted: seq<Wanted>, definition: Id): int {
    if wanted == [] then 0
    else
      var last := wanted[|wanted| - 1];
      Requested(wanted[..|wanted| - 1], definition) + (if last.definition == definition then last.quantity else 0)
  }

  lemma SlotsFollowOn(a: Bag, b: Bag, c: Bag)
    requires SlotsFollow(a, b) && SlotsFollow(b, c) && Shrunk(a.items, b.items) && Shrunk(b.items, c.items)
    ensures SlotsFollow(a, c) && Shrunk(a.items, c.items)
  {
    hide Owned;
  }

  /**
   Consuming a list removes exactly the requested quantity of every definition, leaves stacks of every other
   definition as they were, and empties exactly the slots whose stack was used up: any slot that is still set
   and pointed at an owned stack still does.
   */
  lemma {:induction false} ConsumptionIsExact(bag: Bag, wanted: seq<Wanted>)
    requires WellStocked(bag.items) && ConsumeAll(bag, wanted).Success?
    ensures var after := ConsumeAll(bag, wanted).value;
      && WellStocked(after.items)
      && (forall d :: Total(after.items, d) == Total(bag.items, d) - Requested(wanted, d))
      && (forall x: Instance :: (forall k :: 0 <= k < |wanted| ==> wanted[k].definition != x.definition) ==> (x in bag.items <==> x in after.items))
      && SlotsFollow(bag, after) && Shrunk(bag.items, after.items)
    decreases |wanted|
  {
    if wanted != [] {
      hide Total, Owned, ConsumeWanted, WellStocked, SlotsFollow, Shrunk, Available;
      var n := |wanted| - 1;
      ConsumptionIsExact(bag, wanted[..n]);
      var before := ConsumeAll(bag, wanted[..n]).value;
      RequestIsMetIff(before, wanted[n]);
      var after := ConsumeAll(bag, wanted).value;
      SlotsFollowOn(bag, before, after);
      forall x: Instance | forall k :: 0 <= k < |wanted| ==> wanted[k].definition != x.definition
        ensures x in bag.items <==> x in after.items
      {
        assert wanted[n].definition != x.definition;
        assert forall k :: 0 <= k < n ==> wanted[..n][k] == wanted[k];
        assert !Candidate(x, wanted[n]);
      }
    } else {
      NothingTaken(bag, Wanted(NOBODY, NOBODY, 0));
    }
  }

  /** Equipment that is still worn and was owned is still owned. */
  lemma WornIsOwned(bag: Bag, wanted: seq<Wanted>, slot: Slot)
    requires WellStocked(bag.items) && ConsumeAll(bag, wanted).Success?
    requires slot in ConsumeAll(bag, wanted).value.slots && Owned(bag.items, ConsumeAll(bag, wanted).value.slots[slot])
    ensures Owned(ConsumeAll(bag, wanted).value.items, ConsumeAll(bag, wanted).value.slots[slot])
  {
    hide ConsumeAll, Owned;
    ConsumptionIsExact(bag, wanted);
  }

  // ---------- requests that name no stack ----------

  lemma {:induction false} TotalFront(items: seq<Instance>, d: Id)
    requires items != []
    ensures Total(items, d) == (if items[0].definition == d then items[0].quantity else 0) + Total(items[1..], d)
  {
    assert items == [items[0]] + items[1..];
    TotalSplit([items[0]], items[1..], d);
    TotalOne(items[0], d);
  }

  lemma {:induction false} AvailableIsTotal(items: seq<Instance>, w: Wanted)
    requires w.instance == NOBODY
    ensures Available(items, w) == Total(items, w.definition)
    decreases |items|
  {
    if items != [] {
      TotalFront(items, w.definition);
      AvailableIsTotal(items[1..], w);
    }
  }

  ghost predicate Plain(wanted: seq<Wanted>) {
    forall k :: 0 <= k < |wanted| ==> wanted[k].instance == NOBODY
  }

  ghost predicate Positive(wanted: seq<Wanted>) {
    forall k :: 0 <= k < |wanted| ==> wanted[k].quantity > 0
  }

  lemma {:induction false} RequestedGrows(wanted: seq<Wanted>, d: Id)
    requires wanted != [] && Positive(wanted)
    ensures 0 <= Requested(wanted[..|wanted| - 1], d) <= Requested(wanted, d)
    decreases |wanted|
  {
    var n := |wanted| - 1;
    if n > 0 {
      assert Positive(wanted[..n]);
      RequestedGrows(wanted[..n], d);
    }
  }

  ghost predicate Covered(items: seq<Instance>, wanted: seq<Wanted>) {
    forall k :: 0 <= k < |wanted| ==> Requested(wanted, wanted[k].definition) <= Total(items, wanted[k].definition)
  }

  lemma CoveredByPrefix(items: seq<Instance>, wanted: seq<Wanted>)
    requires wanted != [] && Positive(wanted)
    ensures var n := |wanted| - 1;
      Covered(items, wanted) <==>
        Covered(items, wanted[..n]) && Requested(wanted, wanted[n].definition) <= Total(items, wanted[n].definition)
  {
    hide Total;
    var n := |wanted| - 1;
    forall d ensures Requested(wanted[..n], d) <= Requested(wanted, d) {
      RequestedGrows(wanted, d);
    }
    forall k | 0 <= k < n ensures wanted[..n][k] == wanted[k] {
    }
  }

  /** A list that names no stacks is met exactly when every definition covers what is asked of it in all. */
  lemma {:induction false} PlainListIsMetIff(bag: Bag, wanted: seq<Wanted>)
    requires WellStocked(bag.items) && Plain(wanted) && Positive(wanted)
    ensures ConsumeAll(bag, wanted).Success? <==> Covered(bag.items, wanted)
    decreases |wanted|
  {
    hide Total, ConsumeWanted, WellStocked, Available, SlotsFollow, Shrunk, Covered;
    if wanted == [] {
      assert Covered(bag.items, wanted) by { NothingCovered(bag.items); }
    } else {
      var n := |wanted| - 1;
      assert Plain(wanted[..n]) && Positive(wanted[..n]);
      PlainListIsMetIff(bag, wanted[..n]);
      CoveredByPrefix(bag.items, wanted);
      if ConsumeAll(bag, wanted[..n]).Success? {
        var before := ConsumeAll(bag, wanted[..n]).value;
        ConsumptionIsExact(bag, wanted[..n]);
        RequestIsMetIff(before, wanted[n]);
        AvailableIsTotal(before.items, wanted[n]);
      }
    }
  }

  lemma NothingCovered(items: seq<Instance>)
    ensures Covered(items, [])
  {
  }
}

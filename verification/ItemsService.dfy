/** Inventories with equipment, and a depot with its laboratory, mutated in place. */
module ItemsService {
  import opened Common
  import Stock = ItemsStock
  import opened ItemsStock
  import Alchemy = ItemsAlchemy
  import opened ItemsAlchemy

  lemma {:induction false} RequestsPrefixFails(bag: Bag, wanted: seq<Wanted>, n: nat)
    requires n <= |wanted| && ConsumeAll(bag, wanted[..n]).Failure?
    ensures ConsumeAll(bag, wanted) == Failure(ConsumeAll(bag, wanted[..n]).error)
    decreases |wanted|
  {
    hide ConsumeWanted;
    if n == |wanted| {
      assert wanted[..n] == wanted;
    } else {
      var m := |wanted| - 1;
      assert wanted[..m][..n] == wanted[..n];
      RequestsPrefixFails(bag, wanted[..m], n);
    }
  }

  lemma {:induction false} IngredientsPrefixFails(items: seq<Instance>, wanted: seq<Wanted>, n: nat)
    requires n <= |wanted| && TakeIngredients(items, wanted[..n]).Failure?
    ensures TakeIngredients(items, wanted) == Failure(TakeIngredients(items, wanted[..n]).error)
    decreases |wanted|
  {
    hide TakeIngredient;
    if n == |wanted| {
      assert wanted[..n] == wanted;
    } else {
      var m := |wanted| - 1;
      assert wanted[..m][..n] == wanted[..n];
      IngredientsPrefixFails(items, wanted[..m], n);
    }
  }

  /** A stock of items and, for an inventory, the equipment that points into it. */
  class Storage {
    var items: seq<Instance>
    var slots: map<Slot, Id>

    function Value(): Bag
      reads this
    {
      Bag(items, slots)
    }

    constructor (bag: Bag)
      ensures Value() == bag
    {
      items, slots := bag.items, bag.slots;
    }

    method Find(id: Id) returns (i: int)
      ensures i == IndexOf(items, id)
    {
      i := -1;
      for n := 0 to |items|
        invariant i == IndexOf(items[..n], id)
      {
        assert items[..n + 1][..n] == items[..n];
        if i < 0 && items[n].id == id {
          i := n;
        }
      }
      assert items[..|items|] == items;
    }

    method Consume(id: Id, quantity: int) returns (error: Option<Error>)
      modifies this`items
      ensures error.None? ==> Stock.Consume(old(items), id, quantity) == Success(items)
      ensures error.Some? ==> Stock.Consume(old(items), id, quantity) == Failure(error.value) && items == old(items)
    {
      if quantity <= 0 {
        return Some(InvalidQuantity);
      }
      var i := Find(id);
      if i < 0 {
        return Some(ItemNotFound);
      }
      if items[i].quantity < quantity {
        return Some(InvalidQuantity);
      }
      if items[i].quantity == quantity {
        items := items[..i] + items[i + 1..];
      } else {
        items := items[i := items[i].(quantity := items[i].quantity - quantity)];
      }
      return None;
    }

    /** Every slot that names the vanished stack is emptied. */
    method Unequip(id: Id)
      modifies this`slots
      ensures slots == Stock.Unequip(old(slots), id)
    {
      var left := slots.Keys;
      while left != {}
        invariant left <= old(slots).Keys
        invariant forall s :: s in slots <==> s in old(slots) && (s in left || old(slots)[s] != id)
        invariant forall s :: s in slots ==> slots[s] == old(slots)[s]
        decreases left
      {
        var s :| s in left;
        if s in slots && slots[s] == id {
          slots := slots - {s};
        }
        left := left - {s};
      }
    }

    method Take(id: Id, quantity: int) returns (error: Option<Error>)
      modifies this
      ensures error.None? ==> TakeFrom(old(Value()), id, quantity) == Success(Value())
      ensures error.Some? ==> TakeFrom(old(Value()), id, quantity) == Failure(error.value)
    {
      error := Consume(id, quantity);
      if error.Some? {
        return;
      }
      var i := Find(id);
      if i < 0 {
        Unequip(id);
      }
      assert i < 0 <==> !Owned(items, id);
    }

    /** The walk over a snapshot, while the stacks themselves shrink. */
    method WalkStacks(snapshot: seq<Instance>, w: Wanted, quantity: int) returns (r: Result<int, Error>)
      modifies this
      ensures r.Success? ==> Walk(snapshot, old(Value()), w, quantity) == Success((Value(), r.value))
      ensures r.Failure? ==> Walk(snapshot, old(Value()), w, quantity) == Failure(r.error)
    {
      hide TakeFrom;
      var remaining, i := quantity, 0;
      while i < |snapshot|
        invariant 0 <= i <= |snapshot|
        invariant Walk(snapshot, old(Value()), w, quantity) == Walk(snapshot[i..], Value(), w, remaining)
      {
        var x := snapshot[i];
        assert snapshot[i..][1..] == snapshot[i + 1..];
        if Candidate(x, w) {
          var take := Min(x.quantity, remaining);
          var error := Take(x.id, take);
          if error.Some? {
            return Failure(error.value);
          }
          remaining := remaining - take;
          if remaining == 0 {
            return Success(0);
          }
        }
        i := i + 1;
      }
      return Success(remaining);
    }

    method ConsumeBuffered(wanted: seq<Wanted>) returns (error: Option<Error>)
      modifies this
      ensures error.None? ==> ConsumeAll(old(Value()), wanted) == Success(Value())
      ensures error.Some? ==> ConsumeAll(old(Value()), wanted) == Failure(error.value)
    {
      hide Walk;
      for i := 0 to |wanted|
        invariant ConsumeAll(old(Value()), wanted[..i]) == Success(Value())
      {
        assert wanted[..i + 1][..i] == wanted[..i];
        var w := wanted[i];
        if w.quantity <= 0 {
          RequestsPrefixFails(old(Value()), wanted, i + 1);
          return Some(InvalidQuantity);
        }
        var remaining := WalkStacks(items, w, w.quantity);
        if remaining.Failure? {
          RequestsPrefixFails(old(Value()), wanted, i + 1);
          return Some(remaining.error);
        }
        if remaining.value != 0 {
          RequestsPrefixFails(old(Value()), wanted, i + 1);
          return Some(ItemNotFound);
        }
      }
      assert wanted[..|wanted|] == wanted;
      return None;
    }

    method ListStocked() returns (found: seq<Instance>)
      ensures found == Stocked(items)
    {
      found := [];
      for i := 0 to |items|
        invariant found == Stocked(items[..i])
      {
        assert items[..i + 1][..i] == items[..i];
        if items[i].quantity > 0 {
          found := found + [items[i]];
        }
      }
      assert items[..|items|] == items;
    }

    method TakeAll(wanted: seq<Wanted>) returns (error: Option<Error>)
      requires slots == map[]
      modifies this
      ensures error.None? ==> slots == map[] && TakeIngredients(old(items), wanted) == Success(items)
      ensures error.Some? ==> TakeIngredients(old(items), wanted) == Failure(error.value)
    {
      hide Walk, Stocked;
      for i := 0 to |wanted|
        invariant slots == map[] && TakeIngredients(old(items), wanted[..i]) == Success(items)
      {
        assert wanted[..i + 1][..i] == wanted[..i];
        var found := ListStocked();
        ghost var before := Value();
        var needed := WalkStacks(found, wanted[i], wanted[i].quantity);
        if needed.Success? {
          WalkNeedsNoSlots(found, before, wanted[i], wanted[i].quantity);
        }
        if needed.Failure? {
          IngredientsPrefixFails(old(items), wanted, i + 1);
          return Some(needed.error);
        }
        if needed.value > 0 {
          IngredientsPrefixFails(old(items), wanted, i + 1);
          return Some(InsufficientMaterials);
        }
      }
      assert wanted[..|wanted|] == wanted;
      return None;
    }

    method Add(capacity: int, x: Instance, stackable: bool) returns (error: Option<Error>)
      modifies this`items
      ensures error.None? ==> AddItem(old(items), capacity, x, stackable) == Success(items)
      ensures error.Some? ==> AddItem(old(items), capacity, x, stackable) == Failure(error.value) && items == old(items)
    {
      var found := -1;
      for i := 0 to |items|
        invariant found == StackIndex(items[..i], x.definition)
        invariant items == old(items)
      {
        assert items[..i + 1][..i] == items[..i];
        if found < 0 && items[i].definition == x.definition && !items[i].enhanced {
          found := i;
        }
      }
      assert items[..|items|] == items;
      if stackable && !x.enhanced && found >= 0 {
        items := items[found := items[found].(quantity := items[found].quantity + x.quantity)];
      } else if |items| >= capacity {
        return Some(DepotFull);
      } else {
        items := items + [x];
      }
      return None;
    }
  }

  /** A character's synthesis record beside its depot. */
  class Laboratory {
    const depot: Storage
    const capacity: int
    var stage: Stage
    var recipe: Option<Recipe>
    var crafts: int
    ghost var started: seq<Recipe>
    ghost var claimed: seq<Recipe>

    ghost function Value(): Lab
      reads this, depot
    {
      Lab(depot.items, capacity, stage, recipe, crafts, started, claimed)
    }

    constructor (depot: Storage, capacity: int)
      ensures this.depot == depot && Value() == Lab(depot.items, capacity, Idle, None, 0, [], [])
    {
      this.depot, this.capacity := depot, capacity;
      stage, recipe, crafts, started, claimed := Idle, None, 0, [], [];
    }

    method Short(wanted: seq<Wanted>) returns (short: bool)
      ensures short == SomeShort(depot.items, wanted)
    {
      for i := 0 to |wanted|
        invariant forall k :: 0 <= k < i ==> Total(depot.items, wanted[k].definition) >= wanted[k].quantity
      {
        if Total(depot.items, wanted[i].definition) < wanted[i].quantity {
          return true;
        }
      }
      return false;
    }

    method Synthesize(r: Recipe, learned: bool) returns (error: Option<Error>)
      requires depot.slots == map[]
      modifies this, depot
      ensures error.None? ==> Alchemy.Synthesize(old(Value()), r, learned) == Success(Value()) && depot.slots == map[]
      ensures error.Some? ==> Alchemy.Synthesize(old(Value()), r, learned) == Failure(error.value) && Value() == old(Value())
    {
      hide TakeIngredients, SomeShort;
      if stage != Idle {
        return Some(InProgress);
      }
      if !learned {
        return Some(NotLearned);
      }
      var short := Short(r.ingredients);
      if short {
        return Some(InsufficientMaterials);
      }
      var before := depot.items;
      error := depot.TakeAll(r.ingredients);
      if error.Some? {
        depot.items := before;
        return;
      }
      stage, recipe := Ongoing, Some(r);
      started := started + [r];
    }

    method Complete()
      modifies this`stage
      ensures Value() == Alchemy.Complete(old(Value()))
    {
      if stage == Ongoing {
        stage := Completed;
      }
    }

    method Claim(newId: Id) returns (error: Option<Error>)
      modifies this, depot`items
      ensures error.None? ==> Alchemy.Claim(old(Value()), newId) == Success(Value())
      ensures error.Some? ==> Alchemy.Claim(old(Value()), newId) == Failure(error.value) && Value() == old(Value())
    {
      hide AddItem;
      if stage == Ongoing {
        return Some(NotReady);
      }
      if stage != Completed || recipe.None? {
        return Some(NothingToClaim);
      }
      var r := recipe.value;
      error := depot.Add(capacity, Instance(newId, r.result, r.resultQuantity, false), r.stackable);
      if error.Some? {
        return;
      }
      stage, recipe, crafts := Idle, None, crafts + 1;
      claimed := claimed + [r];
    }
  }
}

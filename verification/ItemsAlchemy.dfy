/** Synthesis: ingredients leave the depot when it starts, its result enters when it is claimed, one at a time. */
module ItemsAlchemy {
  import opened Common
  import opened ItemsStock

  datatype Stage = Idle | Ongoing | Completed

  datatype Recipe = Recipe(id: Id, ingredients: seq<Wanted>, result: Id, resultQuantity: int, stackable: bool)

  /** `started` and `claimed` are history variables: the recipes begun and the recipes handed out, in order. */
  datatype Lab = Lab(items: seq<Instance>, capacity: int, stage: Stage, recipe: Option<Recipe>, crafts: int,
    started: seq<Recipe>, claimed: seq<Recipe>)

  /** Empty stacks are never candidates of a depot walk. */
  function Stocked(items: seq<Instance>): seq<Instance> {
    if items == [] then []
    else Stocked(items[..|items| - 1]) + (if items[|items| - 1].quantity > 0 then [items[|items| - 1]] else [])
  }

  /** One ingredient over the depot's stacks; a shortfall has its own error here. */
  function TakeIngredient(items: seq<Instance>, w: Wanted): Result<seq<Instance>, Error> {
    var (after, needed) :- Walk(Stocked(items), Bag(items, map[]), w, w.quantity);
    if needed > 0 then Failure(InsufficientMaterials) else Success(after.items)
  }

  function TakeIngredients(items: seq<Instance>, wanted: seq<Wanted>): Result<seq<Instance>, Error> {
    if wanted == [] then Success(items)
    else
      var before :- TakeIngredients(items, wanted[..|wanted| - 1]);
      TakeIngredient(before, wanted[|wanted| - 1])
  }

  predicate SomeShort(items: seq<Instance>, wanted: seq<Wanted>) {
    exists k :: 0 <= k < |wanted| && Total(items, wanted[k].definition) < wanted[k].quantity
  }

  function Synthesize(lab: Lab, recipe: Recipe, learned: bool): Result<Lab, Error> {
    if lab.stage != Idle then Failure(InProgress)
    else if !learned then Failure(NotLearned)
    else if SomeShort(lab.items, recipe.ingredients) then Failure(InsufficientMaterials)
    else
      var items :- TakeIngredients(lab.items, recipe.ingredients);
      Success(lab.(items := items, stage := Ongoing, recipe := Some(recipe), started := lab.started + [recipe]))
  }

  /** A battle passed: whatever was brewing is done. */
  function Complete(lab: Lab): Lab {
    if lab.stage == Ongoing then lab.(stage := Completed) else lab
  }

  function StackIndex(items: seq<Instance>, definition: Id): (i: int)
    ensures -1 <= i < |items| && (i >= 0 ==> items[i].definition == definition && !items[i].enhanced)
  {
    if items == [] then -1
    else
      var before := StackIndex(items[..|items| - 1], definition);
      var last := items[|items| - 1];
      if before >= 0 then before else if last.definition == definition && !last.enhanced then |items| - 1 else -1
  }

  /** Stackable goods join a plain stack of their kind, even in a full depot; everything else needs a free slot. */
  function AddItem(items: seq<Instance>, capacity: int, x: Instance, stackable: bool): Result<seq<Instance>, Error> {
    var i := StackIndex(items, x.definition);
    if stackable && !x.enhanced && i >= 0 then Success(items[i := items[i].(quantity := items[i].quantity + x.quantity)])
    else if |items| >= capacity then Failure(DepotFull)
    else Success(items + [x])
  }

  function Claim(lab: Lab, newId: Id): Result<Lab, Error> {
    if lab.stage == Ongoing then Failure(NotReady)
    else if lab.stage != Completed || lab.recipe.None? then Failure(NothingToClaim)
    else
      var r := lab.recipe.value;
      var items :- AddItem(lab.items, lab.capacity, Instance(newId, r.result, r.resultQuantity, false), r.stackable);
      Success(lab.(items := items, stage := Idle, recipe := None, crafts := lab.crafts + 1, claimed := lab.claimed + [r]))
  }

  // ---------- ingredients ----------

  ghost predicate GoodRecipe(r: Recipe) {
    Plain(r.ingredients) && Positive(r.ingredients) && r.resultQuantity > 0
  }

  lemma {:induction false} StockedIsAll(items: seq<Instance>)
    requires forall i :: 0 <= i < |items| ==> items[i].quantity > 0
    ensures Stocked(items) == items
    decreases |items|
  {
    if items != [] {
      StockedIsAll(items[..|items| - 1]);
    }
  }

  lemma {:induction false} WalkNeedsNoSlots(snapshot: seq<Instance>, bag: Bag, w: Wanted, remaining: int)
    requires bag.slots == map[] && Walk(snapshot, bag, w, remaining).Success?
    ensures Walk(snapshot, bag, w, remaining).value.0.slots == map[]
    decreases |snapshot|
  {
    hide Consume, Owned;
    if snapshot != [] {
      if Candidate(snapshot[0], w) {
        var take := Min(snapshot[0].quantity, remaining);
        var after := TakeFrom(bag, snapshot[0].id, take).value;
        assert after.slots == map[];
        if remaining != take {
          WalkNeedsNoSlots(snapshot[1..], after, w, remaining - take);
        }
      } else {
        WalkNeedsNoSlots(snapshot[1..], bag, w, remaining);
      }
    }
  }

  /** Over a well-kept depot the ingredient walk is the general one. */
  lemma IngredientIsRequest(items: seq<Instance>, w: Wanted)
    requires WellStocked(items) && w.quantity > 0
    ensures TakeIngredient(items, w).Success? <==> ConsumeWanted(Bag(items, map[]), w).Success?
    ensures TakeIngredient(items, w).Success? ==> TakeIngredient(items, w).value == ConsumeWanted(Bag(items, map[]), w).value.items
    ensures TakeIngredient(items, w).Failure? ==> TakeIngredient(items, w).error == InsufficientMaterials
    ensures ConsumeWanted(Bag(items, map[]), w).Success? ==> ConsumeWanted(Bag(items, map[]), w).value.slots == map[]
  {
    hide Taken, Walk, Stocked, Available;
    StockedIsAll(items);
    WalkTakes(items, Bag(items, map[]), w, w.quantity);
    WalkNeedsNoSlots(items, Bag(items, map[]), w, w.quantity);
  }

  lemma {:induction false} IngredientsAreRequests(items: seq<Instance>, wanted: seq<Wanted>)
    requires WellStocked(items) && Positive(wanted)
    ensures TakeIngredients(items, wanted).Success? <==> ConsumeAll(Bag(items, map[]), wanted).Success?
    ensures TakeIngredients(items, wanted).Success? ==>
      && ConsumeAll(Bag(items, map[]), wanted).value == Bag(TakeIngredients(items, wanted).value, map[])
      && WellStocked(TakeIngredients(items, wanted).value)
    ensures TakeIngredients(items, wanted).Failure? ==> TakeIngredients(items, wanted).error == InsufficientMaterials
    decreases |wanted|
  {
    if wanted != [] {
      hide WellStocked, ConsumeWanted, TakeIngredient, SlotsFollow, Total;
      var n := |wanted| - 1;
      assert Positive(wanted[..n]);
      IngredientsAreRequests(items, wanted[..n]);
      if TakeIngredients(items, wanted[..n]).Success? {
        IngredientIsRequest(TakeIngredients(items, wanted[..n]).value, wanted[n]);
        if ConsumeAll(Bag(items, map[]), wanted).Success? {
          ConsumptionIsExact(Bag(items, map[]), wanted);
        }
      }
    }
  }

  /** Synthesis starts exactly when nothing is brewing, the recipe is learned and the depot covers all of it; then it costs exactly that. */
  lemma SynthesisStartsIff(lab: Lab, r: Recipe, learned: bool)
    requires WellStocked(lab.items) && GoodRecipe(r)
    ensures Synthesize(lab, r, learned).Success? <==> lab.stage == Idle && learned && Covered(lab.items, r.ingredients)
    ensures Synthesize(lab, r, learned).Success? ==>
      var after := Synthesize(lab, r, learned).value;
      && WellStocked(after.items) && after == lab.(items := after.items, stage := Ongoing, recipe := Some(r), started := lab.started + [r])
      && forall d :: Total(after.items, d) == Total(lab.items, d) - Requested(r.ingredients, d)
    ensures var s := Synthesize(lab, r, learned);
      s.Failure? ==> s.error == if lab.stage != Idle then InProgress else if !learned then NotLearned else InsufficientMaterials
  {
    hide WellStocked, Total, ConsumeAll, Covered, SlotsFollow, Shrunk;
    IngredientsAreRequests(lab.items, r.ingredients);
    PlainListIsMetIff(Bag(lab.items, map[]), r.ingredients);
    if TakeIngredients(lab.items, r.ingredients).Success? {
      ConsumptionIsExact(Bag(lab.items, map[]), r.ingredients);
      EachCovered(lab.items, r.ingredients);
    }
  }

  lemma EachCovered(items: seq<Instance>, wanted: seq<Wanted>)
    requires Positive(wanted) && Covered(items, wanted)
    ensures !SomeShort(items, wanted)
  {
    hide Total;
    forall k | 0 <= k < |wanted| ensures wanted[k].quantity <= Total(items, wanted[k].definition) {
      OneOfMany(wanted, k);
    }
  }

  lemma {:induction false} OneOfMany(wanted: seq<Wanted>, k: nat)
    requires Positive(wanted) && k < |wanted|
    ensures wanted[k].quantity <= Requested(wanted, wanted[k].definition)
    decreases |wanted|
  {
    var n := |wanted| - 1;
    RequestedGrows(wanted, wanted[k].definition);
    if k < n {
      assert Positive(wanted[..n]);
      OneOfMany(wanted[..n], k);
    }
  }

  // ---------- results ----------

  lemma AddItemAdds(items: seq<Instance>, capacity: int, x: Instance, stackable: bool)
    requires WellStocked(items) && x.quantity > 0 && !Owned(items, x.id) && AddItem(items, capacity, x, stackable).Success?
    ensures var after := AddItem(items, capacity, x, stackable).value;
      && WellStocked(after)
      && forall d :: Total(after, d) == Total(items, d) + (if d == x.definition then x.quantity else 0)
  {
    var after := AddItem(items, capacity, x, stackable).value;
    var i := StackIndex(items, x.definition);
    if stackable && !x.enhanced && i >= 0 {
      var grown := items[i].(quantity := items[i].quantity + x.quantity);
      assert after == items[..i] + [grown] + items[i + 1..];
      forall d ensures Total(after, d) == Total(items, d) + (if d == x.definition then x.quantity else 0) {
        ReplacedTotal(items, after, i, [grown], d);
      }
    } else {
      assert after[..|items|] == items;
      forall k | 0 <= k < |items| ensures items[k].id != x.id {
      }
    }
  }

  /** The first stack of a kind that is not enhanced. */
  predicate FirstPlain(items: seq<Instance>, definition: Id, i: nat) {
    && i < |items| && items[i].definition == definition && !items[i].enhanced
    && forall j :: 0 <= j < i ==> items[j].definition != definition || items[j].enhanced
  }

  lemma {:induction false} StackIndexIs(items: seq<Instance>, definition: Id)
    ensures forall i: nat :: FirstPlain(items, definition, i) <==> i == StackIndex(items, definition)
    ensures StackIndex(items, definition) < 0 ==> forall j :: 0 <= j < |items| ==> items[j].definition != definition || items[j].enhanced
    decreases |items|
  {
    if items != [] {
      var n := |items| - 1;
      StackIndexIs(items[..n], definition);
      forall i: nat ensures FirstPlain(items, definition, i) <==> i == StackIndex(items, definition) {
        if i < n { assert FirstPlain(items, definition, i) <==> FirstPlain(items[..n], definition, i); }
        if StackIndex(items[..n], definition) >= 0 { assert FirstPlain(items[..n], definition, StackIndex(items[..n], definition)); }
      }
    }
  }

  /** Stackable goods have a place wherever a plain stack of their kind is, everything else needs a free slot. */
  predicate HasPlace(items: seq<Instance>, capacity: int, definition: Id, stackable: bool) {
    (stackable && exists i :: 0 <= i < |items| && items[i].definition == definition && !items[i].enhanced) || |items| < capacity
  }

  lemma PlaceIsFirst(items: seq<Instance>, definition: Id)
    ensures (exists i :: 0 <= i < |items| && items[i].definition == definition && !items[i].enhanced) <==> StackIndex(items, definition) >= 0
  {
    StackIndexIs(items, definition);
  }

  /** Goods join the first plain stack of their kind when they may, and otherwise become a stack of their own. */
  lemma AddedWhere(items: seq<Instance>, capacity: int, x: Instance, stackable: bool)
    requires !x.enhanced
    ensures var r := AddItem(items, capacity, x, stackable);
      && (r.Success? <==> HasPlace(items, capacity, x.definition, stackable))
      && (r.Failure? ==> r.error == DepotFull)
      && (r.Success? ==> Joined(items, r.value, x, stackable))
  {
    PlaceIsFirst(items, x.definition);
    StackIndexIs(items, x.definition);
    hide StackIndex, FirstPlain;
  }

  ghost predicate Joined(items: seq<Instance>, after: seq<Instance>, x: Instance, stackable: bool) {
    if stackable && exists i :: 0 <= i < |items| && items[i].definition == x.definition && !items[i].enhanced
    then exists i: nat :: FirstPlain(items, x.definition, i) && after == items[i := items[i].(quantity := items[i].quantity + x.quantity)]
    else after == items + [x]
  }

  /**
   A result is handed out exactly when it is done and has a place; it then joins the first plain stack of its kind or
   becomes a stack of its own, and the laboratory is free again with one more craft to its name.
   */
  lemma ClaimedIff(lab: Lab, newId: Id)
    ensures var r := Claim(lab, newId);
      var done := lab.stage == Completed && lab.recipe.Some?;
      && (r.Success? <==> done && HasPlace(lab.items, lab.capacity, lab.recipe.value.result, lab.recipe.value.stackable))
      && (r.Failure? ==> r.error == if lab.stage == Ongoing then NotReady else if done then DepotFull else NothingToClaim)
      && (r.Success? ==>
            var made := lab.recipe.value;
            && r.value == lab.(items := r.value.items, stage := Idle, recipe := None, crafts := lab.crafts + 1, claimed := lab.claimed + [made])
            && Joined(lab.items, r.value.items, Instance(newId, made.result, made.resultQuantity, false), made.stackable))
  {
    hide AddItem, HasPlace, Joined;
    if lab.recipe.Some? {
      var made := lab.recipe.value;
      AddedWhere(lab.items, lab.capacity, Instance(newId, made.result, made.resultQuantity, false), made.stackable);
    }
  }

  // ---------- whole runs ----------

  datatype Event = Begun(recipe: Recipe, learned: bool) | Fought | Claimed(newId: Id)

  function Happen(lab: Lab, e: Event): Lab {
    match e
    case Begun(recipe, learned) => var r := Synthesize(lab, recipe, learned); if r.Success? then r.value else lab
    case Fought => Complete(lab)
    case Claimed(newId) => var r := Claim(lab, newId); if r.Success? then r.value else lab
  }

  function After(lab: Lab, events: seq<Event>): Lab {
    if events == [] then lab else Happen(After(lab, events[..|events| - 1]), events[|events| - 1])
  }

  ghost predicate Proper(lab: Lab, e: Event) {
    && (e.Begun? ==> GoodRecipe(e.recipe))
    && (e.Claimed? ==> !Owned(lab.items, e.newId))
  }

  ghost predicate AllProper(lab: Lab, events: seq<Event>) {
    forall i :: 0 <= i < |events| ==> Proper(After(lab, events[..i]), events[i])
  }

  predicate BattlePassed(events: seq<Event>) {
    exists i :: 0 <= i < |events| && events[i].Fought?
  }

  /**
   What is brewing is done as soon as a battle has passed and not before, whatever else is begun or asked for in vain
   meanwhile, and stays done, with the depot as it was, until it is claimed.
   */
  lemma {:induction false} ReadyAfterBattle(lab: Lab, events: seq<Event>)
    requires lab.stage == Ongoing && forall i :: 0 <= i < |events| ==> events[i].Claimed? ==> !BattlePassed(events[..i])
    ensures After(lab, events) == lab.(stage := if BattlePassed(events) then Completed else Ongoing)
    decreases |events|
  {
    if events != [] {
      var n := |events| - 1;
      forall i | 0 <= i < n && events[..n][i].Claimed? ensures !BattlePassed(events[..n][..i]) {
        assert events[..n][..i] == events[..i];
      }
      ReadyAfterBattle(lab, events[..n]);
      if BattlePassed(events[..n]) {
        var i :| 0 <= i < n && events[..n][i].Fought?;
        assert events[i].Fought?;
      }
      if BattlePassed(events) && !events[n].Fought? {
        var i :| 0 <= i < |events| && events[i].Fought?;
        assert events[..n][i].Fought?;
      }
    }
  }

  /** What is brewing was begun last and not yet claimed; everything before it was. */
  ghost predicate InStep(lab: Lab) {
    && WellStocked(lab.items)
    && (lab.stage == Idle <==> lab.recipe.None?)
    && lab.started == lab.claimed + (if lab.recipe.Some? then [lab.recipe.value] else [])
    && (lab.recipe.Some? ==> GoodRecipe(lab.recipe.value))
  }

  function Cost(started: seq<Recipe>, d: Id): int {
    if started == [] then 0 else Cost(started[..|started| - 1], d) + Requested(started[|started| - 1].ingredients, d)
  }

  function Yield(claimed: seq<Recipe>, d: Id): int {
    if claimed == [] then 0
    else
      var last := claimed[|claimed| - 1];
      Yield(claimed[..|claimed| - 1], d) + (if last.result == d then last.resultQuantity else 0)
  }

  function Balance(lab: Lab, d: Id): int {
    Total(lab.items, d) + Cost(lab.started, d) - Yield(lab.claimed, d)
  }

  lemma BegunKeepsBalance(lab: Lab, recipe: Recipe, learned: bool)
    requires InStep(lab) && GoodRecipe(recipe) && Synthesize(lab, recipe, learned).Success?
    ensures var after := Synthesize(lab, recipe, learned).value;
      InStep(after) && forall d :: Balance(after, d) == Balance(lab, d)
  {
    SynthesisStartsIff(lab, recipe, learned);
    hide WellStocked, Total, Synthesize, GoodRecipe, Requested, Covered;
    var after := Synthesize(lab, recipe, learned).value;
    assert after.started[..|lab.started|] == lab.started;
  }

  lemma ClaimedKeepsBalance(lab: Lab, newId: Id)
    requires InStep(lab) && !Owned(lab.items, newId) && Claim(lab, newId).Success?
    ensures var after := Claim(lab, newId).value;
      InStep(after) && forall d :: Balance(after, d) == Balance(lab, d)
  {
    hide WellStocked, Total, AddItem, GoodRecipe;
    var r := Claim(lab, newId);
    var x := Instance(newId, lab.recipe.value.result, lab.recipe.value.resultQuantity, false);
    YieldsSomething(lab.recipe.value);
    AddItemAdds(lab.items, lab.capacity, x, lab.recipe.value.stackable);
    assert r.value.claimed[..|lab.claimed|] == lab.claimed;
    assert r.value.claimed + [] == r.value.claimed;
  }

  lemma EventKeepsBalance(lab: Lab, e: Event)
    requires InStep(lab) && Proper(lab, e)
    ensures InStep(Happen(lab, e)) && forall d :: Balance(Happen(lab, e), d) == Balance(lab, d)
  {
    hide WellStocked, Total, Synthesize, Claim, GoodRecipe, Owned;
    match e
    case Begun(recipe, learned) =>
      if Synthesize(lab, recipe, learned).Success? { BegunKeepsBalance(lab, recipe, learned); }
    case Fought =>
    case Claimed(newId) =>
      if Claim(lab, newId).Success? { ClaimedKeepsBalance(lab, newId); }
  }

  lemma YieldsSomething(r: Recipe)
    requires GoodRecipe(r)
    ensures r.resultQuantity > 0
  {
  }

  /**
   Over any run every synthesis begun is claimed at most once and in order, at most the last one is outstanding,
   and each definition's stock is what it was, less what the begun recipes cost, plus what the claimed ones yield.
   */
  lemma {:induction false} StockIsAccounted(lab: Lab, events: seq<Event>)
    requires InStep(lab) && AllProper(lab, events)
    ensures InStep(After(lab, events)) && forall d :: Balance(After(lab, events), d) == Balance(lab, d)
    decreases |events|
  {
    hide InStep, Happen, Proper, Balance;
    if events != [] {
      var n := |events| - 1;
      forall i | 0 <= i < n ensures Proper(After(lab, events[..n][..i]), events[..n][i]) {
        assert events[..n][..i] == events[..i];
      }
      StockIsAccounted(lab, events[..n]);
      EventKeepsBalance(After(lab, events[..n]), events[n]);
    }
  }
}

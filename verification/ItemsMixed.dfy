/** Lists that mix both kinds of request: when they are met and what they leave of each stack, from stacks and list alone. */
module ItemsMixed {
  import opened Common
  import opened ItemsStock
  import opened ItemsNamed

  // ---------- the arithmetic ----------

  /** What the stacks of a definition hold together, of those in a set of identifiers. */
  function Held(items: seq<Instance>, definition: Id, ids: set<Id>): int {
    if items == [] then 0
    else
      (if items[0].definition == definition && items[0].id in ids then items[0].quantity else 0)
        + Held(items[1..], definition, ids)
  }

  /** What one more request leaves of `held`: one for any stack takes what there is, a named one only from its own. */
  function Less(held: int, w: Wanted, definition: Id, ids: set<Id>): int {
    if w.definition != definition then held
    else if w.instance == NOBODY then Max(0, held - w.quantity)
    else if w.instance in ids then held - w.quantity
    else held
  }

  /** What a list of requests leaves of the stacks of a definition in a set of identifiers. */
  function Rest(items: seq<Instance>, wanted: seq<Wanted>, definition: Id, ids: set<Id>): int {
    if wanted == [] then Held(items, definition, ids)
    else Less(Rest(items, wanted[..|wanted| - 1], definition, ids), wanted[|wanted| - 1], definition, ids)
  }

  function IdsOf(items: seq<Instance>): set<Id> {
    set x | x in items :: x.id
  }

  /** What a list of requests leaves of the j-th stack: what the first j + 1 stacks keep and the first j do not. */
  function LeftAt(items: seq<Instance>, wanted: seq<Wanted>, j: nat): int
    requires j < |items|
  {
    var d := items[j].definition;
    Rest(items, wanted, d, IdsOf(items[..j + 1])) - Rest(items, wanted, d, IdsOf(items[..j]))
  }

  // ---------- stacks that come first ----------

  /** With a stack in the set every stack listed before it is in the set. */
  ghost predicate Leading(items: seq<Instance>, ids: set<Id>) {
    forall i, j :: 0 <= i < j < |items| && items[j].id in ids ==> items[i].id in ids
  }

  /** What is left are stacks that were there, as much of them or less, in the same order. */
  ghost predicate Thinned(before: seq<Instance>, after: seq<Instance>) {
    exists at: seq<nat> :: Picks(before, after, at)
  }

  predicate PartOf(y: Instance, x: Instance) {
    y == x.(quantity := y.quantity) && y.quantity <= x.quantity
  }

  ghost predicate Picks(before: seq<Instance>, after: seq<Instance>, at: seq<nat>) {
    && |at| == |after|
    && (forall i :: 0 <= i < |after| ==> at[i] < |before| && PartOf(after[i], before[at[i]]))
    && forall i, j :: 0 <= i < j < |after| ==> at[i] < at[j]
  }

  lemma ThinnedSelf(items: seq<Instance>)
    ensures Thinned(items, items)
  {
    assert Picks(items, items, seq(|items|, i => i));
  }

  lemma ThinnedThrough(a: seq<Instance>, b: seq<Instance>, c: seq<Instance>)
    requires Thinned(a, b) && Thinned(b, c)
    ensures Thinned(a, c)
  {
    var at :| Picks(a, b, at);
    var on :| Picks(b, c, on);
    assert Picks(a, c, seq(|c|, i requires 0 <= i < |c| => at[on[i]]));
  }

  lemma ThinnedLeads(before: seq<Instance>, after: seq<Instance>, ids: set<Id>)
    requires Thinned(before, after) && Leading(before, ids)
    ensures Leading(after, ids)
  {
    var at :| Picks(before, after, at);
  }

  lemma ConsumeThins(items: seq<Instance>, id: Id, quantity: int)
    requires Consume(items, id, quantity).Success?
    ensures Thinned(items, Consume(items, id, quantity).value)
  {
    var i := IndexOf(items, id);
    var after := Consume(items, id, quantity).value;
    if items[i].quantity == quantity {
      assert Picks(items, after, seq(|after|, k requires 0 <= k < |after| => if k < i then k else k + 1));
    } else {
      assert Picks(items, after, seq(|after|, k => k));
    }
  }

  // ---------- taking from one stack ----------

  lemma {:induction false} HeldSplit(a: seq<Instance>, b: seq<Instance>, d: Id, ids: set<Id>)
    ensures Held(a + b, d, ids) == Held(a, d, ids) + Held(b, d, ids)
    decreases |a|
  {
    if a == [] {
      assert a + b == b;
    } else {
      HeldSplit(a[1..], b, d, ids);
      assert (a + b)[1..] == a[1..] + b;
    }
  }

  lemma HeldOne(x: Instance, d: Id, ids: set<Id>)
    ensures Held([x], d, ids) == if x.definition == d && x.id in ids then x.quantity else 0
  {
  }

  lemma ConsumeHeld(items: seq<Instance>, x: Instance, quantity: int, d: Id, ids: set<Id>)
    requires WellStocked(items) && x in items && 0 < quantity <= x.quantity
    ensures Consume(items, x.id, quantity).Success?
    ensures Held(Consume(items, x.id, quantity).value, d, ids)
      == Held(items, d, ids) - (if x.definition == d && x.id in ids then quantity else 0)
  {
    var i := IndexOf(items, x.id);
    assert items[i] == x;
    var after := Consume(items, x.id, quantity).value;
    var left := if quantity == x.quantity then [] else [x.(quantity := x.quantity - quantity)];
    assert after == items[..i] + (left + items[i + 1..]);
    assert items == items[..i] + ([x] + items[i + 1..]);
    HeldSplit(items[..i], left + items[i + 1..], d, ids);
    HeldSplit(items[..i], [x] + items[i + 1..], d, ids);
    HeldSplit(left, items[i + 1..], d, ids);
    HeldSplit([x], items[i + 1..], d, ids);
    HeldOne(x, d, ids);
    if left != [] { HeldOne(left[0], d, ids); }
  }

  // ---------- one request ----------

  lemma {:induction false} HeldIsNatural(items: seq<Instance>, d: Id, ids: set<Id>)
    requires forall i :: 0 <= i < |items| ==> items[i].quantity > 0
    ensures Held(items, d, ids) >= 0
    decreases |items|
  {
    if items != [] {
      HeldIsNatural(items[1..], d, ids);
    }
  }

  /** Nothing of the rest of a snapshot is in a leading set once a stack is not. */
  lemma {:induction false} NothingBehind(items: seq<Instance>, d: Id, ids: set<Id>)
    requires Leading(items, ids) && (items != [] ==> items[0].id !in ids)
    ensures Held(items, d, ids) == 0
    decreases |items|
  {
    if items != [] {
      assert |items| > 1 ==> items[1].id !in ids;
      NothingBehind(items[1..], d, ids);
    }
  }

  /** How much a walk over a snapshot takes from the stacks of a leading set. */
  function TakenOf(snapshot: seq<Instance>, w: Wanted, remaining: int, ids: set<Id>): int {
    if w.instance == NOBODY then Min(Held(snapshot, w.definition, ids), remaining)
    else if w.instance in ids then Min(Available(snapshot, w), remaining)
    else 0
  }

  lemma {:induction false} WalkHeld(snapshot: seq<Instance>, bag: Bag, w: Wanted, remaining: int, d: Id, ids: set<Id>)
    requires WellStocked(bag.items) && Untouched(snapshot, bag.items) && remaining > 0
    requires Leading(snapshot, ids) && Walk(snapshot, bag, w, remaining).Success?
    ensures var after := Walk(snapshot, bag, w, remaining).value.0;
      && Thinned(bag.items, after.items)
      && Held(after.items, d, ids) == Held(bag.items, d, ids) - (if w.definition == d then TakenOf(snapshot, w, remaining, ids) else 0)
    decreases |snapshot|
  {
    hide WellStocked, Untouched, Thinned, Consume;
    if snapshot == [] {
      ThinnedSelf(bag.items);
    } else {
      TailUntouched(snapshot, bag.items);
      SnapshotIsNatural(snapshot, bag.items, w, ids);
      if Candidate(snapshot[0], w) {
        TakeHead(snapshot, bag, w, remaining);
        var take := Min(snapshot[0].quantity, remaining);
        HeadIsThere(snapshot, bag.items);
        ConsumeHeld(bag.items, snapshot[0], take, d, ids);
        ConsumeThins(bag.items, snapshot[0].id, take);
        var after := TakeFrom(bag, snapshot[0].id, take).value;
        if snapshot[0].id !in ids { NothingBehind(snapshot, w.definition, ids); }
        if remaining != take {
          WalkHeld(snapshot[1..], after, w, remaining - take, d, ids);
          ThinnedThrough(bag.items, after.items, Walk(snapshot[1..], after, w, remaining - take).value.0.items);
        }
      } else {
        WalkHeld(snapshot[1..], bag, w, remaining, d, ids);
      }
    }
  }

  lemma HeadIsThere(snapshot: seq<Instance>, items: seq<Instance>)
    requires snapshot != [] && Untouched(snapshot, items)
    ensures snapshot[0] in items && snapshot[0].quantity > 0
  {
  }

  lemma SnapshotIsNatural(snapshot: seq<Instance>, items: seq<Instance>, w: Wanted, ids: set<Id>)
    requires snapshot != [] && Untouched(snapshot, items)
    ensures Held(snapshot[1..], w.definition, ids) >= 0 && Available(snapshot[1..], w) >= 0 && snapshot[0].quantity > 0
    ensures w.instance != NOBODY && snapshot[0].id == w.instance ==> Available(snapshot[1..], w) == 0
  {
    HeldIsNatural(snapshot[1..], w.definition, ids);
    AvailableIsNatural(snapshot[1..], w);
    if w.instance != NOBODY && snapshot[0].id == w.instance {
      NoCandidateTakesNothing(snapshot[1..], Bag([], map[]), w, 0);
    }
  }

  /** One request leaves of the stacks of a leading set what the arithmetic says. */
  lemma RequestHeld(bag: Bag, w: Wanted, d: Id, ids: set<Id>)
    requires WellStocked(bag.items) && Leading(bag.items, ids) && ConsumeWanted(bag, w).Success?
    ensures var after := ConsumeWanted(bag, w).value;
      Thinned(bag.items, after.items) && Held(after.items, d, ids) == Less(Held(bag.items, d, ids), w, d, ids)
  {
    hide Walk, Thinned, Leading;
    RequestIsMetIff(bag, w);
    WalkHeld(bag.items, bag, w, w.quantity, d, ids);
  }

  // ---------- whole lists ----------

  /** What the list has left of the stacks of a leading set is what the arithmetic says. */
  lemma {:induction false} HeldIsRest(bag: Bag, wanted: seq<Wanted>, d: Id, ids: set<Id>)
    requires WellStocked(bag.items) && Leading(bag.items, ids) && ConsumeAll(bag, wanted).Success?
    ensures var after := ConsumeAll(bag, wanted).value;
      && WellStocked(after.items) && Thinned(bag.items, after.items)
      && Held(after.items, d, ids) == Rest(bag.items, wanted, d, ids)
    decreases |wanted|
  {
    hide ConsumeWanted, WellStocked, Leading, Thinned, Held;
    if wanted == [] {
      ThinnedSelf(bag.items);
    } else {
      var n := |wanted| - 1;
      HeldIsRest(bag, wanted[..n], d, ids);
      var before := ConsumeAll(bag, wanted[..n]).value;
      ThinnedLeads(bag.items, before.items, ids);
      RequestHeld(before, wanted[n], d, ids);
      RequestIsMetIff(before, wanted[n]);
      ThinnedThrough(bag.items, before.items, ConsumeAll(bag, wanted).value.items);
      MetIsStocked(before, wanted[n]);
    }
  }

  lemma MetIsStocked(bag: Bag, w: Wanted)
    requires WellStocked(bag.items) && ConsumeWanted(bag, w).Success?
    ensures WellStocked(ConsumeWanted(bag, w).value.items)
  {
    RequestIsMetIff(bag, w);
  }

  lemma FirstStacksLead(items: seq<Instance>, j: nat)
    requires WellStocked(items) && j <= |items|
    ensures Leading(items, IdsOf(items[..j]))
    ensures j < |items| ==> items[j].id !in IdsOf(items[..j]) && IdsOf(items[..j + 1]) == IdsOf(items[..j]) + {items[j].id}
  {
    forall k | 0 <= k < |items| ensures items[k].id in IdsOf(items[..j]) <==> k < j {
      if k < j { assert items[..j][k] == items[k]; }
    }
    if j < |items| {
      assert items[..j + 1] == items[..j] + [items[j]];
    }
  }

  lemma {:induction false} HeldOneMore(items: seq<Instance>, d: Id, ids: set<Id>, id: Id)
    requires id !in ids
    ensures Held(items, d, ids + {id}) == Held(items, d, ids) + Held(items, d, {id})
    decreases |items|
  {
    if items != [] {
      HeldOneMore(items[1..], d, ids, id);
    }
  }

  /** What is left of the j-th stack after the list. */
  lemma LeftIsHeld(bag: Bag, wanted: seq<Wanted>, j: nat)
    requires WellStocked(bag.items) && ConsumeAll(bag, wanted).Success? && j < |bag.items|
    ensures var x := bag.items[j];
      LeftAt(bag.items, wanted, j) == Held(ConsumeAll(bag, wanted).value.items, x.definition, {x.id})
  {
    hide ConsumeAll, Rest, Held, Leading, WellStocked;
    var x := bag.items[j];
    FirstStacksLead(bag.items, j);
    FirstStacksLead(bag.items, j + 1);
    HeldIsRest(bag, wanted, x.definition, IdsOf(bag.items[..j]));
    HeldIsRest(bag, wanted, x.definition, IdsOf(bag.items[..j + 1]));
    HeldOneMore(ConsumeAll(bag, wanted).value.items, x.definition, IdsOf(bag.items[..j]), x.id);
  }

  // ---------- when a request of the list is met ----------

  /** Request `k` is for any stack, and the requests before it leave enough of all of them. */
  predicate EnoughOfAll(items: seq<Instance>, wanted: seq<Wanted>, k: nat)
    requires k < |wanted|
  {
    wanted[k].instance == NOBODY && wanted[k].quantity <= Rest(items, wanted[..k], wanted[k].definition, IdsOf(items))
  }

  /** Request `k` names a stack of the requested definition, and the requests before it leave enough of that stack. */
  predicate EnoughOfNamed(items: seq<Instance>, wanted: seq<Wanted>, k: nat)
    requires k < |wanted|
  {
    && wanted[k].instance != NOBODY
    && exists j :: 0 <= j < |items| && IsNamed(items[j], wanted[k]) && wanted[k].quantity <= LeftAt(items, wanted[..k], j)
  }

  predicate IsNamed(x: Instance, w: Wanted) {
    x.id == w.instance && x.definition == w.definition
  }

  predicate Coverable(items: seq<Instance>, wanted: seq<Wanted>, k: nat)
    requires k < |wanted|
  {
    wanted[k].quantity > 0 && (EnoughOfAll(items, wanted, k) || EnoughOfNamed(items, wanted, k))
  }

  lemma {:induction false} AnyIsHeld(items: seq<Instance>, w: Wanted, ids: set<Id>)
    requires w.instance == NOBODY && forall i :: 0 <= i < |items| ==> items[i].id in ids
    ensures Available(items, w) == Held(items, w.definition, ids)
    decreases |items|
  {
    if items != [] {
      AnyIsHeld(items[1..], w, ids);
    }
  }

  lemma {:induction false} NamedIsHeld(items: seq<Instance>, w: Wanted)
    requires w.instance != NOBODY
    ensures Available(items, w) == Held(items, w.definition, {w.instance})
    decreases |items|
  {
    if items != [] {
      NamedIsHeld(items[1..], w);
    }
  }

  lemma {:induction false} NobodyHolds(items: seq<Instance>, d: Id, id: Id)
    requires forall i :: 0 <= i < |items| ==> !(items[i].id == id && items[i].definition == d)
    ensures Held(items, d, {id}) == 0
    decreases |items|
  {
    if items != [] {
      NobodyHolds(items[1..], d, id);
    }
  }

  lemma AllLead(items: seq<Instance>)
    ensures Leading(items, IdsOf(items))
  {
    forall i | 0 <= i < |items| ensures items[i].id in IdsOf(items) {
      assert items[i] in items;
    }
  }

  lemma ThinnedIds(before: seq<Instance>, after: seq<Instance>)
    requires Thinned(before, after)
    ensures forall i :: 0 <= i < |after| ==> after[i].id in IdsOf(before)
    ensures forall y :: y in after ==> exists j :: 0 <= j < |before| && PartOf(y, before[j])
  {
    var at :| Picks(before, after, at);
    forall i | 0 <= i < |after| ensures after[i].id in IdsOf(before) && PartOf(after[i], before[at[i]]) {
      assert before[at[i]] in before;
    }
  }

  /** After a prefix that was met, the next request is met exactly when the arithmetic covers it. */
  lemma NextIsMetIff(bag: Bag, wanted: seq<Wanted>, k: nat)
    requires WellStocked(bag.items) && k < |wanted| && ConsumeAll(bag, wanted[..k]).Success?
    ensures ConsumeWanted(ConsumeAll(bag, wanted[..k]).value, wanted[k]).Success? <==> Coverable(bag.items, wanted, k)
  {
    hide ConsumeAll, ConsumeWanted, Rest, Held, Leading, Thinned, Available, WellStocked, LeftAt;
    var w, before := wanted[k], ConsumeAll(bag, wanted[..k]).value;
    AllLead(bag.items);
    HeldIsRest(bag, wanted[..k], w.definition, IdsOf(bag.items));
    ThinnedIds(bag.items, before.items);
    RequestIsMetIff(before, w);
    if w.instance == NOBODY {
      AnyIsHeld(before.items, w, IdsOf(bag.items));
    } else {
      NamedIsHeld(before.items, w);
      NamedAtMostOnce(bag.items, w);
      if j :| 0 <= j < |bag.items| && IsNamed(bag.items[j], w) {
        LeftIsHeld(bag, wanted[..k], j);
      } else {
        forall i | 0 <= i < |before.items| ensures !(before.items[i].id == w.instance && before.items[i].definition == w.definition) {
          assert before.items[i] in before.items;
        }
        NobodyHolds(before.items, w.definition, w.instance);
      }
    }
  }

  lemma NamedAtMostOnce(items: seq<Instance>, w: Wanted)
    requires WellStocked(items)
    ensures forall i, j :: 0 <= i < |items| && 0 <= j < |items| && IsNamed(items[i], w) && IsNamed(items[j], w) ==> i == j
  {
  }

  /**
   Any list is met exactly when every request is positive and covered by what the requests before it leave: of all
   stacks of its definition when it names none, of the stack it names when it does. Stacks and list alone decide.
   */
  lemma {:induction false} ListIsMetIff(bag: Bag, wanted: seq<Wanted>)
    requires WellStocked(bag.items)
    ensures ConsumeAll(bag, wanted).Success? <==> forall k :: 0 <= k < |wanted| ==> Coverable(bag.items, wanted, k)
    decreases |wanted|
  {
    hide ConsumeWanted, WellStocked, EnoughOfAll, EnoughOfNamed;
    if wanted != [] {
      var n := |wanted| - 1;
      ListIsMetIff(bag, wanted[..n]);
      forall k | 0 <= k < n ensures Coverable(bag.items, wanted, k) == Coverable(bag.items, wanted[..n], k) {
        CoverableInPrefix(bag.items, wanted, n, k);
      }
      if ConsumeAll(bag, wanted[..n]).Success? {
        NextIsMetIff(bag, wanted, n);
      }
    }
  }

  lemma CoverableInPrefix(items: seq<Instance>, wanted: seq<Wanted>, n: nat, k: nat)
    requires k < n <= |wanted|
    ensures Coverable(items, wanted, k) == Coverable(items, wanted[..n], k)
  {
    hide LeftAt, Rest;
    assert wanted[..n][..k] == wanted[..k] && wanted[..n][k] == wanted[k];
  }

  /** A list that was met has left of every stack what the arithmetic says: it is there with exactly that, or used up. */
  ghost predicate LeftEach(items: seq<Instance>, after: seq<Instance>, wanted: seq<Wanted>) {
    && (forall j :: 0 <= j < |items| ==> 0 <= LeftAt(items, wanted, j) <= items[j].quantity)
    && (forall j :: 0 <= j < |items| ==> (LeftAt(items, wanted, j) > 0 <==> items[j].(quantity := LeftAt(items, wanted, j)) in after))
    && forall y :: y in after ==> exists j :: 0 <= j < |items| && y == items[j].(quantity := LeftAt(items, wanted, j))
  }

  lemma {:induction false} HeldOfOne(items: seq<Instance>, y: Instance)
    requires WellStocked(items) && y in items
    ensures Held(items, y.definition, {y.id}) == y.quantity
    decreases |items|
  {
    assert items == [items[0]] + items[1..];
    if items[0] == y {
      NobodyHolds(items[1..], y.definition, y.id);
    } else {
      HeldOfOne(items[1..], y);
    }
  }

  /** One stack of the bag and what is there of it afterwards. */
  lemma StackIsLeft(items: seq<Instance>, after: seq<Instance>, j: nat, left: int)
    requires WellStocked(items) && WellStocked(after) && Thinned(items, after) && j < |items|
    requires left == Held(after, items[j].definition, {items[j].id})
    ensures 0 <= left <= items[j].quantity && (left > 0 <==> items[j].(quantity := left) in after)
    ensures forall y :: y in after && y.id == items[j].id ==> y == items[j].(quantity := left)
  {
    hide Thinned, Held;
    var x := items[j];
    ThinnedIds(items, after);
    if y :| y in after && y.id == x.id {
      var i :| 0 <= i < |items| && PartOf(y, items[i]);
      assert i == j;
      HeldOfOne(after, y);
      TheOnlyStack(after, y);
    } else {
      NobodyHolds(after, x.definition, x.id);
    }
  }

  /**
   After any list that was met every stack is there with exactly what the arithmetic leaves of it, or it was used up;
   nothing else is there.
   */
  lemma ListLeaves(bag: Bag, wanted: seq<Wanted>)
    requires WellStocked(bag.items) && ConsumeAll(bag, wanted).Success?
    ensures LeftEach(bag.items, ConsumeAll(bag, wanted).value.items, wanted)
  {
    hide ConsumeAll, WellStocked, LeftAt, Thinned, Held;
    var after := ConsumeAll(bag, wanted).value.items;
    AllLead(bag.items);
    HeldIsRest(bag, wanted, NOBODY, IdsOf(bag.items));
    forall j | 0 <= j < |bag.items|
      ensures 0 <= LeftAt(bag.items, wanted, j) <= bag.items[j].quantity
      ensures LeftAt(bag.items, wanted, j) > 0 <==> bag.items[j].(quantity := LeftAt(bag.items, wanted, j)) in after
      ensures forall y :: y in after && y.id == bag.items[j].id ==> y == bag.items[j].(quantity := LeftAt(bag.items, wanted, j))
    {
      LeftIsHeld(bag, wanted, j);
      StackIsLeft(bag.items, after, j, LeftAt(bag.items, wanted, j));
    }
    ThinnedIds(bag.items, after);
  }

  // ---------- named requests first ----------

  lemma {:induction false} ConsumeInTwo(bag: Bag, first: seq<Wanted>, second: seq<Wanted>)
    ensures ConsumeAll(bag, first + second)
      == if ConsumeAll(bag, first).Failure? then ConsumeAll(bag, first) else ConsumeAll(ConsumeAll(bag, first).value, second)
    decreases |second|
  {
    hide ConsumeWanted;
    if second == [] {
      assert first + second == first;
    } else {
      var n := |second| - 1;
      ConsumeInTwo(bag, first, second[..n]);
      assert (first + second)[..|first| + n] == first + second[..n];
    }
  }

  lemma {:induction false} RequestedInTwo(first: seq<Wanted>, second: seq<Wanted>, d: Id)
    ensures Requested(first + second, d) == Requested(first, d) + Requested(second, d)
    decreases |second|
  {
    if second == [] {
      assert first + second == first;
    } else {
      var n := |second| - 1;
      RequestedInTwo(first, second[..n], d);
      assert (first + second)[..|first| + n] == first + second[..n];
    }
  }

  lemma MetIsPositive(bag: Bag, wanted: seq<Wanted>)
    requires WellStocked(bag.items) && ConsumeAll(bag, wanted).Success?
    ensures Positive(wanted)
  {
    hide ConsumeAll, EnoughOfAll, EnoughOfNamed;
    ListIsMetIff(bag, wanted);
    forall k | 0 <= k < |wanted| ensures wanted[k].quantity > 0 {
      assert Coverable(bag.items, wanted, k);
    }
  }

  /** The bag covers what the requests for any stack want beyond what the named ones take. */
  ghost predicate PlainCovered(items: seq<Instance>, named: seq<Wanted>, plain: seq<Wanted>) {
    forall k :: 0 <= k < |plain| ==> Requested(named + plain, plain[k].definition) <= Total(items, plain[k].definition)
  }

  /**
   A list that asks for named stacks first is met exactly when every request is positive, every named stack covers
   what is asked of it, and every definition asked for without a name covers all that the list wants of it.
   */
  lemma NamedFirstIsMetIff(bag: Bag, named: seq<Wanted>, plain: seq<Wanted>)
    requires WellStocked(bag.items) && AllNamed(named) && Plain(plain)
    ensures ConsumeAll(bag, named + plain).Success? <==>
      Positive(named + plain) && AllCovered(bag.items, named) && PlainCovered(bag.items, named, plain)
  {
    hide ConsumeAll, AllCovered, TakenAsAsked, Total, Requested, SlotsFollow, Shrunk, Covered;
    if ConsumeAll(bag, named + plain).Success? {
      MetIsPositive(bag, named + plain);
    }
    if Positive(named + plain) {
      PositiveParts(named, plain);
      ConsumeInTwo(bag, named, plain);
      NamedListIsMetIff(bag, named);
      if ConsumeAll(bag, named).Success? {
        var after := ConsumeAll(bag, named).value;
        PlainListIsMetIff(after, plain);
        ConsumptionIsExact(bag, named);
        CoveredAfter(bag.items, after.items, named, plain);
      }
    }
  }

  lemma CoveredAfter(items: seq<Instance>, after: seq<Instance>, named: seq<Wanted>, plain: seq<Wanted>)
    requires forall d :: Total(after, d) == Total(items, d) - Requested(named, d)
    ensures Covered(after, plain) <==> PlainCovered(items, named, plain)
  {
    hide Total, Requested;
    forall d ensures Requested(named + plain, d) == Requested(named, d) + Requested(plain, d) {
      RequestedInTwo(named, plain, d);
    }
  }

  lemma PositiveParts(first: seq<Wanted>, second: seq<Wanted>)
    requires Positive(first + second)
    ensures Positive(first) && Positive(second)
  {
    forall k | 0 <= k < |first| ensures first[k].quantity > 0 {
      assert (first + second)[k] == first[k];
    }
    forall k | 0 <= k < |second| ensures second[k].quantity > 0 {
      assert (first + second)[|first| + k] == second[k];
    }
  }
}

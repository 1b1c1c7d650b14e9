/** The three-bucket ledger: guarded addition, the Try conversion and what they conserve. */
module RunEarnings {
  import opened Common
  import opened RunTypes

  function SafeAdd(a: int, b: int): (r: Result<int, Error>)
    ensures r.Success? <==> 0 <= a && 0 <= b && a + b <= MAX_INT
    ensures r.Success? ==> r.value == a + b
  {
    if a < 0 || b < 0 then Failure(InvalidAmount)
    else if a > MAX_INT - b then Failure(Overflow)
    else Success(a + b)
  }

  function SafeMultiply(a: int, b: int): Result<int, Error> {
    if a <= 0 || b <= 0 then Success(0)
    else if a > MAX_INT / b then Failure(Overflow)
    else Success(a * b)
  }

  /** A negative addend is a conflict before any component is added. */
  function Add(a: Earnings, b: Earnings): (r: Result<Earnings, Error>)
    ensures r.Success? <==> NonNegative(a) && NonNegative(b) && Fits(Plus(a, b))
    ensures r.Success? ==> r.value == Plus(a, b)
  {
    if !NonNegative(b) then Failure(RunConflict)
    else
      var exp :- SafeAdd(a.exp, b.exp);
      var gold :- SafeAdd(a.gold, b.gold);
      var crystals :- SafeAdd(a.crystals, b.crystals);
      Success(Earnings(exp, gold, crystals))
  }

  /** Go's division truncates towards zero. */
  function Half(x: int): int {
    if x >= 0 then x / 2 else -((-x) / 2)
  }

  function Halves(e: Earnings): Earnings {
    Earnings(Half(e.exp), Half(e.gold), Half(e.crystals))
  }

  function ScaleTry(e: Earnings): Result<Earnings, Error> {
    Add(e, Halves(e))
  }

  /** Try stock becomes exactly the integer part of one and a half times itself, without rounding error. */
  lemma ScaleTryIsFloorOfThreeHalves(e: Earnings)
    requires ScaleTry(e).Success?
    ensures var s := ScaleTry(e).value;
      s.exp == 3 * e.exp / 2 && s.gold == 3 * e.gold / 2 && s.crystals == 3 * e.crystals / 2
  {
  }

  /** The conversion fails only when the scaled stock does not fit, or was negative to begin with. */
  lemma ScaleTryFailsOnlyOnOverflow(e: Earnings)
    requires NonNegative(e)
    ensures ScaleTry(e).Success? <==>
      3 * e.exp / 2 <= MAX_INT && 3 * e.gold / 2 <= MAX_INT && 3 * e.crystals / 2 <= MAX_INT
  {
  }

  // ---------- the ledger of one participant ----------

  function InFlow(p: Recipient): Earnings {
    Plus(p.recorded, Plus(p.tryBonus, p.exitBonus))
  }

  function Held(p: Recipient): Earnings {
    Plus(p.pending, Plus(p.conditional, Plus(p.applied, p.forfeited)))
  }

  /** Every recorded earning and bonus is in exactly one of pending, conditional, applied or forfeited. */
  predicate Balanced(p: Recipient) {
    && Held(p) == InFlow(p)
    && NonNegative(p.pending) && NonNegative(p.conditional) && NonNegative(p.applied)
  }

  function NewRecipient(player: Id): Recipient {
    Recipient(player, NOTHING, NOTHING, NOTHING, 0, Playing, 0, false, NOTHING, NOTHING, NOTHING, NOTHING)
  }

  function Record(p: Recipient, mode: Mode, e: Earnings): Result<Recipient, Error> {
    if mode == Try then
      var stock :- Add(p.conditional, e);
      Success(p.(conditional := stock, recorded := Plus(p.recorded, e)))
    else
      var stock :- Add(p.pending, e);
      Success(p.(pending := stock, recorded := Plus(p.recorded, e)))
  }

  function Convert(p: Recipient): Result<Recipient, Error> {
    var converted :- ScaleTry(p.conditional);
    var pending :- Add(p.pending, converted);
    Success(p.(pending := pending, conditional := NOTHING, tryBonus := Plus(p.tryBonus, Halves(p.conditional))))
  }

  /** Leaving forfeits unfinished Try stock and adds the accessory bonus to what is owed. */
  function Leave(p: Recipient, bonus: Earnings): Result<Recipient, Error> {
    var pending :- Add(p.pending, bonus);
    Success(p.(pending := pending, conditional := NOTHING, disposition := Exited,
               exitBonus := Plus(p.exitBonus, bonus), forfeited := Plus(p.forfeited, p.conditional)))
  }

  function Release(p: Recipient): Result<Recipient, Error> {
    var applied :- Add(p.applied, p.pending);
    Success(p.(applied := applied, pending := NOTHING))
  }

  function Expire(p: Recipient, until: Time): Recipient {
    p.(disposition := TimedOut, timerPending := true, penaltyUntil := until)
  }

  lemma RecordBalances(p: Recipient, mode: Mode, e: Earnings)
    requires Balanced(p) && Record(p, mode, e).Success?
    ensures var q := Record(p, mode, e).value;
      && Balanced(q) && q.applied == p.applied
      && Plus(q.pending, q.conditional) == Plus(Plus(p.pending, p.conditional), e)
  {
  }

  /** The conversion empties the conditional bucket into pending at exactly one and a half times, rounded down. */
  lemma ConvertBalances(p: Recipient)
    requires Balanced(p) && Convert(p).Success?
    ensures var q := Convert(p).value;
      && Balanced(q) && q.applied == p.applied && q.conditional == NOTHING
      && q.pending.exp == p.pending.exp + 3 * p.conditional.exp / 2
      && q.pending.gold == p.pending.gold + 3 * p.conditional.gold / 2
      && q.pending.crystals == p.pending.crystals + 3 * p.conditional.crystals / 2
  {
    ScaleTryIsFloorOfThreeHalves(p.conditional);
  }

  lemma ReleaseBalances(p: Recipient)
    requires Balanced(p) && Release(p).Success?
    ensures var q := Release(p).value;
      Balanced(q) && q.pending == NOTHING && q.applied == Plus(p.applied, p.pending) && q.conditional == p.conditional
  {
  }

  /** A departure pays everything pending and the bonus, and forfeits exactly the conditional stock. */
  lemma LeaveBalances(p: Recipient, bonus: Earnings)
    requires Balanced(p) && Leave(p, bonus).Success? && Release(Leave(p, bonus).value).Success?
    ensures var q := Release(Leave(p, bonus).value).value;
      && Balanced(q) && q.disposition == Exited && q.pending == NOTHING && q.conditional == NOTHING
      && q.applied == Plus(p.applied, Plus(p.pending, bonus))
      && q.forfeited == Plus(p.forfeited, p.conditional)
  {
    var left := Leave(p, bonus).value;
    assert Held(left) == Plus(Held(p), bonus);
    assert InFlow(left) == Plus(InFlow(p), bonus);
  }
}

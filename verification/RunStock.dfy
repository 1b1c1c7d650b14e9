/** Which bucket every earning goes into, the one conversion of Try stock, and what a command pays its actor. */
module RunStock {
  import opened Common
  import opened RunTypes
  import opened RunEarnings
  import opened RunProgress
  import opened RunNpc
  import opened RunTravel
  import opened RunOrder
  import opened RunWorld
  import opened RunCommands
  import opened RunInvariants
  import opened RunSteps
  import opened RunTransactions
  import opened RunPayments
  import opened RunCommits
  import opened RunRuns
  import opened RunEntries
  import opened RunAdmission
  import opened RunTheorems

  // ---------- recording ----------

  /** What an amount earned in a mode does to a row. */
  predicate Earned(p: Recipient, q: Recipient, mode: Mode, amount: Earnings) {
    && q.applied == p.applied
    && (mode == Try ==> q.conditional == Plus(p.conditional, amount) && q.pending == p.pending)
    && (mode != Try ==> q.pending == Plus(p.pending, amount) && q.conditional == p.conditional)
  }

  /** An earning is conditional in Try mode and pending in every other. */
  lemma RecordFillsBucket(p: Recipient, mode: Mode, e: Earnings)
    requires Record(p, mode, e).Success?
    ensures Earned(p, Record(p, mode, e).value, mode, e)
  {
  }

  /** Everything a list of gains brings one member. */
  function GainsOf(gains: seq<Gain>, id: Id): Earnings {
    if gains == [] then NOTHING
    else Plus(GainsOf(gains[..|gains| - 1], id), if gains[|gains| - 1].actor == id then gains[|gains| - 1].amount else NOTHING)
  }

  lemma EarnedTwice(p: Recipient, q: Recipient, t: Recipient, mode: Mode, first: Earnings, second: Earnings)
    requires Earned(p, q, mode, first) && Earned(q, t, mode, second)
    ensures Earned(p, t, mode, Plus(first, second))
  {
  }

  lemma EarnedNothing(p: Recipient, mode: Mode)
    ensures Earned(p, p, mode, NOTHING)
  {
  }

  /** Each member's row takes all of its own gains in the mode's bucket. */
  lemma {:induction false} RecordAllFills(r: Run, gains: seq<Gain>, id: Id)
    requires RecordAll(r, gains).Success? && id in r.recipients
    ensures var s := RecordAll(r, gains).value;
      && s == r.(recipients := s.recipients) && id in s.recipients
      && Earned(r.recipients[id], s.recipients[id], r.mode, GainsOf(gains, id))
    decreases |gains|
  {
    hide Record, Earned, Plus;
    if gains == [] {
      EarnedNothing(r.recipients[id], r.mode);
    } else {
      var n := |gains| - 1;
      RecordAllFills(r, gains[..n], id);
      var before, after := RecordAll(r, gains[..n]).value, RecordAll(r, gains).value;
      if gains[n].actor == id {
        RecordFillsBucket(before.recipients[id], before.mode, gains[n].amount);
        EarnedTwice(r.recipients[id], before.recipients[id], after.recipients[id], r.mode, GainsOf(gains[..n], id), gains[n].amount);
      } else {
        EarnedNothing(before.recipients[id], r.mode);
        EarnedTwice(r.recipients[id], before.recipients[id], after.recipients[id], r.mode, GainsOf(gains[..n], id), NOTHING);
      }
    }
  }

  // ---------- the one conversion ----------

  predicate SameStock(p: Recipient, q: Recipient) {
    q.pending == p.pending && q.conditional == p.conditional && q.applied == p.applied
  }

  /** One and a half times, rounded down, goes from conditional to pending. */
  predicate ConvertedStock(p: Recipient, q: Recipient) {
    && q.conditional == NOTHING && q.applied == p.applied
    && q.pending.exp == p.pending.exp + 3 * p.conditional.exp / 2
    && q.pending.gold == p.pending.gold + 3 * p.conditional.gold / 2
    && q.pending.crystals == p.pending.crystals + 3 * p.conditional.crystals / 2
  }

  ghost predicate StockConverted(before: map<Id, Recipient>, after: map<Id, Recipient>, roster: seq<Id>) {
    && after.Keys == before.Keys
    && forall id :: id in before ==> if id in roster then ConvertedStock(before[id], after[id]) else SameStock(before[id], after[id])
  }

  ghost predicate StockUntouched(before: map<Id, Recipient>, after: map<Id, Recipient>) {
    after.Keys == before.Keys && forall id :: id in before ==> SameStock(before[id], after[id])
  }

  /** The first treasure room of a Try run converts everybody present and ends the mode; nothing else moves any stock. */
  ghost predicate StockMoves(r: Run, s: Run) {
    && s.id == r.id && s.roster == r.roster && s.admission == r.admission && |r.trail.rooms| <= |s.trail.rooms|
    && if r.mode == Try && |s.trail.rooms| > |r.trail.rooms|
       then s.mode == Normal && StockConverted(r.recipients, s.recipients, r.roster)
       else s.mode == r.mode && StockUntouched(r.recipients, s.recipients)
  }

  ghost predicate Ledgered(r: Run) {
    NoDuplicates(r.roster) && forall id :: id in r.roster ==> id in r.recipients
  }

  lemma StockMovesOn(r: Run, s: Run, u: Run)
    requires StockMoves(r, s) && StockMoves(s, u)
    ensures StockMoves(r, u)
  {
  }

  lemma StockStands(r: Run, s: Run)
    requires s.id == r.id && s.roster == r.roster && s.admission == r.admission && s.mode == r.mode
    requires s.recipients == r.recipients && s.trail.rooms == r.trail.rooms
    ensures StockMoves(r, s) && (Ledgered(r) ==> Ledgered(s))
  {
  }

  lemma StockLedgered(r: Run, s: Run)
    requires Ledgered(r) && StockMoves(r, s)
    ensures Ledgered(s)
  {
  }

  lemma ConvertStock(p: Recipient)
    requires Convert(p).Success?
    ensures ConvertedStock(p, Convert(p).value)
  {
    ScaleTryIsFloorOfThreeHalves(p.conditional);
  }

  lemma {:induction false} ConvertAllStock(recipients: map<Id, Recipient>, roster: seq<Id>)
    requires NoDuplicates(roster) && (forall id :: id in roster ==> id in recipients) && ConvertAll(recipients, roster).Success?
    ensures StockConverted(recipients, ConvertAll(recipients, roster).value, roster)
    decreases |roster|
  {
    hide Convert, ConvertedStock;
    if roster != [] {
      var n := |roster| - 1;
      ConvertAllStep(recipients, roster);
      ConvertAllStock(recipients, roster[..n]);
      var before := ConvertAll(recipients, roster[..n]).value;
      assert forall id :: id in roster <==> id in roster[..n] || id == roster[n];
      assert roster[n] !in roster[..n];
      SameThenConverted(recipients[roster[n]], before[roster[n]]);
    }
  }

  lemma SameThenConverted(p: Recipient, q: Recipient)
    requires SameStock(p, q) && Convert(q).Success?
    ensures ConvertedStock(p, Convert(q).value)
  {
    ConvertStock(q);
  }

  /** The treasure room converts a Try run and only that. */
  lemma TreasureRoomConverts(r: Run, boxes: seq<Box>)
    requires Ledgered(r) && CreateTreasure(r, boxes).Success?
    ensures StockMoves(r, CreateTreasure(r, boxes).value)
    ensures |CreateTreasure(r, boxes).value.trail.rooms| == |r.trail.rooms| + 1
  {
    hide ConvertAll;
    if r.mode == Try {
      ConvertAllStock(r.recipients, r.roster);
    }
  }

  lemma CreateMovesStock(r: Run, actor: Id, draw: Draw)
    requires Ledgered(r) && Create(r, actor, draw).Success?
    ensures StockMoves(r, Create(r, actor, draw).value)
  {
    hide CreateEncounter, CreateTreasure, Ledgered, StockMoves;
    if r.floor == TREASURE_FLOOR {
      TreasureRoomConverts(r, draw.boxes);
    } else {
      EncounterMarks(r, actor, draw);
      StockStands(r, Create(r, actor, draw).value);
    }
  }

  lemma AdvanceMovesStock(r: Run, actor: Id, draw: Draw)
    requires Ledgered(r) && Advance(r, actor, draw).Success?
    ensures StockMoves(r, Advance(r, actor, draw).value)
  {
    hide Create, AdvanceGuard, StockMoves, Ledgered, WithoutActors, Named, PartySize;
    var up := MarkEXOnAdvance(Discard(r.(actors := draw.prepared.value)), actor);
    var ready := up.(floor := up.floor + 1);
    StockStands(r, ready);
    CreateMovesStock(ready, actor, draw);
    StockMovesOn(r, ready, Create(ready, actor, draw).value);
  }

  lemma ReplaceMovesStock(r: Run, actor: Id, floor: int, draw: Draw)
    requires Ledgered(r) && Replace(r, actor, floor, draw).Success?
    ensures StockMoves(r, Replace(r, actor, floor, draw).value.0)
  {
    hide Create, StockMoves, Ledgered, WithoutActors, Named, Olds, Renamed, OldTimes;
    var named := if draw.spawned.None? then None else Some(Renamed(draw.spawned.value, Olds(r, r.enemies).value));
    var ready := Discard(r).(floor := floor);
    StockStands(r, ready);
    CreateMovesStock(ready, actor, draw.(spawned := named));
    StockMovesOn(r, ready, Replace(r, actor, floor, draw).value.0);
  }

  lemma TravelMovesStock(r: Run, actor: Id, tool: Id, input: Input, supply: Supply)
    requires Ledgered(r) && Travel(r, actor, tool, input, supply).Success?
    ensures StockMoves(r, Travel(r, actor, tool, input, supply).value.0)
  {
    hide Travel, Replace, StockMoves, Ledgered;
    if tool == "item-150" {
      ReplacementAdmitted(r, actor, input, supply);
      var ready := r.(actors := supply.reset.value.actors);
      StockStands(r, ready);
      ReplaceMovesStock(ready, actor, input.floor, supply.draw);
      StockMovesOn(r, ready, Travel(r, actor, tool, input, supply).value.0);
    } else {
      CoordinatesAreNotCredit(r, actor, tool, input, supply);
      StockStands(r, Travel(r, actor, tool, input, supply).value.0);
    }
  }

  lemma RoomMovesStock(r: Run, actor: Id, entry: Id, supply: Supply)
    requires Ledgered(r) && Room(r, actor, entry, supply).Success?
    ensures StockMoves(r, Room(r, actor, entry, supply).value.0)
  {
    hide Replace, StockMoves, Ledgered;
    var deeper := entry == DEEPER_ROOM;
    var before := if deeper then r.(actors := supply.reset.value.actors) else r;
    StockStands(r, before);
    ReplaceMovesStock(before, actor, if deeper then r.floor + 1 else r.floor, supply.draw);
    StockMovesOn(r, before, Room(r, actor, entry, supply).value.0);
  }

  lemma AnswerKeepsStock(r: Run, t: Transition, after: seq<Actor>, now: Time)
    ensures var (s, npc) := BeginResponse(r, t, now);
      && StockMoves(r, s)
      && var done := RecordResponse(s.(actors := after), npc, now);
      done.Success? ==> StockMoves(r, done.value)
  {
    hide Responders, FirstResponder, ActorIds, ResponderTime, NextNPC, Rotate, ActorAt, WithoutActors, Named, StockMoves;
    var (s, npc) := BeginResponse(r, t, now);
    StockStands(r, s);
    var done := RecordResponse(s.(actors := after), npc, now);
    if done.Success? {
      StockStands(r, done.value);
    }
  }

  lemma PlayStepMovesStock(r: Run, t: Transition, actor: Id, step: Step, now: Time)
    requires Ledgered(r) && PlayStep(r, t, actor, step, now).Success?
    ensures StockMoves(r, PlayStep(r, t, actor, step, now).value.0)
  {
    hide Travel, Room, BeginResponse, RecordResponse, StockMoves, Ledgered;
    match step
    case Fight(actors, enemies, clock) => StockStands(r, PlayStep(r, t, actor, step, now).value.0);
    case UseTool(tool, input, supply) => TravelMovesStock(r, actor, tool, input, supply);
    case UseRoom(entry, supply) => RoomMovesStock(r, actor, entry, supply);
    case Answer(after) => AnswerKeepsStock(r, t, after, now);
  }

  lemma {:induction false} PlayMovesStock(r: Run, actor: Id, steps: seq<Step>, now: Time)
    requires Ledgered(r) && Play(r, actor, steps, now).Success?
    ensures StockMoves(r, Play(r, actor, steps, now).value.0)
    decreases |steps|
  {
    hide PlayStep, StockMoves, Ledgered;
    if steps == [] {
      StockStands(r, r);
    } else {
      var n := |steps| - 1;
      PlayMovesStock(r, actor, steps[..n], now);
      var (s, t) := Play(r, actor, steps[..n], now).value;
      StockLedgered(r, s);
      PlayStepMovesStock(s, t, actor, steps[n], now);
      StockMovesOn(r, s, Play(r, actor, steps, now).value.0);
    }
  }

  lemma BattleMovesStock(r: Run, actor: Id, env: Env)
    requires Ledgered(r) && Battle(r, actor, env).Success?
    ensures StockMoves(r, Battle(r, actor, env).value.0) && env.fought == Success(Battle(r, actor, env).value.1)
  {
    hide Play, RejoinMembers, LivingEnemies, TrimSuffixes, StockMoves, Ledgered;
    PlayMovesStock(r, actor, env.script, env.now);
    var played := Play(r, actor, env.script, env.now).value.0;
    var marked := CreditDefeats(played, env.fought.value.defeats);
    RejoinOnlyRejoins(marked, actor, env.fought.value.memberOnly);
    StockStands(played, Battle(r, actor, env).value.0);
    StockMovesOn(r, played, Battle(r, actor, env).value.0);
  }

  lemma ChestKeepsStock(r: Run, actor: Id, box: Id, hasPocket: bool)
    requires actor in r.recipients && ClaimChest(r, actor, box, hasPocket).Success?
    ensures StockMoves(r, ClaimChest(r, actor, box, hasPocket).value.0)
  {
    hide ActorAt, BoxIndex;
  }

  /** What a command's action reports: combat whatever the engine says, everything else a quiet action that releases. */
  function Reported(cmd: Command, env: Env): Effects {
    if cmd.action.AdvanceFloor? || cmd.action.OpenChest? || cmd.action.LeaveRun? || env.fought.Failure? then QUIET else env.fought.value
  }

  /** Of all that an action does, only the first treasure room of a Try run moves stock. */
  lemma ActMovesStock(r: Run, cmd: Command, env: Env)
    requires Ledgered(r) && cmd.actor in r.recipients && !cmd.action.LeaveRun? && Act(r, cmd, env).Success?
    ensures StockMoves(r, Act(r, cmd, env).value.run) && Act(r, cmd, env).value.effects == Reported(cmd, env)
  {
    hide Advance, ClaimChest, Battle, Cooling, StockMoves, Ledgered;
    match cmd.action
    case AdvanceFloor => AdvanceMovesStock(r, cmd.actor, env.draw);
    case OpenChest => ChestKeepsStock(r, cmd.actor, cmd.target, env.hasPocket);
    case _ => BattleMovesStock(r, cmd.actor, env);
  }

  // ---------- what a command pays ----------

  lemma RunIsLedgered(w: World, run: Id)
    requires Inv(w) && FindRun(w, run).Some?
    ensures Ledgered(FindRun(w, run).value)
  {
    LiveFactsAll(w, run);
  }

  lemma UntouchedRow(r: Run, s: Run, id: Id)
    requires StockMoves(r, s) && r.mode != Try && id in r.recipients
    ensures s.mode == r.mode && id in s.recipients && s.recipients[id].pending == r.recipients[id].pending
      && s.recipients[id].applied == r.recipients[id].applied
  {
  }

  lemma EarnedPending(p: Recipient, q: Recipient, mode: Mode, amount: Earnings)
    requires mode != Try && Earned(p, q, mode, amount)
    ensures q.pending == Plus(p.pending, amount)
  {
  }

  /** What a released combat, advance or chest pays: the actor's pending stock, what it just earned, and retained balances. */
  function Payment(w: World, r: Run, cmd: Command, env: Env): Earnings
    requires cmd.actor in r.recipients
  {
    if r.mode != Try && Reported(cmd, env).releaseStock then
      Plus(Plus(r.recipients[cmd.actor].pending, GainsOf(Reported(cmd, env).gains, cmd.actor)),
           SumPending(FindRetained(w, cmd.actor, env.order)))
    else NOTHING
  }

  lemma SettlePays(w: World, r: Run, a: Run, cmd: Command, env: Env)
    requires Inv(w) && FindRun(w, cmd.run) == Some(r) && EnrolledIn(w, cmd.actor, cmd.run) && NoDuplicates(env.order)
    requires cmd.actor in r.recipients && cmd.actor in a.recipients && StockMoves(r, a)
    requires var release := r.mode != Try && Reported(cmd, env).releaseStock;
      Settle(w, a, cmd, Reported(cmd, env), release, env.order).Success?
    ensures var release := r.mode != Try && Reported(cmd, env).releaseStock;
      var u := Settle(w, a, cmd, Reported(cmd, env), release, env.order).value.0;
      && Credited(u, cmd.actor) == Plus(Credited(w, cmd.actor), Payment(w, r, cmd, env))
      && forall other :: other != cmd.actor ==> Credited(u, other) == Credited(w, other)
  {
    hide Inv, StockMoves, RecordAll, Earned, PayActor, FindRetained, SumPending, Plus, GainsOf, SpendingAllowed, SpendingNamed, Release, Reported, EnrolledIn, NoDuplicates;
    var gains := Reported(cmd, env).gains;
    RecordAllFills(a, gains, cmd.actor);
    var b := RecordAll(a, gains).value;
    if r.mode != Try && Reported(cmd, env).releaseStock {
      UntouchedRow(r, a, cmd.actor);
      EarnedPending(a.recipients[cmd.actor], b.recipients[cmd.actor], a.mode, GainsOf(gains, cmd.actor));
      PayingActor(w, b, cmd.actor, env.order, cmd.run);
      PaidByCredits(w, PayActor(w, b, cmd.actor, env.order).value.0, cmd.run, cmd.actor,
                    b.recipients[cmd.actor].pending, SumPending(FindRetained(w, cmd.actor, env.order)));
    } else {
      PlusAssociates(Credited(w, cmd.actor), NOTHING, NOTHING);
    }
  }

  lemma PaidByCredits(w: World, u: World, run: Id, actor: Id, paid: Earnings, owed: Earnings)
    requires PaidBy(w, u, run, actor, paid, owed)
    ensures Credited(u, actor) == Plus(Credited(w, actor), Plus(paid, owed))
    ensures forall other :: other != actor ==> Credited(u, other) == Credited(w, other)
  {
    hide Total, Paying;
  }

  lemma SavingCreditsNobody(u: World, s: Run, cmd: Command, box: Option<Box>)
    requires Save(u, s, cmd, box).Success?
    ensures Save(u, s, cmd, box).value.0.credited == u.credited
  {
    hide RowsOf;
  }

  /**
   Outside Try, an accepted advance, chest or releasing combat credits its actor exactly what was pending, what the
   action earned it, and every retained balance; in Try, or without a release, it credits nothing. Nobody else is
   credited.
   */
  lemma CommandPays(w: World, cmd: Command, env: Env)
    requires Inv(w) && NoDuplicates(env.order) && FreshCommand(w, cmd, env).Success?
    requires !cmd.action.LeaveRun? && !cmd.action.Cleanup?
    ensures FindRun(w, cmd.run).Some? && cmd.actor in FindRun(w, cmd.run).value.recipients
    ensures var v := FreshCommand(w, cmd, env).value.0;
      && Credited(v, cmd.actor) == Plus(Credited(w, cmd.actor), Payment(w, FindRun(w, cmd.run).value, cmd, env))
      && forall other :: other != cmd.actor ==> Credited(v, other) == Credited(w, other)
  {
    hide Inv, Admissible, Act, Settle, Save, RunOk, Payment, Reported, StockMoves, NoDuplicates, EnrolledIn, Plus;
    var r := FindRun(w, cmd.run).value;
    AdmissibleFacts(w, r, cmd);
    RunIsLedgered(w, cmd.run);
    LiveEnrolled(w, cmd.run, cmd.actor);
    ActMovesStock(r, cmd, env);
    var a := Act(r, cmd, env).value;
    assert cmd.actor in a.run.recipients by { MovedKeys(r, a.run); }
    SettlePays(w, r, a.run, cmd, env);
    var release := r.mode != Try && Reported(cmd, env).releaseStock;
    var (u, c) := Settle(w, a.run, cmd, a.effects, release, env.order).value;
    SavingCreditsNobody(u, Stamp(c, cmd, a.effects, env.now), cmd, a.box);
  }

  lemma MovedKeys(r: Run, s: Run)
    requires StockMoves(r, s)
    ensures s.recipients.Keys == r.recipients.Keys
  {
  }

  /** A departure credits what was pending, the accessory's bonus and every retained balance, in Try as elsewhere. */
  lemma DeparturePays(w: World, cmd: Command, env: Env)
    requires Inv(w) && NoDuplicates(env.order) && FreshCommand(w, cmd, env).Success? && cmd.action.LeaveRun?
    ensures FindRun(w, cmd.run).Some? && cmd.actor in FindRun(w, cmd.run).value.recipients
    ensures var r := FindRun(w, cmd.run).value;
      var found := ActorAt(r.actors, cmd.actor);
      found.Some? && ExitBonus(r, found.value, env.goldDraw).Success?
    ensures var r, v := FindRun(w, cmd.run).value, FreshCommand(w, cmd, env).value.0;
      var bonus := ExitBonus(r, ActorAt(r.actors, cmd.actor).value, env.goldDraw).value;
      && Credited(v, cmd.actor) == Plus(Credited(w, cmd.actor),
           Plus(Plus(r.recipients[cmd.actor].pending, bonus), SumPending(FindRetained(w, cmd.actor, env.order))))
      && forall other :: other != cmd.actor ==> Credited(v, other) == Credited(w, other)
  {
    hide Inv, Admissible, PrepareExit, Save, RunOk, NoDuplicates, EnrolledIn, Plus, PayActor, FindRetained, SumPending, Release, RemoveMember, RecordFor, ActorAt, ExitBonus;
    var r := FindRun(w, cmd.run).value;
    AdmissibleFacts(w, r, cmd);
    RunIsLedgered(w, cmd.run);
    LiveEnrolled(w, cmd.run, cmd.actor);
    var a := Act(r, cmd, env).value.run;
    LeaverIsOwed(r, cmd.actor, env.goldDraw);
    var (u, c) := PayActor(w, a, cmd.actor, env.order).value;
    assert Settle(w, a, cmd, QUIET, true, env.order) == Success((u, c));
    PayingActor(w, a, cmd.actor, env.order, cmd.run);
    PaidByCredits(w, u, cmd.run, cmd.actor, a.recipients[cmd.actor].pending, SumPending(FindRetained(w, cmd.actor, env.order)));
    var (left, final) := Depart(u, c, cmd.actor);
    SavingCreditsNobody(left, Stamp(final, cmd, QUIET, env.now), cmd, None);
  }

  lemma LeaverIsOwed(r: Run, actor: Id, goldDraw: nat)
    requires actor in r.recipients && PrepareExit(r, actor, goldDraw).Success?
    ensures ActorAt(r.actors, actor).Some? && ExitBonus(r, ActorAt(r.actors, actor).value, goldDraw).Success?
    ensures var a := PrepareExit(r, actor, goldDraw).value;
      && actor in a.recipients
      && a.recipients[actor].pending == Plus(r.recipients[actor].pending, ExitBonus(r, ActorAt(r.actors, actor).value, goldDraw).value)
  {
    hide ActorAt, ExitBonus;
  }

  /**
   The bonus of a departure: with the experience charm worn and carried twenty for every floor up to the current one,
   with the gold charm the draw, otherwise nothing; it fails only if the experience does not fit.
   */
  lemma ExitBonusIs(r: Run, a: Actor, goldDraw: nat)
    requires r.floor >= 0
    ensures var worn := a.gear.Gear? && a.gear.accessory in a.items;
      var bonus := ExitBonus(r, a, goldDraw);
      && (bonus.Success? <==> worn && a.gear.accessory == "item-105" ==> 20 * r.floor <= MAX_INT)
      && (bonus.Success? ==>
            && bonus.value.exp == (if worn && a.gear.accessory == "item-105" then 20 * r.floor else 0)
            && bonus.value.gold == (if worn && a.gear.accessory == "item-106" then goldDraw else 0)
            && bonus.value.crystals == 0)
  {
  }

  // ---------- runs that were never in Try mode ----------

  /** A run that was not admitted in Try mode is never in it and holds nothing conditional. */
  ghost predicate Plain(r: Run) {
    r.admission.mode != Try ==> r.mode != Try && NoneConditional(r.recipients)
  }

  ghost predicate NoneConditional(recipients: map<Id, Recipient>) {
    forall id :: id in recipients ==> recipients[id].conditional == NOTHING
  }

  predicate AdmittedPlain(w: World, run: Id) {
    run in w.headers && w.headers[run].admission.Some? && w.headers[run].admission.value.mode != Try
  }

  ghost predicate PlainTables(w: World) {
    && (forall run :: FindRun(w, run).Some? ==> Plain(FindRun(w, run).value))
    && (forall key :: key in w.rows && AdmittedPlain(w, key.run) ==> w.rows[key].conditional == NOTHING)
  }

  lemma ActedPlain(r: Run, s: Run)
    requires Plain(r) && StockMoves(r, s)
    ensures Plain(s)
  {
  }

  lemma {:induction false} RecordedPlain(r: Run, gains: seq<Gain>)
    requires Plain(r) && RecordAll(r, gains).Success?
    ensures Plain(RecordAll(r, gains).value) && RecordAll(r, gains).value == r.(recipients := RecordAll(r, gains).value.recipients)
    decreases |gains|
  {
    hide Add;
    if gains != [] {
      RecordedPlain(r, gains[..|gains| - 1]);
    }
  }

  /** The same rows, each with the conditional stock it had. */
  ghost predicate SameConditional(w: World, u: World) {
    u.rows.Keys == w.rows.Keys && forall key :: key in w.rows ==> u.rows[key].conditional == w.rows[key].conditional
  }

  lemma PaidConditional(w: World, u: World, run: Id, actor: Id)
    requires Paying(w, u, run, actor)
    ensures SameConditional(w, u)
  {
    hide IsRetained;
    forall key | key in w.rows ensures u.rows[key].conditional == w.rows[key].conditional {
      if key.run != run { assert OtherRowKept(w, u, key, actor); }
    }
  }

  lemma PaidActorPlain(w: World, b: Run, actor: Id, order: seq<Id>, run: Id)
    requires Inv(w) && NoDuplicates(order) && FindRun(w, run).Some? && EnrolledIn(w, actor, run)
    requires Plain(b) && actor in b.recipients && PayActor(w, b, actor, order).Success?
    ensures var (u, c) := PayActor(w, b, actor, order).value;
      SameConditional(w, u) && u.headers == w.headers && Plain(c) && c == b.(recipients := c.recipients)
  {
    hide Inv, PayActor, IsRetained, NoDuplicates, Add;
    PayingActor(w, b, actor, order, run);
    hide EnrolledIn;
    var (u, c) := PayActor(w, b, actor, order).value;
    PaidIsPaying(w, u, run, actor, RecipientOf(b.recipients, actor).pending, SumPending(FindRetained(w, actor, order)));
    PaidConditional(w, u, run, actor);
  }

  lemma PaidIsPaying(w: World, u: World, run: Id, actor: Id, paid: Earnings, owed: Earnings)
    requires PaidBy(w, u, run, actor, paid, owed)
    ensures Paying(w, u, run, actor) && u.headers == w.headers
  {
    hide Total, OtherRowKept;
  }

  /** Saving a plain run of a live one's admission keeps the tables plain. */
  lemma SavedPlain(w: World, u: World, s: Run, cmd: Command, box: Option<Box>)
    requires PlainTables(w) && u.headers == w.headers && SameConditional(w, u)
    requires s.id in w.headers && w.headers[s.id].admission == Some(s.admission) && Plain(s)
    requires Save(u, s, cmd, box).Success?
    ensures PlainTables(Save(u, s, cmd, box).value.0)
  {
    RowsOfIs(s.id, s.recipients);
    hide RowsOf;
    var v := Save(u, s, cmd, box).value.0;
    forall run | FindRun(v, run).Some? ensures Plain(FindRun(v, run).value) {
      assert run != s.id ==> FindRun(w, run) == FindRun(v, run);
    }
    forall key | key in v.rows && AdmittedPlain(v, key.run) ensures v.rows[key].conditional == NOTHING {
      assert AdmittedPlain(w, key.run);
    }
  }

  lemma SettledPlain(w: World, a: Run, cmd: Command, effects: Effects, release: bool, order: seq<Id>)
    requires Inv(w) && NoDuplicates(order) && FindRun(w, cmd.run).Some? && EnrolledIn(w, cmd.actor, cmd.run)
    requires Plain(a) && cmd.actor in a.recipients && Settle(w, a, cmd, effects, release, order).Success?
    ensures var (u, c) := Settle(w, a, cmd, effects, release, order).value;
      SameConditional(w, u) && u.headers == w.headers && Plain(c) && c == a.(recipients := c.recipients)
  {
    hide Inv, RecordAll, PayActor, Plain, SpendingAllowed, SpendingNamed, EnrolledIn, NoDuplicates, Earned;
    RecordedPlain(a, effects.gains);
    RecordAllFills(a, effects.gains, cmd.actor);
    if release {
      PaidActorPlain(w, RecordAll(a, effects.gains).value, cmd.actor, order, cmd.run);
    }
  }

  lemma DepartedPlain(r: Run, actor: Id, goldDraw: nat)
    requires Plain(r) && actor in r.recipients && PrepareExit(r, actor, goldDraw).Success?
    ensures var a := PrepareExit(r, actor, goldDraw).value;
      Plain(a) && actor in a.recipients && a == r.(recipients := a.recipients)
  {
    hide ActorAt, ExitBonus, Add;
  }

  lemma StampedPlain(u: World, c: Run, cmd: Command, effects: Effects, now: Time)
    requires Plain(c)
    ensures Plain(Stamp(c, cmd, effects, now)) && Plain(Stamp(RemoveMember(c, cmd.actor), cmd, effects, now))
    ensures Stamp(c, cmd, effects, now).id == c.id && Stamp(c, cmd, effects, now).admission == c.admission
    ensures var gone := Stamp(RemoveMember(c, cmd.actor), cmd, effects, now); gone.id == c.id && gone.admission == c.admission
  {
    hide Without, WithoutActors;
  }

  lemma ActionKeepsPlain(w: World, r: Run, cmd: Command, env: Env)
    requires Inv(w) && PlainTables(w) && NoDuplicates(env.order) && FindRun(w, cmd.run) == Some(r)
    requires Admissible(w, r, cmd).None? && PlayAction(w, r, cmd, env).Success?
    ensures PlainTables(PlayAction(w, r, cmd, env).value.0)
  {
    hide Inv, PlainTables, Admissible, Act, Settle, Save, RunOk, StockMoves, Plain, SameConditional, EnrolledIn, NoDuplicates, Stamp, RemoveMember, Ledgered;
    AdmissibleFacts(w, r, cmd);
    RunIsLedgered(w, cmd.run);
    MemberHasRow(r, cmd.actor);
    LiveEnrolled(w, cmd.run, cmd.actor);
    LiveFactsAll(w, cmd.run);
    LiveIsPlain(w, cmd.run);
    ActKeepsPlain(w, r, cmd, env);
    var acted := Act(r, cmd, env).value;
    var release := ((r.mode != Try || cmd.action.LeaveRun?) && acted.effects.releaseStock) || cmd.action.LeaveRun?;
    SettledPlain(w, acted.run, cmd, acted.effects, release, env.order);
    var (u, c) := Settle(w, acted.run, cmd, acted.effects, release, env.order).value;
    StampedPlain(u, c, cmd, acted.effects, env.now);
    var (left, final) := if cmd.action.LeaveRun? then Depart(u, c, cmd.actor) else (u, c);
    assert SameConditional(w, left) by { SameRowsConditional(w, u, left); }
    SavedPlain(w, left, Stamp(final, cmd, acted.effects, env.now), cmd, acted.box);
  }

  lemma SameRowsConditional(w: World, u: World, v: World)
    requires SameConditional(w, u) && v.rows == u.rows
    ensures SameConditional(w, v)
  {
  }

  lemma LiveIsPlain(w: World, run: Id)
    requires PlainTables(w) && FindRun(w, run).Some?
    ensures Plain(FindRun(w, run).value)
  {
  }

  lemma MemberHasRow(r: Run, actor: Id)
    requires Ledgered(r) && actor in r.roster
    ensures actor in r.recipients
  {
  }

  lemma ActKeepsPlain(w: World, r: Run, cmd: Command, env: Env)
    requires Ledgered(r) && Plain(r) && cmd.actor in r.recipients && Act(r, cmd, env).Success?
    ensures var a := Act(r, cmd, env).value.run;
      Plain(a) && cmd.actor in a.recipients && a.admission == r.admission && a.id == r.id
  {
    hide Plain, StockMoves, Ledgered, Advance, ClaimChest, Battle, PrepareExit, Cooling;
    if cmd.action.LeaveRun? {
      DepartedPlain(r, cmd.actor, env.goldDraw);
    } else {
      ActMovesStock(r, cmd, env);
      ActedPlain(r, Act(r, cmd, env).value.run);
      MovedKeys(r, Act(r, cmd, env).value.run);
      MovedAdmission(r, Act(r, cmd, env).value.run);
    }
  }

  lemma MovedAdmission(r: Run, s: Run)
    requires StockMoves(r, s)
    ensures s.admission == r.admission && s.id == r.id
  {
  }

  lemma CleanUpKeepsPlain(w: World, r: Run, cmd: Command, now: Time)
    requires Inv(w) && PlainTables(w) && FindRun(w, cmd.run) == Some(r) && CleanUp(w, r, cmd, now).Success?
    ensures PlainTables(CleanUp(w, r, cmd, now).value.0)
  {
    hide Inv, PlainTables, Save, RunOk, ExpireAll, ExpiryRecords, Plain, SortedIds;
    LiveFactsAll(w, cmd.run);
    LiveIsPlain(w, cmd.run);
    var s := TimeOut(r, now).(version := r.version + 1);
    RunIsLedgered(w, cmd.run);
    ExpiredPlain(r, s, now);
    SavedPlain(w, w.(history := w.history + ExpiryRecords(r, SortedIds(r.roster))), s, cmd, None);
  }

  lemma ExpiredPlain(r: Run, s: Run, now: Time)
    requires Ledgered(r) && Plain(r) && s == TimeOut(r, now).(version := r.version + 1)
    ensures Plain(s)
  {
    hide ExpireAll, SortedIds;
    SortedIdsKeep(r.roster);
    ExpireAllIs(r.recipients, SortedIds(r.roster), now + PENALTY);
  }

  lemma CommandKeepsPlain(w: World, cmd: Command, env: Env, outcome: CommitOutcome)
    requires Inv(w) && PlainTables(w) && NoDuplicates(env.order)
    ensures PlainTables(RunCommand(w, cmd, env, outcome).0)
  {
    hide Inv, PlainTables, CommandRefusal, PlayAction, CleanUp, Admissible, NoDuplicates;
    if Replay(w, cmd).None? && FreshCommand(w, cmd, env).Success? {
      var r := FindRun(w, cmd.run).value;
      if cmd.action.Cleanup? {
        CleanUpKeepsPlain(w, r, cmd, env.now);
      } else {
        ActionKeepsPlain(w, r, cmd, env);
      }
    }
  }

  lemma RecoverKeepsPlain(w: World, player: Id, actor: Id, id: Id, timer: Timer, outcome: CommitOutcome)
    requires Inv(w) && PlainTables(w)
    ensures PlainTables(Recover(w, player, actor, id, timer, outcome).0)
  {
    hide Inv, PlainTables, Authorize, RecoverRefusal, SaveRecovered, Projected;
    if FindRun(w, id).Some? {
      var r := FindRun(w, id).value;
      LiveFactsAll(w, id);
      LiveIsPlain(w, id);
      var told := w.(projected := w.projected + Projected(r, timer));
      ToldIsPlain(w, told);
      if SaveRecovered(told, r).Success? {
        ReleasedPlain(told, r);
      }
    }
  }

  lemma ToldIsPlain(w: World, told: World)
    requires PlainTables(w) && told.headers == w.headers && told.rows == w.rows
    ensures PlainTables(told)
  {
    assert forall run :: FindRun(told, run) == FindRun(w, run);
  }

  lemma ReleasedPlain(w: World, r: Run)
    requires PlainTables(w) && FindRun(w, r.id) == Some(r) && w.headers[r.id].admission == Some(r.admission) && SaveRecovered(w, r).Success?
    ensures PlainTables(SaveRecovered(w, r).value)
  {
    RowsOfIs(r.id, ServedRows(r));
    hide RowsOf;
    var v := SaveRecovered(w, r).value;
    forall run | FindRun(v, run).Some? ensures Plain(FindRun(v, run).value) {
      assert run != r.id ==> FindRun(w, run) == FindRun(v, run);
    }
    forall key | key in v.rows && AdmittedPlain(v, key.run) ensures v.rows[key].conditional == NOTHING {
      assert AdmittedPlain(w, key.run);
    }
  }

  lemma OpenedIsPlain(w: World, run: Id)
    requires PlainTables(w)
    ensures PlainTables(WithHeader(w, run))
  {
    var v := WithHeader(w, run);
    assert forall other :: FindRun(v, other) == FindRun(w, other);
    assert forall other :: AdmittedPlain(v, other) == AdmittedPlain(w, other);
  }

  /** What an admission writes, seen from the tables: one more run, its rows, and nothing about any other run. */
  ghost predicate Adds(w: World, v: World, r: Run) {
    && (FindRun(v, r.id).Some? ==> FindRun(v, r.id).value == r)
    && (forall run :: run != r.id ==> FindRun(v, run) == FindRun(w, run) && AdmittedPlain(v, run) == AdmittedPlain(w, run))
    && (forall key :: key in v.rows && key.run != r.id ==> key in w.rows && v.rows[key] == w.rows[key])
    && (forall key :: key in v.rows && key.run == r.id ==> key.actor in r.recipients && v.rows[key] == r.recipients[key.actor])
  }

  lemma AddedIsPlain(w: World, v: World, r: Run)
    requires PlainTables(w) && Adds(w, v, r) && Plain(r) && NoneConditional(r.recipients)
    ensures PlainTables(v)
  {
    hide Plain;
  }

  lemma FreshEntryWrites(w: World, a: Admission, cmd: Command, entry: Entry)
    requires EntryRefusal(a).None? && FreshEntry(w, a, cmd, entry).Success?
    ensures entry.stage.Some? && !SomeMissing(w, a.characters)
    ensures var r, v := NewRun(w, a, entry.stage.value, entry), FreshEntry(w, a, cmd, entry).value.0;
      && r.id in w.headers && w.headers[r.id].version == r.version - 1 && v.rows == w.rows + RowsOf(r.id, r.recipients)
      && v.headers == w.headers[r.id := Header(r.version, Some(r.admission), if r.roster == [] then None else Some(r))]
  {
    hide EntryRefusal, SomeMissing, SomeEnrolled, RowsOf, NewRun;
  }

  lemma WrittenAdds(w: World, v: World, r: Run, state: Option<Run>)
    requires r.id in w.headers && state in {None, Some(r)} && forall a :: RowKey(r.id, a) !in w.rows
    requires v.rows == w.rows + RowsOf(r.id, r.recipients) && v.headers == w.headers[r.id := Header(r.version, Some(r.admission), state)]
    ensures Adds(w, v, r)
  {
    hide RowsOf;
    RowsOfIs(r.id, r.recipients);
  }

  lemma NewRunStarts(w: World, a: Admission, stage: Stage, entry: Entry)
    requires !SomeMissing(w, a.characters)
    ensures NewRun(w, a, stage, entry).version == 1
  {
  }

  lemma FreshEntryAdds(w: World, a: Admission, cmd: Command, entry: Entry)
    requires Inv(w) && EntryRefusal(a).None? && FreshEntry(w, a, cmd, entry).Success?
    ensures entry.stage.Some? && !SomeMissing(w, a.characters)
    ensures Adds(w, FreshEntry(w, a, cmd, entry).value.0, NewRun(w, a, entry.stage.value, entry))
  {
    hide *;
    FreshEntryWrites(w, a, cmd, entry);
    NewRunStarts(w, a, entry.stage.value, entry);
    var r := NewRun(w, a, entry.stage.value, entry);
    FreshHasNoRows(w, r.id);
    WrittenAdds(w, FreshEntry(w, a, cmd, entry).value.0, r, if r.roster == [] then None else Some(r));
  }

  lemma FreshEntryIsPlain(w: World, a: Admission, cmd: Command, entry: Entry)
    requires Inv(w) && PlainTables(w) && EntryRefusal(a).None? && a.generation in w.headers && FreshEntry(w, a, cmd, entry).Success?
    ensures PlainTables(FreshEntry(w, a, cmd, entry).value.0)
  {
    FreshEntryAdds(w, a, cmd, entry);
    NobodyHasStock(w, a, entry.stage.value, entry);
    hide *;
    AddedIsPlain(w, FreshEntry(w, a, cmd, entry).value.0, NewRun(w, a, entry.stage.value, entry));
  }

  lemma FreshHasNoRows(w: World, run: Id)
    requires Inv(w) && run in w.headers && w.headers[run].version == 0
    ensures forall a :: RowKey(run, a) !in w.rows
  {
    hide HeadersOk, EnrolmentsOk, ReceiptsOk, HistoryOk, TimerOk, CreditsOk, RowOk;
    NoRowsWithoutHeader(w, run);
  }

  lemma NobodyHasStock(w: World, a: Admission, stage: Stage, entry: Entry)
    requires !SomeMissing(w, a.characters)
    ensures Plain(NewRun(w, a, stage, entry)) && NoneConditional(NewRun(w, a, stage, entry).recipients)
  {
  }

  lemma EnterKeepsPlain(w: World, player: Id, a: Admission, entry: Entry, outcome: CommitOutcome)
    requires Inv(w) && PlainTables(w)
    ensures PlainTables(Enter(w, player, a, entry, outcome).0)
  {
    hide Inv, PlainTables, Authorize, EntryRefusal, FreshEntry, WithHeader;
    if Authorize(w, player, a.actor).None? && EntryRefusal(a).None? {
      var cmd := EnrollCommand(player, a);
      WithHeaderKeepsInv(w, cmd.run);
      HeaderThere(w, cmd.run);
      OpenedIsPlain(w, cmd.run);
      if FreshEntry(WithHeader(w, cmd.run), a, cmd, entry).Success? {
        FreshEntryIsPlain(WithHeader(w, cmd.run), a, cmd, entry);
      }
    }
  }

  lemma EventKeepsPlain(w: World, e: Event)
    requires Inv(w) && PlainTables(w) && Faithful(w, e)
    ensures PlainTables(Happen(w, e))
  {
    hide Inv, PlainTables, Enter, RunCommand, Recover, WithHeader;
    match e
    case Entered(player, admission, entry, outcome) => EnterKeepsPlain(w, player, admission, entry, outcome);
    case Commanded(command, env, outcome, timer, recovery) =>
      CommandKeepsPlain(w, command, env, outcome);
      RunCommandKeepsInv(w, command, env, outcome);
      RecoverKeepsPlain(RunCommand(w, command, env, outcome).0, command.player, command.actor, command.run, timer, recovery);
    case Recovering(player, actor, run, timer, outcome) => RecoverKeepsPlain(w, player, actor, run, timer, outcome);
    case LobbyOpened(run) => OpenedIsPlain(w, run);
  }

  /** Over any history a run that was not admitted in Try mode is never in it and holds nothing conditional in any row. */
  lemma {:induction false} OnlyTryIsConditional(players: map<Id, Id>, events: seq<Event>)
    requires AllFaithful(players, events)
    ensures var w := After(players, events);
      && (forall run :: FindRun(w, run).Some? && FindRun(w, run).value.admission.mode != Try ==> FindRun(w, run).value.mode != Try)
      && (forall key :: key in w.rows && AdmittedPlain(w, key.run) ==> w.rows[key].conditional == NOTHING)
      && PlainTables(w)
    decreases |events|
  {
    hide Inv, Happen, Faithful;
    if events != [] {
      var n := |events| - 1;
      forall i | 0 <= i < n ensures Faithful(After(players, events[..n][..i]), events[..n][i]) {
        assert events[..n][..i] == events[..i];
      }
      OnlyTryIsConditional(players, events[..n]);
      ReachableInv(players, events[..n]);
      EventKeepsPlain(After(players, events[..n]), events[n]);
    }
  }
}

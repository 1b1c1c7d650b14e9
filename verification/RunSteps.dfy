/** Every action of a live run carries its party, marks and ledgers forward. */
module RunSteps {
  import opened Common
  import opened RunTypes
  import opened RunEarnings
  import opened RunProgress
  import opened RunNpc
  import opened RunTravel
  import opened RunWorld
  import opened RunCommands
  import opened RunInvariants

  /** Ledgers stay balanced, nobody's standing or paid amount moves, and those who left are not touched at all. */
  ghost predicate LedgerStep(r: Run, s: Run) {
    LedgersKept(r.recipients, s.recipients) && AllBalanced(s.recipients) && OutsidersKept(r, s)
  }

  ghost predicate OutsidersKept(r: Run, s: Run) {
    forall id :: id in r.recipients && id in s.recipients && id !in r.roster ==> s.recipients[id] == r.recipients[id]
  }

  /** The party and its ledgers are carried over, marks only go forward, and clear credit stays honest. */
  ghost predicate Carried(r: Run, s: Run) {
    Honest(s) && Forward(r, s) && SameParty(r, s) && LedgerStep(r, s)
  }

  ghost predicate Playable(r: Run) {
    Honest(r) && AllBalanced(r.recipients) && AllPlaying(r.recipients, r.roster)
  }

  lemma CarriedOn(r: Run, s: Run, u: Run)
    requires Carried(r, s) && Carried(s, u)
    ensures Carried(r, u)
  {
    hide Honest, Balanced;
  }

  lemma CarriedSelf(r: Run)
    requires Playable(r)
    ensures Carried(r, r)
  {
    hide Honest, Balanced;
  }

  lemma CarriedPlayable(r: Run, s: Run)
    requires Playable(r) && Carried(r, s)
    ensures Playable(s)
  {
    hide Honest, Balanced, Forward;
  }

  lemma LedgersUntouched(r: Run, s: Run)
    requires AllBalanced(r.recipients) && s.recipients == r.recipients
    ensures LedgerStep(r, s)
  {
  }

  // ---------- floors and travel ----------

  lemma CreateKeepsLedgers(r: Run, actor: Id, draw: Draw)
    requires AllBalanced(r.recipients) && AllPlaying(r.recipients, r.roster) && Create(r, actor, draw).Success?
    ensures LedgerStep(r, Create(r, actor, draw).value)
  {
    hide Balanced, ConvertAll, TableCovers, Restored, ActorIds;
    if r.floor == TREASURE_FLOOR && r.mode == Try {
      ConvertAllBalances(r.recipients, r.roster);
    }
  }

  lemma AdvanceCarries(r: Run, actor: Id, draw: Draw)
    requires Playable(r) && Advance(r, actor, draw).Success?
    ensures Carried(r, Advance(r, actor, draw).value)
  {
    AdvanceKeepsProvenance(r, actor, draw);
    AdvanceKeepsLedgers(r, actor, draw);
  }

  lemma AdvanceKeepsLedgers(r: Run, actor: Id, draw: Draw)
    requires AllBalanced(r.recipients) && AllPlaying(r.recipients, r.roster) && Advance(r, actor, draw).Success?
    ensures LedgerStep(r, Advance(r, actor, draw).value)
  {
    hide Create, AllBalanced, AllPlaying, AdvanceGuard, LedgersKept;
    var up := MarkEXOnAdvance(Discard(r.(actors := draw.prepared.value)), actor);
    CreateKeepsLedgers(up.(floor := up.floor + 1), actor, draw);
  }

  lemma ReplaceKeepsLedgers(r: Run, actor: Id, floor: int, draw: Draw)
    requires AllBalanced(r.recipients) && AllPlaying(r.recipients, r.roster) && Replace(r, actor, floor, draw).Success?
    ensures LedgerStep(r, Replace(r, actor, floor, draw).value.0)
  {
    hide Create, AllBalanced, AllPlaying, LedgersKept, Renamed, OldTimes;
    var named := if draw.spawned.None? then None else Some(Renamed(draw.spawned.value, Olds(r, r.enemies).value));
    CreateKeepsLedgers(Discard(r).(floor := floor), actor, draw.(spawned := named));
  }

  lemma TravelKeepsLedgers(r: Run, actor: Id, tool: Id, input: Input, supply: Supply)
    requires Playable(r) && Travel(r, actor, tool, input, supply).Success?
    ensures LedgerStep(r, Travel(r, actor, tool, input, supply).value.0)
  {
    hide Travel, Replace, AllBalanced, Honest;
    if tool == "item-150" {
      ReplacementAdmitted(r, actor, input, supply);
      ReplaceKeepsLedgers(r.(actors := supply.reset.value.actors), actor, input.floor, supply.draw);
    } else {
      CoordinatesAreNotCredit(r, actor, tool, input, supply);
      LedgersUntouched(r, Travel(r, actor, tool, input, supply).value.0);
    }
  }

  lemma TravelCarries(r: Run, actor: Id, tool: Id, input: Input, supply: Supply)
    requires Playable(r) && Travel(r, actor, tool, input, supply).Success?
    ensures var (s, t) := Travel(r, actor, tool, input, supply).value;
      Carried(r, s) && HonestTransition(s, t)
  {
    hide Travel, LedgerStep, Forward, SameParty, HonestTransition, AllBalanced;
    TravelStaysHonest(r, actor, tool, input, supply);
    TravelKeepsLedgers(r, actor, tool, input, supply);
  }

  lemma RoomCarries(r: Run, actor: Id, entry: Id, supply: Supply)
    requires Playable(r) && Room(r, actor, entry, supply).Success?
    ensures var (s, t) := Room(r, actor, entry, supply).value;
      Carried(r, s) && HonestTransition(s, t)
  {
    RoomStaysHonest(r, actor, entry, supply);
    hide Replace, Balanced, Honest, Forward, SameParty, RoomRefusal;
    var deeper := entry == DEEPER_ROOM;
    var before := if deeper then r.(actors := supply.reset.value.actors) else r;
    ReplaceKeepsLedgers(before, actor, if deeper then r.floor + 1 else r.floor, supply.draw);
  }

  lemma ResponseCarries(r: Run, t: Transition, now: Time)
    requires Playable(r) && HonestTransition(r, t)
    ensures var (s, npc) := BeginResponse(r, t, now);
      Carried(r, s) && HonestTransition(s, t)
  {
    ResponseStaysHonest(r, t, now);
    hide Responders, FirstResponder, ActorIds, ResponderTime, NextNPC, Balanced, Discard, Honest;
    LedgersUntouched(r, BeginResponse(r, t, now).0);
  }

  lemma RecordResponseCarries(r: Run, after: seq<Actor>, npc: Id, now: Time)
    requires Playable(r) && RecordResponse(r.(actors := after), npc, now).Success?
    ensures var s := RecordResponse(r.(actors := after), npc, now).value;
      Carried(r, s) && s.trail == r.trail
  {
    hide Balanced, Rotate;
    var s := RecordResponse(r.(actors := after), npc, now).value;
    FightCarries(r, after, s.enemies, s.lastActions);
    assert s == r.(actors := after, enemies := s.enemies, lastActions := s.lastActions);
  }

  lemma FightCarries(r: Run, actors: seq<Actor>, enemies: seq<Id>, clock: map<Id, Time>)
    requires Playable(r)
    ensures Carried(r, r.(actors := actors, enemies := enemies, lastActions := clock))
  {
    hide Balanced;
  }

  lemma PlayStepCarries(r: Run, t: Transition, actor: Id, step: Step, now: Time)
    requires Playable(r) && HonestTransition(r, t) && PlayStep(r, t, actor, step, now).Success?
    ensures var (s, t') := PlayStep(r, t, actor, step, now).value;
      Carried(r, s) && HonestTransition(s, t')
  {
    match step
    case Fight(actors, enemies, clock) => FightCarries(r, actors, enemies, clock);
    case UseTool(tool, input, supply) => TravelCarries(r, actor, tool, input, supply);
    case UseRoom(entry, supply) => RoomCarries(r, actor, entry, supply);
    case Answer(after) =>
      hide Carried, Playable, BeginResponse, RecordResponse;
      ResponseCarries(r, t, now);
      var (s, npc) := BeginResponse(r, t, now);
      CarriedPlayable(r, s);
      if npc != NOBODY {
        RecordResponseCarries(s, after, npc, now);
        CarriedOn(r, s, RecordResponse(s.(actors := after), npc, now).value);
      }
  }

  /** Whatever a fight does, in any order and any number of steps, the run is carried forward honestly. */
  lemma {:induction false} PlayCarries(r: Run, actor: Id, steps: seq<Step>, now: Time)
    requires Playable(r) && Play(r, actor, steps, now).Success?
    ensures var (s, t) := Play(r, actor, steps, now).value;
      Carried(r, s) && HonestTransition(s, t)
    decreases |steps|
  {
    hide Carried, Playable, PlayStep;
    if steps == [] {
      CarriedSelf(r);
    } else {
      var n := |steps| - 1;
      PlayCarries(r, actor, steps[..n], now);
      var (s, t) := Play(r, actor, steps[..n], now).value;
      CarriedPlayable(r, s);
      PlayStepCarries(s, t, actor, steps[n], now);
      CarriedOn(r, s, Play(r, actor, steps, now).value.0);
    }
  }

  // ---------- combat credit ----------

  lemma DefeatsCarry(r: Run, defeats: seq<Defeat>)
    requires Playable(r)
    ensures Carried(r, CreditDefeats(r, defeats))
  {
    hide Balanced, TrimSuffixes;
  }

  lemma {:induction false} RejoinOnlyRejoins(r: Run, actor: Id, ids: seq<Id>)
    requires RejoinMembers(r, actor, ids).Success?
    ensures RejoinMembers(r, actor, ids).value == r.(enemies := RejoinMembers(r, actor, ids).value.enemies)
    decreases |ids|
  {
    hide ActorAt;
    if ids != [] {
      RejoinOnlyRejoins(r, actor, ids[..|ids| - 1]);
    }
  }

  lemma {:induction false} RejoinCarries(r: Run, actor: Id, ids: seq<Id>)
    requires Playable(r) && RejoinMembers(r, actor, ids).Success?
    ensures var s := RejoinMembers(r, actor, ids).value;
      Carried(r, s) && s == r.(enemies := s.enemies)
    decreases |ids|
  {
    hide Balanced, ActorAt;
    if ids != [] {
      RejoinCarries(r, actor, ids[..|ids| - 1]);
    }
  }

  lemma EncounterCarries(r: Run)
    requires Playable(r) && CreditEncounter(r).Success?
    ensures Carried(r, CreditEncounter(r).value)
  {
    hide Balanced, LivingEnemies;
  }

  lemma BattleCarries(r: Run, actor: Id, env: Env)
    requires Playable(r) && Battle(r, actor, env).Success?
    ensures Carried(r, Battle(r, actor, env).value.0)
  {
    hide Carried, Playable, Play, CreditDefeats, RejoinMembers, CreditEncounter, HonestTransition;
    PlayCarries(r, actor, env.script, env.now);
    var played := Play(r, actor, env.script, env.now).value.0;
    CarriedPlayable(r, played);
    var effects := env.fought.value;
    DefeatsCarry(played, effects.defeats);
    var marked := CreditDefeats(played, effects.defeats);
    CarriedPlayable(played, marked);
    CarriedOn(r, played, marked);
    RejoinCarries(marked, actor, effects.memberOnly);
    var joined := RejoinMembers(marked, actor, effects.memberOnly).value;
    CarriedPlayable(marked, joined);
    CarriedOn(r, marked, joined);
    if effects.encounterDefeated {
      EncounterCarries(joined);
      CarriedOn(r, joined, CreditEncounter(joined).value);
    }
  }

  // ---------- chests and recording ----------

  lemma ChestCarries(r: Run, actor: Id, box: Id, hasPocket: bool)
    requires Playable(r) && actor in r.roster && ClaimChest(r, actor, box, hasPocket).Success?
    ensures Carried(r, ClaimChest(r, actor, box, hasPocket).value.0)
  {
    hide ActorAt;
    var p := r.recipients[actor];
    var q := p.(inspected := p.inspected + 1);
    assert Balanced(q) && SameStanding(p, q);
  }

  /** A claim needs an unopened box and takes it for good; the first is free and every other one costs a pocket. */
  lemma ChestIsTakenOnce(r: Run, actor: Id, box: Id, hasPocket: bool)
    requires ClaimChest(r, actor, box, hasPocket).Success?
    ensures var (s, taken) := ClaimChest(r, actor, box, hasPocket).value;
      && taken.id == box && taken.openedBy == actor
      && (RecipientOf(r.recipients, actor).inspected > 0 ==> hasPocket)
      && RecipientOf(s.recipients, actor).inspected == RecipientOf(r.recipients, actor).inspected + 1
      && (actor != NOBODY ==> forall later, pocket :: ClaimChest(s, later, box, pocket).Failure?)
  {
    var i := BoxIndex(r.boxes, box);
    var s := ClaimChest(r, actor, box, hasPocket).value.0;
    BoxIndexStays(r.boxes, box, s.boxes[i]);
  }

  lemma {:induction false} BoxIndexStays(boxes: seq<Box>, id: Id, box: Box)
    requires box.id == id && BoxIndex(boxes, id) >= 0
    ensures BoxIndex(boxes[BoxIndex(boxes, id) := box], id) == BoxIndex(boxes, id)
    decreases |boxes|
  {
    var i, n := BoxIndex(boxes, id), |boxes| - 1;
    var after := boxes[i := box];
    if i == n {
      assert after[..n] == boxes[..n];
    } else {
      BoxIndexStays(boxes[..n], id, box);
      assert after[..n] == boxes[..n][i := box];
    }
  }

  lemma RecordOneCarries(r: Run, actor: Id, amount: Earnings)
    requires Playable(r) && actor in r.roster && Record(r.recipients[actor], r.mode, amount).Success?
    ensures Carried(r, r.(recipients := r.recipients[actor := Record(r.recipients[actor], r.mode, amount).value]))
  {
    var p := r.recipients[actor];
    RecordBalances(p, r.mode, amount);
    assert SameStanding(p, Record(p, r.mode, amount).value);
  }

  lemma {:induction false} RecordAllCarries(r: Run, gains: seq<Gain>)
    requires Playable(r) && RecordAll(r, gains).Success?
    ensures Carried(r, RecordAll(r, gains).value)
    decreases |gains|
  {
    hide Record, Carried, Playable;
    if gains == [] {
      CarriedSelf(r);
    } else {
      var n := |gains| - 1;
      RecordAllCarries(r, gains[..n]);
      var before := RecordAll(r, gains[..n]).value;
      CarriedPlayable(r, before);
      assert gains[n].actor in before.recipients by { hide *; PlayableMember(before, gains[n].actor); }
      RecordOneCarries(before, gains[n].actor, gains[n].amount);
      CarriedOn(r, before, RecordAll(r, gains).value);
    }
  }

  lemma PlayableMember(r: Run, id: Id)
    requires Playable(r) && id in r.roster
    ensures id in r.recipients && r.recipients[id].disposition == Playing && Balanced(r.recipients[id])
  {
  }

  /** Every action but leaving and cleanup only carries the run forward. */
  lemma ActCarries(r: Run, cmd: Command, env: Env)
    requires Playable(r) && cmd.actor in r.roster && !cmd.action.LeaveRun?
    requires Act(r, cmd, env).Success?
    ensures Carried(r, Act(r, cmd, env).value.run)
  {
    hide Carried, Playable, Advance, ClaimChest, PrepareExit, Battle, Cooling;
    match cmd.action
    case AdvanceFloor => AdvanceCarries(r, cmd.actor, env.draw);
    case OpenChest => ChestCarries(r, cmd.actor, cmd.target, env.hasPocket);
    case _ => BattleCarries(r, cmd.actor, env);
  }
}

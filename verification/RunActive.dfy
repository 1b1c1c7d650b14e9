/** The loaded run as the service mutates it, statement by statement, proved against its specification. */
module RunActive {
  import opened Common
  import opened RunTypes
  import opened RunEarnings
  import opened RunProgress
  import opened RunNpc
  import opened RunOrder
  import opened RunTravel
  import opened RunCommands

  lemma {:induction false} ConvertPrefixFails(recipients: map<Id, Recipient>, roster: seq<Id>, n: nat)
    requires n <= |roster| && ConvertAll(recipients, roster[..n]).Failure?
    ensures ConvertAll(recipients, roster) == Failure(ConvertAll(recipients, roster[..n]).error)
    decreases |roster|
  {
    hide Convert;
    if n == |roster| {
      assert roster[..n] == roster;
    } else {
      var m := |roster| - 1;
      assert roster[..m][..n] == roster[..n];
      ConvertPrefixFails(recipients, roster[..m], n);
    }
  }

  lemma {:induction false} RecordPrefixFails(r: Run, gains: seq<Gain>, n: nat)
    requires n <= |gains| && RecordAll(r, gains[..n]).Failure?
    ensures RecordAll(r, gains) == Failure(RecordAll(r, gains[..n]).error)
    decreases |gains|
  {
    hide Record;
    if n == |gains| {
      assert gains[..n] == gains;
    } else {
      var m := |gains| - 1;
      assert gains[..m][..n] == gains[..n];
      RecordPrefixFails(r, gains[..m], n);
    }
  }

  lemma {:induction false} RejoinPrefixFails(r: Run, actor: Id, ids: seq<Id>, n: nat)
    requires n <= |ids| && RejoinMembers(r, actor, ids[..n]).Failure?
    ensures RejoinMembers(r, actor, ids) == Failure(RejoinMembers(r, actor, ids[..n]).error)
    decreases |ids|
  {
    hide ActorAt;
    if n == |ids| {
      assert ids[..n] == ids;
    } else {
      var m := |ids| - 1;
      assert ids[..m][..n] == ids[..n];
      RejoinPrefixFails(r, actor, ids[..m], n);
    }
  }

  lemma {:induction false} WithoutActorsSplit(actors: seq<Actor>, gone: seq<Id>, n: nat)
    requires n < |actors|
    ensures WithoutActors(actors[..n + 1], gone)
      == WithoutActors(actors[..n], gone) + (if actors[n].id in gone then [] else [actors[n]])
    decreases n
  {
    if n > 0 {
      WithoutActorsSplit(actors[1..], gone, n - 1);
      assert actors[..n + 1][1..] == actors[1..][..n] && actors[..n][1..] == actors[1..][..n - 1];
      assert actors[..n + 1][0] == actors[0] && actors[..n][0] == actors[0];
    } else {
      assert actors[..1] == [actors[0]];
    }
  }

  lemma FurnishFrom(r: Run, boxes: seq<Box>, recipients: map<Id, Recipient>)
    ensures RunProgress.Furnish(r.(recipients := recipients), boxes, recipients) == RunProgress.Furnish(r, boxes, recipients)
  {
  }

  class ActiveRun {
    const id: Id
    const admission: Admission
    var version: int
    var stage: Stage
    var mode: Mode
    var leader: Id
    var roster: seq<Id>
    var floor: int
    var floorsCleared: int
    var stageCleared: bool
    var clearPending: bool
    var exUnlocked: bool
    var encounterFloor: int
    var encounterStage: Id
    var enemies: seq<Id>
    var actors: seq<Actor>
    var lastActions: map<Id, Time>
    var recipients: map<Id, Recipient>
    var boxes: seq<Box>
    var lastActivity: Time
    var timedOut: bool
    var trail: Trail

    function Value(): Run
      reads this
    {
      Run(id, version, admission, stage, mode, leader, roster, floor, floorsCleared, stageCleared, clearPending, exUnlocked,
          encounterFloor, encounterStage, enemies, actors, lastActions, recipients, boxes, lastActivity, timedOut, trail)
    }

    constructor (r: Run)
      ensures Value() == r
    {
      id, version, admission, stage, mode := r.id, r.version, r.admission, r.stage, r.mode;
      leader, roster, floor, floorsCleared := r.leader, r.roster, r.floor, r.floorsCleared;
      stageCleared, clearPending, exUnlocked := r.stageCleared, r.clearPending, r.exUnlocked;
      encounterFloor, encounterStage, enemies, actors := r.encounterFloor, r.encounterStage, r.enemies, r.actors;
      lastActions, recipients, boxes := r.lastActions, r.recipients, r.boxes;
      lastActivity, timedOut, trail := r.lastActivity, r.timedOut, r.trail;
    }

    method FindActor(id: Id) returns (a: Option<Actor>)
      ensures a == ActorAt(actors, id)
    {
      var i := 0;
      while i < |actors|
        invariant 0 <= i <= |actors|
        invariant ActorAt(actors, id) == ActorAt(actors[i..], id)
      {
        if actors[i].id == id {
          return Some(actors[i]);
        }
        i := i + 1;
      }
      return None;
    }

    method LivingEnemies() returns (living: bool)
      ensures living == RunTypes.LivingEnemies(Value())
    {
      for i := 0 to |boxes|
        invariant forall j :: 0 <= j < i ==> boxes[j].openedBy != NOBODY
      {
        if boxes[i].openedBy == NOBODY {
          return true;
        }
      }
      for i := 0 to |enemies|
        invariant forall j :: 0 <= j < i ==> !Stands(Value(), enemies[j])
      {
        var a := FindActor(enemies[i]);
        if a.Some? && a.value.hp > 0 {
          assert Stands(Value(), enemies[i]);
          return true;
        }
      }
      return false;
    }

    method ForgetClocks()
      modifies this`lastActions
      ensures lastActions == old(lastActions) - Named(enemies)
    {
      for i := 0 to |enemies|
        invariant lastActions == old(lastActions) - Named(enemies[..i])
      {
        lastActions := lastActions - {enemies[i]};
        assert Named(enemies[..i + 1]) == Named(enemies[..i]) + {enemies[i]};
      }
      assert enemies[..|enemies|] == enemies;
    }

    method KeepActors(gone: seq<Id>)
      modifies this`actors
      ensures actors == WithoutActors(old(actors), gone)
    {
      var before := actors;
      var kept: seq<Actor> := [];
      for i := 0 to |before|
        invariant kept == WithoutActors(before[..i], gone)
      {
        WithoutActorsSplit(before, gone, i);
        if before[i].id !in gone {
          kept := kept + [before[i]];
        }
      }
      assert before[..|before|] == before;
      actors := kept;
    }

    /** Old members go, with their clocks, and so do the boxes. */
    method Discard()
      modifies this`lastActions, this`actors, this`enemies, this`boxes
      ensures Value() == RunProgress.Discard(old(Value()))
    {
      hide WithoutActors, Named;
      ForgetClocks();
      KeepActors(enemies);
      enemies := [];
      boxes := [];
    }

    method CountParty(team: Id) returns (n: nat)
      ensures n == PartySize(actors, team)
    {
      n := 0;
      for i := 0 to |actors|
        invariant n == PartySize(actors[..i], team)
      {
        assert actors[..i + 1][..i] == actors[..i];
        if actors[i].team == team && OnField(actors[i]) {
          n := n + 1;
        }
      }
      assert actors[..|actors|] == actors;
    }

    method MarkEXOnAdvance(actor: Id)
      modifies this`exUnlocked
      ensures Value() == RunProgress.MarkEXOnAdvance(old(Value()), actor)
    {
      if floor != BOSS_FLOOR {
        return;
      }
      var a := FindActor(actor);
      var count := CountParty(if a.Some? then a.value.team else NOBODY);
      if stage.id == "stage-25" || (stage.id == "stage-23" && count > 1) {
        exUnlocked := true;
      }
    }

    method MarkOrigin()
      modifies this`encounterFloor, this`encounterStage, this`trail
      ensures encounterFloor == floor && encounterStage == stage.id && trail == old(trail).(created := old(trail).created + [floor])
    {
      encounterFloor, encounterStage := floor, stage.id;
      trail := trail.(created := trail.created + [floor]);
    }

    method MarkBoss()
      modifies this`clearPending, this`exUnlocked
      ensures clearPending && exUnlocked == (old(exUnlocked) || stage.id == "stage-24")
    {
      clearPending := true;
      if stage.id == "stage-24" {
        exUnlocked := true;
      }
    }

    method MarkCreated()
      modifies this`encounterFloor, this`encounterStage, this`clearPending, this`exUnlocked, this`trail
      ensures Value() == RunProgress.MarkCreated(old(Value()))
    {
      MarkOrigin();
      if floor == BOSS_FLOOR {
        MarkBoss();
      }
    }

    /** Every ally on the field, fallen ones too, is restored before an EX boss. */
    method RestoreAllies(actor: Id)
      modifies this`actors
      ensures actors == Restored(old(actors), TeamOf(old(Value()), actor))
    {
      var a := FindActor(actor);
      var team := if a.Some? then a.value.team else NOBODY;
      var before := actors;
      for i := 0 to |before|
        invariant |actors| == |before|
        invariant forall j :: 0 <= j < i ==> actors[j] == Restored(before, team)[j]
        invariant forall j :: i <= j < |before| ==> actors[j] == before[j]
      {
        if actors[i].team == team && OnField(actors[i]) {
          actors := actors[i := actors[i].(hp := actors[i].maxHp)];
        }
      }
      assert actors == Restored(before, team);
    }

    method CreateEncounter(actor: Id, draw: Draw) returns (error: Option<Error>)
      modifies this
      ensures error.None? ==> RunProgress.CreateEncounter(old(Value()), actor, draw) == Success(Value())
      ensures error.Some? ==> RunProgress.CreateEncounter(old(Value()), actor, draw) == Failure(error.value)
    {
      if stage.ordinary && !TableCovers(Value()) {
        return Some(UnsupportedEffect);
      }
      if draw.spawned.None? {
        return Some(StageNotFound);
      }
      actors := actors + draw.spawned.value;
      enemies := enemies + ActorIds(draw.spawned.value);
      if stage.ordinary && floor == EX_FLOOR {
        RestoreAllies(actor);
      }
      MarkCreated();
      return None;
    }

    method ConvertTryStock() returns (error: Option<Error>)
      modifies this`recipients
      ensures error.None? ==> ConvertAll(old(recipients), roster) == Success(recipients)
      ensures error.Some? ==> ConvertAll(old(recipients), roster) == Failure(error.value)
    {
      hide Convert;
      for i := 0 to |roster|
        invariant ConvertAll(old(recipients), roster[..i]) == Success(recipients)
      {
        assert roster[..i + 1][..i] == roster[..i];
        var converted := Convert(RecipientOf(recipients, roster[i]));
        if converted.Failure? {
          ConvertPrefixFails(old(recipients), roster, i + 1);
          return Some(converted.error);
        }
        recipients := recipients[roster[i] := converted.value];
      }
      assert roster[..|roster|] == roster;
      return None;
    }

    method MarkRoom()
      modifies this`encounterFloor, this`encounterStage, this`trail
      ensures encounterFloor == floor && encounterStage == stage.id && trail == old(trail).(rooms := old(trail).rooms + [clearPending])
    {
      encounterFloor, encounterStage := floor, stage.id;
      trail := trail.(rooms := trail.rooms + [clearPending]);
    }

    method TurnPendingClear()
      modifies this`stageCleared, this`clearPending
      ensures stageCleared == (old(stageCleared) || old(clearPending)) && !clearPending
    {
      if clearPending {
        stageCleared, clearPending := true, false;
      }
    }

    method MarkTreasure()
      modifies this`stageCleared, this`clearPending, this`encounterFloor, this`encounterStage, this`trail
      ensures Value() == RunProgress.MarkTreasure(old(Value()))
    {
      MarkRoom();
      TurnPendingClear();
    }

    method PlaceBoxes(found: seq<Box>)
      modifies this`boxes, this`mode
      ensures Value() == old(Value()).(boxes := found, mode := if old(mode) == Try then Normal else old(mode))
    {
      boxes := found;
      if mode == Try {
        mode := Normal;
      }
    }

    /** Try stock is turned over, the boxes appear, and the run goes on in the ordinary mode. */
    method Furnish(found: seq<Box>)
      modifies this`boxes, this`mode, this`stageCleared, this`clearPending, this`encounterFloor, this`encounterStage, this`trail
      ensures Value() == RunProgress.Furnish(old(Value()), found, old(recipients))
    {
      hide RunProgress.MarkTreasure;
      PlaceBoxes(found);
      MarkTreasure();
    }

    method CreateTreasure(found: seq<Box>) returns (error: Option<Error>)
      modifies this`boxes, this`recipients, this`mode, this`stageCleared, this`clearPending, this`encounterFloor, this`encounterStage, this`trail
      ensures error.None? ==> RunProgress.CreateTreasure(old(Value()), found) == Success(Value())
      ensures error.Some? ==> RunProgress.CreateTreasure(old(Value()), found) == Failure(error.value)
    {
      hide ConvertAll, RunProgress.Furnish;
      if mode == Try {
        error := ConvertTryStock();
        if error.Some? {
          return;
        }
      }
      ghost var converted := Value();
      Furnish(found);
      assert converted == old(Value()).(recipients := recipients);
      FurnishFrom(old(Value()), found, recipients);
      return None;
    }

    method Create(actor: Id, draw: Draw) returns (error: Option<Error>)
      modifies this
      ensures error.None? ==> RunProgress.Create(old(Value()), actor, draw) == Success(Value())
      ensures error.Some? ==> RunProgress.Create(old(Value()), actor, draw) == Failure(error.value)
    {
      if floor == TREASURE_FLOOR {
        error := CreateTreasure(draw.boxes);
      } else {
        error := CreateEncounter(actor, draw);
      }
    }

    method AdvanceGuard(actor: Id) returns (error: Option<Error>)
      ensures error == RunProgress.AdvanceGuard(Value(), actor)
    {
      var a := FindActor(actor);
      if a.None? || a.value.hp <= 0 {
        return Some(Unconscious);
      }
      if floor == 0 && leader != actor {
        return Some(LeaderOnly);
      }
      var living := LivingEnemies();
      if living {
        return Some(InvalidFloorAction);
      }
      if floor < TREASURE_FLOOR {
        return None;
      }
      if !HasEX(Value()) || floor > EX_FLOOR {
        return Some(InvalidFloorAction);
      }
      if floor == EX_FLOOR || !stage.ordinary || !stage.exRoster {
        return Some(UnsupportedEffect);
      }
      return None;
    }

    method Advance(actor: Id, draw: Draw) returns (error: Option<Error>)
      modifies this
      ensures error.None? ==> RunProgress.Advance(old(Value()), actor, draw) == Success(Value())
      ensures error.Some? ==> RunProgress.Advance(old(Value()), actor, draw) == Failure(error.value)
    {
      error := AdvanceGuard(actor);
      if error.Some? {
        return;
      }
      if draw.prepared.None? {
        return Some(StorageFailure);
      }
      actors := draw.prepared.value;
      Discard();
      MarkEXOnAdvance(actor);
      floor := floor + 1;
      error := Create(actor, draw);
    }

    method ClaimChest(actor: Id, box: Id, hasPocket: bool) returns (r: Result<Box, Error>)
      modifies this`recipients, this`boxes
      ensures r.Success? ==> RunProgress.ClaimChest(old(Value()), actor, box, hasPocket) == Success((Value(), r.value))
      ensures r.Failure? ==> RunProgress.ClaimChest(old(Value()), actor, box, hasPocket) == Failure(r.error)
    {
      if floor != TREASURE_FLOOR {
        return Failure(InvalidFloorAction);
      }
      var a := FindActor(actor);
      if a.None? || a.value.hp <= 0 {
        return Failure(Unconscious);
      }
      var i := FindBox(box);
      if i < 0 || boxes[i].openedBy != NOBODY {
        return Failure(NoUnopenedTreasure);
      }
      var p := RecipientOf(recipients, actor);
      if p.inspected > 0 && !hasPocket {
        return Failure(TreasureLimitReached);
      }
      recipients := recipients[actor := p.(inspected := p.inspected + 1)];
      boxes := boxes[i := boxes[i].(openedBy := actor)];
      return Success(boxes[i]);
    }

    method FindBox(box: Id) returns (i: int)
      ensures i == BoxIndex(boxes, box)
    {
      i := -1;
      for n := 0 to |boxes|
        invariant i == BoxIndex(boxes[..n], box)
      {
        assert boxes[..n + 1][..n] == boxes[..n];
        if i < 0 && boxes[n].id == box {
          i := n;
        }
      }
      assert boxes[..|boxes|] == boxes;
    }

    method RecordEarnings(gains: seq<Gain>) returns (error: Option<Error>)
      modifies this`recipients
      ensures error.None? ==> RecordAll(old(Value()), gains) == Success(Value())
      ensures error.Some? ==> RecordAll(old(Value()), gains) == Failure(error.value)
    {
      for i := 0 to |gains|
        invariant RecordAll(old(Value()), gains[..i]) == Success(Value())
      {
        assert gains[..i + 1][..i] == gains[..i];
        var gain := gains[i];
        if gain.actor !in roster {
          RecordPrefixFails(old(Value()), gains, i + 1);
          return Some(RunForbidden);
        }
        var p := Record(RecipientOf(recipients, gain.actor), mode, gain.amount);
        if p.Failure? {
          RecordPrefixFails(old(Value()), gains, i + 1);
          return Some(p.error);
        }
        recipients := recipients[gain.actor := p.value];
      }
      assert gains[..|gains|] == gains;
      return None;
    }

    method RejoinMembers(actor: Id, ids: seq<Id>) returns (error: Option<Error>)
      modifies this`enemies
      ensures error.None? ==> RunCommands.RejoinMembers(old(Value()), actor, ids) == Success(Value())
      ensures error.Some? ==> RunCommands.RejoinMembers(old(Value()), actor, ids) == Failure(error.value)
    {
      for i := 0 to |ids|
        invariant RunCommands.RejoinMembers(old(Value()), actor, ids[..i]) == Success(Value())
      {
        assert ids[..i + 1][..i] == ids[..i];
        var a := FindActor(ids[i]);
        var me := FindActor(actor);
        if a.None? || me.None? || a.value.team == me.value.team || ids[i] in enemies {
          RejoinPrefixFails(old(Value()), actor, ids, i + 1);
          return Some(RunConflict);
        }
        if a.value.hp > 0 {
          enemies := enemies + [ids[i]];
        }
      }
      assert ids[..|ids|] == ids;
      return None;
    }

    /** Once per credited defeat, in order. */
    method CreditDefeats(defeats: seq<Defeat>)
      modifies this`exUnlocked
      ensures Value() == RunCommands.CreditDefeats(old(Value()), defeats)
    {
      if stage.id != "stage-22" {
        return;
      }
      for i := 0 to |defeats|
        invariant exUnlocked == (old(exUnlocked) || exists d :: d in defeats[..i] && TrimSuffixes(d.identity) == ROYAL_BEE && d.lucky)
      {
        assert forall d :: d in defeats[..i + 1] <==> d in defeats[..i] || d == defeats[i];
        if TrimSuffixes(defeats[i].identity) == ROYAL_BEE && defeats[i].lucky {
          exUnlocked := true;
        }
      }
      assert defeats[..|defeats|] == defeats;
    }

    method CreditEncounter() returns (error: Option<Error>)
      modifies this`floorsCleared, this`stageCleared, this`trail
      ensures error.None? ==> RunCommands.CreditEncounter(old(Value())) == Success(Value())
      ensures error.Some? ==> RunCommands.CreditEncounter(old(Value())) == Failure(error.value)
    {
      var living := LivingEnemies();
      if living || encounterFloor < 1 || encounterFloor > EX_FLOOR || encounterFloor == TREASURE_FLOOR {
        return Some(RunConflict);
      }
      floorsCleared, trail := Max(floorsCleared, encounterFloor), trail.(credited := trail.credited + [encounterFloor]);
      if encounterFloor == BOSS_FLOOR {
        stageCleared := true;
      }
      return None;
    }

    method NextNPC(now: Time) returns (npc: Id)
      ensures npc == RunNpc.NextNPC(Value(), now)
    {
      var i := 0;
      while i < |enemies|
        invariant 0 <= i <= |enemies|
        invariant RunNpc.NextNPC(Value(), now) == FirstEligible(Value(), enemies[i..], now)
      {
        var a := FindActor(enemies[i]);
        var last := if enemies[i] in lastActions then lastActions[enemies[i]] else 0;
        if a.Some? && a.value.npc && a.value.hp > 0 && now - last >= admission.speed * SECOND {
          return enemies[i];
        }
        i := i + 1;
      }
      return NOBODY;
    }

    method RecordResponse(npc: Id, now: Time) returns (error: Option<Error>)
      modifies this`lastActions, this`enemies
      ensures error.None? ==> RunNpc.RecordResponse(old(Value()), npc, now) == Success(Value())
      ensures error.Some? ==> RunNpc.RecordResponse(old(Value()), npc, now) == Failure(error.value)
    {
      var a := FindActor(npc);
      if npc == NOBODY || npc !in enemies || a.None? || !a.value.npc {
        return Some(RunConflict);
      }
      lastActions := lastActions[npc := now];
      if |enemies| > 1 {
        enemies := enemies[1..] + [enemies[0]];
      }
      return None;
    }

    /** The old side is copied before it goes; a missing member stops the replacement. */
    method CopyEnemies() returns (olds: Option<seq<Actor>>)
      ensures olds == Olds(Value(), enemies)
    {
      var copied: seq<Actor> := [];
      var i := 0;
      while i < |enemies|
        invariant 0 <= i <= |enemies|
        invariant Olds(Value(), enemies) == Prefixed(copied, Olds(Value(), enemies[i..]))
      {
        var a := FindActor(enemies[i]);
        assert enemies[i..][1..] == enemies[i + 1..];
        if a.None? {
          return None;
        }
        OneMoreBuilt(copied, a.value, Olds(Value(), enemies[i + 1..]));
        copied := copied + [a.value];
        i := i + 1;
      }
      assert copied + [] == copied;
      return Some(copied);
    }

    method CopyClocks() returns (times: map<Id, Time>)
      ensures times == OldTimes(Value(), enemies)
    {
      times := map[];
      for i := 0 to |enemies|
        invariant times == OldTimes(Value(), enemies[..i])
      {
        assert forall id :: id in enemies[..i + 1] <==> id in enemies[..i] || id == enemies[i];
        times := times[enemies[i] := if enemies[i] in lastActions then lastActions[enemies[i]] else 0];
      }
      assert enemies[..|enemies|] == enemies;
    }

    method Replace(actor: Id, target: int, draw: Draw) returns (r: Result<Transition, Error>)
      modifies this
      ensures r.Success? ==> RunTravel.Replace(old(Value()), actor, target, draw) == Success((Value(), r.value))
      ensures r.Failure? ==> RunTravel.Replace(old(Value()), actor, target, draw) == Failure(r.error)
    {
      hide RunProgress.Create, RunProgress.Discard, Olds, OldTimes, Renamed;
      var olds := CopyEnemies();
      if olds.None? {
        return Failure(StorageFailure);
      }
      var times := CopyClocks();
      var t := Transition(floor == TREASURE_FLOOR, true, olds.value, times, encounterFloor, encounterStage, false);
      var named := if draw.spawned.None? then None else Some(Renamed(draw.spawned.value, olds.value));
      Discard();
      floor := target;
      var error := Create(actor, draw.(spawned := named));
      return if error.Some? then Failure(error.value) else Success(t);
    }

    method Travel(actor: Id, tool: Id, input: Input, supply: Supply) returns (r: Result<Transition, Error>)
      modifies this
      ensures r.Success? ==> RunTravel.Travel(old(Value()), actor, tool, input, supply) == Success((Value(), r.value))
      ensures r.Failure? ==> RunTravel.Travel(old(Value()), actor, tool, input, supply) == Failure(r.error)
    {
      hide RunTravel.Replace, TravelStage;
      var refusal := TravelRefusal(Value(), actor, tool, input, supply);
      if refusal.Some? {
        return Failure(refusal.value);
      }
      if tool == "item-150" {
        actors := supply.reset.value.actors;
        r := Replace(actor, input.floor, supply.draw);
        return;
      }
      r := Success(Moved(Value()));
      Move(tool, input, supply);
    }

    /** The coordinate tools: another stage's first floor, the boss floor, or one floor up below the ninth. */
    method Move(tool: Id, input: Input, supply: Supply)
      requires TravelStage(tool, input) != NOBODY ==> supply.destination.Some?
      modifies this`stage, this`floor
      ensures stage == if TravelStage(tool, input) != NOBODY then supply.destination.value else old(stage)
      ensures floor == if TravelStage(tool, input) != NOBODY then 1 else if tool == "item-107" then BOSS_FLOOR
        else if old(floor) < 9 then old(floor) + 1 else old(floor)
    {
      hide TravelStage;
      if TravelStage(tool, input) != NOBODY {
        stage, floor := supply.destination.value, 1;
      } else if tool == "item-107" {
        floor := BOSS_FLOOR;
      } else if floor < 9 {
        floor := floor + 1;
      }
    }

    method Room(actor: Id, entry: Id, supply: Supply) returns (r: Result<Transition, Error>)
      modifies this
      ensures r.Success? ==> RunTravel.Room(old(Value()), actor, entry, supply) == Success((Value(), r.value))
      ensures r.Failure? ==> RunTravel.Room(old(Value()), actor, entry, supply) == Failure(r.error)
    {
      hide RunTravel.Replace;
      var a := FindActor(actor);
      if a.None? || actor !in roster {
        return Failure(NotParticipant);
      }
      var refusal := RoomRefusal(Value(), actor, entry, supply);
      if refusal.Some? {
        return Failure(refusal.value);
      }
      var target, home := floor, stage.id;
      if entry == DEEPER_ROOM {
        actors := supply.reset.value.actors;
        target := target + 1;
      }
      var done := Replace(actor, target, supply.draw);
      return if done.Failure? then done else Success(done.value.(unseal := home == "stage-19" && target == TREASURE_FLOOR));
    }

    method Respond(t: Transition, now: Time) returns (responders: seq<Actor>, npc: Id)
      ensures responders == Responders(Value(), t) && npc == FirstResponder(Value(), t, responders, now)
    {
      responders, npc := [], NOBODY;
      ghost var all := Responders(Value(), t);
      for i := 0 to |t.olds|
        invariant responders == all[..i]
        invariant FirstResponder(Value(), t, all, now) == if npc != NOBODY then npc else FirstResponder(Value(), t, all[i..], now)
      {
        var current := FindActor(t.olds[i].id);
        var a := if current.Some? then current.value else t.olds[i];
        responders := responders + [a];
        assert all[i] == a && all[i..][1..] == all[i + 1..];
        if npc == NOBODY && a.npc && a.hp > 0 && now - ResponderTime(Value(), t, a.id) >= admission.speed * SECOND {
          npc := a.id;
        }
      }
      assert responders == all;
    }

    method BeginResponse(t: Transition, now: Time) returns (npc: Id)
      modifies this
      ensures (Value(), npc) == RunTravel.BeginResponse(old(Value()), t, now)
    {
      hide Responders, FirstResponder, RunTravel.Restore, RunNpc.NextNPC;
      if t.suppressed {
        return NOBODY;
      }
      if !t.replaced {
        npc := NextNPC(now);
        return;
      }
      var responders;
      responders, npc := Respond(t, now);
      if npc == NOBODY {
        return;
      }
      Restore(t, responders);
    }

    /** The old side, its clocks and its provenance come back. */
    method Restore(t: Transition, responders: seq<Actor>)
      modifies this
      ensures Value() == RunTravel.Restore(old(Value()), t, responders)
    {
      hide ResponderTime, RunProgress.Discard, ActorIds;
      var times := map id | id in ActorIds(responders) :: ResponderTime(Value(), t, id);
      Discard();
      Reinstate(t, responders, times);
    }

    method Reinstate(t: Transition, responders: seq<Actor>, times: map<Id, Time>)
      modifies this`actors, this`enemies, this`lastActions, this`encounterFloor, this`encounterStage
      ensures Value() == old(Value()).(actors := old(actors) + responders, enemies := ActorIds(responders),
        lastActions := old(lastActions) + times, encounterFloor := t.oldFloor, encounterStage := t.oldStage)
    {
      hide ActorIds;
      ReturnSide(responders, times);
      encounterFloor, encounterStage := t.oldFloor, t.oldStage;
    }

    method ReturnSide(responders: seq<Actor>, times: map<Id, Time>)
      modifies this`actors, this`enemies, this`lastActions
      ensures actors == old(actors) + responders && enemies == ActorIds(responders) && lastActions == old(lastActions) + times
    {
      actors := actors + responders;
      enemies := ActorIds(responders);
      lastActions := lastActions + times;
    }

    method PrepareExit(actor: Id, goldDraw: nat) returns (error: Option<Error>)
      modifies this`recipients
      ensures error.None? ==> RunCommands.PrepareExit(old(Value()), actor, goldDraw) == Success(Value())
      ensures error.Some? ==> RunCommands.PrepareExit(old(Value()), actor, goldDraw) == Failure(error.value)
    {
      var a := FindActor(actor);
      if a.None? {
        return Some(NotParticipant);
      }
      var p := RecipientOf(recipients, actor);
      if p.disposition != Playing {
        return Some(RunConflict);
      }
      var bonus := ExitBonus(Value(), a.value, goldDraw);
      if bonus.Failure? {
        return Some(bonus.error);
      }
      var left := Leave(p, bonus.value);
      if left.Failure? {
        return Some(left.error);
      }
      recipients := recipients[actor := left.value];
      return None;
    }

    method KeepRoster(actor: Id)
      modifies this`roster
      ensures roster == Without(old(roster), actor)
    {
      var before := roster;
      var kept: seq<Id> := [];
      for i := 0 to |before|
        invariant kept == Without(before[..i], actor)
      {
        assert before[..i + 1][..i] == before[..i];
        if before[i] != actor {
          kept := kept + [before[i]];
        }
      }
      assert before[..|before|] == before;
      roster := kept;
    }

    method RemoveMember(actor: Id)
      modifies this`roster, this`actors, this`leader
      ensures Value() == RunCommands.RemoveMember(old(Value()), actor)
    {
      hide Without, WithoutActors;
      KeepRoster(actor);
      KeepActors([actor]);
      if leader == actor {
        leader := if roster == [] then NOBODY else roster[0];
      }
    }

    method TimeOut(now: Time)
      modifies this`recipients, this`timedOut
      ensures Value() == RunCommands.TimeOut(old(Value()), now)
    {
      var ids := SortedIds(roster);
      for i := 0 to |ids|
        invariant timedOut == old(timedOut)
        invariant recipients == ExpireAll(old(recipients), ids[..i], now + PENALTY)
      {
        assert ids[..i + 1][..i] == ids[..i];
        recipients := recipients[ids[i] := Expire(RecipientOf(recipients, ids[i]), now + PENALTY)];
      }
      assert ids[..|ids|] == ids;
      timedOut := true;
    }
  }
}

/** Coordinates moved by combat: travel tools, job-driven rooms and the enemy response after them. */
module RunTravel {
  import opened Common
  import opened RunTypes
  import opened RunProgress
  import opened RunNpc

  /** A destination, never a participant: the zero floor and the empty stage mean absent. */
  datatype Input = Input(floor: int, stage: Id)

  /** The equipment-reset frame handed to encounter replacement; `actors` are the roster after the reset. */
  datatype Reset = Reset(actor: Id, enemies: seq<Id>, valid: bool, actors: seq<Actor>)

  /** What catalogs and draws answer: the destination stage, whether the table is complete, the new encounter. */
  datatype Supply = Supply(destination: Option<Stage>, tableReady: bool, reset: Option<Reset>, draw: Draw)

  /** `olds` and `times` are the replaced enemies and their last actions, kept for one response. */
  datatype Transition = Transition(
    suppressed: bool,
    replaced: bool,
    olds: seq<Actor>,
    times: map<Id, Time>,
    oldFloor: int,
    oldStage: Id,
    unseal: bool)

  const RUN_TOOLS := {"item-066", "item-067", "item-068", "item-069", "item-070", "item-104", "item-083", "item-107"}

  function TravelStage(tool: Id, input: Input): Id {
    if tool == "item-066" then "stage-15"
    else if tool == "item-067" then "stage-16"
    else if tool == "item-068" then "stage-17"
    else if tool == "item-069" then "stage-18"
    else if tool == "item-070" then "stage-19"
    else if tool == "item-071" then "stage-20"
    else if tool == "item-104" then "stage-21"
    else if tool == "item-184" then input.stage
    else NOBODY
  }

  predicate WearsSet(a: Actor) {
    a.gear.Gear? && a.gear.weapon == "weapon-35" && a.gear.armor == "armor-37"
  }

  predicate Replaceable(r: Run) {
    forall id :: id in r.enemies ==>
      var a := ActorAt(r.actors, id);
      a.Some? && a.value.npc && a.value.identity != NOBODY
  }

  function ReplacementRefusal(r: Run, actor: Id, floor: int, supply: Supply): Option<Error> {
    if floor < 1 || floor > BOSS_FLOOR then Some(InvalidFloorAction)
    else if supply.reset.None? || supply.reset.value.actor != actor || !r.stage.ordinary then Some(UnsupportedEffect)
    else if supply.reset.value.enemies != r.enemies then Some(UnsupportedEffect)
    else if exists a :: a in r.actors && a.detached then Some(UnsupportedEffect)
    else if !Replaceable(r) || !supply.reset.value.valid || !supply.tableReady then Some(UnsupportedEffect)
    else None
  }

  function TravelRefusal(r: Run, actor: Id, tool: Id, input: Input, supply: Supply): Option<Error> {
    var a := ActorAt(r.actors, actor);
    if actor !in r.roster || a.None? then Some(NotParticipant)
    else if a.value.hp <= 0 then Some(Unconscious)
    else if (input.floor != 0 && tool != "item-150") || (input.stage != NOBODY && tool != "item-184") then Some(RunConflict)
    else if tool == "item-071" && !WearsSet(a.value) then Some(RunConflict)
    else if tool == "item-184" && input.stage !in {"stage-23", "stage-25"} then Some(RunConflict)
    else if tool == "item-150" then ReplacementRefusal(r, actor, input.floor, supply)
    else if tool !in RUN_TOOLS && tool !in {"item-071", "item-184"} then Some(UnsupportedEffect)
    else if TravelStage(tool, input) != NOBODY
      && (supply.destination.None? || supply.destination.value.id != TravelStage(tool, input)) then Some(StageNotFound)
    else None
  }

  // ---------- replacement ----------

  function OldNamed(olds: seq<Actor>, identity: Id): Option<Id> {
    if olds == [] || identity == NOBODY then None
    else if olds[0].identity == identity then Some(olds[0].id)
    else OldNamed(olds[1..], identity)
  }

  /** A new member made from the same entry takes over the identifier of the first old one. */
  function Renamed(spawned: seq<Actor>, olds: seq<Actor>): (named: seq<Actor>)
    ensures |named| == |spawned|
  {
    seq(|spawned|, i requires 0 <= i < |spawned| =>
      var id := OldNamed(olds, spawned[i].identity);
      if id.Some? then spawned[i].(id := id.value) else spawned[i])
  }

  function Olds(r: Run, ids: seq<Id>): Option<seq<Actor>> {
    if ids == [] then Some([])
    else
      var a := ActorAt(r.actors, ids[0]);
      var rest := Olds(r, ids[1..]);
      if a.None? || rest.None? then None else Some([a.value] + rest.value)
  }

  function OldTimes(r: Run, ids: seq<Id>): map<Id, Time> {
    map id | id in ids :: LastAction(r, id)
  }

  /** The old encounter makes way for one created at `floor`; its members are kept aside for one response. */
  function Replace(r: Run, actor: Id, floor: int, draw: Draw): Result<(Run, Transition), Error> {
    var olds := Olds(r, r.enemies);
    if olds.None? then Failure(StorageFailure)
    else
      var named := if draw.spawned.None? then None else Some(Renamed(draw.spawned.value, olds.value));
      var s :- Create(Discard(r).(floor := floor), actor, draw.(spawned := named));
      Success((s, Transition(r.floor == TREASURE_FLOOR, true, olds.value, OldTimes(r, r.enemies), r.encounterFloor, r.encounterStage, false)))
  }

  function Moved(r: Run): Transition {
    Transition(r.floor == TREASURE_FLOOR, false, [], map[], 0, NOBODY, false)
  }

  function Travel(r: Run, actor: Id, tool: Id, input: Input, supply: Supply): Result<(Run, Transition), Error> {
    var refusal := TravelRefusal(r, actor, tool, input, supply);
    if refusal.Some? then Failure(refusal.value)
    else if tool == "item-150" then Replace(r.(actors := supply.reset.value.actors), actor, input.floor, supply.draw)
    else if TravelStage(tool, input) != NOBODY then Success((r.(stage := supply.destination.value, floor := 1), Moved(r)))
    else if tool == "item-107" then Success((r.(floor := BOSS_FLOOR), Moved(r)))
    else Success((if r.floor < 9 then r.(floor := r.floor + 1) else r, Moved(r)))
  }

  const DEEPER_ROOM: Id := "job-78-entry-2"

  function RoomRefusal(r: Run, actor: Id, entry: Id, supply: Supply): Option<Error> {
    if entry == DEEPER_ROOM then TravelRefusal(r, actor, "item-150", Input(r.floor + 1, NOBODY), supply)
    else if !r.stage.ordinary || r.floor < 0 || r.floor > TREASURE_FLOOR then Some(UnsupportedEffect)
    else if r.floor < TREASURE_FLOOR && !supply.tableReady then Some(UnsupportedEffect)
    else None
  }

  /** A job recreates the room on its floor, or one floor deeper. */
  function Room(r: Run, actor: Id, entry: Id, supply: Supply): Result<(Run, Transition), Error> {
    if ActorAt(r.actors, actor).None? || actor !in r.roster then Failure(NotParticipant)
    else
      var refusal := RoomRefusal(r, actor, entry, supply);
      if refusal.Some? then Failure(refusal.value)
      else
        var deeper := entry == DEEPER_ROOM;
        var before := if deeper then r.(actors := supply.reset.value.actors) else r;
        var floor := if deeper then r.floor + 1 else r.floor;
        var done :- Replace(before, actor, floor, supply.draw);
        Success((done.0, done.1.(unseal := r.stage.id == "stage-19" && floor == TREASURE_FLOOR)))
  }

  // ---------- the response after a replacement ----------

  /** A new member that took over an old identifier answers in its place, with its own clock. */
  function Responders(r: Run, t: Transition): (actors: seq<Actor>)
    ensures |actors| == |t.olds|
  {
    seq(|t.olds|, i requires 0 <= i < |t.olds| =>
      var current := ActorAt(r.actors, t.olds[i].id);
      if current.Some? then current.value else t.olds[i])
  }

  function ResponderTime(r: Run, t: Transition, id: Id): Time {
    if ActorAt(r.actors, id).Some? then LastAction(r, id)
    else if id in t.times then t.times[id]
    else 0
  }

  function FirstResponder(r: Run, t: Transition, actors: seq<Actor>, now: Time): Id {
    if actors == [] then NOBODY
    else if actors[0].id != NOBODY && actors[0].npc && actors[0].hp > 0 && now - ResponderTime(r, t, actors[0].id) >= r.admission.speed * SECOND then actors[0].id
    else FirstResponder(r, t, actors[1..], now)
  }

  function Restore(r: Run, t: Transition, actors: seq<Actor>): Run {
    var cleared := Discard(r);
    cleared.(actors := cleared.actors + actors, enemies := ActorIds(actors),
             lastActions := cleared.lastActions + (map id | id in ActorIds(actors) :: ResponderTime(r, t, id)),
             encounterFloor := t.oldFloor, encounterStage := t.oldStage)
  }

  /** The old side comes back, with its own provenance, only when one of its living members can answer. */
  function BeginResponse(r: Run, t: Transition, now: Time): (Run, Id) {
    if t.suppressed then (r, NOBODY)
    else if !t.replaced then (r, NextNPC(r, now))
    else
      var actors := Responders(r, t);
      var npc := FirstResponder(r, t, actors, now);
      if npc == NOBODY then (r, NOBODY) else (Restore(r, t, actors), npc)
  }

  // ---------- what travel can and cannot do ----------

  ghost predicate HonestTransition(r: Run, t: Transition) {
    t.replaced ==> SeenFloor(t.oldFloor, r.trail)
  }

  ghost predicate Honest(r: Run) {
    Provenance(r) && FloorInRange(r)
  }

  lemma ReplaceStaysHonest(r: Run, actor: Id, floor: int, draw: Draw)
    requires Honest(r) && 0 <= floor <= EX_FLOOR && Replace(r, actor, floor, draw).Success?
    ensures var (s, t) := Replace(r, actor, floor, draw).value;
      && Honest(s) && HonestTransition(s, t) && s.floor == floor && Forward(r, s) && SameParty(r, s)
  {
    hide CreateEncounter, CreateTreasure, Olds, Renamed, OldTimes, ActorIds;
    var named := if draw.spawned.None? then None else Some(Renamed(draw.spawned.value, Olds(r, r.enemies).value));
    CreateKeepsProvenance(Discard(r).(floor := floor), actor, draw.(spawned := named));
  }

  /** Moving by a coordinate tool earns no clear credit: marks, provenance and trail stay as they were. */
  lemma CoordinatesAreNotCredit(r: Run, actor: Id, tool: Id, input: Input, supply: Supply)
    requires tool != "item-150" && Travel(r, actor, tool, input, supply).Success?
    ensures var (s, t) := Travel(r, actor, tool, input, supply).value;
      && s == r.(stage := s.stage, floor := s.floor) && !t.replaced
      && (0 <= r.floor <= EX_FLOOR ==> 0 <= s.floor <= EX_FLOOR)
      && (s.stage != r.stage ==> s.floor == 1)
  {
    hide TravelRefusal, TravelStage, Replace;
  }

  lemma ReplacementAdmitted(r: Run, actor: Id, input: Input, supply: Supply)
    requires Travel(r, actor, "item-150", input, supply).Success?
    ensures supply.reset.Some? && 1 <= input.floor <= BOSS_FLOOR
    ensures Travel(r, actor, "item-150", input, supply)
      == Replace(r.(actors := supply.reset.value.actors), actor, input.floor, supply.draw)
  {
    hide Replace, TravelStage;
  }

  lemma TravelStaysHonest(r: Run, actor: Id, tool: Id, input: Input, supply: Supply)
    requires Honest(r) && Travel(r, actor, tool, input, supply).Success?
    ensures var (s, t) := Travel(r, actor, tool, input, supply).value;
      Honest(s) && HonestTransition(s, t) && Forward(r, s) && SameParty(r, s)
  {
    hide Travel, Replace, TravelRefusal, Provenance;
    if tool == "item-150" {
      ReplacementAdmitted(r, actor, input, supply);
      var ready := r.(actors := supply.reset.value.actors);
      MovedStaysHonest(r, ready);
      ReplaceStaysHonest(ready, actor, input.floor, supply.draw);
    } else {
      CoordinatesAreNotCredit(r, actor, tool, input, supply);
      MovedStaysHonest(r, Travel(r, actor, tool, input, supply).value.0);
    }
  }

  lemma MovedStaysHonest(r: Run, s: Run)
    requires Honest(r) && s == r.(actors := s.actors, stage := s.stage, floor := s.floor) && FloorInRange(s)
    ensures Honest(s) && Forward(r, s) && SameParty(r, s)
  {
  }

  lemma RoomStaysHonest(r: Run, actor: Id, entry: Id, supply: Supply)
    requires Honest(r) && Room(r, actor, entry, supply).Success?
    ensures var (s, t) := Room(r, actor, entry, supply).value;
      Honest(s) && HonestTransition(s, t) && Forward(r, s) && SameParty(r, s)
  {
    hide Replace;
    var deeper := entry == DEEPER_ROOM;
    var before := if deeper then r.(actors := supply.reset.value.actors) else r;
    ReplaceStaysHonest(before, actor, if deeper then r.floor + 1 else r.floor, supply.draw);
  }

  lemma ResponseStaysHonest(r: Run, t: Transition, now: Time)
    requires Honest(r) && HonestTransition(r, t)
    ensures var (s, npc) := BeginResponse(r, t, now);
      Honest(s) && Forward(r, s) && SameParty(r, s) && s.floor == r.floor && s.stage == r.stage
  {
    hide Responders, FirstResponder, ActorIds, ResponderTime, NextNPC;
  }

  /** The response plays against the encounter that was left, on the coordinates that were reached. */
  lemma ResponseKeepsCoordinatesApart(r: Run, actor: Id, input: Input, supply: Supply, now: Time)
    requires Travel(r, actor, "item-150", input, supply).Success?
    ensures var (s, t) := Travel(r, actor, "item-150", input, supply).value;
      var (u, npc) := BeginResponse(s, t, now);
      && u.floor == input.floor
      && (npc != NOBODY ==> u.encounterFloor == r.encounterFloor && u.encounterStage == r.encounterStage && u.enemies == r.enemies)
      && (npc == NOBODY ==> u == s && s.encounterFloor == input.floor)
  {
    var reset := r.(actors := supply.reset.value.actors);
    var (s, t) := Travel(r, actor, "item-150", input, supply).value;
    OldsAreTheEnemies(reset, reset.enemies);
    CreateHereAndNow(reset, actor, input.floor, supply.draw);
    var (u, npc) := BeginResponse(s, t, now);
    if npc != NOBODY {
      RespondersKeepNames(s, t);
      assert u.enemies == ActorIds(Responders(s, t)) == ActorIds(t.olds) == r.enemies;
    }
  }

  lemma CreateHereAndNow(r: Run, actor: Id, floor: int, draw: Draw)
    requires floor != TREASURE_FLOOR && Replace(r, actor, floor, draw).Success?
    ensures var (s, t) := Replace(r, actor, floor, draw).value;
      && s.floor == floor && s.encounterFloor == floor && t.replaced
      && t.oldFloor == r.encounterFloor && t.oldStage == r.encounterStage
      && Some(t.olds) == Olds(r, r.enemies)
      && t.suppressed == (r.floor == TREASURE_FLOOR)
  {
    hide Olds, Renamed, OldTimes, ActorIds, Restored, Discard;
  }

  lemma {:induction false} FoundHasName(actors: seq<Actor>, id: Id)
    ensures ActorAt(actors, id).Some? ==> ActorAt(actors, id).value.id == id && ActorAt(actors, id).value in actors
  {
    if actors != [] { FoundHasName(actors[1..], id); }
  }

  lemma {:induction false} OldsAreTheEnemies(r: Run, ids: seq<Id>)
    requires Olds(r, ids).Some?
    ensures ActorIds(Olds(r, ids).value) == ids
  {
    if ids != [] {
      OldsAreTheEnemies(r, ids[1..]);
      FoundHasName(r.actors, ids[0]);
      assert ids == [ids[0]] + ids[1..];
    }
  }

  lemma RespondersKeepNames(r: Run, t: Transition)
    ensures ActorIds(Responders(r, t)) == ActorIds(t.olds)
  {
    forall i | 0 <= i < |t.olds| ensures Responders(r, t)[i].id == t.olds[i].id {
      FoundHasName(r.actors, t.olds[i].id);
    }
  }
}

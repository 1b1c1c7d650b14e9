/** Floors, encounters and chests of a run: creation, replacement and what marks them. */
module RunProgress {
  import opened Common
  import opened RunTypes
  import opened RunEarnings

  /** Monsters and boxes that creation draws; `None` is a failed lookup or an unsupported field. */
  datatype Draw = Draw(prepared: Option<seq<Actor>>, spawned: Option<seq<Actor>>, boxes: seq<Box>)

  // ---------- encounters ----------

  function WithoutActors(actors: seq<Actor>, gone: seq<Id>): seq<Actor> {
    if actors == [] then []
    else (if actors[0].id in gone then [] else [actors[0]]) + WithoutActors(actors[1..], gone)
  }

  function ActorIds(actors: seq<Actor>): (ids: seq<Id>)
    ensures |ids| == |actors|
  {
    seq(|actors|, i requires 0 <= i < |actors| => actors[i].id)
  }

  function Named(ids: seq<Id>): set<Id> {
    set id | id in ids
  }

  function Discard(r: Run): Run {
    r.(lastActions := r.lastActions - Named(r.enemies),
       actors := WithoutActors(r.actors, r.enemies), enemies := [], boxes := [])
  }

  function TeamOf(r: Run, id: Id): Id {
    var a := ActorAt(r.actors, id);
    if a.Some? then a.value.team else NOBODY
  }

  predicate OnField(a: Actor) {
    !a.banished && !a.detached
  }

  function PartySize(actors: seq<Actor>, team: Id): nat {
    if actors == [] then 0
    else PartySize(actors[..|actors| - 1], team) + (if actors[|actors| - 1].team == team && OnField(actors[|actors| - 1]) then 1 else 0)
  }

  /** Leaving the boss floor can unlock the EX boss. */
  function MarkEXOnAdvance(r: Run, actor: Id): Run {
    if r.floor != BOSS_FLOOR then r
    else if r.stage.id == "stage-25" || (r.stage.id == "stage-23" && PartySize(r.actors, TeamOf(r, actor)) > 1)
      then r.(exUnlocked := true)
    else r
  }

  function MarkCreated(r: Run): Run {
    r.(encounterFloor := r.floor, encounterStage := r.stage.id,
       clearPending := r.clearPending || r.floor == BOSS_FLOOR,
       exUnlocked := r.exUnlocked || (r.floor == BOSS_FLOOR && r.stage.id == "stage-24"),
       trail := r.trail.(created := r.trail.created + [r.floor]))
  }

  function Restored(actors: seq<Actor>, team: Id): (after: seq<Actor>)
    ensures |after| == |actors|
  {
    seq(|actors|, i requires 0 <= i < |actors| =>
      if actors[i].team == team && OnField(actors[i]) then actors[i].(hp := actors[i].maxHp) else actors[i])
  }

  /** The encounter table covers floors 1 to 10, and 12 when it has an EX boss. */
  predicate TableCovers(r: Run) {
    1 <= r.floor <= EX_FLOOR && r.floor != TREASURE_FLOOR && (r.floor == EX_FLOOR ==> r.stage.exRoster)
  }

  function CreateEncounter(r: Run, actor: Id, draw: Draw): Result<Run, Error> {
    if r.stage.ordinary && !TableCovers(r) then Failure(UnsupportedEffect)
    else if draw.spawned.None? then Failure(StageNotFound)
    else
      var met := r.(actors := r.actors + draw.spawned.value, enemies := r.enemies + ActorIds(draw.spawned.value));
      var ready := if r.stage.ordinary && r.floor == EX_FLOOR then met.(actors := Restored(met.actors, TeamOf(met, actor))) else met;
      Success(MarkCreated(ready))
  }

  function RecipientOf(recipients: map<Id, Recipient>, id: Id): Recipient {
    if id in recipients then recipients[id] else NewRecipient(NOBODY)
  }

  /** Reaching the treasure room turns every present member's Try stock into pending stock. */
  function ConvertAll(recipients: map<Id, Recipient>, roster: seq<Id>): Result<map<Id, Recipient>, Error> {
    if roster == [] then Success(recipients)
    else
      var n := |roster| - 1;
      var before :- ConvertAll(recipients, roster[..n]);
      var p :- Convert(RecipientOf(before, roster[n]));
      Success(before[roster[n] := p])
  }

  function Converted(mode: Mode, recipients: map<Id, Recipient>, roster: seq<Id>): Result<map<Id, Recipient>, Error> {
    if mode == Try then ConvertAll(recipients, roster) else Success(recipients)
  }

  /** A pending clear becomes actual, and the room's provenance is where it stands. */
  function MarkTreasure(r: Run): Run {
    r.(stageCleared := r.stageCleared || r.clearPending, clearPending := false,
       encounterFloor := r.floor, encounterStage := r.stage.id, trail := r.trail.(rooms := r.trail.rooms + [r.clearPending]))
  }

  function Furnish(r: Run, boxes: seq<Box>, recipients: map<Id, Recipient>): Run {
    MarkTreasure(r.(boxes := boxes, recipients := recipients, mode := if r.mode == Try then Normal else r.mode))
  }

  function CreateTreasure(r: Run, boxes: seq<Box>): Result<Run, Error> {
    var recipients :- Converted(r.mode, r.recipients, r.roster);
    Success(Furnish(r, boxes, recipients))
  }

  function Create(r: Run, actor: Id, draw: Draw): Result<Run, Error> {
    if r.floor == TREASURE_FLOOR then CreateTreasure(r, draw.boxes) else CreateEncounter(r, actor, draw)
  }

  // ---------- advancing ----------

  function AdvanceGuard(r: Run, actor: Id): Option<Error> {
    if !Stands(r, actor) then Some(Unconscious)
    else if r.floor == 0 && r.leader != actor then Some(LeaderOnly)
    else if LivingEnemies(r) then Some(InvalidFloorAction)
    else if r.floor < TREASURE_FLOOR then None
    else if !HasEX(r) || r.floor > EX_FLOOR then Some(InvalidFloorAction)
    else if r.floor == EX_FLOOR || !r.stage.ordinary || !r.stage.exRoster then Some(UnsupportedEffect)
    else None
  }

  function Advance(r: Run, actor: Id, draw: Draw): Result<Run, Error> {
    var refusal := AdvanceGuard(r, actor);
    if refusal.Some? then Failure(refusal.value)
    else if draw.prepared.None? then Failure(StorageFailure)
    else
      var left := Discard(r.(actors := draw.prepared.value));
      var up := MarkEXOnAdvance(left, actor);
      Create(up.(floor := up.floor + 1), actor, draw)
  }

  // ---------- chests ----------

  function BoxIndex(boxes: seq<Box>, id: Id): (i: int)
    ensures -1 <= i < |boxes|
    ensures i >= 0 ==> boxes[i].id == id
  {
    if boxes == [] then -1
    else
      var before := BoxIndex(boxes[..|boxes| - 1], id);
      if before >= 0 then before
      else if boxes[|boxes| - 1].id == id then |boxes| - 1
      else -1
  }

  /** The first look is free; every further one consumes a held treasure pocket. */
  function ClaimChest(r: Run, actor: Id, box: Id, hasPocket: bool): Result<(Run, Box), Error> {
    var i := BoxIndex(r.boxes, box);
    if r.floor != TREASURE_FLOOR then Failure(InvalidFloorAction)
    else if !Stands(r, actor) then Failure(Unconscious)
    else if i < 0 || r.boxes[i].openedBy != NOBODY then Failure(NoUnopenedTreasure)
    else
      var p := RecipientOf(r.recipients, actor);
      if p.inspected > 0 && !hasPocket then Failure(TreasureLimitReached)
      else
        var taken := r.boxes[i].(openedBy := actor);
        Success((r.(recipients := r.recipients[actor := p.(inspected := p.inspected + 1)], boxes := r.boxes[i := taken]), taken))
  }

  // ---------- coordinates against provenance ----------

  /**
   Clear credit, actual or pending, goes back to a boss that was created, and an actual one came one of two ways;
   cleared floors are those of credited encounters, wherever the party was.
   */
  ghost predicate Sourced(r: Run) {
    && (r.stageCleared || r.clearPending || true in r.trail.rooms ==> BOSS_FLOOR in r.trail.created)
    && (r.stageCleared <==> ClearedBy(r.trail))
    && FloorsFollow(r.floorsCleared, r.trail)
  }

  /** No encounter, a treasure room, or a floor on which an encounter was created. */
  ghost predicate SeenFloor(floor: int, t: Trail) {
    floor == 0 || floor == TREASURE_FLOOR || floor in t.created
  }

  ghost predicate Provenance(r: Run) {
    Sourced(r) && SeenFloor(r.encounterFloor, r.trail)
  }

  predicate FloorInRange(r: Run) {
    0 <= r.floor <= EX_FLOOR
  }

  /** Progress marks never go back and the trail only grows. */
  ghost predicate Forward(r: Run, s: Run) {
    && (r.stageCleared ==> s.stageCleared)
    && (r.exUnlocked ==> s.exUnlocked)
    && r.floorsCleared <= s.floorsCleared
    && Extends(r.trail, s.trail)
  }

  /** What no floor operation touches. */
  ghost predicate SameParty(r: Run, s: Run) {
    && s.id == r.id && s.version == r.version && s.admission == r.admission
    && s.leader == r.leader && s.roster == r.roster && s.timedOut == r.timedOut && s.lastActivity == r.lastActivity
  }

  lemma EncounterKeepsProvenance(r: Run, actor: Id, draw: Draw)
    requires CreateEncounter(r, actor, draw).Success?
    requires Sourced(r)
    ensures var s := CreateEncounter(r, actor, draw).value;
      Provenance(s) && s.floor == r.floor && Forward(r, s) && SameParty(r, s)
  {
    EncounterMarks(r, actor, draw);
    hide CreateEncounter, TableCovers, Restored, ActorIds, TeamOf;
  }

  lemma EncounterMarks(r: Run, actor: Id, draw: Draw)
    requires CreateEncounter(r, actor, draw).Success?
    ensures var s := CreateEncounter(r, actor, draw).value;
      && SameParty(r, s) && s.floor == r.floor && s.floorsCleared == r.floorsCleared && s.stageCleared == r.stageCleared
      && s.encounterFloor == r.floor && s.encounterStage == r.stage.id && s.stage == r.stage
      && (s.clearPending <==> r.clearPending || r.floor == BOSS_FLOOR)
      && (r.exUnlocked ==> s.exUnlocked)
      && s.trail == r.trail.(created := r.trail.created + [r.floor])
      && s.mode == r.mode && s.recipients == r.recipients
  {
    EncounterIs(r, actor, draw);
    hide CreateEncounter;
  }

  lemma EncounterIs(r: Run, actor: Id, draw: Draw)
    requires CreateEncounter(r, actor, draw).Success?
    ensures draw.spawned.Some?
    ensures var s := CreateEncounter(r, actor, draw).value;
      s == MarkCreated(r.(actors := s.actors, enemies := s.enemies)) && s.enemies == r.enemies + ActorIds(draw.spawned.value)
  {
    hide TableCovers, Restored, ActorIds, TeamOf;
  }

  lemma TreasureKeepsProvenance(r: Run, boxes: seq<Box>)
    requires r.floor == TREASURE_FLOOR && CreateTreasure(r, boxes).Success?
    requires Sourced(r)
    ensures var s := CreateTreasure(r, boxes).value;
      Provenance(s) && s.floor == r.floor && Forward(r, s) && SameParty(r, s)
  {
    hide ConvertAll;
    assert CreateTreasure(r, boxes).value.trail == r.trail.(rooms := r.trail.rooms + [r.clearPending]);
  }

  /** Clear credit becomes pending when a boss is created and actual in the treasure room, never by moving. */
  lemma CreateKeepsProvenance(r: Run, actor: Id, draw: Draw)
    requires FloorInRange(r) && Create(r, actor, draw).Success?
    requires Sourced(r)
    ensures var s := Create(r, actor, draw).value;
      Provenance(s) && s.floor == r.floor && Forward(r, s) && SameParty(r, s)
  {
    hide CreateEncounter, CreateTreasure, Provenance, Forward, SameParty;
    if r.floor == TREASURE_FLOOR {
      TreasureKeepsProvenance(r, draw.boxes);
    } else {
      EncounterKeepsProvenance(r, actor, draw);
    }
  }

  /** Advancing climbs exactly one floor, within range, and keeps every mark honest. */
  lemma AdvanceKeepsProvenance(r: Run, actor: Id, draw: Draw)
    requires FloorInRange(r) && Provenance(r) && Advance(r, actor, draw).Success?
    ensures var s := Advance(r, actor, draw).value;
      && Provenance(s) && FloorInRange(s) && s.floor == r.floor + 1 && s.floor != EX_FLOOR + 1
      && Forward(r, s) && SameParty(r, s)
      && (s.floor == EX_FLOOR ==> s.exUnlocked)
      && !LivingEnemies(r)
  {
    var up := MarkEXOnAdvance(Discard(r.(actors := draw.prepared.value)), actor);
    CreateKeepsProvenance(up.(floor := up.floor + 1), actor, draw);
  }

  // ---------- ledgers under floor operations ----------

  ghost predicate AllBalanced(recipients: map<Id, Recipient>) {
    forall id :: id in recipients ==> Balanced(recipients[id])
  }

  /** What recording and conversion leave alone in a ledger row. */
  predicate SameStanding(p: Recipient, q: Recipient) {
    && q.player == p.player && q.applied == p.applied && q.disposition == p.disposition
    && q.timerPending == p.timerPending && q.penaltyUntil == p.penaltyUntil
  }

  ghost predicate LedgersKept(before: map<Id, Recipient>, after: map<Id, Recipient>) {
    && after.Keys == before.Keys
    && forall id :: id in before ==> SameStanding(before[id], after[id])
  }

  ghost predicate AllPlaying(recipients: map<Id, Recipient>, roster: seq<Id>) {
    forall id :: id in roster ==> id in recipients && recipients[id].disposition == Playing
  }

  lemma ConvertAllStep(recipients: map<Id, Recipient>, roster: seq<Id>)
    requires roster != [] && ConvertAll(recipients, roster).Success?
    ensures var n := |roster| - 1;
      var before := ConvertAll(recipients, roster[..n]);
      && before.Success? && Convert(RecipientOf(before.value, roster[n])).Success?
      && ConvertAll(recipients, roster).value == before.value[roster[n] := Convert(RecipientOf(before.value, roster[n])).value]
  {
  }

  ghost predicate AllConverted(before: map<Id, Recipient>, after: map<Id, Recipient>, roster: seq<Id>) {
    && AllBalanced(after) && LedgersKept(before, after)
    && (forall id :: id in roster && id in after ==> after[id].conditional == NOTHING)
    && (forall id :: id in before && id in after && id !in roster ==> after[id] == before[id])
  }

  lemma ConvertOneMore(recipients: map<Id, Recipient>, roster: seq<Id>, before: map<Id, Recipient>, id: Id, p: Recipient)
    requires AllConverted(recipients, before, roster) && id in before
    requires Balanced(p) && SameStanding(before[id], p) && p.conditional == NOTHING
    ensures AllConverted(recipients, before[id := p], roster + [id])
  {
    hide Balanced;
  }

  /** Every member's conditional stock is emptied into pending and nobody else is touched. */
  lemma {:induction false} ConvertAllBalances(recipients: map<Id, Recipient>, roster: seq<Id>)
    requires AllBalanced(recipients) && AllPlaying(recipients, roster) && ConvertAll(recipients, roster).Success?
    ensures AllConverted(recipients, ConvertAll(recipients, roster).value, roster)
    decreases |roster|
  {
    hide Convert, Balanced, ScaleTry;
    if roster == [] {
      assert ConvertAll(recipients, roster).value == recipients;
    } else {
      var n := |roster| - 1;
      ConvertAllStep(recipients, roster);
      assert AllPlaying(recipients, roster[..n]) by { assert forall id :: id in roster[..n] ==> id in roster; }
      ConvertAllBalances(recipients, roster[..n]);
      var before := ConvertAll(recipients, roster[..n]).value;
      var p := before[roster[n]];
      assert SameStanding(recipients[roster[n]], p);
      ConvertBalances(p);
      ConvertKeepsStanding(p);
      ConvertOneMore(recipients, roster[..n], before, roster[n], Convert(p).value);
      assert roster[..n] + [roster[n]] == roster;
    }
  }

  lemma ConvertKeepsStanding(p: Recipient)
    requires Convert(p).Success?
    ensures SameStanding(p, Convert(p).value)
  {
  }
}

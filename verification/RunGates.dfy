/** When each action of a run is accepted and what it does, told by the run and its tables alone. */
module RunGates {
  import opened Common
  import opened RunTypes
  import opened RunEarnings
  import opened RunProgress
  import opened RunNpc
  import opened RunTravel
  import opened RunOrder
  import opened RunWorld
  import opened RunCommands
  import opened RunInvariants
  import opened RunSteps
  import opened RunTransactions
  import opened RunPayments
  import opened RunCommits
  import opened RunRuns
  import opened RunEntries
  import opened RunTheorems
  import opened RunStock

  // ---------- who may command ----------

  /** The command names a member, its owner and the run's version, and every member still belongs to whoever entered it. */
  ghost predicate Owns(w: World, r: Run, cmd: Command) {
    && cmd.actor in r.roster && RecipientOf(r.recipients, cmd.actor).player == cmd.player && cmd.version == r.version
    && forall id :: id in r.roster ==> id in w.players && w.players[id] == RecipientOf(r.recipients, id).player
  }

  lemma {:induction false} RosterIsOwnedIff(w: World, r: Run, roster: seq<Id>)
    ensures RosterRefusal(w, r, roster).None? <==>
      forall id :: id in roster ==> id in w.players && w.players[id] == RecipientOf(r.recipients, id).player
    decreases |roster|
  {
    if roster != [] {
      RosterIsOwnedIff(w, r, roster[..|roster| - 1]);
      assert forall id :: id in roster <==> id in roster[..|roster| - 1] || id == roster[|roster| - 1];
    }
  }

  lemma AdmissibleIff(w: World, r: Run, cmd: Command)
    requires NoDuplicates(r.roster)
    ensures Admissible(w, r, cmd).None? <==> Owns(w, r, cmd) && !r.timedOut
  {
    SortedIdsKeep(r.roster);
    RosterIsOwnedIff(w, r, SortedIds(r.roster));
    hide RosterRefusal, SortedIds;
  }

  // ---------- saving ----------

  /** A run that follows a live one by one version is stored whenever its command has no receipt yet. */
  lemma SavedIff(w: World, u: World, r: Run, s: Run, cmd: Command, box: Option<Box>)
    requires Inv(w) && FindRun(w, s.id) == Some(r) && u.headers == w.headers && u.receipts == w.receipts && u.rows.Keys == w.rows.Keys
    requires s.version == r.version + 1 && s.admission == r.admission && s.recipients.Keys == r.recipients.Keys
    requires cmd.version == r.version && cmd.run == s.id
    ensures Save(u, s, cmd, box).Success? <==> ReceiptKey(cmd.run, cmd.id) !in w.receipts
    ensures Save(u, s, cmd, box).Success? ==> FindRun(Save(u, s, cmd, box).value.0, s.id) == if s.roster == [] then None else Some(s)
  {
    hide Inv, RunOk, RowsOf;
    LiveFactsAll(w, s.id);
    forall a | a in s.recipients ensures RowKey(s.id, a) in u.rows {
      MemberRow(w, s.id, a);
    }
  }

  lemma MemberRow(w: World, run: Id, a: Id)
    requires Inv(w) && FindRun(w, run).Some? && a in FindRun(w, run).value.recipients
    ensures RowKey(run, a) in w.rows
  {
    hide RunOk, RowsOk, EnrolmentsOk, ReceiptsOk, HistoryOk, TimerOk, CreditsOk;
    LiveFacts(w, run);
  }

  // ---------- idling ----------

  /**
   A member's cleanup is accepted exactly when nothing has happened in the room for more than half an hour. The whole
   roster is then timed out with an hour's penalty, counted from the cleanup, and nobody is paid.
   */
  lemma CleanedUpIff(w: World, cmd: Command, env: Env)
    requires Inv(w) && FindRun(w, cmd.run).Some? && cmd.action.Cleanup? && ReceiptKey(cmd.run, cmd.id) !in w.receipts
    ensures var r := FindRun(w, cmd.run).value;
      FreshCommand(w, cmd, env).Success? <==> Owns(w, r, cmd) && !r.timedOut && env.now > r.lastActivity + 1800 * SECOND
    ensures FreshCommand(w, cmd, env).Success? ==>
      var r, v := FindRun(w, cmd.run).value, FreshCommand(w, cmd, env).value.0;
      && FindRun(v, cmd.run).Some? && v.credited == w.credited
      && var s := FindRun(v, cmd.run).value;
      && s.timedOut && s.roster == r.roster && s.recipients.Keys == r.recipients.Keys
      && forall id :: id in r.recipients ==> s.recipients[id] == if id !in r.roster then r.recipients[id]
           else r.recipients[id].(disposition := TimedOut, timerPending := true, penaltyUntil := env.now + 3600 * SECOND)
  {
    hide Inv, RunOk, Admissible, Save, ExpireAll, ExpiryRecords, Owns, SortedIds, NoDuplicates, FindRun;
    var r := FindRun(w, cmd.run).value;
    RunIsLedgered(w, cmd.run);
    LiveFactsAll(w, cmd.run);
    RosterNotEmpty(w, cmd.run);
    AdmissibleIff(w, r, cmd);
    if Owns(w, r, cmd) && !r.timedOut {
      OwnedVersion(w, r, cmd);
      var s := TimeOut(r, env.now).(version := r.version + 1);
      var u := w.(history := w.history + ExpiryRecords(r, SortedIds(r.roster)));
      ExpiredRowsAre(r, env.now);
      SavedIff(w, u, r, s, cmd, None);
      if Save(u, s, cmd, None).Success? {
        SavingCreditsNobody(u, s, cmd, None);
      }
    }
  }

  lemma RosterNotEmpty(w: World, run: Id)
    requires Inv(w) && FindRun(w, run).Some?
    ensures FindRun(w, run).value.roster != []
  {
    LiveFactsAll(w, run);
  }

  lemma OwnedVersion(w: World, r: Run, cmd: Command)
    requires Owns(w, r, cmd)
    ensures cmd.version == r.version
  {
  }

  lemma ExpiredRowsAre(r: Run, now: Time)
    requires Ledgered(r)
    ensures var s := TimeOut(r, now).(version := r.version + 1);
      && s == r.(recipients := s.recipients, timedOut := true, version := r.version + 1) && s.recipients.Keys == r.recipients.Keys
      && forall id :: id in r.recipients ==> s.recipients[id] == if id !in r.roster then r.recipients[id]
           else r.recipients[id].(disposition := TimedOut, timerPending := true, penaltyUntil := now + 3600 * SECOND)
  {
    SortedIdsKeep(r.roster);
    hide SortedIds;
    ExpireAllIs(r.recipients, SortedIds(r.roster), now + PENALTY);
    hide ExpireAll;
  }

  // ---------- clocks ----------

  /** Advances, chests and departures wait for the actor's own clock. */
  lemma QuietActionsWait(w: World, cmd: Command, env: Env)
    requires FindRun(w, cmd.run).Some? && FreshCommand(w, cmd, env).Success?
    requires cmd.action.AdvanceFloor? || cmd.action.OpenChest? || cmd.action.LeaveRun?
    ensures var r := FindRun(w, cmd.run).value;
      env.now >= (if cmd.actor in r.lastActions then r.lastActions[cmd.actor] else 0) + r.admission.speed * SECOND
  {
    hide Advance, ClaimChest, PrepareExit, Settle, Save, Depart, Stamp, Admissible;
  }

  /**
   After an accepted command the room's idle clock shows it exactly when it counts as activity in the room, and the
   actor's own clock exactly when it counts as the actor's; advances and chests count as both.
   */
  lemma ClocksFollow(w: World, cmd: Command, env: Env)
    requires Inv(w) && NoDuplicates(env.order) && FreshCommand(w, cmd, env).Success?
    requires !cmd.action.LeaveRun? && !cmd.action.Cleanup?
    ensures FindRun(w, cmd.run).Some? && FindRun(FreshCommand(w, cmd, env).value.0, cmd.run).Some?
    ensures var r, s := FindRun(w, cmd.run).value, FindRun(FreshCommand(w, cmd, env).value.0, cmd.run).value;
      && s.lastActivity == (if Reported(cmd, env).roomActivity then env.now else r.lastActivity)
      && (Reported(cmd, env).actorActivity ==> cmd.actor in s.lastActions && s.lastActions[cmd.actor] == env.now)
      && s.version == r.version + 1 && s.roster == r.roster && s.leader == r.leader
  {
    hide Inv, Admissible, Act, Settle, Save, RunOk, Reported, StockMoves, NoDuplicates, Carried, Playable;
    var r := FindRun(w, cmd.run).value;
    LiveFactsAll(w, cmd.run);
    RosterNotEmpty(w, cmd.run);
    AdmissibleFacts(w, r, cmd);
    OkPlayable(r);
    RunIsLedgered(w, cmd.run);
    MemberHasRow(r, cmd.actor);
    ActMovesStock(r, cmd, env);
    ActCarries(r, cmd, env);
    var acted := Act(r, cmd, env).value;
    CarriedClock(r, acted.run);
    var release := r.mode != Try && acted.effects.releaseStock;
    SettleKeepsClock(w, acted.run, cmd, acted.effects, release, env.order);
    var (u, c) := Settle(w, acted.run, cmd, acted.effects, release, env.order).value;
    SavedRun(u, Stamp(c, cmd, acted.effects, env.now), cmd, acted.box);
  }

  lemma CarriedClock(r: Run, s: Run)
    requires Carried(r, s)
    ensures s.id == r.id && s.version == r.version && s.roster == r.roster && s.leader == r.leader && s.lastActivity == r.lastActivity
  {
  }

  lemma {:induction false} RecordKeepsClock(r: Run, gains: seq<Gain>)
    requires RecordAll(r, gains).Success?
    ensures RecordAll(r, gains).value == r.(recipients := RecordAll(r, gains).value.recipients)
    decreases |gains|
  {
    hide Record;
    if gains != [] {
      RecordKeepsClock(r, gains[..|gains| - 1]);
    }
  }

  lemma SettleKeepsClock(w: World, a: Run, cmd: Command, effects: Effects, release: bool, order: seq<Id>)
    requires Settle(w, a, cmd, effects, release, order).Success?
    ensures var c := Settle(w, a, cmd, effects, release, order).value.1; c == a.(recipients := c.recipients)
  {
    hide RecordAll, Release, Due, FindRetained, SettleRetained, SpendingAllowed, SpendingNamed;
    RecordKeepsClock(a, effects.gains);
  }

  // ---------- leaving ----------

  /** Those who stay keep their order, and the lead of a leaver goes to the first of them. */
  lemma LeadPassesOn(r: Run, actor: Id)
    requires NoDuplicates(r.roster) && actor in r.roster
    ensures var s := RemoveMember(r, actor);
      && (forall id :: id in s.roster <==> id in r.roster && id != actor) && NoDuplicates(s.roster)
      && s.leader == (if r.leader != actor then r.leader else if s.roster == [] then NOBODY else s.roster[0])
      && (forall a :: a in s.actors <==> a in r.actors && a.id != actor)
      && s == r.(roster := s.roster, leader := s.leader, actors := s.actors)
  {
    WithoutIs(r.roster, actor);
    WithoutActorsAre(r.actors, [actor]);
  }

  lemma {:induction false} WithoutActorsAre(actors: seq<Actor>, gone: seq<Id>)
    ensures forall a :: a in WithoutActors(actors, gone) <==> a in actors && a.id !in gone
  {
    if actors != [] {
      WithoutActorsAre(actors[1..], gone);
      assert forall a :: a in actors <==> a in actors[1..] || a == actors[0];
    }
  }

  lemma {:induction false} StayInOrder(ids: seq<Id>, gone: Id, i: nat, j: nat)
    requires i < j < |Without(ids, gone)|
    ensures exists k: nat, l: nat :: k < l < |ids| && ids[k] == Without(ids, gone)[i] && ids[l] == Without(ids, gone)[j]
    decreases |ids|
  {
    var n := |ids| - 1;
    var rest := Without(ids[..n], gone);
    if j < |rest| {
      StayInOrder(ids[..n], gone, i, j);
      var k: nat, l: nat :| k < l < n && ids[..n][k] == rest[i] && ids[..n][l] == rest[j];
      assert ids[k] == rest[i] && ids[l] == rest[j];
    } else {
      StaysSomewhere(ids[..n], gone, i);
      var k: nat :| k < n && ids[..n][k] == rest[i];
      assert ids[k] == rest[i] && ids[n] == Without(ids, gone)[j];
    }
  }

  lemma {:induction false} StaysSomewhere(ids: seq<Id>, gone: Id, i: nat)
    requires i < |Without(ids, gone)|
    ensures exists k: nat :: k < |ids| && ids[k] == Without(ids, gone)[i]
    decreases |ids|
  {
    var n := |ids| - 1;
    if i < |Without(ids[..n], gone)| {
      StaysSomewhere(ids[..n], gone, i);
      var k: nat :| k < n && ids[..n][k] == Without(ids[..n], gone)[i];
      assert ids[k] == Without(ids, gone)[i];
    } else {
      assert ids[n] == Without(ids, gone)[i];
    }
  }

  // ---------- floors ----------

  /** Nobody hostile stands and every box has been opened. */
  predicate FloorIsQuiet(r: Run) {
    && (forall b :: b in r.boxes ==> b.openedBy != NOBODY)
    && (forall id :: id in r.enemies ==> ActorAt(r.actors, id).None? || ActorAt(r.actors, id).value.hp <= 0)
  }

  lemma QuietIff(r: Run)
    ensures LivingEnemies(r) <==> !FloorIsQuiet(r)
  {
    if LivingEnemies(r) && !HasUnopenedBox(r) {
      var id :| id in r.enemies && Stands(r, id);
    }
  }

  /** A way up: below the treasure room always, out of it where the EX boss was unlocked and there is a table for it. */
  predicate WayUp(r: Run) {
    || r.floor < 11
    || (r.floor == 11 && r.exUnlocked && r.stage.ordinary && r.stage.exRoster
        && r.stage.id in {"stage-22", "stage-23", "stage-24", "stage-25", "stage-26"})
  }

  /** An advance is open to a standing actor, the leader alone at the start, once the floor is quiet and there is a way up. */
  lemma AdvanceOpenIff(r: Run, actor: Id)
    ensures AdvanceGuard(r, actor).None? <==>
      ActorAt(r.actors, actor).Some? && ActorAt(r.actors, actor).value.hp > 0
      && (r.floor == 0 ==> r.leader == actor) && FloorIsQuiet(r) && WayUp(r)
  {
    QuietIff(r);
    hide LivingEnemies, FloorIsQuiet;
  }

  lemma CreateFurnishes(r: Run, actor: Id, draw: Draw)
    requires r.enemies == [] && r.boxes == [] && Create(r, actor, draw).Success?
    ensures var s := Create(r, actor, draw).value;
      && s.floor == r.floor && s.stage == r.stage && s.encounterFloor == r.floor && s.encounterStage == r.stage.id
      && (r.floor == 11 ==> s.boxes == draw.boxes && s.enemies == [])
      && (r.floor != 11 ==> draw.spawned.Some? && s.boxes == [] && s.enemies == ActorIds(draw.spawned.value))
      && (s.exUnlocked <==> r.exUnlocked || (r.floor == 10 && r.stage.id == "stage-24"))
  {
    hide CreateEncounter, ConvertAll, ActorIds;
    if r.floor != 11 {
      EncounterIs(r, actor, draw);
      assert [] + ActorIds(draw.spawned.value) == ActorIds(draw.spawned.value);
    }
  }

  /** On the field for a team: neither banished nor detached. */
  predicate FightsFor(a: Actor, team: Id) {
    a.team == team && !a.banished && !a.detached
  }

  predicate TwoFight(actors: seq<Actor>, team: Id) {
    exists i, j :: 0 <= i < j < |actors| && FightsFor(actors[i], team) && FightsFor(actors[j], team)
  }

  predicate OneFights(actors: seq<Actor>, team: Id) {
    exists i :: 0 <= i < |actors| && FightsFor(actors[i], team)
  }

  lemma FightersNext(actors: seq<Actor>, team: Id)
    requires actors != []
    ensures OneFights(actors, team) <==> OneFights(actors[..|actors| - 1], team) || FightsFor(actors[|actors| - 1], team)
    ensures TwoFight(actors, team) <==>
      TwoFight(actors[..|actors| - 1], team) || (OneFights(actors[..|actors| - 1], team) && FightsFor(actors[|actors| - 1], team))
  {
    hide FightsFor;
    var n := |actors| - 1;
    forall i | 0 <= i < n ensures actors[..n][i] == actors[i] {
    }
    if TwoFight(actors, team) {
      var i, j :| 0 <= i < j <= n && FightsFor(actors[i], team) && FightsFor(actors[j], team);
      assert FightsFor(actors[..n][i], team);
    }
  }

  lemma {:induction false} TwoFightIff(actors: seq<Actor>, team: Id)
    ensures PartySize(actors, team) > 0 <==> OneFights(actors, team)
    ensures PartySize(actors, team) > 1 <==> TwoFight(actors, team)
    decreases |actors|
  {
    hide OneFights, TwoFight;
    if actors != [] {
      TwoFightIff(actors[..|actors| - 1], team);
      FightersNext(actors, team);
    } else {
      NobodyFights(team);
    }
  }

  lemma NobodyFights(team: Id)
    ensures !OneFights([], team) && !TwoFight([], team)
  {
  }

  /** Whether more than one of the actor's team is on the field once the encounter is gone. */
  predicate Companions(actors: seq<Actor>, enemies: seq<Id>, actor: Id) {
    var left := WithoutActors(actors, enemies);
    var me := ActorAt(left, actor);
    TwoFight(left, if me.Some? then me.value.team else NOBODY)
  }

  /** What leaving floor 10 does for the EX boss, before the next floor is furnished. */
  predicate UnlocksEX(r: Run, actor: Id, prepared: seq<Actor>) {
    r.floor == 10 && (r.stage.id == "stage-25" || (r.stage.id == "stage-23" && Companions(prepared, r.enemies, actor)))
  }

  /** What stands on a floor that was just reached: boxes in the treasure room, the drawn encounter everywhere else. */
  lemma FloorIsFurnished(r: Run, actor: Id, draw: Draw)
    requires Advance(r, actor, draw).Success?
    ensures AdvanceGuard(r, actor).None? && draw.prepared.Some?
    ensures var s := Advance(r, actor, draw).value;
      && s.floor == r.floor + 1 && s.stage == r.stage
      && s.encounterFloor == s.floor && s.encounterStage == r.stage.id
      && (s.floor == 11 ==> s.boxes == draw.boxes && s.enemies == [])
      && (s.floor != 11 ==> draw.spawned.Some? && s.boxes == [] && s.enemies == ActorIds(draw.spawned.value))
      && (s.exUnlocked <==> (r.exUnlocked || UnlocksEX(r, actor, draw.prepared.value) || (s.floor == 10 && r.stage.id == "stage-24")))
  {
    hide Create, AdvanceGuard, WithoutActors, PartySize, ActorAt, ActorIds, TwoFight;
    var left := WithoutActors(draw.prepared.value, r.enemies);
    TwoFightIff(left, if ActorAt(left, actor).Some? then ActorAt(left, actor).value.team else NOBODY);
    var up := MarkEXOnAdvance(Discard(r.(actors := draw.prepared.value)), actor);
    CreateFurnishes(up.(floor := up.floor + 1), actor, draw);
  }

  // ---------- chests ----------

  /** A box is given to a standing actor in the treasure room while nobody has it; every further one costs a pocket. */
  lemma ChestOpensIff(r: Run, actor: Id, box: Id, hasPocket: bool)
    requires forall i, j :: 0 <= i < j < |r.boxes| ==> r.boxes[i].id != r.boxes[j].id
    ensures ClaimChest(r, actor, box, hasPocket).Success? <==>
      && r.floor == 11 && ActorAt(r.actors, actor).Some? && ActorAt(r.actors, actor).value.hp > 0
      && (exists b :: b in r.boxes && b.id == box && b.openedBy == NOBODY)
      && (RecipientOf(r.recipients, actor).inspected > 0 ==> hasPocket)
    ensures ClaimChest(r, actor, box, hasPocket).Success? ==>
      var (s, taken) := ClaimChest(r, actor, box, hasPocket).value;
      && taken.id == box && taken.openedBy == actor && taken.(openedBy := NOBODY) in r.boxes
      && |s.boxes| == |r.boxes|
      && forall i :: 0 <= i < |r.boxes| ==> s.boxes[i] == if r.boxes[i].id == box then taken else r.boxes[i]
  {
    BoxIndexFinds(r.boxes, box);
    hide ActorAt, BoxIndex;
    var i := BoxIndex(r.boxes, box);
    if i >= 0 { assert r.boxes[i] in r.boxes; }
  }

  lemma {:induction false} BoxIndexFinds(boxes: seq<Box>, id: Id)
    ensures BoxIndex(boxes, id) < 0 ==> forall b :: b in boxes ==> b.id != id
    decreases |boxes|
  {
    if boxes != [] {
      BoxIndexFinds(boxes[..|boxes| - 1], id);
      assert forall b :: b in boxes <==> b in boxes[..|boxes| - 1] || b == boxes[|boxes| - 1];
    }
  }

  // ---------- tools ----------

  /** Which stage a tool leads to: six have one each, two more depend on what is worn or asked for. */
  ghost predicate LeadsToStage(a: Actor, tool: Id, input: Input, stage: Id) {
    || (tool == "item-066" && stage == "stage-15") || (tool == "item-067" && stage == "stage-16")
    || (tool == "item-068" && stage == "stage-17") || (tool == "item-069" && stage == "stage-18")
    || (tool == "item-070" && stage == "stage-19") || (tool == "item-104" && stage == "stage-21")
    || (tool == "item-071" && stage == "stage-20" && a.gear.Gear? && a.gear.weapon == "weapon-35" && a.gear.armor == "armor-37")
    || (tool == "item-184" && stage == input.stage && input.stage in {"stage-23", "stage-25"})
  }

  lemma ToolIsTaken(r: Run, actor: Id, tool: Id, input: Input, supply: Supply)
    requires Travel(r, actor, tool, input, supply).Success?
    ensures actor in r.roster && ActorAt(r.actors, actor).Some? && ActorAt(r.actors, actor).value.hp > 0
    ensures (input.floor != 0 ==> tool == "item-150") && (input.stage != NOBODY ==> tool == "item-184")
    ensures tool == "item-150" ==> r.stage.ordinary
  {
    hide ActorAt, Replace;
  }

  lemma PlainToolLeads(r: Run, actor: Id, tool: Id, input: Input, supply: Supply)
    requires Travel(r, actor, tool, input, supply).Success? && tool != "item-150" && ActorAt(r.actors, actor).Some?
    ensures var s := Travel(r, actor, tool, input, supply).value.0;
      && (tool == "item-107" ==> s == r.(floor := 10))
      && (tool == "item-083" ==> s == r.(floor := if r.floor < 9 then r.floor + 1 else r.floor))
      && (tool !in {"item-107", "item-083"} ==>
            && supply.destination.Some? && s == r.(stage := supply.destination.value, floor := 1)
            && LeadsToStage(ActorAt(r.actors, actor).value, tool, input, s.stage.id))
  {
    hide ActorAt, Replace, ReplacementRefusal;
  }

  /**
   Where a tool leads a standing member: a stage's first floor, floor 10 of the same stage, one floor up below the
   ninth, or, with a replacement, the floor asked for within 1 to 10. Only a replacement takes a floor and only the
   chosen stage takes one as input.
   */
  lemma ToolLeads(r: Run, actor: Id, tool: Id, input: Input, supply: Supply)
    requires Travel(r, actor, tool, input, supply).Success?
    ensures actor in r.roster && ActorAt(r.actors, actor).Some? && ActorAt(r.actors, actor).value.hp > 0
    ensures (input.floor != 0 ==> tool == "item-150") && (input.stage != NOBODY ==> tool == "item-184")
    ensures var s := Travel(r, actor, tool, input, supply).value.0;
      && (tool == "item-150" ==> s.floor == input.floor && 1 <= s.floor <= 10 && s.stage == r.stage && r.stage.ordinary)
      && (tool == "item-107" ==> s == r.(floor := 10))
      && (tool == "item-083" ==> s == r.(floor := if r.floor < 9 then r.floor + 1 else r.floor))
      && (tool !in {"item-150", "item-107", "item-083"} ==>
            && supply.destination.Some? && s == r.(stage := supply.destination.value, floor := 1)
            && LeadsToStage(ActorAt(r.actors, actor).value, tool, input, s.stage.id))
  {
    ToolIsTaken(r, actor, tool, input, supply);
    hide ActorAt, Travel, Replace, LeadsToStage;
    if tool == "item-150" {
      ReplacementAdmitted(r, actor, input, supply);
      ReplacedFloor(r.(actors := supply.reset.value.actors), actor, input.floor, supply.draw);
    } else {
      PlainToolLeads(r, actor, tool, input, supply);
    }
  }

  lemma ReplacedFloor(r: Run, actor: Id, floor: int, draw: Draw)
    requires Replace(r, actor, floor, draw).Success?
    ensures Replace(r, actor, floor, draw).value.0.floor == floor && Replace(r, actor, floor, draw).value.0.stage == r.stage
  {
    hide Create, Olds, Renamed, OldTimes, WithoutActors;
    var named := if draw.spawned.None? then None else Some(Renamed(draw.spawned.value, Olds(r, r.enemies).value));
    CreateFurnishes(Discard(r).(floor := floor), actor, draw.(spawned := named));
  }

  // ---------- admission ----------

  /** A party of one to four distinct named characters, led by the one who asks, at one of three speeds. */
  lemma PartyAdmissibleIff(a: Admission)
    ensures EntryRefusal(a).None? <==>
      && a.speed in {3, 18, 25} && 1 <= |a.characters| <= 4 && a.characters[0] == a.actor
      && NOBODY !in a.characters && NoDuplicates(a.characters)
  {
    assert NoDuplicates(a.characters) <==> !exists i, j :: 0 <= i < j < |a.characters| && a.characters[i] == a.characters[j];
  }
}

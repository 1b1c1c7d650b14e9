/** Encounters, replacements and responses: when each is allowed, who is in it afterwards and who answers first. */
module RunEncounters {
  import opened Common
  import opened RunTypes
  import opened RunProgress
  import opened RunNpc
  import opened RunTravel
  import opened RunCommands

  // ---------- creating an encounter ----------

  /** Floors an ordinary stage has an encounter for: 1 to 10, and 12 where its table has an EX boss. */
  predicate HasEncounter(s: Stage, floor: int) {
    1 <= floor <= 10 || (floor == 12 && s.exRoster)
  }

  lemma EncounterCreatedIff(r: Run, actor: Id, draw: Draw)
    ensures CreateEncounter(r, actor, draw).Success? <==> draw.spawned.Some? && (r.stage.ordinary ==> HasEncounter(r.stage, r.floor))
  {
    hide Restored, TeamOf, ActorIds;
  }

  /** A member of the team that meets an EX boss and is there to fight it. */
  predicate Revives(r: Run, actor: Id, all: seq<Actor>, a: Actor) {
    && r.stage.ordinary && r.floor == 12 && !a.banished && !a.detached
    && a.team == (if ActorAt(all, actor).Some? then ActorAt(all, actor).value.team else NOBODY)
  }

  lemma JoinedActors(r: Run, actor: Id, all: seq<Actor>, i: nat)
    requires i < |all|
    ensures var met := if r.stage.ordinary && r.floor == 12 then Restored(all, if ActorAt(all, actor).Some? then ActorAt(all, actor).value.team else NOBODY) else all;
      |met| == |all| && met[i] == if Revives(r, actor, all, all[i]) then all[i].(hp := all[i].maxHp) else all[i]
  {
    hide ActorAt;
  }

  lemma JoinedIs(r: Run, actor: Id, draw: Draw)
    requires CreateEncounter(r, actor, draw).Success?
    ensures draw.spawned.Some?
    ensures var s, all := CreateEncounter(r, actor, draw).value, r.actors + draw.spawned.value;
      && s.actors == (if r.stage.ordinary && r.floor == 12 then Restored(all, if ActorAt(all, actor).Some? then ActorAt(all, actor).value.team else NOBODY) else all)
      && s.enemies == r.enemies + ActorIds(draw.spawned.value) && s.boxes == r.boxes && s.lastActions == r.lastActions
  {
    hide ActorAt, TableCovers, Restored, ActorIds;
  }

  /** Everybody who was there stays and the drawn members join; only an EX boss restores the actor's team to full health. */
  lemma EncounterJoins(r: Run, actor: Id, draw: Draw)
    requires CreateEncounter(r, actor, draw).Success?
    ensures draw.spawned.Some?
    ensures var s, all := CreateEncounter(r, actor, draw).value, r.actors + draw.spawned.value;
      && |s.actors| == |all|
      && (forall i :: 0 <= i < |all| ==> s.actors[i] == if Revives(r, actor, all, all[i]) then all[i].(hp := all[i].maxHp) else all[i])
      && |s.enemies| == |r.enemies| + |draw.spawned.value| && s.enemies[..|r.enemies|] == r.enemies
      && (forall k :: 0 <= k < |draw.spawned.value| ==> s.enemies[|r.enemies| + k] == draw.spawned.value[k].id)
      && s.boxes == r.boxes && s.lastActions == r.lastActions
  {
    JoinedIs(r, actor, draw);
    hide ActorAt, CreateEncounter, Restored, Revives;
    var all := r.actors + draw.spawned.value;
    forall i | 0 <= i < |all| ensures CreateEncounter(r, actor, draw).value.actors[i] == if Revives(r, actor, all, all[i]) then all[i].(hp := all[i].maxHp) else all[i] {
      JoinedActors(r, actor, all, i);
    }
  }

  // ---------- replacing an encounter ----------

  predicate Replaces(r: Run, id: Id) {
    ActorAt(r.actors, id).Some? && ActorAt(r.actors, id).value.npc && ActorAt(r.actors, id).value.identity != NOBODY
  }

  /**
   A replacement is open on floors 1 to 10 of an ordinary stage, with a valid reset made for this actor and these
   enemies, nobody detached, enemies that all come from the catalog, and a complete table.
   */
  predicate MayReplace(r: Run, actor: Id, floor: int, supply: Supply) {
    && 1 <= floor <= 10 && r.stage.ordinary && supply.tableReady
    && supply.reset.Some? && supply.reset.value.actor == actor && supply.reset.value.enemies == r.enemies && supply.reset.value.valid
    && (forall a :: a in r.actors ==> !a.detached)
    && forall id :: id in r.enemies ==> Replaces(r, id)
  }

  lemma ReplacementOpenIff(r: Run, actor: Id, floor: int, supply: Supply)
    ensures ReplacementRefusal(r, actor, floor, supply).None? <==> MayReplace(r, actor, floor, supply)
  {
    hide ActorAt;
  }

  predicate StandingMember(r: Run, actor: Id) {
    actor in r.roster && ActorAt(r.actors, actor).Some? && ActorAt(r.actors, actor).value.hp > 0
  }

  /** The stage that each stage tool leads to. */
  const STAGE_TOOLS: map<Id, Id> := map["item-066" := "stage-15", "item-067" := "stage-16", "item-068" := "stage-17",
    "item-069" := "stage-18", "item-070" := "stage-19", "item-071" := "stage-20", "item-104" := "stage-21"]

  predicate Arrives(supply: Supply, stage: Id) {
    supply.destination.Some? && supply.destination.value.id == stage
  }

  /** What each tool needs: its stage in the catalog, the costume of the eighth stage, a chosen stage, or a replacement. */
  predicate ToolServes(r: Run, actor: Id, tool: Id, input: Input, supply: Supply)
    requires ActorAt(r.actors, actor).Some?
  {
    var gear := ActorAt(r.actors, actor).value.gear;
    if tool == "item-150" then MayReplace(r, actor, input.floor, supply)
    else if tool == "item-184" then input.stage in {"stage-23", "stage-25"} && Arrives(supply, input.stage)
    else if tool in STAGE_TOOLS then
      Arrives(supply, STAGE_TOOLS[tool]) && (tool == "item-071" ==> gear.Gear? && gear.weapon == "weapon-35" && gear.armor == "armor-37")
    else tool in {"item-083", "item-107"}
  }

  lemma ToolStage(tool: Id, input: Input)
    ensures TravelStage(tool, input) == if tool == "item-184" then input.stage else if tool in STAGE_TOOLS then STAGE_TOOLS[tool] else NOBODY
  {
  }

  /** A travel tool works for a standing member that gives it just the input it takes, once what the tool needs is there. */
  lemma ToolOpenIff(r: Run, actor: Id, tool: Id, input: Input, supply: Supply)
    ensures TravelRefusal(r, actor, tool, input, supply).None? <==>
      && StandingMember(r, actor)
      && (input.floor != 0 ==> tool == "item-150") && (input.stage != NOBODY ==> tool == "item-184")
      && ToolServes(r, actor, tool, input, supply)
  {
    ToolStage(tool, input);
    ReplacementOpenIff(r, actor, input.floor, supply);
    hide ActorAt, ReplacementRefusal, MayReplace, TravelStage;
  }

  /** A job's room is made one floor deeper where a replacement there is open, or else in place up to the treasure room. */
  lemma RoomOpenIff(r: Run, actor: Id, entry: Id, supply: Supply)
    ensures RoomRefusal(r, actor, entry, supply).None? <==>
      if entry == "job-78-entry-2" then StandingMember(r, actor) && MayReplace(r, actor, r.floor + 1, supply)
      else r.stage.ordinary && 0 <= r.floor <= 11 && (r.floor < 11 ==> supply.tableReady)
  {
    ToolOpenIff(r, actor, "item-150", Input(r.floor + 1, NOBODY), supply);
    hide ActorAt, TravelRefusal, MayReplace;
  }

  // ---------- what a replacement makes ----------

  /** The first old member made from the same entry, if any. */
  predicate TakesOver(olds: seq<Actor>, identity: Id, k: int) {
    && 0 <= k < |olds| && identity != NOBODY && olds[k].identity == identity
    && forall j :: 0 <= j < k ==> olds[j].identity != identity
  }

  lemma {:induction false} OldNamedIs(olds: seq<Actor>, identity: Id)
    ensures OldNamed(olds, identity).Some? ==> exists k :: TakesOver(olds, identity, k) && olds[k].id == OldNamed(olds, identity).value
    ensures OldNamed(olds, identity).None? ==> identity == NOBODY || forall a :: a in olds ==> a.identity != identity
    decreases |olds|
  {
    if olds != [] && identity != NOBODY {
      if olds[0].identity == identity {
        assert TakesOver(olds, identity, 0);
      } else {
        OldNamedIs(olds[1..], identity);
        if OldNamed(olds, identity).Some? {
          var k :| TakesOver(olds[1..], identity, k) && olds[1..][k].id == OldNamed(olds[1..], identity).value;
          assert TakesOver(olds, identity, k + 1) && olds[k + 1].id == OldNamed(olds, identity).value;
        }
      }
    }
  }

  /** A new member made from the same entry as an old one takes over the first such one's identifier and nothing else. */
  lemma NewMembersAre(spawned: seq<Actor>, olds: seq<Actor>, i: nat)
    requires i < |spawned|
    ensures var named := Renamed(spawned, olds)[i];
      && named == spawned[i].(id := named.id)
      && (named.id == spawned[i].id || exists k :: TakesOver(olds, spawned[i].identity, k) && named.id == olds[k].id)
      && forall k :: TakesOver(olds, spawned[i].identity, k) ==> named.id == olds[k].id
  {
    var identity := spawned[i].identity;
    OldNamedIs(olds, identity);
    forall k | TakesOver(olds, identity, k) ensures Renamed(spawned, olds)[i].id == olds[k].id {
      assert olds[k] in olds;
      var j :| TakesOver(olds, identity, j) && olds[j].id == OldNamed(olds, identity).value;
      assert j == k;
    }
    hide OldNamed;
  }

  lemma {:induction false} OldsAre(r: Run, ids: seq<Id>)
    ensures Olds(r, ids).Some? <==> (forall id :: id in ids ==> ActorAt(r.actors, id).Some?)
    ensures Olds(r, ids).Some? ==>
      (|Olds(r, ids).value| == |ids| && forall k :: 0 <= k < |ids| ==> ActorAt(r.actors, ids[k]) == Some(Olds(r, ids).value[k]))
    decreases |ids|
  {
    hide ActorAt;
    if ids != [] {
      OldsAre(r, ids[1..]);
      if Olds(r, ids).Some? {
        forall id | id in ids ensures ActorAt(r.actors, id).Some? {
          assert id in ids[1..] || id == ids[0];
        }
      } else if ActorAt(r.actors, ids[0]).Some? {
        var id :| id in ids[1..] && ActorAt(r.actors, id).None?;
        assert id in ids;
      } else {
        assert ids[0] in ids;
      }
    }
  }

  /**
   A replacement keeps the whole old side aside, member by member, with its clocks and the provenance it had, and
   nobody answers it if the treasure room was left.
   */
  lemma OldSideIsKept(r: Run, actor: Id, floor: int, draw: Draw)
    requires Replace(r, actor, floor, draw).Success?
    ensures var t := Replace(r, actor, floor, draw).value.1;
      && t.replaced && (t.suppressed <==> r.floor == 11) && !t.unseal
      && |t.olds| == |r.enemies| && (forall k :: 0 <= k < |r.enemies| ==> ActorAt(r.actors, r.enemies[k]) == Some(t.olds[k]))
      && (forall id :: id in t.times <==> id in r.enemies)
      && (forall id :: id in t.times ==> t.times[id] == if id in r.lastActions then r.lastActions[id] else 0)
      && t.oldFloor == r.encounterFloor && t.oldStage == r.encounterStage
  {
    hide ActorAt, Create, Renamed, Discard;
    OldsAre(r, r.enemies);
  }

  /** A room that a job makes is where the replacement was, and unseals on the last stage's treasure floor. */
  lemma RoomIsMade(r: Run, actor: Id, entry: Id, supply: Supply)
    requires Room(r, actor, entry, supply).Success?
    ensures actor in r.roster && ActorAt(r.actors, actor).Some?
    ensures entry == "job-78-entry-2" ==> supply.reset.Some?
    ensures var deeper := entry == "job-78-entry-2";
      var floor := if deeper then r.floor + 1 else r.floor;
      var made := Replace(if deeper then r.(actors := supply.reset.value.actors) else r, actor, floor, supply.draw);
      && made.Success? && Room(r, actor, entry, supply).value.0 == made.value.0
      && Room(r, actor, entry, supply).value.1 == made.value.1.(unseal := r.stage.id == "stage-19" && floor == 11)
  {
    RoomOpenIff(r, actor, entry, supply);
    hide ActorAt, Replace, RoomRefusal;
  }

  // ---------- the response ----------

  /** Who answers for an old enemy: whoever took over its identifier, or else itself. */
  predicate AnswersFor(r: Run, former: Actor, a: Actor) {
    a == if ActorAt(r.actors, former.id).Some? then ActorAt(r.actors, former.id).value else former
  }

  /** When somebody last acted: by the run's clock while it is there, by the one kept for it otherwise. */
  function LastActed(r: Run, t: Transition, id: Id): Time {
    if ActorAt(r.actors, id).Some? then (if id in r.lastActions then r.lastActions[id] else 0)
    else if id in t.times then t.times[id] else 0
  }

  predicate MayAnswer(r: Run, t: Transition, a: Actor, now: Time) {
    a.id != NOBODY && a.npc && a.hp > 0 && now >= LastActed(r, t, a.id) + r.admission.speed * SECOND
  }

  lemma {:induction false} FirstResponderIs(r: Run, t: Transition, actors: seq<Actor>, now: Time)
    ensures var npc := FirstResponder(r, t, actors, now);
      if npc == NOBODY then forall a :: a in actors ==> !MayAnswer(r, t, a, now)
      else exists k :: 0 <= k < |actors| && actors[k].id == npc && MayAnswer(r, t, actors[k], now) && forall j :: 0 <= j < k ==> !MayAnswer(r, t, actors[j], now)
    decreases |actors|
  {
    hide ActorAt;
    if actors != [] && !MayAnswer(r, t, actors[0], now) {
      FirstResponderIs(r, t, actors[1..], now);
      if FirstResponder(r, t, actors, now) != NOBODY {
        var k :| 0 <= k < |actors| - 1 && actors[1..][k].id == FirstResponder(r, t, actors, now) && MayAnswer(r, t, actors[1..][k], now)
          && forall j :: 0 <= j < k ==> !MayAnswer(r, t, actors[1..][j], now);
        forall j | 0 <= j < k + 1 ensures !MayAnswer(r, t, actors[j], now) {
          if j > 0 { assert actors[j] == actors[1..][j - 1]; }
        }
        assert actors[k + 1].id == FirstResponder(r, t, actors, now) && MayAnswer(r, t, actors[k + 1], now);
      } else {
        assert forall a :: a in actors <==> a in actors[1..] || a == actors[0];
      }
    }
  }

  /** The side that answers after a replacement: everybody else of the run, then whoever answers for each old enemy. */
  ghost predicate SideRestored(r: Run, t: Transition, s: Run, answering: seq<Actor>) {
    && |answering| == |t.olds| && (forall k :: 0 <= k < |t.olds| ==> AnswersFor(r, t.olds[k], answering[k]))
    && s == r.(actors := WithoutActors(r.actors, r.enemies) + answering, enemies := s.enemies, boxes := [], lastActions := s.lastActions,
               encounterFloor := t.oldFloor, encounterStage := t.oldStage)
    && |s.enemies| == |answering| && (forall k :: 0 <= k < |answering| ==> s.enemies[k] == answering[k].id)
    && (forall id :: id in s.enemies ==> id in s.lastActions && s.lastActions[id] == LastActed(r, t, id))
    && forall id :: id !in s.enemies ==> (id in s.lastActions <==> id in r.lastActions && id !in r.enemies) && (id in s.lastActions ==> s.lastActions[id] == r.lastActions[id])
  }

  lemma RestoredSide(r: Run, t: Transition)
    ensures SideRestored(r, t, Restore(r, t, Responders(r, t)), Responders(r, t))
  {
    hide ActorAt, WithoutActors;
    forall id ensures ResponderTime(r, t, id) == LastActed(r, t, id) {
    }
    forall id | id in r.enemies ensures id in Named(r.enemies) {
    }
  }

  /**
   Who answers an action: nobody after the treasure room was left; the first enemy that may, without a replacement;
   and after one, the first of the old side that may, for which that side comes back. Nothing changes when nobody does.
   */
  lemma ResponseIs(r: Run, t: Transition, now: Time)
    ensures var (s, npc) := BeginResponse(r, t, now);
      && (t.suppressed ==> npc == NOBODY)
      && (!t.suppressed && !t.replaced ==> s == r && npc == NextNPC(r, now))
      && (npc == NOBODY ==> s == r)
    ensures !t.suppressed && t.replaced ==>
      var (s, npc) := BeginResponse(r, t, now); var answering := Responders(r, t);
      && (npc == NOBODY <==> forall a :: a in answering ==> !MayAnswer(r, t, a, now))
      && (npc != NOBODY ==>
            && SideRestored(r, t, s, answering)
            && exists k :: 0 <= k < |answering| && answering[k].id == npc && MayAnswer(r, t, answering[k], now) && forall j :: 0 <= j < k ==> !MayAnswer(r, t, answering[j], now))
  {
    FirstResponderIs(r, t, Responders(r, t), now);
    RestoredSide(r, t);
    hide Responders, FirstResponder, Restore, SideRestored, NextNPC, MayAnswer;
  }

  /** An answer is recorded for an enemy of the run that is an NPC; its clock is set and the first enemy goes last. */
  lemma AnswerRecordedIff(r: Run, id: Id, now: Time)
    ensures RecordResponse(r, id, now).Success? <==> id != NOBODY && id in r.enemies && ActorAt(r.actors, id).Some? && ActorAt(r.actors, id).value.npc
    ensures RecordResponse(r, id, now).Success? ==>
      var s := RecordResponse(r, id, now).value;
      s == r.(lastActions := r.lastActions[id := now], enemies := r.enemies[1..] + r.enemies[..1])
  {
    hide ActorAt;
    assert |r.enemies| == 1 ==> r.enemies[1..] + r.enemies[..1] == r.enemies;
  }

  // ---------- those who rejoin ----------

  /** May rejoin at its place in the list: there, of another team, not an enemy already and not listed standing before. */
  predicate MayRejoin(r: Run, actor: Id, ids: seq<Id>, k: int)
    requires 0 <= k < |ids|
  {
    var a, me := ActorAt(r.actors, ids[k]), ActorAt(r.actors, actor);
    && a.Some? && me.Some? && a.value.team != me.value.team && ids[k] !in r.enemies
    && (a.value.hp > 0 ==> ids[k] !in ids[..k])
  }

  function Standing(r: Run, ids: seq<Id>): seq<Id> {
    if ids == [] then []
    else
      var a := ActorAt(r.actors, ids[|ids| - 1]);
      Standing(r, ids[..|ids| - 1]) + (if a.Some? && a.value.hp > 0 then [ids[|ids| - 1]] else [])
  }

  lemma {:induction false} StandingAre(r: Run, ids: seq<Id>)
    ensures forall id :: id in Standing(r, ids) <==> id in ids && ActorAt(r.actors, id).Some? && ActorAt(r.actors, id).value.hp > 0
  {
    hide ActorAt;
    if ids != [] {
      StandingAre(r, ids[..|ids| - 1]);
      assert forall id :: id in ids <==> id in ids[..|ids| - 1] || id == ids[|ids| - 1];
    }
  }

  /** One more name on the list, after a list that was met. */
  lemma RejoinsNext(r: Run, actor: Id, ids: seq<Id>)
    requires ids != [] && RejoinMembers(r, actor, ids[..|ids| - 1]) == Success(r.(enemies := r.enemies + Standing(r, ids[..|ids| - 1])))
    ensures RejoinMembers(r, actor, ids).Success? <==> MayRejoin(r, actor, ids, |ids| - 1)
    ensures RejoinMembers(r, actor, ids).Success? ==> RejoinMembers(r, actor, ids).value == r.(enemies := r.enemies + Standing(r, ids))
  {
    var n := |ids| - 1;
    var before := Standing(r, ids[..n]);
    StandingAre(r, ids[..n]);
    hide ActorAt;
    assert ids[n] in r.enemies + before <==> ids[n] in r.enemies || ids[n] in before;
    assert r.enemies + (before + [ids[n]]) == r.enemies + before + [ids[n]];
    assert before + [] == before;
  }

  /** Combatants kept aside come back behind the enemies, those of them who stand, in the order they are listed. */
  lemma {:induction false} RejoinedAre(r: Run, actor: Id, ids: seq<Id>)
    ensures RejoinMembers(r, actor, ids).Success? <==> forall k :: 0 <= k < |ids| ==> MayRejoin(r, actor, ids, k)
    ensures RejoinMembers(r, actor, ids).Success? ==> RejoinMembers(r, actor, ids).value == r.(enemies := r.enemies + Standing(r, ids))
    decreases |ids|
  {
    if ids == [] {
      assert r.enemies + [] == r.enemies;
    } else {
      var n := |ids| - 1;
      RejoinedAre(r, actor, ids[..n]);
      forall k | 0 <= k < n ensures MayRejoin(r, actor, ids, k) == MayRejoin(r, actor, ids[..n], k) {
        assert ids[..n][..k] == ids[..k];
      }
      if RejoinMembers(r, actor, ids[..n]).Success? {
        RejoinsNext(r, actor, ids);
      }
      hide Standing, MayRejoin, ActorAt;
    }
  }

  // ---------- the royal bee ----------

  /** One of the letters that are cut off the end of an identity. */
  predicate IsCopyLetter(c: char) {
    'A' <= c <= 'H'
  }

  /** The name without its copy letters, which are all that was cut off. */
  lemma {:induction false} TrimmedIs(s: string) returns (n: nat)
    ensures n <= |s| && TrimSuffixes(s) == s[..n]
    ensures forall i :: n <= i < |s| ==> IsCopyLetter(s[i])
    ensures n > 0 ==> !IsCopyLetter(s[n - 1])
    decreases |s|
  {
    var last := |s| - 1;
    if s != [] && IsCopyLetter(s[last]) {
      n := TrimmedIs(s[..last]);
      assert s[..n] == s[..last][..n];
      forall i | n <= i < |s| ensures IsCopyLetter(s[i]) {
        if i < last { assert s[i] == s[..last][i]; }
      }
    } else {
      n := |s|;
      assert s[..|s|] == s;
    }
  }

  /** A copy of the royal bee, or the bee itself: its name and nothing but copy letters behind it. */
  predicate IsRoyalBee(s: string) {
    var bee := "ordinary-22-monster-175";
    |s| >= |bee| && s[..|bee|] == bee && forall i :: |bee| <= i < |s| ==> IsCopyLetter(s[i])
  }

  lemma BeeIff(s: string)
    ensures TrimSuffixes(s) == ROYAL_BEE <==> IsRoyalBee(s)
  {
    var n := TrimmedIs(s);
    assert !IsCopyLetter(ROYAL_BEE[|ROYAL_BEE| - 1]);
    hide TrimSuffixes;
  }

  /** On stage 22 a royal bee that falls with the lucky draw unlocks the EX boss, and nothing else about the run changes. */
  lemma BeeUnlocks(r: Run, defeats: seq<Defeat>)
    ensures var s := CreditDefeats(r, defeats);
      && s == r.(exUnlocked := s.exUnlocked)
      && (s.exUnlocked <==> r.exUnlocked || (r.stage.id == "stage-22" && exists d :: d in defeats && IsRoyalBee(d.identity) && d.lucky))
  {
    forall d | d in defeats ensures TrimSuffixes(d.identity) == ROYAL_BEE <==> IsRoyalBee(d.identity) {
      BeeIff(d.identity);
    }
    hide TrimSuffixes, IsRoyalBee;
  }
}

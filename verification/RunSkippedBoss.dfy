/** One concrete history: a run cleared past a boss that was created, left alive and never defeated. */
module RunSkippedBoss {
  import opened Common
  import opened RunTypes
  import opened RunEarnings
  import opened RunProgress
  import opened RunNpc
  import opened RunTravel
  import opened RunOrder
  import opened RunWorld
  import opened RunCommands
  import opened RunInvariants
  import opened RunCommits
  import opened RunTheorems
  import opened RunClears

  const HERO := Actor("hero", 10, 10, false, "allies", false, false, "", NoGear, [])
  const BOSS := Actor("boss", 99, 99, true, "enemies", false, false, "boss-entry", NoGear, [])
  const IMP := Actor("imp", 1, 1, true, "enemies", false, false, "imp-entry", NoGear, [])
  const DEAD_IMP := IMP.(hp := 0)
  const STAGE := Stage("stage-1", true, false)
  const PARTY := Admission("run", "", "hero", ["hero"], "stage-1", Normal, 3)

  function Admitted(now: Time): Run {
    Run("run", 1, PARTY, STAGE, Normal, "hero", ["hero"], 0, 0, false, false, false, 0, "", [], [HERO], map[],
        map["hero" := NewRecipient("player")], [], now, false, NO_TRAIL)
  }

  /** The boss of floor 10 was called up from the entrance. */
  function Called(now: Time): Run {
    Admitted(now).(floor := 10, clearPending := true, encounterFloor := 10, encounterStage := "stage-1",
      enemies := ["boss"], actors := [HERO, BOSS], trail := Trail([10], [], []))
  }

  /** The boss was left behind alive for an encounter on floor 9. */
  function Left(now: Time): Run {
    Called(now).(floor := 9, encounterFloor := 9, enemies := ["imp"], actors := [HERO, IMP], trail := Trail([10, 9], [], []))
  }

  function Back(now: Time): Run {
    Left(now).(floor := 10, actors := [HERO, DEAD_IMP])
  }

  function Cleared(now: Time): Run {
    Back(now).(floor := 11, stageCleared := true, clearPending := false, encounterFloor := 11, enemies := [], actors := [HERO],
      trail := Trail([10, 9], [], [true]))
  }

  function Calling(before: seq<Actor>, enemies: seq<Id>, spawned: Actor): Supply {
    Supply(None, true, Some(Reset("hero", enemies, true, before)), Draw(None, Some([spawned]), []))
  }

  const CALL_BOSS := UseTool("item-150", Input(10, ""), Calling([HERO], [], BOSS))
  const LEAVE_BOSS := UseTool("item-150", Input(9, ""), Calling([HERO, BOSS], ["boss"], IMP))
  const KILL_IMP := Fight([HERO, DEAD_IMP], ["imp"], map[])
  const TREASURE := Draw(Some([HERO, DEAD_IMP]), None, [])
  const RETURN := UseTool("item-107", Input(0, ""), Supply(None, true, None, Draw(None, None, [])))

  lemma OnlyHeroStays(other: Actor, gone: seq<Id>)
    requires other.id in gone && "hero" !in gone
    ensures WithoutActors([HERO], gone) == [HERO] && WithoutActors([HERO, other], gone) == [HERO]
  {
    assert [HERO][1..] == [] && [other][1..] == [] && [HERO, other][1..] == [other];
    assert WithoutActors([other], gone) == WithoutActors([other][1..], gone);
    assert [HERO] + WithoutActors([HERO, other][1..], gone) == [HERO];
  }

  lemma HeroAlone(gone: seq<Id>)
    requires "hero" !in gone
    ensures WithoutActors([HERO], gone) == [HERO]
  {
    assert [HERO][1..] == [];
    assert [HERO] + WithoutActors([HERO][1..], gone) == [HERO];
  }

  lemma Copied(r: Run, a: Actor)
    requires r.actors == [HERO, a] && a.id != "hero"
    ensures ActorAt(r.actors, "hero") == Some(HERO) && ActorAt(r.actors, a.id) == Some(a)
    ensures Olds(r, []) == Some([]) && Olds(r, [a.id]) == Some([a])
  {
    assert r.actors[1..] == [a] && [a.id][1..] == [] && [a.id][0] == a.id;
    assert ActorAt(r.actors, a.id) == ActorAt(r.actors[1..], a.id);
    assert Olds(r, [a.id][1..]) == Some([]);
    assert [a] + [] == [a];
  }

  lemma KeepsItsName(spawned: Actor, prior: Actor)
    requires spawned.identity != prior.identity
    ensures Renamed([spawned], [prior]) == [spawned] && Renamed([spawned], []) == [spawned]
  {
    assert [prior][1..] == [];
    assert OldNamed([prior], spawned.identity) == OldNamed([prior][1..], spawned.identity) == None;
  }

  lemma NoClocks(gone: seq<Id>)
    ensures var none: map<Id, Time> := map[]; none - Named(gone) == none
  {
  }

  lemma BossIsCalled(now: Time, t: Transition)
    ensures PlayStep(Admitted(now), t, "hero", CALL_BOSS, now).Success?
    ensures PlayStep(Admitted(now), t, "hero", CALL_BOSS, now).value.0 == Called(now)
  {
    var r := Admitted(now);
    assert ActorAt(r.actors, "hero") == Some(HERO);
    assert TravelRefusal(r, "hero", "item-150", Input(10, ""), Calling([HERO], [], BOSS)).None?;
    assert Olds(r, []) == Some([]);
    KeepsItsName(BOSS, IMP);
    HeroAlone([]);
    assert Discard(r).actors == [HERO];
    assert ActorIds([BOSS]) == ["boss"];
    assert [HERO] + [BOSS] == [HERO, BOSS];
    NoClocks([]);
  }

  lemma BossMayBeLeft(now: Time)
    ensures TravelRefusal(Called(now), "hero", "item-150", Input(9, ""), Calling([HERO, BOSS], ["boss"], IMP)).None?
  {
    Copied(Called(now), BOSS);
  }

  lemma BossIsReplaced(now: Time)
    ensures var r := Replace(Called(now), "hero", 9, Draw(None, Some([IMP]), []));
      r.Success? && r.value.0 == Left(now) && r.value.1.olds == [BOSS]
  {
    var r := Called(now);
    Copied(r, BOSS);
    KeepsItsName(IMP, BOSS);
    OnlyHeroStays(BOSS, ["boss"]);
    NoClocks(["boss"]);
    var left := Discard(r).(floor := 9);
    assert left == r.(floor := 9, enemies := [], actors := [HERO]);
    assert ActorIds([IMP]) == ["imp"] && [HERO] + [IMP] == [HERO, IMP];
    var created: seq<int>, names: seq<Id> := [10], [];
    assert created + [9] == [10, 9] && names + ["imp"] == ["imp"];
    hide Discard, ActorIds, WithoutActors;
    assert CreateEncounter(left, "hero", Draw(None, Some([IMP]), [])) == Success(Left(now));
  }

  lemma BossIsLeft(now: Time, t: Transition)
    ensures PlayStep(Called(now), t, "hero", LEAVE_BOSS, now).Success?
    ensures var (s, left) := PlayStep(Called(now), t, "hero", LEAVE_BOSS, now).value;
      s == Left(now) && left.olds == [BOSS] && BOSS.hp > 0
  {
    hide TravelRefusal, Replace;
    BossMayBeLeft(now);
    BossIsReplaced(now);
    assert Called(now).(actors := [HERO, BOSS]) == Called(now);
  }

  lemma HeroReturns(now: Time, t: Transition)
    ensures PlayStep(Left(now), t, "hero", KILL_IMP, now).Success?
    ensures var s := PlayStep(Left(now), t, "hero", KILL_IMP, now).value.0;
      && PlayStep(s, t, "hero", RETURN, now).Success?
      && PlayStep(s, t, "hero", RETURN, now).value.0 == Back(now)
  {
    var r := Left(now).(actors := [HERO, DEAD_IMP]);
    Copied(r, DEAD_IMP);
  }

  lemma RoomIsEntered(now: Time, version: int)
    ensures Advance(Back(now).(version := version), "hero", TREASURE) == Success(Cleared(now).(version := version))
  {
    var r := Back(now).(version := version);
    Copied(r, DEAD_IMP);
    assert AdvanceGuard(r, "hero").None?;
    OnlyHeroStays(DEAD_IMP, ["imp"]);
    NoClocks(["imp"]);
    assert r.(actors := [HERO, DEAD_IMP]) == r;
    var left := Discard(r);
    assert left == r.(enemies := [], actors := [HERO]);
    assert MarkEXOnAdvance(left, "hero") == left;
    var rooms: seq<bool> := [];
    assert rooms + [true] == [true];
    hide Discard, AdvanceGuard, WithoutActors;
    assert CreateTreasure(left.(floor := 11), []) == Success(Cleared(now).(version := version));
  }

  // ---------- the history ----------

  const NOW := 100 * SECOND
  const PLAYERS: map<Id, Id> := map["hero" := "player"]
  const UNNOTICED := Effects([], [], false, false, false, false, [], [])

  function Acting(script: seq<Step>, draw: Draw): Env {
    Env(NOW, draw, false, 0, script, Success(UNNOTICED), [], true)
  }

  const ENTRY := Entered("player", PARTY, Entry(NOW, None, Some(STAGE), false, [HERO], true), Committed)
  const TRAVEL := Commanded(RunWorld.Command("player", "hero", "run", "first", 1, Combat("travel"), "", ""),
    Acting([CALL_BOSS, LEAVE_BOSS, KILL_IMP, RETURN], Draw(None, None, [])), Committed, Timer(0, false), Committed)
  const CLIMB := Commanded(RunWorld.Command("player", "hero", "run", "second", 2, AdvanceFloor, "", ""),
    Acting([], TREASURE), Committed, Timer(0, false), Committed)
  const HISTORY: seq<Event> := [ENTRY, TRAVEL, CLIMB]

  /** The tables of a server with this one run and these receipts. */
  ghost predicate Holds(w: World, r: Run, ids: set<string>) {
    && w.players == PLAYERS && w.headers == map["run" := Header(r.version, Some(PARTY), Some(r))]
    && w.rows == map[RowKey("run", "hero") := NewRecipient("player")] && w.enrolled == map["hero" := "run"]
    && forall key :: key in w.receipts ==> key.run == "run" && key.id in ids
  }

  ghost predicate Alone(r: Run) {
    && r.id == "run" && r.admission == PARTY && r.roster == ["hero"] && r.leader == "hero" && !r.timedOut
    && r.recipients == map["hero" := NewRecipient("player")] && r.mode == Normal
  }

  lemma NothingIsRetained(w: World, r: Run, ids: set<string>)
    requires Holds(w, r, ids)
    ensures forall run :: !IsRetained(w, run, "hero")
  {
  }

  lemma NothingReleased()
    ensures Release(NewRecipient("player")) == Success(NewRecipient("player"))
  {
  }

  lemma NothingToPay(w: World, s: Run)
    requires Alone(s)
    ensures PayActor(w, s, "hero", []) == Success((Credit(w, "hero", NOTHING), s))
  {
    NothingReleased();
    hide Release;
    var p := NewRecipient("player");
    assert RecipientOf(s.recipients, "hero") == p;
    assert FindRetained(w, "hero", []) == [] && Due(NOTHING, []) == Success(NOTHING);
    assert s.recipients["hero" := p] == s.recipients;
    hide Alone, RecipientOf, NewRecipient, FindRetained, Due;
    assert s.(recipients := s.recipients["hero" := p]) == s;
  }

  lemma RowsAreSaved(u: World)
    requires u.rows == map[RowKey("run", "hero") := NewRecipient("player")] && u.enrolled == map["hero" := "run"]
    ensures SaveRecipients(u, "run", map["hero" := NewRecipient("player")]) == Success(u)
  {
    var recipients := map["hero" := NewRecipient("player")];
    OneRow(NewRecipient("player"));
    hide RowsOf;
    var stored := SaveRecipients(u, "run", recipients).value;
    assert stored.rows == u.rows && stored.enrolled == u.enrolled;
  }

  lemma HeaderIsSaved(u: World, r: Run, s: Run)
    requires Alone(s) && s.version == r.version + 1 && u.headers == map["run" := Header(r.version, Some(PARTY), Some(r))]
    ensures SaveRun(u, s, r.version) == Success(u.(headers := map["run" := Header(s.version, Some(PARTY), Some(s))]))
  {
    var saved := SaveRun(u, s, r.version).value;
    assert saved.headers == map["run" := Header(s.version, Some(PARTY), Some(s))];
  }

  lemma RunIsSaved(w: World, u: World, r: Run, s: Run, cmd: Command, ids: set<string>)
    requires Holds(w, r, ids) && Alone(s) && s.version == r.version + 1 && cmd.version == r.version
    requires cmd.run == "run" && cmd.actor == "hero" && cmd.id !in ids && u == w.(credited := u.credited)
    ensures Save(u, s, cmd, None).Success? && Holds(Save(u, s, cmd, None).value.0, s, ids + {cmd.id})
  {
    RowsAreSaved(u);
    HeaderIsSaved(u, r, s);
    hide SaveRecipients, SaveRun, NewRecipient, RecipientOf;
    assert ReceiptKey("run", cmd.id) !in u.receipts;
  }

  lemma HeroMayAct(w: World, r: Run, cmd: Command, ids: set<string>)
    requires Holds(w, r, ids) && Alone(r) && cmd.player == "player" && cmd.actor == "hero" && cmd.version == r.version
    ensures Admissible(w, r, cmd).None?
  {
    OneIsSorted("hero");
    assert RosterRefusal(w, r, ["hero"][..0]).None?;
  }

  lemma NothingToSettle(w: World, s: Run, cmd: Command, effects: Effects, release: bool)
    requires Alone(s) && cmd.actor == "hero" && effects.gains == [] && effects.spent == []
    ensures Settle(w, s, cmd, effects, release, []) == Success((if release then Credit(w, "hero", NOTHING) else w, s))
  {
    hide PayActor, Alone, RecordAll, SpendingAllowed, SpendingNamed, Credit, NewRecipient;
    NothingToPay(w, s);
    NothingToRecord(s, cmd.actor);
  }

  lemma NothingToRecord(s: Run, actor: Id)
    ensures RecordAll(s, []) == Success(s) && SpendingAllowed(s, actor, []) && SpendingNamed([])
  {
  }

  lemma FreshTakes(w: World, r: Run, s: Run, cmd: Command, env: Env, effects: Effects, ids: set<string>)
    requires Holds(w, r, ids) && Alone(r) && Alone(s) && s.version == r.version
    requires cmd.player == "player" && cmd.actor == "hero" && cmd.run == "run" && cmd.version == r.version
    requires cmd.action.Combat? || cmd.action.AdvanceFloor?
    requires cmd.id !in ids && env.order == []
    requires Act(r, cmd, env) == Success(Acted(s, effects, None)) && effects.gains == [] && effects.spent == []
    ensures FreshCommand(w, cmd, env).Success? && Holds(FreshCommand(w, cmd, env).value.0, Stamp(s, cmd, effects, env.now), ids + {cmd.id})
  {
    hide Act, Save, Settle, Admissible, Holds, FindRun;
    HeroMayAct(w, r, cmd, ids);
    NothingToSettle(w, s, cmd, effects, true);
    NothingToSettle(w, s, cmd, effects, false);
    var after := Stamp(s, cmd, effects, env.now);
    RunIsSaved(w, w, r, after, cmd, ids);
    RunIsSaved(w, Credit(w, "hero", NOTHING), r, after, cmd, ids);
    FoundAlone(w, r, ids);
  }

  lemma FoundAlone(w: World, r: Run, ids: set<string>)
    requires Holds(w, r, ids)
    ensures FindRun(w, "run") == Some(r)
  {
  }

  lemma CommandTakes(w: World, r: Run, s: Run, cmd: Command, env: Env, effects: Effects, ids: set<string>)
    requires Holds(w, r, ids) && Alone(r) && Alone(s) && s.version == r.version
    requires cmd.player == "player" && cmd.actor == "hero" && cmd.run == "run" && cmd.version == r.version
    requires cmd.action.Combat? || cmd.action.AdvanceFloor?
    requires !Blank(cmd.id) && |cmd.id| <= 128 && cmd.id !in ids && env.order == []
    requires Act(r, cmd, env) == Success(Acted(s, effects, None)) && effects.gains == [] && effects.spent == []
    ensures Holds(RunCommand(w, cmd, env, Committed).0, Stamp(s, cmd, effects, env.now), ids + {cmd.id})
    ensures Execute(w, cmd, env, Committed, Timer(0, false), Committed).0 == RunCommand(w, cmd, env, Committed).0
  {
    FreshTakes(w, r, s, cmd, env, effects, ids);
    hide FreshCommand, Blank, Act, Alone, Stamp;
  }

  lemma OneRow(p: Recipient)
    ensures RowsOf("run", map["hero" := p]) == map[RowKey("run", "hero") := p]
  {
    RowsOfIs("run", map["hero" := p]);
  }

  lemma PartyIsEnrolled(w: World)
    requires w == World(PLAYERS, map["run" := Header(0, None, None)], map[], map[], map[], map[], [], {})
    ensures var v := EnrollRun(w, Admitted(NOW));
      && v.rows == map[RowKey("run", "hero") := NewRecipient("player")] && v.enrolled == map["hero" := "run"]
      && v == w.(rows := v.rows, enrolled := v.enrolled)
  {
    OneRow(NewRecipient("player"));
    hide RowsOf, NewRecipient;
    assert (map id: Id | id in ["hero"] :: "run") == map["hero" := "run"];
  }

  lemma PartyIsNew(w: World)
    requires w.players == PLAYERS && w.enrolled == map[]
    ensures EntryRefusal(PARTY).None? && !SomeMissing(w, ["hero"]) && !SomeEnrolled(w, ["hero"]) && NewRun(w, PARTY, STAGE, ENTRY.entry) == Admitted(NOW)
  {
    assert NewRecipients(w, ["hero"]) == map["hero" := NewRecipient("player")];
  }

  const LOBBY := World(PLAYERS, map["run" := Header(0, None, None)], map[], map[], map[], map[], [], {})

  lemma PartyIsStored(u: World)
    requires u == LOBBY.(rows := u.rows, enrolled := u.enrolled)
    ensures SaveRun(u, Admitted(NOW), 0) == Success(u.(headers := map["run" := Header(1, Some(PARTY), Some(Admitted(NOW)))]))
  {
    assert u.headers["run" := Header(1, Some(PARTY), Some(Admitted(NOW)))] == map["run" := Header(1, Some(PARTY), Some(Admitted(NOW)))];
  }

  lemma PartyIsFresh()
    ensures EntryRefusal(PARTY).None?
    ensures var entered := FreshEntry(LOBBY, PARTY, EnrollCommand("player", PARTY), ENTRY.entry);
      entered.Success? && Holds(entered.value.0, Admitted(NOW), {"enroll"})
  {
    PartyIsNew(LOBBY);
    PartyIsEnrolled(LOBBY);
    PartyIsStored(EnrollRun(LOBBY, Admitted(NOW)));
    hide EnrollRun, NewRun, EntryRefusal, NewRecipient, SaveRun, SomeMissing, SomeEnrolled, RecipientOf;
  }

  lemma PartyIsAdmitted()
    ensures Holds(After(PLAYERS, [ENTRY]), Admitted(NOW), {"enroll"})
  {
    PartyIsFresh();
    hide FreshEntry, EntryRefusal, Holds;
    var start := World(PLAYERS, map[], map[], map[], map[], map[], [], {});
    assert WithHeader(start, "run") == LOBBY;
    assert After(PLAYERS, [ENTRY]) == Happen(start, ENTRY) by {
      assert [ENTRY][..0] == [];
    }
  }

  lemma {:induction false} OneMoreStep(r: Run, steps: seq<Step>, step: Step)
    requires Play(r, "hero", steps, NOW).Success?
    ensures var (s, t) := Play(r, "hero", steps, NOW).value;
      Play(r, "hero", steps + [step], NOW) == PlayStep(s, t, "hero", step, NOW)
  {
    hide PlayStep;
    assert (steps + [step])[..|steps|] == steps;
  }

  const WAY := [CALL_BOSS, LEAVE_BOSS, KILL_IMP, RETURN]

  lemma WayIsPlayed()
    ensures Play(Admitted(NOW), "hero", WAY, NOW).Success? && Play(Admitted(NOW), "hero", WAY, NOW).value.0 == Back(NOW)
  {
    hide PlayStep, Moved;
    var r := Admitted(NOW);
    var none: seq<Step> := [];
    BossIsCalled(NOW, Moved(r));
    OneMoreStep(r, none, CALL_BOSS);
    assert none + [CALL_BOSS] == [CALL_BOSS];
    BossIsLeft(NOW, Play(r, "hero", [CALL_BOSS], NOW).value.1);
    OneMoreStep(r, [CALL_BOSS], LEAVE_BOSS);
    assert [CALL_BOSS] + [LEAVE_BOSS] == [CALL_BOSS, LEAVE_BOSS];
    var t := Play(r, "hero", [CALL_BOSS, LEAVE_BOSS], NOW).value.1;
    HeroReturns(NOW, t);
    OneMoreStep(r, [CALL_BOSS, LEAVE_BOSS], KILL_IMP);
    assert [CALL_BOSS, LEAVE_BOSS] + [KILL_IMP] == [CALL_BOSS, LEAVE_BOSS, KILL_IMP];
    FightKeepsTransition(t);
    OneMoreStep(r, [CALL_BOSS, LEAVE_BOSS, KILL_IMP], RETURN);
    assert [CALL_BOSS, LEAVE_BOSS, KILL_IMP] + [RETURN] == WAY;
  }

  lemma FightKeepsTransition(t: Transition)
    ensures PlayStep(Left(NOW), t, "hero", KILL_IMP, NOW).Success? && PlayStep(Left(NOW), t, "hero", KILL_IMP, NOW).value.1 == t
  {
  }

  lemma TravelIsPlayed()
    ensures Act(Admitted(NOW), TRAVEL.command, TRAVEL.env) == Success(Acted(Back(NOW), UNNOTICED, None))
  {
    hide Play;
    WayIsPlayed();
    assert CreditDefeats(Back(NOW), []) == Back(NOW);
    assert RejoinMembers(Back(NOW), "hero", []) == Success(Back(NOW));
  }

  lemma TravelTakes(w: World)
    requires Holds(w, Admitted(NOW), {"enroll"})
    ensures Holds(Happen(w, TRAVEL), Back(NOW).(version := 2), {"enroll", "first"})
  {
    hide Act, RunCommand, Holds;
    TravelIsPlayed();
    assert "first"[0] in "first";
    CommandTakes(w, Admitted(NOW), Back(NOW), TRAVEL.command, TRAVEL.env, UNNOTICED, {"enroll"});
    assert {"enroll"} + {"first"} == {"enroll", "first"};
    assert Stamp(Back(NOW), TRAVEL.command, UNNOTICED, NOW) == Back(NOW).(version := 2);
  }

  function Ended(): Run {
    Cleared(NOW).(version := 3, lastActions := map["hero" := NOW])
  }

  lemma ClimbTakes(w: World)
    requires Holds(w, Back(NOW).(version := 2), {"enroll", "first"})
    ensures Holds(Happen(w, CLIMB), Ended(), {"enroll", "first", "second"})
  {
    hide Advance, RunCommand, Holds;
    var r, s := Back(NOW).(version := 2), Cleared(NOW).(version := 2);
    RoomIsEntered(NOW, 2);
    assert Act(r, CLIMB.command, CLIMB.env) == Success(Acted(s, QUIET, None));
    assert "second"[0] in "second";
    CommandTakes(w, r, s, CLIMB.command, CLIMB.env, QUIET, {"enroll", "first"});
    assert {"enroll", "first"} + {"second"} == {"enroll", "first", "second"};
    assert s.lastActions["hero" := NOW] == map["hero" := NOW];
    assert Stamp(s, CLIMB.command, QUIET, NOW) == Ended();
  }

  /** Leaving for floor 9 sets the boss aside as it stands. */
  predicate LeftAlive(t: Transition) {
    var done := PlayStep(Called(NOW), t, "hero", LEAVE_BOSS, NOW);
    done.Success? && done.value.1.olds == [BOSS]
  }

  lemma PrefixesAre()
    ensures HISTORY[..0] == [] && HISTORY[..1] == [ENTRY] && HISTORY[..2] == [ENTRY, TRAVEL] && HISTORY[..3] == HISTORY
    ensures [ENTRY, TRAVEL][..1] == [ENTRY]
  {
  }

  /**
   A party of one is admitted, calls up the boss of floor 10, leaves it alive for floor 9, comes back and climbs:
   the run is cleared, no boss was ever credited, no floor counts as cleared, and the boss has all its health.
   */
  lemma BossIsSkipped()
    ensures AllFaithful(PLAYERS, HISTORY)
    ensures FindRun(After(PLAYERS, HISTORY), "run") == Some(Ended())
    ensures Ended().stageCleared && Ended().trail == Trail([10, 9], [], [true]) && Ended().floorsCleared == 0
    ensures !BossWasCredited(PLAYERS, HISTORY, "run") && PendingWasTurned(PLAYERS, HISTORY, "run")
    ensures BOSS.hp > 0 && forall t :: LeftAlive(t)
  {
    hide Happen, Holds, BossWasCredited, PendingWasTurned, PlayStep;
    PrefixesAre();
    PartyIsAdmitted();
    var w1, w2 := After(PLAYERS, [ENTRY]), After(PLAYERS, [ENTRY, TRAVEL]);
    TravelTakes(w1);
    ClimbTakes(w2);
    NothingIsRetained(w1, Admitted(NOW), {"enroll"});
    NothingIsRetained(w2, Back(NOW).(version := 2), {"enroll", "first"});
    HoldsTheRun(After(PLAYERS, HISTORY), Ended(), {"enroll", "first", "second"});
    forall t ensures LeftAlive(t) {
      BossIsLeft(NOW, t);
    }
    ClearHappened(PLAYERS, HISTORY, "run");
  }

  lemma HoldsTheRun(w: World, r: Run, ids: set<string>)
    requires Holds(w, r, ids)
    ensures FindRun(w, "run") == Some(r)
  {
  }
}

/** How a run comes to be cleared: step by step, over histories, and a run that is cleared past a living boss. */
module RunClears {
  import opened Common
  import opened RunTypes
  import opened RunEarnings
  import opened RunProgress
  import opened RunNpc
  import opened RunTravel
  import opened RunOrder
  import opened RunWorld
  import opened RunCommands
  import opened RunInvariants
  import opened RunTransactions
  import opened RunSteps
  import opened RunCommits
  import opened RunRuns
  import opened RunTheorems

  // ---------- one operation ----------

  lemma TreasureClearsIff(r: Run, boxes: seq<Box>)
    requires CreateTreasure(r, boxes).Success?
    ensures var s := CreateTreasure(r, boxes).value;
      && s.stageCleared == (r.stageCleared || r.clearPending)
      && s.trail == r.trail.(rooms := r.trail.rooms + [r.clearPending])
  {
    hide Converted;
  }

  lemma CreateClearsIff(r: Run, actor: Id, draw: Draw)
    requires Create(r, actor, draw).Success?
    ensures var s := Create(r, actor, draw).value;
      && (s.stageCleared <==> r.stageCleared || (r.floor == TREASURE_FLOOR && r.clearPending))
      && s.trail == if r.floor == TREASURE_FLOOR then r.trail.(rooms := r.trail.rooms + [r.clearPending])
                    else r.trail.(created := r.trail.created + [r.floor])
  {
    hide CreateEncounter, CreateTreasure;
    if r.floor == TREASURE_FLOOR {
      TreasureClearsIff(r, draw.boxes);
    } else {
      EncounterMarks(r, actor, draw);
    }
  }

  /** An advance clears exactly from the boss floor with the clear pending. */
  lemma AdvanceClearsIff(r: Run, actor: Id, draw: Draw)
    requires Advance(r, actor, draw).Success?
    ensures var s := Advance(r, actor, draw).value;
      && (s.stageCleared <==> r.stageCleared || (r.floor == BOSS_FLOOR && r.clearPending))
      && s.trail == if r.floor == BOSS_FLOOR then r.trail.(rooms := r.trail.rooms + [r.clearPending])
                    else r.trail.(created := r.trail.created + [r.floor + 1])
  {
    hide Create, AdvanceGuard, WithoutActors, Named, PartySize;
    var up := MarkEXOnAdvance(Discard(r.(actors := draw.prepared.value)), actor);
    CreateClearsIff(up.(floor := up.floor + 1), actor, draw);
  }

  lemma ReplaceClearsIff(r: Run, actor: Id, floor: int, draw: Draw)
    requires Replace(r, actor, floor, draw).Success?
    ensures var s := Replace(r, actor, floor, draw).value.0;
      && (s.stageCleared <==> r.stageCleared || (floor == TREASURE_FLOOR && r.clearPending))
      && s.trail == if floor == TREASURE_FLOOR then r.trail.(rooms := r.trail.rooms + [r.clearPending])
                    else r.trail.(created := r.trail.created + [floor])
  {
    hide Create, WithoutActors, Named, Olds, Renamed, OldTimes;
    var named := if draw.spawned.None? then None else Some(Renamed(draw.spawned.value, Olds(r, r.enemies).value));
    CreateClearsIff(Discard(r).(floor := floor), actor, draw.(spawned := named));
  }

  /** No tool clears, wherever it leads: a replacement only reaches floors 1 to 10. */
  lemma TravelClearsNothing(r: Run, actor: Id, tool: Id, input: Input, supply: Supply)
    requires Travel(r, actor, tool, input, supply).Success?
    ensures var s := Travel(r, actor, tool, input, supply).value.0;
      && s.stageCleared == r.stageCleared
      && s.trail == if tool == "item-150" then r.trail.(created := r.trail.created + [input.floor]) else r.trail
  {
    hide Replace;
    if tool == "item-150" {
      ReplaceClearsIff(r.(actors := supply.reset.value.actors), actor, input.floor, supply.draw);
    }
  }

  /** A recreated room clears exactly when it is the treasure room and the clear is pending. */
  lemma RoomClearsIff(r: Run, actor: Id, entry: Id, supply: Supply)
    requires Room(r, actor, entry, supply).Success?
    ensures var s := Room(r, actor, entry, supply).value.0;
      && (s.stageCleared <==> r.stageCleared || TurnsRoom(r, entry))
      && s.trail == if entry != DEEPER_ROOM && r.floor == TREASURE_FLOOR then r.trail.(rooms := r.trail.rooms + [r.clearPending])
                    else r.trail.(created := r.trail.created + [if entry == DEEPER_ROOM then r.floor + 1 else r.floor])
  {
    hide Replace;
    var deeper := entry == DEEPER_ROOM;
    var before := if deeper then r.(actors := supply.reset.value.actors) else r;
    ReplaceClearsIff(before, actor, if deeper then r.floor + 1 else r.floor, supply.draw);
  }

  predicate TurnsRoom(r: Run, entry: Id) {
    entry != DEEPER_ROOM && r.floor == TREASURE_FLOOR && r.clearPending
  }

  /** A credited encounter clears exactly with floor-10 provenance. */
  lemma CreditClearsIff(r: Run)
    requires CreditEncounter(r).Success?
    ensures var s := CreditEncounter(r).value;
      && (s.stageCleared <==> r.stageCleared || r.encounterFloor == BOSS_FLOOR)
      && s.trail == r.trail.(credited := r.trail.credited + [r.encounterFloor])
  {
    hide LivingEnemies;
  }

  /** A credited encounter raises cleared floors to its own floor, wherever the party stands, and never lowers them. */
  lemma CreditRaisesFloors(r: Run)
    requires CreditEncounter(r).Success?
    ensures var s := CreditEncounter(r).value;
      && s.floorsCleared >= r.floorsCleared && s.floorsCleared >= r.encounterFloor && s.floorsCleared in {r.floorsCleared, r.encounterFloor}
      && s == r.(floorsCleared := s.floorsCleared, stageCleared := s.stageCleared, trail := s.trail)
  {
    hide LivingEnemies;
  }

  /** An encounter is credited exactly when nothing guards the floor any more and it is one of floors 1 to 10 or 12. */
  lemma CreditedIff(r: Run)
    ensures CreditEncounter(r).Success? <==>
      && (forall b :: b in r.boxes ==> b.openedBy != NOBODY)
      && (forall id :: id in r.enemies ==> ActorAt(r.actors, id).None? || ActorAt(r.actors, id).value.hp <= 0)
      && (1 <= r.encounterFloor <= BOSS_FLOOR || r.encounterFloor == EX_FLOOR)
  {
    if LivingEnemies(r) && !HasUnopenedBox(r) {
      var id :| id in r.enemies && Stands(r, id);
    }
  }

  lemma AnswerClearsNothing(r: Run, t: Transition, after: seq<Actor>, now: Time)
    ensures var (s, npc) := BeginResponse(r, t, now);
      && s.stageCleared == r.stageCleared && s.trail == r.trail
      && var done := RecordResponse(s.(actors := after), npc, now);
      done.Success? ==> done.value.stageCleared == r.stageCleared && done.value.trail == r.trail
  {
    hide Responders, FirstResponder, ActorIds, ResponderTime, NextNPC, Rotate, ActorAt, Discard;
    assert Discard(r).stageCleared == r.stageCleared && Discard(r).trail == r.trail by { DiscardKeepsMarks(r); }
  }

  lemma DiscardKeepsMarks(r: Run)
    ensures Discard(r).stageCleared == r.stageCleared && Discard(r).trail == r.trail
  {
  }

  /** Of everything that happens inside a combat command only a recreated treasure room can clear. */
  lemma PlayStepClearsIff(r: Run, t: Transition, actor: Id, step: Step, now: Time)
    requires PlayStep(r, t, actor, step, now).Success?
    ensures var s := PlayStep(r, t, actor, step, now).value.0;
      && (s.stageCleared <==> r.stageCleared || (step.UseRoom? && TurnsRoom(r, step.entry)))
      && (true in s.trail.rooms <==> true in r.trail.rooms || (step.UseRoom? && TurnsRoom(r, step.entry)))
      && s.trail.credited == r.trail.credited
  {
    hide Travel, Room, BeginResponse, RecordResponse;
    match step
    case Fight(_, _, _) =>
    case UseTool(tool, input, supply) =>
      TravelClearsNothing(r, actor, tool, input, supply);
    case UseRoom(entry, supply) =>
      RoomClearsIff(r, actor, entry, supply);
    case Answer(after) => AnswerClearsNothing(r, t, after, now);
  }

  /** Somewhere in the script the treasure room is recreated with the clear pending. */
  predicate SomeRoomTurns(r: Run, actor: Id, steps: seq<Step>, now: Time) {
    exists k :: 0 <= k < |steps| && RoomTurnsAt(r, actor, steps, now, k)
  }

  predicate RoomTurnsAt(r: Run, actor: Id, steps: seq<Step>, now: Time, k: nat)
    requires k < |steps|
  {
    var before := Play(r, actor, steps[..k], now);
    steps[k].UseRoom? && before.Success? && TurnsRoom(before.value.0, steps[k].entry)
  }

  lemma {:induction false} PlayClearsIff(r: Run, actor: Id, steps: seq<Step>, now: Time)
    requires Play(r, actor, steps, now).Success?
    ensures var s := Play(r, actor, steps, now).value.0;
      && (s.stageCleared <==> r.stageCleared || SomeRoomTurns(r, actor, steps, now))
      && (true in s.trail.rooms <==> true in r.trail.rooms || SomeRoomTurns(r, actor, steps, now))
      && s.trail.credited == r.trail.credited
    decreases |steps|
  {
    hide PlayStep, TurnsRoom;
    if steps != [] {
      var n := |steps| - 1;
      PlayClearsIff(r, actor, steps[..n], now);
      var (s, t) := Play(r, actor, steps[..n], now).value;
      PlayStepClearsIff(s, t, actor, steps[n], now);
      forall k | 0 <= k < n ensures RoomTurnsAt(r, actor, steps, now, k) == RoomTurnsAt(r, actor, steps[..n], now, k) {
        assert steps[..n][..k] == steps[..k];
      }
      assert RoomTurnsAt(r, actor, steps, now, n) == (steps[n].UseRoom? && TurnsRoom(s, steps[n].entry));
    }
  }

  // ---------- one command ----------

  /** The run as it stands when a combat command's encounter is credited. */
  function Fought(r: Run, actor: Id, env: Env): Run {
    var played := Play(r, actor, env.script, env.now);
    if played.Success? then played.value.0 else r
  }

  /** The command's fight ends with an encounter of floor 10 credited as defeated. */
  predicate CreditsBoss(r: Run, cmd: Command, env: Env) {
    && Fights(cmd) && env.fought.Success? && env.fought.value.encounterDefeated
    && Fought(r, cmd.actor, env).encounterFloor == BOSS_FLOOR
  }

  /** The command enters the treasure room with the clear pending. */
  predicate TurnsPending(r: Run, cmd: Command, env: Env) {
    || (cmd.action.AdvanceFloor? && r.floor == BOSS_FLOOR && r.clearPending)
    || (Fights(cmd) && SomeRoomTurns(r, cmd.actor, env.script, env.now))
  }

  predicate Fights(cmd: Command) {
    cmd.action.Combat? || cmd.action.Enroll?
  }

  /** How one action moves the clear mark and what it logs of the two ways. */
  ghost predicate Moves(r: Run, s: Run, credits: bool, turns: bool) {
    && (s.stageCleared <==> r.stageCleared || credits || turns)
    && (BOSS_FLOOR in s.trail.credited <==> BOSS_FLOOR in r.trail.credited || credits)
    && (true in s.trail.rooms <==> true in r.trail.rooms || turns)
  }

  /** What chests, departures, settling and saving leave of a run's marks. */
  predicate SameMarks(r: Run, s: Run) {
    s.id == r.id && s.stageCleared == r.stageCleared && s.trail == r.trail
  }

  lemma BattleMoves(r: Run, actor: Id, env: Env)
    requires Battle(r, actor, env).Success?
    ensures env.fought.Success?
    ensures Moves(r, Battle(r, actor, env).value.0,
      env.fought.value.encounterDefeated && Fought(r, actor, env).encounterFloor == BOSS_FLOOR,
      SomeRoomTurns(r, actor, env.script, env.now))
  {
    hide Play, SomeRoomTurns, RejoinMembers, CreditEncounter, TrimSuffixes;
    PlayClearsIff(r, actor, env.script, env.now);
    var marked := CreditDefeats(Fought(r, actor, env), env.fought.value.defeats);
    RejoinOnlyRejoins(marked, actor, env.fought.value.memberOnly);
    var joined := RejoinMembers(marked, actor, env.fought.value.memberOnly).value;
    if env.fought.value.encounterDefeated {
      CreditClearsIff(joined);
    }
  }

  /**
   An accepted action turns a run's clear mark on exactly when it credits an encounter of floor 10, or enters the
   treasure room with the clear pending. Whether a boss is still alive makes no difference to the second.
   */
  lemma ActMoves(r: Run, cmd: Command, env: Env)
    requires Act(r, cmd, env).Success? && !cmd.action.Cleanup?
    ensures Moves(r, Act(r, cmd, env).value.run, CreditsBoss(r, cmd, env), TurnsPending(r, cmd, env))
  {
    hide Advance, Battle, ClaimChest, PrepareExit, SomeRoomTurns, Fought, Cooling;
    match cmd.action
    case AdvanceFloor => AdvanceClearsIff(r, cmd.actor, env.draw);
    case OpenChest => ChestKeepsMarks(r, cmd.actor, cmd.target, env.hasPocket);
    case LeaveRun => ExitKeepsMarks(r, cmd.actor, env.goldDraw);
    case _ => BattleMoves(r, cmd.actor, env);
  }

  lemma ChestKeepsMarks(r: Run, actor: Id, box: Id, hasPocket: bool)
    requires ClaimChest(r, actor, box, hasPocket).Success?
    ensures SameMarks(r, ClaimChest(r, actor, box, hasPocket).value.0)
  {
    hide ActorAt, BoxIndex;
  }

  lemma ExitKeepsMarks(r: Run, actor: Id, goldDraw: nat)
    requires PrepareExit(r, actor, goldDraw).Success?
    ensures SameMarks(r, PrepareExit(r, actor, goldDraw).value)
  {
    hide ActorAt, ExitBonus, Leave;
  }

  // ---------- one call ----------

  lemma {:induction false} RecordKeepsMarks(r: Run, gains: seq<Gain>)
    requires RecordAll(r, gains).Success?
    ensures SameMarks(r, RecordAll(r, gains).value)
    decreases |gains|
  {
    hide Record;
    if gains != [] {
      RecordKeepsMarks(r, gains[..|gains| - 1]);
    }
  }

  lemma SettleKeepsMarks(w: World, a: Run, cmd: Command, effects: Effects, release: bool, order: seq<Id>)
    requires Settle(w, a, cmd, effects, release, order).Success?
    ensures SameMarks(a, Settle(w, a, cmd, effects, release, order).value.1)
  {
    hide RecordAll, Release, Due, FindRetained, SettleRetained, SpendingAllowed, SpendingNamed;
    RecordKeepsMarks(a, effects.gains);
  }

  lemma PlayActionKeepsMarks(w: World, r: Run, cmd: Command, env: Env)
    requires PlayAction(w, r, cmd, env).Success? && Act(r, cmd, env).Success? && Act(r, cmd, env).value.run.id == cmd.run
    ensures var found := FindRun(PlayAction(w, r, cmd, env).value.0, cmd.run);
      found.Some? ==> SameMarks(Act(r, cmd, env).value.run, found.value)
  {
    hide Act, Settle, Save, WithoutActors, Without, FindRun;
    var open := r.mode != Try || cmd.action.LeaveRun?;
    var acted := Act(r, cmd, env).value;
    var release := (open && acted.effects.releaseStock) || cmd.action.LeaveRun?;
    SettleKeepsMarks(w, acted.run, cmd, acted.effects, release, env.order);
    var (paid, run) := Settle(w, acted.run, cmd, acted.effects, release, env.order).value;
    var (left, final) := if cmd.action.LeaveRun? then Depart(paid, run, cmd.actor) else (paid, run);
    SavedRun(left, Stamp(final, cmd, acted.effects, env.now), cmd, acted.box);
  }

  /** The accepted command of an event on a run, if it had one: its version is the next. */
  predicate Accepts(w: World, e: Event, run: Id) {
    && e.Commanded? && e.command.run == run
    && run in w.headers && run in Happen(w, e).headers && Happen(w, e).headers[run].version == w.headers[run].version + 1
  }

  lemma FreshCommandMoves(w: World, cmd: Command, env: Env)
    requires Inv(w) && FindRun(w, cmd.run).Some? && FreshCommand(w, cmd, env).Success?
    ensures var r, found := FindRun(w, cmd.run).value, FindRun(FreshCommand(w, cmd, env).value.0, cmd.run);
      found.Some? ==> Moves(r, found.value, CreditsBoss(r, cmd, env), TurnsPending(r, cmd, env))
  {
    hide Inv, RunOk, Act, Save, PlayAction, Admissible, FindRun, CreditsBoss, TurnsPending, ExpireAll, ExpiryRecords;
    var r := FindRun(w, cmd.run).value;
    LiveFactsAll(w, cmd.run);
    AdmissibleFacts(w, r, cmd);
    if cmd.action.Cleanup? {
      var s := TimeOut(r, env.now);
      SavedRun(w.(history := w.history + ExpiryRecords(r, SortedIds(r.roster))), s.(version := s.version + 1), cmd, None);
      CleanupMovesNothing(r, cmd, env);
    } else {
      PlayedAction(w, r, cmd, env);
      ActKeepsId(r, cmd, env);
      ActMoves(r, cmd, env);
      PlayActionKeepsMarks(w, r, cmd, env);
    }
  }

  lemma CleanupMovesNothing(r: Run, cmd: Command, env: Env)
    requires cmd.action.Cleanup?
    ensures !CreditsBoss(r, cmd, env) && !TurnsPending(r, cmd, env)
  {
  }

  lemma PlayedAction(w: World, r: Run, cmd: Command, env: Env)
    requires PlayAction(w, r, cmd, env).Success?
    ensures Act(r, cmd, env).Success?
  {
    hide Act, Settle, Save;
  }

  lemma RunCommandMoves(w: World, cmd: Command, env: Env, outcome: CommitOutcome)
    requires Inv(w) && FindRun(w, cmd.run).Some?
    ensures var r, v := FindRun(w, cmd.run).value, RunCommand(w, cmd, env, outcome).0;
      && cmd.run in w.headers && cmd.run in v.headers
      && (v.headers[cmd.run].version != w.headers[cmd.run].version + 1 ==> v == w)
      && (v.headers[cmd.run].version == w.headers[cmd.run].version + 1 && FindRun(v, cmd.run).Some? ==>
            Moves(r, FindRun(v, cmd.run).value, CreditsBoss(r, cmd, env), TurnsPending(r, cmd, env)))
  {
    hide Inv, FreshCommand, CommandRefusal, CreditsBoss, TurnsPending, Moves;
    if FreshCommand(w, cmd, env).Success? {
      FreshCommandMoves(w, cmd, env);
      AcceptedOnce(w, cmd, env);
    }
  }

  lemma RecoverKeepsLive(w: World, player: Id, actor: Id, id: Id, timer: Timer, outcome: CommitOutcome)
    requires Inv(w)
    ensures var v := Recover(w, player, actor, id, timer, outcome).0;
      FindRun(v, id).Some? || id !in w.headers || FindRun(w, id).None? ==> v.headers == w.headers
  {
    hide Inv, Authorize, RecoverRefusal, SaveRecipients, Projected, ServedRows;
    if FindRun(w, id).Some? {
      LiveFactsAll(w, id);
    }
  }

  lemma EnterKeepsOld(w: World, player: Id, a: Admission, entry: Entry, outcome: CommitOutcome)
    requires a.generation in w.headers && w.headers[a.generation].version >= 1
    ensures Enter(w, player, a, entry, outcome).0.headers == w.headers
  {
    hide Authorize, EntryRefusal, NewRecipients, SomeMissing, SomeEnrolled, RowsOf;
  }

  /** What an event does to the clear mark of a run that is there before and after. */
  lemma EventMoves(w: World, e: Event, run: Id)
    requires Inv(w) && Faithful(w, e) && FindRun(w, run).Some? && FindRun(Happen(w, e), run).Some?
    ensures Moves(FindRun(w, run).value, FindRun(Happen(w, e), run).value, CreditsAt(w, e, run), TurnsAt(w, e, run))
  {
    hide Inv, Enter, RunCommand, Recover, Progress, CreditsBoss, TurnsPending, Moves;
    EventKeepsInv(w, e);
    LiveFactsAll(w, run);
    if Subject(e) != run {
      OtherRunsStay(w, Happen(w, e), Subject(e), run);
      NothingMoves(FindRun(w, run).value);
    } else {
      match e
      case Entered(player, admission, entry, outcome) =>
        EnterKeepsOld(w, player, admission, entry, outcome);
        NothingMoves(FindRun(w, run).value);
      case Recovering(player, actor, _, timer, outcome) =>
        RecoverKeepsLive(w, player, actor, run, timer, outcome);
        NothingMoves(FindRun(w, run).value);
      case LobbyOpened(_) => NothingMoves(FindRun(w, run).value);
      case Commanded(cmd, env, outcome, timer, recovery) =>
        RunCommandMoves(w, cmd, env, outcome);
        RunCommandKeepsInv(w, cmd, env, outcome);
        RecoverKeepsLive(RunCommand(w, cmd, env, outcome).0, cmd.player, cmd.actor, run, timer, recovery);
        NothingMoves(FindRun(w, run).value);
    }
  }

  predicate CreditsAt(w: World, e: Event, run: Id) {
    FindRun(w, run).Some? && Accepts(w, e, run) && CreditsBoss(FindRun(w, run).value, e.command, e.env)
  }

  predicate TurnsAt(w: World, e: Event, run: Id) {
    FindRun(w, run).Some? && Accepts(w, e, run) && TurnsPending(FindRun(w, run).value, e.command, e.env)
  }

  lemma NothingMoves(r: Run)
    ensures Moves(r, r, false, false)
  {
  }

  lemma OtherRunsStay(w: World, v: World, run: Id, other: Id)
    requires Progress(w, v, run) && other != run
    ensures FindRun(v, other) == FindRun(w, other)
  {
  }

  // ---------- histories ----------

  lemma NoRunNoCommand(w: World, cmd: Command, env: Env, outcome: CommitOutcome)
    requires FindRun(w, cmd.run).None?
    ensures RunCommand(w, cmd, env, outcome).0 == w
  {
    hide CommandRefusal;
  }

  /** A run whose state is gone does not come back. */
  lemma GoneStaysGone(w: World, e: Event, run: Id)
    requires Inv(w) && Faithful(w, e) && FindRun(w, run).None? && run in w.headers && w.headers[run].version >= 1
    ensures FindRun(Happen(w, e), run).None?
  {
    hide Inv, Enter, RunCommand, Recover, Progress;
    EventKeepsInv(w, e);
    if Subject(e) != run {
      OtherRunsStay(w, Happen(w, e), Subject(e), run);
    } else {
      match e
      case Entered(player, admission, entry, outcome) => EnterKeepsOld(w, player, admission, entry, outcome);
      case Recovering(player, actor, _, timer, outcome) => RecoverKeepsLive(w, player, actor, run, timer, outcome);
      case LobbyOpened(_) =>
      case Commanded(cmd, env, outcome, timer, recovery) =>
        NoRunNoCommand(w, cmd, env, outcome);
        RecoverKeepsLive(w, cmd.player, cmd.actor, run, timer, recovery);
    }
  }

  lemma FreshRunIsUnmarked(w: World, a: Admission, cmd: Command, entry: Entry)
    requires EntryRefusal(a).None? && FreshEntry(w, a, cmd, entry).Success?
    ensures var found := FindRun(FreshEntry(w, a, cmd, entry).value.0, a.generation);
      found.Some? ==> !found.value.stageCleared && found.value.trail == NO_TRAIL
  {
    hide EntryRefusal, NewRecipients, SomeMissing, SomeEnrolled, RowsOf, RecipientOf;
  }

  lemma EnterOpensUnmarked(w: World, player: Id, a: Admission, entry: Entry, outcome: CommitOutcome)
    requires FindRun(w, a.generation).None?
    ensures var found := FindRun(Enter(w, player, a, entry, outcome).0, a.generation);
      found.Some? ==> !found.value.stageCleared && found.value.trail == NO_TRAIL
  {
    hide Authorize, EntryRefusal, FreshEntry;
    var cmd := EnrollCommand(player, a);
    if EntryRefusal(a).None? && FreshEntry(WithHeader(w, cmd.run), a, cmd, entry).Success? {
      FreshRunIsUnmarked(WithHeader(w, cmd.run), a, cmd, entry);
    }
  }

  lemma NewRunIsUnmarked(w: World, e: Event, run: Id)
    requires Inv(w) && Faithful(w, e) && FindRun(w, run).None? && FindRun(Happen(w, e), run).Some?
    ensures var r := FindRun(Happen(w, e), run).value; !r.stageCleared && r.trail == NO_TRAIL
  {
    hide Inv, Enter, RunCommand, Recover, Progress;
    EventKeepsInv(w, e);
    if Subject(e) != run {
      OtherRunsStay(w, Happen(w, e), Subject(e), run);
    } else {
      match e
      case Entered(player, admission, entry, outcome) => EnterOpensUnmarked(w, player, admission, entry, outcome);
      case Recovering(player, actor, _, timer, outcome) => RecoverKeepsLive(w, player, actor, run, timer, outcome);
      case LobbyOpened(_) =>
      case Commanded(cmd, env, outcome, timer, recovery) =>
        NoRunNoCommand(w, cmd, env, outcome);
        RecoverKeepsLive(w, cmd.player, cmd.actor, run, timer, recovery);
    }
  }

  predicate CreditedAt(players: map<Id, Id>, events: seq<Event>, run: Id, i: nat)
    requires i < |events|
  {
    CreditsAt(After(players, events[..i]), events[i], run)
  }

  predicate TurnedAt(players: map<Id, Id>, events: seq<Event>, run: Id, i: nat)
    requires i < |events|
  {
    TurnsAt(After(players, events[..i]), events[i], run)
  }

  /** Some command of the history credited a floor-10 encounter of the run. */
  predicate BossWasCredited(players: map<Id, Id>, events: seq<Event>, run: Id) {
    exists i :: 0 <= i < |events| && CreditedAt(players, events, run, i)
  }

  /** Some command of the history entered the run's treasure room with its clear pending. */
  predicate PendingWasTurned(players: map<Id, Id>, events: seq<Event>, run: Id) {
    exists i :: 0 <= i < |events| && TurnedAt(players, events, run, i)
  }

  lemma HistorySplits(players: map<Id, Id>, events: seq<Event>, run: Id)
    requires events != []
    ensures var n := |events| - 1;
      && (BossWasCredited(players, events, run) <==>
            BossWasCredited(players, events[..n], run) || CreditsAt(After(players, events[..n]), events[n], run))
      && (PendingWasTurned(players, events, run) <==>
            PendingWasTurned(players, events[..n], run) || TurnsAt(After(players, events[..n]), events[n], run))
  {
    hide CreditsAt, TurnsAt, After;
    var n := |events| - 1;
    forall i | 0 <= i < n
      ensures CreditedAt(players, events, run, i) == CreditedAt(players, events[..n], run, i)
      ensures TurnedAt(players, events, run, i) == TurnedAt(players, events[..n], run, i)
    {
      assert events[..n][..i] == events[..i];
    }
    assert CreditedAt(players, events, run, n) == CreditsAt(After(players, events[..n]), events[n], run);
    assert TurnedAt(players, events, run, n) == TurnsAt(After(players, events[..n]), events[n], run);
  }

  /** Once a run was there its header keeps a version, so it cannot be opened a second time. */
  lemma OnceThereAlwaysVersioned(players: map<Id, Id>, events: seq<Event>, run: Id, i: nat)
    requires AllFaithful(players, events) && i < |events| && FindRun(After(players, events[..i]), run).Some?
    ensures var w := After(players, events); run in w.headers && w.headers[run].version >= 1
  {
    hide After, Inv, AllFaithful, RunOk;
    var u, w := After(players, events[..i]), After(players, events);
    FaithfulPrefix(players, events, i);
    ReachableInv(players, events[..i]);
    ReachableInv(players, events);
    var key := RowKey(run, FindRun(u, run).value.leader);
    LeaderHasRow(u, run);
    EndsAreFinal(players, events, i, key);
    RowHasHeader(w, key);
  }

  lemma FaithfulPrefix(players: map<Id, Id>, events: seq<Event>, n: nat)
    requires AllFaithful(players, events) && n <= |events|
    ensures AllFaithful(players, events[..n])
  {
    hide After, Faithful;
    forall i | 0 <= i < n ensures Faithful(After(players, events[..n][..i]), events[..n][i]) {
      assert events[..n][..i] == events[..i];
    }
  }

  lemma LeaderHasRow(w: World, run: Id)
    requires Inv(w) && FindRun(w, run).Some?
    ensures RowKey(run, FindRun(w, run).value.leader) in w.rows
  {
    hide Inv, Honest, AllBalanced;
    InvParts(w);
    LiveFactsAll(w, run);
    LiveRow(w, run, FindRun(w, run).value.leader);
  }

  lemma RowHasHeader(w: World, key: RowKey)
    requires Inv(w) && key in w.rows
    ensures key.run in w.headers && w.headers[key.run].version >= 1
  {
    hide HeadersOk, EnrolmentsOk, ReceiptsOk, HistoryOk, TimerOk, CreditsOk, Balanced;
  }

  lemma NothingBefore(players: map<Id, Id>, events: seq<Event>, e: Event, run: Id)
    requires AllFaithful(players, events) && Faithful(After(players, events), e)
    requires FindRun(After(players, events), run).None? && FindRun(Happen(After(players, events), e), run).Some?
    ensures !BossWasCredited(players, events, run) && !PendingWasTurned(players, events, run)
  {
    hide After, Inv, Happen, CreditsBoss, TurnsPending, Accepts, AllFaithful;
    ReachableInv(players, events);
    forall i | 0 <= i < |events| ensures !CreditedAt(players, events, run, i) && !TurnedAt(players, events, run, i) {
      if FindRun(After(players, events[..i]), run).Some? {
        OnceThereAlwaysVersioned(players, events, run, i);
        GoneStaysGone(After(players, events), e, run);
      }
    }
  }

  /**
   After any history a live run is cleared exactly when some command credited a floor-10 encounter of it, or some
   command entered its treasure room with the clear pending; its trail tells which.
   */
  lemma {:induction false} ClearHappened(players: map<Id, Id>, events: seq<Event>, run: Id)
    requires AllFaithful(players, events) && FindRun(After(players, events), run).Some?
    ensures var r := FindRun(After(players, events), run).value;
      && (r.stageCleared <==> BossWasCredited(players, events, run) || PendingWasTurned(players, events, run))
      && (BOSS_FLOOR in r.trail.credited <==> BossWasCredited(players, events, run))
      && (true in r.trail.rooms <==> PendingWasTurned(players, events, run))
    decreases |events|
  {
    hide Inv, Happen, CreditsAt, TurnsAt, AllFaithful, BossWasCredited, PendingWasTurned, Faithful;
    var n := |events| - 1;
    FaithfulPrefix(players, events, n);
    ReachableInv(players, events[..n]);
    var w := After(players, events[..n]);
    LastIsFaithful(players, events);
    HistorySplits(players, events, run);
    if FindRun(w, run).Some? {
      ClearHappened(players, events[..n], run);
      EventMoves(w, events[n], run);
    } else {
      NewRunIsUnmarked(w, events[n], run);
      NothingBefore(players, events[..n], events[n], run);
      NoRunNoMoves(w, events[n], run);
    }
  }

  lemma NoRunNoMoves(w: World, e: Event, run: Id)
    requires FindRun(w, run).None?
    ensures !CreditsAt(w, e, run) && !TurnsAt(w, e, run)
  {
  }

  lemma LastIsFaithful(players: map<Id, Id>, events: seq<Event>)
    requires AllFaithful(players, events) && events != []
    ensures Faithful(After(players, events[..|events| - 1]), events[|events| - 1])
  {
    hide After, Faithful;
  }

  /** A live run is cleared without its boss ever credited exactly when the room was entered pending and it never was. */
  lemma ClearedWithoutBossIff(players: map<Id, Id>, events: seq<Event>, run: Id)
    requires AllFaithful(players, events) && FindRun(After(players, events), run).Some?
    ensures (FindRun(After(players, events), run).value.stageCleared && !BossWasCredited(players, events, run)) <==>
      (PendingWasTurned(players, events, run) && !BossWasCredited(players, events, run))
  {
    hide After, AllFaithful, BossWasCredited, PendingWasTurned;
    ClearHappened(players, events, run);
  }
}

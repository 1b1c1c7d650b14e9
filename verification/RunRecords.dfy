/** What admissions, commands, departures, cleanups and recoveries write to the tables, and when they are taken up. */
module RunRecords {
  import opened Common
  import opened RunTypes
  import opened RunEarnings
  import opened RunProgress
  import opened RunTravel
  import opened RunOrder
  import opened RunWorld
  import opened RunCommands
  import opened RunInvariants
  import opened RunSteps
  import opened RunTransactions
  import opened RunPayments
  import opened RunCommits
  import opened RunRuns
  import opened RunEntries
  import opened RunStock
  import opened RunGates

  // ---------- which calls are taken up ----------

  /** The player named owns the character named. */
  predicate IsOwner(w: World, player: Id, actor: Id) {
    player != NOBODY && actor != NOBODY && actor in w.players && w.players[actor] == player
  }

  predicate IsSpace(c: char) {
    c in {' ', '\t', '\n', '\U{000B}', '\U{000C}', '\r'}
  }

  lemma BlankIff(s: string)
    ensures Blank(s) <==> forall c :: c in s ==> IsSpace(c)
  {
    forall c | c in s ensures IsSpace(c) <==> c == ' ' || '\t' <= c <= '\r' {
    }
    hide IsSpace;
  }

  /** A command is taken up for the owner of its actor, under an identifier of at most 128 characters that is not blank, on a named run, unless it asks for an admission. */
  lemma TakenUpIff(w: World, cmd: Command)
    ensures CommandRefusal(w, cmd).None? <==>
      && IsOwner(w, cmd.player, cmd.actor) && cmd.run != NOBODY && !cmd.action.Enroll?
      && |cmd.id| <= 128 && exists c :: c in cmd.id && !IsSpace(c)
  {
    BlankIff(cmd.id);
    hide Blank, IsSpace;
  }

  // ---------- receipts ----------

  lemma SavedReceipt(u: World, s: Run, cmd: Command, box: Option<Box>)
    requires Save(u, s, cmd, box).Success? && cmd.run == s.id && cmd.actor in s.recipients
    ensures var (v, receipt) := Save(u, s, cmd, box).value;
      && receipt == Receipt(cmd, s.version, s.floor, s.stage.id, box, s.recipients[cmd.actor]) && s.version == cmd.version + 1
      && RowKey(cmd.run, cmd.actor) in v.rows && v.rows[RowKey(cmd.run, cmd.actor)] == s.recipients[cmd.actor]
      && ReceiptKey(cmd.run, cmd.id) !in u.receipts && v.receipts == u.receipts[ReceiptKey(cmd.run, cmd.id) := receipt]
      && v.history == u.history
  {
    RowsOfIs(s.id, s.recipients);
    hide RowsOf;
  }

  /** The receipt of an accepted command tells what is stored: its version and place, the box it opened and the actor's row. */
  ghost predicate Tells(w: World, v: World, cmd: Command, receipt: Receipt) {
    && receipt.command == cmd && receipt.version == cmd.version + 1 && (receipt.box.Some? <==> cmd.action.OpenChest?)
    && ReceiptKey(cmd.run, cmd.id) !in w.receipts && v.receipts == w.receipts[ReceiptKey(cmd.run, cmd.id) := receipt]
    && RowKey(cmd.run, cmd.actor) in v.rows && v.rows[RowKey(cmd.run, cmd.actor)] == receipt.recipient
    && (FindRun(v, cmd.run).Some? ==>
          var s := FindRun(v, cmd.run).value; s.version == receipt.version && s.floor == receipt.floor && s.stage.id == receipt.stage)
  }

  lemma SaveTells(w: World, u: World, s: Run, cmd: Command, box: Option<Box>)
    requires Save(u, s, cmd, box).Success? && cmd.run == s.id && cmd.actor in s.recipients && u.receipts == w.receipts
    requires box.Some? <==> cmd.action.OpenChest?
    ensures Tells(w, Save(u, s, cmd, box).value.0, cmd, Save(u, s, cmd, box).value.1)
    ensures Save(u, s, cmd, box).value.0.history == u.history
  {
    SavedReceipt(u, s, cmd, box);
    SavedRun(u, s, cmd, box);
    hide Save;
  }

  lemma {:induction false} SettlingKeepsRecords(w: World, actor: Id, retained: seq<Retained>)
    requires SettleRetained(w, actor, retained).Success?
    ensures var v := SettleRetained(w, actor, retained).value; v.receipts == w.receipts && v.history == w.history
    decreases |retained|
  {
    hide Release;
    if retained != [] {
      SettlingKeepsRecords(w, actor, retained[..|retained| - 1]);
    }
  }

  lemma PayingKeepsRecords(w: World, r: Run, actor: Id, order: seq<Id>)
    requires PayActor(w, r, actor, order).Success?
    ensures var (u, c) := PayActor(w, r, actor, order).value;
      && u.receipts == w.receipts && u.history == w.history && c == r.(recipients := c.recipients) && actor in c.recipients
  {
    hide FindRetained, SettleRetained, Due, Release;
    var retained := FindRetained(w, actor, order);
    var due := Due(RecipientOf(r.recipients, actor).pending, retained).value;
    SettlingKeepsRecords(Credit(w, actor, due), actor, retained);
  }

  lemma SettleKeepsRecords(w: World, a: Run, cmd: Command, effects: Effects, release: bool, order: seq<Id>)
    requires cmd.actor in a.recipients && Settle(w, a, cmd, effects, release, order).Success?
    ensures var (u, c) := Settle(w, a, cmd, effects, release, order).value;
      && u.receipts == w.receipts && u.history == w.history && c == a.(recipients := c.recipients) && cmd.actor in c.recipients
  {
    hide RecordAll, PayActor, SpendingAllowed, SpendingNamed;
    RecordKeepsClock(a, effects.gains);
    RecordAllFills(a, effects.gains, cmd.actor);
    var b := RecordAll(a, effects.gains).value;
    if release {
      PayingKeepsRecords(w, b, cmd.actor, order);
    }
  }

  lemma ActingBox(r: Run, cmd: Command, env: Env)
    requires Act(r, cmd, env).Success?
    ensures Act(r, cmd, env).value.box.Some? <==> cmd.action.OpenChest?
  {
    hide Advance, ClaimChest, PrepareExit, Battle, Cooling;
  }

  lemma ContinuingTells(w: World, r: Run, cmd: Command, env: Env)
    requires Inv(w) && FindRun(w, cmd.run) == Some(r) && Admissible(w, r, cmd).None?
    requires !cmd.action.LeaveRun? && PlayAction(w, r, cmd, env).Success?
    ensures var (v, receipt) := PlayAction(w, r, cmd, env).value; Tells(w, v, cmd, receipt) && v.history == w.history
  {
    hide Inv, RunOk, Act, Settle, Save, Carried, StockMoves, Admissible, Playable, Tells, Ledgered;
    LiveFactsAll(w, cmd.run);
    AdmissibleFacts(w, r, cmd);
    OkPlayable(r);
    RunIsLedgered(w, cmd.run);
    MemberHasRow(r, cmd.actor);
    ActMovesStock(r, cmd, env);
    ActCarries(r, cmd, env);
    ActingBox(r, cmd, env);
    var acted := Act(r, cmd, env).value;
    CarriedClock(r, acted.run);
    MovedKeys(r, acted.run);
    var release := r.mode != Try && acted.effects.releaseStock;
    SettleKeepsRecords(w, acted.run, cmd, acted.effects, release, env.order);
    var (u, c) := Settle(w, acted.run, cmd, acted.effects, release, env.order).value;
    SaveTells(w, u, Stamp(c, cmd, acted.effects, env.now), cmd, acted.box);
  }

  lemma LeavingTells(w: World, r: Run, cmd: Command, env: Env)
    requires Inv(w) && FindRun(w, cmd.run) == Some(r) && cmd.action.LeaveRun? && PlayAction(w, r, cmd, env).Success?
    ensures var (v, receipt) := PlayAction(w, r, cmd, env).value;
      && Tells(w, v, cmd, receipt)
      && v.history == w.history + [Adventure(cmd.run, cmd.actor, Exited, r.stageCleared, r.floorsCleared, r.trail)]
  {
    hide Inv, RunOk, Save, Tells, PayActor, Leave, ExitBonus, ActorAt, Without, WithoutActors;
    LiveFactsAll(w, cmd.run);
    var a := PrepareExit(r, cmd.actor, env.goldDraw).value;
    assert Act(r, cmd, env) == Success(Acted(a, QUIET, None));
    var (u, c) := PayActor(w, a, cmd.actor, env.order).value;
    assert Settle(w, a, cmd, QUIET, true, env.order) == Success((u, c));
    PayingKeepsRecords(w, a, cmd.actor, env.order);
    var (left, final) := Depart(u, c, cmd.actor);
    SaveTells(w, left, Stamp(final, cmd, QUIET, env.now), cmd, None);
  }

  /** One entry for everybody on the roster, in order, with what the run has cleared. */
  ghost predicate TimedOutEntries(r: Run, ids: seq<Id>, entries: seq<Adventure>) {
    |entries| == |ids| && forall k :: 0 <= k < |ids| ==> entries[k] == Adventure(r.id, ids[k], TimedOut, r.stageCleared, r.floorsCleared, r.trail)
  }

  lemma {:induction false} ExpiryRecordsAre(r: Run, ids: seq<Id>)
    ensures TimedOutEntries(r, ids, ExpiryRecords(r, ids))
    decreases |ids|
  {
    if ids != [] {
      ExpiryRecordsAre(r, ids[..|ids| - 1]);
    }
  }

  lemma CleaningTells(w: World, r: Run, cmd: Command, now: Time)
    requires Inv(w) && FindRun(w, cmd.run) == Some(r) && cmd.actor in r.roster && cmd.action.Cleanup? && CleanUp(w, r, cmd, now).Success?
    ensures var (v, receipt) := CleanUp(w, r, cmd, now).value;
      && Tells(w, v, cmd, receipt)
      && v.history == w.history + ExpiryRecords(r, SortedIds(r.roster))
  {
    hide Inv, RunOk, Save, Tells, ExpireAll, ExpiryRecords, SortedIds;
    LiveFactsAll(w, cmd.run);
    RunIsLedgered(w, cmd.run);
    ExpiredRowsAre(r, now);
    MemberHasRow(r, cmd.actor);
    var s := TimeOut(r, now).(version := r.version + 1);
    SaveTells(w, w.(history := w.history + ExpiryRecords(r, SortedIds(r.roster))), s, cmd, None);
  }

  /**
   An accepted command stores one receipt, under an identifier that had none, which tells what is stored. A departure
   adds the leaver's entry to the history with what its run has cleared, a cleanup one entry for everybody on the
   roster, and nothing else adds any.
   */
  lemma ReceiptTells(w: World, cmd: Command, env: Env)
    requires Inv(w) && FreshCommand(w, cmd, env).Success?
    ensures FindRun(w, cmd.run).Some?
    ensures var r, (v, receipt) := FindRun(w, cmd.run).value, FreshCommand(w, cmd, env).value;
      && Tells(w, v, cmd, receipt)
      && (cmd.action.LeaveRun? ==> v.history == w.history + [Adventure(cmd.run, cmd.actor, Exited, r.stageCleared, r.floorsCleared, r.trail)])
      && (cmd.action.Cleanup? ==>
            && |v.history| == |w.history| + |r.roster| && v.history[..|w.history|] == w.history
            && TimedOutEntries(r, SortedIds(r.roster), v.history[|w.history|..]))
      && (!cmd.action.LeaveRun? && !cmd.action.Cleanup? ==> v.history == w.history)
  {
    hide Inv, Admissible, CleanUp, PlayAction, Tells, SortedIds, ExpiryRecords, TimedOutEntries;
    var r := FindRun(w, cmd.run).value;
    AdmissibleFacts(w, r, cmd);
    if cmd.action.Cleanup? {
      CleaningTells(w, r, cmd, env.now);
      LiveFactsAll(w, cmd.run);
      ExpiryRecordsAre(r, SortedIds(r.roster));
      SortedLength(r.roster);
      EntriesLength(r, SortedIds(r.roster));
    } else if cmd.action.LeaveRun? {
      LeavingTells(w, r, cmd, env);
    } else {
      ContinuingTells(w, r, cmd, env);
    }
  }

  lemma EntriesLength(r: Run, ids: seq<Id>)
    ensures |ExpiryRecords(r, ids)| == |ids|
  {
    ExpiryRecordsAre(r, ids);
  }

  lemma SortedLength(ids: seq<Id>)
    ensures |SortedIds(ids)| == |ids|
  {
    SortedIdsAre(ids);
    assert |multiset(SortedIds(ids))| == |SortedIds(ids)|;
  }

  // ---------- what is settled ----------

  /** A balance that an earlier run still owes: timed out, given back, and with something pending. */
  predicate StillOwed(w: World, actor: Id, run: Id) {
    && RowKey(run, actor) in w.rows && w.rows[RowKey(run, actor)].disposition == TimedOut
    && !(actor in w.enrolled && w.enrolled[actor] == run)
    && var pending := w.rows[RowKey(run, actor)].pending; !(pending.exp <= 0 && pending.gold <= 0 && pending.crystals <= 0)
  }

  /** The query answers exactly the runs that still owe the actor something, each with its row. */
  lemma {:induction false} OwedAreFound(w: World, actor: Id, order: seq<Id>, run: Id)
    ensures (exists x :: x in FindRetained(w, actor, order) && x.run == run) <==> run in order && StillOwed(w, actor, run)
    ensures forall x :: x in FindRetained(w, actor, order) ==> RowKey(x.run, actor) in w.rows && x.recipient == w.rows[RowKey(x.run, actor)]
    decreases |order|
  {
    if order != [] {
      var n := |order| - 1;
      OwedAreFound(w, actor, order[..n], run);
      assert forall id :: id in order <==> id in order[..n] || id == order[n];
      OwedIff(w, actor, order[n]);
      hide IsRetained, StillOwed;
      if run in order && StillOwed(w, actor, run) {
        if run == order[n] {
          assert Retained(run, w.rows[RowKey(run, actor)]) in FindRetained(w, actor, order);
        } else {
          var x :| x in FindRetained(w, actor, order[..n]) && x.run == run;
          assert x in FindRetained(w, actor, order);
        }
      }
    }
  }

  /** A balance is paid off exactly while its row is still timed out, given back and owes what was found; only that row changes. */
  lemma PaidOffIff(w: World, actor: Id, entry: Retained, paid: Recipient)
    ensures var key := RowKey(entry.run, actor); var saved := SaveRetained(w, actor, entry, paid);
      && (saved.Success? <==>
            && key in w.rows && w.rows[key].disposition == TimedOut && !(actor in w.enrolled && w.enrolled[actor] == entry.run)
            && w.rows[key].pending == entry.recipient.pending)
      && (saved.Success? ==> saved.value == w.(rows := w.rows[key := paid]))
  {
  }

  lemma OwedIff(w: World, actor: Id, run: Id)
    ensures IsRetained(w, run, actor) <==> StillOwed(w, actor, run)
    ensures IsRetained(w, run, actor) ==> RowKey(run, actor) in w.rows
  {
  }

  /** Gains are recorded for members alone, and what is used up is named, some of it, and a member's or the actor's. */
  lemma SettlementNeeds(w: World, a: Run, cmd: Command, effects: Effects, release: bool, order: seq<Id>)
    requires Settle(w, a, cmd, effects, release, order).Success?
    ensures forall g :: g in effects.gains ==> g.actor in a.roster && NonNegative(g.amount)
    ensures SpendingFits(a, cmd.actor, effects.spent)
  {
    GainersAreMembers(a, effects.gains);
    RecordKeepsClock(a, effects.gains);
    hide RecordAll, PayActor;
  }

  predicate SpendingFits(a: Run, actor: Id, spent: seq<Spent>) {
    forall s :: s in spent ==> (s.owner in a.roster || s.owner == actor) && s.instance != NOBODY && s.quantity >= 1
  }

  /** An action that earns and releases nothing is settled exactly when what it used up may be used. */
  lemma SpendingIff(w: World, a: Run, cmd: Command, effects: Effects, order: seq<Id>)
    requires effects.gains == []
    ensures Settle(w, a, cmd, effects, false, order).Success? <==> SpendingFits(a, cmd.actor, effects.spent)
  {
  }

  lemma {:induction false} GainersAreMembers(a: Run, gains: seq<Gain>)
    requires RecordAll(a, gains).Success?
    ensures forall g :: g in gains ==> g.actor in a.roster && NonNegative(g.amount)
    decreases |gains|
  {
    if gains != [] {
      var n := |gains| - 1;
      GainersAreMembers(a, gains[..n]);
      RecordKeepsClock(a, gains[..n]);
      assert forall g :: g in gains <==> g in gains[..n] || g == gains[n];
    }
  }

  // ---------- recovery ----------

  /** Handed over: a deadline still to be served, of somebody the timer counted among the roster's names in order. */
  ghost predicate HandedOver(r: Run, timer: Timer, id: Id, until: Time) {
    exists k :: 0 <= k < |SortedIds(r.roster)| && (k < timer.reached || (k == timer.reached && timer.lastCounted)) && SortedIds(r.roster)[k] == id
      && RecipientOf(r.recipients, id).timerPending && RecipientOf(r.recipients, id).penaltyUntil == until
  }

  lemma ProjectedIff(r: Run, timer: Timer, id: Id, until: Time)
    ensures (id, until) in Projected(r, timer) <==> HandedOver(r, timer, id, until)
  {
    hide SortedIds;
    var ids := SortedIds(r.roster);
    var n := Min(timer.reached + (if timer.lastCounted then 1 else 0), |ids|);
    if (id, until) in Projected(r, timer) {
      assert id in ids[..n];
      var k :| 0 <= k < n && ids[..n][k] == id;
      assert ids[k] == id;
    }
    if HandedOver(r, timer, id, until) {
      var k :| 0 <= k < |ids| && (k < timer.reached || (k == timer.reached && timer.lastCounted)) && ids[k] == id;
      assert ids[..n][k] == id;
    }
  }

  /** Everybody on the roster has served and is free again; nobody else's row or enrolment moves, and the room is empty. */
  ghost predicate SetFree(w: World, v: World, r: Run) {
    && FindRun(v, r.id).None? && r.id in v.headers && v.headers[r.id].version == r.version + 1
    && (forall id :: id != r.id ==> FindRun(v, id) == FindRun(w, id))
    && v.rows.Keys == w.rows.Keys
    && (forall key :: key in w.rows ==> v.rows[key] == if key.run == r.id && key.actor in r.roster && key.actor in r.recipients then r.recipients[key.actor].(timerPending := false) else w.rows[key])
    && (forall a :: a in v.enrolled ==> a in w.enrolled && v.enrolled[a] == w.enrolled[a])
    && (forall a :: a in w.enrolled && a !in v.enrolled ==> a in r.roster)
    && (forall a :: a in r.roster && a in v.enrolled ==> v.enrolled[a] != r.id)
    && v.receipts == w.receipts && v.credited == w.credited && v.history == w.history && v.players == w.players
  }

  lemma RosterTimedOut(r: Run, a: Id)
    requires RunOk(r) && r.timedOut && a in r.roster
    ensures a in r.recipients && r.recipients[a].disposition == TimedOut
  {
    hide Balanced, Honest;
    assert StandingOk(r, a);
  }

  lemma RecoveredRows(w: World, r: Run)
    requires Inv(w) && FindRun(w, r.id) == Some(r) && r.timedOut
    ensures SaveRecipients(w, r.id, ServedRows(r)).Success?
    ensures var u := SaveRecipients(w, r.id, ServedRows(r)).value;
      && u == w.(rows := u.rows, enrolled := u.enrolled) && u.rows.Keys == w.rows.Keys
      && (forall key :: key in w.rows ==> u.rows[key] == if key.run == r.id && key.actor in r.roster && key.actor in r.recipients then r.recipients[key.actor].(timerPending := false) else w.rows[key])
      && (forall a :: a in u.enrolled ==> a in w.enrolled && u.enrolled[a] == w.enrolled[a])
      && (forall a :: a in w.enrolled && a !in u.enrolled ==> a in r.roster)
      && (forall a :: a in r.roster && a in u.enrolled ==> u.enrolled[a] != r.id)
  {
    hide Inv, RunOk, RowsOf;
    LiveFactsAll(w, r.id);
    RowsOfIs(r.id, ServedRows(r));
    forall a | a in r.roster ensures a in r.recipients && r.recipients[a].disposition == TimedOut {
      RosterTimedOut(r, a);
    }
    forall a | a in r.recipients ensures RowKey(r.id, a) in w.rows {
      MemberRow(w, r.id, a);
    }
  }

  lemma RecoveredSaves(w: World, r: Run)
    requires Inv(w) && FindRun(w, r.id) == Some(r) && r.timedOut
    ensures SaveRecovered(w, r).Success? && SetFree(w, SaveRecovered(w, r).value, r) && SaveRecovered(w, r).value.projected == w.projected
  {
    hide Inv, RunOk, SaveRecipients, ServedRows, Served;
    LiveFactsAll(w, r.id);
    RecoveredRows(w, r);
  }

  /**
   Recovery of a run that is there is for the owner of somebody who entered it, once it is timed out; anybody else
   changes nothing. It hands deadlines over in order as far as the timer answers. When all of the roster was answered
   and the transaction is not undone, the roster is set free; otherwise the tables stay, to be recovered again.
   */
  lemma RecoveryIs(w: World, player: Id, actor: Id, id: Id, timer: Timer, outcome: CommitOutcome)
    requires Inv(w) && FindRun(w, id).Some?
    ensures var r, (v, error) := FindRun(w, id).value, Recover(w, player, actor, id, timer, outcome);
      var entitled := IsOwner(w, player, actor) && actor in r.recipients && r.recipients[actor].player == player && r.timedOut;
      && (!entitled ==> v == w && error.Some?)
      && (entitled ==> forall a, until :: (a, until) in v.projected <==> (a, until) in w.projected || HandedOver(r, timer, a, until))
      && (entitled && (timer.reached < |r.roster| || outcome == RolledBack) ==> v == w.(projected := v.projected) && error.Some?)
      && (entitled && timer.reached >= |r.roster| && outcome != RolledBack ==>
            SetFree(w, v, r) && (error.None? <==> outcome == Committed))
  {
    hide Inv, RunOk, SaveRecovered, SetFree, HandedOver, Projected;
    var r := FindRun(w, id).value;
    LiveFactsAll(w, id);
    var told := w.(projected := w.projected + Projected(r, timer));
    forall a, until ensures (a, until) in told.projected <==> (a, until) in w.projected || HandedOver(r, timer, a, until) {
      ProjectedIff(r, timer, a, until);
    }
    if r.timedOut {
      ProjectionKeepsInv(w, r, timer);
      RecoveredSaves(told, r);
      FreedSince(w, told, SaveRecovered(told, r).value, r);
    }
  }

  lemma FreedSince(w: World, told: World, v: World, r: Run)
    requires told == w.(projected := told.projected) && SetFree(told, v, r)
    ensures SetFree(w, v, r)
  {
  }

  // ---------- admission ----------

  /** A run as it is admitted: at the entrance, with its party unrewarded, nothing met or cleared, the EX boss of stage 26 up to the draw. */
  ghost predicate AtTheEntrance(w: World, r: Run, a: Admission, stage: Stage, entry: Entry) {
    && r.id == a.generation && r.version == 1 && r.admission == a && r.stage == stage && r.mode == a.mode
    && r.leader == a.actor && r.roster == a.characters && r.floor == 0 && r.floorsCleared == 0 && !r.stageCleared && !r.clearPending
    && (r.exUnlocked <==> stage.id == "stage-26" && entry.lucky)
    && r.encounterFloor == 0 && r.encounterStage == NOBODY && r.enemies == [] && r.actors == entry.actors && r.lastActions == map[] && r.boxes == []
    && r.lastActivity == entry.now && !r.timedOut && r.trail == Trail([], [], [])
    && (forall id :: id in r.recipients <==> id in a.characters)
    && forall id :: id in a.characters ==> id in w.players && Unrewarded(r.recipients[id], w.players[id])
  }

  predicate Unrewarded(p: Recipient, player: Id) {
    var none := Earnings(0, 0, 0);
    && p.player == player && p.pending == none && p.conditional == none && p.applied == none && p.inspected == 0
    && p.disposition == Playing && p.penaltyUntil == 0 && !p.timerPending
    && p.recorded == none && p.tryBonus == none && p.exitBonus == none && p.forfeited == none
  }

  /** Everybody of the party exists and is in no run, the actor is the player's, no other check refuses and the stage is known. */
  predicate MayEnter(w: World, player: Id, a: Admission, entry: Entry) {
    && (forall id :: id in a.characters ==> id in w.players && id !in w.enrolled)
    && a.actor in w.players && w.players[a.actor] == player && entry.refusal.None? && entry.stage.Some?
  }

  lemma EntranceIs(w: World, a: Admission, stage: Stage, entry: Entry)
    requires !SomeMissing(w, a.characters)
    ensures AtTheEntrance(w, NewRun(w, a, stage, entry), a, stage, entry)
  {
  }

  lemma NobodyMissingOrBusy(w: World, ids: seq<Id>)
    ensures !SomeMissing(w, ids) <==> forall id :: id in ids ==> id in w.players
    ensures !SomeEnrolled(w, ids) <==> forall id :: id in ids ==> id !in w.enrolled
  {
  }

  /**
   A well-formed party under an identity that has no run yet is admitted exactly when it may enter. The run then stands
   at the entrance, its whole party is enrolled in it, its receipt is stored, and nothing else has changed.
   */
  lemma EnteredIff(w: World, player: Id, a: Admission, entry: Entry)
    requires EntryRefusal(a).None? && a.generation in w.headers && w.headers[a.generation] == Header(0, None, None)
    requires ReceiptKey(a.generation, "enroll") !in w.receipts
    ensures var e := FreshEntry(w, a, EnrollCommand(player, a), entry);
      && (e.Success? <==> MayEnter(w, player, a, entry))
      && (e.Success? ==>
            var (v, receipt) := e.value;
            && FindRun(v, a.generation).Some? && AtTheEntrance(w, FindRun(v, a.generation).value, a, entry.stage.value, entry)
            && (forall id :: id in v.enrolled <==> id in w.enrolled || id in a.characters)
            && (forall id :: id in v.enrolled ==> v.enrolled[id] == if id in a.characters then a.generation else w.enrolled[id])
            && v.rows == w.rows + RowsOf(a.generation, FindRun(v, a.generation).value.recipients)
            && v == w.(headers := w.headers[a.generation := Header(1, Some(a), FindRun(v, a.generation))], enrolled := v.enrolled, rows := v.rows,
                       receipts := w.receipts[ReceiptKey(a.generation, "enroll") := receipt])
            && receipt.command == EnrollCommand(player, a) && receipt.version == 1 && receipt.floor == 0 && receipt.box.None?)
  {
    NobodyMissingOrBusy(w, a.characters);
    hide SomeMissing, SomeEnrolled, AtTheEntrance, RowsOf, NewRecipients;
    if MayEnter(w, player, a, entry) {
      EntranceIs(w, a, entry.stage.value, entry);
    }
  }
}

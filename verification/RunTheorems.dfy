/** What holds after any history of admissions, commands, cleanups and recoveries. */
module RunTheorems {
  import opened Common
  import opened RunTypes
  import opened RunEarnings
  import opened RunProgress
  import opened RunTravel
  import opened RunOrder
  import opened RunWorld
  import opened RunCommands
  import opened RunInvariants
  import opened RunSteps
  import opened RunTransactions
  import opened RunPayments
  import opened RunCommits
  import opened RunRuns
  import opened RunEntries
  import opened RunAdmission

  /** One call by anybody, with whatever the engine, the draws, the timer and the database do. */
  datatype Event =
    | Entered(player: Id, admission: Admission, entry: Entry, outcome: CommitOutcome)
    | Commanded(command: Command, env: Env, outcome: CommitOutcome, timer: Timer, recovery: CommitOutcome)
    | Recovering(player: Id, actor: Id, run: Id, timer: Timer, outcome: CommitOutcome)
    | LobbyOpened(run: Id)

  /** The store's retained-balance query answers every retained run once. */
  ghost predicate Faithful(w: World, e: Event) {
    e.Commanded? ==> NoDuplicates(e.env.order) && forall run :: IsRetained(w, run, e.command.actor) ==> run in e.env.order
  }

  function Happen(w: World, e: Event): World {
    match e
    case Entered(player, admission, entry, outcome) => Enter(w, player, admission, entry, outcome).0
    case Commanded(command, env, outcome, timer, recovery) => Execute(w, command, env, outcome, timer, recovery).0
    case Recovering(player, actor, run, timer, outcome) => Recover(w, player, actor, run, timer, outcome).0
    case LobbyOpened(run) => WithHeader(w, run)
  }

  function After(players: map<Id, Id>, events: seq<Event>): World {
    if events == [] then World(players, map[], map[], map[], map[], map[], [], {})
    else Happen(After(players, events[..|events| - 1]), events[|events| - 1])
  }

  ghost predicate AllFaithful(players: map<Id, Id>, events: seq<Event>) {
    forall i :: 0 <= i < |events| ==> Faithful(After(players, events[..i]), events[i])
  }

  // ---------- one event ----------

  lemma FreshCommandKeepsInv(w: World, cmd: Command, env: Env)
    requires Inv(w) && NoDuplicates(env.order) && FreshCommand(w, cmd, env).Success?
    ensures Inv(FreshCommand(w, cmd, env).value.0) && Progress(w, FreshCommand(w, cmd, env).value.0, cmd.run)
  {
    hide Inv, Progress, Admissible, PlayAction, CleanUp;
    var r := FindRun(w, cmd.run).value;
    if cmd.action.Cleanup? {
      CleanUpKeepsInv(w, r, cmd, env.now);
    } else if cmd.action.LeaveRun? {
      LeaveKeepsInv(w, r, cmd, env);
    } else {
      ContinueKeepsInv(w, r, cmd, env);
    }
  }

  lemma RunCommandKeepsInv(w: World, cmd: Command, env: Env, outcome: CommitOutcome)
    requires Inv(w) && NoDuplicates(env.order)
    ensures Inv(RunCommand(w, cmd, env, outcome).0) && Progress(w, RunCommand(w, cmd, env, outcome).0, cmd.run)
  {
    hide Inv, Progress, FreshCommand, CommandRefusal;
    SameProgress(w, w, cmd.run);
    if Replay(w, cmd).None? && FreshCommand(w, cmd, env).Success? {
      FreshCommandKeepsInv(w, cmd, env);
    }
  }

  /** One later transaction on the same run after another. */
  lemma ProgressThrough(w: World, u: World, v: World, run: Id)
    requires Progress(w, u, run) && Progress(u, v, run)
    requires FindRun(w, run).Some? && FindRun(v, run).Some? ==> FindRun(u, run).Some?
    ensures Progress(w, v, run)
  {
    hide Inv;
  }

  lemma RecoverNeverOpens(w: World, player: Id, actor: Id, id: Id, timer: Timer, outcome: CommitOutcome)
    ensures FindRun(Recover(w, player, actor, id, timer, outcome).0, id).Some? ==> FindRun(w, id).Some?
  {
    hide SaveRecovered, Authorize, RecoverRefusal;
  }

  lemma ExecuteKeepsInv(w: World, cmd: Command, env: Env, outcome: CommitOutcome, timer: Timer, recovery: CommitOutcome)
    requires Inv(w) && NoDuplicates(env.order)
    ensures var v := Execute(w, cmd, env, outcome, timer, recovery).0;
      Inv(v) && Progress(w, v, cmd.run)
  {
    hide Inv, Progress, RunCommand, Recover;
    RunCommandKeepsInv(w, cmd, env, outcome);
    var (u, r) := RunCommand(w, cmd, env, outcome);
    if r.Success? && cmd.action.Cleanup? {
      RecoverKeepsInv(u, cmd.player, cmd.actor, cmd.run, timer, recovery);
      RecoverNeverOpens(u, cmd.player, cmd.actor, cmd.run, timer, recovery);
      ProgressThrough(w, u, Recover(u, cmd.player, cmd.actor, cmd.run, timer, recovery).0, cmd.run);
    }
  }

  function Subject(e: Event): Id {
    match e
    case Entered(_, admission, _, _) => admission.generation
    case Commanded(command, _, _, _, _) => command.run
    case Recovering(_, _, run, _, _) => run
    case LobbyOpened(run) => run
  }

  /** Marks only go forward and no ended participation is rewritten, whatever happens. */
  lemma EventKeepsInv(w: World, e: Event)
    requires Inv(w) && Faithful(w, e)
    ensures Inv(Happen(w, e)) && Progress(w, Happen(w, e), Subject(e))
  {
    hide Inv, Progress, Enter, Execute, Recover, WithHeader;
    match e
    case Entered(player, admission, entry, outcome) => EnterKeepsInv(w, player, admission, entry, outcome);
    case Commanded(command, env, outcome, timer, recovery) => ExecuteKeepsInv(w, command, env, outcome, timer, recovery);
    case Recovering(player, actor, run, timer, outcome) => RecoverKeepsInv(w, player, actor, run, timer, outcome);
    case LobbyOpened(run) =>
      WithHeaderKeepsInv(w, run);
      SameProgress(WithHeader(w, run), WithHeader(w, run), run);
      ProgressThroughHeader(w, WithHeader(w, run), run);
  }

  lemma {:induction false} ReachableInv(players: map<Id, Id>, events: seq<Event>)
    requires AllFaithful(players, events)
    ensures Inv(After(players, events))
    decreases |events|
  {
    hide Inv, Happen, Faithful;
    if events == [] {
      StartInv(players);
      assert After(players, events) == Start(players);
    } else {
      var n := |events| - 1;
      forall i | 0 <= i < n ensures Faithful(After(players, events[..n][..i]), events[..n][i]) {
        assert events[..n][..i] == events[..i];
      }
      ReachableInv(players, events[..n]);
      EventKeepsInv(After(players, events[..n]), events[n]);
    }
  }

  // ---------- payments ----------

  /**
   Everything ever credited to an actor is exactly what its ledger rows call applied, over all of its runs,
   and every row holds each recorded earning and bonus in exactly one bucket.
   */
  lemma CreditedIsApplied(players: map<Id, Id>, events: seq<Event>, actor: Id)
    requires AllFaithful(players, events)
    ensures var w := After(players, events);
      && Credited(w, actor) == Total(w.rows, actor, w.headers.Keys)
      && (forall key :: key in w.rows ==> key.run in w.headers && Balanced(w.rows[key]))
  {
    hide After, HeadersOk, EnrolmentsOk, ReceiptsOk, HistoryOk, TimerOk, Balanced, Total;
    ReachableInv(players, events);
    var w := After(players, events);
    forall key | key in w.rows ensures key.run in w.headers && Balanced(w.rows[key]) {
      assert RowOk(w, key);
    }
  }

  /** A release leaves the actor nothing retained anywhere. */
  lemma ReleasePaysEverything(w: World, r: Run, actor: Id, order: seq<Id>)
    requires NoDuplicates(order) && (forall run :: IsRetained(w, run, actor) ==> run in order)
    requires PayActor(w, r, actor, order).Success?
    ensures forall run :: !IsRetained(PayActor(w, r, actor, order).value.0, run, actor)
    ensures RecipientOf(PayActor(w, r, actor, order).value.1.recipients, actor).pending == NOTHING
  {
    hide FindRetained, Due, SettleRetained, Release, IsRetained;
    var retained := FindRetained(w, actor, order);
    var credited := Credit(w, actor, Due(RecipientOf(r.recipients, actor).pending, retained).value);
    FoundSnapshot(w, actor, order);
    CreditRetained(w, actor, Due(RecipientOf(r.recipients, actor).pending, retained).value, retained);
    SettleRetainedSettles(credited, actor, retained);
    var v := PayActor(w, r, actor, order).value.0;
    forall run ensures !IsRetained(v, run, actor) {
      NothingLeft(credited, v, actor, retained, run);
      CreditKeepsRetained(w, credited, run, actor);
    }
    ReleasedPending(RecipientOf(r.recipients, actor));
  }

  lemma ReleasedPending(p: Recipient)
    requires Release(p).Success?
    ensures Release(p).value.pending == NOTHING
  {
  }

  lemma CreditKeepsRetained(w: World, v: World, run: Id, actor: Id)
    requires v.rows == w.rows && v.enrolled == w.enrolled
    ensures IsRetained(v, run, actor) == IsRetained(w, run, actor)
  {
  }

  lemma NothingLeft(w: World, v: World, actor: Id, retained: seq<Retained>, run: Id)
    requires Settled(w, v, actor, retained)
    ensures IsRetained(v, run, actor) ==> IsRetained(w, run, actor) && !Pays(retained, run)
  {
    hide Pays, Release;
    var key := RowKey(run, actor);
    if key in w.rows && Pays(retained, run) {
      ReleasedPending(w.rows[key]);
    }
  }

  // ---------- exactly once ----------

  /** Replaying a stored command returns its receipt and changes nothing, whatever the commit says. */
  lemma ReplayReturnsReceipt(w: World, cmd: Command, env: Env, outcome: CommitOutcome)
    requires CommandRefusal(w, cmd).None? && Lookup(w.receipts, ReceiptKey(cmd.run, cmd.id)).Some?
    ensures var stored := w.receipts[ReceiptKey(cmd.run, cmd.id)];
      var (v, r) := RunCommand(w, cmd, env, outcome);
      && v == w
      && (stored.command == cmd && (outcome.Committed? || env.readable) ==> r == Success(stored))
      && (stored.command != cmd ==> r.Failure?)
  {
    hide FreshCommand, CommandRefusal;
  }

  ghost predicate SavedOnce(w: World, v: World, cmd: Command, receipt: Receipt, version: int) {
    var key := ReceiptKey(cmd.run, cmd.id);
    && key !in w.receipts && v.receipts == w.receipts[key := receipt] && receipt.command == cmd
    && cmd.run in w.headers && cmd.run in v.headers
    && w.headers[cmd.run].version == cmd.version && v.headers[cmd.run].version == cmd.version + 1 == receipt.version == version
    && (forall id :: id != cmd.run ==> (id in v.headers <==> id in w.headers) && (id in w.headers ==> v.headers[id] == w.headers[id]))
  }

  lemma SaveIsOnce(w: World, u: World, s: Run, cmd: Command, box: Option<Box>)
    requires Save(u, s, cmd, box).Success? && s.id == cmd.run && u.receipts == w.receipts && u.headers == w.headers
    ensures SavedOnce(w, Save(u, s, cmd, box).value.0, cmd, Save(u, s, cmd, box).value.1, s.version)
  {
    hide RowsOf;
  }

  lemma {:induction false} SettlingKeepsHeaders(w: World, actor: Id, retained: seq<Retained>)
    requires SettleRetained(w, actor, retained).Success?
    ensures var v := SettleRetained(w, actor, retained).value;
      v.headers == w.headers && v.receipts == w.receipts
    decreases |retained|
  {
    hide Release;
    if retained != [] {
      SettlingKeepsHeaders(w, actor, retained[..|retained| - 1]);
    }
  }

  lemma SettleKeepsHeaders(w: World, a: Run, cmd: Command, effects: Effects, release: bool, order: seq<Id>)
    requires Settle(w, a, cmd, effects, release, order).Success?
    ensures var (u, c) := Settle(w, a, cmd, effects, release, order).value;
      u.headers == w.headers && u.receipts == w.receipts && c.id == a.id
  {
    hide Release, Record, Due, FindRetained, SettleRetained, SpendingAllowed, SpendingNamed;
    RecordKeepsId(a, effects.gains);
    if release {
      var b := RecordAll(a, effects.gains).value;
      var p := RecipientOf(b.recipients, cmd.actor);
      var retained := FindRetained(w, cmd.actor, order);
      SettlingKeepsHeaders(Credit(w, cmd.actor, Due(p.pending, retained).value), cmd.actor, retained);
    }
  }

  lemma {:induction false} RecordKeepsId(r: Run, gains: seq<Gain>)
    requires RecordAll(r, gains).Success?
    ensures RecordAll(r, gains).value.id == r.id
    decreases |gains|
  {
    hide Record;
    if gains != [] {
      RecordKeepsId(r, gains[..|gains| - 1]);
    }
  }

  lemma ActKeepsId(r: Run, cmd: Command, env: Env)
    requires RunOk(r) && !r.timedOut && cmd.actor in r.roster && Act(r, cmd, env).Success?
    ensures Act(r, cmd, env).value.run.id == r.id
  {
    hide RunOk, Carried, Battle, Advance, ClaimChest, ExitBonus, Leave;
    OkPlayable(r);
    if !cmd.action.LeaveRun? {
      ActCarries(r, cmd, env);
      CarriedRoster(r, Act(r, cmd, env).value.run);
    }
  }

  lemma PlaySaves(w: World, r: Run, cmd: Command, env: Env)
    requires Inv(w) && FindRun(w, cmd.run) == Some(r) && Admissible(w, r, cmd).None?
    requires PlayAction(w, r, cmd, env).Success?
    ensures exists version :: SavedOnce(w, PlayAction(w, r, cmd, env).value.0, cmd, PlayAction(w, r, cmd, env).value.1, version)
  {
    hide Inv, Act, Settle, Save, Admissible, RunOk, WithoutActors, Without, SavedOnce;
    LiveFactsAll(w, cmd.run);
    AdmissibleFacts(w, r, cmd);
    ActKeepsId(r, cmd, env);
    var open := r.mode != Try || cmd.action.LeaveRun?;
    var acted := Act(r, cmd, env).value;
    var release := (open && acted.effects.releaseStock) || cmd.action.LeaveRun?;
    SettleKeepsHeaders(w, acted.run, cmd, acted.effects, release, env.order);
    var (u, c) := Settle(w, acted.run, cmd, acted.effects, release, env.order).value;
    var (left, final) := if cmd.action.LeaveRun? then Depart(u, c, cmd.actor) else (u, c);
    SaveIsOnce(w, left, Stamp(final, cmd, acted.effects, env.now), cmd, acted.box);
  }

  lemma CleanUpSaves(w: World, r: Run, cmd: Command, now: Time)
    requires Inv(w) && FindRun(w, cmd.run) == Some(r) && CleanUp(w, r, cmd, now).Success?
    ensures exists version :: SavedOnce(w, CleanUp(w, r, cmd, now).value.0, cmd, CleanUp(w, r, cmd, now).value.1, version)
  {
    hide Inv, Save, SavedOnce, RunOk, ExpireAll, ExpiryRecords;
    LiveFactsAll(w, cmd.run);
    var s := TimeOut(r, now).(version := r.version + 1);
    SaveIsOnce(w, w.(history := w.history + ExpiryRecords(r, SortedIds(r.roster))), s, cmd, None);
  }

  /** An accepted command raises its run's version by exactly one and leaves exactly one receipt, its own. */
  lemma AcceptedOnce(w: World, cmd: Command, env: Env)
    requires Inv(w) && FreshCommand(w, cmd, env).Success?
    ensures var (v, receipt) := FreshCommand(w, cmd, env).value;
      var key := ReceiptKey(cmd.run, cmd.id);
      && key !in w.receipts && v.receipts == w.receipts[key := receipt] && receipt.command == cmd
      && cmd.run in w.headers && cmd.run in v.headers
      && w.headers[cmd.run].version == cmd.version && v.headers[cmd.run].version == cmd.version + 1 == receipt.version
      && (forall id :: id != cmd.run ==> (id in v.headers <==> id in w.headers) && (id in w.headers ==> v.headers[id] == w.headers[id]))
  {
    hide Inv, Admissible, PlayAction, CleanUp;
    var r := FindRun(w, cmd.run).value;
    if cmd.action.Cleanup? {
      CleanUpSaves(w, r, cmd, env.now);
    } else {
      PlaySaves(w, r, cmd, env);
    }
  }

  /** A commit whose reply was lost is told apart by nobody: the tables and the answer are those of the commit. */
  lemma LostReplyIsNoLoss(w: World, cmd: Command, env: Env)
    requires Inv(w) && env.readable
    ensures RunCommand(w, cmd, env, ReplyLost) == RunCommand(w, cmd, env, Committed)
  {
    hide Inv, FreshCommand, CommandRefusal;
    if FreshCommand(w, cmd, env).Success? {
      AcceptedOnce(w, cmd, env);
    }
  }

  /** Whatever was answered with success is a receipt on the tables, for this very command. */
  lemma SuccessIsCommitted(w: World, cmd: Command, env: Env, outcome: CommitOutcome)
    requires Inv(w)
    ensures var (v, r) := RunCommand(w, cmd, env, outcome);
      r.Success? ==> r.value.command == cmd && Lookup(v.receipts, ReceiptKey(cmd.run, cmd.id)) == Some(r.value)
  {
    hide Inv, FreshCommand, CommandRefusal;
    if FreshCommand(w, cmd, env).Success? {
      AcceptedOnce(w, cmd, env);
    }
  }

  /** No version of a run was reached by two different commands. */
  lemma OneCommandPerVersion(players: map<Id, Id>, events: seq<Event>, k: ReceiptKey, l: ReceiptKey)
    requires AllFaithful(players, events)
    requires var w := After(players, events);
      k in w.receipts && l in w.receipts && k.run == l.run && w.receipts[k].version == w.receipts[l].version
    ensures k == l
  {
    hide After, HeadersOk, RowsOk, EnrolmentsOk, HistoryOk, TimerOk, CreditsOk;
    ReachableInv(players, events);
  }

  // ---------- progress marks ----------

  /**
   A run, while it lives and in every history record of it, is cleared exactly when its trail holds a credited
   floor-10 encounter or a treasure room entered with the clear pending; either way a boss was created.
   */
  lemma ClearNeedsCreatedBoss(players: map<Id, Id>, events: seq<Event>, run: Id)
    requires AllFaithful(players, events)
    ensures var w := After(players, events);
      && (FindRun(w, run).Some? ==>
            var r := FindRun(w, run).value;
            && (r.stageCleared <==> BOSS_FLOOR in r.trail.credited || true in r.trail.rooms)
            && (r.stageCleared ==> BOSS_FLOOR in r.trail.created)
            && 0 <= r.floor <= EX_FLOOR)
      && (forall i :: 0 <= i < |w.history| ==>
            && (w.history[i].cleared <==> BOSS_FLOOR in w.history[i].trail.credited || true in w.history[i].trail.rooms)
            && (w.history[i].cleared ==> BOSS_FLOOR in w.history[i].trail.created))
  {
    hide After, RowsOk, EnrolmentsOk, ReceiptsOk, TimerOk, CreditsOk;
    ReachableInv(players, events);
    var w := After(players, events);
    if FindRun(w, run).Some? {
      LiveFacts(w, run);
    }
    forall i | 0 <= i < |w.history| ensures EntryOk(w, w.history[i]) {
    }
  }

  /** Wherever the party went, cleared floors are the highest floor of an encounter that was created and credited. */
  lemma FloorsFollowCredit(players: map<Id, Id>, events: seq<Event>, run: Id)
    requires AllFaithful(players, events)
    ensures var w := After(players, events);
      && (FindRun(w, run).Some? ==> FloorsAreCredited(FindRun(w, run).value.floorsCleared, FindRun(w, run).value.trail))
      && (forall i :: 0 <= i < |w.history| ==> FloorsAreCredited(w.history[i].floors, w.history[i].trail))
  {
    hide After, RowsOk, EnrolmentsOk, ReceiptsOk, TimerOk, CreditsOk;
    ReachableInv(players, events);
    var w := After(players, events);
    if FindRun(w, run).Some? {
      LiveFacts(w, run);
    }
    forall i | 0 <= i < |w.history| ensures EntryOk(w, w.history[i]) {
    }
  }

  ghost predicate FloorsAreCredited(floors: int, t: Trail) {
    if t.credited == [] then floors == 0
    else floors in t.credited && floors in t.created && forall f :: f in t.credited ==> f <= floors
  }

  // ---------- participation ----------

  /** Enrolment is exactly membership of a live roster, so nobody plays two runs at once. */
  lemma OneRunAtATime(players: map<Id, Id>, events: seq<Event>, actor: Id, run: Id, other: Id)
    requires AllFaithful(players, events)
    ensures var w := After(players, events);
      && (EnrolledIn(w, actor, run) <==> FindRun(w, run).Some? && actor in FindRun(w, run).value.roster)
      && (EnrolledIn(w, actor, run) && FindRun(w, other).Some? && actor in FindRun(w, other).value.roster ==> run == other)
  {
    hide After, RowsOk, ReceiptsOk, HistoryOk, TimerOk, CreditsOk, HeadersOk, EnrolmentsOk;
    ReachableInv(players, events);
    var w := After(players, events);
    if FindRun(w, run).Some? { EnrolledInRoster(w, actor, run); }
    if FindRun(w, other).Some? { EnrolledInRoster(w, actor, other); }
    if EnrolledIn(w, actor, run) { EnrolledSomewhere(w, actor); }
  }

  lemma EnrolledSomewhere(w: World, actor: Id)
    requires EnrolmentsOk(w) && actor in w.enrolled
    ensures FindRun(w, w.enrolled[actor]).Some?
  {
  }

  /** Each participation is playing, exited or timed out; ended ones have exactly one record, and rosters have their leader. */
  lemma ParticipationIsAccounted(players: map<Id, Id>, events: seq<Event>, key: RowKey)
    requires AllFaithful(players, events) && key in After(players, events).rows
    ensures var w := After(players, events);
      var p := w.rows[key];
      && (p.disposition == Playing <==>
            EnrolledIn(w, key.actor, key.run) && FindRun(w, key.run).Some? && !FindRun(w, key.run).value.timedOut)
      && (p.disposition != Playing <==> Written(w.history, key))
      && (forall i, j :: 0 <= i < |w.history| && 0 <= j < |w.history| && About(w.history[i], key) && About(w.history[j], key) ==> i == j)
      && (forall i :: 0 <= i < |w.history| && About(w.history[i], key) ==> w.history[i].disposition == p.disposition)
      && (FindRun(w, key.run).Some? ==> FindRun(w, key.run).value.leader in FindRun(w, key.run).value.roster)
  {
    hide After, ReceiptsOk, TimerOk, CreditsOk;
    ReachableInv(players, events);
    var w := After(players, events);
    assert RowOk(w, key);
    OneRunAtATime(players, events, key.actor, key.run, key.run);
    if FindRun(w, key.run).Some? {
      LiveFacts(w, key.run);
      LiveRow(w, key.run, key.actor);
    }
    forall i | 0 <= i < |w.history| && About(w.history[i], key) ensures w.history[i].disposition == w.rows[key].disposition {
      assert EntryOk(w, w.history[i]);
    }
  }

  /** A timed-out member is released only after its one deadline was handed to the timer. */
  lemma ReleaseFollowsProjection(players: map<Id, Id>, events: seq<Event>, key: RowKey)
    requires AllFaithful(players, events) && key in After(players, events).rows
    requires After(players, events).rows[key].disposition == TimedOut
    ensures var w := After(players, events);
      !EnrolledIn(w, key.actor, key.run) ==> (key.actor, w.rows[key].penaltyUntil) in w.projected
  {
    hide After, ReceiptsOk, CreditsOk, HistoryOk;
    ReachableInv(players, events);
    var w := After(players, events);
    assert RowOk(w, key);
    if FindRun(w, key.run).Some? {
      LiveRow(w, key.run, key.actor);
      EnrolledInRoster(w, key.actor, key.run);
    }
  }

  lemma EndStaysTwice(p: Recipient, q: Recipient, t: Recipient)
    requires EndStays(p, q) && EndStays(q, t)
    ensures EndStays(p, t)
  {
  }

  /**
   From any point of a history on, an ended participation keeps its row: its disposition, its deadline and its
   conditional stock for good, and of the rest only the pending stock may still be paid, all at once.
   */
  lemma {:induction false} EndsAreFinal(players: map<Id, Id>, events: seq<Event>, n: nat, key: RowKey)
    requires AllFaithful(players, events) && n <= |events| && key in After(players, events[..n]).rows
    ensures key in After(players, events).rows && EndStays(After(players, events[..n]).rows[key], After(players, events).rows[key])
    decreases |events|
  {
    hide Happen, Faithful, Inv, EndStays;
    if n == |events| {
      assert events[..n] == events;
      EndKept(After(players, events).rows[key]);
    } else {
      var m := |events| - 1;
      var before := events[..m];
      forall i | 0 <= i < m ensures Faithful(After(players, before[..i]), before[i]) {
        assert before[..i] == events[..i];
      }
      assert before[..n] == events[..n];
      EndsAreFinal(players, before, n, key);
      ReachableInv(players, before);
      EventKeepsInv(After(players, before), events[m]);
      EndStaysTwice(After(players, events[..n]).rows[key], After(players, before).rows[key], After(players, events).rows[key]);
    }
  }

  lemma EndedStock(p: Recipient, q: Recipient)
    requires p.disposition != Playing && EndStays(p, q)
    ensures q.disposition == p.disposition && q.conditional == p.conditional && q.forfeited == p.forfeited && q.tryBonus == p.tryBonus
    ensures Plus(q.pending, q.applied) == Plus(p.pending, p.applied)
  {
  }

  /**
   Once a participation has ended, its conditional stock is neither paid nor converted nor forfeited by anything that
   happens later, and nothing is added to what was pending or paid: Try stock that a cleanup finds stays where it is.
   */
  lemma TryStockStandsStill(players: map<Id, Id>, events: seq<Event>, n: nat, key: RowKey)
    requires AllFaithful(players, events) && n <= |events| && key in After(players, events[..n]).rows
    requires After(players, events[..n]).rows[key].disposition != Playing
    ensures key in After(players, events).rows
    ensures var p, q := After(players, events[..n]).rows[key], After(players, events).rows[key];
      && q.disposition == p.disposition && q.conditional == p.conditional
      && q.forfeited == p.forfeited && q.tryBonus == p.tryBonus
      && Plus(q.pending, q.applied) == Plus(p.pending, p.applied)
  {
    hide After, AllFaithful, EndStays;
    EndsAreFinal(players, events, n, key);
    EndedStock(After(players, events[..n]).rows[key], After(players, events).rows[key]);
  }

  /** One event moves a live run's clear, EX mark, cleared floors and trail only forward. */
  lemma MarksGoForward(w: World, e: Event, run: Id)
    requires Inv(w) && Faithful(w, e) && FindRun(w, run).Some? && FindRun(Happen(w, e), run).Some?
    ensures Forward(FindRun(w, run).value, FindRun(Happen(w, e), run).value)
  {
    hide Inv, Happen, Faithful, EndStays;
    EventKeepsInv(w, e);
  }
}

/** Whole histories: any sequence of admissions, commands, cleanups and recoveries, under any commit outcomes. */
module RunRuns {
  import opened Common
  import opened RunTypes
  import opened RunEarnings
  import opened RunProgress
  import opened RunTravel
  import opened RunWorld
  import opened RunCommands
  import opened RunInvariants
  import opened RunSteps
  import opened RunTransactions
  import opened RunPayments
  import opened RunCommits

  // ---------- a stored command keeps everything ----------

  /** Nobody in a live, not timed-out run has a penalty, and a command's successor serves none. */
  ghost predicate Unserved(r: Run, s: Run) {
    && (forall id :: id in r.recipients ==> r.recipients[id].disposition != TimedOut)
    && (forall id :: id in s.recipients && s.recipients[id].disposition == TimedOut ==> s.recipients[id].timerPending)
  }

  lemma UnservedTimer(w: World, v: World, r: Run, s: Run, actor: Id)
    requires HeadersOk(w) && RowsOk(w) && TimerOk(w) && Stored(w, v, r, s, actor)
    requires Unserved(r, s) && v.projected == w.projected
    ensures TimerOk(v)
  {
    hide HeadersOk, RowsOk, Stored, TimerOk;
    StoredTimer(w, v, r, s, actor);
  }

  ghost predicate PaidAndWritten(w: World, u: World, run: Id, actor: Id, paid: Earnings, owed: Earnings, entries: seq<Adventure>) {
    u.history == w.history + entries && PaidBy(w, u.(history := w.history), run, actor, paid, owed)
  }

  lemma PaidAndWrittenFacts(w: World, u: World, run: Id, actor: Id, paid: Earnings, owed: Earnings, entries: seq<Adventure>)
    requires PaidAndWritten(w, u, run, actor, paid, owed, entries)
    ensures Paying(w, u, run, actor) && u.history == w.history + entries && u.projected == w.projected && u.players == w.players
    ensures Credited(u, actor) == Plus(Credited(w, actor), Plus(paid, owed))
    ensures forall a :: a != actor ==> Credited(u, a) == Credited(w, a)
    ensures Total(u.rows, actor, w.headers.Keys) == Plus(Total(w.rows, actor, w.headers.Keys), owed)
  {
    hide Total, IsRetained, PaidOff, Plus;
  }

  ghost predicate Applies(r: Run, s: Run, actor: Id, paid: Earnings) {
    && r.recipients.Keys == s.recipients.Keys && actor in r.recipients
    && s.recipients[actor].applied == Plus(r.recipients[actor].applied, paid)
    && forall id :: id in r.recipients && id != actor ==> s.recipients[id].applied == r.recipients[id].applied
  }

  // ---------- progress ----------

  /** All of what was pending is paid, or nothing moves between the two. */
  predicate PaidWholeOrNot(p: Recipient, q: Recipient) {
    || (q.pending == p.pending && q.applied == p.applied)
    || (q.pending == NOTHING && q.applied == Plus(p.applied, p.pending))
  }

  /**
   How a participation ended is final: of its row only the pending stock may still be paid, all at once, and the
   penalty be served. The conditional stock of a run that timed out is neither paid nor forfeited any more.
   */
  predicate EndStays(p: Recipient, q: Recipient) {
    p.disposition != Playing ==>
      && q == p.(pending := q.pending, applied := q.applied, timerPending := q.timerPending)
      && (q.timerPending ==> p.timerPending) && PaidWholeOrNot(p, q)
  }

  /** One transaction: only one run moves, its marks only forward, and no ended participation is rewritten. */
  ghost predicate Progress(w: World, v: World, run: Id) {
    && (forall id :: id != run ==> FindRun(v, id) == FindRun(w, id))
    && (FindRun(w, run).Some? && FindRun(v, run).Some? ==> Forward(FindRun(w, run).value, FindRun(v, run).value))
    && (forall key :: key in w.rows ==> key in v.rows && EndStays(w.rows[key], v.rows[key]))
  }

  lemma StoredProgress(w: World, v: World, r: Run, s: Run, actor: Id)
    requires HeadersOk(w) && RowsOk(w) && Stored(w, v, r, s, actor) && Forward(r, s)
    requires r.recipients.Keys == s.recipients.Keys
    requires forall id :: id in r.recipients ==> EndStays(r.recipients[id], s.recipients[id])
    ensures Progress(w, v, s.id)
  {
    hide HeadersOk, RowsOk, Successor, Forward, EnrolmentsStored, RowOk, EndStays;
    forall key | key in w.rows ensures key in v.rows && EndStays(w.rows[key], v.rows[key]) {
      StoredRow(w, v, r, s, actor, key);
      if key.run == s.id {
        LiveRow(w, s.id, key.actor);
      } else {
        OtherEndStays(w, v, key, actor);
      }
    }
  }

  lemma SameProgress(w: World, v: World, run: Id)
    requires v.headers == w.headers && v.rows == w.rows
    ensures Progress(w, v, run)
  {
    hide EndStays;
    forall key | key in w.rows ensures EndStays(w.rows[key], v.rows[key]) {
      EndKept(w.rows[key]);
    }
  }

  lemma ProgressFrom(w: World, u: World, v: World, run: Id)
    requires u.headers == w.headers && u.rows == w.rows && Progress(u, v, run)
    ensures Progress(w, v, run)
  {
    hide EndStays, Forward;
  }

  lemma EndKept(p: Recipient)
    ensures EndStays(p, p)
  {
  }

  /** A row of another run is as it was, or its retained balance was paid. */
  lemma OtherEndStays(w: World, v: World, key: RowKey, actor: Id)
    requires key in w.rows && OtherRowKept(w, v, key, actor)
    ensures EndStays(w.rows[key], v.rows[key])
  {
    hide IsRetained;
  }

  lemma EndsStay(r: Run, s: Run)
    requires Successor(r, s) && Unserved(r, s) && PartyOk(r)
    ensures forall id :: id in r.recipients ==> EndStays(r.recipients[id], s.recipients[id])
  {
  }

  lemma LiveParty(w: World, id: Id)
    requires HeadersOk(w) && FindRun(w, id).Some?
    ensures PartyOk(FindRun(w, id).value)
  {
    LiveFacts(w, id);
  }

  lemma CommandKeepsInv(w: World, u: World, r: Run, s: Run, cmd: Command, box: Option<Box>,
                        entries: seq<Adventure>, paid: Earnings, owed: Earnings)
    requires Inv(w) && FindRun(w, s.id) == Some(r) && cmd.run == s.id && cmd.version == r.version
    requires Successor(r, s) && Unserved(r, s) && Applies(r, s, cmd.actor, paid)
    requires NewEntries(r, s, entries) && Forward(r, s)
    requires PaidAndWritten(w, u, s.id, cmd.actor, paid, owed, entries)
    requires Save(u, s, cmd, box).Success?
    ensures Inv(Save(u, s, cmd, box).value.0)
    ensures Progress(w, Save(u, s, cmd, box).value.0, cmd.run)
  {
    hide *;
    InvParts(w);
    PaidAndWrittenFacts(w, u, s.id, cmd.actor, paid, owed, entries);
    SaveStores(w, u, r, s, cmd, box);
    var (v, receipt) := Save(u, s, cmd, box).value;
    SavedFacts(u, v, s);
    AppliesFacts(r, s, cmd.actor, paid);
    SuccessorFacts(r, s);
    LiveVersion(w, s.id);
    StoredHeaders(w, v, r, s, cmd.actor);
    StoredRows(w, v, r, s, cmd.actor);
    StoredEnrolments(w, v, r, s, cmd.actor);
    StoredReceipts(w, v, r, s, cmd.actor, receipt);
    StoredHistory(w, v, r, s, cmd.actor, entries);
    UnservedTimer(w, v, r, s, cmd.actor);
    FoundHeader(w, s.id);
    PaidCredits(w, u, v, r, s, cmd.actor, paid, owed);
    PartsInv(v);
    LiveParty(w, s.id);
    EndsStay(r, s);
    StoredProgress(w, v, r, s, cmd.actor);
  }

  lemma FoundHeader(w: World, id: Id)
    requires FindRun(w, id).Some?
    ensures id in w.headers
  {
  }

  lemma AppliesFacts(r: Run, s: Run, actor: Id, paid: Earnings)
    requires Applies(r, s, actor, paid)
    ensures r.recipients.Keys == s.recipients.Keys && actor in r.recipients
    ensures s.recipients[actor].applied == Plus(r.recipients[actor].applied, paid)
    ensures forall id :: id in r.recipients && id != actor ==> s.recipients[id].applied == r.recipients[id].applied
  {
  }

  lemma SavedFacts(u: World, v: World, s: Run)
    requires SavedAs(u, v, s)
    ensures v.credited == u.credited && v.history == u.history && v.projected == u.projected && v.players == u.players
  {
  }

  lemma InvParts(w: World)
    requires Inv(w)
    ensures HeadersOk(w) && RowsOk(w) && EnrolmentsOk(w) && ReceiptsOk(w) && HistoryOk(w) && TimerOk(w) && CreditsOk(w)
  {
  }

  lemma PartsInv(w: World)
    requires HeadersOk(w) && RowsOk(w) && EnrolmentsOk(w) && ReceiptsOk(w) && HistoryOk(w) && TimerOk(w) && CreditsOk(w)
    ensures Inv(w)
  {
  }

  // ---------- carrying on ----------

  lemma ContinuedMeets(r: Run, b: Run, s: Run, actor: Id, release: bool)
    requires RunOk(r) && !r.timedOut && Continued(r, b, s, actor, release)
    ensures Successor(r, s) && Unserved(r, s) && Forward(r, s)
    ensures r.recipients.Keys == s.recipients.Keys && NewEntries(r, s, [])
    ensures Applies(r, s, actor, if release then b.recipients[actor].pending else NOTHING)
  {
    hide Continued, Successor, Balanced, Honest, Plus, Forward;
    ContinuedSuccessor(r, b, s, actor, release);
    ContinuedLedgers(r, b, s, actor, release);
    PlusAssociates(r.recipients[actor].applied, NOTHING, NOTHING);
    forall id | id in r.recipients ensures r.recipients[id].disposition != TimedOut {
      assert StandingOk(r, id);
    }
  }

  lemma NothingWritten(w: World, u: World, run: Id, actor: Id, paid: Earnings, owed: Earnings)
    requires PaidBy(w, u, run, actor, paid, owed)
    ensures PaidAndWritten(w, u, run, actor, paid, owed, [])
  {
    hide PaidBy;
    PaidHistory(w, u, run, actor, paid, owed);
    assert w.history + [] == w.history;
    assert u.(history := w.history) == u;
  }

  lemma PaidHistory(w: World, u: World, run: Id, actor: Id, paid: Earnings, owed: Earnings)
    requires PaidBy(w, u, run, actor, paid, owed)
    ensures u.history == w.history
  {
    hide Total, Paying;
  }

  lemma ContinueKeepsInv(w: World, r: Run, cmd: Command, env: Env)
    requires Inv(w) && FindRun(w, cmd.run) == Some(r) && Admissible(w, r, cmd).None? && NoDuplicates(env.order)
    requires !cmd.action.LeaveRun? && PlayAction(w, r, cmd, env).Success?
    ensures Inv(PlayAction(w, r, cmd, env).value.0) && Progress(w, PlayAction(w, r, cmd, env).value.0, cmd.run)
  {
    hide Inv, RunOk, Carried, Act, Settle, Save, Playable, RecordAll, Release, PayActor, Admissible, PaidBy, Applies, NewEntries, Successor, Unserved, PaidAndWritten, SumPending, FindRetained, Progress, Forward;
    LiveFactsAll(w, cmd.run);
    AdmissibleFacts(w, r, cmd);
    OkPlayable(r);
    ActCarries(r, cmd, env);
    var open := r.mode != Try || cmd.action.LeaveRun?;
    var acted := Act(r, cmd, env).value;
    var release := open && acted.effects.releaseStock;
    CarriedPlayable(r, acted.run);
    CarriedRoster(r, acted.run);
    SettledRun(w, acted.run, cmd, acted.effects, release, env.order);
    var b := RecordAll(acted.run, acted.effects.gains).value;
    var (u, c) := Settle(w, acted.run, cmd, acted.effects, release, env.order).value;
    CarriedOn(r, acted.run, b);
    var s := Stamp(c, cmd, acted.effects, env.now);
    assert PlayAction(w, r, cmd, env) == Save(u, s, cmd, acted.box);
    var paid, owed := NOTHING, NOTHING;
    if release {
      LiveEnrolled(w, cmd.run, cmd.actor);
      PayingActor(w, b, cmd.actor, env.order, cmd.run);
      paid, owed := b.recipients[cmd.actor].pending, SumPending(FindRetained(w, cmd.actor, env.order));
    } else {
      PayingNothing(w, cmd.run, cmd.actor);
    }
    CarriedRoster(r, b);
    assert Continued(r, b, s, cmd.actor, release);
    ContinuedMeets(r, b, s, cmd.actor, release);
    NothingWritten(w, u, cmd.run, cmd.actor, paid, owed);
    CommandKeepsInv(w, u, r, s, cmd, acted.box, [], paid, owed);
  }

  lemma LiveEnrolled(w: World, run: Id, actor: Id)
    requires Inv(w) && FindRun(w, run).Some? && actor in FindRun(w, run).value.roster
    ensures EnrolledIn(w, actor, run)
  {
    hide *;
    InvParts(w);
    EnrolledInRoster(w, actor, run);
  }

  lemma AdmissibleFacts(w: World, r: Run, cmd: Command)
    requires Admissible(w, r, cmd).None?
    ensures cmd.actor in r.roster && RecipientOf(r.recipients, cmd.actor).player == cmd.player
    ensures r.version == cmd.version && !r.timedOut
  {
    hide RosterRefusal;
  }

  // ---------- leaving ----------

  /** The run a departure hands to Save: the leaver settled and gone, the next member leading. */
  lemma LeaverLedger(r: Run, actor: Id, goldDraw: nat)
    requires RunOk(r) && !r.timedOut && actor in r.roster && PrepareExit(r, actor, goldDraw).Success?
    requires Release(RecipientOf(PrepareExit(r, actor, goldDraw).value.recipients, actor)).Success?
    ensures var a := PrepareExit(r, actor, goldDraw).value;
      && a == r.(recipients := a.recipients) && a.recipients.Keys == r.recipients.Keys && actor in r.recipients
      && (forall id :: id in r.recipients && id != actor ==> a.recipients[id] == r.recipients[id])
      && a.recipients[actor].applied == r.recipients[actor].applied
      && var q := Release(a.recipients[actor]).value;
      && Balanced(q) && q.disposition == Exited && q.pending == NOTHING && q.conditional == NOTHING
      && q.applied == Plus(r.recipients[actor].applied, a.recipients[actor].pending)
  {
    hide Leave, Release, Balanced, Honest, ActorAt, ExitBonus, Plus;
    assert StandingOk(r, r.leader);
    LeaverRow(r.recipients[actor], ExitBonus(r, ActorAt(r.actors, actor).value, goldDraw).value);
  }

  lemma LeaverRow(p: Recipient, bonus: Earnings)
    requires Balanced(p) && Leave(p, bonus).Success? && Release(Leave(p, bonus).value).Success?
    ensures Leave(p, bonus).value.applied == p.applied
    ensures var q := Release(Leave(p, bonus).value).value;
      && Balanced(q) && q.disposition == Exited && q.pending == NOTHING && q.conditional == NOTHING
      && q.applied == Plus(p.applied, Leave(p, bonus).value.pending)
  {
    LeaveBalances(p, bonus);
  }

  ghost predicate Departed(r: Run, s: Run, actor: Id, q: Recipient) {
    && s.id == r.id && s.version == r.version + 1 && s.admission == r.admission && s.timedOut == r.timedOut
    && s.recipients == r.recipients[actor := q]
    && s.floor == r.floor && s.encounterFloor == r.encounterFloor && s.trail == r.trail
    && s.stageCleared == r.stageCleared && s.clearPending == r.clearPending
    && s.exUnlocked == r.exUnlocked && s.floorsCleared == r.floorsCleared
    && s.roster == Without(r.roster, actor)
    && s.leader == (if r.leader != actor then r.leader else if s.roster == [] then NOBODY else s.roster[0])
  }

  lemma DepartedMeets(r: Run, s: Run, actor: Id, q: Recipient, paid: Earnings)
    requires RunOk(r) && !r.timedOut && actor in r.roster && Departed(r, s, actor, q)
    requires Balanced(q) && q.disposition == Exited && q.pending == NOTHING && q.conditional == NOTHING
    requires q.applied == Plus(r.recipients[actor].applied, paid)
    ensures Successor(r, s) && Unserved(r, s) && Applies(r, s, actor, paid)
    ensures NewEntries(r, s, [RecordFor(r, actor, Exited)]) && Forward(r, s)
  {
    DepartedForward(r, s, actor, q);
    DepartedEntry(r, s, actor, q);
    DepartedSuccessor(r, s, actor, q);
    DepartedStanding(r, s, actor, q);
    hide Balanced, Plus, Forward, NewEntries, Successor, Honest, Departed, StandingOk, RunOk;
    DepartedLedgers(r, s, actor, q);
  }

  lemma DepartedLedgers(r: Run, s: Run, actor: Id, q: Recipient)
    requires Departed(r, s, actor, q) && PartyOk(r) && actor in r.roster
    ensures actor in r.recipients && s.recipients == r.recipients[actor := q] && s.recipients.Keys == r.recipients.Keys
  {
    hide Without, StandingOk;
  }

  /** After the departure everybody's standing is as the roster says. */
  lemma DepartedStanding(r: Run, s: Run, actor: Id, q: Recipient)
    requires RunOk(r) && !r.timedOut && actor in r.roster && Departed(r, s, actor, q)
    requires q.disposition == Exited && q.pending == NOTHING && q.conditional == NOTHING
    ensures PartyOk(r) && s.recipients.Keys == r.recipients.Keys
    ensures forall id :: id in s.recipients ==> StandingOk(s, id) && s.recipients[id].disposition != TimedOut
    ensures forall id :: id in r.recipients ==> r.recipients[id].disposition != TimedOut
  {
    hide Balanced, Without, Honest;
    WithoutIs(r.roster, actor);
    forall id | id in s.recipients
      ensures StandingOk(s, id) && s.recipients[id].disposition != TimedOut && r.recipients[id].disposition != TimedOut
    {
      assert StandingOk(r, id);
    }
  }

  lemma DepartedSuccessor(r: Run, s: Run, actor: Id, q: Recipient)
    requires RunOk(r) && !r.timedOut && actor in r.roster && Departed(r, s, actor, q)
    requires Balanced(q) && q.disposition == Exited && q.pending == NOTHING && q.conditional == NOTHING
    ensures Successor(r, s)
  {
    hide Balanced, StandingOk, Without, Honest;
    DepartedStanding(r, s, actor, q);
    DepartedHonest(r, s, actor, q);
    WithoutIs(r.roster, actor);
    assert s.roster != [] ==> s.leader in s.roster;
    if s.roster == [] {
      forall id | id in s.recipients ensures Released(s.recipients[id]) {
        LeftIsReleased(s, id);
      }
    }
  }

  lemma LeftIsReleased(s: Run, id: Id)
    requires id in s.recipients && s.roster == [] && StandingOk(s, id)
    ensures Released(s.recipients[id])
  {
  }

  lemma DepartedEntry(r: Run, s: Run, actor: Id, q: Recipient)
    requires RunOk(r) && !r.timedOut && actor in r.roster && Departed(r, s, actor, q) && q.disposition == Exited
    ensures r.recipients.Keys == s.recipients.Keys && NewEntries(r, s, [RecordFor(r, actor, Exited)])
  {
    hide Balanced, Without;
    assert StandingOk(r, actor);
    assert About([RecordFor(r, actor, Exited)][0], RowKey(s.id, actor));
    hide StandingOk;
  }

  lemma DepartedForward(r: Run, s: Run, actor: Id, q: Recipient)
    requires Departed(r, s, actor, q)
    ensures Forward(r, s)
  {
    hide Without;
  }

  lemma DepartedHonest(r: Run, s: Run, actor: Id, q: Recipient)
    requires Honest(r) && Departed(r, s, actor, q)
    ensures Honest(s)
  {
    hide Without;
  }

  lemma LeaveKeepsInv(w: World, r: Run, cmd: Command, env: Env)
    requires Inv(w) && FindRun(w, cmd.run) == Some(r) && Admissible(w, r, cmd).None? && NoDuplicates(env.order)
    requires cmd.action.LeaveRun? && PlayAction(w, r, cmd, env).Success?
    ensures Inv(PlayAction(w, r, cmd, env).value.0) && Progress(w, PlayAction(w, r, cmd, env).value.0, cmd.run)
  {
    hide Inv, RunOk, PrepareExit, Save, Release, PayActor, Admissible, PaidBy, Applies, NewEntries, Successor, Unserved, PaidAndWritten, SumPending, FindRetained, Balanced, Without, WithoutActors, Progress, Forward;
    LiveFactsAll(w, cmd.run);
    AdmissibleFacts(w, r, cmd);
    var a := Act(r, cmd, env).value.run;
    assert PrepareExit(r, cmd.actor, env.goldDraw) == Success(a);
    var (u, c) := PayActor(w, a, cmd.actor, env.order).value;
    assert Settle(w, a, cmd, QUIET, true, env.order) == Success((u, c));
    LiveEnrolled(w, cmd.run, cmd.actor);
    PayingActor(w, a, cmd.actor, env.order, cmd.run);
    LeaverLedger(r, cmd.actor, env.goldDraw);
    var paid, owed := a.recipients[cmd.actor].pending, SumPending(FindRetained(w, cmd.actor, env.order));
    var q := Release(a.recipients[cmd.actor]).value;
    var entries := [RecordFor(c, cmd.actor, Exited)];
    var left := u.(history := u.history + entries);
    var s := Stamp(RemoveMember(c, cmd.actor), cmd, QUIET, env.now);
    assert PlayAction(w, r, cmd, env) == Save(left, s, cmd, None);
    assert Departed(r, s, cmd.actor, q);
    assert RecordFor(c, cmd.actor, Exited) == RecordFor(r, cmd.actor, Exited);
    DepartedMeets(r, s, cmd.actor, q, paid);
    EntryWritten(w, u, left, cmd.run, cmd.actor, paid, owed, entries);
    CommandKeepsInv(w, left, r, s, cmd, None, entries, paid, owed);
  }

  lemma EntryWritten(w: World, u: World, left: World, run: Id, actor: Id, paid: Earnings, owed: Earnings, entries: seq<Adventure>)
    requires PaidBy(w, u, run, actor, paid, owed) && left == u.(history := u.history + entries)
    ensures PaidAndWritten(w, left, run, actor, paid, owed, entries)
  {
    hide PaidBy;
    PaidHistory(w, u, run, actor, paid, owed);
    assert left.(history := w.history) == u;
  }
}

/** What holds between any two points of a history: progress marks, receipts, and attempts that left no trace. */
module RunHistories {
  import opened Common
  import opened RunTypes
  import opened RunProgress
  import opened RunWorld
  import opened RunCommands
  import opened RunInvariants
  import opened RunRuns
  import opened RunTheorems
  import opened RunClears

  lemma ForwardThrough(r: Run, s: Run, t: Run)
    requires Forward(r, s) && Forward(s, t)
    ensures Forward(r, t)
  {
  }

  /** A run that is there now and was there then was there in between. */
  lemma StillThere(players: map<Id, Id>, events: seq<Event>, e: Event, run: Id, n: nat)
    requires AllFaithful(players, events) && Faithful(After(players, events), e)
    requires n <= |events| && FindRun(After(players, events[..n]), run).Some?
    requires FindRun(Happen(After(players, events), e), run).Some?
    ensures FindRun(After(players, events), run).Some?
  {
    hide After, Inv, Happen, AllFaithful;
    ReachableInv(players, events);
    if n == |events| {
      assert events[..n] == events;
    } else if FindRun(After(players, events), run).None? {
      OnceThereAlwaysVersioned(players, events, run, n);
      GoneStaysGone(After(players, events), e, run);
    }
  }

  /** Between any two points of a history at which a run lives its marks never go back and its trail only grows. */
  lemma {:induction false} MarksNeverGoBack(players: map<Id, Id>, events: seq<Event>, run: Id, n: nat)
    requires AllFaithful(players, events) && n <= |events|
    requires FindRun(After(players, events[..n]), run).Some? && FindRun(After(players, events), run).Some?
    ensures Forward(FindRun(After(players, events[..n]), run).value, FindRun(After(players, events), run).value)
    decreases |events|
  {
    hide Happen, Faithful, Inv, Forward, AllFaithful;
    if n == |events| {
      assert events[..n] == events;
      Unmoved(FindRun(After(players, events), run).value);
    } else {
      var m := |events| - 1;
      var before := events[..m];
      FaithfulPrefix(players, events, m);
      LastIsFaithful(players, events);
      assert before[..n] == events[..n];
      StillThere(players, before, events[m], run, n);
      MarksNeverGoBack(players, before, run, n);
      ReachableInv(players, before);
      MarksGoForward(After(players, before), events[m], run);
      ForwardThrough(FindRun(After(players, events[..n]), run).value, FindRun(After(players, before), run).value,
        FindRun(After(players, events), run).value);
    }
  }

  lemma Unmoved(r: Run)
    ensures Forward(r, r)
  {
  }

  // ---------- receipts ----------

  ghost predicate ReceiptsKept(w: World, v: World) {
    forall key :: key in w.receipts ==> key in v.receipts && v.receipts[key] == w.receipts[key]
  }

  lemma RunCommandKeepsReceipts(w: World, cmd: Command, env: Env, outcome: CommitOutcome)
    requires Inv(w)
    ensures ReceiptsKept(w, RunCommand(w, cmd, env, outcome).0)
  {
    hide Inv, FreshCommand, CommandRefusal;
    if FreshCommand(w, cmd, env).Success? {
      AcceptedOnce(w, cmd, env);
    }
  }

  lemma RecoverKeepsReceipts(w: World, player: Id, actor: Id, run: Id, timer: Timer, outcome: CommitOutcome)
    ensures Recover(w, player, actor, run, timer, outcome).0.receipts == w.receipts
  {
    hide Authorize, RecoverRefusal, Projected, ServedRows;
  }

  lemma FreshEntryAddsReceipt(w: World, a: Admission, cmd: Command, entry: Entry)
    requires EntryRefusal(a).None? && FreshEntry(w, a, cmd, entry).Success?
    ensures ReceiptsKept(w, FreshEntry(w, a, cmd, entry).value.0)
  {
    hide EntryRefusal, NewRun, NewRecipients, SomeMissing, SomeEnrolled, RowsOf, RecipientOf;
  }

  lemma EnterKeepsReceipts(w: World, player: Id, a: Admission, entry: Entry, outcome: CommitOutcome)
    ensures ReceiptsKept(w, Enter(w, player, a, entry, outcome).0)
  {
    hide Authorize, EntryRefusal, FreshEntry;
    var cmd := EnrollCommand(player, a);
    if EntryRefusal(a).None? && FreshEntry(WithHeader(w, cmd.run), a, cmd, entry).Success? {
      FreshEntryAddsReceipt(WithHeader(w, cmd.run), a, cmd, entry);
    }
  }

  lemma EventKeepsReceipts(w: World, e: Event)
    requires Inv(w)
    ensures ReceiptsKept(w, Happen(w, e))
  {
    hide Inv, Enter, RunCommand, Recover;
    match e
    case Entered(player, admission, entry, outcome) => EnterKeepsReceipts(w, player, admission, entry, outcome);
    case Recovering(player, actor, run, timer, outcome) => RecoverKeepsReceipts(w, player, actor, run, timer, outcome);
    case LobbyOpened(_) =>
    case Commanded(cmd, env, outcome, timer, recovery) =>
      RunCommandKeepsReceipts(w, cmd, env, outcome);
      RecoverKeepsReceipts(RunCommand(w, cmd, env, outcome).0, cmd.player, cmd.actor, cmd.run, timer, recovery);
  }

  /** A receipt, once stored, is there unchanged at every later point of the history. */
  lemma {:induction false} ReceiptsStay(players: map<Id, Id>, events: seq<Event>, n: nat)
    requires AllFaithful(players, events) && n <= |events|
    ensures ReceiptsKept(After(players, events[..n]), After(players, events))
    decreases |events|
  {
    hide Happen, Faithful, Inv, AllFaithful;
    if n == |events| {
      assert events[..n] == events;
    } else {
      var m := |events| - 1;
      FaithfulPrefix(players, events, m);
      assert events[..m][..n] == events[..n];
      ReceiptsStay(players, events[..m], n);
      ReachableInv(players, events[..m]);
      EventKeepsReceipts(After(players, events[..m]), events[m]);
    }
  }

  /**
   A command accepted at one point of a history and delivered again at any later one, whatever happened in
   between, gets the receipt of its first execution and changes nothing; another command under its identifier
   is refused.
   */
  lemma ReplayIsForever(players: map<Id, Id>, events: seq<Event>, n: nat, cmd: Command, env: Env, outcome: CommitOutcome)
    requires AllFaithful(players, events) && n <= |events|
    requires ReceiptKey(cmd.run, cmd.id) in After(players, events[..n]).receipts
    ensures var first := After(players, events[..n]).receipts[ReceiptKey(cmd.run, cmd.id)];
      var (v, r) := RunCommand(After(players, events), cmd, env, outcome);
      && v == After(players, events)
      && (r.Success? ==> r.value == first && first.command == cmd)
      && (first.command == cmd && CommandRefusal(After(players, events), cmd).None? && (outcome.Committed? || env.readable) ==>
            r == Success(first))
  {
    hide After, AllFaithful, FreshCommand, CommandRefusal;
    ReceiptsStay(players, events, n);
    if CommandRefusal(After(players, events), cmd).None? {
      ReplayReturnsReceipt(After(players, events), cmd, env, outcome);
    }
  }

  // ---------- attempts that left no trace ----------

  /** Everything that follows an event which left the tables alone happens as if it had not been there. */
  lemma {:induction false} SilenceIsNothing(players: map<Id, Id>, events: seq<Event>, e: Event, later: seq<Event>)
    requires Happen(After(players, events), e) == After(players, events)
    ensures After(players, events + [e] + later) == After(players, events + later)
    decreases |later|
  {
    hide Happen;
    if later == [] {
      assert (events + [e] + later)[..|events|] == events && events + later == events;
    } else {
      var n := |later| - 1;
      assert (events + [e] + later)[..|events| + 1 + n] == events + [e] + later[..n];
      assert (events + later)[..|events| + n] == events + later[..n];
      SilenceIsNothing(players, events, e, later[..n]);
    }
  }

  /** The first attempt at a command or an admission was rolled back, or an accepted one is delivered again. */
  predicate LeavesNoTrace(w: World, e: Event) {
    match e
    case Commanded(cmd, _, outcome, _, _) =>
      (outcome.RolledBack? && Replay(w, cmd).None?) || (Replay(w, cmd).Some? && !cmd.action.Cleanup?)
    case Entered(player, admission, _, outcome) =>
      outcome.RolledBack? || Lookup(w.receipts, ReceiptKey(admission.generation, "enroll")).Some?
    case _ => false
  }

  lemma NothingIsLeft(w: World, e: Event)
    requires LeavesNoTrace(w, e)
    ensures Happen(w, e) == w
  {
    hide FreshCommand, CommandRefusal, Recover, FreshEntry, EntryRefusal, Authorize;
  }

  /**
   Rolled-back attempts at commands and admissions, and later deliveries of a stored one, may be struck from a
   history, wherever they stand: every table is afterwards, and at every later point, what it would have been
   without them.
   */
  lemma RetriesMayBeStruck(players: map<Id, Id>, events: seq<Event>, e: Event, later: seq<Event>)
    requires LeavesNoTrace(After(players, events), e)
    ensures After(players, events + [e] + later) == After(players, events + later)
  {
    hide After, Happen, LeavesNoTrace;
    NothingIsLeft(After(players, events), e);
    SilenceIsNothing(players, events, e, later);
  }
}

/** Cleanup, recovery and admission keep the tables consistent. */
module RunEntries {
  import opened Common
  import opened RunTypes
  import opened RunEarnings
  import opened RunProgress
  import opened RunTravel
  import opened RunOrder
  import opened RunWorld
  import opened RunCommands
  import opened RunInvariants
  import opened RunSteps
  import opened RunTransactions
  import opened RunPayments
  import opened RunCommits
  import opened RunRuns

  // ---------- cleanup ----------

  lemma {:induction false} ExpireAllIs(recipients: map<Id, Recipient>, roster: seq<Id>, until: Time)
    requires forall id :: id in roster ==> id in recipients
    ensures var after := ExpireAll(recipients, roster, until);
      && after.Keys == recipients.Keys
      && forall id :: id in recipients ==> after[id] == if id in roster then Expire(recipients[id], until) else recipients[id]
    decreases |roster|
  {
    hide Expire;
    if roster != [] {
      var n := |roster| - 1;
      ExpireAllIs(recipients, roster[..n], until);
      assert forall id :: id in roster <==> id in roster[..n] || id == roster[n];
      ExpireTwice(recipients[roster[n]], until);
    }
  }

  lemma ExpireTwice(p: Recipient, until: Time)
    ensures Expire(Expire(p, until), until) == Expire(p, until)
  {
  }

  lemma {:induction false} ExpiryRecordsAre(r: Run, roster: seq<Id>)
    ensures |ExpiryRecords(r, roster)| == |roster|
    ensures forall i :: 0 <= i < |roster| ==> ExpiryRecords(r, roster)[i] == RecordFor(r, roster[i], TimedOut)
    decreases |roster|
  {
    hide RecordFor;
    if roster != [] {
      ExpiryRecordsAre(r, roster[..|roster| - 1]);
    }
  }

  lemma ExpiredSuccessor(r: Run, s: Run, now: Time)
    requires RunOk(r) && !r.timedOut && s == TimeOut(r, now).(version := r.version + 1)
    ensures Successor(r, s) && Unserved(r, s) && Forward(r, s)
  {
    hide Honest, ExpireAll, Balanced;
    SortedIdsKeep(r.roster);
    ExpireAllIs(r.recipients, SortedIds(r.roster), now + PENALTY);
    forall id | id in s.recipients ensures StandingOk(s, id) && Balanced(s.recipients[id]) && r.recipients[id].disposition != TimedOut {
      assert StandingOk(r, id);
      ExpireBalances(r.recipients[id], now + PENALTY);
    }
    ExpiredHonest(r, s, now);
  }

  lemma ExpireBalances(p: Recipient, until: Time)
    requires Balanced(p)
    ensures Balanced(Expire(p, until))
  {
  }

  lemma ExpiredHonest(r: Run, s: Run, now: Time)
    requires Honest(r) && s == TimeOut(r, now).(version := r.version + 1)
    ensures Honest(s)
  {
    hide ExpireAll;
  }

  lemma ExpiredEntries(r: Run, s: Run, actor: Id, now: Time)
    requires RunOk(r) && !r.timedOut && actor in r.roster && s == TimeOut(r, now).(version := r.version + 1)
    ensures Applies(r, s, actor, NOTHING)
    ensures NewEntries(r, s, ExpiryRecords(r, SortedIds(r.roster)))
  {
    hide ExpireAll, Balanced, ExpiryRecords, FloorInRange, RunOk;
    ExpirableFacts(r);
    SortedIdsKeep(r.roster);
    ExpireAllIs(r.recipients, SortedIds(r.roster), now + PENALTY);
    ExpiryRecordsAre(r, SortedIds(r.roster));
    var entries := ExpiryRecords(r, SortedIds(r.roster));
    forall id | id in s.recipients && r.recipients[id].disposition == Playing && s.recipients[id].disposition != Playing
      ensures Written(entries, RowKey(s.id, id))
    {
      var i :| 0 <= i < |r.roster| && SortedIds(r.roster)[i] == id;
      assert About(entries[i], RowKey(s.id, id));
    }
  }

  lemma ExpirableFacts(r: Run)
    requires RunOk(r) && !r.timedOut
    ensures NoDuplicates(r.roster) && Provenance(r)
    ensures forall id :: id in r.roster ==> id in r.recipients && r.recipients[id].disposition == Playing
    ensures forall id :: id in r.recipients && id !in r.roster ==> r.recipients[id].disposition == Exited
  {
    hide Balanced;
    forall id | id in r.recipients ensures StandingOk(r, id) {
    }
  }

  lemma CleanUpKeepsInv(w: World, r: Run, cmd: Command, now: Time)
    requires Inv(w) && FindRun(w, cmd.run) == Some(r) && Admissible(w, r, cmd).None?
    requires CleanUp(w, r, cmd, now).Success?
    ensures Inv(CleanUp(w, r, cmd, now).value.0) && Progress(w, CleanUp(w, r, cmd, now).value.0, cmd.run)
  {
    hide Inv, RunOk, Save, Admissible, PaidBy, Applies, NewEntries, Successor, Unserved, PaidAndWritten, ExpireAll, ExpiryRecords, Progress, Forward;
    LiveFactsAll(w, cmd.run);
    AdmissibleFacts(w, r, cmd);
    var s := TimeOut(r, now).(version := r.version + 1);
    var entries := ExpiryRecords(r, SortedIds(r.roster));
    var u := w.(history := w.history + entries);
    assert CleanUp(w, r, cmd, now) == Save(u, s, cmd, None);
    ExpiredSuccessor(r, s, now);
    ExpiredEntries(r, s, cmd.actor, now);
    SuccessorFacts(r, s);
    PayingNothing(w, cmd.run, cmd.actor);
    EntryWritten(w, w, u, cmd.run, cmd.actor, NOTHING, NOTHING, entries);
    CommandKeepsInv(w, u, r, s, cmd, None, entries, NOTHING, NOTHING);
  }

  // ---------- recovery ----------

  /** Handing over deadlines of a timed-out roster is consistent however far it gets. */
  lemma ProjectionKeepsInv(w: World, r: Run, timer: Timer)
    requires Inv(w) && FindRun(w, r.id) == Some(r) && r.timedOut
    ensures Inv(w.(projected := w.projected + Projected(r, timer)))
  {
    hide HeaderOk, RowOk, EntryOk, Total;
    var v := w.(projected := w.projected + Projected(r, timer));
    assert HeadersOk(v) by { SameHeaders(w, v); }
    assert RowsOk(v) by { forall key | key in v.rows ensures RowOk(v, key) { SameRow(w, v, key); } }
    assert HistoryOk(v) by { forall i | 0 <= i < |v.history| ensures EntryOk(v, v.history[i]) { SameEntry(w, v, v.history[i]); } }
    forall told | told in v.projected ensures exists key :: key in v.rows && TimedOutAt(v.rows[key], key, told) {
      if told !in w.projected {
        LiveRow(w, r.id, told.0);
        assert TimedOutAt(v.rows[RowKey(r.id, told.0)], RowKey(r.id, told.0), told) by {
          ProjectedAre(w, r, timer, told);
        }
      } else {
        var key :| key in w.rows && TimedOutAt(w.rows[key], key, told);
        assert TimedOutAt(v.rows[key], key, told);
      }
    }
  }

  lemma ProjectedAre(w: World, r: Run, timer: Timer, told: (Id, Time))
    requires HeadersOk(w) && FindRun(w, r.id) == Some(r) && r.timedOut && told in Projected(r, timer)
    ensures told.0 in r.recipients && told.0 in r.roster
      && r.recipients[told.0].disposition == TimedOut && r.recipients[told.0].penaltyUntil == told.1
  {
    LiveFacts(w, r.id);
    SortedIdsKeep(r.roster);
    hide Honest, Balanced;
    assert StandingOk(r, told.0);
  }

  lemma SameHeaders(w: World, v: World)
    requires HeadersOk(w) && v.headers == w.headers && v.rows == w.rows && v.enrolled == w.enrolled
    ensures HeadersOk(v)
  {
    hide RunOk;
    forall id | id in v.headers ensures HeaderOk(v, id) {
      assert HeaderOk(w, id);
    }
  }

  lemma SameRow(w: World, v: World, key: RowKey)
    requires RowsOk(w) && v.headers == w.headers && v.rows == w.rows && key in v.rows
    ensures RowOk(v, key)
  {
    hide Balanced;
    assert RowOk(w, key);
  }

  lemma SameEntry(w: World, v: World, entry: Adventure)
    requires EntryOk(w, entry) && v.rows == w.rows
    ensures EntryOk(v, entry)
  {
  }

  lemma RecoveredSuccessor(r: Run)
    requires RunOk(r) && r.timedOut
    ensures Successor(r, Recovered(r)) && r.recipients.Keys == Recovered(r).recipients.Keys
    ensures NewEntries(r, Recovered(r), [])
    ensures forall id :: id in r.recipients ==>
      && Recovered(r).recipients[id].applied == r.recipients[id].applied
      && Recovered(r).recipients[id].disposition == r.recipients[id].disposition
      && Recovered(r).recipients[id].penaltyUntil == r.recipients[id].penaltyUntil
    ensures forall id :: id in r.recipients && r.recipients[id].disposition == TimedOut ==> id in r.roster && r.recipients[id].timerPending
  {
    hide Honest, Balanced;
    var s := Recovered(r);
    forall id | id in r.recipients ensures Balanced(s.recipients[id]) && StandingOk(r, id) && Released(s.recipients[id]) {
      assert StandingOk(r, id);
      ServedBalances(r.recipients[id]);
    }
  }

  lemma ServedBalances(p: Recipient)
    requires Balanced(p)
    ensures Balanced(p.(timerPending := false))
  {
  }

  lemma AllAreHandedOver(r: Run, timer: Timer)
    requires timer.reached >= |r.roster|
    ensures Projected(r, timer) == Deadlines(r.recipients, r.roster)
  {
    hide SortedIds;
    SortedIdsKeep(r.roster);
    assert SortedIds(r.roster)[..|r.roster|] == SortedIds(r.roster);
  }

  /** Releasing the roster, after every deadline was handed over. */
  lemma ReleaseRosterKeepsInv(w: World, r: Run, actor: Id)
    requires Inv(w) && FindRun(w, r.id) == Some(r) && r.timedOut
    requires Deadlines(r.recipients, r.roster) <= w.projected
    requires SaveRecovered(w, r).Success?
    ensures Inv(SaveRecovered(w, r).value) && Progress(w, SaveRecovered(w, r).value, r.id)
  {
    hide Inv, Progress, RunOk, HeadersOk, RowsOk, EnrolmentsOk, HistoryOk, TimerOk, CreditsOk, ReceiptsOk, Successor, NewEntries, Stored, SaveRecipients, Served;
    LiveFactsAll(w, r.id);
    InvParts(w);
    RecoveredSuccessor(r);
    var s := Recovered(r);
    var v := SaveRecovered(w, r).value;
    RecoveredStored(w, r, actor);
    StoredHeaders(w, v, r, s, actor);
    StoredRows(w, v, r, s, actor);
    StoredEnrolments(w, v, r, s, actor);
    StoredNoReceipts(w, v, r, s, actor);
    assert v.history == w.history + [];
    StoredHistory(w, v, r, s, actor, []);
    forall id | id in s.recipients && s.recipients[id].disposition == TimedOut
      ensures (id, s.recipients[id].penaltyUntil) in v.projected
    {
      assert (id, r.recipients[id].penaltyUntil) in Deadlines(r.recipients, r.roster);
    }
    StoredTimer(w, v, r, s, actor);
    StoredUnpaid(w, v, r, s, actor);
    PartsInv(v);
    RecoveredEnds(r);
    StoredProgress(w, v, r, s, actor);
  }

  /** A recovery serves penalties and moves nothing else of a row. */
  lemma RecoveredEnds(r: Run)
    ensures forall id :: id in r.recipients ==> id in Recovered(r).recipients && EndStays(r.recipients[id], Recovered(r).recipients[id])
  {
  }

  lemma RecoveredRows(w: World, stored: World, r: Run, actor: Id)
    requires HeadersOk(w) && RowsOk(w) && EnrolmentsOk(w) && FindRun(w, r.id) == Some(r) && RunOk(r) && r.timedOut
    requires SaveRecipients(w, r.id, ServedRows(r)) == Success(stored)
    ensures RowsStored(w, stored, Recovered(r), actor) && EnrolmentsStored(w, stored, Recovered(r))
    ensures stored == w.(rows := stored.rows, enrolled := stored.enrolled)
    ensures forall key :: key in w.rows && key.run != r.id ==> key in stored.rows && stored.rows[key] == w.rows[key]
  {
    hide RunOk, HeadersOk, RowsOk, EnrolmentsOk, Successor, NewEntries, SaveRecipients, RowsStored, EnrolmentsStored, IsRetained, PaidOff;
    RecoveredSuccessor(r);
    var s := Recovered(r);
    SuccessorFacts(r, s);
    RosterHasRows(r);
    PayingSelf(w, r.id, actor);
    RowsAreStored(w, w, stored, r, s, actor, ServedRows(r));
    EnrolmentsAreStored(w, w, stored, r, s, ServedRows(r));
    RowsElsewhere(w, stored, r.id, ServedRows(r));
  }

  lemma PayingSelf(w: World, run: Id, actor: Id)
    ensures Paying(w, w, run, actor)
  {
    hide IsRetained, PaidOff;
  }

  lemma RecoveredStored(w: World, r: Run, actor: Id)
    requires Inv(w) && FindRun(w, r.id) == Some(r) && r.timedOut && SaveRecovered(w, r).Success?
    ensures var v := SaveRecovered(w, r).value;
      && Stored(w, v, r, Recovered(r), actor)
      && v.receipts == w.receipts && v.history == w.history && v.projected == w.projected && v.credited == w.credited
      && (forall key :: key in w.rows && key.run != r.id ==> key in v.rows && v.rows[key] == w.rows[key])
  {
    hide Inv, RunOk, HeadersOk, RowsOk, EnrolmentsOk, Successor, NewEntries, SaveRecipients, RowsStored, EnrolmentsStored, ServedRows;
    LiveFactsAll(w, r.id);
    InvParts(w);
    RecoveredSuccessor(r);
    var stored := SaveRecipients(w, r.id, ServedRows(r)).value;
    RecoveredRows(w, stored, r, actor);
    SameTables(w, stored, SaveRecovered(w, r).value, Recovered(r), actor);
  }

  lemma RosterHasRows(r: Run)
    requires RunOk(r)
    ensures forall id :: id in r.roster ==> id in r.recipients
  {
  }

  lemma RecoverKeepsInv(w: World, player: Id, actor: Id, id: Id, timer: Timer, outcome: CommitOutcome)
    requires Inv(w)
    ensures Inv(Recover(w, player, actor, id, timer, outcome).0)
    ensures Progress(w, Recover(w, player, actor, id, timer, outcome).0, id)
  {
    hide Inv, Progress, RunOk, SaveRecovered, Authorize, Deadlines, Projected;
    var found := FindRun(w, id);
    SameProgress(w, w, id);
    if Authorize(w, player, actor).None? && found.Some? && RecoverRefusal(found.value, player, actor).None? {
      var r := found.value;
      LiveFactsAll(w, id);
      var told := w.(projected := w.projected + Projected(r, timer));
      ProjectionKeepsInv(w, r, timer);
      SameProgress(w, told, id);
      if timer.reached >= |r.roster| && SaveRecovered(told, r).Success? {
        AllAreHandedOver(r, timer);
        ReleaseRosterKeepsInv(told, r, actor);
        ProgressFrom(w, told, SaveRecovered(told, r).value, id);
      }
    }
  }
}

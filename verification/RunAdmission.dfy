/** Admitting a party keeps the tables consistent and puts nobody in two runs. */
module RunAdmission {
  import opened Common
  import opened RunTypes
  import opened RunEarnings
  import opened RunProgress
  import opened RunTravel
  import opened RunWorld
  import opened RunCommands
  import opened RunInvariants
  import opened RunTransactions
  import opened RunPayments
  import opened RunCommits
  import opened RunRuns

  // ---------- the header row ----------

  lemma NoRowsWithoutHeader(w: World, run: Id)
    requires RowsOk(w) && (run !in w.headers || w.headers[run].version == 0)
    ensures forall a :: RowKey(run, a) !in w.rows
  {
    forall a ensures RowKey(run, a) !in w.rows {
      assert RowKey(run, a) in w.rows ==> RowOk(w, RowKey(run, a));
    }
  }

  lemma WithHeaderKeepsInv(w: World, run: Id)
    requires Inv(w)
    ensures Inv(WithHeader(w, run))
  {
    if run !in w.headers {
      hide HeaderOk, RowOk, EntryOk, Total, TimerOk, AppliedAt, ReceiptOk;
      var v := WithHeader(w, run);
      forall id | id in v.headers ensures HeaderOk(v, id) { WiderHeader(w, v, run, id); }
      forall key | key in v.rows ensures RowOk(v, key) { WiderRow(w, v, run, key); }
      forall key | key in v.receipts ensures ReceiptOk(v, key) { WiderReceipt(w, v, run, key); }
      WiderEnrolments(w, v, run);
      WiderHistory(w, v);
      WiderTimer(w, v);
      NoRowsWithoutHeader(w, run);
      assert v.headers.Keys == w.headers.Keys + {run};
      forall a ensures Credited(v, a) == Total(v.rows, a, v.headers.Keys) {
        NothingApplied(w, run, a);
        TotalGrows(w.rows, a, w.headers.Keys, run);
      }
    }
  }

  lemma NothingApplied(w: World, run: Id, a: Id)
    requires RowKey(run, a) !in w.rows
    ensures AppliedAt(w.rows, RowKey(run, a)) == NOTHING
  {
  }

  ghost predicate Wider(w: World, v: World, run: Id) {
    run !in w.headers && v == w.(headers := w.headers[run := Header(0, None, None)])
  }

  lemma WiderHeader(w: World, v: World, run: Id, id: Id)
    requires HeadersOk(w) && Wider(w, v, run) && id in v.headers
    ensures HeaderOk(v, id)
  {
    hide RunOk;
    if id != run { assert HeaderOk(w, id); }
  }

  lemma WiderRow(w: World, v: World, run: Id, key: RowKey)
    requires RowsOk(w) && Wider(w, v, run) && key in v.rows
    ensures RowOk(v, key)
  {
    hide Balanced;
    assert RowOk(w, key);
  }

  lemma WiderReceipt(w: World, v: World, run: Id, key: ReceiptKey)
    requires ReceiptsOk(w) && Wider(w, v, run) && key in v.receipts
    ensures ReceiptOk(v, key)
  {
    assert ReceiptOk(w, key);
  }

  lemma WiderEnrolments(w: World, v: World, run: Id)
    requires EnrolmentsOk(w) && Wider(w, v, run)
    ensures EnrolmentsOk(v)
  {
  }

  lemma WiderHistory(w: World, v: World)
    requires HistoryOk(w) && v.history == w.history && v.rows == w.rows
    ensures HistoryOk(v)
  {
    forall i | 0 <= i < |v.history| ensures EntryOk(v, v.history[i]) {
      assert EntryOk(w, w.history[i]);
    }
  }

  lemma WiderTimer(w: World, v: World)
    requires TimerOk(w) && v.projected == w.projected && v.rows == w.rows
    ensures TimerOk(v)
  {
    forall told | told in v.projected ensures exists key :: key in v.rows && TimedOutAt(v.rows[key], key, told) {
      var key :| key in w.rows && TimedOutAt(w.rows[key], key, told);
      assert TimedOutAt(v.rows[key], key, told);
    }
  }

  // ---------- the new run ----------

  ghost predicate Newcomers(w: World, r: Run) {
    && r.version == 1 && RunOk(r) && !r.timedOut
    && r.id in w.headers && w.headers[r.id].version == 0
    && (forall id :: id in r.recipients ==> id in r.roster && id !in w.enrolled && r.recipients[id].applied == NOTHING)
  }

  ghost predicate Enrolled(w: World, v: World, r: Run) {
    && v.headers == w.headers[r.id := Header(1, Some(r.admission), Some(r))]
    && v.rows == w.rows + RowsOf(r.id, r.recipients)
    && v.enrolled == w.enrolled + (map id | id in r.roster :: r.id)
    && v.history == w.history && v.projected == w.projected && v.credited == w.credited
  }

  lemma NewRunIsSound(w: World, a: Admission, stage: Stage, entry: Entry)
    requires EntryRefusal(a).None? && !SomeMissing(w, a.characters) && !SomeEnrolled(w, a.characters)
    requires a.generation in w.headers && w.headers[a.generation].version == 0
    ensures Newcomers(w, NewRun(w, a, stage, entry))
  {
    hide Balanced, Honest, EntryRefusal, PartyOk;
    var r := NewRun(w, a, stage, entry);
    NewPartyIsSound(w, a, stage, entry);
    forall id | id in r.recipients ensures Balanced(r.recipients[id]) { NewLedger(w.players[id]); }
    assert Honest(r) by { NewRunIsHonest(w, a, stage, entry); }
  }

  lemma NewLedger(player: Id)
    ensures Balanced(NewRecipient(player))
  {
  }

  lemma NewRunIsHonest(w: World, a: Admission, stage: Stage, entry: Entry)
    requires !SomeMissing(w, a.characters)
    ensures Honest(NewRun(w, a, stage, entry))
  {
    hide SomeMissing, NewRecipients;
  }

  lemma NewPartyIsSound(w: World, a: Admission, stage: Stage, entry: Entry)
    requires EntryRefusal(a).None? && !SomeMissing(w, a.characters)
    ensures PartyOk(NewRun(w, a, stage, entry))
  {
    var r := NewRun(w, a, stage, entry);
    assert r.roster[0] == a.actor;
    assert NoDuplicates(r.roster);
    hide EntryRefusal, NoDuplicates;
    forall id | id in r.recipients ensures StandingOk(r, id) {
    }
  }

  lemma AdmittedSomebody(a: Admission)
    requires EntryRefusal(a).None?
    ensures a.characters != [] && a.actor in a.characters
  {
    assert a.characters[0] in a.characters;
  }

  lemma EnrolledRows(w: World, v: World, r: Run)
    requires Inv(w) && Newcomers(w, r) && Enrolled(w, v, r)
    ensures forall a :: RowKey(r.id, a) !in w.rows
    ensures forall key :: key in v.rows <==> key in w.rows || (key.run == r.id && key.actor in r.recipients)
    ensures forall key :: key in w.rows ==> v.rows[key] == w.rows[key]
    ensures forall a :: a in r.recipients ==> Lookup(v.rows, RowKey(r.id, a)) == Some(r.recipients[a])
    ensures forall a :: a in w.enrolled ==> a !in r.roster && a in v.enrolled && v.enrolled[a] == w.enrolled[a]
    ensures FindRun(w, r.id).None?
  {
    hide RunOk, Balanced, RowsOf, Total;
    NoRowsWithoutHeader(w, r.id);
    RowsOfIs(r.id, r.recipients);
    assert HeaderOk(w, r.id);
    assert forall id :: id in r.roster ==> id in r.recipients by { RosterIsRecipients(r); }
  }

  lemma RosterIsRecipients(r: Run)
    requires RunOk(r)
    ensures forall id :: id in r.roster ==> id in r.recipients
  {
  }

  lemma EnrolledHeaders(w: World, v: World, r: Run, id: Id)
    requires Inv(w) && Newcomers(w, r) && Enrolled(w, v, r) && id in v.headers
    ensures HeaderOk(v, id)
  {
    hide RunOk, Inv, RowsOf, Enrolled, Newcomers, HeadersOk;
    InvParts(w);
    EnrolledRows(w, v, r);
    EnrolledHere(w, v, r);
    if id == r.id {
      RosterIsRecipients(r);
    } else {
      assert id in w.headers && v.headers[id] == w.headers[id] by { EnrolledThere(w, v, r, id); }
      HeaderAt(w, id);
    }
  }

  lemma HeaderAt(w: World, id: Id)
    requires HeadersOk(w) && id in w.headers
    ensures HeaderOk(w, id)
  {
  }

  lemma EnrolledThere(w: World, v: World, r: Run, id: Id)
    requires Enrolled(w, v, r) && id in v.headers && id != r.id
    ensures id in w.headers && v.headers[id] == w.headers[id]
  {
  }

  lemma EnrolledHere(w: World, v: World, r: Run)
    requires Newcomers(w, r) && Enrolled(w, v, r)
    ensures RunOk(r) && r.version == 1
    ensures r.id in v.headers && v.headers[r.id] == Header(1, Some(r.admission), Some(r))
    ensures forall a :: a in r.roster ==> EnrolledIn(v, a, r.id)
  {
    hide RunOk, RowsOf;
  }

  lemma EnrolledRow(w: World, v: World, r: Run, key: RowKey)
    requires Inv(w) && Newcomers(w, r) && Enrolled(w, v, r) && key in v.rows
    ensures RowOk(v, key)
  {
    hide PartyOk, Inv, RowsOf, Balanced, Honest;
    InvParts(w);
    EnrolledRows(w, v, r);
    if key in w.rows {
      assert RowOk(w, key);
    }
  }

  lemma EnrolledHistory(w: World, v: World, r: Run)
    requires Inv(w) && Newcomers(w, r) && Enrolled(w, v, r)
    ensures HistoryOk(v) && TimerOk(v)
  {
    hide Inv, RowsOf, Balanced, Honest, HeadersOk, RowsOk, EnrolmentsOk, CreditsOk, ReceiptsOk, RunOk, Enrolled, Newcomers;
    InvParts(w);
    EnrolledRows(w, v, r);
    EnrolledTables(w, v, r);
    forall i | 0 <= i < |v.history| ensures EntryOk(v, v.history[i]) {
      assert EntryOk(w, w.history[i]);
    }
    forall told | told in v.projected ensures exists key :: key in v.rows && TimedOutAt(v.rows[key], key, told) {
      var key :| key in w.rows && TimedOutAt(w.rows[key], key, told);
      assert TimedOutAt(v.rows[key], key, told);
    }
  }

  lemma EnrolledTables(w: World, v: World, r: Run)
    requires Newcomers(w, r) && Enrolled(w, v, r)
    ensures v.history == w.history && v.projected == w.projected && v.credited == w.credited
    ensures forall a :: a in r.recipients ==> r.recipients[a].disposition == Playing
    ensures v.headers.Keys == w.headers.Keys
    ensures forall a :: a in r.recipients ==> r.recipients[a].applied == NOTHING
  {
    hide Honest, Balanced, RowsOf;
    forall a | a in r.recipients ensures r.recipients[a].disposition == Playing {
      assert StandingOk(r, a);
    }
  }

  lemma EnrolledCredits(w: World, v: World, r: Run)
    requires Inv(w) && Newcomers(w, r) && Enrolled(w, v, r)
    ensures CreditsOk(v)
  {
    hide Inv, RowsOf, HeadersOk, RowsOk, EnrolmentsOk, ReceiptsOk, HistoryOk, TimerOk, RunOk, Enrolled, Newcomers, Total;
    InvParts(w);
    EnrolledRows(w, v, r);
    EnrolledTables(w, v, r);
    forall a ensures Credited(v, a) == Total(v.rows, a, v.headers.Keys) {
      TotalSame(w.rows, v.rows, a, w.headers.Keys);
    }
  }

  lemma EnrolledReceipts(w: World, v: World, r: Run, receipt: Receipt)
    requires Inv(w) && Newcomers(w, r) && Enrolled(w, v, r)
    requires receipt.command.run == r.id && receipt.version == 1 && receipt.command.version == 0
    requires v.receipts == w.receipts[ReceiptKey(r.id, receipt.command.id) := receipt]
    ensures ReceiptsOk(v)
  {
    hide RowsOf, HeadersOk, RowsOk, EnrolmentsOk, HistoryOk, TimerOk, RunOk, CreditsOk;
    forall key | key in w.receipts ensures key.run != r.id && ReceiptOk(v, key) {
      assert ReceiptOk(w, key);
    }
  }

  lemma EnrolledEnrolments(w: World, v: World, r: Run)
    requires Inv(w) && Newcomers(w, r) && Enrolled(w, v, r)
    ensures EnrolmentsOk(v)
  {
    hide RowsOf, HeaderOk, RowsOk, HistoryOk, TimerOk, RunOk, CreditsOk;
    EnrolledRows(w, v, r);
  }

  lemma EnrolmentKeepsInv(w: World, v: World, r: Run, receipt: Receipt)
    requires Inv(w) && Newcomers(w, r) && Enrolled(w, v, r)
    requires receipt.command.run == r.id && receipt.version == 1 && receipt.command.version == 0
    requires v.receipts == w.receipts[ReceiptKey(r.id, receipt.command.id) := receipt]
    ensures Inv(v)
  {
    hide Inv, Newcomers, Enrolled, HeaderOk, RowOk, EnrolmentsOk, HistoryOk, TimerOk, CreditsOk, ReceiptsOk;
    forall id | id in v.headers ensures HeaderOk(v, id) { EnrolledHeaders(w, v, r, id); }
    forall key | key in v.rows ensures RowOk(v, key) { EnrolledRow(w, v, r, key); }
    EnrolledEnrolments(w, v, r);
    EnrolledReceipts(w, v, r, receipt);
    EnrolledHistory(w, v, r);
    EnrolledCredits(w, v, r);
    PartsInv(v);
  }

  lemma FreshEntryKeepsInv(w: World, a: Admission, cmd: Command, entry: Entry)
    requires Inv(w) && EntryRefusal(a).None? && cmd == EnrollCommand(cmd.player, a) && a.generation in w.headers
    requires FreshEntry(w, a, cmd, entry).Success?
    ensures Inv(FreshEntry(w, a, cmd, entry).value.0)
    ensures Progress(w, FreshEntry(w, a, cmd, entry).value.0, a.generation)
  {
    hide Inv, Progress, EntryRefusal, SomeMissing, SomeEnrolled, RowsOf, Newcomers, NewRecipients;
    var r := NewRun(w, a, entry.stage.value, entry);
    var (v, receipt) := FreshEntry(w, a, cmd, entry).value;
    NewRunIsSound(w, a, entry.stage.value, entry);
    AdmittedSomebody(a);
    assert Enrolled(w, v, r);
    EnrolmentKeepsInv(w, v, r, receipt);
    EnrolledProgress(w, v, r);
  }

  lemma EnrolledProgress(w: World, v: World, r: Run)
    requires Inv(w) && Newcomers(w, r) && Enrolled(w, v, r)
    ensures Progress(w, v, r.id)
  {
    hide Inv, Newcomers, RowsOf, EndStays;
    EnrolledRows(w, v, r);
    forall key | key in w.rows ensures key in v.rows && EndStays(w.rows[key], v.rows[key]) {
      EndKept(w.rows[key]);
    }
  }

  lemma EnterKeepsInv(w: World, player: Id, a: Admission, entry: Entry, outcome: CommitOutcome)
    requires Inv(w)
    ensures Inv(Enter(w, player, a, entry, outcome).0)
    ensures Progress(w, Enter(w, player, a, entry, outcome).0, a.generation)
  {
    hide Inv, Progress, Authorize, EntryRefusal, FreshEntry, WithHeader;
    SameProgress(w, w, a.generation);
    if Authorize(w, player, a.actor).None? && EntryRefusal(a).None? {
      var cmd := EnrollCommand(player, a);
      WithHeaderKeepsInv(w, cmd.run);
      HeaderThere(w, cmd.run);
      if FreshEntry(WithHeader(w, cmd.run), a, cmd, entry).Success? {
        FreshEntryKeepsInv(WithHeader(w, cmd.run), a, cmd, entry);
        ProgressThroughHeader(w, FreshEntry(WithHeader(w, cmd.run), a, cmd, entry).value.0, cmd.run);
      }
    }
  }

  lemma ProgressThroughHeader(w: World, v: World, run: Id)
    requires Progress(WithHeader(w, run), v, run)
    ensures Progress(w, v, run)
  {
    hide EndStays, Forward;
    assert forall id :: FindRun(WithHeader(w, run), id) == FindRun(w, id);
  }

  lemma HeaderThere(w: World, run: Id)
    ensures run in WithHeader(w, run).headers
  {
  }
}

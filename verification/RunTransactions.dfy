/** A transaction on one run keeps every table consistent. */
module RunTransactions {
  import opened Common
  import opened RunTypes
  import opened RunEarnings
  import opened RunProgress
  import opened RunTravel
  import opened RunWorld
  import opened RunCommands
  import opened RunInvariants

  // ---------- what a transaction on one run writes ----------

  function HeaderOf(s: Run): Header {
    Header(s.version, Some(s.admission), if s.roster == [] then None else Some(s))
  }

  predicate PaidOff(p: Recipient, q: Recipient) {
    p.disposition == TimedOut && Release(p).Success? && q == Release(p).value
  }

  /** A row of another run is untouched, or was a retained balance of the actor and is now paid. */
  predicate OtherRowKept(w: World, v: World, key: RowKey, actor: Id)
    requires key in w.rows
  {
    && key in v.rows
    && (v.rows[key] == w.rows[key]
        || (key.actor == actor && IsRetained(w, key.run, actor) && PaidOff(w.rows[key], v.rows[key])))
  }

  ghost predicate RowsStored(w: World, v: World, s: Run, actor: Id) {
    && v.rows.Keys == w.rows.Keys
    && (forall key :: key in w.rows && key.run != s.id ==> OtherRowKept(w, v, key, actor))
    && (forall key :: key in w.rows && key.run == s.id ==> key.actor in s.recipients && v.rows[key] == s.recipients[key.actor])
  }

  predicate StaysEnrolled(w: World, s: Run, a: Id)
    requires a in w.enrolled
  {
    w.enrolled[a] != s.id || a !in s.recipients || !Released(s.recipients[a])
  }

  ghost predicate EnrolmentsStored(w: World, v: World, s: Run) {
    forall a :: (a in v.enrolled <==> a in w.enrolled && StaysEnrolled(w, s, a)) && (a in v.enrolled ==> v.enrolled[a] == w.enrolled[a])
  }

  /** The successor of a live run: one version later, ledgers balanced, and either a sound party or nobody left to serve. */
  ghost predicate Successor(r: Run, s: Run) {
    && s.id == r.id && s.version == r.version + 1 && s.admission == r.admission
    && s.recipients.Keys == r.recipients.Keys && AllBalanced(s.recipients)
    && (forall id :: id in r.recipients && id !in r.roster ==> s.recipients[id] == r.recipients[id])
    && (s.roster != [] ==> RunOk(s))
    && (s.roster == [] ==> forall id :: id in s.recipients ==> Released(s.recipients[id]))
  }

  ghost predicate Stored(w: World, v: World, r: Run, s: Run, actor: Id) {
    && FindRun(w, s.id) == Some(r)
    && Successor(r, s)
    && v.headers == w.headers[s.id := HeaderOf(s)]
    && RowsStored(w, v, s, actor)
    && EnrolmentsStored(w, v, s)
  }

  // ---------- reading the invariant ----------

  lemma LiveRun(w: World, id: Id)
    requires HeadersOk(w) && FindRun(w, id).Some?
    ensures LiveOk(w, id, FindRun(w, id).value) && w.headers[id].version >= 1 && id in w.headers
  {
  }

  lemma LiveRow(w: World, id: Id, a: Id)
    requires HeadersOk(w) && RowsOk(w) && FindRun(w, id).Some?
    ensures var r := FindRun(w, id).value;
      && (RowKey(id, a) in w.rows <==> a in r.recipients)
      && (a in r.recipients ==> w.rows[RowKey(id, a)] == r.recipients[a] && StandingOk(r, a) && Balanced(r.recipients[a]))
  {
    LiveRun(w, id);
    if RowKey(id, a) in w.rows {
      assert RowOk(w, RowKey(id, a));
    }
  }

  lemma EnrolledInRoster(w: World, a: Id, id: Id)
    requires HeadersOk(w) && EnrolmentsOk(w) && FindRun(w, id).Some?
    ensures EnrolledIn(w, a, id) <==> a in FindRun(w, id).value.roster
  {
    LiveRun(w, id);
  }

  /** A retained balance belongs to a run that is gone, so it never collides with a live one. */
  lemma RetainedRunIsGone(w: World, run: Id, actor: Id)
    requires HeadersOk(w) && RowsOk(w) && EnrolmentsOk(w) && IsRetained(w, run, actor)
    ensures FindRun(w, run).None?
  {
    if FindRun(w, run).Some? {
      LiveRow(w, run, actor);
      EnrolledInRoster(w, actor, run);
    }
  }

  // ---------- one conjunct at a time ----------

  lemma StoredElsewhere(w: World, v: World, r: Run, s: Run, actor: Id, id: Id)
    requires Stored(w, v, r, s, actor) && id != s.id
    ensures id in v.headers <==> id in w.headers
    ensures id in w.headers ==> v.headers[id] == w.headers[id]
    ensures forall a :: RowKey(id, a) in w.rows ==> OtherRowKept(w, v, RowKey(id, a), actor)
    ensures forall a :: EnrolledIn(w, a, id) ==> EnrolledIn(v, a, id)
  {
    hide Successor, OtherRowKept;
  }

  lemma StoredHere(w: World, v: World, r: Run, s: Run, actor: Id)
    requires Stored(w, v, r, s, actor)
    ensures Successor(r, s) && FindRun(w, s.id) == Some(r) && s.id in v.headers && v.headers[s.id] == HeaderOf(s)
    ensures forall a :: RowKey(s.id, a) in w.rows ==>
      RowKey(s.id, a) in v.rows && a in s.recipients && v.rows[RowKey(s.id, a)] == s.recipients[a]
    ensures forall a :: EnrolledIn(w, a, s.id) && a in s.recipients && !Released(s.recipients[a]) ==> EnrolledIn(v, a, s.id)
  {
    hide Successor, OtherRowKept;
  }

  lemma StoredSelf(w: World, v: World, r: Run, s: Run, actor: Id)
    requires HeadersOk(w) && RowsOk(w) && EnrolmentsOk(w) && Stored(w, v, r, s, actor) && s.roster != []
    ensures LiveOk(v, s.id, s)
  {
    hide AllBalanced, Honest, HeadersOk, RowsOk, EnrolmentsOk, OtherRowKept, Stored;
    StoredHere(w, v, r, s, actor);
    forall a | a in s.recipients ensures Lookup(v.rows, RowKey(s.id, a)) == Some(s.recipients[a]) {
      LiveRow(w, s.id, a);
    }
    forall a | a in s.roster ensures EnrolledIn(v, a, s.id) {
      assert StandingOk(s, a);
      LiveRow(w, s.id, a);
      EnrolledInRoster(w, a, s.id);
    }
  }

  lemma LiveFacts(w: World, id: Id)
    requires HeadersOk(w) && FindRun(w, id).Some?
    ensures var r := FindRun(w, id).value;
      && RunOk(r)
      && (forall a :: a in r.recipients ==> Lookup(w.rows, RowKey(id, a)) == Some(r.recipients[a]))
      && (forall a :: a in r.roster ==> EnrolledIn(w, a, id))
  {
    hide RunOk;
    LiveRun(w, id);
  }

  lemma StoredOther(w: World, v: World, r: Run, s: Run, actor: Id, id: Id)
    requires HeadersOk(w) && RowsOk(w) && EnrolmentsOk(w) && Stored(w, v, r, s, actor)
    requires id != s.id && FindRun(w, id).Some?
    ensures LiveOk(v, id, FindRun(w, id).value)
  {
    hide RunOk, HeadersOk, RowsOk, EnrolmentsOk, Stored, PaidOff;
    LiveFacts(w, id);
    LiveVersion(w, id);
    StoredElsewhere(w, v, r, s, actor, id);
    if IsRetained(w, id, actor) {
      RetainedRunIsGone(w, id, actor);
    }
  }

  lemma StoredHeader(w: World, v: World, r: Run, s: Run, actor: Id, id: Id)
    requires HeadersOk(w) && RowsOk(w) && EnrolmentsOk(w) && Stored(w, v, r, s, actor) && id in v.headers
    ensures HeaderOk(v, id)
  {
    hide LiveOk, RowsOk, EnrolmentsOk, Stored, AllBalanced, RunOk, OtherRowKept;
    if id == s.id {
      StoredHere(w, v, r, s, actor);
      LiveVersion(w, s.id);
      if s.roster != [] {
        StoredSelf(w, v, r, s, actor);
      }
    } else {
      StoredElsewhere(w, v, r, s, actor, id);
      assert HeaderOk(w, id);
      if FindRun(w, id).Some? {
        StoredOther(w, v, r, s, actor, id);
      }
    }
  }

  lemma StoredHeaders(w: World, v: World, r: Run, s: Run, actor: Id)
    requires HeadersOk(w) && RowsOk(w) && EnrolmentsOk(w) && Stored(w, v, r, s, actor)
    ensures HeadersOk(v)
  {
    forall id | id in v.headers ensures HeaderOk(v, id) {
      StoredHeader(w, v, r, s, actor, id);
    }
  }

  lemma PaidOffStays(p: Recipient, q: Recipient)
    requires PaidOff(p, q) && Balanced(p)
    ensures Balanced(q) && q.disposition == p.disposition && q.timerPending == p.timerPending && q.penaltyUntil == p.penaltyUntil
  {
    ReleaseBalances(p);
  }

  lemma StoredRow(w: World, v: World, r: Run, s: Run, actor: Id, key: RowKey)
    requires HeadersOk(w) && RowsOk(w) && Stored(w, v, r, s, actor) && key in v.rows
    ensures RowOk(v, key)
    ensures key.run != s.id ==>
      && v.rows[key].disposition == w.rows[key].disposition
      && v.rows[key].timerPending == w.rows[key].timerPending
      && v.rows[key].penaltyUntil == w.rows[key].penaltyUntil
  {
    hide Balanced, Release, LiveOk, RunOk;
    assert RowOk(w, key);
    LiveRun(w, s.id);
    if key.run != s.id {
      assert OtherRowKept(w, v, key, actor);
      if v.rows[key] != w.rows[key] {
        PaidOffStays(w.rows[key], v.rows[key]);
      }
    } else {
      assert s.version >= 1 by { LiveVersion(w, s.id); }
    }
  }

  lemma LiveVersion(w: World, id: Id)
    requires HeadersOk(w) && FindRun(w, id).Some?
    ensures FindRun(w, id).value.version >= 1 && FindRun(w, id).value.id == id && w.headers[id].version == FindRun(w, id).value.version
      && w.headers[id].admission == Some(FindRun(w, id).value.admission)
  {
    LiveRun(w, id);
  }

  lemma StoredRows(w: World, v: World, r: Run, s: Run, actor: Id)
    requires HeadersOk(w) && RowsOk(w) && Stored(w, v, r, s, actor)
    ensures RowsOk(v)
  {
    hide RowOk, Stored, HeadersOk;
    forall key | key in v.rows ensures RowOk(v, key) {
      StoredRow(w, v, r, s, actor, key);
    }
  }

  lemma StoredEnrolment(w: World, v: World, r: Run, s: Run, actor: Id, a: Id)
    requires Stored(w, v, r, s, actor) && a in v.enrolled
    ensures a in w.enrolled && v.enrolled[a] == w.enrolled[a] && StaysEnrolled(w, s, a)
  {
    hide Successor, RowsStored;
  }

  lemma SuccessorStays(r: Run, s: Run, a: Id)
    requires Successor(r, s) && a in r.recipients && !Released(s.recipients[a])
    ensures s.roster != [] && a in s.roster
  {
    hide AllBalanced, Honest;
    assert s.roster != [] ==> StandingOk(s, a);
  }

  lemma StoredEnrolments(w: World, v: World, r: Run, s: Run, actor: Id)
    requires HeadersOk(w) && RowsOk(w) && EnrolmentsOk(w) && Stored(w, v, r, s, actor)
    ensures EnrolmentsOk(v)
  {
    hide HeadersOk, RowsOk, Stored, Successor, Released;
    StoredHere(w, v, r, s, actor);
    forall a | a in v.enrolled
      ensures FindRun(v, v.enrolled[a]).Some? && a in FindRun(v, v.enrolled[a]).value.roster
    {
      StoredEnrolment(w, v, r, s, actor, a);
      var run := w.enrolled[a];
      if run == s.id {
        LiveRosterRow(w, run, a);
        SameRecipients(r, s);
        SuccessorStays(r, s, a);
      } else {
        StoredElsewhere(w, v, r, s, actor, run);
      }
    }
  }

  lemma LiveRosterRow(w: World, id: Id, a: Id)
    requires HeadersOk(w) && FindRun(w, id).Some? && a in FindRun(w, id).value.roster
    ensures a in FindRun(w, id).value.recipients
  {
    hide HeadersOk;
    LiveFacts(w, id);
  }

  lemma StoredReceipts(w: World, v: World, r: Run, s: Run, actor: Id, receipt: Receipt)
    requires HeadersOk(w) && ReceiptsOk(w) && Stored(w, v, r, s, actor)
    requires receipt.command.run == s.id && receipt.version == s.version && receipt.command.version == r.version
    requires v.receipts == w.receipts[ReceiptKey(s.id, receipt.command.id) := receipt]
    requires ReceiptKey(s.id, receipt.command.id) !in w.receipts
    ensures ReceiptsOk(v)
  {
    hide RowsStored, EnrolmentsStored, LiveOk, RunOk;
    LiveVersion(w, s.id);
    forall key | key in v.receipts ensures ReceiptOk(v, key) {
      if key in w.receipts {
        assert ReceiptOk(w, key);
      }
    }
    forall k, l | k in v.receipts && l in v.receipts && k.run == l.run && v.receipts[k].version == v.receipts[l].version
      ensures k == l
    {
      if k in w.receipts { assert ReceiptOk(w, k); }
      if l in w.receipts { assert ReceiptOk(w, l); }
    }
  }

  lemma StoredNoReceipts(w: World, v: World, r: Run, s: Run, actor: Id)
    requires HeadersOk(w) && ReceiptsOk(w) && Stored(w, v, r, s, actor) && v.receipts == w.receipts
    ensures ReceiptsOk(v)
  {
    hide RowsStored, EnrolmentsStored, LiveOk, RunOk;
    LiveVersion(w, s.id);
    forall key | key in v.receipts ensures ReceiptOk(v, key) {
      assert ReceiptOk(w, key);
    }
  }

  /** The timer was told what it had to be told: rows served in this transaction, and nothing but deadlines. */
  lemma StoredTimer(w: World, v: World, r: Run, s: Run, actor: Id)
    requires HeadersOk(w) && RowsOk(w) && TimerOk(w) && Stored(w, v, r, s, actor)
    requires w.projected <= v.projected
    requires forall id :: id in s.recipients && s.recipients[id].disposition == TimedOut && !s.recipients[id].timerPending ==>
      (id, s.recipients[id].penaltyUntil) in v.projected
    requires forall told :: told in v.projected && told !in w.projected ==>
      told.0 in s.recipients && TimedOutAt(s.recipients[told.0], RowKey(s.id, told.0), told)
    requires forall id :: id in r.recipients && r.recipients[id].disposition == TimedOut ==>
      s.recipients[id].disposition == TimedOut && s.recipients[id].penaltyUntil == r.recipients[id].penaltyUntil
    ensures TimerOk(v)
  {
    hide HeadersOk, RowsOk, RowOk, Successor;
    forall key | key in v.rows && v.rows[key].disposition == TimedOut && !v.rows[key].timerPending
      ensures (key.actor, v.rows[key].penaltyUntil) in v.projected
    {
      StoredRow(w, v, r, s, actor, key);
    }
    forall told | told in v.projected
      ensures exists key :: key in v.rows && TimedOutAt(v.rows[key], key, told)
    {
      if told in w.projected {
        var key :| key in w.rows && TimedOutAt(w.rows[key], key, told);
        StoredRow(w, v, r, s, actor, key);
        if key.run == s.id {
          LiveRow(w, s.id, key.actor);
        }
        assert TimedOutAt(v.rows[key], key, told);
      } else {
        LiveRow(w, s.id, told.0);
        SameRecipients(r, s);
        assert TimedOutAt(v.rows[RowKey(s.id, told.0)], RowKey(s.id, told.0), told);
      }
    }
  }

  lemma SameRecipients(r: Run, s: Run)
    requires Successor(r, s)
    ensures s.recipients.Keys == r.recipients.Keys && s.id == r.id
  {
  }

  // ---------- history ----------

  ghost predicate NewEntries(r: Run, s: Run, entries: seq<Adventure>)
    requires r.recipients.Keys == s.recipients.Keys
  {
    && OnceEach(entries)
    && (forall i :: 0 <= i < |entries| ==>
          && entries[i].run == s.id && entries[i].actor in s.recipients
          && r.recipients[entries[i].actor].disposition == Playing
          && entries[i].disposition == s.recipients[entries[i].actor].disposition != Playing
          && (entries[i].cleared <==> ClearedBy(entries[i].trail)) && (entries[i].cleared ==> BOSS_FLOOR in entries[i].trail.created)
          && FloorsFollow(entries[i].floors, entries[i].trail))
    && (forall id :: id in s.recipients && r.recipients[id].disposition == Playing && s.recipients[id].disposition != Playing ==>
          Written(entries, RowKey(s.id, id)))
    && (forall id :: id in s.recipients && r.recipients[id].disposition != Playing ==>
          s.recipients[id].disposition == r.recipients[id].disposition)
  }

  lemma WrittenAppend(history: seq<Adventure>, entries: seq<Adventure>, key: RowKey)
    ensures Written(history + entries, key) <==> Written(history, key) || Written(entries, key)
  {
    if Written(history, key) {
      var i :| 0 <= i < |history| && About(history[i], key);
      assert About((history + entries)[i], key);
    }
    if Written(entries, key) {
      var i :| 0 <= i < |entries| && About(entries[i], key);
      assert About((history + entries)[|history| + i], key);
    }
  }

  lemma StoredHistory(w: World, v: World, r: Run, s: Run, actor: Id, entries: seq<Adventure>)
    requires HeadersOk(w) && RowsOk(w) && HistoryOk(w) && Stored(w, v, r, s, actor)
    requires r.recipients.Keys == s.recipients.Keys && NewEntries(r, s, entries)
    requires v.history == w.history + entries
    ensures HistoryOk(v)
  {
    hide HeadersOk, RowsOk, RowOk, Successor, EnrolmentsStored;
    forall i | 0 <= i < |v.history| ensures EntryOk(v, v.history[i]) {
      EntryStays(w, v, r, s, actor, entries, i);
    }
    forall key | key in v.rows ensures Written(v.history, key) <==> v.rows[key].disposition != Playing {
      RowWritten(w, v, r, s, actor, entries, key);
    }
    StoredOnce(w, v, r, s, actor, entries);
  }

  lemma StoredOnce(w: World, v: World, r: Run, s: Run, actor: Id, entries: seq<Adventure>)
    requires HeadersOk(w) && RowsOk(w) && HistoryOk(w) && FindRun(w, s.id) == Some(r)
    requires r.recipients.Keys == s.recipients.Keys && NewEntries(r, s, entries)
    requires v.history == w.history + entries
    ensures OnceEach(v.history)
  {
    hide HeadersOk, RowsOk, RowOk, EntryOk;
    forall i, j | 0 <= i < j < |v.history|
      ensures RowKey(v.history[i].run, v.history[i].actor) != RowKey(v.history[j].run, v.history[j].actor)
    {
      if i < |w.history| <= j {
        var entry := v.history[j];
        assert entry == entries[j - |w.history|];
        LiveRow(w, s.id, entry.actor);
        assert About(w.history[i], RowKey(s.id, entry.actor)) ==> Written(w.history, RowKey(s.id, entry.actor));
      } else if |w.history| <= i {
        assert v.history[i] == entries[i - |w.history|] && v.history[j] == entries[j - |w.history|];
      }
    }
  }

  lemma EntryStays(w: World, v: World, r: Run, s: Run, actor: Id, entries: seq<Adventure>, i: nat)
    requires HeadersOk(w) && RowsOk(w) && HistoryOk(w) && Stored(w, v, r, s, actor)
    requires r.recipients.Keys == s.recipients.Keys && NewEntries(r, s, entries)
    requires v.history == w.history + entries && i < |v.history|
    ensures EntryOk(v, v.history[i])
  {
    hide HeadersOk, RowsOk, RowOk, Successor, EnrolmentsStored, OnceEach;
    var entry := v.history[i];
    var key := RowKey(entry.run, entry.actor);
    if i < |w.history| {
      assert EntryOk(w, w.history[i]);
      StoredRow(w, v, r, s, actor, key);
      if key.run == s.id {
        LiveRow(w, s.id, entry.actor);
        assert About(w.history[i], key);
        assert Written(w.history, key);
      }
    } else {
      assert entry == entries[i - |w.history|];
      LiveRow(w, s.id, entry.actor);
    }
  }

  lemma RowWritten(w: World, v: World, r: Run, s: Run, actor: Id, entries: seq<Adventure>, key: RowKey)
    requires HeadersOk(w) && RowsOk(w) && HistoryOk(w) && Stored(w, v, r, s, actor) && key in v.rows
    requires r.recipients.Keys == s.recipients.Keys && NewEntries(r, s, entries)
    requires v.history == w.history + entries
    ensures Written(v.history, key) <==> v.rows[key].disposition != Playing
  {
    hide HeadersOk, RowsOk, RowOk, Successor, EnrolmentsStored, OnceEach, EntryOk;
    WrittenAppend(w.history, entries, key);
    StoredRow(w, v, r, s, actor, key);
    if Written(entries, key) {
      var i :| 0 <= i < |entries| && About(entries[i], key);
    }
    if key.run == s.id {
      LiveRow(w, s.id, key.actor);
    }
  }

  // ---------- payments ----------

  /** A transaction that pays nobody leaves every total where it was. */
  lemma StoredUnpaid(w: World, v: World, r: Run, s: Run, actor: Id)
    requires HeadersOk(w) && RowsOk(w) && CreditsOk(w) && Stored(w, v, r, s, actor)
    requires v.credited == w.credited
    requires forall key :: key in w.rows && key.run != s.id ==> v.rows[key] == w.rows[key]
    requires forall id :: id in r.recipients && id in s.recipients ==> s.recipients[id].applied == r.recipients[id].applied
    ensures CreditsOk(v)
  {
    hide HeadersOk, RowsOk, Total, EnrolmentsStored, Successor;
    assert v.headers.Keys == w.headers.Keys;
    forall a ensures Credited(v, a) == Total(v.rows, a, v.headers.Keys) {
      forall run | run in w.headers.Keys ensures AppliedAt(v.rows, RowKey(run, a)) == AppliedAt(w.rows, RowKey(run, a)) {
        var key := RowKey(run, a);
        if key in w.rows && run == s.id {
          LiveRow(w, s.id, a);
        }
      }
      TotalSame(w.rows, v.rows, a, w.headers.Keys);
    }
  }
}

/** Admission, commands, cleanup and recovery all keep the tables consistent. */
module RunCommits {
  import opened Common
  import opened RunTypes
  import opened RunEarnings
  import opened RunProgress
  import opened RunTravel
  import opened RunWorld
  import opened RunCommands
  import opened RunInvariants
  import opened RunSteps
  import opened RunTransactions
  import opened RunPayments

  // ---------- saving ----------

  lemma RowsOfIs(run: Id, recipients: map<Id, Recipient>)
    ensures forall key :: key in RowsOf(run, recipients) <==> key.run == run && key.actor in recipients
    ensures forall key :: key in RowsOf(run, recipients) ==> RowsOf(run, recipients)[key] == recipients[key.actor]
  {
    var keys := set id | id in recipients :: RowKey(run, id);
    forall key ensures key in keys <==> key.run == run && key.actor in recipients {
      if key.run == run && key.actor in recipients { assert key == RowKey(run, key.actor); }
    }
  }

  /** After the rows, the header is replaced and nothing else moves. */
  ghost predicate SavedAs(u: World, v: World, s: Run) {
    && v.headers == u.headers[s.id := HeaderOf(s)]
    && v.credited == u.credited && v.history == u.history && v.projected == u.projected && v.players == u.players
  }

  lemma RowsAreStored(w: World, u: World, v: World, r: Run, s: Run, actor: Id, recipients: map<Id, Recipient>)
    requires HeadersOk(w) && RowsOk(w) && FindRun(w, s.id) == Some(r) && s.recipients.Keys == r.recipients.Keys
    requires forall id :: id in r.recipients && id !in r.roster ==> s.recipients[id] == r.recipients[id]
    requires Paying(w, u, s.id, actor)
    requires SaveRecipients(u, s.id, recipients) == Success(v)
    requires forall id :: id in recipients ==> id in s.recipients && recipients[id] == s.recipients[id]
    requires forall id :: id in s.recipients && id !in recipients ==> id !in r.roster
    ensures RowsStored(w, v, s, actor)
    ensures v == u.(rows := v.rows, enrolled := v.enrolled)
  {
    hide HeadersOk, RowsOk, IsRetained, PaidOff;
    RowsOfIs(s.id, recipients);
    hide RowsOf;
    forall key | key in w.rows && key.run == s.id
      ensures key.actor in s.recipients && v.rows[key] == s.recipients[key.actor]
    {
      LiveRow(w, s.id, key.actor);
    }
  }

  lemma EnrolmentsAreStored(w: World, u: World, v: World, r: Run, s: Run, recipients: map<Id, Recipient>)
    requires HeadersOk(w) && EnrolmentsOk(w) && FindRun(w, s.id) == Some(r)
    requires u.enrolled == w.enrolled && SaveRecipients(u, s.id, recipients) == Success(v)
    requires forall id :: id in recipients ==> id in s.recipients && recipients[id] == s.recipients[id]
    requires forall id :: id in s.recipients && id !in recipients ==> id !in r.roster
    ensures EnrolmentsStored(w, v, s)
  {
    hide HeadersOk, EnrolmentsOk, RowsOf;
    forall a | a in w.enrolled && w.enrolled[a] == s.id ensures a in r.roster {
      EnrolledInRoster(w, a, s.id);
    }
  }

  lemma RowsElsewhere(u: World, v: World, run: Id, recipients: map<Id, Recipient>)
    requires SaveRecipients(u, run, recipients) == Success(v)
    ensures forall key :: key in u.rows && key.run != run ==> key in v.rows && v.rows[key] == u.rows[key]
  {
    RowsOfIs(run, recipients);
  }

  /** Saving a successor after a payment stores exactly that successor and one fresh receipt. */
  lemma SaveStores(w: World, u: World, r: Run, s: Run, cmd: Command, box: Option<Box>)
    requires HeadersOk(w) && RowsOk(w) && EnrolmentsOk(w) && FindRun(w, s.id) == Some(r) && Successor(r, s)
    requires Paying(w, u, s.id, cmd.actor) && cmd.run == s.id && Save(u, s, cmd, box).Success?
    ensures var (v, receipt) := Save(u, s, cmd, box).value;
      && Stored(w, v, r, s, cmd.actor) && SavedAs(u, v, s)
      && receipt.command == cmd && receipt.version == s.version
      && v.receipts == w.receipts[ReceiptKey(s.id, cmd.id) := receipt] && ReceiptKey(s.id, cmd.id) !in w.receipts
      && s.version == cmd.version + 1
      && (forall key :: key in w.rows && key.run != s.id ==> key in v.rows && key in u.rows && v.rows[key] == u.rows[key])
  {
    hide HeadersOk, RowsOk, EnrolmentsOk, Successor, RowsStored, EnrolmentsStored, SaveRecipients;
    var stored := SaveRecipients(u, s.id, s.recipients).value;
    SuccessorFacts(r, s);
    RowsAreStored(w, u, stored, r, s, cmd.actor, s.recipients);
    EnrolmentsAreStored(w, u, stored, r, s, s.recipients);
    RowsElsewhere(u, stored, s.id, s.recipients);
    var v := Save(u, s, cmd, box).value.0;
    assert v.rows == stored.rows && v.enrolled == stored.enrolled;
    SameTables(w, stored, v, s, cmd.actor);
  }

  lemma SavedRun(u: World, s: Run, cmd: Command, box: Option<Box>)
    requires Save(u, s, cmd, box).Success?
    ensures FindRun(Save(u, s, cmd, box).value.0, s.id) == if s.roster == [] then None else Some(s)
  {
    hide RowsOf;
  }

  lemma SuccessorFacts(r: Run, s: Run)
    requires Successor(r, s)
    ensures s.recipients.Keys == r.recipients.Keys && s.id == r.id && s.version == r.version + 1
    ensures forall id :: id in r.recipients && id !in r.roster ==> s.recipients[id] == r.recipients[id]
  {
  }

  lemma SameTables(w: World, u: World, v: World, s: Run, actor: Id)
    requires v.rows == u.rows && v.enrolled == u.enrolled
    requires RowsStored(w, u, s, actor) && EnrolmentsStored(w, u, s)
    ensures RowsStored(w, v, s, actor) && EnrolmentsStored(w, v, s)
  {
    hide IsRetained, PaidOff;
  }

  // ---------- one command ----------

  lemma {:induction false} WithoutIs(ids: seq<Id>, gone: Id)
    requires NoDuplicates(ids)
    ensures NoDuplicates(Without(ids, gone))
    ensures forall id :: id in Without(ids, gone) <==> id in ids && id != gone
    decreases |ids|
  {
    if ids != [] {
      WithoutIs(ids[..|ids| - 1], gone);
      assert forall id :: id in ids <==> id in ids[..|ids| - 1] || id == ids[|ids| - 1];
      assert ids[|ids| - 1] !in ids[..|ids| - 1];
    }
  }

  lemma LiveFactsAll(w: World, id: Id)
    requires Inv(w) && FindRun(w, id).Some?
    ensures var r := FindRun(w, id).value;
      && r.id == id && r.version >= 1 && RunOk(r) && id in w.headers
      && w.headers[id].version == r.version && w.headers[id].admission == Some(r.admission)
  {
    hide RunOk, RowsOk, EnrolmentsOk, ReceiptsOk, HistoryOk, TimerOk, CreditsOk;
    LiveVersion(w, id);
    LiveFacts(w, id);
  }

  lemma OkPlayable(r: Run)
    requires RunOk(r) && !r.timedOut
    ensures Playable(r)
  {
    hide Balanced, Honest;
    forall id | id in r.roster ensures id in r.recipients && r.recipients[id].disposition == Playing {
      assert StandingOk(r, id);
    }
  }

  // ---------- a command that carries on ----------

  /** One later version of a carried run, with the actor's pending stock possibly paid out. */
  ghost predicate Continued(r: Run, b: Run, s: Run, actor: Id, release: bool) {
    && actor in r.roster && Carried(r, b) && actor in b.recipients
    && s.id == b.id && s.version == b.version + 1 && s.admission == b.admission
    && s.roster == b.roster && s.leader == b.leader && s.timedOut == b.timedOut
    && s.floor == b.floor && s.encounterFloor == b.encounterFloor && s.trail == b.trail
    && s.stageCleared == b.stageCleared && s.clearPending == b.clearPending
    && s.exUnlocked == b.exUnlocked && s.floorsCleared == b.floorsCleared
    && (if release then Release(b.recipients[actor]).Success? && s.recipients == b.recipients[actor := Release(b.recipients[actor]).value]
        else s.recipients == b.recipients)
  }

  lemma ContinuedLedgers(r: Run, b: Run, s: Run, actor: Id, release: bool)
    requires Continued(r, b, s, actor, release)
    ensures s.recipients.Keys == r.recipients.Keys && AllBalanced(s.recipients) && actor in r.recipients
    ensures forall id :: id in r.recipients ==> s.recipients[id].disposition == r.recipients[id].disposition
    ensures forall id :: id in r.recipients && id !in r.roster ==> s.recipients[id] == r.recipients[id]
    ensures forall id :: id in r.recipients ==> s.recipients[id].timerPending == r.recipients[id].timerPending
    ensures forall id :: id in r.recipients && id != actor ==> s.recipients[id].applied == r.recipients[id].applied
    ensures s.recipients[actor].applied ==
      if release then Plus(r.recipients[actor].applied, b.recipients[actor].pending) else r.recipients[actor].applied
  {
    hide Honest, Forward, Balanced, Release;
    assert SameStanding(r.recipients[actor], b.recipients[actor]);
    if release {
      ReleasedLedger(b.recipients[actor]);
    }
  }

  lemma ReleasedLedger(p: Recipient)
    requires Balanced(p) && Release(p).Success?
    ensures var q := Release(p).value;
      && Balanced(q) && q.applied == Plus(p.applied, p.pending) && q.pending == NOTHING && q.conditional == p.conditional
      && q.disposition == p.disposition && q.timerPending == p.timerPending && q.penaltyUntil == p.penaltyUntil && q.player == p.player
  {
    ReleaseBalances(p);
  }

  lemma ContinuedParty(r: Run, b: Run, s: Run, actor: Id, release: bool)
    requires Continued(r, b, s, actor, release)
    ensures s.id == r.id && s.version == r.version + 1 && s.admission == r.admission
    ensures s.roster == r.roster && s.leader == r.leader && s.timedOut == r.timedOut
  {
    hide Honest, LedgerStep, Forward;
  }

  lemma ContinuedSuccessor(r: Run, b: Run, s: Run, actor: Id, release: bool)
    requires RunOk(r) && !r.timedOut && Continued(r, b, s, actor, release)
    ensures Successor(r, s) && RunOk(s) && Forward(r, s)
  {
    hide Honest, AllBalanced, Continued, Forward;
    ContinuedLedgers(r, b, s, actor, release);
    ContinuedHonest(r, b, s, actor, release);
    ContinuedParty(r, b, s, actor, release);
    forall id | id in s.recipients ensures StandingOk(s, id) {
      assert StandingOk(r, id);
    }
  }

  lemma ContinuedHonest(r: Run, b: Run, s: Run, actor: Id, release: bool)
    requires Continued(r, b, s, actor, release)
    ensures Honest(s) && Forward(r, s)
  {
    hide LedgerStep, Release;
  }

  /** The credit equals the ledger movement, for the actor and for everybody else. */
  lemma PaidCredits(w: World, u: World, v: World, r: Run, s: Run, actor: Id, paid: Earnings, owed: Earnings)
    requires HeadersOk(w) && RowsOk(w) && CreditsOk(w) && Stored(w, v, r, s, actor) && Paying(w, u, s.id, actor)
    requires v.credited == u.credited && r.recipients.Keys == s.recipients.Keys && actor in r.recipients && s.id in w.headers
    requires forall key :: key in w.rows && key.run != s.id ==> key in v.rows && key in u.rows && v.rows[key] == u.rows[key]
    requires Credited(u, actor) == Plus(Credited(w, actor), Plus(paid, owed))
    requires forall a :: a != actor ==> Credited(u, a) == Credited(w, a)
    requires Total(u.rows, actor, w.headers.Keys) == Plus(Total(w.rows, actor, w.headers.Keys), owed)
    requires s.recipients[actor].applied == Plus(r.recipients[actor].applied, paid)
    requires forall id :: id in r.recipients && id != actor ==> s.recipients[id].applied == r.recipients[id].applied
    ensures CreditsOk(v)
  {
    hide Total, HeadersOk, RowsOk, Successor, EnrolmentsStored, Plus, IsRetained;
    var runs := w.headers.Keys;
    assert v.headers.Keys == runs;
    forall a ensures Credited(v, a) == Total(v.rows, a, runs) {
      LiveRow(w, s.id, a);
      if a == actor {
        TotalPaid(u.rows, v.rows, a, runs, s.id, paid);
        PlusRegroup(Total(w.rows, a, runs), owed, paid);
      } else {
        forall run | run in runs ensures AppliedAt(v.rows, RowKey(run, a)) == AppliedAt(w.rows, RowKey(run, a)) {
          assert run != s.id && RowKey(run, a) in w.rows ==> OtherRowKept(w, u, RowKey(run, a), actor);
        }
        TotalSame(w.rows, v.rows, a, runs);
      }
    }
  }

  lemma PlusRegroup(a: Earnings, b: Earnings, c: Earnings)
    ensures Plus(Plus(a, b), c) == Plus(a, Plus(c, b))
  {
  }

  // ---------- from commands to stored successors ----------

  lemma SettledRun(w: World, a: Run, cmd: Command, effects: Effects, release: bool, order: seq<Id>)
    requires Playable(a) && cmd.actor in a.roster && Settle(w, a, cmd, effects, release, order).Success?
    ensures RecordAll(a, effects.gains).Success?
    ensures var b := RecordAll(a, effects.gains).value;
      var (u, c) := Settle(w, a, cmd, effects, release, order).value;
      && Carried(a, b) && cmd.actor in b.recipients
      && c == b.(recipients := c.recipients)
      && (if release then PayActor(w, b, cmd.actor, order) == Success((u, c)) else u == w && c == b)
  {
    hide Carried, Playable, Record, Due, FindRetained, SettleRetained, Release;
    RecordAllCarries(a, effects.gains);
    CarriedPlayable(a, RecordAll(a, effects.gains).value);
    assert cmd.actor in RecordAll(a, effects.gains).value.roster by { CarriedRoster(a, RecordAll(a, effects.gains).value); }
    PlayableMember(RecordAll(a, effects.gains).value, cmd.actor);
  }

  lemma CarriedRoster(r: Run, s: Run)
    requires Carried(r, s)
    ensures s.roster == r.roster && s.id == r.id && s.version == r.version
  {
  }

  /** What a payment by the actor leaves on the tables, before the run itself is saved. */
  ghost predicate PaidBy(w: World, u: World, run: Id, actor: Id, paid: Earnings, owed: Earnings) {
    && Paying(w, u, run, actor) && u.history == w.history
    && Credited(u, actor) == Plus(Credited(w, actor), Plus(paid, owed))
    && (forall a :: a != actor ==> Credited(u, a) == Credited(w, a))
    && Total(u.rows, actor, w.headers.Keys) == Plus(Total(w.rows, actor, w.headers.Keys), owed)
  }

  lemma PayingNothing(w: World, run: Id, actor: Id)
    ensures PaidBy(w, w, run, actor, NOTHING, NOTHING)
  {
    hide Total, IsRetained;
  }

  lemma PayingActor(w: World, b: Run, actor: Id, order: seq<Id>, run: Id)
    requires Inv(w) && NoDuplicates(order) && FindRun(w, run).Some? && EnrolledIn(w, actor, run)
    requires PayActor(w, b, actor, order).Success?
    ensures var (u, c) := PayActor(w, b, actor, order).value;
      && PaidBy(w, u, run, actor, RecipientOf(b.recipients, actor).pending, SumPending(FindRetained(w, actor, order)))
      && Release(RecipientOf(b.recipients, actor)).Success?
      && c == b.(recipients := b.recipients[actor := Release(RecipientOf(b.recipients, actor)).value])
  {
    hide Total, PayActor, SumPending, FindRetained, HeaderOk, EnrolmentsOk, ReceiptsOk, HistoryOk, TimerOk, CreditsOk, Release;
    forall other | IsRetained(w, other, actor) ensures other in w.headers.Keys {
      assert RowOk(w, RowKey(other, actor));
    }
    PayActorPays(w, b, actor, order, run);
    PayActorBalances(w, b, actor, order, w.headers.Keys);
  }
}

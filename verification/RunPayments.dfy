/** Paying an actor: one credit covers exactly its own pending stock and every retained balance. */
module RunPayments {
  import opened Common
  import opened RunTypes
  import opened RunEarnings
  import opened RunProgress
  import opened RunWorld
  import opened RunCommands
  import opened RunInvariants
  import opened RunTransactions

  predicate Pays(retained: seq<Retained>, run: Id) {
    exists i :: 0 <= i < |retained| && retained[i].run == run
  }

  /** What the store answers: distinct runs, each with its row as it stands. */
  ghost predicate Snapshot(w: World, actor: Id, retained: seq<Retained>) {
    && (forall i, j :: 0 <= i < j < |retained| ==> retained[i].run != retained[j].run)
    && (forall i :: 0 <= i < |retained| ==>
          IsRetained(w, retained[i].run, actor) && w.rows[RowKey(retained[i].run, actor)] == retained[i].recipient)
  }

  lemma {:induction false} FoundSnapshot(w: World, actor: Id, order: seq<Id>)
    requires NoDuplicates(order)
    ensures Snapshot(w, actor, FindRetained(w, actor, order))
    ensures forall i :: 0 <= i < |FindRetained(w, actor, order)| ==> FindRetained(w, actor, order)[i].run in order
    ensures forall run :: run in order && IsRetained(w, run, actor) ==> Pays(FindRetained(w, actor, order), run)
    decreases |order|
  {
    if order != [] {
      var n := |order| - 1;
      hide IsRetained;
      FoundSnapshot(w, actor, order[..n]);
      var before, after := FindRetained(w, actor, order[..n]), FindRetained(w, actor, order);
      assert before <= after;
      forall run | run in order && IsRetained(w, run, actor) ensures Pays(after, run) {
        if run == order[n] {
          assert after[|after| - 1].run == run;
        } else {
          assert run in order[..n];
          assert Pays(before, run);
          var i :| 0 <= i < |before| && before[i].run == run;
          assert after[i].run == run;
        }
      }
    }
  }

  function SumPending(retained: seq<Retained>): Earnings {
    if retained == [] then NOTHING
    else Plus(SumPending(retained[..|retained| - 1]), retained[|retained| - 1].recipient.pending)
  }

  lemma PlusAssociates(a: Earnings, b: Earnings, c: Earnings)
    ensures Plus(Plus(a, b), c) == Plus(a, Plus(b, c)) && Plus(a, NOTHING) == a
  {
  }

  lemma {:induction false} DueIsSum(pending: Earnings, retained: seq<Retained>)
    requires Due(pending, retained).Success?
    ensures Due(pending, retained).value == Plus(pending, SumPending(retained))
    decreases |retained|
  {
    if retained != [] {
      var n := |retained| - 1;
      DueIsSum(pending, retained[..n]);
      PlusAssociates(pending, SumPending(retained[..n]), retained[n].recipient.pending);
    }
  }

  /** Every retained row of the list is paid off, and nothing else changes. */
  ghost predicate Settled(w: World, v: World, actor: Id, retained: seq<Retained>) {
    && v == w.(rows := v.rows) && v.rows.Keys == w.rows.Keys
    && (forall key :: key in w.rows && !(key.actor == actor && Pays(retained, key.run)) ==> v.rows[key] == w.rows[key])
    && (forall key :: key in w.rows && key.actor == actor && Pays(retained, key.run) ==> PaidOff(w.rows[key], v.rows[key]))
  }

  lemma PaysSplit(retained: seq<Retained>, run: Id)
    requires retained != []
    ensures Pays(retained, run) <==> Pays(retained[..|retained| - 1], run) || retained[|retained| - 1].run == run
  {
    var n := |retained| - 1;
    if Pays(retained, run) && retained[n].run != run {
      var i :| 0 <= i < |retained| && retained[i].run == run;
      assert retained[..n][i].run == run;
    }
    if Pays(retained[..n], run) {
      var i :| 0 <= i < n && retained[..n][i].run == run;
      assert retained[i].run == run;
    }
  }

  lemma SettleOneMore(w: World, u: World, v: World, actor: Id, retained: seq<Retained>)
    requires retained != [] && Snapshot(w, actor, retained)
    requires Settled(w, u, actor, retained[..|retained| - 1])
    requires Release(retained[|retained| - 1].recipient).Success?
    requires SaveRetained(u, actor, retained[|retained| - 1], Release(retained[|retained| - 1].recipient).value) == Success(v)
    ensures Settled(w, v, actor, retained)
  {
    hide Release;
    var n := |retained| - 1;
    var entry := retained[n];
    forall run ensures Pays(retained, run) <==> Pays(retained[..n], run) || entry.run == run {
      PaysSplit(retained, run);
    }
    assert !Pays(retained[..n], entry.run);
  }

  lemma {:induction false} SettleRetainedSettles(w: World, actor: Id, retained: seq<Retained>)
    requires Snapshot(w, actor, retained) && SettleRetained(w, actor, retained).Success?
    ensures Settled(w, SettleRetained(w, actor, retained).value, actor, retained)
    decreases |retained|
  {
    hide Release, SaveRetained, IsRetained;
    if retained != [] {
      var n := |retained| - 1;
      assert Snapshot(w, actor, retained[..n]);
      SettleRetainedSettles(w, actor, retained[..n]);
      SettleOneMore(w, SettleRetained(w, actor, retained[..n]).value, SettleRetained(w, actor, retained).value, actor, retained);
    }
  }

  lemma PaidOffApplied(p: Recipient, q: Recipient)
    requires PaidOff(p, q)
    ensures q.applied == Plus(p.applied, p.pending)
  {
  }

  /** Settling the list raises the actor's total by exactly what the rows owed. */
  lemma {:induction false} SettledTotal(rows: map<RowKey, Recipient>, rows': map<RowKey, Recipient>, actor: Id, retained: seq<Retained>, runs: set<Id>)
    requires forall i, j :: 0 <= i < j < |retained| ==> retained[i].run != retained[j].run
    requires forall i :: 0 <= i < |retained| ==>
      && retained[i].run in runs
      && AppliedAt(rows', RowKey(retained[i].run, actor)) == Plus(AppliedAt(rows, RowKey(retained[i].run, actor)), retained[i].recipient.pending)
    requires forall run :: run in runs && !Pays(retained, run) ==> AppliedAt(rows', RowKey(run, actor)) == AppliedAt(rows, RowKey(run, actor))
    ensures Total(rows', actor, runs) == Plus(Total(rows, actor, runs), SumPending(retained))
    decreases |retained|
  {
    hide Total, AppliedAt, Plus;
    if retained == [] {
      TotalSame(rows, rows', actor, runs);
      PlusAssociates(Total(rows, actor, runs), NOTHING, NOTHING);
    } else {
      var n := |retained| - 1;
      var run := retained[n].run;
      var rest := runs - {run};
      forall other | other in rest && !Pays(retained[..n], other)
        ensures AppliedAt(rows', RowKey(other, actor)) == AppliedAt(rows, RowKey(other, actor))
      {
        PaysSplit(retained, other);
      }
      SettledTotal(rows, rows', actor, retained[..n], rest);
      TotalSplit(rows, actor, runs, run);
      TotalSplit(rows', actor, runs, run);
      Rearrange(AppliedAt(rows, RowKey(run, actor)), retained[n].recipient.pending, Total(rows, actor, rest), SumPending(retained[..n]));
    }
  }

  lemma Rearrange(a: Earnings, b: Earnings, c: Earnings, d: Earnings)
    ensures Plus(Plus(a, b), Plus(c, d)) == Plus(Plus(a, c), Plus(d, b))
  {
  }

  // ---------- the command's own payment ----------

  /** Before the run itself is saved, a payment has touched only retained rows and the credit. */
  ghost predicate Paying(w: World, v: World, run: Id, actor: Id) {
    && v == w.(rows := v.rows, credited := v.credited, history := v.history)
    && v.rows.Keys == w.rows.Keys
    && (forall key :: key in w.rows && key.run == run ==> v.rows[key] == w.rows[key])
    && (forall key :: key in w.rows && key.run != run ==> OtherRowKept(w, v, key, actor))
  }

  lemma PayActorPays(w: World, r: Run, actor: Id, order: seq<Id>, run: Id)
    requires NoDuplicates(order) && !IsRetained(w, run, actor) && PayActor(w, r, actor, order).Success?
    ensures var (v, s) := PayActor(w, r, actor, order).value;
      && Paying(w, v, run, actor) && v.history == w.history
  {
    hide Release, Due, FindRetained, SettleRetained, IsRetained;
    var p := RecipientOf(r.recipients, actor);
    var retained := FindRetained(w, actor, order);
    var due := Due(p.pending, retained).value;
    var credited := Credit(w, actor, due);
    FoundSnapshot(w, actor, order);
    CreditRetained(w, actor, due, retained);
    SettleRetainedSettles(credited, actor, retained);
    var v := PayActor(w, r, actor, order).value.0;
    assert Settled(credited, v, actor, retained);
    assert !Pays(retained, run);
    forall key | key in w.rows && key.run != run ensures OtherRowKept(w, v, key, actor) {
      if key.actor == actor && Pays(retained, key.run) {
        assert PaidOff(w.rows[key], v.rows[key]);
      }
    }
  }

  lemma CreditRetained(w: World, actor: Id, due: Earnings, retained: seq<Retained>)
    requires Snapshot(w, actor, retained)
    ensures Snapshot(Credit(w, actor, due), actor, retained)
  {
    forall run ensures IsRetained(Credit(w, actor, due), run, actor) == IsRetained(w, run, actor) {
    }
    hide IsRetained;
  }

  /** The credit and the ledgers move by the same amount. */
  lemma PayActorBalances(w: World, r: Run, actor: Id, order: seq<Id>, runs: set<Id>)
    requires NoDuplicates(order) && PayActor(w, r, actor, order).Success?
    requires forall run :: IsRetained(w, run, actor) ==> run in runs
    ensures var (v, s) := PayActor(w, r, actor, order).value;
      var owed := SumPending(FindRetained(w, actor, order));
      && Credited(v, actor) == Plus(Credited(w, actor), Plus(RecipientOf(r.recipients, actor).pending, owed))
      && (forall a :: a != actor ==> Credited(v, a) == Credited(w, a))
      && Total(v.rows, actor, runs) == Plus(Total(w.rows, actor, runs), owed)
      && s == r.(recipients := r.recipients[actor := Release(RecipientOf(r.recipients, actor)).value])
      && Release(RecipientOf(r.recipients, actor)).Success?
  {
    hide Release, Due, FindRetained, SettleRetained, IsRetained, Total, SumPending;
    var p := RecipientOf(r.recipients, actor);
    var retained := FindRetained(w, actor, order);
    var due := Due(p.pending, retained).value;
    var credited := Credit(w, actor, due);
    DueIsSum(p.pending, retained);
    FoundSnapshot(w, actor, order);
    CreditRetained(w, actor, due, retained);
    SettleRetainedSettles(credited, actor, retained);
    var v := PayActor(w, r, actor, order).value.0;
    SettledMoves(w, v, credited, actor, retained);
    SettledTotal(w.rows, v.rows, actor, retained, runs);
  }

  lemma SettledMoves(w: World, v: World, credited: World, actor: Id, retained: seq<Retained>)
    requires credited.rows == w.rows && Snapshot(w, actor, retained) && Settled(credited, v, actor, retained)
    ensures forall i :: 0 <= i < |retained| ==>
      AppliedAt(v.rows, RowKey(retained[i].run, actor)) == Plus(AppliedAt(w.rows, RowKey(retained[i].run, actor)), retained[i].recipient.pending)
    ensures forall run :: !Pays(retained, run) ==> AppliedAt(v.rows, RowKey(run, actor)) == AppliedAt(w.rows, RowKey(run, actor))
  {
    hide Release, Plus;
    forall i | 0 <= i < |retained|
      ensures AppliedAt(v.rows, RowKey(retained[i].run, actor)) == Plus(AppliedAt(w.rows, RowKey(retained[i].run, actor)), retained[i].recipient.pending)
    {
      var key := RowKey(retained[i].run, actor);
      assert Pays(retained, key.run);
      assert key in w.rows;
      PaidOffApplied(w.rows[key], v.rows[key]);
    }
  }
}

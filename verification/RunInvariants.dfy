/** What every committed state of the tables keeps, and the sum that ties payments to ledgers. */
module RunInvariants {
  import opened Common
  import opened RunTypes
  import opened RunEarnings
  import opened RunProgress
  import opened RunTravel
  import opened RunWorld
  import opened RunCommands

  // ---------- one run ----------

  /** Playing in the room, timed out in the room with a penalty still to be served, or gone with nothing owed. */
  predicate StandingOk(r: Run, id: Id)
    requires id in r.recipients
  {
    var p := r.recipients[id];
    if id !in r.roster then p.disposition == Exited && p.pending == NOTHING && p.conditional == NOTHING
    else if r.timedOut then p.disposition == TimedOut && p.timerPending
    else p.disposition == Playing
  }

  ghost predicate PartyOk(r: Run) {
    && r.roster != [] && NoDuplicates(r.roster) && r.leader in r.roster
    && (forall id :: id in r.roster ==> id in r.recipients)
    && (forall id :: id in r.recipients ==> StandingOk(r, id))
  }

  ghost predicate RunOk(r: Run) {
    PartyOk(r) && Honest(r) && AllBalanced(r.recipients)
  }

  // ---------- the tables ----------

  ghost predicate LiveOk(w: World, id: Id, r: Run) {
    && r.id == id && id in w.headers && w.headers[id].version == r.version && w.headers[id].admission == Some(r.admission)
    && RunOk(r)
    && (forall a :: a in r.recipients ==> Lookup(w.rows, RowKey(id, a)) == Some(r.recipients[a]))
    && (forall a :: a in r.roster ==> EnrolledIn(w, a, id))
  }

  ghost predicate HeaderOk(w: World, id: Id)
    requires id in w.headers
  {
    var header := w.headers[id];
    && header.version >= 0
    && (header.version >= 1 <==> header.admission.Some?)
    && (header.state.Some? ==> header.version >= 1 && LiveOk(w, id, header.state.value))
  }

  ghost predicate HeadersOk(w: World) {
    forall id :: id in w.headers ==> HeaderOk(w, id)
  }

  /** A row of a run whose state is gone was finished, and a row of a live run belongs to it. */
  ghost predicate RowOk(w: World, key: RowKey)
    requires key in w.rows
  {
    && Balanced(w.rows[key])
    && key.run in w.headers && w.headers[key.run].version >= 1
    && (w.headers[key.run].state.Some? ==> key.actor in w.headers[key.run].state.value.recipients)
    && (w.headers[key.run].state.None? ==> Released(w.rows[key]))
  }

  ghost predicate RowsOk(w: World) {
    forall key :: key in w.rows ==> RowOk(w, key)
  }

  ghost predicate EnrolmentsOk(w: World) {
    forall a :: a in w.enrolled ==> FindRun(w, w.enrolled[a]).Some? && a in FindRun(w, w.enrolled[a]).value.roster
  }

  ghost predicate ReceiptOk(w: World, key: ReceiptKey)
    requires key in w.receipts
  {
    var receipt := w.receipts[key];
    && receipt.command.run == key.run && receipt.command.id == key.id
    && receipt.version == receipt.command.version + 1
    && key.run in w.headers && 1 <= receipt.version <= w.headers[key.run].version
  }

  ghost predicate ReceiptsOk(w: World) {
    && (forall key :: key in w.receipts ==> ReceiptOk(w, key))
    && forall k, l :: k in w.receipts && l in w.receipts && k.run == l.run && w.receipts[k].version == w.receipts[l].version ==> k == l
  }

  predicate About(entry: Adventure, key: RowKey) {
    entry.run == key.run && entry.actor == key.actor
  }

  predicate Written(history: seq<Adventure>, key: RowKey) {
    exists i :: 0 <= i < |history| && About(history[i], key)
  }

  ghost predicate EntryOk(w: World, entry: Adventure) {
    var key := RowKey(entry.run, entry.actor);
    && key in w.rows && entry.disposition == w.rows[key].disposition
    && (entry.cleared <==> ClearedBy(entry.trail)) && (entry.cleared ==> BOSS_FLOOR in entry.trail.created)
    && FloorsFollow(entry.floors, entry.trail)
  }

  ghost predicate OnceEach(history: seq<Adventure>) {
    forall i, j :: 0 <= i < j < |history| ==> RowKey(history[i].run, history[i].actor) != RowKey(history[j].run, history[j].actor)
  }

  /** One record for every participation that ended and none for one that goes on. */
  ghost predicate HistoryOk(w: World) {
    && OnceEach(w.history)
    && (forall i :: 0 <= i < |w.history| ==> EntryOk(w, w.history[i]))
    && (forall key :: key in w.rows ==> (Written(w.history, key) <==> w.rows[key].disposition != Playing))
  }

  /** Every served penalty was handed to the timer at its one deadline, and only such deadlines ever were. */
  ghost predicate TimerOk(w: World) {
    && (forall key :: key in w.rows && w.rows[key].disposition == TimedOut && !w.rows[key].timerPending ==>
          (key.actor, w.rows[key].penaltyUntil) in w.projected)
    && (forall told :: told in w.projected ==> exists key :: key in w.rows && TimedOutAt(w.rows[key], key, told))
  }

  predicate TimedOutAt(p: Recipient, key: RowKey, told: (Id, Time)) {
    p.disposition == TimedOut && key.actor == told.0 && p.penaltyUntil == told.1
  }

  // ---------- payments against ledgers ----------

  function AppliedAt(rows: map<RowKey, Recipient>, key: RowKey): Earnings {
    if key in rows then rows[key].applied else NOTHING
  }

  /** What an actor's rows say was applied, over a set of runs. */
  ghost function Total(rows: map<RowKey, Recipient>, actor: Id, runs: set<Id>): Earnings
    decreases |runs|
  {
    if runs == {} then NOTHING
    else
      var run := Pick(runs);
      Plus(AppliedAt(rows, RowKey(run, actor)), Total(rows, actor, runs - {run}))
  }

  ghost predicate CreditsOk(w: World) {
    forall a :: Credited(w, a) == Total(w.rows, a, w.headers.Keys)
  }

  lemma PlusSwaps(a: Earnings, b: Earnings, c: Earnings)
    ensures Plus(a, Plus(b, c)) == Plus(b, Plus(a, c)) == Plus(Plus(b, a), c)
  {
  }

  lemma PlusCommutes(a: Earnings, b: Earnings, c: Earnings)
    ensures Plus(Plus(a, c), b) == Plus(Plus(a, b), c)
  {
  }

  ghost function Pick(runs: set<Id>): (run: Id)
    requires runs != {}
    ensures run in runs
  {
    var run :| run in runs;
    run
  }

  lemma {:induction false} TotalSplit(rows: map<RowKey, Recipient>, actor: Id, runs: set<Id>, run: Id)
    requires run in runs
    ensures Total(rows, actor, runs) == Plus(AppliedAt(rows, RowKey(run, actor)), Total(rows, actor, runs - {run}))
    decreases |runs|
  {
    hide AppliedAt, Plus, Pick;
    var first := Pick(runs);
    if first != run {
      TotalSplit(rows, actor, runs - {first}, run);
      TotalSplit(rows, actor, runs - {run}, first);
      assert runs - {first} - {run} == runs - {run} - {first};
      PlusSwaps(AppliedAt(rows, RowKey(first, actor)), AppliedAt(rows, RowKey(run, actor)), Total(rows, actor, runs - {first} - {run}));
    }
  }

  lemma {:induction false} TotalSame(rows: map<RowKey, Recipient>, rows': map<RowKey, Recipient>, actor: Id, runs: set<Id>)
    requires forall run :: run in runs ==> AppliedAt(rows', RowKey(run, actor)) == AppliedAt(rows, RowKey(run, actor))
    ensures Total(rows', actor, runs) == Total(rows, actor, runs)
    decreases |runs|
  {
    hide AppliedAt, Plus, Pick;
    if runs != {} {
      TotalSame(rows, rows', actor, runs - {Pick(runs)});
    }
  }

  /** Paying one row raises its actor's total by exactly the payment. */
  lemma TotalPaid(rows: map<RowKey, Recipient>, rows': map<RowKey, Recipient>, actor: Id, runs: set<Id>, run: Id, amount: Earnings)
    requires run in runs
    requires AppliedAt(rows', RowKey(run, actor)) == Plus(AppliedAt(rows, RowKey(run, actor)), amount)
    requires forall other :: other in runs && other != run ==> AppliedAt(rows', RowKey(other, actor)) == AppliedAt(rows, RowKey(other, actor))
    ensures Total(rows', actor, runs) == Plus(Total(rows, actor, runs), amount)
  {
    hide AppliedAt, Plus, Total;
    TotalSplit(rows, actor, runs, run);
    TotalSplit(rows', actor, runs, run);
    TotalSame(rows, rows', actor, runs - {run});
    PlusCommutes(AppliedAt(rows, RowKey(run, actor)), Total(rows, actor, runs - {run}), amount);
  }

  /** A run nobody has a row in adds nothing. */
  lemma TotalGrows(rows: map<RowKey, Recipient>, actor: Id, runs: set<Id>, run: Id)
    requires AppliedAt(rows, RowKey(run, actor)) == NOTHING
    ensures Total(rows, actor, runs + {run}) == Total(rows, actor, runs)
  {
    if run in runs {
      assert runs + {run} == runs;
    } else {
      TotalSplit(rows, actor, runs + {run}, run);
      assert runs + {run} - {run} == runs;
    }
  }

  ghost predicate Inv(w: World) {
    HeadersOk(w) && RowsOk(w) && EnrolmentsOk(w) && ReceiptsOk(w) && HistoryOk(w) && TimerOk(w) && CreditsOk(w)
  }

  ghost function Start(players: map<Id, Id>): World {
    World(players, map[], map[], map[], map[], map[], [], {})
  }

  lemma StartInv(players: map<Id, Id>)
    ensures Inv(Start(players))
  {
  }
}

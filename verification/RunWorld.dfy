/** The durable tables of normal adventure runs, and the store operations over them. */
module RunWorld {
  import opened Common
  import opened RunTypes
  import opened RunEarnings

  datatype Action = Enroll(admission: Admission) | AdvanceFloor | OpenChest | LeaveRun | Cleanup | Combat(name: string)

  datatype Command = Command(player: Id, actor: Id, run: Id, id: string, version: int, action: Action, target: Id, input: string)

  datatype Receipt = Receipt(command: Command, version: int, floor: int, stage: Id, box: Option<Box>, recipient: Recipient)

  /** A run's header row outlives its state, which is gone once the roster is empty. */
  datatype Header = Header(version: int, admission: Option<Admission>, state: Option<Run>)

  datatype RowKey = RowKey(run: Id, actor: Id)

  datatype ReceiptKey = ReceiptKey(run: Id, id: string)

  /** `trail` is the run's trail at the time of writing. */
  datatype Adventure = Adventure(run: Id, actor: Id, disposition: Disposition, cleared: bool, floors: int, trail: Trail)

  /**
   `players` owns the characters. `credited` is what the settler has ever paid an actor, and
   `projected` the penalty deadlines handed to the external timer, which no rollback undoes.
   */
  datatype World = World(
    players: map<Id, Id>,
    headers: map<Id, Header>,
    enrolled: map<Id, Id>,
    rows: map<RowKey, Recipient>,
    receipts: map<ReceiptKey, Receipt>,
    credited: map<Id, Earnings>,
    history: seq<Adventure>,
    projected: set<(Id, Time)>)

  function Lookup<K, V>(table: map<K, V>, key: K): Option<V> {
    if key in table then Some(table[key]) else None
  }

  function FindRun(w: World, id: Id): Option<Run> {
    if id in w.headers then w.headers[id].state else None
  }

  function Credited(w: World, actor: Id): Earnings {
    if actor in w.credited then w.credited[actor] else NOTHING
  }

  function Authorize(w: World, player: Id, actor: Id): Option<Error> {
    if player == NOBODY || actor == NOBODY then Some(RunForbidden)
    else if actor !in w.players then Some(NotFound)
    else if w.players[actor] != player then Some(RunForbidden)
    else None
  }

  // ---------- ledger rows ----------

  /** A finished row gives its character's enrollment back. */
  predicate Released(p: Recipient) {
    p.disposition == Exited || (p.disposition == TimedOut && !p.timerPending)
  }

  predicate EnrolledIn(w: World, actor: Id, run: Id) {
    Lookup(w.enrolled, actor) == Some(run)
  }

  function RowsOf(run: Id, recipients: map<Id, Recipient>): map<RowKey, Recipient> {
    map key | key in (set id | id in recipients :: RowKey(run, id)) :: recipients[key.actor]
  }

  /** Every recipient's row is written and every finished one released. */
  function SaveRecipients(w: World, run: Id, recipients: map<Id, Recipient>): Result<World, Error> {
    if exists id :: id in recipients && RowKey(run, id) !in w.rows then Failure(RunRecovery)
    else Success(w.(rows := w.rows + RowsOf(run, recipients),
                    enrolled := map a | a in w.enrolled && !(w.enrolled[a] == run && a in recipients && Released(recipients[a])) :: w.enrolled[a]))
  }

  /** One more version, under an admission that never changes. */
  function SaveRun(w: World, r: Run, expected: int): Result<World, Error> {
    if r.id !in w.headers || r.version != expected + 1 || w.headers[r.id].version != expected then Failure(RunConflict)
    else if w.headers[r.id].admission.Some? && w.headers[r.id].admission.value != r.admission then Failure(RunConflict)
    else Success(w.(headers := w.headers[r.id := Header(r.version, Some(r.admission), if r.roster == [] then None else Some(r))]))
  }

  function SaveReceipt(w: World, receipt: Receipt): Result<World, Error> {
    var key := ReceiptKey(receipt.command.run, receipt.command.id);
    if key in w.receipts then Failure(StorageFailure) else Success(w.(receipts := w.receipts[key := receipt]))
  }

  // ---------- balances that earlier timed-out runs left ----------

  datatype Retained = Retained(run: Id, recipient: Recipient)

  predicate Owed(e: Earnings) {
    e.exp > 0 || e.gold > 0 || e.crystals > 0
  }

  predicate IsRetained(w: World, run: Id, actor: Id) {
    var row := Lookup(w.rows, RowKey(run, actor));
    row.Some? && row.value.disposition == TimedOut && Owed(row.value.pending) && !EnrolledIn(w, actor, run)
  }

  /** The store's answer; `order` is its ordering of the run identifiers. */
  function FindRetained(w: World, actor: Id, order: seq<Id>): seq<Retained> {
    if order == [] then []
    else
      var run := order[|order| - 1];
      FindRetained(w, actor, order[..|order| - 1])
        + (if IsRetained(w, run, actor) then [Retained(run, w.rows[RowKey(run, actor)])] else [])
  }

  function Due(pending: Earnings, retained: seq<Retained>): Result<Earnings, Error> {
    if retained == [] then Success(pending)
    else
      var before :- Due(pending, retained[..|retained| - 1]);
      Add(before, retained[|retained| - 1].recipient.pending)
  }

  /** Refused unless the row is still released, timed out, and owes what was credited. */
  function SaveRetained(w: World, actor: Id, entry: Retained, paid: Recipient): Result<World, Error> {
    var key := RowKey(entry.run, actor);
    if key !in w.rows || w.rows[key].disposition != TimedOut || EnrolledIn(w, actor, entry.run) then Failure(RunConflict)
    else if w.rows[key].pending != entry.recipient.pending then Failure(RunConflict)
    else Success(w.(rows := w.rows[key := paid]))
  }

  function SettleRetained(w: World, actor: Id, retained: seq<Retained>): Result<World, Error> {
    if retained == [] then Success(w)
    else
      var before :- SettleRetained(w, actor, retained[..|retained| - 1]);
      var entry := retained[|retained| - 1];
      var paid :- Release(entry.recipient);
      SaveRetained(before, actor, entry, paid)
  }
}

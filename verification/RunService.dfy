/** The normal-run service over its tables: each method is proved to be its transaction's specification. */
module RunService {
  import opened Common
  import opened RunTypes
  import opened RunEarnings
  import opened RunProgress
  import opened RunTravel
  import opened RunOrder
  import opened RunWorld
  import opened RunActive
  import opened RunCommits
  import opened RunAdmission
  import Spec = RunCommands
  import opened RunCommands

  lemma {:induction false} PlayPrefixFails(r: Run, actor: Id, steps: seq<Step>, now: Time, n: nat)
    requires n <= |steps| && Play(r, actor, steps[..n], now).Failure?
    ensures Play(r, actor, steps, now) == Failure(Play(r, actor, steps[..n], now).error)
    decreases |steps|
  {
    hide PlayStep, Moved;
    if n == |steps| {
      assert steps[..n] == steps;
    } else {
      var m := |steps| - 1;
      assert steps[..m][..n] == steps[..n];
      PlayPrefixFails(r, actor, steps[..m], now, n);
    }
  }

  lemma {:induction false} DuePrefixFails(pending: Earnings, retained: seq<Retained>, n: nat)
    requires n <= |retained| && Due(pending, retained[..n]).Failure?
    ensures Due(pending, retained) == Failure(Due(pending, retained[..n]).error)
    decreases |retained|
  {
    hide Add;
    if n == |retained| {
      assert retained[..n] == retained;
    } else {
      var m := |retained| - 1;
      assert retained[..m][..n] == retained[..n];
      DuePrefixFails(pending, retained[..m], n);
    }
  }

  lemma {:induction false} SettlePrefixFails(w: World, actor: Id, retained: seq<Retained>, n: nat)
    requires n <= |retained| && SettleRetained(w, actor, retained[..n]).Failure?
    ensures SettleRetained(w, actor, retained) == Failure(SettleRetained(w, actor, retained[..n]).error)
    decreases |retained|
  {
    hide Release, SaveRetained;
    if n == |retained| {
      assert retained[..n] == retained;
    } else {
      var m := |retained| - 1;
      assert retained[..m][..n] == retained[..n];
      SettlePrefixFails(w, actor, retained[..m], n);
    }
  }

  lemma {:induction false} RosterPrefixFails(w: World, r: Run, roster: seq<Id>, n: nat)
    requires n <= |roster| && RosterRefusal(w, r, roster[..n]).Some?
    ensures RosterRefusal(w, r, roster) == RosterRefusal(w, r, roster[..n])
    decreases |roster|
  {
    if n == |roster| {
      assert roster[..n] == roster;
    } else {
      var m := |roster| - 1;
      assert roster[..m][..n] == roster[..n];
      RosterPrefixFails(w, r, roster[..m], n);
    }
  }

  /** The tables after the recipients in `done` were written. */
  ghost predicate WrittenSoFar(w: World, rows: map<RowKey, Recipient>, enrolled: map<Id, Id>, run: Id, recipients: map<Id, Recipient>, done: set<Id>) {
    && rows.Keys == w.rows.Keys
    && (forall key :: key in rows ==>
          rows[key] == if key.run == run && key.actor in done && key.actor in recipients then recipients[key.actor] else w.rows[key])
    && (forall a :: a in enrolled <==> a in w.enrolled && !(w.enrolled[a] == run && a in done && a in recipients && Released(recipients[a])))
    && (forall a :: a in enrolled ==> enrolled[a] == w.enrolled[a])
  }

  lemma NothingWrittenYet(w: World, run: Id, recipients: map<Id, Recipient>)
    ensures WrittenSoFar(w, w.rows, w.enrolled, run, recipients, {})
  {
  }

  lemma WrittenKeys(w: World, rows: map<RowKey, Recipient>, enrolled: map<Id, Id>, run: Id, recipients: map<Id, Recipient>, done: set<Id>)
    requires WrittenSoFar(w, rows, enrolled, run, recipients, done)
    ensures rows.Keys == w.rows.Keys
  {
  }

  lemma WrittenOneMore(w: World, rows: map<RowKey, Recipient>, enrolled: map<Id, Id>, run: Id, recipients: map<Id, Recipient>, done: set<Id>, id: Id)
    requires WrittenSoFar(w, rows, enrolled, run, recipients, done) && id in recipients && id !in done && RowKey(run, id) in w.rows
    ensures WrittenSoFar(w, rows[RowKey(run, id) := recipients[id]],
      if Released(recipients[id]) && Lookup(enrolled, id) == Some(run) then enrolled - {id} else enrolled,
      run, recipients, done + {id})
  {
    hide Released;
    assert rows[RowKey(run, id) := recipients[id]].Keys == w.rows.Keys;
  }

  lemma AllWritten(w: World, v: World, run: Id, recipients: map<Id, Recipient>)
    requires WrittenSoFar(w, v.rows, v.enrolled, run, recipients, recipients.Keys)
    requires v == w.(rows := v.rows, enrolled := v.enrolled)
    requires forall id :: id in recipients ==> RowKey(run, id) in w.rows
    ensures SaveRecipients(w, run, recipients) == Success(v)
  {
    RowsOfIs(run, recipients);
    var rows := w.rows + RowsOf(run, recipients);
    assert v.rows == rows;
    assert v.enrolled == map a | a in w.enrolled && !(w.enrolled[a] == run && a in recipients && Released(recipients[a])) :: w.enrolled[a];
  }

  lemma DeadlinesGrow(recipients: map<Id, Recipient>, roster: seq<Id>, id: Id)
    ensures Deadlines(recipients, roster + [id]) ==
      Deadlines(recipients, roster) + (if RecipientOf(recipients, id).timerPending then {(id, RecipientOf(recipients, id).penaltyUntil)} else {})
  {
  }

  class NormalRunService {
    const players: map<Id, Id>
    var headers: map<Id, Header>
    var enrolled: map<Id, Id>
    var rows: map<RowKey, Recipient>
    var receipts: map<ReceiptKey, Receipt>
    var credited: map<Id, Earnings>
    var history: seq<Adventure>
    var projected: set<(Id, Time)>

    function Value(): World
      reads this
    {
      World(players, headers, enrolled, rows, receipts, credited, history, projected)
    }

    constructor (players: map<Id, Id>)
      ensures Value() == World(players, map[], map[], map[], map[], map[], [], {})
    {
      this.players := players;
      headers, enrolled, rows, receipts, credited, history, projected := map[], map[], map[], map[], map[], [], {};
    }

    /** The database undoes every table; what the timer was told stays told. */
    method Rollback(w: World)
      requires w.players == players
      modifies this`headers, this`enrolled, this`rows, this`receipts, this`credited, this`history
      ensures Value() == w.(projected := projected)
    {
      headers, enrolled, rows, receipts, credited, history := w.headers, w.enrolled, w.rows, w.receipts, w.credited, w.history;
    }

    // ---------- store operations ----------

    method SaveRecipient(run: Id, id: Id, p: Recipient)
      modifies this`rows, this`enrolled
      ensures rows == old(rows)[RowKey(run, id) := p]
      ensures enrolled == if Released(p) && Lookup(old(enrolled), id) == Some(run) then old(enrolled) - {id} else old(enrolled)
    {
      rows := rows[RowKey(run, id) := p];
      if Released(p) && Lookup(enrolled, id) == Some(run) {
        enrolled := enrolled - {id};
      }
    }

    method SaveRecipients(run: Id, recipients: map<Id, Recipient>) returns (error: Option<Error>)
      modifies this`rows, this`enrolled
      ensures error.None? ==> RunWorld.SaveRecipients(old(Value()), run, recipients) == Success(Value())
      ensures error.Some? ==> RunWorld.SaveRecipients(old(Value()), run, recipients) == Failure(error.value)
    {
      hide Released, WrittenSoFar;
      NothingWrittenYet(Value(), run, recipients);
      var left := recipients.Keys;
      ghost var done: set<Id> := {};
      while left != {}
        invariant done + left == recipients.Keys && done !! left
        invariant forall id :: id in done ==> RowKey(run, id) in old(rows)
        invariant WrittenSoFar(old(Value()), rows, enrolled, run, recipients, done)
        decreases left
      {
        var id :| id in left;
        WrittenKeys(old(Value()), rows, enrolled, run, recipients, done);
        if RowKey(run, id) !in rows {
          return Some(RunRecovery);
        }
        WrittenOneMore(old(Value()), rows, enrolled, run, recipients, done, id);
        SaveRecipient(run, id, recipients[id]);
        left, done := left - {id}, done + {id};
      }
      assert done == recipients.Keys;
      AllWritten(old(Value()), Value(), run, recipients);
      return None;
    }

    method SaveRun(run: ActiveRun, expected: int) returns (error: Option<Error>)
      modifies this`headers
      ensures error.None? ==> RunWorld.SaveRun(old(Value()), run.Value(), expected) == Success(Value())
      ensures error.Some? ==> RunWorld.SaveRun(old(Value()), run.Value(), expected) == Failure(error.value)
    {
      if run.id !in headers || run.version != expected + 1 || headers[run.id].version != expected {
        return Some(RunConflict);
      }
      if headers[run.id].admission.Some? && headers[run.id].admission.value != run.admission {
        return Some(RunConflict);
      }
      headers := headers[run.id := Header(run.version, Some(run.admission), if run.roster == [] then None else Some(run.Value()))];
      return None;
    }

    method SaveReceipt(receipt: Receipt) returns (error: Option<Error>)
      modifies this`receipts
      ensures error.None? ==> RunWorld.SaveReceipt(old(Value()), receipt) == Success(Value())
      ensures error.Some? ==> RunWorld.SaveReceipt(old(Value()), receipt) == Failure(error.value)
    {
      var key := ReceiptKey(receipt.command.run, receipt.command.id);
      if key in receipts {
        return Some(StorageFailure);
      }
      receipts := receipts[key := receipt];
      return None;
    }

    method SaveRetained(actor: Id, entry: Retained, paid: Recipient) returns (error: Option<Error>)
      modifies this`rows
      ensures error.None? ==> RunWorld.SaveRetained(old(Value()), actor, entry, paid) == Success(Value())
      ensures error.Some? ==> RunWorld.SaveRetained(old(Value()), actor, entry, paid) == Failure(error.value)
    {
      var key := RowKey(entry.run, actor);
      if key !in rows || rows[key].disposition != TimedOut || EnrolledIn(Value(), actor, entry.run) {
        return Some(RunConflict);
      }
      if rows[key].pending != entry.recipient.pending {
        return Some(RunConflict);
      }
      rows := rows[key := paid];
      return None;
    }

    // ---------- payment ----------

    method RetainedDue(pending: Earnings, retained: seq<Retained>) returns (due: Result<Earnings, Error>)
      ensures due == Due(pending, retained)
    {
      var sum := pending;
      for i := 0 to |retained|
        invariant Due(pending, retained[..i]) == Success(sum)
      {
        assert retained[..i + 1][..i] == retained[..i];
        var more := Add(sum, retained[i].recipient.pending);
        if more.Failure? {
          DuePrefixFails(pending, retained, i + 1);
          return more;
        }
        sum := more.value;
      }
      assert retained[..|retained|] == retained;
      return Success(sum);
    }

    method SettleRetained(actor: Id, retained: seq<Retained>) returns (error: Option<Error>)
      modifies this`rows
      ensures error.None? ==> RunWorld.SettleRetained(old(Value()), actor, retained) == Success(Value())
      ensures error.Some? ==> RunWorld.SettleRetained(old(Value()), actor, retained) == Failure(error.value)
    {
      hide RunWorld.SaveRetained, Release;
      for i := 0 to |retained|
        invariant RunWorld.SettleRetained(old(Value()), actor, retained[..i]) == Success(Value())
      {
        assert retained[..i + 1][..i] == retained[..i];
        var paid := Release(retained[i].recipient);
        if paid.Failure? {
          SettlePrefixFails(old(Value()), actor, retained, i + 1);
          return Some(paid.error);
        }
        error := SaveRetained(actor, retained[i], paid.value);
        if error.Some? {
          SettlePrefixFails(old(Value()), actor, retained, i + 1);
          return;
        }
      }
      assert retained[..|retained|] == retained;
      return None;
    }

    method PayActor(run: ActiveRun, actor: Id, order: seq<Id>) returns (error: Option<Error>)
      modifies this`rows, this`credited, run`recipients
      ensures error.None? ==> Spec.PayActor(old(Value()), old(run.Value()), actor, order) == Success((Value(), run.Value()))
      ensures error.Some? ==> Spec.PayActor(old(Value()), old(run.Value()), actor, order) == Failure(error.value)
    {
      hide Release, Due, FindRetained, RunWorld.SettleRetained;
      var p := RecipientOf(run.recipients, actor);
      var retained := FindRetained(Value(), actor, order);
      var due := RetainedDue(p.pending, retained);
      if due.Failure? {
        return Some(due.error);
      }
      var paid := Release(p);
      if paid.Failure? {
        return Some(paid.error);
      }
      credited := credited[actor := Plus(Credited(Value(), actor), due.value)];
      run.recipients := run.recipients[actor := paid.value];
      error := SettleRetained(actor, retained);
    }

    method Settle(run: ActiveRun, cmd: Command, effects: Effects, release: bool, order: seq<Id>) returns (error: Option<Error>)
      modifies this`rows, this`credited, run`recipients
      ensures error.None? ==> Spec.Settle(old(Value()), old(run.Value()), cmd, effects, release, order) == Success((Value(), run.Value()))
      ensures error.Some? ==> Spec.Settle(old(Value()), old(run.Value()), cmd, effects, release, order) == Failure(error.value)
    {
      hide Spec.PayActor, RecordAll;
      error := run.RecordEarnings(effects.gains);
      if error.Some? {
        return;
      }
      if !SpendingAllowed(run.Value(), cmd.actor, effects.spent) {
        return Some(RunForbidden);
      }
      if !SpendingNamed(effects.spent) {
        return Some(RunConflict);
      }
      if release {
        error := PayActor(run, cmd.actor, order);
      }
    }

    // ---------- one action ----------

    method PlayStep(run: ActiveRun, t: Transition, actor: Id, step: Step, now: Time) returns (r: Result<Transition, Error>)
      modifies run
      ensures r.Success? ==> Spec.PlayStep(old(run.Value()), t, actor, step, now) == Success((run.Value(), r.value))
      ensures r.Failure? ==> Spec.PlayStep(old(run.Value()), t, actor, step, now) == Failure(r.error)
    {
      hide RunTravel.Travel, RunTravel.Room, RunTravel.BeginResponse;
      match step
      case Fight(actors, enemies, clock) =>
        run.actors, run.enemies, run.lastActions := actors, enemies, clock;
        return Success(t);
      case UseTool(tool, input, supply) =>
        r := run.Travel(actor, tool, input, supply);
      case UseRoom(entry, supply) =>
        r := run.Room(actor, entry, supply);
      case Answer(after) =>
        r := Answer(run, t, after, now);
    }

    method Answer(run: ActiveRun, t: Transition, after: seq<Actor>, now: Time) returns (r: Result<Transition, Error>)
      modifies run
      ensures r.Success? ==> Spec.PlayStep(old(run.Value()), t, NOBODY, Spec.Answer(after), now) == Success((run.Value(), r.value))
      ensures r.Failure? ==> Spec.PlayStep(old(run.Value()), t, NOBODY, Spec.Answer(after), now) == Failure(r.error)
    {
      hide RunTravel.BeginResponse, RunNpc.RecordResponse;
      var npc := run.BeginResponse(t, now);
      if npc == NOBODY {
        return Success(t);
      }
      run.actors := after;
      var error := run.RecordResponse(npc, now);
      return if error.Some? then Failure(error.value) else Success(t);
    }

    method Play(run: ActiveRun, actor: Id, steps: seq<Step>, now: Time) returns (error: Option<Error>)
      modifies run
      ensures error.None? ==> exists t :: Spec.Play(old(run.Value()), actor, steps, now) == Success((run.Value(), t))
      ensures error.Some? ==> Spec.Play(old(run.Value()), actor, steps, now) == Failure(error.value)
    {
      hide Spec.PlayStep;
      var t := Moved(run.Value());
      for i := 0 to |steps|
        invariant Spec.Play(old(run.Value()), actor, steps[..i], now) == Success((run.Value(), t))
      {
        assert steps[..i + 1][..i] == steps[..i];
        var next := PlayStep(run, t, actor, steps[i], now);
        if next.Failure? {
          PlayPrefixFails(old(run.Value()), actor, steps, now, i + 1);
          return Some(next.error);
        }
        t := next.value;
      }
      assert steps[..|steps|] == steps;
      return None;
    }

    method Battle(run: ActiveRun, actor: Id, env: Env) returns (r: Result<Effects, Error>)
      modifies run
      ensures r.Success? ==> Spec.Battle(old(run.Value()), actor, env) == Success((run.Value(), r.value))
      ensures r.Failure? ==> Spec.Battle(old(run.Value()), actor, env) == Failure(r.error)
    {
      hide Spec.Play, RejoinMembers, CreditEncounter, CreditDefeats;
      var error := Play(run, actor, env.script, env.now);
      if error.Some? {
        return Failure(error.value);
      }
      if env.fought.Failure? {
        return Failure(env.fought.error);
      }
      var effects := env.fought.value;
      run.CreditDefeats(effects.defeats);
      error := run.RejoinMembers(actor, effects.memberOnly);
      if error.Some? {
        return Failure(error.value);
      }
      if effects.encounterDefeated {
        error := run.CreditEncounter();
        if error.Some? {
          return Failure(error.value);
        }
      }
      return Success(effects);
    }

    method Act(run: ActiveRun, cmd: Command, env: Env) returns (r: Result<(Effects, Option<Box>), Error>)
      modifies run
      ensures r.Success? ==> Spec.Act(old(run.Value()), cmd, env) == Success(Acted(run.Value(), r.value.0, r.value.1))
      ensures r.Failure? ==> Spec.Act(old(run.Value()), cmd, env) == Failure(r.error)
    {
      hide RunProgress.Advance, RunProgress.ClaimChest, PrepareExit, Spec.Battle;
      match cmd.action
      case AdvanceFloor =>
        if Cooling(run.Value(), cmd.actor, env.now) {
          return Failure(RunCooldown);
        }
        var error := run.Advance(cmd.actor, env.draw);
        return if error.Some? then Failure(error.value) else Success((QUIET, None));
      case OpenChest =>
        if Cooling(run.Value(), cmd.actor, env.now) {
          return Failure(RunCooldown);
        }
        var box := run.ClaimChest(cmd.actor, cmd.target, env.hasPocket);
        return if box.Failure? then Failure(box.error) else Success((QUIET, Some(box.value)));
      case LeaveRun =>
        if Cooling(run.Value(), cmd.actor, env.now) {
          return Failure(RunCooldown);
        }
        var error := run.PrepareExit(cmd.actor, env.goldDraw);
        return if error.Some? then Failure(error.value) else Success((QUIET, None));
      case _ =>
        var effects := Battle(run, cmd.actor, env);
        return if effects.Failure? then Failure(effects.error) else Success((effects.value, None));
    }

    method Stamp(run: ActiveRun, cmd: Command, effects: Effects, now: Time)
      modifies run`lastActivity, run`lastActions, run`version
      ensures run.Value() == Spec.Stamp(old(run.Value()), cmd, effects, now)
    {
      if effects.roomActivity && run.roster != [] {
        run.lastActivity := now;
      }
      if effects.actorActivity {
        run.lastActions := run.lastActions[cmd.actor := now];
      }
      run.version := run.version + 1;
    }

    method Save(run: ActiveRun, cmd: Command, box: Option<Box>) returns (r: Result<Receipt, Error>)
      modifies this`rows, this`enrolled, this`headers, this`receipts
      ensures r.Success? ==> Spec.Save(old(Value()), run.Value(), cmd, box) == Success((Value(), r.value))
      ensures r.Failure? ==> Spec.Save(old(Value()), run.Value(), cmd, box) == Failure(r.error)
    {
      hide RunWorld.SaveRecipients, RunWorld.SaveRun, RunWorld.SaveReceipt;
      var error := SaveRecipients(run.id, run.recipients);
      if error.Some? {
        return Failure(error.value);
      }
      error := SaveRun(run, cmd.version);
      if error.Some? {
        return Failure(error.value);
      }
      var receipt := Receipt(cmd, run.version, run.floor, run.stage.id, box, RecipientOf(run.recipients, cmd.actor));
      error := SaveReceipt(receipt);
      return if error.Some? then Failure(error.value) else Success(receipt);
    }

    method Depart(run: ActiveRun, actor: Id)
      modifies this`history, run`roster, run`actors, run`leader
      ensures (Value(), run.Value()) == Spec.Depart(old(Value()), old(run.Value()), actor)
    {
      hide RemoveMember;
      history := history + [RecordFor(run.Value(), actor, Exited)];
      run.RemoveMember(actor);
    }

    method PlayAction(run: ActiveRun, cmd: Command, env: Env) returns (r: Result<Receipt, Error>)
      modifies this`headers, this`enrolled, this`rows, this`receipts, this`credited, this`history, run
      ensures r.Success? ==> Spec.PlayAction(old(Value()), old(run.Value()), cmd, env) == Success((Value(), r.value))
      ensures r.Failure? ==> Spec.PlayAction(old(Value()), old(run.Value()), cmd, env) == Failure(r.error)
    {
      hide Spec.Act, Spec.Settle, Spec.Depart, Spec.Stamp, Spec.Save;
      var leaving := cmd.action.LeaveRun?;
      var open := run.mode != Try || leaving;
      var acted := Act(run, cmd, env);
      if acted.Failure? {
        return Failure(acted.error);
      }
      var (effects, box) := acted.value;
      var error := Settle(run, cmd, effects, (open && effects.releaseStock) || leaving, env.order);
      if error.Some? {
        return Failure(error.value);
      }
      if leaving {
        Depart(run, cmd.actor);
      }
      Stamp(run, cmd, effects, env.now);
      r := Save(run, cmd, box);
    }

    method WriteExpiries(run: ActiveRun)
      modifies this`history
      ensures history == old(history) + ExpiryRecords(run.Value(), SortedIds(run.roster))
    {
      var ids := SortedIds(run.roster);
      for i := 0 to |ids|
        invariant history == old(history) + ExpiryRecords(run.Value(), ids[..i])
      {
        assert ids[..i + 1][..i] == ids[..i];
        history := history + [RecordFor(run.Value(), ids[i], TimedOut)];
      }
      assert ids[..|ids|] == ids;
    }

    method CleanUp(run: ActiveRun, cmd: Command, now: Time) returns (r: Result<Receipt, Error>)
      modifies this`headers, this`enrolled, this`rows, this`receipts, this`credited, this`history, run
      ensures r.Success? ==> Spec.CleanUp(old(Value()), old(run.Value()), cmd, now) == Success((Value(), r.value))
      ensures r.Failure? ==> Spec.CleanUp(old(Value()), old(run.Value()), cmd, now) == Failure(r.error)
    {
      hide TimeOut, ExpiryRecords, Spec.Save;
      if now <= run.lastActivity + IDLE {
        return Failure(RunConflict);
      }
      WriteExpiries(run);
      run.TimeOut(now);
      run.version := run.version + 1;
      r := Save(run, cmd, None);
    }

    // ---------- one command ----------

    method CheckRoster(run: ActiveRun) returns (error: Option<Error>)
      ensures error == RosterRefusal(Value(), run.Value(), SortedIds(run.roster))
    {
      var ids := SortedIds(run.roster);
      for i := 0 to |ids|
        invariant RosterRefusal(Value(), run.Value(), ids[..i]).None?
      {
        assert ids[..i + 1][..i] == ids[..i];
        var id := ids[i];
        if id !in players {
          RosterPrefixFails(Value(), run.Value(), ids, i + 1);
          return Some(NotFound);
        }
        if players[id] != RecipientOf(run.recipients, id).player {
          RosterPrefixFails(Value(), run.Value(), ids, i + 1);
          return Some(RunForbidden);
        }
      }
      assert ids[..|ids|] == ids;
      return None;
    }

    method Admit(run: ActiveRun, cmd: Command) returns (error: Option<Error>)
      ensures error == Admissible(Value(), run.Value(), cmd)
    {
      if cmd.actor !in run.roster || RecipientOf(run.recipients, cmd.actor).player != cmd.player {
        return Some(RunForbidden);
      }
      if run.version != cmd.version {
        return Some(RunConflict);
      }
      if run.timedOut {
        return Some(RunRecovery);
      }
      error := CheckRoster(run);
    }

    method FreshCommand(cmd: Command, env: Env) returns (r: Result<Receipt, Error>)
      modifies this`headers, this`enrolled, this`rows, this`receipts, this`credited, this`history
      ensures r.Success? ==> Spec.FreshCommand(old(Value()), cmd, env) == Success((Value(), r.value))
      ensures r.Failure? ==> Spec.FreshCommand(old(Value()), cmd, env) == Failure(r.error)
    {
      hide Admissible, Spec.PlayAction, Spec.CleanUp;
      var found := FindRun(Value(), cmd.run);
      if found.None? {
        return Failure(NotFound);
      }
      var run := new ActiveRun(found.value);
      var error := Admit(run, cmd);
      if error.Some? {
        return Failure(error.value);
      }
      if cmd.action.Cleanup? {
        r := CleanUp(run, cmd, env.now);
      } else {
        r := PlayAction(run, cmd, env);
      }
    }

    method CommandBody(cmd: Command, env: Env) returns (r: Result<Receipt, Error>)
      modifies this`headers, this`enrolled, this`rows, this`receipts, this`credited, this`history
      ensures r.Success? ==> Spec.CommandBody(old(Value()), cmd, env) == Success((Value(), r.value))
      ensures r.Failure? ==> Spec.CommandBody(old(Value()), cmd, env) == Failure(r.error)
    {
      hide Spec.FreshCommand;
      var key := ReceiptKey(cmd.run, cmd.id);
      if key in receipts {
        var stored := receipts[key];
        if stored.command.player != cmd.player || stored.command.actor != cmd.actor {
          return Failure(RunForbidden);
        }
        if stored.command != cmd {
          return Failure(RunConflict);
        }
        return Success(stored);
      }
      r := FreshCommand(cmd, env);
    }

    /** One transaction around the body: undone unless it commits. */
    method Transact(cmd: Command, env: Env, outcome: CommitOutcome) returns (r: Result<Receipt, Error>)
      modifies this`headers, this`enrolled, this`rows, this`receipts, this`credited, this`history
      ensures (Value(), r) == Close(old(Value()), Spec.CommandBody(old(Value()), cmd, env), outcome)
    {
      hide Spec.CommandBody;
      var before := Value();
      r := CommandBody(cmd, env);
      if r.Failure? {
        Rollback(before);
      } else if outcome.RolledBack? {
        Rollback(before);
        r := Failure(StorageFailure);
      } else if outcome.ReplyLost? {
        r := Failure(StorageFailure);
      }
    }

    method Command(cmd: Command, env: Env, outcome: CommitOutcome) returns (r: Result<Receipt, Error>)
      modifies this`headers, this`enrolled, this`rows, this`receipts, this`credited, this`history
      ensures (Value(), r) == Spec.RunCommand(old(Value()), cmd, env, outcome)
    {
      hide CommandRefusal, Spec.CommandBody, Close;
      var refusal := CommandRefusal(Value(), cmd);
      if refusal.Some? {
        return Failure(refusal.value);
      }
      r := Transact(cmd, env, outcome);
      r := Resolve(Value(), cmd, r, env.readable);
    }

    // ---------- recovery ----------

    /** Deadlines go to the timer one by one in sorted order, up to the first that fails. */
    method Project(run: ActiveRun, timer: Timer)
      modifies this`projected
      ensures projected == old(projected) + Projected(run.Value(), timer)
    {
      var counted := timer.reached + (if timer.lastCounted then 1 else 0);
      var ids := SortedIds(run.roster);
      var n := Min(counted, |ids|);
      for i := 0 to n
        invariant projected == old(projected) + Deadlines(run.recipients, ids[..i])
      {
        assert ids[..i + 1] == ids[..i] + [ids[i]];
        DeadlinesGrow(run.recipients, ids[..i], ids[i]);
        var p := RecipientOf(run.recipients, ids[i]);
        if p.timerPending {
          projected := projected + {(ids[i], p.penaltyUntil)};
        }
      }
    }

    method SaveRecovered(run: ActiveRun) returns (error: Option<Error>)
      modifies this`rows, this`enrolled, this`headers, run
      ensures error.None? ==> Spec.SaveRecovered(old(Value()), old(run.Value())) == Success(Value())
      ensures error.Some? ==> Spec.SaveRecovered(old(Value()), old(run.Value())) == Failure(error.value)
    {
      hide RunWorld.SaveRecipients, RunWorld.SaveRun, ServedRows, Served;
      var version := run.version;
      error := SaveRecipients(run.id, ServedRows(run.Value()));
      if error.Some? {
        return;
      }
      Vacate(run);
      error := SaveRun(run, version);
    }

    method Vacate(run: ActiveRun)
      modifies run`recipients, run`version, run`roster, run`leader
      ensures run.Value() == Recovered(old(run.Value()))
    {
      hide Served;
      run.recipients := Served(run.recipients, run.roster);
      run.version := run.version + 1;
      run.roster, run.leader := [], NOBODY;
    }

    method Recover(player: Id, actor: Id, id: Id, timer: Timer, outcome: CommitOutcome) returns (error: Option<Error>)
      modifies this
      ensures (Value(), error) == Spec.Recover(old(Value()), player, actor, id, timer, outcome)
    {
      hide Spec.SaveRecovered, Projected, Authorize, RecoverRefusal;
      error := Authorize(Value(), player, actor);
      if error.Some? {
        return;
      }
      var found := FindRun(Value(), id);
      if found.None? {
        return None;
      }
      error := RecoverRefusal(found.value, player, actor);
      if error.Some? {
        return;
      }
      var run := new ActiveRun(found.value);
      Project(run, timer);
      var told := Value();
      if timer.reached < |run.roster| {
        return Some(StorageFailure);
      }
      error := SaveRecovered(run);
      if error.Some? {
        Rollback(told);
      } else if outcome.RolledBack? {
        Rollback(told);
        error := Some(StorageFailure);
      } else if outcome.ReplyLost? {
        error := Some(StorageFailure);
      }
    }

    method Execute(cmd: Command, env: Env, outcome: CommitOutcome, timer: Timer, recovery: CommitOutcome)
      returns (r: Result<Receipt, Error>, error: Option<Error>)
      modifies this
      ensures (Value(), r, error) == Spec.Execute(old(Value()), cmd, env, outcome, timer, recovery)
    {
      hide Spec.RunCommand, Spec.Recover;
      r := Command(cmd, env, outcome);
      error := None;
      if r.Success? && cmd.action.Cleanup? {
        error := Recover(cmd.player, cmd.actor, cmd.run, timer, recovery);
      }
    }

    // ---------- admission ----------

    method FreshEntry(a: Admission, cmd: Command, entry: Entry) returns (r: Result<Receipt, Error>)
      requires EntryRefusal(a).None?
      modifies this`headers, this`enrolled, this`rows, this`receipts
      ensures r.Success? ==> Spec.FreshEntry(old(Value()), a, cmd, entry) == Success((Value(), r.value))
      ensures r.Failure? ==> Spec.FreshEntry(old(Value()), a, cmd, entry) == Failure(r.error)
    {
      hide EntryRefusal, SomeEnrolled, NewRecipients, RowsOf, RunWorld.SaveRun, RunWorld.SaveReceipt;
      if SomeMissing(Value(), a.characters) {
        return Failure(NotFound);
      }
      if entry.refusal.Some? {
        return Failure(entry.refusal.value);
      }
      AdmittedSomebody(a);
      if Lookup(players, a.actor) != Some(cmd.player) {
        return Failure(RunForbidden);
      }
      if SomeEnrolled(Value(), a.characters) {
        return Failure(RunBusy);
      }
      if entry.stage.None? {
        return Failure(StageNotFound);
      }
      var run := new ActiveRun(NewRun(Value(), a, entry.stage.value, entry));
      Enroll(run);
      var error := SaveRun(run, 0);
      if error.Some? {
        return Failure(error.value);
      }
      var receipt := Receipt(cmd, 1, 0, run.stage.id, None, RecipientOf(run.recipients, a.actor));
      error := SaveReceipt(receipt);
      return if error.Some? then Failure(error.value) else Success(receipt);
    }

    method Enroll(run: ActiveRun)
      modifies this`enrolled, this`rows
      ensures Value() == EnrollRun(old(Value()), run.Value())
    {
      hide RowsOf;
      enrolled := enrolled + (map id | id in run.roster :: run.id);
      rows := rows + RowsOf(run.id, run.recipients);
    }

    method EntryBody(a: Admission, cmd: Command, entry: Entry) returns (r: Result<Receipt, Error>)
      requires EntryRefusal(a).None?
      modifies this`headers, this`enrolled, this`rows, this`receipts
      ensures r.Success? ==> Spec.EntryBody(old(Value()), a, cmd, entry) == Success((Value(), r.value))
      ensures r.Failure? ==> Spec.EntryBody(old(Value()), a, cmd, entry) == Failure(r.error)
    {
      hide EntryRefusal, Spec.FreshEntry;
      var stored := Lookup(receipts, ReceiptKey(cmd.run, cmd.id));
      if stored.Some? {
        return if stored.value.command != cmd then Failure(RunConflict) else Success(stored.value);
      }
      if cmd.run !in headers {
        headers := headers[cmd.run := Header(0, None, None)];
      }
      r := FreshEntry(a, cmd, entry);
    }

    method Enter(player: Id, a: Admission, entry: Entry, outcome: CommitOutcome) returns (r: Result<Receipt, Error>)
      modifies this
      ensures (Value(), r) == Spec.Enter(old(Value()), player, a, entry, outcome)
    {
      hide EntryRefusal, Spec.EntryBody, Authorize;
      var unauthorized := Authorize(Value(), player, a.actor);
      if unauthorized.Some? {
        return Failure(unauthorized.value);
      }
      var refusal := EntryRefusal(a);
      if refusal.Some? {
        return Failure(refusal.value);
      }
      var cmd := EnrollCommand(player, a);
      var before := Value();
      r := EntryBody(a, cmd, entry);
      if r.Failure? {
        Rollback(before);
      } else if outcome.RolledBack? {
        Rollback(before);
        r := Failure(StorageFailure);
      } else if outcome.ReplyLost? {
        r := Failure(StorageFailure);
      }
      r := Resolve(Value(), cmd, r, entry.readable);
    }
  }
}

/** Admission, one command, and timeout recovery, each as one transaction on the tables. */
module RunCommands {
  import opened Common
  import opened RunTypes
  import opened RunEarnings
  import opened RunProgress
  import opened RunNpc
  import opened RunTravel
  import opened RunOrder
  import opened RunWorld

  // ---------- combat ----------

  /** What the battle engine may do in one action, in order. Fighting is arbitrary but never moves the run. */
  datatype Step =
    | Fight(actors: seq<Actor>, enemies: seq<Id>, clock: map<Id, Time>)
    | UseTool(tool: Id, input: Input, supply: Supply)
    | UseRoom(entry: Id, supply: Supply)
    | Answer(after: seq<Actor>)

  datatype Gain = Gain(actor: Id, amount: Earnings)

  datatype Spent = Spent(owner: Id, instance: Id, quantity: int)

  /** `lucky` is the one-in-three draw made for the defeat. */
  datatype Defeat = Defeat(identity: string, lucky: bool)

  datatype Effects = Effects(
    gains: seq<Gain>,
    spent: seq<Spent>,
    roomActivity: bool,
    actorActivity: bool,
    releaseStock: bool,
    encounterDefeated: bool,
    memberOnly: seq<Id>,
    defeats: seq<Defeat>)

  const QUIET := Effects([], [], true, true, true, false, [], [])

  datatype Env = Env(
    now: Time,
    draw: Draw,
    hasPocket: bool,
    goldDraw: nat,
    script: seq<Step>,
    fought: Result<Effects, Error>,
    order: seq<Id>,
    readable: bool)

  function PlayStep(r: Run, t: Transition, actor: Id, step: Step, now: Time): Result<(Run, Transition), Error> {
    match step
    case Fight(actors, enemies, clock) => Success((r.(actors := actors, enemies := enemies, lastActions := clock), t))
    case UseTool(tool, input, supply) => Travel(r, actor, tool, input, supply)
    case UseRoom(entry, supply) => Room(r, actor, entry, supply)
    case Answer(after) =>
      var (s, npc) := BeginResponse(r, t, now);
      if npc == NOBODY then Success((s, t))
      else
        var done :- RecordResponse(s.(actors := after), npc, now);
        Success((done, t))
  }

  function Play(r: Run, actor: Id, steps: seq<Step>, now: Time): Result<(Run, Transition), Error> {
    if steps == [] then Success((r, Moved(r)))
    else
      var before :- Play(r, actor, steps[..|steps| - 1], now);
      PlayStep(before.0, before.1, actor, steps[|steps| - 1], now)
  }

  const ROYAL_BEE := "ordinary-22-monster-175"

  function TrimSuffixes(s: string): string {
    if s != [] && 'A' <= s[|s| - 1] <= 'H' then TrimSuffixes(s[..|s| - 1]) else s
  }

  function CreditDefeats(r: Run, defeats: seq<Defeat>): Run {
    if r.stage.id == "stage-22" && exists d :: d in defeats && TrimSuffixes(d.identity) == ROYAL_BEE && d.lucky
    then r.(exUnlocked := true)
    else r
  }

  /** Combatants kept out of this operation's enemy list come back last. */
  function RejoinMembers(r: Run, actor: Id, ids: seq<Id>): Result<Run, Error> {
    if ids == [] then Success(r)
    else
      var before :- RejoinMembers(r, actor, ids[..|ids| - 1]);
      var id := ids[|ids| - 1];
      var a := ActorAt(before.actors, id);
      var me := ActorAt(before.actors, actor);
      if a.None? || me.None? || a.value.team == me.value.team || id in before.enemies then Failure(RunConflict)
      else Success(if a.value.hp > 0 then before.(enemies := before.enemies + [id]) else before)
  }

  function CreditEncounter(r: Run): Result<Run, Error> {
    if LivingEnemies(r) || r.encounterFloor < 1 || r.encounterFloor > EX_FLOOR || r.encounterFloor == TREASURE_FLOOR then Failure(RunConflict)
    else Success(r.(floorsCleared := Max(r.floorsCleared, r.encounterFloor),
                    stageCleared := r.stageCleared || r.encounterFloor == BOSS_FLOOR,
                    trail := r.trail.(credited := r.trail.credited + [r.encounterFloor])))
  }

  function Battle(r: Run, actor: Id, env: Env): Result<(Run, Effects), Error> {
    var played :- Play(r, actor, env.script, env.now);
    var effects :- env.fought;
    var joined :- RejoinMembers(CreditDefeats(played.0, effects.defeats), actor, effects.memberOnly);
    var credited :- if effects.encounterDefeated then CreditEncounter(joined) else Success(joined);
    Success((credited, effects))
  }

  // ---------- leaving and idling out ----------

  /** The accessory bonus of a departure; the gold charm's amount is drawn. */
  function ExitBonus(r: Run, a: Actor, goldDraw: nat): Result<Earnings, Error> {
    if a.gear.NoGear? || a.gear.accessory !in a.items then Success(NOTHING)
    else if a.gear.accessory == "item-105" then
      var exp :- SafeMultiply(r.floor, 20);
      Success(Earnings(exp, 0, 0))
    else if a.gear.accessory == "item-106" then Success(Earnings(0, goldDraw, 0))
    else Success(NOTHING)
  }

  function PrepareExit(r: Run, actor: Id, goldDraw: nat): Result<Run, Error> {
    var a := ActorAt(r.actors, actor);
    var p := RecipientOf(r.recipients, actor);
    if a.None? then Failure(NotParticipant)
    else if p.disposition != Playing then Failure(RunConflict)
    else
      var bonus :- ExitBonus(r, a.value, goldDraw);
      var left :- Leave(p, bonus);
      Success(r.(recipients := r.recipients[actor := left]))
  }

  function RecordFor(r: Run, actor: Id, disposition: Disposition): Adventure {
    Adventure(r.id, actor, disposition, r.stageCleared, r.floorsCleared, r.trail)
  }

  function Without(ids: seq<Id>, gone: Id): seq<Id> {
    if ids == [] then []
    else Without(ids[..|ids| - 1], gone) + (if ids[|ids| - 1] == gone then [] else [ids[|ids| - 1]])
  }

  /** The next member in roster order inherits the lead. */
  function RemoveMember(r: Run, actor: Id): Run {
    var roster := Without(r.roster, actor);
    r.(roster := roster, actors := WithoutActors(r.actors, [actor]),
       leader := if r.leader != actor then r.leader else if roster == [] then NOBODY else roster[0])
  }

  const IDLE: Time := 1800 * SECOND

  const PENALTY: Time := 3600 * SECOND

  function ExpireAll(recipients: map<Id, Recipient>, roster: seq<Id>, until: Time): map<Id, Recipient> {
    if roster == [] then recipients
    else
      var before := ExpireAll(recipients, roster[..|roster| - 1], until);
      var id := roster[|roster| - 1];
      before[id := Expire(RecipientOf(before, id), until)]
  }

  function ExpiryRecords(r: Run, roster: seq<Id>): seq<Adventure> {
    if roster == [] then []
    else ExpiryRecords(r, roster[..|roster| - 1]) + [RecordFor(r, roster[|roster| - 1], TimedOut)]
  }

  function TimeOut(r: Run, now: Time): Run {
    r.(recipients := ExpireAll(r.recipients, SortedIds(r.roster), now + PENALTY), timedOut := true)
  }

  // ---------- settlement ----------

  function RecordAll(r: Run, gains: seq<Gain>): Result<Run, Error> {
    if gains == [] then Success(r)
    else
      var before :- RecordAll(r, gains[..|gains| - 1]);
      var gain := gains[|gains| - 1];
      if gain.actor !in before.roster then Failure(RunForbidden)
      else
        var p :- Record(RecipientOf(before.recipients, gain.actor), before.mode, gain.amount);
        Success(before.(recipients := before.recipients[gain.actor := p]))
  }

  predicate SpendingAllowed(r: Run, actor: Id, spent: seq<Spent>) {
    forall s :: s in spent ==> s.owner in r.roster || s.owner == actor
  }

  predicate SpendingNamed(spent: seq<Spent>) {
    forall s :: s in spent ==> s.instance != NOBODY && s.quantity > 0
  }

  function Credit(w: World, actor: Id, due: Earnings): World {
    w.(credited := w.credited[actor := Plus(Credited(w, actor), due)])
  }

  /** The actor's own pending stock and every retained balance are paid by one credit. */
  function PayActor(w: World, r: Run, actor: Id, order: seq<Id>): Result<(World, Run), Error> {
    var p := RecipientOf(r.recipients, actor);
    var retained := FindRetained(w, actor, order);
    var due :- Due(p.pending, retained);
    var paid :- Release(p);
    var settled :- SettleRetained(Credit(w, actor, due), actor, retained);
    Success((settled, r.(recipients := r.recipients[actor := paid])))
  }

  function Settle(w: World, r: Run, cmd: Command, effects: Effects, release: bool, order: seq<Id>): Result<(World, Run), Error> {
    var recorded :- RecordAll(r, effects.gains);
    if !SpendingAllowed(recorded, cmd.actor, effects.spent) then Failure(RunForbidden)
    else if !SpendingNamed(effects.spent) then Failure(RunConflict)
    else if release then PayActor(w, recorded, cmd.actor, order)
    else Success((w, recorded))
  }

  function Depart(w: World, r: Run, actor: Id): (World, Run) {
    (w.(history := w.history + [RecordFor(r, actor, Exited)]), RemoveMember(r, actor))
  }

  // ---------- one command ----------

  datatype Acted = Acted(run: Run, effects: Effects, box: Option<Box>)

  predicate Cooling(r: Run, actor: Id, now: Time) {
    now < LastAction(r, actor) + r.admission.speed * SECOND
  }

  function Act(r: Run, cmd: Command, env: Env): Result<Acted, Error> {
    match cmd.action
    case AdvanceFloor =>
      if Cooling(r, cmd.actor, env.now) then Failure(RunCooldown)
      else
        var s :- Advance(r, cmd.actor, env.draw);
        Success(Acted(s, QUIET, None))
    case OpenChest =>
      if Cooling(r, cmd.actor, env.now) then Failure(RunCooldown)
      else
        var (s, box) :- ClaimChest(r, cmd.actor, cmd.target, env.hasPocket);
        Success(Acted(s, QUIET, Some(box)))
    case LeaveRun =>
      if Cooling(r, cmd.actor, env.now) then Failure(RunCooldown)
      else
        var s :- PrepareExit(r, cmd.actor, env.goldDraw);
        Success(Acted(s, QUIET, None))
    case _ =>
      var (s, effects) :- Battle(r, cmd.actor, env);
      Success(Acted(s, effects, None))
  }

  function Stamp(r: Run, cmd: Command, effects: Effects, now: Time): Run {
    r.(lastActivity := if effects.roomActivity && r.roster != [] then now else r.lastActivity,
       lastActions := if effects.actorActivity then r.lastActions[cmd.actor := now] else r.lastActions,
       version := r.version + 1)
  }

  function Save(w: World, r: Run, cmd: Command, box: Option<Box>): Result<(World, Receipt), Error> {
    var stored :- SaveRecipients(w, r.id, r.recipients);
    var saved :- SaveRun(stored, r, cmd.version);
    var receipt := Receipt(cmd, r.version, r.floor, r.stage.id, box, RecipientOf(r.recipients, cmd.actor));
    var final :- SaveReceipt(saved, receipt);
    Success((final, receipt))
  }

  function PlayAction(w: World, r: Run, cmd: Command, env: Env): Result<(World, Receipt), Error> {
    var open := r.mode != Try || cmd.action.LeaveRun?;
    var acted :- Act(r, cmd, env);
    var release := (open && acted.effects.releaseStock) || cmd.action.LeaveRun?;
    var (paid, run) :- Settle(w, acted.run, cmd, acted.effects, release, env.order);
    var (left, final) := if cmd.action.LeaveRun? then Depart(paid, run, cmd.actor) else (paid, run);
    Save(left, Stamp(final, cmd, acted.effects, env.now), cmd, acted.box)
  }

  function CleanUp(w: World, r: Run, cmd: Command, now: Time): Result<(World, Receipt), Error> {
    if now <= r.lastActivity + IDLE then Failure(RunConflict)
    else
      var s := TimeOut(r, now);
      Save(w.(history := w.history + ExpiryRecords(r, SortedIds(r.roster))), s.(version := s.version + 1), cmd, None)
  }

  function RosterRefusal(w: World, r: Run, roster: seq<Id>): Option<Error> {
    if roster == [] then None
    else
      var before := RosterRefusal(w, r, roster[..|roster| - 1]);
      var id := roster[|roster| - 1];
      if before.Some? then before
      else if id !in w.players then Some(NotFound)
      else if w.players[id] != RecipientOf(r.recipients, id).player then Some(RunForbidden)
      else None
  }

  function Admissible(w: World, r: Run, cmd: Command): Option<Error> {
    if cmd.actor !in r.roster || RecipientOf(r.recipients, cmd.actor).player != cmd.player then Some(RunForbidden)
    else if r.version != cmd.version then Some(RunConflict)
    else if r.timedOut then Some(RunRecovery)
    else RosterRefusal(w, r, SortedIds(r.roster))
  }

  function FreshCommand(w: World, cmd: Command, env: Env): Result<(World, Receipt), Error> {
    var found := FindRun(w, cmd.run);
    if found.None? then Failure(NotFound)
    else
      var refusal := Admissible(w, found.value, cmd);
      if refusal.Some? then Failure(refusal.value)
      else if cmd.action.Cleanup? then CleanUp(w, found.value, cmd, env.now)
      else PlayAction(w, found.value, cmd, env)
  }

  /** A stored receipt answers its own command and refuses every other use of the identifier. */
  function Replay(w: World, cmd: Command): Option<Result<Receipt, Error>> {
    var stored := Lookup(w.receipts, ReceiptKey(cmd.run, cmd.id));
    if stored.None? then None
    else if stored.value.command.player != cmd.player || stored.value.command.actor != cmd.actor then Some(Failure(RunForbidden))
    else if stored.value.command != cmd then Some(Failure(RunConflict))
    else Some(Success(stored.value))
  }

  function CommandBody(w: World, cmd: Command, env: Env): Result<(World, Receipt), Error> {
    match Replay(w, cmd)
    case Some(Success(receipt)) => Success((w, receipt))
    case Some(Failure(error)) => Failure(error)
    case None => FreshCommand(w, cmd, env)
  }

  /** What one transaction left behind and told its caller. */
  function Close(w: World, body: Result<(World, Receipt), Error>, outcome: CommitOutcome): (World, Result<Receipt, Error>) {
    match body
    case Failure(error) => (w, Failure(error))
    case Success((after, receipt)) =>
      match outcome
      case Committed => (after, Success(receipt))
      case RolledBack => (w, Failure(StorageFailure))
      case ReplyLost => (after, Failure(StorageFailure))
  }

  /** An error is answered from the receipt table, which alone knows whether the command committed. */
  function Resolve(w: World, cmd: Command, r: Result<Receipt, Error>, readable: bool): Result<Receipt, Error> {
    if r.Success? then r
    else if !readable then Failure(RunRecovery)
    else
      var saved := Lookup(w.receipts, ReceiptKey(cmd.run, cmd.id));
      if saved.None? || saved.value.command != cmd then r else Success(saved.value)
  }

  predicate Blank(s: string) {
    forall c :: c in s ==> c == ' ' || '\t' <= c <= '\r'
  }

  function CommandRefusal(w: World, cmd: Command): Option<Error> {
    var refusal := Authorize(w, cmd.player, cmd.actor);
    if refusal.Some? then refusal
    else if Blank(cmd.id) || |cmd.id| > 128 || cmd.run == NOBODY || cmd.action.Enroll? then Some(RunConflict)
    else None
  }

  function RunCommand(w: World, cmd: Command, env: Env, outcome: CommitOutcome): (World, Result<Receipt, Error>) {
    var refusal := CommandRefusal(w, cmd);
    if refusal.Some? then (w, Failure(refusal.value))
    else
      var (after, r) := Close(w, CommandBody(w, cmd, env), outcome);
      (after, Resolve(after, cmd, r, env.readable))
  }

  // ---------- recovery ----------

  /** The timer answers the first `reached` requests; a failing one may have taken effect. */
  datatype Timer = Timer(reached: nat, lastCounted: bool)

  function Deadlines(recipients: map<Id, Recipient>, roster: seq<Id>): set<(Id, Time)> {
    set id | id in roster && RecipientOf(recipients, id).timerPending :: (id, RecipientOf(recipients, id).penaltyUntil)
  }

  function Projected(r: Run, timer: Timer): set<(Id, Time)> {
    var counted := timer.reached + (if timer.lastCounted then 1 else 0);
    var ids := SortedIds(r.roster);
    Deadlines(r.recipients, ids[..Min(counted, |ids|)])
  }

  function Served(recipients: map<Id, Recipient>, roster: seq<Id>): map<Id, Recipient> {
    map id | id in recipients :: if id in roster then recipients[id].(timerPending := false) else recipients[id]
  }

  function RecoverRefusal(r: Run, player: Id, actor: Id): Option<Error> {
    if actor !in r.recipients || r.recipients[actor].player != player then Some(RunForbidden)
    else if !r.timedOut then Some(RunConflict)
    else None
  }

  /** Penalties served, nobody left in the room. */
  function Recovered(r: Run): Run {
    r.(recipients := Served(r.recipients, r.roster), version := r.version + 1, roster := [], leader := NOBODY)
  }

  function ServedRows(r: Run): map<Id, Recipient> {
    map id | id in r.recipients && id in r.roster :: r.recipients[id].(timerPending := false)
  }

  function SaveRecovered(w: World, r: Run): Result<World, Error> {
    var stored :- SaveRecipients(w, r.id, ServedRows(r));
    SaveRun(stored, Recovered(r), r.version)
  }

  /** Ownership is released only after every deadline was handed over; what was handed over stays so. */
  function Recover(w: World, player: Id, actor: Id, id: Id, timer: Timer, outcome: CommitOutcome): (World, Option<Error>) {
    var refusal := Authorize(w, player, actor);
    var found := FindRun(w, id);
    if refusal.Some? then (w, refusal)
    else if found.None? then (w, None)
    else
      var r := found.value;
      var blocked := RecoverRefusal(r, player, actor);
      if blocked.Some? then (w, blocked)
      else
        var told := w.(projected := w.projected + Projected(r, timer));
        if timer.reached < |r.roster| then (told, Some(StorageFailure))
        else
          match SaveRecovered(told, r)
          case Failure(error) => (told, Some(error))
          case Success(after) =>
            match outcome
            case Committed => (after, None)
            case RolledBack => (told, Some(StorageFailure))
            case ReplyLost => (after, Some(StorageFailure))
  }

  /** A cleanup goes on to recovery as soon as its receipt is known. */
  function Execute(w: World, cmd: Command, env: Env, outcome: CommitOutcome, timer: Timer, recovery: CommitOutcome): (World, Result<Receipt, Error>, Option<Error>) {
    var (after, r) := RunCommand(w, cmd, env, outcome);
    if r.Success? && cmd.action.Cleanup? then
      var (final, error) := Recover(after, cmd.player, cmd.actor, cmd.run, timer, recovery);
      (final, r, error)
    else (after, r, None)
  }

  // ---------- admission ----------

  /** `refusal` is any entry check that reads other services; `lucky` the one-in-three EX draw. */
  datatype Entry = Entry(now: Time, refusal: Option<Error>, stage: Option<Stage>, lucky: bool, actors: seq<Actor>, readable: bool)

  function EntryRefusal(a: Admission): Option<Error> {
    if a.speed !in {3, 18, 25} then Some(RunConflict)
    else if |a.characters| < 1 || |a.characters| > 4 || a.characters[0] != a.actor then Some(NoParticipants)
    else if NOBODY in a.characters || exists i, j :: 0 <= i < j < |a.characters| && a.characters[i] == a.characters[j] then Some(RunConflict)
    else None
  }

  predicate SomeMissing(w: World, ids: seq<Id>) {
    exists id :: id in ids && id !in w.players
  }

  predicate SomeEnrolled(w: World, ids: seq<Id>) {
    exists id :: id in ids && id in w.enrolled
  }

  /** The run identifier is a hash of the admission's generation; the generation itself stands for it here. */
  function EnrollCommand(player: Id, a: Admission): Command {
    Command(player, a.actor, a.generation, "enroll", 0, Enroll(a), NOBODY, "")
  }

  function NewRecipients(w: World, ids: seq<Id>): map<Id, Recipient>
    requires !SomeMissing(w, ids)
  {
    map id | id in ids :: NewRecipient(w.players[id])
  }

  function NewRun(w: World, a: Admission, stage: Stage, entry: Entry): Run
    requires !SomeMissing(w, a.characters)
  {
    Run(a.generation, 1, a, stage, a.mode, a.actor, a.characters, 0, 0, false, false,
        stage.id == "stage-26" && entry.lucky, 0, NOBODY, [], entry.actors, map[], NewRecipients(w, a.characters), [], entry.now, false, NO_TRAIL)
  }

  function WithHeader(w: World, run: Id): World {
    if run in w.headers then w else w.(headers := w.headers[run := Header(0, None, None)])
  }

  function EnrollRun(w: World, r: Run): World {
    w.(enrolled := w.enrolled + (map id | id in r.roster :: r.id), rows := w.rows + RowsOf(r.id, r.recipients))
  }

  function FreshEntry(w: World, a: Admission, cmd: Command, entry: Entry): Result<(World, Receipt), Error>
    requires EntryRefusal(a).None?
  {
    if SomeMissing(w, a.characters) then Failure(NotFound)
    else if entry.refusal.Some? then Failure(entry.refusal.value)
    else if w.players[a.actor] != cmd.player then Failure(RunForbidden)
    else if SomeEnrolled(w, a.characters) then Failure(RunBusy)
    else if entry.stage.None? then Failure(StageNotFound)
    else
      var r := NewRun(w, a, entry.stage.value, entry);
      var saved :- SaveRun(EnrollRun(w, r), r, 0);
      var receipt := Receipt(cmd, 1, 0, r.stage.id, None, RecipientOf(r.recipients, a.actor));
      var final :- SaveReceipt(saved, receipt);
      Success((final, receipt))
  }

  function EntryBody(w: World, a: Admission, cmd: Command, entry: Entry): Result<(World, Receipt), Error>
    requires EntryRefusal(a).None?
  {
    var stored := Lookup(w.receipts, ReceiptKey(cmd.run, cmd.id));
    if stored.Some? then
      if stored.value.command != cmd then Failure(RunConflict) else Success((w, stored.value))
    else FreshEntry(WithHeader(w, cmd.run), a, cmd, entry)
  }

  function Enter(w: World, player: Id, a: Admission, entry: Entry, outcome: CommitOutcome): (World, Result<Receipt, Error>) {
    var unauthorized := Authorize(w, player, a.actor);
    var refusal := EntryRefusal(a);
    if unauthorized.Some? then (w, Failure(unauthorized.value))
    else if refusal.Some? then (w, Failure(refusal.value))
    else
      var cmd := EnrollCommand(player, a);
      var (after, r) := Close(w, EntryBody(w, a, cmd, entry), outcome);
      (after, Resolve(after, cmd, r, entry.readable))
  }
}

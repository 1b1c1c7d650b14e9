/**
 The commit / publish / acknowledge protocol as functions of the whole world.
 A fault plan says which replies are lost and which transactions fail; a failed
 transaction undoes its durable writes, never a write to the live store.
 */
module ChallengeProtocol {
  import opened Common
  import opened ChallengeTypes
  import opened ChallengeRules
  import opened ChallengeStores

  /** How one attempt to reach the live store ended for the caller. */
  datatype PublishReply = Received | Unreachable | AppliedReplyLost

  datatype DeliveryFault = DeliveryFault(publish: PublishReply, acknowledged: bool)

  /** One delivery attempt in a transaction of its own. */
  datatype Delivery = Delivery(now: Time, fault: DeliveryFault, commit: CommitOutcome)

  datatype Command = AdvanceRound(draw: RoundDraw) | ExitRun

  function ActionOf(c: Command): Action {
    match c
    case AdvanceRound(_) => Advance
    case ExitRun => Exit
  }

  /** Clock, faults and commit outcome of one mutating call. */
  datatype Circumstance = Circumstance(
    now: Time,
    deadline: Time,
    fault: DeliveryFault,
    commit: CommitOutcome,
    readable: bool,
    after: Delivery)

  datatype Reply = Reply(result: Option<CommandResult>, error: Option<Error>)

  /** The end of a transaction: an error or a rollback restores the durable part only. */
  function Close(before: World, after: World, error: Option<Error>, commit: CommitOutcome): (World, Option<Error>) {
    if error.Some? then (World(before.durable, after.live), error)
    else
      match commit
      case Committed => (after, None)
      case RolledBack => (World(before.durable, after.live), Some(StorageFailure))
      case ReplyLost => (after, Some(StorageFailure))
  }

  // ---------- publication ----------

  /** publishPending inside a transaction that is already open. */
  function Redeliver(w: World, run: Id, now: Time, fault: DeliveryFault): (World, Option<Error>) {
    var t := StateOf(w.durable, run);
    if !t.pending then (w, None)
    else if fault.publish == Unreachable then (w, Some(StorageFailure))
    else
      var (live, error) := Publish(w.live, t, now);
      if error.Some? then (World(w.durable, live), error)
      else if fault.publish == AppliedReplyLost || !fault.acknowledged then (World(w.durable, live), Some(StorageFailure))
      else
        match Acknowledge(w.durable, run, t.revision)
        case Success(d) => (World(d, live), None)
        case Failure(e) => (World(w.durable, live), Some(e))
  }

  function PublishPending(w: World, run: Id, d: Delivery): (World, Option<Error>) {
    var (after, error) := Redeliver(w, run, d.now, d.fault);
    Close(w, after, error, d.commit)
  }

  // ---------- commands on a run ----------

  /** The rules of the command, and the payment of those it settles. */
  function Compute(d: Durable, run: Session, actor: Id, c: Command): Result<(Durable, Outcome), Error> {
    match c
    case AdvanceRound(draw) =>
      if run.round == 1 && run.leader != actor then Failure(Forbidden)
      else
        var o := Round(run, draw);
        if o.session.status == Active then Success((d, o))
        else
          var paid :- Finalize(d, run.id, run.revision, o.settled);
          Success((paid, o))
    case ExitRun =>
      var o := Departure(run, actor);
      var paid :- Finalize(d, run.id, run.revision, o.settled);
      Success((paid, o))
  }

  function Receipt(run: Session, actor: Id, revision: int, c: Command, o: Outcome): CommandResult {
    CommandResult(actor, ActionOf(c), revision, o.session.(revision := run.revision + 1), o.report, o.settled)
  }

  function Commitment(run: Session, result: CommandResult, removed: seq<Id>, deadline: Time): Transition {
    Transition(run.id, result.session.revision, true, Some(result.session), removed, NOBODY, deadline)
  }

  /** Compute on the live run that matches the committed revision, then save the transition. */
  function Accept(w: World, actor: Id, runId: Id, revision: int, c: Command, now: Time, deadline: Time)
    : (World, Result<CommandResult, Error>)
  {
    match ReadRun(w.live, runId, now)
    case None => (w, Failure(RecoveryNeeded))
    case Some(run) =>
      if !Contains(run, actor) then (w, Failure(Forbidden))
      else if run.revision != revision then (w, Failure(RevisionConflict))
      else if StateOf(w.durable, runId).revision != run.revision then (w, Failure(RevisionConflict))
      else
        match Compute(w.durable, run, actor, c)
        case Failure(e) => (w, Failure(e))
        case Success((paid, o)) =>
          var result := Receipt(run, actor, revision, c, o);
          match SaveTransition(paid, Commitment(run, result, o.removed, deadline), result)
          case Failure(e) => (World(paid, w.live), Failure(e))
          case Success(d) => (World(d, w.live), Success(result))
  }

  /** The body of mutate's transaction. */
  function MutateBody(w: World, actor: Id, run: Id, revision: int, c: Command, x: Circumstance)
    : (World, Result<CommandResult, Error>)
  {
    if run !in w.durable.admissions then (w, Failure(SessionNotFound))
    else if !Contains(w.durable.admissions[run], actor) then (w, Failure(Forbidden))
    else
      var (delivered, error) := Redeliver(w, run, x.now, x.fault);
      if error.Some? then (delivered, Failure(RecoveryRequired(error.value)))
      else
        var key := ResultKey(run, actor, revision);
        if key in delivered.durable.results then
          var stored := delivered.durable.results[key];
          (delivered, if stored.action != ActionOf(c) then Failure(RevisionConflict) else Success(stored))
        else Accept(delivered, actor, run, revision, c, x.now, x.deadline)
  }

  function ErrorOf<T>(r: Result<T, Error>): Option<Error> {
    match r
    case Success(_) => None
    case Failure(e) => Some(e)
  }

  /** mutate's transaction: what stays in the world and the error its caller sees. */
  function MutateSection(w: World, actor: Id, run: Id, revision: int, c: Command, x: Circumstance): (World, Option<Error>) {
    var (after, r) := MutateBody(w, actor, run, revision, c, x);
    Close(w, after, ErrorOf(r), x.commit)
  }

  /** After a failed transaction the durable receipt, if any, decides the reply. */
  function Reconcile(d: Durable, key: ResultKey, action: Action, cause: Error, readable: bool): Result<CommandResult, Error> {
    if !readable then Failure(OutcomeUnknown)
    else if key !in d.results then Failure(cause)
    else if d.results[key].action != action then Failure(RevisionConflict)
    else Success(d.results[key])
  }

  function Mutate(w: World, actor: Id, run: Id, revision: int, c: Command, x: Circumstance): (World, Reply) {
    if actor == NOBODY then (w, Reply(None, Some(CharacterNotFound)))
    else if run == NOBODY || revision < 1 then (w, Reply(None, Some(RevisionConflict)))
    else
      var (closed, error) := MutateSection(w, actor, run, revision, c, x);
      var outcome :=
        if error.None? then MutateBody(w, actor, run, revision, c, x).1
        else Reconcile(closed.durable, ResultKey(run, actor, revision), ActionOf(c), error.value, x.readable);
      match outcome
      case Failure(e) => (closed, Reply(None, Some(e)))
      case Success(result) =>
        var (published, late) := PublishPending(closed, run, x.after);
        (published, Reply(Some(result), if late.Some? then Some(RecoveryRequired(late.value)) else None))
  }

  // ---------- starting a run ----------

  /** A character as admission reads it; `refusal` is any failed level or condition check. */
  datatype Candidate = Candidate(hp: int, maxHp: int, mp: int, maxMp: int, refusal: Option<Error>)

  datatype StartRequest = StartRequest(
    leader: Id,
    memberIds: seq<Id>,
    limit: int,
    candidates: map<Id, Candidate>)

  /** The pre-migration view: an unexpired session that still names the actor. */
  predicate HasLegacySession(live: Live, actor: Id, now: Time) {
    var owner := if actor in live.owners && actor !in live.sessions then live.owners[actor] else actor;
    && owner in live.sessions
    && Contains(live.sessions[owner], actor)
    && !(owner in live.expirations && now > live.expirations[owner])
  }

  predicate IsBusy(w: World, actor: Id, now: Time) {
    if ClaimOf(w.durable, actor) != NOBODY then true
    else if actor in w.live.actorRuns && w.live.actorRuns[actor] != NOBODY then
      var run := w.live.actorRuns[actor];
      run in w.live.runs && run in w.live.expiry && now < w.live.expiry[run] && Contains(w.live.runs[run], actor)
    else HasLegacySession(w.live, actor, now)
  }

  function MemberOf(actor: Id, c: Candidate): Member {
    Member(actor, c.hp, Some(c.mp), 0, 0, if c.maxHp <= 0 then c.hp else c.maxHp, if c.maxMp <= 0 then c.mp else c.maxMp)
  }

  /** Members in request order, or the first refusal. */
  function Admit(w: World, ids: seq<Id>, candidates: map<Id, Candidate>, now: Time): (r: Result<seq<Member>, Error>)
    ensures r.Success? ==> Ids(r.value) == ids
    ensures r.Success? ==> forall m :: m in r.value ==> m.mp.Some? && m.exp == 0 && m.gold == 0
  {
    if ids == [] then Success([])
    else
      var n := |ids| - 1;
      var before :- Admit(w, ids[..n], candidates, now);
      if IsBusy(w, ids[n], now) then Failure(ActiveSessionExists)
      else if ids[n] !in candidates then Failure(CharacterNotFound)
      else if candidates[ids[n]].refusal.Some? then Failure(candidates[ids[n]].refusal.value)
      else Success(before + [MemberOf(ids[n], candidates[ids[n]])])
  }

  predicate HasRepeat(ids: seq<Id>) {
    exists i, j :: 0 <= i < j < |ids| && ids[i] == ids[j]
  }

  function InitialHp(members: seq<Member>, leader: Id): int {
    LeaderHp(members, leader, 0)
  }

  function NewRun(run: Id, leader: Id, members: seq<Member>): Session {
    Session(run, 1, leader, members, 1, InitialHp(members, leader), 0, 0, [], [], Active)
  }

  function StartBody(w: World, run: Id, q: StartRequest, now: Time, deadline: Time): (World, Result<CommandResult, Error>) {
    var limit := if q.limit <= 0 then 4 else q.limit;
    if q.leader == NOBODY then (w, Failure(CharacterNotFound))
    else if q.memberIds == [] then (w, Failure(PartyEmpty))
    else if NOBODY in q.memberIds || HasRepeat(q.memberIds) || q.leader !in q.memberIds then (w, Failure(Forbidden))
    else if |q.memberIds| > limit then (w, Failure(TooManyPartyMembers))
    else
      match Admit(w, q.memberIds, q.candidates, now)
      case Failure(e) => (w, Failure(e))
      case Success(members) =>
        var session := NewRun(run, q.leader, members);
        var saved := w.durable.(admissions := w.durable.admissions[run := session]);
        var result := CommandResult(q.leader, Start, 0, session, None, []);
        match Enroll(saved, session)
        case Failure(e) => (World(saved, w.live), Failure(e))
        case Success(enrolled) =>
          match SaveTransition(enrolled, Transition(run, 1, true, Some(session), [], NOBODY, deadline), result)
          case Failure(e) => (World(enrolled, w.live), Failure(e))
          case Success(d) => (World(d, w.live), Success(result))
  }

  function StartSection(w: World, run: Id, q: StartRequest, x: Circumstance): (World, Option<Error>) {
    var (after, r) := StartBody(w, run, q, x.now, x.deadline);
    Close(w, after, ErrorOf(r), x.commit)
  }

  function StartRun(w: World, run: Id, q: StartRequest, x: Circumstance): (World, Reply) {
    var (closed, error) := StartSection(w, run, q, x);
    var key := ResultKey(run, q.leader, 0);
    var outcome :=
      if error.None? then StartBody(w, run, q, x.now, x.deadline).1
      else if !x.readable then Failure(OutcomeUnknown)
      else if key !in closed.durable.results then Failure(error.value)
      else Success(closed.durable.results[key]);
    match outcome
    case Failure(e) => (closed, Reply(None, Some(e)))
    case Success(result) =>
      var (published, late) := PublishPending(closed, run, x.after);
      (published, Reply(Some(result), if late.Some? then Some(RecoveryRequired(late.value)) else None))
  }

  // ---------- migrating a run ----------

  function DefaultAwards(run: Session, owner: Id): seq<Award> {
    if run.items != [] && run.awards == [] then
      seq(|run.items|, i requires 0 <= i < |run.items| => Award(run.items[i], owner, false))
    else run.awards
  }

  predicate Migratable(run: Session, runId: Id, admission: Session) {
    && run.id == runId && run.status == Active && run.members != []
    && |run.members| == |admission.members|
    && forall i :: 0 <= i < |run.members| ==> run.members[i].id == admission.members[i].id && run.members[i].mp.Some?
  }

  /** Only an unexpired session under the admitted leader can be read. */
  function ReadLegacyRun(live: Live, owner: Id, now: Time): Option<(Session, Time)> {
    if owner in live.sessions && owner in live.expirations && now < live.expirations[owner]
      then Some((live.sessions[owner], live.expirations[owner])) else None
  }

  function MigrateBody(w: World, actor: Id, runId: Id, now: Time): (World, Option<Error>) {
    if runId !in w.durable.admissions then (w, Some(SessionNotFound))
    else
      var admission := w.durable.admissions[runId];
      if !Contains(admission, actor) then (w, Some(Forbidden))
      else if StateOf(w.durable, runId).revision > 0 then (w, None)
      else
        match ReadLegacyRun(w.live, admission.leader, now)
        case None => (w, Some(RecoveryNeeded))
        case Some((legacy, deadline)) =>
          if !Migratable(legacy, runId, admission) then (w, Some(RecoveryNeeded))
          else
            var run := legacy.(revision := 1, awards := DefaultAwards(legacy, admission.leader));
            var t := Transition(runId, 1, true, Some(run), [], admission.leader, deadline);
            match Enroll(w.durable, run)
            case Failure(e) => (w, Some(e))
            case Success(enrolled) =>
              match SaveTransition(enrolled, t, CommandResult(actor, Migrate, 0, run, None, []))
              case Failure(e) => (World(enrolled, w.live), Some(e))
              case Success(d) => (World(d, w.live), None)
  }

  function MigrateSection(w: World, actor: Id, run: Id, now: Time, commit: CommitOutcome): (World, Option<Error>) {
    var (after, error) := MigrateBody(w, actor, run, now);
    Close(w, after, error, commit)
  }

  function MigrateSession(w: World, actor: Id, run: Id, x: Circumstance): (World, Option<Error>) {
    var (closed, error) := MigrateSection(w, actor, run, x.now, x.commit);
    var key := ResultKey(run, actor, 0);
    if error.Some? && !x.readable then (closed, Some(OutcomeUnknown))
    else if error.Some? && (key !in closed.durable.results || closed.durable.results[key].action != Migrate) then (closed, error)
    else PublishPending(closed, run, x.after)
  }
}

/** Starting, migrating and commanding a run keep the invariant and extend its log by at most one command. */
module ChallengeSteps {
  import opened Common
  import opened ChallengeTypes
  import opened ChallengeRules
  import opened ChallengeStores
  import opened ChallengeProtocol
  import opened ChallengeInvariants

  function LogAt(log: Log, run: Id): seq<CommandResult> {
    if run in log then log[run] else []
  }

  /** The log after a section that tried to accept the command at `key`. */
  function NextLog(log: Log, w: World, key: ResultKey): Log {
    if key in w.durable.results && key.revision == |LogAt(log, key.run)|
      then log[key.run := LogAt(log, key.run) + [w.durable.results[key]]] else log
  }

  // ---------- an accepted command ----------

  lemma LastIsPlayable(run: Id, log: seq<CommandResult>)
    requires ChainOk(run, log) && Last(log).session.status == Active
    ensures Playable(Last(log).session)
  {
    if |log| > 1 {
      assert Follows(log[|log| - 2].session, log[|log| - 1]);
    }
  }

  /** In a state at rest the live run is the last accepted body. */
  lemma LiveIsLast(w: World, log: Log, run: Id, now: Time)
    requires Inv(w, log) && !StateOf(w.durable, run).pending && ReadRun(w.live, run, now).Some?
    ensures run in log && log[run] != [] && ReadRun(w.live, run, now).value == Last(log[run]).session
    ensures StateOf(w.durable, run).revision == |log[run]|
    ensures Playable(Last(log[run]).session)
    ensures Last(log[run]).session.id == run && Last(log[run]).session.revision == |log[run]|
  {
    assert run in log;
    RunFacts(w, log, run);
    LastIsPlayable(run, log[run]);
  }

  function ComputedBy(run: Session, actor: Id, c: Command): Outcome {
    match c
    case AdvanceRound(draw) => Round(run, draw)
    case ExitRun => Departure(run, actor)
  }

  lemma OutcomeFollows(run: Session, actor: Id, c: Command, o: Outcome, result: CommandResult)
    requires Playable(run) && Contains(run, actor) && o == ComputedBy(run, actor, c)
    requires result == Receipt(run, actor, run.revision, c, o)
    ensures Follows(run, result)
    ensures (set a | a in o.removed) == SettledIds(result)
    ensures result.session.id == run.id && result.session.revision == run.revision + 1
    ensures forall m :: m in o.settled ==> m.id in Roster(run)
  {
    match c
    case AdvanceRound(draw) => RoundFollows(run, draw, result);
    case ExitRun => DepartureFollows(run, actor, result);
  }

  lemma RoundFollows(run: Session, draw: RoundDraw, result: CommandResult)
    requires Playable(run)
    requires var o := Round(run, draw);
      result.session == o.session.(revision := run.revision + 1) && result.settled == o.settled
    ensures var o := Round(run, draw);
      && Follows(run, result)
      && (set a | a in o.removed) == SettledIds(result)
      && result.session.id == run.id
      && (forall m :: m in o.settled ==> m.id in Roster(run))
  {
    RoundKeepsEnrolment(run, draw);
    IdsAsSet(run.members);
    assert result.session.id == run.id;
    var o := Round(run, draw);
    hide Round;
    if o.session.status != Active {
      assert IdSet(o.settled) == IdSet(o.session.members);
    }
  }

  lemma DepartureFollows(run: Session, actor: Id, result: CommandResult)
    requires Playable(run) && Contains(run, actor)
    requires var o := Departure(run, actor);
      result.session == o.session.(revision := run.revision + 1) && result.settled == o.settled
    ensures var o := Departure(run, actor);
      && Follows(run, result)
      && (set a | a in o.removed) == SettledIds(result)
      && result.session.id == run.id
      && (forall m :: m in o.settled ==> m.id in Roster(run))
  {
    hide Departure;
    assert actor in IdSet(run.members);
    DepartureShrinksRoster(run, actor);
    DepartureNames(run, actor);
    OneSettled(result, actor);
  }

  lemma DepartureNames(run: Session, actor: Id)
    ensures Departure(run, actor).session.id == run.id && Departure(run, actor).removed == [actor]
  {
    hide Without, Deliver, Departing;
  }

  lemma OneSettled(result: CommandResult, actor: Id)
    requires |result.settled| == 1 && result.settled[0].id == actor
    ensures SettledIds(result) == {actor} && DistinctMembers(result.settled)
  {
    assert result.settled == [result.settled[0]];
  }

  lemma IdsAsSet(members: seq<Member>)
    ensures (set a | a in Ids(members)) == IdSet(members)
  {
    forall a | a in Ids(members)
      ensures a in IdSet(members)
    {
      var i :| 0 <= i < |members| && Ids(members)[i] == a;
      assert members[i] in members;
    }
    forall a | a in IdSet(members)
      ensures a in Ids(members)
    {
      var i :| 0 <= i < |members| && members[i].id == a;
      assert Ids(members)[i] == a;
    }
  }

  /** Whoever still plays is unpaid, so a settlement computed from the live run is never refused. */
  lemma SettlementNeverRefused(d: Durable, log: Log, run: Id, settled: seq<Member>)
    requires forall r :: r in log ==> log[r] != []
    requires ParticipantsOk(d, log) && run in log
    requires !StateOf(d, run).pending && StateOf(d, run).revision == |log[run]|
    requires DistinctMembers(settled) && forall m :: m in settled ==> m.id in Roster(Last(log[run]).session)
    ensures Finalize(d, run, |log[run]|, settled) == Success(d.(participants := Pay(d.participants, run, settled)))
  {
    forall m | m in settled
      ensures ParticipantKey(run, m.id) in d.participants && d.participants[ParticipantKey(run, m.id)] == Enrolled
    {
    }
  }

  lemma ComputeSucceeds(d: Durable, log: Log, run: Id, actor: Id, c: Command)
    requires forall r :: r in log ==> log[r] != []
    requires ParticipantsOk(d, log) && run in log
    requires !StateOf(d, run).pending && StateOf(d, run).revision == |log[run]|
    requires var body := Last(log[run]).session;
      Playable(body) && Contains(body, actor) && body.id == run && body.revision == |log[run]|
    ensures var body := Last(log[run]).session; var o := ComputedBy(body, actor, c);
      Compute(d, body, actor, c) ==
        if c.AdvanceRound? && body.round == 1 && body.leader != actor then Failure(Forbidden)
        else Success((d.(participants := Pay(d.participants, run, o.settled)), o))
  {
    var body := Last(log[run]).session;
    var o := ComputedBy(body, actor, c);
    OutcomeFollows(body, actor, c, o, Receipt(body, actor, body.revision, c, o));
    SettlementNeverRefused(d, log, run, o.settled);
    if c.AdvanceRound? && o.session.status == Active {
      RoundKeepsEnrolment(body, c.draw);
      assert o.settled == [];
    }
  }

  // ---------- extending the log ----------

  lemma AppendedRunOk(live: Live, t: Transition, t': Transition, run: Id, log: seq<CommandResult>, result: CommandResult)
    requires RunOk(live, t, run, log) && !t.pending
    requires Follows(Last(log).session, result)
    requires result.expectedRevision == |log| && result.session.id == run && result.session.revision == |log| + 1
    requires t'.runId == run && t'.revision == |log| + 1 && t'.pending && t'.publication == Some(result.session)
    requires (set a | a in t'.removed) == SettledIds(result)
    ensures RunOk(live, t', run, log + [result])
  {
    var log' := log + [result];
    forall r | 1 <= r < |log'|
      ensures Follows(log'[r - 1].session, log'[r])
    {
      if r < |log| {
        assert Follows(log[r - 1].session, log[r]);
      }
    }
  }

  lemma SavedRunsOk(w: World, log: Log, run: Id, t': Transition, result: CommandResult, d': Durable)
    requires RunsOk(w, log) && run in log && !w.durable.states[run].pending
    requires log[run] != [] && Follows(Last(log[run]).session, result)
    requires result.expectedRevision == |log[run]| && result.session.id == run && result.session.revision == |log[run]| + 1
    requires t'.runId == run && t'.revision == |log[run]| + 1 && t'.pending && t'.publication == Some(result.session)
    requires (set a | a in t'.removed) == SettledIds(result)
    requires d'.states == w.durable.states[run := t']
    ensures RunsOk(World(d', w.live), log[run := log[run] + [result]])
  {
    hide RunOk, Follows;
    AppendedRunOk(w.live, w.durable.states[run], t', run, log[run], result);
  }

  lemma SavedResultsOk(d: Durable, log: Log, run: Id, result: CommandResult, d': Durable)
    requires ResultsOk(d, log) && result.expectedRevision == |LogAt(log, run)|
    requires d'.results == d.results[ResultKey(run, result.actor, result.expectedRevision) := result]
    ensures ResultsOk(d', log[run := LogAt(log, run) + [result]])
  {
    var log': Log := log[run := LogAt(log, run) + [result]];
    forall k | k in d'.results
      ensures k.run in log' && 0 <= k.revision < |log'[k.run]|
           && log'[k.run][k.revision] == d'.results[k] && d'.results[k].actor == k.actor
    {
      if k != ResultKey(run, result.actor, result.expectedRevision) {
        assert k in d.results;
      }
    }
    forall other: Id, r: int | other in log' && 0 <= r < |log'[other]|
      ensures ResultKey(other, log'[other][r].actor, r) in d'.results
    {
      if other != run || r < |LogAt(log, run)| {
        assert ResultKey(other, log[other][r].actor, r) in d.results;
      }
    }
  }

  lemma SavedClaimsOk(d: Durable, log: Log, run: Id, t': Transition, result: CommandResult, d': Durable)
    requires log.Keys == d.states.Keys
    requires forall r :: r in log ==> log[r] != []
    requires ClaimsOk(d, log) && run in log && !d.states[run].pending
    requires Follows(Last(log[run]).session, result)
    requires t'.pending && d'.states == d.states[run := t'] && d'.claims == d.claims
    ensures ClaimsOk(d', log[run := log[run] + [result]])
  {
    var log': Log := log[run := log[run] + [result]];
    assert Last(log'[run]) == result;
    assert Bound(t', log'[run]) == Bound(d.states[run], log[run]);
    forall other, a
      ensures BoundIn(d', log', other, a) <==> BoundIn(d, log, other, a)
    {
    }
    hide Follows, Bound, BoundIn;
  }

  lemma PaidParticipantOk(p: Participation, actor: Id, log: seq<CommandResult>, result: CommandResult)
    requires log != [] && ParticipantOk(p, actor, log)
    requires p.Enrolled? ==> actor in Roster(result.session)
    ensures ParticipantOk(p, actor, log + [result])
  {
    if p.Settled? {
      var r :| 0 <= r < |log| && p.snapshot in log[r].settled;
      assert (log + [result])[r] == log[r];
    }
  }

  lemma SavedRowOk(d: Durable, log: Log, run: Id, result: CommandResult, d': Durable, k: ParticipantKey)
    requires forall r :: r in log ==> log[r] != []
    requires ParticipantsOk(d, log) && run in log && k in d'.participants
    requires Follows(Last(log[run]).session, result)
    requires d'.participants == Pay(d.participants, run, result.settled)
    ensures k.run in log
    ensures ParticipantOk(d'.participants[k], k.actor, if k.run == run then log[run] + [result] else log[k.run])
  {
    PayRecords(d.participants, run, result.settled);
    if k.run == run && k.actor in SettledIds(result) {
      var m :| m in result.settled && m.id == k.actor;
      assert k == ParticipantKey(run, m.id);
      assert (log[run] + [result])[|log[run]|] == result;
    } else {
      assert ParticipantOk(d.participants[k], k.actor, log[k.run]);
      if k.run == run {
        PaidParticipantOk(d.participants[k], k.actor, log[run], result);
      }
    }
  }

  /** Whoever plays on after a command is still enrolled, and was before. */
  lemma SavedEnrolled(d: Durable, log: Log, run: Id, result: CommandResult, d': Durable, other: Id, a: Id)
    requires forall r :: r in log ==> log[r] != []
    requires ParticipantsOk(d, log) && run in log && other in log
    requires Follows(Last(log[run]).session, result)
    requires d'.participants == Pay(d.participants, run, result.settled)
    requires a in Roster(if other == run then result.session else Last(log[other]).session)
    ensures ParticipantKey(other, a) in d'.participants && d'.participants[ParticipantKey(other, a)] == Enrolled
  {
    hide ParticipantOk, Playable;
    PayRecords(d.participants, run, result.settled);
    assert a in Roster(Last(log[other]).session);
  }

  lemma SettledOnce(prev: Session, next: CommandResult)
    requires Follows(prev, next)
    ensures DistinctMembers(next.settled)
  {
  }

  lemma SavedFirst(d: Durable, log: Log, run: Id, result: CommandResult, d': Durable, other: Id, a: Id)
    requires forall r :: r in log ==> log[r] != []
    requires ParticipantsOk(d, log) && run in log && other in log && a in Roster(log[other][0].session)
    requires DistinctMembers(result.settled)
    requires d'.participants == Pay(d.participants, run, result.settled)
    ensures ParticipantKey(other, a) in d'.participants
  {
    hide ParticipantOk;
    PayRecords(d.participants, run, result.settled);
  }

  lemma SavedRowsOk(d: Durable, log: Log, run: Id, result: CommandResult, d': Durable)
    requires forall r :: r in log ==> log[r] != []
    requires ParticipantsOk(d, log) && run in log
    requires Follows(Last(log[run]).session, result)
    requires d'.participants == Pay(d.participants, run, result.settled)
    ensures var log': Log := log[run := log[run] + [result]];
      forall k :: k in d'.participants ==> k.run in log' && ParticipantOk(d'.participants[k], k.actor, log'[k.run])
  {
    SettledOnce(Last(log[run]).session, result);
    hide ParticipantOk, SettledIds, Follows, Roster, Pay;
    var log': Log := log[run := log[run] + [result]];
    forall k | k in d'.participants
      ensures k.run in log' && ParticipantOk(d'.participants[k], k.actor, log'[k.run])
    {
      SavedRowOk(d, log, run, result, d', k);
    }
  }

  lemma SavedParticipantsOk(d: Durable, log: Log, run: Id, result: CommandResult, d': Durable)
    requires forall r :: r in log ==> log[r] != []
    requires ParticipantsOk(d, log) && run in log
    requires Follows(Last(log[run]).session, result)
    requires d'.participants == Pay(d.participants, run, result.settled)
    ensures ParticipantsOk(d', log[run := log[run] + [result]])
  {
    SettledOnce(Last(log[run]).session, result);
    SavedRowsOk(d, log, run, result, d');
    hide ParticipantOk, SettledIds, Follows, Roster, Pay;
    var log': Log := log[run := log[run] + [result]];
    forall other, a | other in log' && a in Roster(Last(log'[other]).session)
      ensures ParticipantKey(other, a) in d'.participants && d'.participants[ParticipantKey(other, a)] == Enrolled
    {
      SavedEnrolled(d, log, run, result, d', other, a);
    }
    forall other, a | other in log' && a in Roster(log'[other][0].session)
      ensures ParticipantKey(other, a) in d'.participants
    {
      SavedFirst(d, log, run, result, d', other, a);
    }
  }

  lemma SavedAdmissionsOk(d: Durable, log: Log, run: Id, result: CommandResult, d': Durable)
    requires AdmissionsOk(d, log) && run in log && log[run] != []
    requires run in d.admissions && Contains(d.admissions[run], result.actor)
    requires Follows(Last(log[run]).session, result)
    requires d'.admissions == d.admissions
    ensures AdmissionsOk(d', log[run := log[run] + [result]])
  {
    var log': Log := log[run := log[run] + [result]];
    assert Named(d.admissions, run, log[run][|log[run]| - 1]);
    forall other: Id, r: int | other in log' && 0 <= r < |log'[other]|
      ensures Named(d'.admissions, other, log'[other][r])
    {
      if !(other == run && r == |log[run]|) {
        assert Named(d.admissions, other, log[other][r]);
      }
    }
  }

  /** Saving a computed command extends the run's log by exactly that command. */
  lemma SavedCommandKeepsInv(w: World, log: Log, run: Id, t': Transition, result: CommandResult, d': Durable)
    requires Inv(w, log) && run in log && !StateOf(w.durable, run).pending
    requires log[run] != [] && Follows(Last(log[run]).session, result)
    requires result.expectedRevision == |log[run]| && result.session.id == run && result.session.revision == |log[run]| + 1
    requires t'.runId == run && t'.revision == |log[run]| + 1 && t'.pending && t'.publication == Some(result.session)
    requires (set a | a in t'.removed) == SettledIds(result) && t'.legacyOwner == NOBODY
    requires run in w.durable.admissions && Contains(w.durable.admissions[run], result.actor)
    requires d' == w.durable.(
      participants := Pay(w.durable.participants, run, result.settled),
      states := w.durable.states[run := t'],
      results := w.durable.results[ResultKey(run, result.actor, result.expectedRevision) := result])
    ensures Inv(World(d', w.live), log[run := log[run] + [result]])
  {
    InvParts(w, log);
    hide *;
    SavedRunsOk(w, log, run, t', result, d');
    SavedResultsOk(w.durable, log, run, result, d');
    SavedClaimsOk(w.durable, log, run, t', result, d');
    SavedParticipantsOk(w.durable, log, run, result, d');
    SavedAdmissionsOk(w.durable, log, run, result, d');
    SavedLegacyIsOwn(w.live, w.durable.states, run, t');
    SavedInv(w, d', log[run := log[run] + [result]]);
  }

  lemma SavedLegacyIsOwn(live: Live, states: map<Id, Transition>, run: Id, t: Transition)
    requires LegacyIsOwn(live, states) && !LegacyMismatch(live, t)
    ensures LegacyIsOwn(live, states[run := t])
  {
  }

  lemma SavedInv(w: World, d': Durable, log': Log)
    requires IndexOk(w) && LegacyOk(w.live) && d'.claims == w.durable.claims
    requires RunsOk(World(d', w.live), log') && ResultsOk(d', log')
    requires forall run :: run in log' ==> log'[run] != []
    requires ClaimsOk(d', log') && ParticipantsOk(d', log') && AdmissionsOk(d', log') && LegacyIsOwn(w.live, d'.states)
    ensures Inv(World(d', w.live), log')
  {
    hide RunsOk, ResultsOk, ClaimsOk, ParticipantsOk, AdmissionsOk, LegacyIsOwn, LegacyOk;
  }

  lemma AcceptKeepsInv(w: World, log: Log, actor: Id, run: Id, revision: int, c: Command, now: Time, deadline: Time)
    requires Inv(w, log) && !StateOf(w.durable, run).pending
    requires run in w.durable.admissions && Contains(w.durable.admissions[run], actor)
    ensures var (after, r) := Accept(w, actor, run, revision, c, now, deadline);
      && after.live == w.live
      && (r.Success? ==>
            && run in log && revision == |log[run]| && r.value.actor == actor && r.value.action == ActionOf(c)
            && Inv(after, log[run := log[run] + [r.value]])
            && ResultKey(run, actor, revision) in after.durable.results
            && after.durable.results[ResultKey(run, actor, revision)] == r.value)
  {
    hide Inv, RunsOk, ResultsOk, ClaimsOk, IndexOk, AdmissionsOk, ParticipantsOk, Follows, Playable, Pay, Roster;
    if ReadRun(w.live, run, now).Some? {
      LiveIsLast(w, log, run, now);
      InvParts(w, log);
      var body := Last(log[run]).session;
      if Contains(body, actor) && body.revision == revision {
        ComputeSucceeds(w.durable, log, run, actor, c);
        if Compute(w.durable, body, actor, c).Success? {
          var o := ComputedBy(body, actor, c);
          var result := Receipt(body, actor, revision, c, o);
          OutcomeFollows(body, actor, c, o, result);
          var paid := w.durable.(participants := Pay(w.durable.participants, run, o.settled));
          var t' := Commitment(body, result, o.removed, deadline);
          assert SaveTransition(paid, t', result).Success?;
          SavedCommandKeepsInv(w, log, run, t', result, SaveTransition(paid, t', result).value);
        }
      }
    }
  }

  // ---------- enrolling a new run ----------

  lemma FreeActorsAreUnclaimed(d: Durable, log: Log, members: seq<Member>)
    requires log.Keys == d.states.Keys
    requires forall run :: run in log ==> log[run] != [] && run != NOBODY
    requires ClaimsOk(d, log)
    requires forall m :: m in members ==> ClaimOf(d, m.id) == NOBODY
    ensures forall a :: a in IdSet(members) ==> a !in d.claims
  {
    forall a | a in IdSet(members)
      ensures a !in d.claims
    {
      var m :| m in members && m.id == a;
      assert ClaimOf(d, m.id) == NOBODY;
    }
  }

  lemma EnrolledBoundIn(d: Durable, log: Log, run: Id, result: CommandResult, t: Transition, d': Durable, log': Log, other: Id, a: Id)
    requires run !in log && result.settled == [] && d'.states == d.states[run := t] && log' == log[run := [result]]
    ensures BoundIn(d', log', other, a) <==> BoundIn(d, log, other, a) || (other == run && a in Roster(result.session))
  {
    assert Last(log'[run]) == result;
    assert Bound(t, log'[run]) == Roster(result.session);
  }

  lemma EnrolledClaimsOk(d: Durable, log: Log, run: Id, result: CommandResult, t: Transition, d': Durable)
    requires ClaimsOk(d, log) && run !in log && result.settled == []
    requires forall a :: a in Roster(result.session) ==> a !in d.claims
    requires d'.states == d.states[run := t] && d'.claims == Bind(d.claims, Roster(result.session), run)
    ensures ClaimsOk(d', log[run := [result]])
  {
    hide Bound, BoundIn, Roster;
    var log': Log := log[run := [result]];
    forall a | a in d'.claims
      ensures BoundIn(d', log', d'.claims[a], a)
    {
      EnrolledBoundIn(d, log, run, result, t, d', log', d'.claims[a], a);
    }
    forall other, a | BoundIn(d', log', other, a)
      ensures a in d'.claims && d'.claims[a] == other
    {
      EnrolledBoundIn(d, log, run, result, t, d', log', other, a);
    }
  }

  lemma EnrolledParticipantsOk(d: Durable, log: Log, run: Id, result: CommandResult, d': Durable)
    requires forall r :: r in log ==> log[r] != []
    requires ParticipantsOk(d, log) && run !in log
    requires d'.participants == AddRows(d.participants, Roster(result.session), run)
    ensures ParticipantsOk(d', log[run := [result]])
  {
    var log': Log := log[run := [result]];
    assert Last(log'[run]) == result;
    forall k | k in d'.participants
      ensures k.run in log' && ParticipantOk(d'.participants[k], k.actor, log'[k.run])
    {
      if k.run != run {
        assert ParticipantOk(d.participants[k], k.actor, log[k.run]);
      }
    }
    forall other, a | other in log' && a in Roster(Last(log'[other]).session)
      ensures ParticipantKey(other, a) in d'.participants && d'.participants[ParticipantKey(other, a)] == Enrolled
    {
      if other != run {
        assert a in Roster(Last(log[other]).session);
      }
    }
    forall other, a | other in log' && a in Roster(log'[other][0].session)
      ensures ParticipantKey(other, a) in d'.participants
    {
      if other != run {
        assert a in Roster(log[other][0].session);
      }
    }
  }

  lemma EnrolledRunOk(live: Live, run: Id, result: CommandResult, t: Transition)
    requires run != NOBODY && run !in live.runs && Playable(result.session) && result.settled == []
    requires result.expectedRevision == 0 && result.session.id == run && result.session.revision == 1
    requires t.runId == run && t.revision == 1 && t.pending && t.publication == Some(result.session) && t.removed == []
    ensures RunOk(live, t, run, [result])
  {
  }

  lemma EnrolledRunsOk(w: World, log: Log, run: Id, result: CommandResult, t: Transition, d': Durable)
    requires RunsOk(w, log) && run !in log && run != NOBODY
    requires Playable(result.session) && result.settled == []
    requires result.expectedRevision == 0 && result.session.id == run && result.session.revision == 1
    requires t.runId == run && t.revision == 1 && t.pending && t.publication == Some(result.session) && t.removed == []
    requires d'.states == w.durable.states[run := t]
    ensures RunsOk(World(d', w.live), log[run := [result]])
  {
    hide RunOk, Playable;
    EnrolledRunOk(w.live, run, result, t);
  }

  lemma EnrolledAdmissionsOk(d: Durable, log: Log, run: Id, result: CommandResult, d': Durable)
    requires AdmissionsOk(d, log) && run !in log && run != NOBODY
    requires forall other :: other in d.admissions && other != run ==> other in d'.admissions && d'.admissions[other] == d.admissions[other]
    requires d'.admissions.Keys == d.admissions.Keys + {run}
    requires Named(d'.admissions, run, result)
    ensures AdmissionsOk(d', log[run := [result]])
  {
    var log': Log := log[run := [result]];
    forall other: Id, r: int | other in log' && 0 <= r < |log'[other]|
      ensures Named(d'.admissions, other, log'[other][r])
    {
      if other != run {
        assert Named(d.admissions, other, log[other][r]);
      }
    }
  }

  /** A run enters the protocol with a log of one command and nobody settled. */
  lemma EnrolmentKeepsInv(w: World, log: Log, run: Id, result: CommandResult, t: Transition, d': Durable)
    requires Inv(w, log) && run !in log && run != NOBODY
    requires Playable(result.session) && result.settled == []
    requires result.expectedRevision == 0 && result.session.id == run && result.session.revision == 1
    requires t.runId == run && t.revision == 1 && t.pending && t.publication == Some(result.session) && t.removed == []
    requires !LegacyMismatch(w.live, t)
    requires forall m :: m in result.session.members ==> ClaimOf(w.durable, m.id) == NOBODY
    requires forall other :: other in w.durable.admissions && other != run ==>
      other in d'.admissions && d'.admissions[other] == w.durable.admissions[other]
    requires d'.admissions.Keys == w.durable.admissions.Keys + {run}
    requires Named(d'.admissions, run, result)
    requires d'.states == w.durable.states[run := t]
    requires d'.results == w.durable.results[ResultKey(run, result.actor, 0) := result]
    requires d'.claims == Bind(w.durable.claims, IdSet(result.session.members), run)
    requires d'.participants == AddRows(w.durable.participants, IdSet(result.session.members), run)
    ensures Inv(World(d', w.live), log[run := [result]])
  {
    hide *;
    InvParts(w, log);
    RunNamesNonEmpty(w, log);
    FreeActorsAreUnclaimed(w.durable, log, result.session.members);
    PlayableRoster(result.session);
    EnrolledIndexOk(w, d', IdSet(result.session.members), run);
    FirstEntry(log, run, result);
    EnrolledRunsOk(w, log, run, result, t, d');
    SavedResultsOk(w.durable, log, run, result, d');
    EnrolledClaimsOk(w.durable, log, run, result, t, d');
    EnrolledParticipantsOk(w.durable, log, run, result, d');
    EnrolledAdmissionsOk(w.durable, log, run, result, d');
    SavedLegacyIsOwn(w.live, w.durable.states, run, t);
    EnrolledInv(World(d', w.live), log[run := [result]]);
  }

  lemma PlayableRoster(run: Session)
    requires Playable(run)
    ensures run.status == Active && Roster(run) == IdSet(run.members)
  {
  }

  lemma FirstEntry(log: Log, run: Id, result: CommandResult)
    requires run !in log
    ensures LogAt(log, run) == [] && LogAt(log, run) + [result] == [result]
  {
  }

  lemma EnrolledIndexOk(w: World, d': Durable, actors: set<Id>, run: Id)
    requires IndexOk(w) && forall a :: a in actors ==> a !in w.durable.claims
    requires d'.claims == Bind(w.durable.claims, actors, run)
    ensures IndexOk(World(d', w.live))
  {
  }

  lemma RunNamesNonEmpty(w: World, log: Log)
    requires Inv(w, log)
    ensures forall run :: run in log ==> run != NOBODY
  {
    forall run | run in log
      ensures run != NOBODY
    {
      assert RunOk(w.live, w.durable.states[run], run, log[run]);
    }
  }

  lemma EnrolledInv(w: World, log: Log)
    requires RunsOk(w, log) && ResultsOk(w.durable, log) && IndexOk(w) && LegacyOk(w.live) && LegacyIsOwn(w.live, w.durable.states)
    requires forall run :: run in log ==> log[run] != []
    requires ClaimsOk(w.durable, log) && ParticipantsOk(w.durable, log) && AdmissionsOk(w.durable, log)
    ensures Inv(w, log)
  {
    hide RunsOk, ResultsOk, ClaimsOk, IndexOk, ParticipantsOk, AdmissionsOk, LegacyIsOwn, LegacyOk;
  }

  /** An identity that no run, row or receipt has used yet. */
  predicate FreshRun(d: Durable, run: Id) {
    run != NOBODY && run !in d.states && run !in d.admissions
  }

  lemma NewRunPlayable(run: Id, leader: Id, ids: seq<Id>, members: seq<Member>)
    requires Ids(members) == ids && ids != [] && !HasRepeat(ids) && leader in ids
    ensures Playable(NewRun(run, leader, members))
  {
    assert forall i, j :: 0 <= i < j < |ids| ==> ids[i] != ids[j];
    assert forall i :: 0 <= i < |members| ==> ids[i] == members[i].id;
    var i :| 0 <= i < |ids| && ids[i] == leader;
    assert members[i] in members;
  }

  lemma StartKeepsInv(w: World, log: Log, run: Id, q: StartRequest, now: Time, deadline: Time)
    requires Inv(w, log) && FreshRun(w.durable, run)
    ensures var (after, r) := StartBody(w, run, q, now, deadline);
      && after.live == w.live
      && (r.Success? ==>
            && run !in log && Inv(after, log[run := [r.value]]) && r.value.actor == q.leader && r.value.action == Start
            && ResultKey(run, q.leader, 0) in after.durable.results
            && after.durable.results[ResultKey(run, q.leader, 0)] == r.value)
  {
    InvParts(w, log);
    hide Inv, RunsOk, ResultsOk, ClaimsOk, IndexOk, ParticipantsOk, AdmissionsOk, Playable;
    var (after, r) := StartBody(w, run, q, now, deadline);
    if r.Success? {
      var members := Admit(w, q.memberIds, q.candidates, now).value;
      var session := NewRun(run, q.leader, members);
      NewRunPlayable(run, q.leader, q.memberIds, members);
      assert r.value == CommandResult(q.leader, Start, 0, session, None, []);
      assert Named(after.durable.admissions, run, r.value);
      EnrolmentKeepsInv(w, log, run, r.value, Transition(run, 1, true, Some(session), [], NOBODY, deadline), after.durable);
    }
  }

  lemma MigratedIsPlayable(legacy: Session, runId: Id, admission: Session)
    requires Migratable(legacy, runId, admission)
    requires DistinctMembers(legacy.members) && legacy.leader in IdSet(legacy.members)
    ensures Playable(legacy.(revision := 1, awards := DefaultAwards(legacy, admission.leader)))
    ensures IdSet(legacy.members) == IdSet(admission.members)
  {
    assert Ids(legacy.members) == Ids(admission.members);
    SameIdsSameSet(legacy.members, admission.members);
  }

  lemma MigrateKeepsInv(w: World, log: Log, actor: Id, run: Id, now: Time)
    requires Inv(w, log)
    ensures var (after, error) := MigrateBody(w, actor, run, now); var key := ResultKey(run, actor, 0);
      && after.live == w.live
      && (error.None? && run in log ==> after == w)
      && (error.None? && run !in log ==>
            && key in after.durable.results && Inv(after, log[run := [after.durable.results[key]]]))
  {
    InvParts(w, log);
    var (after, error) := MigrateBody(w, actor, run, now);
    if run in log {
      assert RunOk(w.live, w.durable.states[run], run, log[run]);
    }
    hide Inv, RunsOk, ResultsOk, ClaimsOk, IndexOk, ParticipantsOk, Playable, RunOk;
    if error.None? && run !in log {
      var admission := w.durable.admissions[run];
      var (legacy, deadline) := ReadLegacyRun(w.live, admission.leader, now).value;
      MigratedIsPlayable(legacy, run, admission);
      var session := legacy.(revision := 1, awards := DefaultAwards(legacy, admission.leader));
      var result := CommandResult(actor, Migrate, 0, session, None, []);
      assert Named(after.durable.admissions, run, result) by {
        assert Roster(session) == IdSet(admission.members);
      }
      EnrolmentKeepsInv(w, log, run, result, Transition(run, 1, true, Some(session), [], admission.leader, deadline), after.durable);
    }
  }
}

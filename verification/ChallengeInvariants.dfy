/**
 What holds in every reachable state of the challenge protocol, stated against the
 log of accepted commands, one sequence per run.
 */
module ChallengeInvariants {
  import opened Common
  import opened ChallengeTypes
  import opened ChallengeRules
  import opened ChallengeStores
  import opened ChallengeProtocol

  type Log = map<Id, seq<CommandResult>>

  function Last(log: seq<CommandResult>): CommandResult
    requires log != []
  {
    log[|log| - 1]
  }

  function SettledIds(r: CommandResult): set<Id> {
    IdSet(r.settled)
  }

  /** A committed body that still plays: distinct members, led by one of them. */
  ghost predicate Playable(run: Session) {
    && run.status == Active && run.members != [] && DistinctMembers(run.members)
    && run.leader in IdSet(run.members)
  }

  /** One accepted command: it leaves a playable roster or ends the run, and settles exactly those who left. */
  ghost predicate Follows(prev: Session, next: CommandResult) {
    && prev.status == Active
    && (next.session.status == Active ==> Playable(next.session))
    && DistinctMembers(next.settled)
    && Roster(next.session) !! SettledIds(next)
    && Roster(prev) == Roster(next.session) + SettledIds(next)
  }

  ghost predicate ChainOk(run: Id, log: seq<CommandResult>) {
    && run != NOBODY && log != []
    && Playable(log[0].session) && log[0].settled == []
    && (forall r :: 0 <= r < |log| ==> log[r].expectedRevision == r && log[r].session.id == run && log[r].session.revision == r + 1)
    && (forall r :: 1 <= r < |log| ==> Follows(log[r - 1].session, log[r]))
  }

  /** The coordinator row: pending exactly with the last accepted body and those it removed. */
  ghost predicate StateOk(t: Transition, run: Id, log: seq<CommandResult>)
    requires log != []
  {
    && t.runId == run && t.revision == |log|
    && (if t.pending then t.publication == Some(Last(log).session) && (set a | a in t.removed) == SettledIds(Last(log))
        else t.publication == None)
  }

  /** The live body is the one committed at its revision: the last, or while pending the one before. */
  ghost predicate LiveOk(live: Live, t: Transition, run: Id, log: seq<CommandResult>)
    requires log != []
  {
    var rev := LiveRevision(live, run);
    && (if t.pending then |log| - 1 <= rev <= |log| else rev == |log|)
    && (run in live.runs ==> 1 <= rev && live.runs[run] == log[rev - 1].session && run in live.expiry)
    && (rev == |log| ==> live.expiry[run] == t.deadline)
  }

  ghost predicate RunOk(live: Live, t: Transition, run: Id, log: seq<CommandResult>) {
    ChainOk(run, log) && StateOk(t, run, log) && LiveOk(live, t, run, log)
  }

  ghost predicate RunsOk(w: World, log: Log) {
    && log.Keys == w.durable.states.Keys
    && w.live.runs.Keys <= log.Keys
    && forall run :: run in log ==> RunOk(w.live, w.durable.states[run], run, log[run])
  }

  /** The stored receipts are exactly the log: one actor per revision, none missing. */
  ghost predicate ResultsOk(d: Durable, log: Log) {
    && (forall k :: k in d.results ==>
          k.run in log && 0 <= k.revision < |log[k.run]| && log[k.run][k.revision] == d.results[k] && d.results[k].actor == k.actor)
    && (forall run, r :: run in log && 0 <= r < |log[run]| ==> ResultKey(run, log[run][r].actor, r) in d.results)
  }

  /** The actors a run still binds: its last roster, and while pending those just removed. */
  ghost function Bound(t: Transition, log: seq<CommandResult>): set<Id>
    requires log != []
  {
    Roster(Last(log).session) + (if t.pending then SettledIds(Last(log)) else {})
  }

  ghost predicate BoundIn(d: Durable, log: Log, run: Id, actor: Id) {
    run in log && run in d.states && log[run] != [] && actor in Bound(d.states[run], log[run])
  }

  ghost predicate ClaimsOk(d: Durable, log: Log) {
    && (forall a :: a in d.claims ==> BoundIn(d, log, d.claims[a], a))
    && (forall run, a :: BoundIn(d, log, run, a) ==> a in d.claims && d.claims[a] == run)
  }

  /** Every entry of the live actor index agrees with the durable claim. */
  ghost predicate IndexOk(w: World) {
    forall a :: a in w.live.actorRuns ==> a in w.durable.claims && w.durable.claims[a] == w.live.actorRuns[a]
  }

  ghost predicate ParticipantOk(p: Participation, actor: Id, log: seq<CommandResult>)
    requires log != []
  {
    match p
    case Enrolled => actor in Roster(Last(log).session)
    case Settled(m) => m.id == actor && exists r :: 0 <= r < |log| && m in log[r].settled
  }

  ghost predicate ParticipantsOk(d: Durable, log: Log)
    requires forall run :: run in log ==> log[run] != []
  {
    && (forall k :: k in d.participants ==> k.run in log && ParticipantOk(d.participants[k], k.actor, log[k.run]))
    && (forall run, a :: run in log && a in Roster(log[run][0].session) ==> ParticipantKey(run, a) in d.participants)
    && (forall run, a :: run in log && a in Roster(Last(log[run]).session) ==>
          ParticipantKey(run, a) in d.participants && d.participants[ParticipantKey(run, a)] == Enrolled)
  }

  /** Everyone who ever acted on a run is named by its admission row. */
  ghost predicate AdmissionsOk(d: Durable, log: Log) {
    && NOBODY !in d.admissions
    && forall run, r :: run in log && 0 <= r < |log[run]| ==> Named(d.admissions, run, log[run][r])
  }

  ghost predicate Named(admissions: map<Id, Session>, run: Id, result: CommandResult) {
    && run in admissions && Contains(admissions[run], result.actor)
    && forall a :: a in Roster(result.session) ==> Contains(admissions[run], a)
  }

  /** Sessions kept from before the protocol: distinct members, led by one of them. */
  ghost predicate LegacyOk(live: Live) {
    forall owner :: owner in live.sessions ==>
      var s := live.sessions[owner];
      DistinctMembers(s.members) && s.leader in IdSet(s.members) && NOBODY !in IdSet(s.members)
  }

  /** The old session that a migration left to be dropped is, while it is still there, the migrated run's own. */
  ghost predicate LegacyIsOwn(live: Live, states: map<Id, Transition>) {
    forall run :: run in states ==> !LegacyMismatch(live, states[run])
  }

  ghost predicate Inv(w: World, log: Log) {
    && RunsOk(w, log)
    && LegacyIsOwn(w.live, w.durable.states)
    && ResultsOk(w.durable, log)
    && ClaimsOk(w.durable, log)
    && IndexOk(w)
    && ParticipantsOk(w.durable, log)
    && AdmissionsOk(w.durable, log)
    && LegacyOk(w.live)
  }

  lemma InvParts(w: World, log: Log)
    requires Inv(w, log)
    ensures RunsOk(w, log) && ResultsOk(w.durable, log) && log.Keys == w.durable.states.Keys
    ensures forall run :: run in log ==> log[run] != []
    ensures ClaimsOk(w.durable, log) && IndexOk(w) && ParticipantsOk(w.durable, log)
    ensures AdmissionsOk(w.durable, log) && LegacyOk(w.live) && LegacyIsOwn(w.live, w.durable.states)
  {
    forall run | run in log
      ensures log[run] != []
    {
      assert RunOk(w.live, w.durable.states[run], run, log[run]);
    }
  }

  // ---------- publication keeps it ----------

  /** The run of the row is in the log, and nothing but the log's own row binds its actors. */
  ghost predicate Binds(claims: map<Id, Id>, run: Id, actors: set<Id>) {
    forall a :: a in actors ==> a in claims && claims[a] == run
  }

  ghost predicate Agrees(index: map<Id, Id>, claims: map<Id, Id>) {
    forall a :: a in index ==> a in claims && claims[a] == index[a]
  }

  /** Indexed actors hold the claim, so the walk over a claimed roster meets no foreign entry. */
  lemma ClaimedRosterIsFree(index: map<Id, Id>, claims: map<Id, Id>, run: Id, members: seq<Member>)
    requires Agrees(index, claims) && Binds(claims, run, IdSet(members))
    ensures IndexMembers(index, members, run) == (Bind(index, IdSet(members), run), true)
    ensures Agrees(Bind(index, IdSet(members), run), claims)
  {
    forall m | m in members
      ensures m.id !in index || index[m.id] == NOBODY || index[m.id] == run
    {
      assert m.id in IdSet(members);
    }
    IndexMembersComplete(index, members, run);
  }

  lemma NextIndexAgrees(live: Live, claims: map<Id, Id>, t: Transition, now: Time)
    requires t.publication.Some? && Agrees(live.actorRuns, claims) && Binds(claims, t.runId, Roster(t.publication.value))
    ensures NextIndex(live, t, now).1 && Agrees(NextIndex(live, t, now).0, claims)
  {
    if t.publication.value.status == Active {
      ClaimedRosterIsFree(live.actorRuns, claims, t.runId, t.publication.value.members);
    }
  }

  lemma DeliveredFields(live: Live, t: Transition, index: map<Id, Id>)
    requires t.publication.Some?
    ensures var after := Delivered(live, t, index);
      && after.runs == live.runs[t.runId := t.publication.value]
      && after.expiry == live.expiry[t.runId := t.deadline]
      && after.actorRuns == Unindex(index, t.removed, t.runId)
      && (forall owner :: owner in after.sessions ==> owner in live.sessions && after.sessions[owner] == live.sessions[owner])
  {
  }

  lemma PublicationGoesThrough(live: Live, claims: map<Id, Id>, t: Transition, run: Id, log: seq<CommandResult>, now: Time)
    requires ChainOk(run, log) && StateOk(t, run, log) && LiveOk(live, t, run, log) && t.pending
    requires Agrees(live.actorRuns, claims) && Binds(claims, run, Roster(Last(log).session)) && !LegacyMismatch(live, t)
    ensures NextIndex(live, t, now).1
    ensures Publish(live, t, now) == (Delivered(live, t, NextIndex(live, t, now).0), None)
  {
    NextIndexAgrees(live, claims, t, now);
    assert t.publication.value.id == run && t.publication.value.revision == |log|;
    assert PublicationFits(live, t);
  }

  lemma BodyReplacedRunsOk(d: Durable, live: Live, after: Live, log: Log, run: Id)
    requires RunsOk(World(d, live), log) && run in log && d.states[run].pending
    requires d.states[run].publication.Some?
    requires after.runs == live.runs[run := d.states[run].publication.value]
    requires after.expiry == live.expiry[run := d.states[run].deadline]
    ensures RunsOk(World(d, after), log)
  {
    hide ChainOk, StateOk, LiveOk;
    PendingHasBody(live, d.states[run], run, log[run]);
    forall other | other in log
      ensures RunOk(after, d.states[other], other, log[other])
    {
      OtherRunOk(live, after, d.states[other], other, log[other], run, d.states[run]);
    }
  }

  lemma PendingHasBody(live: Live, t: Transition, run: Id, log: seq<CommandResult>)
    requires RunOk(live, t, run, log) && t.pending
    ensures t.publication.Some?
  {
  }

  /** One run's body can be replaced by its pending publication without touching what another run's row says. */
  lemma OtherRunOk(live: Live, after: Live, t: Transition, other: Id, log: seq<CommandResult>, run: Id, mine: Transition)
    requires RunOk(live, t, other, log)
    requires mine.publication.Some?
    requires other == run ==> t == mine && t.pending
    requires after.runs == live.runs[run := mine.publication.value]
    requires after.expiry == live.expiry[run := mine.deadline]
    ensures RunOk(after, t, other, log)
  {
  }

  lemma LoggedIffSaved(w: World, log: Log)
    requires Inv(w, log)
    ensures log.Keys == w.durable.states.Keys
  {
  }

  lemma RunFacts(w: World, log: Log, run: Id)
    requires RunsOk(w, log) && run in log
    ensures ChainOk(run, log[run]) && StateOk(w.durable.states[run], run, log[run])
    ensures LiveOk(w.live, w.durable.states[run], run, log[run])
  {
  }

  lemma RosterIsClaimed(d: Durable, log: Log, run: Id)
    requires log.Keys == d.states.Keys
    requires forall r :: r in log ==> log[r] != []
    requires ClaimsOk(d, log) && run in log
    ensures Binds(d.claims, run, Roster(Last(log[run]).session))
  {
    forall a | a in Roster(Last(log[run]).session)
      ensures a in d.claims && d.claims[a] == run
    {
      assert BoundIn(d, log, run, a);
    }
  }

  /** A pending publication always succeeds, and is applied whole. */
  lemma PendingPublicationSucceeds(w: World, log: Log, run: Id, now: Time)
    requires Inv(w, log) && StateOf(w.durable, run).pending
    ensures run in log && log[run] != [] && NextIndex(w.live, w.durable.states[run], now).1
    ensures w.durable.states[run].publication == Some(Last(log[run]).session)
    ensures Publish(w.live, w.durable.states[run], now) ==
      (Delivered(w.live, w.durable.states[run], NextIndex(w.live, w.durable.states[run], now).0), None)
  {
    LoggedIffSaved(w, log);
    InvParts(w, log);
    RunFacts(w, log, run);
    RosterIsClaimed(w.durable, log, run);
    OwnLegacy(w.live, w.durable.states, run);
    hide Inv, RunsOk, ChainOk, LiveOk, LegacyMismatch, LegacyIsOwn, Publish, Delivered;
    PublicationGoesThrough(w.live, w.durable.claims, w.durable.states[run], run, log[run], now);
  }

  lemma OwnLegacy(live: Live, states: map<Id, Transition>, run: Id)
    requires LegacyIsOwn(live, states) && run in states
    ensures !LegacyMismatch(live, states[run])
  {
  }

  lemma DeliveryKeepsInv(w: World, log: Log, run: Id, now: Time)
    requires Inv(w, log) && run in log && w.durable.states[run].pending
    ensures var (after, error) := Publish(w.live, w.durable.states[run], now);
      && Inv(World(w.durable, after), log)
      && error.None?
      && LiveRevision(after, run) == |log[run]|
      && forall a :: a in w.durable.states[run].removed && a in after.actorRuns ==> after.actorRuns[a] != run
  {
    var t := w.durable.states[run];
    RunFacts(w, log, run);
    RosterIsClaimed(w.durable, log, run);
    PendingPublicationSucceeds(w, log, run, now);
    var index := NextIndex(w.live, t, now).0;
    NextIndexAgrees(w.live, w.durable.claims, t, now);
    DeliveredFields(w.live, t, index);
    DeliveredKeepsInv(w, log, run, index, Delivered(w.live, t, index));
  }

  lemma DeliveredKeepsInv(w: World, log: Log, run: Id, index: map<Id, Id>, after: Live)
    requires Inv(w, log) && run in log && w.durable.states[run].pending
    requires var t := w.durable.states[run];
      && t.publication.Some?
      && after.runs == w.live.runs[run := t.publication.value]
      && after.expiry == w.live.expiry[run := t.deadline]
      && after.actorRuns == Unindex(index, t.removed, run)
      && (forall owner :: owner in after.sessions ==> owner in w.live.sessions && after.sessions[owner] == w.live.sessions[owner])
    requires Agrees(index, w.durable.claims)
    ensures Inv(World(w.durable, after), log)
    ensures LiveRevision(after, run) == |log[run]|
    ensures forall a :: a in w.durable.states[run].removed && a in after.actorRuns ==> after.actorRuns[a] != run
  {
    RunFacts(w, log, run);
    BodyReplacedRunsOk(w.durable, w.live, after, log, run);
  }

  // ---------- acknowledgement keeps it ----------

  lemma AcknowledgedRunsOk(d: Durable, live: Live, log: Log, run: Id, d': Durable)
    requires RunsOk(World(d, live), log) && run in log && LiveRevision(live, run) == |log[run]|
    requires d'.states == d.states[run := d.states[run].(pending := false, publication := None)]
    ensures RunsOk(World(d', live), log)
  {
    hide RunOk;
    forall other | other in log
      ensures RunOk(live, d'.states[other], other, log[other])
    {
      assert RunOk(live, d.states[other], other, log[other]);
      if other == run {
        AcknowledgedRunOk(live, d.states[run], run, log[run]);
      }
    }
  }

  lemma AcknowledgedRunOk(live: Live, t: Transition, run: Id, log: seq<CommandResult>)
    requires RunOk(live, t, run, log) && LiveRevision(live, run) == |log|
    ensures RunOk(live, t.(pending := false, publication := None), run, log)
  {
  }

  /** In a run's chain nobody is both in the last roster and among those the last command settled. */
  lemma LastSettledHaveLeft(run: Id, log: seq<CommandResult>)
    requires ChainOk(run, log)
    ensures Roster(Last(log).session) !! SettledIds(Last(log))
  {
    if |log| > 1 {
      assert Follows(log[|log| - 2].session, log[|log| - 1]);
    }
  }

  lemma AcknowledgedClaimsOk(d: Durable, log: Log, run: Id, d': Durable)
    requires log.Keys == d.states.Keys
    requires forall r :: r in log ==> log[r] != []
    requires ClaimsOk(d, log) && run in log
    requires ChainOk(run, log[run]) && StateOk(d.states[run], run, log[run]) && d.states[run].pending
    requires d'.states == d.states[run := d.states[run].(pending := false, publication := None)]
    requires d'.claims == ReleaseClaims(d.claims, d.states[run].removed, run)
    ensures ClaimsOk(d', log)
  {
    var t := d.states[run];
    LastSettledHaveLeft(run, log[run]);
    assert forall a :: a in t.removed <==> a in (set x | x in t.removed);
    forall other, a
      ensures BoundIn(d', log, other, a) <==> BoundIn(d, log, other, a) && !(other == run && a in t.removed)
    {
    }
    hide Bound, ChainOk, StateOk, BoundIn, SettledIds, Roster;
  }

  lemma AcknowledgedLegacyIsOwn(live: Live, states: map<Id, Transition>, run: Id)
    requires LegacyIsOwn(live, states) && run in states
    ensures LegacyIsOwn(live, states[run := states[run].(pending := false, publication := None)])
  {
    assert !LegacyMismatch(live, states[run]);
  }

  lemma AcknowledgedTables(d: Durable, d': Durable, log: Log)
    requires d'.results == d.results && d'.participants == d.participants && d'.admissions == d.admissions
    requires forall run :: run in log ==> log[run] != []
    requires ResultsOk(d, log) && ParticipantsOk(d, log) && AdmissionsOk(d, log)
    ensures ResultsOk(d', log) && ParticipantsOk(d', log) && AdmissionsOk(d', log)
  {
  }

  lemma AcknowledgedInv(w: World, d': Durable, log: Log)
    requires RunsOk(World(d', w.live), log) && ClaimsOk(d', log) && IndexOk(World(d', w.live)) && LegacyIsOwn(w.live, d'.states)
    requires ResultsOk(d', log) && forall run :: run in log ==> log[run] != []
    requires ParticipantsOk(d', log) && AdmissionsOk(d', log) && LegacyOk(w.live)
    ensures Inv(World(d', w.live), log)
  {
    hide RunsOk, ClaimsOk, IndexOk, LegacyIsOwn, ResultsOk, ParticipantsOk, AdmissionsOk, LegacyOk;
  }

  lemma AcknowledgedIndexOk(w: World, log: Log, run: Id, d': Durable)
    requires IndexOk(w) && run in w.durable.states
    requires forall a :: a in w.durable.states[run].removed && a in w.live.actorRuns ==> w.live.actorRuns[a] != run
    requires d'.claims == ReleaseClaims(w.durable.claims, w.durable.states[run].removed, run)
    ensures IndexOk(World(d', w.live))
  {
  }

  /** After a delivery the claims of the departed can go: the index no longer names them. */
  lemma AcknowledgementKeepsInv(w: World, log: Log, run: Id)
    requires Inv(w, log) && run in log
    requires w.durable.states[run].pending && LiveRevision(w.live, run) == |log[run]|
    requires forall a :: a in w.durable.states[run].removed && a in w.live.actorRuns ==> w.live.actorRuns[a] != run
    ensures Acknowledge(w.durable, run, w.durable.states[run].revision).Success?
    ensures var d := Acknowledge(w.durable, run, w.durable.states[run].revision).value;
      Inv(World(d, w.live), log) && !d.states[run].pending
  {
    var d := w.durable;
    var d' := Acknowledge(d, run, d.states[run].revision).value;
    RunFacts(w, log, run);
    InvParts(w, log);
    hide Inv, RunsOk, ChainOk, StateOk, LiveOk, ClaimsOk, IndexOk, LegacyIsOwn, ResultsOk, ParticipantsOk, AdmissionsOk, LegacyOk, ReleaseClaims;
    AcknowledgedRunsOk(d, w.live, log, run, d');
    AcknowledgedClaimsOk(d, log, run, d');
    AcknowledgedLegacyIsOwn(w.live, d.states, run);
    AcknowledgedIndexOk(w, log, run, d');
    AcknowledgedTables(d, d', log);
    AcknowledgedInv(w, d', log);
  }

  /** Whatever fails on the way, a delivery attempt keeps the invariant, with or without its durable half. */
  lemma RedeliverKeepsInv(w: World, log: Log, run: Id, now: Time, fault: DeliveryFault)
    requires Inv(w, log)
    ensures var (after, error) := Redeliver(w, run, now, fault);
      && Inv(after, log) && Inv(World(w.durable, after.live), log)
      && after.durable.results == w.durable.results && after.durable.admissions == w.durable.admissions
      && (error.None? ==> !StateOf(after.durable, run).pending)
  {
    hide Inv;
    if StateOf(w.durable, run).pending && fault.publish != Unreachable {
      LoggedIffSaved(w, log);
      DeliveryKeepsInv(w, log, run, now);
      var (live, error) := Publish(w.live, StateOf(w.durable, run), now);
      if error.None? {
        AcknowledgementKeepsInv(World(w.durable, live), log, run);
      }
    }
  }

  lemma PublishPendingKeepsInv(w: World, log: Log, run: Id, d: Delivery)
    requires Inv(w, log)
    ensures Inv(PublishPending(w, run, d).0, log)
    ensures PublishPending(w, run, d).0.durable.results == w.durable.results
  {
    hide Inv;
    RedeliverKeepsInv(w, log, run, d.now, d.fault);
  }

  lemma AcknowledgedRevision(d: Durable, run: Id, revision: int)
    requires run in d.states && Acknowledge(d, run, revision).Success?
    ensures var after := Acknowledge(d, run, revision).value;
      run in after.states && after.states[run].revision == d.states[run].revision
  {
  }

  lemma FaultlessSteps(w: World, run: Id, now: Time)
    requires var t := StateOf(w.durable, run);
      t.pending && Publish(w.live, t, now).1.None? && Acknowledge(w.durable, run, t.revision).Success?
    ensures Redeliver(w, run, now, DeliveryFault(Received, true)) ==
      (World(Acknowledge(w.durable, run, StateOf(w.durable, run).revision).value, Publish(w.live, StateOf(w.durable, run), now).0), None)
  {
    hide Publish, Acknowledge;
  }

  lemma PublishedBody(live: Live, t: Transition, now: Time)
    requires t.publication.Some? && Publish(live, t, now).1.None?
    ensures t.runId in Publish(live, t, now).0.runs && Publish(live, t, now).0.runs[t.runId] == t.publication.value
  {
    hide NextIndex;
  }

  /** Without a fault a delivery completes, is acknowledged, and leaves the last committed body live. */
  lemma FaultlessRedelivery(w: World, log: Log, run: Id, now: Time)
    requires Inv(w, log) && StateOf(w.durable, run).pending
    ensures var (after, error) := Redeliver(w, run, now, DeliveryFault(Received, true));
      && error.None? && !StateOf(after.durable, run).pending && StateOf(after.durable, run).revision == StateOf(w.durable, run).revision
      && run in log && log[run] != [] && run in after.live.runs && after.live.runs[run] == Last(log[run]).session
  {
    hide Inv, Publish, Acknowledge, Delivered, NextIndex, LiveRevision, Last, Redeliver;
    PendingPublicationSucceeds(w, log, run, now);
    DeliveryKeepsInv(w, log, run, now);
    var t := w.durable.states[run];
    RowIsOwn(w, log, run);
    PublishedBody(w.live, t, now);
    AcknowledgementKeepsInv(World(w.durable, Publish(w.live, t, now).0), log, run);
    AcknowledgedRevision(w.durable, run, t.revision);
    FaultlessSteps(w, run, now);
  }

  lemma RowIsOwn(w: World, log: Log, run: Id)
    requires Inv(w, log) && run in log
    ensures run in w.durable.states && w.durable.states[run].runId == run
  {
    InvParts(w, log);
    RunFacts(w, log, run);
  }
}

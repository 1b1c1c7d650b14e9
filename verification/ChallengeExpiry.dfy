/** Runs whose live entry has expired: nobody can go on with them, and nobody on their roster can start anything else. */
module ChallengeExpiry {
  import opened Common
  import opened ChallengeTypes
  import opened ChallengeRules
  import opened ChallengeStores
  import opened ChallengeProtocol
  import opened ChallengeInvariants
  import opened ChallengeSteps
  import opened ChallengeRuns

  // ---------- when a command is accepted ----------

  /** The command is one that the run waits for: from a member, at its revision, and a first round from its leader. */
  predicate Fits(body: Session, actor: Id, revision: int, c: Command) {
    && body.status == Active && Contains(body, actor) && revision == body.revision
    && (c.AdvanceRound? && body.round == 1 ==> body.leader == actor)
  }

  /** A run at rest is live as it was last committed. */
  lemma RestingRun(w: World, log: Log, run: Id)
    requires Inv(w, log) && run in log && !StateOf(w.durable, run).pending
    ensures log[run] != [] && run in w.live.runs && run in w.live.expiry && run != NOBODY && run in w.durable.states
    ensures w.live.runs[run] == Last(log[run]).session && w.live.expiry[run] == w.durable.states[run].deadline
    ensures Last(log[run]).session.revision == |log[run]| == StateOf(w.durable, run).revision && Last(log[run]).session.id == run
    ensures !w.durable.states[run].pending
  {
    InvParts(w, log);
    RunFacts(w, log, run);
  }

  lemma NoReceiptYet(w: World, log: Log, run: Id, actor: Id)
    requires Inv(w, log) && run in log
    ensures ResultKey(run, actor, |log[run]|) !in w.durable.results
  {
    InvParts(w, log);
    hide Inv, RunsOk;
  }

  lemma AdmittedInRoster(d: Durable, log: Log, run: Id, actor: Id)
    requires AdmissionsOk(d, log) && run in log && log[run] != [] && actor in Roster(Last(log[run]).session)
    ensures run in d.admissions && Contains(d.admissions[run], actor)
  {
    assert Named(d.admissions, run, log[run][|log[run]| - 1]);
  }

  lemma PlayersAreOnRoster(run: Session, actor: Id)
    requires Playable(run) && Contains(run, actor)
    ensures actor in Roster(run)
  {
  }

  lemma MembersAreAdmitted(w: World, log: Log, run: Id, actor: Id)
    requires Inv(w, log) && run in log && log[run] != [] && Last(log[run]).session.status == Active && Contains(Last(log[run]).session, actor)
    ensures run in w.durable.admissions && Contains(w.durable.admissions[run], actor)
  {
    InvParts(w, log);
    RunFacts(w, log, run);
    LastIsPlayable(run, log[run]);
    hide *;
    PlayersAreOnRoster(Last(log[run]).session, actor);
    AdmittedInRoster(w.durable, log, run, actor);
  }

  lemma NothingToDeliver(w: World, run: Id, now: Time, fault: DeliveryFault)
    requires !StateOf(w.durable, run).pending
    ensures Redeliver(w, run, now, fault) == (w, None)
  {
    hide Publish, Acknowledge;
  }

  lemma SaveSucceeds(w: World, log: Log, run: Id, actor: Id, c: Command, deadline: Time)
    requires Inv(w, log) && run in log && !StateOf(w.durable, run).pending && log[run] != []
    requires Fits(Last(log[run]).session, actor, |log[run]|, c)
    ensures var body := Last(log[run]).session;
      Compute(w.durable, body, actor, c).Success?
      && var (paid, o) := Compute(w.durable, body, actor, c).value;
      var result := Receipt(body, actor, |log[run]|, c, o);
      SaveTransition(paid, Commitment(body, result, o.removed, deadline), result).Success?
  {
    RestingRun(w, log, run);
    InvParts(w, log);
    RunFacts(w, log, run);
    LastIsPlayable(run, log[run]);
    hide Inv, RunsOk, ResultsOk, ClaimsOk, IndexOk, ParticipantsOk, AdmissionsOk, ChainOk, StateOk, LiveOk, Compute, Round, Departure, Pay;
    ComputeSucceeds(w.durable, log, run, actor, c);
  }

  lemma TimelyIsTaken(w: World, body: Session, actor: Id, c: Command, now: Time, deadline: Time)
    requires body.id in w.live.runs && w.live.runs[body.id] == body && body.id in w.live.expiry
    requires Fits(body, actor, body.revision, c) && StateOf(w.durable, body.id).revision == body.revision
    requires Compute(w.durable, body, actor, c).Success?
      && var (paid, o) := Compute(w.durable, body, actor, c).value;
      var result := Receipt(body, actor, body.revision, c, o);
      SaveTransition(paid, Commitment(body, result, o.removed, deadline), result).Success?
    ensures Accept(w, actor, body.id, body.revision, c, now, deadline).1.Success? <==> now < w.live.expiry[body.id]
    ensures now >= w.live.expiry[body.id] ==> Accept(w, actor, body.id, body.revision, c, now, deadline) == (w, Failure(RecoveryNeeded))
  {
    hide Compute, SaveTransition, Receipt, Commitment, StateOf;
  }

  lemma FreshIsAccepted(w: World, actor: Id, run: Id, revision: int, c: Command, x: Circumstance)
    requires run in w.durable.admissions && Contains(w.durable.admissions[run], actor)
    requires Redeliver(w, run, x.now, x.fault) == (w, None) && ResultKey(run, actor, revision) !in w.durable.results
    ensures MutateBody(w, actor, run, revision, c, x) == Accept(w, actor, run, revision, c, x.now, x.deadline)
  {
    hide Redeliver, Accept;
  }

  /**
   A command that a run at rest waits for is accepted exactly as long as the run has not expired; from then on it is
   answered with the need for recovery and leaves the world alone.
   */
  lemma CommandIsTakenIff(w: World, log: Log, actor: Id, run: Id, c: Command, x: Circumstance)
    requires Inv(w, log) && run in log && !StateOf(w.durable, run).pending && log[run] != []
    requires Fits(Last(log[run]).session, actor, |log[run]|, c)
    ensures run in w.live.expiry
    ensures MutateBody(w, actor, run, |log[run]|, c, x).1.Success? <==> x.now < w.live.expiry[run]
    ensures x.now >= w.live.expiry[run] ==> MutateBody(w, actor, run, |log[run]|, c, x) == (w, Failure(RecoveryNeeded))
  {
    hide Inv, Redeliver, Accept, MutateBody, Compute, SaveTransition, Receipt, Commitment, StateOf, Last;
    RestingRun(w, log, run);
    NoReceiptYet(w, log, run, actor);
    MembersAreAdmitted(w, log, run, actor);
    NothingToDeliver(w, run, x.now, x.fault);
    SaveSucceeds(w, log, run, actor, c, x.deadline);
    TimelyIsTaken(w, Last(log[run]).session, actor, c, x.now, x.deadline);
    FreshIsAccepted(w, actor, run, |log[run]|, c, x);
  }

  // ---------- an expired run stays as it is ----------

  /** The same members hold claims on the run. */
  ghost predicate SameClaims(before: map<Id, Id>, after: map<Id, Id>, run: Id) {
    forall a :: a in before && before[a] == run <==> a in after && after[a] == run
  }

  /** Everything about one run is as it was: its row, its live body and expiry, and who is bound to it. */
  ghost predicate Untouched(w: World, v: World, run: Id) {
    && run in w.durable.states && run in v.durable.states && v.durable.states[run] == w.durable.states[run]
    && run in w.live.runs && run in v.live.runs && v.live.runs[run] == w.live.runs[run]
    && run in w.live.expiry && run in v.live.expiry && v.live.expiry[run] == w.live.expiry[run]
    && SameClaims(w.durable.claims, v.durable.claims, run)
  }

  lemma UntouchedThrough(a: World, b: World, c: World, run: Id)
    requires Untouched(a, b, run) && Untouched(b, c, run)
    ensures Untouched(a, c, run)
  {
  }

  /** Commands on the run come only after it has expired. */
  predicate TooLate(e: Event, run: Id, expiry: Time) {
    e.Mutating? && e.run == run ==> e.x.now >= expiry
  }

  lemma PublishKeepsOthers(live: Live, t: Transition, now: Time, run: Id)
    requires t.runId != run && run in live.runs && run in live.expiry
    ensures var after := Publish(live, t, now).0;
      && run in after.runs && after.runs[run] == live.runs[run] && run in after.expiry && after.expiry[run] == live.expiry[run]
  {
    hide NextIndex, LegacyMismatch, PublicationFits;
  }

  lemma RedeliverKeepsOthers(w: World, other: Id, now: Time, fault: DeliveryFault, run: Id)
    requires other != run && StateOf(w.durable, other).pending ==> StateOf(w.durable, other).runId == other
    requires other == run ==> !StateOf(w.durable, run).pending
    requires run in w.durable.states && run in w.live.runs && run in w.live.expiry
    ensures var after := Redeliver(w, other, now, fault).0;
      Untouched(w, after, run) && Untouched(w, World(w.durable, after.live), run)
  {
    hide Publish;
    if other != run && StateOf(w.durable, other).pending {
      PublishKeepsOthers(w.live, StateOf(w.durable, other), now, run);
    }
  }

  lemma AcceptKeepsOthers(w: World, actor: Id, other: Id, revision: int, c: Command, now: Time, deadline: Time, run: Id)
    requires run in w.durable.states && run in w.live.runs && run in w.live.expiry
    requires other == run ==> now >= w.live.expiry[run]
    requires other in w.live.runs ==> w.live.runs[other].id == other
    ensures Untouched(w, Accept(w, actor, other, revision, c, now, deadline).0, run)
  {
    hide Compute, Round, Departure;
    if ReadRun(w.live, other, now).Some? {
      ComputePaysOnly(w.durable, w.live.runs[other], actor, c);
    }
  }

  lemma ComputePaysOnly(d: Durable, run: Session, actor: Id, c: Command)
    ensures Compute(d, run, actor, c).Success? ==>
      var paid := Compute(d, run, actor, c).value.0; paid.states == d.states && paid.claims == d.claims
  {
    hide Round, Departure, Pay;
  }

  /** A pending row and a live body are their own run's. */
  lemma OwnRows(w: World, log: Log, other: Id)
    requires Inv(w, log)
    ensures StateOf(w.durable, other).pending ==> StateOf(w.durable, other).runId == other
    ensures other in w.live.runs ==> w.live.runs[other].id == other
  {
    InvParts(w, log);
    if other in log { RunFacts(w, log, other); }
  }

  lemma MutateKeepsOthers(w: World, log: Log, actor: Id, other: Id, revision: int, c: Command, x: Circumstance, run: Id)
    requires Inv(w, log) && run in log && !StateOf(w.durable, run).pending
    requires other == run ==> run in w.live.expiry && x.now >= w.live.expiry[run]
    ensures Untouched(w, MutateSection(w, actor, other, revision, c, x).0, run)
  {
    hide Inv, Redeliver, Accept, StateOf, Untouched;
    RestingRun(w, log, run);
    OwnRows(w, log, other);
    RedeliverKeepsOthers(w, other, x.now, x.fault, run);
    RedeliverKeepsInv(w, log, other, x.now, x.fault);
    var u := Redeliver(w, other, x.now, x.fault).0;
    OwnRows(u, log, other);
    UntouchedParts(w, u, run);
    SelfUntouched(w, run);
    AcceptKeepsOthers(u, actor, other, revision, c, x.now, x.deadline, run);
    AcceptKeepsLive(u, actor, other, revision, c, x.now, x.deadline);
    UntouchedThrough(w, u, Accept(u, actor, other, revision, c, x.now, x.deadline).0, run);
  }

  lemma UntouchedParts(w: World, v: World, run: Id)
    requires Untouched(w, v, run)
    ensures run in v.durable.states && run in v.live.runs && run in v.live.expiry && v.live.expiry[run] == w.live.expiry[run]
  {
  }

  lemma SelfUntouched(w: World, run: Id)
    requires run in w.durable.states && run in w.live.runs && run in w.live.expiry
    ensures Untouched(w, w, run)
  {
  }

  lemma AcceptKeepsLive(w: World, actor: Id, run: Id, revision: int, c: Command, now: Time, deadline: Time)
    ensures Accept(w, actor, run, revision, c, now, deadline).0.live == w.live
  {
    hide Compute, SaveTransition, ReadRun;
  }

  lemma EnrolmentKeepsOthers(w: World, v: World, other: Id, actors: set<Id>, run: Id)
    requires run in w.durable.states && run in w.live.runs && run in w.live.expiry && other != run && run != NOBODY
    requires v.live == w.live && (forall a :: a in actors ==> ClaimOf(w.durable, a) == NOBODY)
    requires v.durable.claims == Bind(w.durable.claims, actors, other)
    requires run in v.durable.states && v.durable.states[run] == w.durable.states[run]
    ensures Untouched(w, v, run)
  {
    forall a ensures a in w.durable.claims && w.durable.claims[a] == run <==> a in v.durable.claims && v.durable.claims[a] == run {
      if a in w.durable.claims && w.durable.claims[a] == run {
        assert a !in actors;
      }
    }
  }

  lemma EnrolledAreFree(d: Durable, session: Session)
    requires Enroll(d, session).Success?
    ensures Enroll(d, session).value.claims == Bind(d.claims, IdSet(session.members), session.id) && Enroll(d, session).value.states == d.states
    ensures forall a :: a in IdSet(session.members) ==> ClaimOf(d, a) == NOBODY
  {
    hide Bind, AddRows, ClaimOf;
  }

  lemma StartKeepsOthers(w: World, other: Id, q: StartRequest, x: Circumstance, run: Id)
    requires FreshRun(w.durable, other) && run in w.durable.states && run in w.live.runs && run in w.live.expiry && run != NOBODY
    ensures Untouched(w, StartSection(w, other, q, x).0, run)
  {
    hide Admit, Enroll, Bind, IdSet, StateOf, HasRepeat;
    var (after, r) := StartBody(w, other, q, x.now, x.deadline);
    SelfUntouched(w, run);
    if r.Success? {
      var members := Admit(w, q.memberIds, q.candidates, x.now).value;
      var session := NewRun(other, q.leader, members);
      var saved := w.durable.(admissions := w.durable.admissions[other := session]);
      EnrolledAreFree(saved, session);
      SameClaimants(w.durable, saved);
      EnrolmentKeepsOthers(w, after, other, IdSet(members), run);
    }
  }

  lemma SameClaimants(d: Durable, e: Durable)
    requires e.claims == d.claims
    ensures forall a :: ClaimOf(e, a) == ClaimOf(d, a)
  {
  }

  lemma MigrateKeepsOthers(w: World, actor: Id, other: Id, now: Time, commit: CommitOutcome, run: Id)
    requires run in w.durable.states && run in w.live.runs && run in w.live.expiry && run != NOBODY
    requires other == run ==> StateOf(w.durable, run).revision > 0
    ensures Untouched(w, MigrateSection(w, actor, other, now, commit).0, run)
  {
    hide Enroll, Bind, IdSet, Migratable, DefaultAwards, ReadLegacyRun, StateOf, Contains;
    var (after, error) := MigrateBody(w, actor, other, now);
    SelfUntouched(w, run);
    if error.None? && other != run && other in w.durable.admissions && StateOf(w.durable, other).revision <= 0 {
      var admission := w.durable.admissions[other];
      var legacy := ReadLegacyRun(w.live, admission.leader, now).value.0;
      var session := legacy.(revision := 1, awards := DefaultAwards(legacy, admission.leader));
      MigratedId(legacy, other, admission);
      EnrolledAreFree(w.durable, session);
      EnrolmentKeepsOthers(w, after, other, IdSet(session.members), run);
    }
  }

  lemma MigratedId(legacy: Session, other: Id, admission: Session)
    requires Migratable(legacy, other, admission)
    ensures legacy.id == other
  {
  }

  /** Whatever happens, an expired run at rest stays as it is. */
  lemma SectionLeavesExpired(w: World, log: Log, e: Event, run: Id)
    requires Inv(w, log) && Enabled(w, e) && run in log && !StateOf(w.durable, run).pending
    requires run in w.live.expiry && TooLate(e, run, w.live.expiry[run])
    ensures Untouched(w, Apply(w, e), run)
  {
    hide Inv, StartSection, MigrateSection, MutateSection, PublishPending, StateOf, Untouched, FreshRun;
    RestingRun(w, log, run);
    match e
    case Starting(other, q, x) => StartKeepsOthers(w, other, q, x, run);
    case Migrating(actor, other, now, commit) => MigrateKeepsOthers(w, actor, other, now, commit, run);
    case Mutating(actor, other, revision, c, x) => MutateKeepsOthers(w, log, actor, other, revision, c, x, run);
    case Publishing(other, d) => DeliveryKeepsOthers(w, log, other, d, run);
  }

  lemma DeliveryKeepsOthers(w: World, log: Log, other: Id, d: Delivery, run: Id)
    requires Inv(w, log) && run in log && !StateOf(w.durable, run).pending
    ensures Untouched(w, PublishPending(w, other, d).0, run)
  {
    hide Inv, Redeliver, StateOf, Untouched;
    RestingRun(w, log, run);
    OwnRows(w, log, other);
    SelfUntouched(w, run);
    RedeliverKeepsOthers(w, other, d.now, d.fault, run);
  }

  lemma {:induction false} ExecutesWithin(w: World, log: Log, events: seq<Event>)
    requires Inv(w, log)
    ensures Inv(Execute(w, log, events).0, Execute(w, log, events).1)
    decreases |events|
  {
    hide Inv, Apply, LogAfter, Enabled;
    if events != [] {
      var n := |events| - 1;
      ExecutesWithin(w, log, events[..n]);
      var (v, so) := Execute(w, log, events[..n]);
      if Enabled(v, events[n]) {
        SectionKeepsInv(v, so, events[n]);
      }
    }
  }

  lemma UntouchedRests(w: World, v: World, log: Log, run: Id)
    requires Inv(v, log) && Untouched(w, v, run) && !StateOf(w.durable, run).pending
    ensures run in log && !StateOf(v.durable, run).pending && run in v.live.expiry && v.live.expiry[run] == w.live.expiry[run]
  {
    InvParts(v, log);
  }

  /** From any state on, an expired run at rest stays as it is through every execution, its members bound to it. */
  lemma {:induction false} ExpiredStays(w: World, log: Log, events: seq<Event>, run: Id)
    requires Inv(w, log) && run in log && !StateOf(w.durable, run).pending && run in w.live.expiry
    requires forall i :: 0 <= i < |events| ==> TooLate(events[i], run, w.live.expiry[run])
    ensures Untouched(w, Execute(w, log, events).0, run)
    decreases |events|
  {
    hide Inv, Apply, LogAfter, Enabled, Untouched, StateOf, TooLate;
    if events == [] {
      RestingRun(w, log, run);
      SelfUntouched(w, run);
    } else {
      var n := |events| - 1;
      ExpiredStays(w, log, events[..n], run);
      ExecutesWithin(w, log, events[..n]);
      var (v, so) := Execute(w, log, events[..n]);
      UntouchedRests(w, v, so, run);
      if Enabled(v, events[n]) {
        SectionLeavesExpired(v, so, events[n], run);
        UntouchedThrough(w, v, Apply(v, events[n]), run);
      }
    }
  }

  // ---------- a stranded party ----------

  lemma {:induction false} AdmittedAreFree(w: World, ids: seq<Id>, candidates: map<Id, Candidate>, now: Time, a: Id)
    requires Admit(w, ids, candidates, now).Success? && a in ids
    ensures !IsBusy(w, a, now)
    decreases |ids|
  {
    hide IsBusy, MemberOf;
    var n := |ids| - 1;
    if ids[n] != a {
      AdmittedAreFree(w, ids[..n], candidates, now, a);
    }
  }

  /** Nobody who is claimed by a run can be in a party that starts another. */
  lemma ClaimedCannotStart(w: World, run: Id, q: StartRequest, now: Time, deadline: Time, a: Id)
    requires a in q.memberIds && ClaimOf(w.durable, a) != NOBODY
    ensures StartBody(w, run, q, now, deadline).0 == w && StartBody(w, run, q, now, deadline).1.Failure?
  {
    hide Admit, Enroll, SaveTransition, ClaimOf;
    if Admit(w, q.memberIds, q.candidates, now).Success? {
      AdmittedAreFree(w, q.memberIds, q.candidates, now, a);
    }
  }

  /** A command on an expired run at rest is a stored one, or it is refused; either way it changes nothing. */
  lemma LateChangesNothing(w: World, actor: Id, run: Id, revision: int, c: Command, x: Circumstance)
    requires !StateOf(w.durable, run).pending && run in w.live.expiry && x.now >= w.live.expiry[run]
    ensures MutateBody(w, actor, run, revision, c, x).0 == w
    ensures MutateBody(w, actor, run, revision, c, x).1.Success? ==> ResultKey(run, actor, revision) in w.durable.results
  {
    NothingToDeliver(w, run, x.now, x.fault);
    hide Redeliver, Contains, StateOf, Compute;
  }

  lemma RosterMemberIsClaimed(w: World, log: Log, run: Id, a: Id)
    requires Inv(w, log) && run in log && log[run] != [] && a in Roster(Last(log[run]).session)
    ensures a in w.durable.claims && w.durable.claims[a] == run
  {
    InvParts(w, log);
    hide Inv, RunsOk, ResultsOk, Roster;
    RosterIsClaimed(w.durable, log, run);
  }

  /** Once its run has expired at rest, a member of its last roster is stranded: claimed by a run nobody can go on with. */
  ghost predicate Stranded(w: World, run: Id, a: Id, now: Time) {
    && ClaimOf(w.durable, a) == run && run != NOBODY && !StateOf(w.durable, run).pending
    && run in w.live.expiry && now >= w.live.expiry[run]
  }

  /**
   Through every execution in which the run's commands come too late, every member of its last roster stays stranded:
   each further command on the run changes nothing and is accepted only as a stored one, and no party with such a
   member starts.
   */
  lemma ExpiredPartyIsStranded(w: World, log: Log, events: seq<Event>, run: Id, a: Id, late: Time)
    requires Reachable(w, log) && run in log && log[run] != [] && !StateOf(w.durable, run).pending
    requires a in Roster(Last(log[run]).session) && run in w.live.expiry && late >= w.live.expiry[run]
    requires forall i :: 0 <= i < |events| ==> TooLate(events[i], run, w.live.expiry[run])
    ensures Stranded(Execute(w, log, events).0, run, a, late)
    ensures forall actor, revision, c, x: Circumstance :: x.now >= late ==>
      var r := MutateBody(Execute(w, log, events).0, actor, run, revision, c, x);
      r.0 == Execute(w, log, events).0 && (r.1.Success? ==> ResultKey(run, actor, revision) in r.0.durable.results)
    ensures forall other, q: StartRequest, now, deadline :: a in q.memberIds ==>
      StartBody(Execute(w, log, events).0, other, q, now, deadline).1.Failure?
  {
    ReachableInv(w, log);
    hide Inv, Reachable, Execute, StateOf, MutateBody, StartBody, TooLate, Roster;
    RestingRun(w, log, run);
    RosterMemberIsClaimed(w, log, run, a);
    ExpiredStays(w, log, events, run);
    ExecutesWithin(w, log, events);
    var (v, so) := Execute(w, log, events);
    UntouchedRests(w, v, so, run);
    StaysStranded(w, v, run, a, late);
    forall actor, revision, c, x: Circumstance | x.now >= late
      ensures var r := MutateBody(v, actor, run, revision, c, x);
        r.0 == v && (r.1.Success? ==> ResultKey(run, actor, revision) in r.0.durable.results)
    {
      LateChangesNothing(v, actor, run, revision, c, x);
    }
    forall other, q: StartRequest, now, deadline | a in q.memberIds
      ensures StartBody(v, other, q, now, deadline).1.Failure?
    {
      ClaimedCannotStart(v, other, q, now, deadline, a);
    }
  }

  lemma StaysStranded(w: World, v: World, run: Id, a: Id, late: Time)
    requires Untouched(w, v, run) && a in w.durable.claims && w.durable.claims[a] == run && run != NOBODY
    requires !StateOf(v.durable, run).pending && late >= w.live.expiry[run]
    ensures Stranded(v, run, a, late)
  {
  }

  // ---------- one party ----------

  const PARTY := StartRequest("hero", ["hero"], 0, map["hero" := Candidate(10, 10, 5, 5, None)])

  const SMOOTH := Delivery(1, DeliveryFault(Received, true), Committed)

  const OPENING: seq<Event> :=
    [Starting("run", PARTY, Circumstance(0, 100, DeliveryFault(Received, true), Committed, true, SMOOTH)), Publishing("run", SMOOTH)]

  function Nothing(): World {
    World(Durable(map[], map[], map[], map[], map[]), Live(map[], map[], map[], map[], map[], map[]))
  }

  function Hero(): Session {
    NewRun("run", "hero", [Member("hero", 10, Some(5), 0, 0, 10, 5)])
  }

  function First(): CommandResult {
    CommandResult("hero", Start, 0, Hero(), None, [])
  }

  lemma HeroIsAdmitted()
    ensures Admit(Nothing(), ["hero"], PARTY.candidates, 0) == Success([Member("hero", 10, Some(5), 0, 0, 10, 5)])
  {
    var ids: seq<Id> := ["hero"];
    assert ids[..0] == [];
    assert Admit(Nothing(), ids[..0], PARTY.candidates, 0) == Success([]);
    assert !IsBusy(Nothing(), "hero", 0);
    assert [] + [MemberOf("hero", PARTY.candidates["hero"])] == [Member("hero", 10, Some(5), 0, 0, 10, 5)];
    assert ids[0] == "hero" && |ids| == 1;
  }

  lemma PartyStarts()
    ensures var w := Apply(Nothing(), OPENING[0]);
      && "run" in w.durable.states && w.durable.states["run"] == Transition("run", 1, true, Some(Hero()), [], NOBODY, 100)
      && w.durable.results == map[ResultKey("run", "hero", 0) := First()]
  {
    hide Admit, Enroll, NewRun;
    HeroIsAdmitted();
    HeroIsEnrolled();
  }

  lemma HeroIsEnrolled()
    ensures var d := Nothing().durable.(admissions := map["run" := Hero()]);
      Enroll(d, Hero()).Success? && Enroll(d, Hero()).value.states == map[] && Enroll(d, Hero()).value.results == map[]
  {
    hide Bind, AddRows, IdSet;
  }

  lemma DeadlineIsKept(w: World, run: Id, d: Delivery)
    requires run in w.durable.states
    ensures var v := PublishPending(w, run, d).0; run in v.durable.states && v.durable.states[run].deadline == w.durable.states[run].deadline
  {
    hide Publish, ReleaseClaims;
  }

  /** The run is published and at rest, with its one member on the roster and its deadline at 100. */
  lemma PartyPlays()
    ensures var (w, log) := Execute(Nothing(), map[], OPENING);
      && Reachable(w, log) && "run" in log && log["run"] == [First()] && !StateOf(w.durable, "run").pending
      && "run" in w.live.expiry && w.live.expiry["run"] == 100 && "hero" in Roster(Last(log["run"]).session)
  {
    hide Apply, NewRun, Reachable, Execute, Enabled, LogAfter, StateOf, First, Roster, Last;
    PartyStarts();
    var u := Apply(Nothing(), OPENING[0]);
    var logged: Log := map["run" := [First()]];
    PartyIsLogged(u);
    OpeningIsEnabled(u);
    ExecutesNothing(Nothing(), map[]);
    ExecutesOneMore(Nothing(), map[], [], OPENING[0]);
    assert [] + [OPENING[0]] == [OPENING[0]] && [OPENING[0]] + [OPENING[1]] == OPENING;
    assert Execute(Nothing(), map[], [OPENING[0]]) == (u, logged);
    ExecutesOneMore(Nothing(), map[], [OPENING[0]], OPENING[1]);
    NothingIsInit();
    ReachedBy([OPENING[0]]);
    ReachableInv(u, logged);
    PartyIsPublished(u, logged);
    PublishingLogsNothing(logged, Apply(u, OPENING[1]));
    ReachedBy(OPENING);
    LastIsFirst();
  }

  lemma LastIsFirst()
    ensures Last([First()]) == First()
  {
    hide First;
  }

  lemma PublishingLogsNothing(log: Log, w: World)
    ensures LogAfter(log, w, OPENING[1]) == log
  {
  }

  lemma OpeningIsEnabled(u: World)
    ensures Enabled(Nothing(), OPENING[0]) && Enabled(u, OPENING[1])
  {
  }

  lemma ExecutesNothing(w: World, log: Log)
    ensures Execute(w, log, []) == (w, log)
  {
  }

  lemma ExecutesOneMore(w: World, log: Log, events: seq<Event>, e: Event)
    requires Enabled(Execute(w, log, events).0, e)
    ensures var (v, so) := Execute(w, log, events); Execute(w, log, events + [e]) == (Apply(v, e), LogAfter(so, Apply(v, e), e))
  {
    hide Apply, LogAfter, Enabled;
    assert (events + [e])[..|events|] == events;
  }

  lemma PartyIsLogged(u: World)
    requires u.durable.results == map[ResultKey("run", "hero", 0) := First()]
    ensures LogAfter(map[], u, OPENING[0]) == map["run" := [First()]]
  {
    var none: Log := map[];
    assert LogAt(none, "run") + [First()] == [First()];
  }

  lemma NothingIsInit()
    ensures Init(Nothing())
  {
  }

  lemma ReachedBy(events: seq<Event>)
    requires Init(Nothing())
    ensures Reachable(Execute(Nothing(), map[], events).0, Execute(Nothing(), map[], events).1)
  {
    hide Execute;
  }

  lemma PartyIsPublished(u: World, log: Log)
    requires Inv(u, log) && log == map["run" := [First()]] && "run" in u.durable.states && u.durable.states["run"].pending
    requires u.durable.states["run"].deadline == 100
    ensures var w := Apply(u, OPENING[1]);
      && !StateOf(w.durable, "run").pending && "run" in w.live.expiry && w.live.expiry["run"] == 100
      && "hero" in Roster(First().session)
  {
    hide Inv, PublishPending, Redeliver;
    FaultlessRedelivery(u, log, "run", 1);
    CommittedDelivery(u, "run", 1);
    PublishPendingKeepsInv(u, log, "run", SMOOTH);
    var w := PublishPending(u, "run", SMOOTH).0;
    RestingRun(w, log, "run");
    DeadlineIsKept(u, "run", SMOOTH);
    assert Hero().members[0] in Hero().members;
  }

  lemma {:induction false} ExecuteInTwo(w: World, log: Log, first: seq<Event>, second: seq<Event>)
    ensures var (v, so) := Execute(w, log, first); Execute(w, log, first + second) == Execute(v, so, second)
    decreases |second|
  {
    hide Apply, LogAfter, Enabled;
    if second == [] {
      assert first + second == first;
    } else {
      var n := |second| - 1;
      ExecuteInTwo(w, log, first, second[..n]);
      assert (first + second)[..|first| + n] == first + second[..n];
    }
  }

  /** A party of one starts, its run is published, and its deadline passes: nothing later frees the hero. */
  lemma HeroIsStranded(events: seq<Event>, late: Time)
    requires late >= 100 && forall i :: 0 <= i < |events| ==> TooLate(events[i], "run", 100)
    ensures Stranded(Execute(Nothing(), map[], OPENING + events).0, "run", "hero", late)
  {
    hide Execute, Stranded, TooLate, StateOf, Roster, First;
    PartyPlays();
    ExecuteInTwo(Nothing(), map[], OPENING, events);
    var (w, log) := Execute(Nothing(), map[], OPENING);
    ExpiredPartyIsStranded(w, log, events, "run", "hero", late);
  }
}

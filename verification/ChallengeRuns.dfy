/**
 Theorems over every interleaving of protocol sections. A section is what one
 call does under the run lock; a call that crashes between its sections is the
 prefix that did run.
 */
module ChallengeRuns {
  import opened Common
  import opened ChallengeTypes
  import opened ChallengeRules
  import opened ChallengeStores
  import opened ChallengeProtocol
  import opened ChallengeInvariants
  import opened ChallengeSteps

  datatype Event =
    | Starting(run: Id, request: StartRequest, x: Circumstance)
    | Migrating(actor: Id, run: Id, now: Time, commit: CommitOutcome)
    | Mutating(actor: Id, run: Id, revision: int, command: Command, x: Circumstance)
    | Publishing(run: Id, delivery: Delivery)

  function Apply(w: World, e: Event): World {
    match e
    case Starting(run, q, x) => StartSection(w, run, q, x).0
    case Migrating(actor, run, now, commit) => MigrateSection(w, actor, run, now, commit).0
    case Mutating(actor, run, revision, c, x) => MutateSection(w, actor, run, revision, c, x).0
    case Publishing(run, d) => PublishPending(w, run, d).0
  }

  /** A start draws a fresh run identity; every other section can happen at any time. */
  predicate Enabled(w: World, e: Event) {
    e.Starting? ==> FreshRun(w.durable, e.run)
  }

  function LogAfter(log: Log, w: World, e: Event): Log {
    match e
    case Starting(run, q, _) => NextLog(log, w, ResultKey(run, q.leader, 0))
    case Migrating(actor, run, _, _) => NextLog(log, w, ResultKey(run, actor, 0))
    case Mutating(actor, run, revision, _, _) => NextLog(log, w, ResultKey(run, actor, revision))
    case Publishing(_, _) => log
  }

  function Execute(w: World, log: Log, events: seq<Event>): (World, Log) {
    if events == [] then (w, log)
    else
      var n := |events| - 1;
      var (v, so) := Execute(w, log, events[..n]);
      if Enabled(v, events[n]) then var v' := Apply(v, events[n]); (v', LogAfter(so, v', events[n])) else (v, so)
  }

  /** Before the protocol: nothing is coordinated; old rows and old live sessions may exist. */
  ghost predicate Init(w: World) {
    && w.durable.states == map[] && w.durable.claims == map[] && w.durable.results == map[]
    && w.durable.participants == map[] && NOBODY !in w.durable.admissions
    && w.live.runs == map[] && w.live.actorRuns == map[]
    && LegacyOk(w.live)
  }

  /** A state of the protocol, with the log of commands accepted on the way to it. */
  ghost predicate Reachable(w: World, log: Log) {
    exists start: World, events: seq<Event> :: Init(start) && Execute(start, map[], events) == (w, log)
  }

  // ---------- every section keeps the invariant ----------

  lemma InvHasReceipts(w: World, log: Log)
    requires Inv(w, log)
    ensures ResultsOk(w.durable, log)
  {
  }

  /** Without a new receipt at its key a section leaves the log alone. */
  lemma SameReceiptsSameLog(d: Durable, log: Log, w: World, key: ResultKey)
    requires ResultsOk(d, log) && w.durable.results == d.results
    ensures NextLog(log, w, key) == log
  {
  }

  lemma MutateBodyKeepsInv(w: World, log: Log, actor: Id, run: Id, revision: int, c: Command, x: Circumstance)
    requires Inv(w, log)
    ensures var (after, r) := MutateBody(w, actor, run, revision, c, x);
      && Inv(World(w.durable, after.live), log)
      && (r.Success? ==>
            && Inv(after, NextLog(log, after, ResultKey(run, actor, revision)))
            && ResultKey(run, actor, revision) in after.durable.results
            && after.durable.results[ResultKey(run, actor, revision)] == r.value
            && r.value.action == ActionOf(c))
  {
    hide Inv, Redeliver, Accept, NextLog;
    var (delivered, error) := Redeliver(w, run, x.now, x.fault);
    RedeliverKeepsInv(w, log, run, x.now, x.fault);
    InvHasReceipts(w, log);
    if error.None? {
      var key := ResultKey(run, actor, revision);
      SameReceiptsSameLog(w.durable, log, delivered, key);
      if run in delivered.durable.admissions && Contains(delivered.durable.admissions[run], actor) {
        AcceptKeepsInv(delivered, log, actor, run, revision, c, x.now, x.deadline);
        var (after, r) := Accept(delivered, actor, run, revision, c, x.now, x.deadline);
        if r.Success? {
          AcceptedLog(log, after, key, r.value);
        }
      }
    }
  }

  lemma AcceptedLog(log: Log, after: World, key: ResultKey, result: CommandResult)
    requires key in after.durable.results && after.durable.results[key] == result
    requires key.run in log && key.revision == |log[key.run]|
    ensures NextLog(log, after, key) == log[key.run := log[key.run] + [result]]
  {
  }

  /** One section, from any good state and under any fault plan, ends in a good state. */
  lemma SectionKeepsInv(w: World, log: Log, e: Event)
    requires Inv(w, log) && Enabled(w, e)
    ensures Inv(Apply(w, e), LogAfter(log, Apply(w, e), e))
  {
    hide Inv, MutateBody, StartBody, MigrateBody, ResultsOk, PublishPending, StateOf, FreshRun;
    InvHasReceipts(w, log);
    LogsAreNonEmpty(w, log);
    match e
    case Publishing(run, d) =>
      PublishPendingKeepsInv(w, log, run, d);
    case Mutating(actor, run, revision, c, x) =>
      MutateBodyKeepsInv(w, log, actor, run, revision, c, x);
      SameReceiptsSameLog(w.durable, log, World(w.durable, MutateBody(w, actor, run, revision, c, x).0.live), ResultKey(run, actor, revision));
    case Starting(run, q, x) =>
      StartKeepsInv(w, log, run, q, x.now, x.deadline);
      var (after, r) := StartBody(w, run, q, x.now, x.deadline);
      if r.Success? {
        FirstEntry(log, run, r.value);
      }
      SameReceiptsSameLog(w.durable, log, w, ResultKey(run, q.leader, 0));
    case Migrating(actor, run, now, commit) =>
      MigrateKeepsInv(w, log, actor, run, now);
      var (after, error) := MigrateBody(w, actor, run, now);
      var key := ResultKey(run, actor, 0);
      if error.None? && run !in log {
        FirstEntry(log, run, after.durable.results[key]);
      }
      SameReceiptsSameLog(w.durable, log, w, ResultKey(run, actor, 0));
  }

  lemma LogsAreNonEmpty(w: World, log: Log)
    requires Inv(w, log)
    ensures forall run :: run in log ==> |LogAt(log, run)| > 0
  {
    InvParts(w, log);
  }

  lemma InitialInv(w: World)
    requires Init(w)
    ensures Inv(w, map[])
  {
  }

  lemma {:induction false} ExecutionKeepsInv(w: World, events: seq<Event>)
    requires Init(w)
    ensures Inv(Execute(w, map[], events).0, Execute(w, map[], events).1)
  {
    InitialInv(w);
    if events != [] {
      var n := |events| - 1;
      ExecutionKeepsInv(w, events[..n]);
      var (v, log) := Execute(w, map[], events[..n]);
      if Enabled(v, events[n]) {
        SectionKeepsInv(v, log, events[n]);
      }
      hide Inv, Apply, LogAfter, Enabled;
    }
  }

  /** Safety over whole runs: the invariant holds after every sequence of sections. */
  lemma ReachableInv(w: World, log: Log)
    requires Reachable(w, log)
    ensures Inv(w, log)
  {
    var start: World, events: seq<Event> :| Init(start) && Execute(start, map[], events) == (w, log);
    ExecutionKeepsInv(start, events);
  }

  // ---------- what the invariant means ----------

  /** The live run at revision r is the publication committed at r; it lags by one only while pending. */
  lemma LiveRunIsCommitted(w: World, log: Log)
    requires Reachable(w, log)
    ensures w.durable.states.Keys == log.Keys
    ensures forall run :: run in w.live.runs ==>
      && run in log && 1 <= w.live.runs[run].revision <= |log[run]|
      && w.live.runs[run] == log[run][w.live.runs[run].revision - 1].session
    ensures forall run :: run in log ==>
      var t := w.durable.states[run]; var rev := LiveRevision(w.live, run);
      t.revision == |log[run]| && (rev == t.revision || (t.pending && rev == t.revision - 1))
  {
    hide Inv, Reachable, ResultsOk, ClaimsOk, IndexOk, ParticipantsOk, AdmissionsOk, LegacyOk, ChainOk, RunsOk;
    ReachableInv(w, log);
    LoggedIffSaved(w, log);
    PublishedAreLogged(w, log);
    forall run | run in log
      ensures RunOk(w.live, w.durable.states[run], run, log[run])
    {
      RunIsOk(w, log, run);
    }
  }

  lemma PublishedAreLogged(w: World, log: Log)
    requires Inv(w, log)
    ensures w.live.runs.Keys <= log.Keys
  {
  }

  lemma RunIsOk(w: World, log: Log, run: Id)
    requires Inv(w, log) && run in log
    ensures run in w.durable.states && log[run] != [] && RunOk(w.live, w.durable.states[run], run, log[run])
  {
    InvParts(w, log);
  }

  /** A claim names a run exactly while the run binds the actor, and the live index never disagrees with it. */
  lemma ClaimsFollowTheRoster(w: World, log: Log, actor: Id)
    requires Reachable(w, log)
    ensures forall run :: run in log ==> run != NOBODY && log[run] != [] && run in w.durable.states
    ensures forall run :: run in log ==>
      (ClaimOf(w.durable, actor) == run <==>
        actor in Roster(Last(log[run]).session)
        || (w.durable.states[run].pending && actor in SettledIds(Last(log[run]))))
    ensures ClaimOf(w.durable, actor) != NOBODY ==> ClaimOf(w.durable, actor) in log
    ensures actor in w.live.actorRuns ==> w.live.actorRuns[actor] == ClaimOf(w.durable, actor)
  {
    ReachableInv(w, log);
    InvParts(w, log);
    RunNamesNonEmpty(w, log);
    hide Inv, RunsOk;
    forall run | run in log
      ensures ClaimOf(w.durable, actor) == run <==> actor in Bound(w.durable.states[run], log[run])
    {
      assert BoundIn(w.durable, log, run, actor) <==> actor in Bound(w.durable.states[run], log[run]);
    }
  }

  /** Delivering a pending publication never fails and never stops half way. */
  lemma PublicationIsAllOrNothing(w: World, log: Log, run: Id, now: Time)
    requires Reachable(w, log) && StateOf(w.durable, run).pending
    ensures var t := StateOf(w.durable, run);
      && run in log && log[run] != [] && t.publication == Some(Last(log[run]).session)
      && Publish(w.live, t, now) == (Delivered(w.live, t, NextIndex(w.live, t, now).0), None)
  {
    ReachableInv(w, log);
    hide Inv;
    PendingPublicationSucceeds(w, log, run, now);
  }

  /** A delivery that meets no fault ends the pending state: no error, the last committed body live, nothing left to do. */
  lemma FaultlessDeliveryClears(w: World, log: Log, run: Id, now: Time)
    requires Reachable(w, log) && StateOf(w.durable, run).pending
    ensures var (after, error) := PublishPending(w, run, Delivery(now, DeliveryFault(Received, true), Committed));
      && error.None? && !StateOf(after.durable, run).pending && StateOf(after.durable, run).revision == StateOf(w.durable, run).revision
      && run in log && log[run] != [] && run in after.live.runs && after.live.runs[run] == Last(log[run]).session
  {
    ReachableInv(w, log);
    hide *;
    FaultlessRedelivery(w, log, run, now);
    CommittedDelivery(w, run, now);
  }

  lemma CommittedDelivery(w: World, run: Id, now: Time)
    requires Redeliver(w, run, now, DeliveryFault(Received, true)).1.None?
    ensures PublishPending(w, run, Delivery(now, DeliveryFault(Received, true), Committed)) == Redeliver(w, run, now, DeliveryFault(Received, true))
  {
    hide Redeliver;
  }

  /** History is linear: each revision below the committed one has exactly one accepted command, of one actor. */
  lemma OneCommandPerRevision(w: World, log: Log, run: Id, revision: int)
    requires Reachable(w, log)
    ensures 0 <= revision < StateOf(w.durable, run).revision ==>
      exists actor :: ResultKey(run, actor, revision) in w.durable.results
    ensures forall a, b ::
      ResultKey(run, a, revision) in w.durable.results && ResultKey(run, b, revision) in w.durable.results ==> a == b
    ensures forall a :: ResultKey(run, a, revision) in w.durable.results ==>
      && 0 <= revision < StateOf(w.durable, run).revision
      && w.durable.results[ResultKey(run, a, revision)].session.revision == revision + 1
  {
    ReachableInv(w, log);
    InvParts(w, log);
    if run in log {
      RunFacts(w, log, run);
    }
    hide Inv, RunsOk;
    if 0 <= revision < StateOf(w.durable, run).revision {
      assert ResultKey(run, log[run][revision].actor, revision) in w.durable.results;
    }
  }

  // ---------- settlement ----------

  function AllSettled(log: seq<CommandResult>): set<Id> {
    if log == [] then {} else AllSettled(log[..|log| - 1]) + SettledIds(log[|log| - 1])
  }

  lemma {:induction false} SettledElsewhere(log: seq<CommandResult>, r: int)
    requires 0 <= r < |log|
    ensures SettledIds(log[r]) <= AllSettled(log)
  {
    if r < |log| - 1 {
      SettledElsewhere(log[..|log| - 1], r);
    }
  }

  /** Those settled so far and those still playing partition the enrolled roster. */
  lemma {:induction false} ChainPartitionsRoster(run: Id, log: seq<CommandResult>)
    requires ChainOk(run, log)
    ensures Roster(log[0].session) == AllSettled(log) + Roster(Last(log).session)
    ensures AllSettled(log) !! Roster(Last(log).session)
    ensures forall p, q :: 0 <= p < q < |log| ==> SettledIds(log[p]) !! SettledIds(log[q])
  {
    var n := |log| - 1;
    if n == 0 {
      assert AllSettled(log) == AllSettled(log[..0]) + SettledIds(log[0]);
    } else {
      var before := log[..n];
      assert forall r :: 0 <= r < n ==> before[r] == log[r];
      ChainPartitionsRoster(run, before);
      assert Follows(log[n - 1].session, log[n]);
      forall p, q | 0 <= p < q < |log|
        ensures SettledIds(log[p]) !! SettledIds(log[q])
      {
        if q < n {
          assert SettledIds(before[p]) !! SettledIds(before[q]);
        } else {
          SettledElsewhere(before, p);
        }
      }
    }
  }

  /** A run's log restated without its invariant: what its readers rely on. */
  lemma ReachableChain(w: World, log: Log, run: Id)
    requires Reachable(w, log) && run in log
    ensures ChainOk(run, log[run])
    ensures forall r :: r in log ==> log[r] != []
    ensures ParticipantsOk(w.durable, log)
    ensures StateOf(w.durable, run).revision == |log[run]|
  {
    ReachableInv(w, log);
    InvParts(w, log);
    RunFacts(w, log, run);
  }

  lemma ChainEntry(run: Id, log: seq<CommandResult>, r: int)
    requires ChainOk(run, log) && 0 <= r < |log|
    ensures DistinctMembers(log[r].settled)
    ensures log[r].session.status == Active ==> log[r].session.leader in IdSet(log[r].session.members)
  {
    if r > 0 {
      assert Follows(log[r - 1].session, log[r]);
    }
  }

  /**
   Over a whole run nobody is settled twice; when it is claimed or defeated its settlements
   partition the enrolled roster; while it is active its leader is one of its members.
   */
  lemma SettlementsPartitionTheRoster(w: World, logs: Log, run: Id)
    requires Reachable(w, logs) && run in logs
    ensures var log := logs[run];
      && log != []
      && (forall p, q :: 0 <= p < q < |log| ==> SettledIds(log[p]) !! SettledIds(log[q]))
      && (forall p :: 0 <= p < |log| ==> DistinctMembers(log[p].settled))
      && AllSettled(log) + Roster(Last(log).session) == IdSet(log[0].session.members)
      && AllSettled(log) !! Roster(Last(log).session)
      && (Last(log).session.status != Active ==> AllSettled(log) == IdSet(log[0].session.members))
      && (forall r :: 0 <= r < |log| && log[r].session.status == Active ==>
            log[r].session.leader in IdSet(log[r].session.members))
  {
    hide ParticipantsOk, Reachable, StateOf;
    var log := logs[run];
    ReachableChain(w, logs, run);
    ChainPartitionsRoster(run, log);
    assert Playable(log[0].session);
    forall r | 0 <= r < |log|
      ensures DistinctMembers(log[r].settled)
      ensures log[r].session.status == Active ==> log[r].session.leader in IdSet(log[r].session.members)
    {
      ChainEntry(run, log, r);
    }
    hide ChainOk, ParticipantsOk, Reachable;
  }

  /** A participant row is paid exactly when some accepted command settled that actor, with that snapshot. */
  lemma PaidExactlyWhenSettled(w: World, logs: Log, run: Id, actor: Id)
    requires Reachable(w, logs) && run in logs
    ensures var log := logs[run]; var key := ParticipantKey(run, actor); var rows := w.durable.participants;
      && log != []
      && (actor in IdSet(log[0].session.members) ==> key in rows)
      && (key in rows && rows[key].Enrolled? <==> actor in Roster(Last(log).session))
      && (key in rows && rows[key].Settled? <==> actor in AllSettled(log))
      && (key in rows && rows[key].Settled? ==> exists r :: 0 <= r < |log| && rows[key].snapshot in log[r].settled)
  {
    ReachableChain(w, logs, run);
    var log, key := logs[run], ParticipantKey(run, actor);
    ChainPartitionsRoster(run, log);
    assert Playable(log[0].session);
    hide Reachable, ChainOk;
    if key in w.durable.participants {
      assert ParticipantOk(w.durable.participants[key], actor, log);
      if w.durable.participants[key].Settled? {
        var r :| 0 <= r < |log| && w.durable.participants[key].snapshot in log[r].settled;
        SettledElsewhere(log, r);
      }
    }
    if actor in AllSettled(log) || actor in Roster(Last(log).session) {
      assert actor in Roster(log[0].session);
    }
  }

  /** In every reachable state at rest, a settlement of people who still play is accepted. */
  lemma ReachableSettlementAccepted(w: World, log: Log, run: Id, settled: seq<Member>)
    requires Reachable(w, log) && run in log && log[run] != [] && !StateOf(w.durable, run).pending
    requires DistinctMembers(settled)
    requires forall m :: m in settled ==> m.id in Roster(Last(log[run]).session)
    ensures Finalize(w.durable, run, StateOf(w.durable, run).revision, settled).Success?
  {
    ReachableChain(w, log, run);
    hide Reachable, ChainOk;
    SettlementNeverRefused(w.durable, log, run, settled);
  }

  // ---------- replies ----------

  /** Publishing never touches receipts or payments. */
  lemma PublishPendingKeepsReceipts(w: World, run: Id, d: Delivery)
    ensures PublishPending(w, run, d).0.durable.results == w.durable.results
    ensures PublishPending(w, run, d).0.durable.participants == w.durable.participants
    ensures StateOf(PublishPending(w, run, d).0.durable, run).revision == StateOf(w.durable, run).revision
  {
  }

  /** A retry of a stored command replies with the stored receipt and neither recomputes nor pays. */
  lemma RetryReturnsTheReceipt(w: World, actor: Id, run: Id, revision: int, c: Command, x: Circumstance)
    requires actor != NOBODY && run != NOBODY && revision >= 1 && x.readable
    requires ResultKey(run, actor, revision) in w.durable.results
    ensures var stored := w.durable.results[ResultKey(run, actor, revision)];
      var (after, reply) := Mutate(w, actor, run, revision, c, x);
      && reply.result == (if stored.action == ActionOf(c) then Some(stored) else None)
      && (stored.action != ActionOf(c) ==> reply.error == Some(RevisionConflict))
      && after.durable.results == w.durable.results
      && after.durable.participants == w.durable.participants
      && StateOf(after.durable, run).revision == StateOf(w.durable, run).revision
  {
    hide Redeliver, Accept, PublishPending;
    RedeliverKeepsReceipts(w, run, x.now, x.fault);
    PublishPendingKeepsReceipts(MutateSection(w, actor, run, revision, c, x).0, run, x.after);
  }

  lemma RedeliverKeepsReceipts(w: World, run: Id, now: Time, fault: DeliveryFault)
    ensures var after := Redeliver(w, run, now, fault).0;
      && after.durable.results == w.durable.results && after.durable.participants == w.durable.participants
      && after.durable.admissions == w.durable.admissions
      && StateOf(after.durable, run).revision == StateOf(w.durable, run).revision
  {
  }

  /**
   Whatever was lost on the way, a reply with a result shows the durable receipt of that very
   command, and a reply without one means that the command is not in the history, unless the
   receipt could not be read at all.
   */
  lemma ReplyTellsTheTruth(w: World, log: Log, actor: Id, run: Id, revision: int, c: Command, x: Circumstance)
    requires Inv(w, log) && actor != NOBODY && run != NOBODY && revision >= 1
    ensures var (after, reply) := Mutate(w, actor, run, revision, c, x); var key := ResultKey(run, actor, revision);
      && (reply.result.Some? ==>
            key in after.durable.results && after.durable.results[key] == reply.result.value
            && reply.result.value.action == ActionOf(c))
      && (reply.result.None? && reply.error != Some(OutcomeUnknown) ==>
            key !in after.durable.results || after.durable.results[key].action != ActionOf(c))
  {
    hide MutateBody, PublishPending, Inv, NextLog, StateOf;
    MutateBodyKeepsInv(w, log, actor, run, revision, c, x);
    PublishPendingKeepsReceipts(MutateSection(w, actor, run, revision, c, x).0, run, x.after);
  }
}

/** The service over its two stores, step by step, held to the protocol functions. */
module ChallengeService {
  import opened Common
  import opened ChallengeTypes
  import opened ChallengeRules
  import opened ChallengeStores
  import Protocol = ChallengeProtocol

  class Service {
    const transitions: TransitionRepository
    const store: SessionStore

    function Value(): World
      reads transitions, store
    {
      World(transitions.Value(), store.Value())
    }

    constructor (transitions: TransitionRepository, store: SessionStore)
      ensures this.transitions == transitions && this.store == store
    {
      this.transitions, this.store := transitions, store;
    }

    /** The end of a transaction that began at `snapshot`. */
    method Finish(ghost before: World, snapshot: Durable, failure: Option<Error>, commit: CommitOutcome) returns (error: Option<Error>)
      requires before.durable == snapshot
      modifies transitions
      ensures (Value(), error) == Protocol.Close(before, old(Value()), failure, commit)
    {
      error := failure;
      if failure.None? && commit != Committed {
        error := Some(StorageFailure);
      }
      if failure.Some? || commit == RolledBack {
        transitions.Restore(snapshot);
      }
    }

    method Redeliver(run: Id, now: Time, fault: Protocol.DeliveryFault) returns (error: Option<Error>)
      modifies transitions, store
      ensures (Value(), error) == Protocol.Redeliver(old(Value()), run, now, fault)
    {
      var t := StateOf(transitions.Value(), run);
      if !t.pending {
        return None;
      }
      if fault.publish == Protocol.Unreachable {
        return Some(StorageFailure);
      }
      error := store.PublishRun(t, now);
      if error.Some? {
        return;
      }
      if fault.publish == Protocol.AppliedReplyLost || !fault.acknowledged {
        return Some(StorageFailure);
      }
      error := transitions.AcknowledgePublication(run, t.revision);
    }

    method PublishPending(run: Id, d: Protocol.Delivery) returns (error: Option<Error>)
      modifies transitions, store
      ensures (Value(), error) == Protocol.PublishPending(old(Value()), run, d)
    {
      ghost var before := Value();
      var snapshot := transitions.Value();
      error := Redeliver(run, d.now, d.fault);
      error := Finish(before, snapshot, error, d.commit);
    }

    method Compute(run: Session, actor: Id, c: Protocol.Command) returns (r: Result<Outcome, Error>)
      modifies transitions
      ensures match Protocol.Compute(old(transitions.Value()), run, actor, c)
        case Success((d, o)) => r == Success(o) && transitions.Value() == d
        case Failure(e) => r == Failure(e) && transitions.Value() == old(transitions.Value())
    {
      var o: Outcome;
      if c.AdvanceRound? {
        if run.round == 1 && run.leader != actor {
          return Failure(Forbidden);
        }
        o := ComputeRound(run, c.draw);
        if o.session.status == Active {
          return Success(o);
        }
      } else {
        o := ExitMembers(run, actor);
      }
      var error := transitions.FinalizeSession(run.id, run.revision, o.settled);
      if error.Some? {
        return Failure(error.value);
      }
      r := Success(o);
    }

    method Accept(actor: Id, runId: Id, revision: int, c: Protocol.Command, now: Time, deadline: Time)
      returns (r: Result<CommandResult, Error>)
      modifies transitions
      ensures (Value(), r) == Protocol.Accept(old(Value()), actor, runId, revision, c, now, deadline)
    {
      var found := ReadRun(store.Value(), runId, now);
      if found.None? {
        return Failure(RecoveryNeeded);
      }
      var run := found.value;
      if !Contains(run, actor) {
        return Failure(Forbidden);
      }
      if run.revision != revision || StateOf(transitions.Value(), runId).revision != run.revision {
        return Failure(RevisionConflict);
      }
      var outcome := Compute(run, actor, c);
      if outcome.Failure? {
        return Failure(outcome.error);
      }
      var result := Protocol.Receipt(run, actor, revision, c, outcome.value);
      var error := transitions.Save(Protocol.Commitment(run, result, outcome.value.removed, deadline), result);
      if error.Some? {
        return Failure(error.value);
      }
      r := Success(result);
    }

    method MutateBody(actor: Id, run: Id, revision: int, c: Protocol.Command, x: Protocol.Circumstance)
      returns (r: Result<CommandResult, Error>)
      modifies transitions, store
      ensures (Value(), r) == Protocol.MutateBody(old(Value()), actor, run, revision, c, x)
    {
      if run !in transitions.admissions {
        return Failure(SessionNotFound);
      }
      if !Contains(transitions.admissions[run], actor) {
        return Failure(Forbidden);
      }
      var error := Redeliver(run, x.now, x.fault);
      if error.Some? {
        return Failure(RecoveryRequired(error.value));
      }
      var key := ResultKey(run, actor, revision);
      if key in transitions.results {
        var stored := transitions.results[key];
        if stored.action != Protocol.ActionOf(c) {
          return Failure(RevisionConflict);
        }
        return Success(stored);
      }
      r := Accept(actor, run, revision, c, x.now, x.deadline);
    }

    /** mutate: one transaction, reconciliation of its outcome, then publication. */
    method Mutate(actor: Id, run: Id, revision: int, c: Protocol.Command, x: Protocol.Circumstance) returns (reply: Protocol.Reply)
      modifies transitions, store
      ensures (Value(), reply) == Protocol.Mutate(old(Value()), actor, run, revision, c, x)
    {
      if actor == NOBODY {
        return Protocol.Reply(None, Some(CharacterNotFound));
      }
      if run == NOBODY || revision < 1 {
        return Protocol.Reply(None, Some(RevisionConflict));
      }
      ghost var before := Value();
      var snapshot := transitions.Value();
      var r := MutateBody(actor, run, revision, c, x);
      var error := Finish(before, snapshot, Protocol.ErrorOf(r), x.commit);
      if error.Some? {
        r := Protocol.Reconcile(transitions.Value(), ResultKey(run, actor, revision), Protocol.ActionOf(c), error.value, x.readable);
        if r.Failure? {
          return Protocol.Reply(None, Some(r.error));
        }
      }
      var late := PublishPending(run, x.after);
      reply := Protocol.Reply(Some(r.value), if late.Some? then Some(RecoveryRequired(late.value)) else None);
    }

    method Admit(ids: seq<Id>, candidates: map<Id, Protocol.Candidate>, now: Time) returns (r: Result<seq<Member>, Error>)
      ensures r == Protocol.Admit(Value(), ids, candidates, now)
    {
      var members: seq<Member> := [];
      for i := 0 to |ids|
        invariant Protocol.Admit(Value(), ids[..i], candidates, now) == Success(members)
      {
        assert ids[..i + 1][..i] == ids[..i];
        var actor := ids[i];
        if Protocol.IsBusy(Value(), actor, now) {
          AdmissionStops(Value(), ids, i + 1, candidates, now);
          return Failure(ActiveSessionExists);
        }
        if actor !in candidates {
          AdmissionStops(Value(), ids, i + 1, candidates, now);
          return Failure(CharacterNotFound);
        }
        if candidates[actor].refusal.Some? {
          AdmissionStops(Value(), ids, i + 1, candidates, now);
          return Failure(candidates[actor].refusal.value);
        }
        members := members + [Protocol.MemberOf(actor, candidates[actor])];
      }
      assert ids[..|ids|] == ids;
      r := Success(members);
    }

    method StartBody(run: Id, q: Protocol.StartRequest, now: Time, deadline: Time) returns (r: Result<CommandResult, Error>)
      modifies transitions
      ensures (Value(), r) == Protocol.StartBody(old(Value()), run, q, now, deadline)
    {
      if q.leader == NOBODY {
        return Failure(CharacterNotFound);
      }
      if q.memberIds == [] {
        return Failure(PartyEmpty);
      }
      if NOBODY in q.memberIds || Protocol.HasRepeat(q.memberIds) || q.leader !in q.memberIds {
        return Failure(Forbidden);
      }
      if |q.memberIds| > (if q.limit <= 0 then 4 else q.limit) {
        return Failure(TooManyPartyMembers);
      }
      var members := Admit(q.memberIds, q.candidates, now);
      if members.Failure? {
        return Failure(members.error);
      }
      var session := Protocol.NewRun(run, q.leader, members.value);
      transitions.SaveSession(session);
      var error := transitions.EnrollRun(session);
      if error.Some? {
        return Failure(error.value);
      }
      var result := CommandResult(q.leader, Start, 0, session, None, []);
      error := transitions.Save(Transition(run, 1, true, Some(session), [], NOBODY, deadline), result);
      if error.Some? {
        return Failure(error.value);
      }
      r := Success(result);
    }

    method StartRun(run: Id, q: Protocol.StartRequest, x: Protocol.Circumstance) returns (reply: Protocol.Reply)
      modifies transitions, store
      ensures (Value(), reply) == Protocol.StartRun(old(Value()), run, q, x)
    {
      ghost var before := Value();
      var snapshot := transitions.Value();
      var r := StartBody(run, q, x.now, x.deadline);
      var error := Finish(before, snapshot, Protocol.ErrorOf(r), x.commit);
      if error.Some? {
        var key := ResultKey(run, q.leader, 0);
        if !x.readable {
          return Protocol.Reply(None, Some(OutcomeUnknown));
        }
        if key !in transitions.results {
          return Protocol.Reply(None, Some(error.value));
        }
        r := Success(transitions.results[key]);
      }
      var late := PublishPending(run, x.after);
      reply := Protocol.Reply(Some(r.value), if late.Some? then Some(RecoveryRequired(late.value)) else None);
    }

    method MigrateBody(actor: Id, runId: Id, now: Time) returns (error: Option<Error>)
      modifies transitions
      ensures (Value(), error) == Protocol.MigrateBody(old(Value()), actor, runId, now)
    {
      if runId !in transitions.admissions {
        return Some(SessionNotFound);
      }
      var admission := transitions.admissions[runId];
      if !Contains(admission, actor) {
        return Some(Forbidden);
      }
      if StateOf(transitions.Value(), runId).revision > 0 {
        return None;
      }
      var found := Protocol.ReadLegacyRun(store.Value(), admission.leader, now);
      if found.None? {
        return Some(RecoveryNeeded);
      }
      var (legacy, deadline) := found.value;
      if !Protocol.Migratable(legacy, runId, admission) {
        return Some(RecoveryNeeded);
      }
      var run := legacy.(revision := 1, awards := Protocol.DefaultAwards(legacy, admission.leader));
      error := transitions.EnrollRun(run);
      if error.Some? {
        return;
      }
      error := transitions.Save(Transition(runId, 1, true, Some(run), [], admission.leader, deadline),
                                CommandResult(actor, Migrate, 0, run, None, []));
    }

    method MigrateSession(actor: Id, run: Id, x: Protocol.Circumstance) returns (error: Option<Error>)
      modifies transitions, store
      ensures (Value(), error) == Protocol.MigrateSession(old(Value()), actor, run, x)
    {
      ghost var before := Value();
      var snapshot := transitions.Value();
      error := MigrateBody(actor, run, x.now);
      error := Finish(before, snapshot, error, x.commit);
      if error.Some? {
        var key := ResultKey(run, actor, 0);
        if !x.readable {
          return Some(OutcomeUnknown);
        }
        if key !in transitions.results || transitions.results[key].action != Migrate {
          return;
        }
      }
      error := PublishPending(run, x.after);
    }
  }

  /** The first refusal decides for every longer list. */
  lemma {:induction false} AdmissionStops(w: World, ids: seq<Id>, n: nat, candidates: map<Id, Protocol.Candidate>, now: Time)
    requires n <= |ids| && Protocol.Admit(w, ids[..n], candidates, now).Failure?
    ensures Protocol.Admit(w, ids, candidates, now) == Protocol.Admit(w, ids[..n], candidates, now)
    decreases |ids|
  {
    if n < |ids| {
      var before := ids[..|ids| - 1];
      assert before[..n] == ids[..n];
      AdmissionStops(w, before, n, candidates, now);
    } else {
      assert ids[..n] == ids;
    }
  }
}

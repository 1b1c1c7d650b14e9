/**
 The durable coordinator and the live store: what each of their operations does
 to the value it holds, and the classes that do it in place.
 */
module ChallengeStores {
  import opened Common
  import opened ChallengeTypes

  // ---------- durable coordinator ----------

  /** Every member must be free; then all of them are bound to the run and become unpaid participants. */
  function Enroll(d: Durable, run: Session): Result<Durable, Error> {
    if exists m :: m in run.members && ClaimOf(d, m.id) != NOBODY then Failure(ActiveSessionExists)
    else
      Success(d.(
        claims := Bind(d.claims, IdSet(run.members), run.id),
        participants := AddRows(d.participants, IdSet(run.members), run.id)))
  }

  function Bind(claims: map<Id, Id>, actors: set<Id>, run: Id): map<Id, Id> {
    map a | a in claims.Keys + actors :: if a in actors then run else claims[a]
  }

  function AddRows(rows: map<ParticipantKey, Participation>, actors: set<Id>, run: Id): map<ParticipantKey, Participation> {
    map k | k in rows.Keys + set a | a in actors :: ParticipantKey(run, a) ::
      if k.run == run && k.actor in actors then Enrolled else rows[k]
  }

  lemma BindOne(claims: map<Id, Id>, actors: set<Id>, run: Id, actor: Id)
    ensures Bind(claims, actors, run)[actor := run] == Bind(claims, actors + {actor}, run)
  {
  }

  lemma AddOneRow(rows: map<ParticipantKey, Participation>, actors: set<Id>, run: Id, actor: Id)
    ensures AddRows(rows, actors, run)[ParticipantKey(run, actor) := Enrolled] == AddRows(rows, actors + {actor}, run)
  {
    var l, r := AddRows(rows, actors, run)[ParticipantKey(run, actor) := Enrolled], AddRows(rows, actors + {actor}, run);
    assert l.Keys == r.Keys;
  }

  function SaveTransition(d: Durable, t: Transition, result: CommandResult): Result<Durable, Error> {
    var prior := StateOf(d, t.runId);
    if prior.pending || prior.revision + 1 != t.revision then Failure(RevisionConflict)
    else
      Success(d.(
        states := d.states[t.runId := t],
        results := d.results[ResultKey(t.runId, result.actor, result.expectedRevision) := result]))
  }

  /** Releases the claims of departed actors, and only those this run holds. */
  function ReleaseClaims(claims: map<Id, Id>, removed: seq<Id>, run: Id): map<Id, Id> {
    map a | a in claims && !(a in removed && claims[a] == run) :: claims[a]
  }

  function Acknowledge(d: Durable, run: Id, revision: int): Result<Durable, Error> {
    var t := StateOf(d, run);
    if t.revision != revision then Failure(RevisionConflict)
    else
      Success(d.(
        claims := ReleaseClaims(d.claims, t.removed, run),
        states := d.states[run := t.(pending := false, publication := None)]))
  }

  /** Pays every listed participant of a coordinated run once; a second payment is refused. */
  function Finalize(d: Durable, run: Id, revision: int, settled: seq<Member>): Result<Durable, Error> {
    var t := StateOf(d, run);
    if t.pending || t.revision != revision then Failure(RevisionConflict)
    else if exists i, j :: 0 <= i < j < |settled| && settled[i].id == settled[j].id then Failure(Forbidden)
    else if exists m :: m in settled && ParticipantKey(run, m.id) !in d.participants then Failure(StorageFailure)
    else if exists m :: m in settled && d.participants[ParticipantKey(run, m.id)].Settled? then Failure(SessionNotActive)
    else Success(d.(participants := Pay(d.participants, run, settled)))
  }

  function Pay(participants: map<ParticipantKey, Participation>, run: Id, settled: seq<Member>): map<ParticipantKey, Participation> {
    if settled == [] then participants
    else Pay(participants, run, settled[..|settled| - 1])[ParticipantKey(run, settled[|settled| - 1].id) := Settled(settled[|settled| - 1])]
  }

  lemma {:induction false} PayRecords(participants: map<ParticipantKey, Participation>, run: Id, settled: seq<Member>)
    requires DistinctMembers(settled)
    ensures forall m :: m in settled ==>
      && ParticipantKey(run, m.id) in Pay(participants, run, settled)
      && Pay(participants, run, settled)[ParticipantKey(run, m.id)] == Settled(m)
    ensures forall k: ParticipantKey :: !(k.run == run && k.actor in IdSet(settled)) ==>
      && (k in participants <==> k in Pay(participants, run, settled))
      && (k in participants ==> Pay(participants, run, settled)[k] == participants[k])
  {
    if settled != [] {
      var n := |settled| - 1;
      PayRecords(participants, run, settled[..n]);
      assert settled == settled[..n] + [settled[n]];
      assert IdSet(settled) == IdSet(settled[..n]) + {settled[n].id};
    }
  }

  // ---------- live store ----------

  function ReadRun(live: Live, run: Id, now: Time): Option<Session> {
    if run !in live.runs || live.runs[run].status != Active || run !in live.expiry || now >= live.expiry[run] then None
    else Some(live.runs[run])
  }

  /** The actor index is written member by member; a foreign entry stops the walk where it stands. */
  function IndexMembers(index: map<Id, Id>, members: seq<Member>, run: Id): (map<Id, Id>, bool)
    decreases members
  {
    if members == [] then (index, true)
    else
      var a := members[0].id;
      if a in index && index[a] != NOBODY && index[a] != run then (index, false)
      else IndexMembers(index[a := run], members[1..], run)
  }

  function Unindex(index: map<Id, Id>, removed: seq<Id>, run: Id): map<Id, Id> {
    map a | a in index && !(a in removed && index[a] == run) :: index[a]
  }

  function DropLegacy(live: Live, owner: Id, run: Id): Live {
    if owner == NOBODY then live
    else
      var mine := owner in live.sessions && live.sessions[owner].id == run;
      live.(
        sessions := if mine then live.sessions - {owner} else live.sessions,
        expirations := if mine then live.expirations - {owner} else live.expirations,
        owners := map a | a in live.owners && live.owners[a] != owner :: live.owners[a])
  }

  predicate PublicationFits(live: Live, t: Transition) {
    && t.publication.Some? && t.publication.value.id == t.runId && t.publication.value.revision == t.revision
    && (LiveRevision(live, t.runId) == t.revision ==>
          t.runId in live.runs && live.runs[t.runId] == t.publication.value
          && t.runId in live.expiry && live.expiry[t.runId] == t.deadline)
    && LiveRevision(live, t.runId) <= t.revision
  }

  predicate LegacyMismatch(live: Live, t: Transition) {
    t.legacyOwner != NOBODY && t.legacyOwner in live.sessions && live.sessions[t.legacyOwner].id != t.runId
  }

  /** The store after the attempt, which an error can leave half written, and the error. */
  function Publish(live: Live, t: Transition, now: Time): (Live, Option<Error>) {
    if t.publication.None? || t.publication.value.id != t.runId || t.publication.value.revision != t.revision then
      (live, Some(RevisionConflict))
    else if LegacyMismatch(live, t) then (live, Some(SessionIdMismatch))
    else if !PublicationFits(live, t) then (live, Some(RevisionConflict))
    else
      var (index, free) := NextIndex(live, t, now);
      if !free then (WithBody(live, t).(actorRuns := index), Some(ActiveSessionExists))
      else (Delivered(live, t, index), None)
  }

  function NextIndex(live: Live, t: Transition, now: Time): (map<Id, Id>, bool)
    requires t.publication.Some?
  {
    if t.publication.value.status == Active && now < t.deadline
      then IndexMembers(live.actorRuns, t.publication.value.members, t.runId)
      else (live.actorRuns, true)
  }

  function WithBody(live: Live, t: Transition): Live
    requires t.publication.Some?
  {
    live.(runs := live.runs[t.runId := t.publication.value], expiry := live.expiry[t.runId := t.deadline])
  }

  function Delivered(live: Live, t: Transition, index: map<Id, Id>): Live
    requires t.publication.Some?
  {
    DropLegacy(WithBody(live, t).(actorRuns := Unindex(index, t.removed, t.runId)), t.legacyOwner, t.runId)
  }

  predicate IndexFree(index: map<Id, Id>, members: seq<Member>, run: Id) {
    forall m :: m in members ==> m.id !in index || index[m.id] == NOBODY || index[m.id] == run
  }

  lemma BindFirst(index: map<Id, Id>, actors: set<Id>, run: Id, actor: Id)
    ensures Bind(index[actor := run], actors, run) == Bind(index, {actor} + actors, run)
  {
  }

  lemma IdSetSnoc(members: seq<Member>, i: nat)
    requires i < |members|
    ensures IdSet(members[..i + 1]) == IdSet(members[..i]) + {members[i].id}
  {
    assert members[..i + 1] == members[..i] + [members[i]];
  }

  lemma IdSetCons(members: seq<Member>)
    requires members != []
    ensures IdSet(members) == {members[0].id} + IdSet(members[1..])
  {
    assert members == [members[0]] + members[1..];
  }

  lemma {:induction false} IndexMembersComplete(index: map<Id, Id>, members: seq<Member>, run: Id)
    requires IndexFree(index, members, run)
    ensures IndexMembers(index, members, run) == (Bind(index, IdSet(members), run), true)
    decreases members
  {
    if members != [] {
      var a, rest := members[0].id, members[1..];
      var next := index[a := run];
      assert IndexFree(next, rest, run);
      IndexMembersComplete(next, rest, run);
      IdSetCons(members);
      BindFirst(index, IdSet(rest), run, a);
    } else {
      assert Bind(index, IdSet(members), run) == index;
    }
  }

  /** Publishing again, at any later time, changes nothing: the first delivery is already complete. */
  lemma RedeliveryChangesNothing(live: Live, t: Transition, first: Time, second: Time)
    requires first <= second && Publish(live, t, first).1.None?
    ensures Publish(Publish(live, t, first).0, t, second) == (Publish(live, t, first).0, None)
  {
    var index := NextIndex(live, t, first).0;
    var once := Delivered(live, t, index);
    ReindexChangesNothing(live, t, first, second);
    DeliveredTwice(live, t, index, NextIndex(once, t, second).0);
    assert !LegacyMismatch(once, t);
    assert PublicationFits(once, t);
  }

  lemma ReindexChangesNothing(live: Live, t: Transition, first: Time, second: Time)
    requires first <= second && t.publication.Some? && NextIndex(live, t, first).1
    ensures var once := Delivered(live, t, NextIndex(live, t, first).0);
      && NextIndex(once, t, second).1
      && Unindex(NextIndex(once, t, second).0, t.removed, t.runId) == once.actorRuns
  {
    var body, run := t.publication.value, t.runId;
    var once := Unindex(NextIndex(live, t, first).0, t.removed, run);
    if body.status == Active && second < t.deadline {
      IndexFreeWhenWritten(live.actorRuns, body.members, run);
      IndexMembersComplete(live.actorRuns, body.members, run);
      RebindChangesNothing(live.actorRuns, body.members, t.removed, run);
      IndexMembersComplete(once, body.members, run);
    } else {
      assert Unindex(once, t.removed, run) == once;
    }
  }

  lemma RebindChangesNothing(index: map<Id, Id>, members: seq<Member>, removed: seq<Id>, run: Id)
    requires IndexFree(index, members, run)
    ensures var once := Unindex(Bind(index, IdSet(members), run), removed, run);
      && IndexFree(once, members, run)
      && Unindex(Bind(once, IdSet(members), run), removed, run) == once
  {
    forall m | m in members
      ensures m.id in IdSet(members)
    {
    }
  }

  lemma DeliveredTwice(live: Live, t: Transition, index: map<Id, Id>, again: map<Id, Id>)
    requires t.publication.Some?
    requires Unindex(again, t.removed, t.runId) == Unindex(index, t.removed, t.runId)
    ensures Delivered(Delivered(live, t, index), t, again) == Delivered(live, t, index)
  {
    hide Unindex;
    var once := Delivered(live, t, index);
    assert WithBody(once, t) == once;
    if t.legacyOwner != NOBODY {
      assert (map a | a in once.owners && once.owners[a] != t.legacyOwner :: once.owners[a]) == once.owners;
    }
  }

  lemma {:induction false} IndexFreeWhenWritten(index: map<Id, Id>, members: seq<Member>, run: Id)
    requires IndexMembers(index, members, run).1
    ensures IndexFree(index, members, run)
    decreases members
  {
    if members != [] {
      IndexFreeWhenWritten(index[members[0].id := run], members[1..], run);
      assert members == [members[0]] + members[1..];
    }
  }

  /** Delivering a run's cleanup late cannot unbind an actor who has since joined another run. */
  lemma DelayedCleanupSparesReplacement(live: Live, t: Transition, now: Time, actor: Id)
    requires actor in live.actorRuns && live.actorRuns[actor] != NOBODY && live.actorRuns[actor] != t.runId
    ensures actor in Publish(live, t, now).0.actorRuns
         && Publish(live, t, now).0.actorRuns[actor] == live.actorRuns[actor]
  {
    if t.publication.Some? {
      ForeignEntryKept(live.actorRuns, t.publication.value.members, t.runId, actor);
    }
  }

  lemma {:induction false} ForeignEntryKept(index: map<Id, Id>, members: seq<Member>, run: Id, actor: Id)
    requires actor in index && index[actor] != NOBODY && index[actor] != run
    ensures var after := IndexMembers(index, members, run).0; actor in after && after[actor] == index[actor]
    decreases members
  {
    if members != [] {
      var a := members[0].id;
      if !(a in index && index[a] != NOBODY && index[a] != run) {
        ForeignEntryKept(index[a := run], members[1..], run, actor);
      }
    }
  }

  // ---------- the stores in place ----------

  class TransitionRepository {
    var states: map<Id, Transition>
    var claims: map<Id, Id>
    var results: map<ResultKey, CommandResult>
    var admissions: map<Id, Session>
    var participants: map<ParticipantKey, Participation>

    function Value(): Durable
      reads this
    {
      Durable(states, claims, results, admissions, participants)
    }

    constructor ()
      ensures Value() == Durable(map[], map[], map[], map[], map[])
    {
      states, claims, results, admissions, participants := map[], map[], map[], map[], map[];
    }

    /** Undoes everything a failed transaction wrote. */
    method Restore(snapshot: Durable)
      modifies this
      ensures Value() == snapshot
    {
      states, claims, results := snapshot.states, snapshot.claims, snapshot.results;
      admissions, participants := snapshot.admissions, snapshot.participants;
    }

    method SaveSession(run: Session)
      modifies `admissions
      ensures Value() == old(Value()).(admissions := old(admissions)[run.id := run])
    {
      admissions := admissions[run.id := run];
    }

    method EnrollRun(run: Session) returns (error: Option<Error>)
      modifies this
      ensures match Enroll(old(Value()), run)
        case Success(next) => error.None? && Value() == next
        case Failure(e) => error == Some(e) && Value() == old(Value())
    {
      var free := AreFree(run.members);
      if !free {
        return Some(ActiveSessionExists);
      }
      BindMembers(run.members, run.id);
      error := None;
    }

    method AreFree(members: seq<Member>) returns (free: bool)
      ensures free <==> forall m :: m in members ==> ClaimOf(Value(), m.id) == NOBODY
    {
      for i := 0 to |members|
        invariant forall k :: 0 <= k < i ==> ClaimOf(Value(), members[k].id) == NOBODY
      {
        var actor := members[i].id;
        if actor in claims && claims[actor] != NOBODY {
          assert members[i] in members;
          return false;
        }
      }
      free := true;
    }

    method BindMembers(members: seq<Member>, run: Id)
      modifies `claims, `participants
      ensures claims == Bind(old(claims), IdSet(members), run)
      ensures participants == AddRows(old(participants), IdSet(members), run)
    {
      for i := 0 to |members|
        invariant claims == Bind(old(claims), IdSet(members[..i]), run)
        invariant participants == AddRows(old(participants), IdSet(members[..i]), run)
      {
        var actor := members[i].id;
        IdSetSnoc(members, i);
        BindOne(old(claims), IdSet(members[..i]), run, actor);
        AddOneRow(old(participants), IdSet(members[..i]), run, actor);
        claims := claims[actor := run];
        participants := participants[ParticipantKey(run, actor) := Enrolled];
      }
      assert members[..|members|] == members;
    }

    method Save(t: Transition, result: CommandResult) returns (error: Option<Error>)
      modifies this
      ensures match SaveTransition(old(Value()), t, result)
        case Success(next) => error.None? && Value() == next
        case Failure(e) => error == Some(e) && Value() == old(Value())
    {
      var before := StateOf(Value(), t.runId);
      if before.pending || before.revision + 1 != t.revision {
        return Some(RevisionConflict);
      }
      states := states[t.runId := t];
      results := results[ResultKey(t.runId, result.actor, result.expectedRevision) := result];
      error := None;
    }

    method AcknowledgePublication(run: Id, revision: int) returns (error: Option<Error>)
      modifies this
      ensures match Acknowledge(old(Value()), run, revision)
        case Success(next) => error.None? && Value() == next
        case Failure(e) => error == Some(e) && Value() == old(Value())
    {
      var t := StateOf(Value(), run);
      if t.revision != revision {
        return Some(RevisionConflict);
      }
      ghost var before := Value();
      for i := 0 to |t.removed|
        invariant Value() == before.(claims := claims)
        invariant claims == ReleaseClaims(before.claims, t.removed[..i], run)
      {
        var actor := t.removed[i];
        assert t.removed[..i + 1] == t.removed[..i] + [actor];
        if actor in claims && claims[actor] == run {
          claims := claims - {actor};
        }
      }
      assert t.removed[..|t.removed|] == t.removed;
      states := states[run := t.(pending := false, publication := None)];
      error := None;
    }

    method FinalizeSession(run: Id, revision: int, settled: seq<Member>) returns (error: Option<Error>)
      modifies this
      ensures match Finalize(old(Value()), run, revision, settled)
        case Success(next) => error.None? && Value() == next
        case Failure(e) => error == Some(e) && Value() == old(Value())
    {
      var decision := Finalize(Value(), run, revision, settled);
      if decision.Failure? {
        return Some(decision.error);
      }
      ghost var before := Value();
      for i := 0 to |settled|
        invariant Value() == before.(participants := participants)
        invariant participants == Pay(before.participants, run, settled[..i])
      {
        assert settled[..i + 1][..i] == settled[..i];
        participants := participants[ParticipantKey(run, settled[i].id) := Settled(settled[i])];
      }
      assert settled[..|settled|] == settled;
      error := None;
    }
  }

  class SessionStore {
    var runs: map<Id, Session>
    var expiry: map<Id, Time>
    var actorRuns: map<Id, Id>
    var sessions: map<Id, Session>
    var expirations: map<Id, Time>
    var owners: map<Id, Id>

    function Value(): Live
      reads this
    {
      Live(runs, expiry, actorRuns, sessions, expirations, owners)
    }

    constructor ()
      ensures Value() == Live(map[], map[], map[], map[], map[], map[])
    {
      runs, expiry, actorRuns := map[], map[], map[];
      sessions, expirations, owners := map[], map[], map[];
    }

    method PublishRun(t: Transition, now: Time) returns (error: Option<Error>)
      modifies this
      ensures (Value(), error) == Publish(old(Value()), t, now)
    {
      if t.publication.None? || t.publication.value.id != t.runId || t.publication.value.revision != t.revision {
        return Some(RevisionConflict);
      }
      if LegacyMismatch(Value(), t) {
        return Some(SessionIdMismatch);
      }
      if !PublicationFits(Value(), t) {
        return Some(RevisionConflict);
      }
      var body := t.publication.value;
      runs := runs[t.runId := body];
      expiry := expiry[t.runId := t.deadline];
      if body.status == Active && now < t.deadline {
        var free := IndexActors(body.members, t.runId);
        if !free {
          return Some(ActiveSessionExists);
        }
      }
      UnindexActors(t.removed, t.runId);
      DropLegacyRun(t.legacyOwner, t.runId);
      error := None;
    }

    method IndexActors(members: seq<Member>, run: Id) returns (free: bool)
      modifies `actorRuns
      ensures (actorRuns, free) == IndexMembers(old(actorRuns), members, run)
    {
      for i := 0 to |members|
        invariant IndexMembers(actorRuns, members[i..], run) == IndexMembers(old(actorRuns), members, run)
      {
        var actor := members[i].id;
        assert members[i..][1..] == members[i + 1..];
        if actor in actorRuns && actorRuns[actor] != NOBODY && actorRuns[actor] != run {
          return false;
        }
        actorRuns := actorRuns[actor := run];
      }
      free := true;
    }

    method UnindexActors(removed: seq<Id>, run: Id)
      modifies `actorRuns
      ensures actorRuns == Unindex(old(actorRuns), removed, run)
    {
      for i := 0 to |removed|
        invariant actorRuns == Unindex(old(actorRuns), removed[..i], run)
      {
        var actor := removed[i];
        assert removed[..i + 1] == removed[..i] + [actor];
        if actor in actorRuns && actorRuns[actor] == run {
          actorRuns := actorRuns - {actor};
        }
      }
      assert removed[..|removed|] == removed;
    }

    method DropLegacyRun(owner: Id, run: Id)
      modifies `sessions, `expirations, `owners
      ensures Value() == DropLegacy(old(Value()), owner, run)
    {
      if owner != NOBODY {
        if owner in sessions && sessions[owner].id == run {
          sessions := sessions - {owner};
          expirations := expirations - {owner};
        }
        owners := map a | a in owners && owners[a] != owner :: owners[a];
      }
    }
  }
}

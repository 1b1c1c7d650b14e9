/** When commands, starts, migrations and publications are accepted and exactly what they write. */
module ChallengeGates {
  import opened Common
  import opened ChallengeTypes
  import opened ChallengeRules
  import opened ChallengeStores
  import opened ChallengeProtocol
  import opened ChallengeInvariants
  import opened ChallengeSteps
  import opened ChallengeRuns
  import opened ChallengeExpiry

  // ---------- commands ----------

  /** The receipt of an accepted command: the computed body one revision later, with what was reported and settled. */
  function Accepted(body: Session, actor: Id, c: Command): CommandResult {
    var o := if c.AdvanceRound? then Round(body, c.draw) else Departure(body, actor);
    CommandResult(actor, if c.AdvanceRound? then Advance else Exit, body.revision, o.session.(revision := body.revision + 1), o.report, o.settled)
  }

  function Gone(body: Session, actor: Id, c: Command): seq<Id> {
    if c.AdvanceRound? then Round(body, c.draw).removed else [actor]
  }

  /** What accepting a command writes: the transition, still to be published, its receipt, and the rows of those it settles. */
  function Written(d: Durable, run: Id, key: ResultKey, result: CommandResult, removed: seq<Id>, deadline: Time): Durable {
    d.(states := d.states[run := Transition(run, result.session.revision, true, Some(result.session), removed, NOBODY, deadline)],
       results := d.results[key := result],
       participants := Pay(d.participants, run, result.settled))
  }

  lemma AcceptWrites(w: World, actor: Id, body: Session, c: Command, x: Circumstance)
    requires body.id in w.live.runs && w.live.runs[body.id] == body && body.id in w.live.expiry
    requires StateOf(w.durable, body.id).revision == body.revision && !StateOf(w.durable, body.id).pending
    requires Contains(body, actor) && body.status == Active ==>
      var o := ComputedBy(body, actor, c);
      Compute(w.durable, body, actor, c) ==
        if c.AdvanceRound? && body.round == 1 && body.leader != actor then Failure(Forbidden)
        else Success((w.durable.(participants := Pay(w.durable.participants, body.id, o.settled)), o))
    ensures forall revision ::
      var r := Accept(w, actor, body.id, revision, c, x.now, x.deadline);
      && (r.1.Success? <==> x.now < w.live.expiry[body.id] && Fits(body, actor, revision, c))
      && (r.1.Success? ==>
            && r.1.value == Accepted(body, actor, c)
            && r.0 == World(Written(w.durable, body.id, ResultKey(body.id, actor, body.revision), Accepted(body, actor, c), Gone(body, actor, c), x.deadline), w.live))
      && (r.1.Failure? ==> r.0 == w && r.1.error == CommandRefused(body, actor, revision, x.now < w.live.expiry[body.id]))
  {
    hide Round, Contains, Pay, Compute;
  }

  /** Why a command on a resting run is refused. */
  function CommandRefused(body: Session, actor: Id, revision: int, timely: bool): Error {
    if body.status != Active || !timely then RecoveryNeeded
    else if !Contains(body, actor) then Forbidden
    else if revision != body.revision then RevisionConflict
    else Forbidden
  }

  lemma RestingComputes(w: World, log: Log, run: Id, actor: Id, c: Command)
    requires Inv(w, log) && run in log && log[run] != [] && !StateOf(w.durable, run).pending
    ensures var body := Last(log[run]).session;
      body.id == run && (Contains(body, actor) && body.status == Active ==>
        var o := ComputedBy(body, actor, c);
        Compute(w.durable, body, actor, c) ==
          if c.AdvanceRound? && body.round == 1 && body.leader != actor then Failure(Forbidden)
          else Success((w.durable.(participants := Pay(w.durable.participants, run, o.settled)), o)))
  {
    RestingRun(w, log, run);
    InvParts(w, log);
    RunFacts(w, log, run);
    if Last(log[run]).session.status == Active {
      LastIsPlayable(run, log[run]);
      hide Inv, RunsOk, ResultsOk, ClaimsOk, IndexOk, ParticipantsOk, AdmissionsOk, ChainOk, StateOk, LiveOk, Compute, Round, Departure, Pay;
      if Contains(Last(log[run]).session, actor) {
        ComputeSucceeds(w.durable, log, run, actor, c);
      }
    }
  }

  lemma FreshReachesAccept(w: World, actor: Id, run: Id, revision: int, c: Command, x: Circumstance)
    requires !StateOf(w.durable, run).pending && ResultKey(run, actor, revision) !in w.durable.results
    ensures MutateBody(w, actor, run, revision, c, x) ==
      if run !in w.durable.admissions then (w, Failure(SessionNotFound))
      else if !Contains(w.durable.admissions[run], actor) then (w, Failure(Forbidden))
      else Accept(w, actor, run, revision, c, x.now, x.deadline)
  {
    NothingToDeliver(w, run, x.now, x.fault);
    hide Redeliver, Accept, Contains;
  }

  /**
   A command without a receipt on a run at rest is accepted exactly when the run still plays and has not expired, its
   actor plays it, its revision is the run's, and a first round comes from the leader. It then writes the computed body
   as the next transition, one receipt and the rows of those it settles, and nothing else; refused, it writes nothing.
   */
  lemma AcceptedIff(w: World, log: Log, actor: Id, run: Id, revision: int, c: Command, x: Circumstance)
    requires Inv(w, log) && run in log && log[run] != [] && !StateOf(w.durable, run).pending
    requires ResultKey(run, actor, revision) !in w.durable.results
    ensures run in w.live.expiry
    ensures var body := Last(log[run]).session;
      var r := MutateBody(w, actor, run, revision, c, x);
      && (r.1.Success? <==> x.now < w.live.expiry[run] && Fits(body, actor, revision, c))
      && (r.1.Success? ==>
            && r.1.value == Accepted(body, actor, c)
            && r.0 == World(Written(w.durable, run, ResultKey(run, actor, revision), Accepted(body, actor, c), Gone(body, actor, c), x.deadline), w.live))
      && (r.1.Failure? ==> r.0 == w)
  {
    RestingRun(w, log, run);
    RestingComputes(w, log, run, actor, c);
    var body := Last(log[run]).session;
    if Fits(body, actor, revision, c) { MembersAreAdmitted(w, log, run, actor); }
    hide *;
    FitsRevision(body, actor, revision, c);
    FreshReachesAccept(w, actor, run, revision, c, x);
    AcceptWrites(w, actor, body, c, x);
  }

  lemma FitsRevision(body: Session, actor: Id, revision: int, c: Command)
    ensures Fits(body, actor, revision, c) ==> revision == body.revision && body.status == Active && Contains(body, actor)
  {
  }

  // ---------- starting ----------

  /** Claimed by a run, indexed under a live unexpired one that names the character, or in an unexpired session of before the protocol. */
  predicate Engaged(w: World, a: Id, now: Time) {
    || (a in w.durable.claims && w.durable.claims[a] != NOBODY)
    || (if a in w.live.actorRuns && w.live.actorRuns[a] != NOBODY then
          var run := w.live.actorRuns[a];
          run in w.live.runs && run in w.live.expiry && now < w.live.expiry[run] && Contains(w.live.runs[run], a)
        else
          var owner := if a in w.live.owners && a !in w.live.sessions then w.live.owners[a] else a;
          && owner in w.live.sessions && Contains(w.live.sessions[owner], a)
          && (owner in w.live.expirations ==> now <= w.live.expirations[owner]))
  }

  predicate Welcome(w: World, q: StartRequest, a: Id, now: Time) {
    !Engaged(w, a, now) && a in q.candidates && q.candidates[a].refusal.None?
  }

  predicate PartyFits(q: StartRequest) {
    && q.leader != NOBODY && q.leader in q.memberIds && NOBODY !in q.memberIds
    && (forall i, j :: 0 <= i < j < |q.memberIds| ==> q.memberIds[i] != q.memberIds[j])
    && |q.memberIds| <= (if q.limit <= 0 then 4 else q.limit)
  }

  lemma EngagedIff(w: World, a: Id, now: Time)
    ensures IsBusy(w, a, now) <==> Engaged(w, a, now)
  {
  }

  /** A member as it starts: unhurt by the admission, without rewards, its limits no lower than what it was admitted with when none are known. */
  predicate StartsAs(m: Member, a: Id, c: Candidate) {
    && m.id == a && m.hp == c.hp && m.mp == Some(c.mp) && m.exp == 0 && m.gold == 0
    && m.maxHp == (if c.maxHp <= 0 then c.hp else c.maxHp) && m.maxMp == (if c.maxMp <= 0 then c.mp else c.maxMp)
  }

  lemma {:induction false} AdmittedIff(w: World, q: StartRequest, ids: seq<Id>, now: Time)
    ensures Admit(w, ids, q.candidates, now).Success? <==> forall i :: 0 <= i < |ids| ==> Welcome(w, q, ids[i], now)
    ensures Admit(w, ids, q.candidates, now).Success? ==>
      var members := Admit(w, ids, q.candidates, now).value;
      |members| == |ids| && forall i :: 0 <= i < |ids| ==> ids[i] in q.candidates && StartsAs(members[i], ids[i], q.candidates[ids[i]])
    decreases |ids|
  {
    hide IsBusy, Engaged;
    if ids != [] {
      var n := |ids| - 1;
      AdmittedIff(w, q, ids[..n], now);
      EngagedIff(w, ids[n], now);
      if Admit(w, ids, q.candidates, now).Success? {
        forall i | 0 <= i < |ids| ensures Welcome(w, q, ids[i], now) {
          if i < n { assert Welcome(w, q, ids[..n][i], now); }
        }
        var members := Admit(w, ids, q.candidates, now).value;
        forall i | 0 <= i < |ids| ensures ids[i] in q.candidates && StartsAs(members[i], ids[i], q.candidates[ids[i]]) {
          if i < n { assert ids[..n][i] in q.candidates; }
        }
      }
      if forall i :: 0 <= i < |ids| ==> Welcome(w, q, ids[i], now) {
        forall i | 0 <= i < n ensures Welcome(w, q, ids[..n][i], now) {
          assert Welcome(w, q, ids[i], now);
        }
        assert Welcome(w, q, ids[n], now);
      }
    }
  }

  /** The first body of a run: its party in order, its leader's health, round one and nothing earned or found. */
  ghost predicate FirstBody(s: Session, run: Id, q: StartRequest) {
    && s.id == run && s.revision == 1 && s.leader == q.leader && s.round == 1 && s.status == Active
    && s.exp == 0 && s.gold == 0 && s.items == [] && s.awards == []
    && |s.members| == |q.memberIds|
    && (forall i :: 0 <= i < |q.memberIds| ==> q.memberIds[i] in q.candidates && StartsAs(s.members[i], q.memberIds[i], q.candidates[q.memberIds[i]]))
    && (q.leader in q.candidates ==> s.leaderHp == q.candidates[q.leader].hp)
  }

  lemma {:induction false} LeaderHpFound(members: seq<Member>, leader: Id, before: int)
    requires leader in IdSet(members)
    ensures exists i :: 0 <= i < |members| && members[i].id == leader && LeaderHp(members, leader, before) == members[i].hp
    decreases |members|
  {
    var n := |members| - 1;
    if members[n].id != leader {
      assert members == members[..n] + [members[n]];
      LeaderHpFound(members[..n], leader, before);
      var i :| 0 <= i < n && members[..n][i].id == leader && LeaderHp(members[..n], leader, before) == members[..n][i].hp;
      assert members[i].id == leader;
    }
  }

  lemma NewRunIsFirst(run: Id, q: StartRequest, members: seq<Member>)
    requires PartyFits(q) && |members| == |q.memberIds|
    requires forall i :: 0 <= i < |members| ==> q.memberIds[i] in q.candidates && StartsAs(members[i], q.memberIds[i], q.candidates[q.memberIds[i]])
    ensures FirstBody(NewRun(run, q.leader, members), run, q)
  {
    var i :| 0 <= i < |q.memberIds| && q.memberIds[i] == q.leader;
    assert members[i] in members && members[i].id == q.leader;
    LeaderHpFound(members, q.leader, 0);
  }

  /** What a start writes: the admission, the claims and rows of the party, the first transition and its receipt. */
  function Founded(d: Durable, run: Id, leader: Id, s: Session, deadline: Time): Durable {
    d.(admissions := d.admissions[run := s],
       claims := Bind(d.claims, IdSet(s.members), run),
       participants := AddRows(d.participants, IdSet(s.members), run),
       states := d.states[run := Transition(run, 1, true, Some(s), [], NOBODY, deadline)],
       results := d.results[ResultKey(run, leader, 0) := CommandResult(leader, Start, 0, s, None, [])])
  }

  lemma RepeatsIff(ids: seq<Id>)
    ensures HasRepeat(ids) <==> !(forall i, j :: 0 <= i < j < |ids| ==> ids[i] != ids[j])
  {
  }

  lemma FreeEnroll(d: Durable, s: Session)
    requires forall m :: m in s.members ==> ClaimOf(d, m.id) == NOBODY
    ensures Enroll(d, s) == Success(d.(claims := Bind(d.claims, IdSet(s.members), s.id), participants := AddRows(d.participants, IdSet(s.members), s.id)))
  {
    hide Bind, AddRows, IdSet;
  }

  lemma WelcomeIsFree(w: World, q: StartRequest, a: Id, now: Time)
    requires Welcome(w, q, a, now)
    ensures ClaimOf(w.durable, a) == NOBODY
  {
  }

  /**
   A start under a new identity is accepted exactly for a party that fits, of characters who are all free and none of
   whom is refused. It then writes the first body of the run and what binds the party to it, and nothing to the live
   store; refused, it leaves the world alone.
   */
  lemma StartedIff(w: World, run: Id, q: StartRequest, now: Time, deadline: Time)
    requires FreshRun(w.durable, run)
    ensures var r := StartBody(w, run, q, now, deadline);
      && (r.1.Success? <==> PartyFits(q) && forall i :: 0 <= i < |q.memberIds| ==> Welcome(w, q, q.memberIds[i], now))
      && (r.1.Failure? ==> r.0 == w)
      && (r.1.Success? ==>
            var s := r.1.value.session;
            && FirstBody(s, run, q) && r.1.value == CommandResult(q.leader, Start, 0, s, None, [])
            && r.0 == World(Founded(w.durable, run, q.leader, s, deadline), w.live))
  {
    RepeatsIff(q.memberIds);
    AdmittedIff(w, q, q.memberIds, now);
    hide Admit, Welcome, StartsAs, FirstBody, HasRepeat, Bind, AddRows, IdSet, Enroll, SaveTransition, NewRun;
    if PartyFits(q) && Admit(w, q.memberIds, q.candidates, now).Success? {
      var members := Admit(w, q.memberIds, q.candidates, now).value;
      var s := NewRun(run, q.leader, members);
      NewRunIsFirst(run, q, members);
      NewRunNamed(run, q.leader, members);
      var saved := w.durable.(admissions := w.durable.admissions[run := s]);
      forall m | m in s.members ensures ClaimOf(saved, m.id) == NOBODY {
        var i :| 0 <= i < |members| && members[i] == m;
        assert q.memberIds[i] == m.id by { AdmitsInOrder(w, q, now, i); }
        WelcomeIsFree(w, q, q.memberIds[i], now);
        SameClaim(w.durable, saved, m.id);
      }
      FreeEnroll(saved, s);
      var enrolled := Enroll(saved, s).value;
      FirstSave(enrolled, run, s, q.leader, deadline);
    }
    EmptyParty(q);
  }

  lemma AdmitsInOrder(w: World, q: StartRequest, now: Time, i: nat)
    requires Admit(w, q.memberIds, q.candidates, now).Success? && i < |Admit(w, q.memberIds, q.candidates, now).value|
    ensures i < |q.memberIds| && Admit(w, q.memberIds, q.candidates, now).value[i].id == q.memberIds[i]
  {
    hide Admit;
    assert Ids(Admit(w, q.memberIds, q.candidates, now).value)[i] == q.memberIds[i];
  }

  lemma SameClaim(d: Durable, e: Durable, a: Id)
    requires e.claims == d.claims
    ensures ClaimOf(e, a) == ClaimOf(d, a)
  {
  }

  lemma NewRunNamed(run: Id, leader: Id, members: seq<Member>)
    ensures NewRun(run, leader, members).id == run && NewRun(run, leader, members).members == members
  {
  }

  lemma EmptyParty(q: StartRequest)
    ensures PartyFits(q) ==> q.memberIds != []
  {
  }

  lemma FirstSave(d: Durable, run: Id, s: Session, leader: Id, deadline: Time)
    requires run !in d.states
    ensures SaveTransition(d, Transition(run, 1, true, Some(s), [], NOBODY, deadline), CommandResult(leader, Start, 0, s, None, []))
      == Success(d.(states := d.states[run := Transition(run, 1, true, Some(s), [], NOBODY, deadline)],
                    results := d.results[ResultKey(run, leader, 0) := CommandResult(leader, Start, 0, s, None, [])]))
  {
  }

  // ---------- migrating ----------

  /** A session of before the protocol that may enter it: unexpired, under the admitted leader, with the admitted party and its magic known. */
  predicate MayMigrate(w: World, run: Id, now: Time)
    requires run in w.durable.admissions
  {
    var admission := w.durable.admissions[run];
    && admission.leader in w.live.sessions && admission.leader in w.live.expirations && now < w.live.expirations[admission.leader]
    && var s := w.live.sessions[admission.leader];
    && s.id == run && s.status == Active && s.members != [] && |s.members| == |admission.members|
    && (forall i :: 0 <= i < |s.members| ==> s.members[i].id == admission.members[i].id && s.members[i].mp.Some?)
    && forall m :: m in s.members ==> m.id !in w.durable.claims || w.durable.claims[m.id] == NOBODY
  }

  /** The session as it enters: unchanged but for its revision, and awards for treasures that had none, owed to the leader. */
  ghost predicate Migrated(s: Session, legacy: Session, leader: Id) {
    && s == legacy.(revision := 1, awards := s.awards)
    && if legacy.items == [] || legacy.awards != [] then s.awards == legacy.awards
       else |s.awards| == |legacy.items| && forall k :: 0 <= k < |legacy.items| ==> s.awards[k] == Award(legacy.items[k], leader, false)
  }

  /**
   A migration is asked for by somebody admitted. A run that is in the protocol is left alone; another enters it exactly
   when its session may, with the session's own deadline; refused, the world is left alone.
   */
  lemma MigratedIff(w: World, actor: Id, run: Id, now: Time)
    ensures var r := MigrateBody(w, actor, run, now);
      && (r.1.None? <==> (run in w.durable.admissions && Contains(w.durable.admissions[run], actor)
            && (StateOf(w.durable, run).revision > 0 || (StateOf(w.durable, run).revision == 0 && !StateOf(w.durable, run).pending && MayMigrate(w, run, now)))))
      && (r.1.Some? ==> r.0.live == w.live)
      && (r.1.None? && StateOf(w.durable, run).revision > 0 ==> r.0 == w)
    ensures MigrateBody(w, actor, run, now).1.None? && StateOf(w.durable, run).revision <= 0 ==>
      var v, leader := MigrateBody(w, actor, run, now).0, w.durable.admissions[run].leader;
      && leader in w.live.sessions && leader in w.live.expirations && v.live == w.live && run in v.durable.states
      && v.durable.states[run].publication.Some?
      && var s := v.durable.states[run].publication.value;
      && Migrated(s, w.live.sessions[leader], leader)
      && v.durable == w.durable.(
           claims := Bind(w.durable.claims, IdSet(s.members), run), participants := AddRows(w.durable.participants, IdSet(s.members), run),
           states := w.durable.states[run := Transition(run, 1, true, Some(s), [], leader, w.live.expirations[leader])],
           results := w.durable.results[ResultKey(run, actor, 0) := CommandResult(actor, Migrate, 0, s, None, [])])
  {
    hide Bind, AddRows, IdSet, Contains;
    if run in w.durable.admissions {
      var leader := w.durable.admissions[run].leader;
      if leader in w.live.sessions {
        var legacy := w.live.sessions[leader];
        var s := legacy.(revision := 1, awards := DefaultAwards(legacy, leader));
        if forall m :: m in s.members ==> ClaimOf(w.durable, m.id) == NOBODY {
          FreeEnroll(w.durable, s);
        }
      }
    }
    hide StateOf;
  }

  // ---------- publishing ----------

  /** A body of the run it is for, newer than the live one or the live one itself, which no old session contradicts. */
  predicate IsDeliverable(live: Live, t: Transition) {
    && t.publication.Some? && t.publication.value.id == t.runId && t.publication.value.revision == t.revision
    && (t.legacyOwner != NOBODY && t.legacyOwner in live.sessions ==> live.sessions[t.legacyOwner].id == t.runId)
    && (if t.runId !in live.runs then t.revision > 0
        else (live.runs[t.runId].revision < t.revision
              || (live.runs[t.runId] == t.publication.value && t.runId in live.expiry && live.expiry[t.runId] == t.deadline)))
  }

  /** The members that a publication binds: those of a run that plays and has not expired. */
  function Bound(t: Transition, now: Time): set<Id> {
    if t.publication.Some? && t.publication.value.status == Active && now < t.deadline then IdSet(t.publication.value.members) else {}
  }

  /** The actor index after a publication: its members on it, those it removed off it, everybody else as they were. */
  ghost predicate Reindexed(before: map<Id, Id>, after: map<Id, Id>, t: Transition, now: Time) {
    forall a ::
      if a in t.removed && (a in Bound(t, now) || (a in before && before[a] == t.runId)) then a !in after
      else if a in Bound(t, now) then a in after && after[a] == t.runId
      else (a in after <==> a in before) && (a in before ==> after[a] == before[a])
  }

  /** An old session under the owner is dropped exactly when it is the run's, and so is whoever was filed under that owner. */
  ghost predicate LegacyDropped(before: Live, after: Live, owner: Id, run: Id) {
    if owner == NOBODY then after.sessions == before.sessions && after.expirations == before.expirations && after.owners == before.owners
    else
      && (forall a :: a in after.owners <==> a in before.owners && before.owners[a] != owner)
      && (forall a :: a in after.owners ==> after.owners[a] == before.owners[a])
      && if owner in before.sessions && before.sessions[owner].id == run
         then after.sessions == before.sessions - {owner} && after.expirations == before.expirations - {owner}
         else after.sessions == before.sessions && after.expirations == before.expirations
  }

  /**
   A publication succeeds exactly when its body may be delivered and nobody it binds is indexed under another run. The
   live store then holds the body with its deadline, and the index and the old sessions follow.
   */
  lemma PublishedIff(live: Live, t: Transition, now: Time)
    ensures var (after, error) := Publish(live, t, now);
      && (error.None? <==> (IsDeliverable(live, t)
            && forall a :: a in Bound(t, now) ==> a !in live.actorRuns || live.actorRuns[a] == NOBODY || live.actorRuns[a] == t.runId))
      && (error.None? ==>
            && t.publication.Some?
            && after.runs == live.runs[t.runId := t.publication.value] && after.expiry == live.expiry[t.runId := t.deadline]
            && Reindexed(live.actorRuns, after.actorRuns, t, now)
            && LegacyDropped(live, after, t.legacyOwner, t.runId))
  {
    FitsIff(live, t);
    if IsDeliverable(live, t) {
      IndexIff(live, t, now);
      var (index, free) := NextIndex(live, t, now);
      if free {
        DeliveredParts(live, t, index);
      }
    }
    hide IsDeliverable, NextIndex, Reindexed, LegacyDropped, Delivered, WithBody, Bound;
  }

  lemma FitsIff(live: Live, t: Transition)
    ensures IsDeliverable(live, t) <==>
      && t.publication.Some? && t.publication.value.id == t.runId && t.publication.value.revision == t.revision
      && !LegacyMismatch(live, t) && PublicationFits(live, t)
  {
  }

  lemma IndexIff(live: Live, t: Transition, now: Time)
    requires t.publication.Some?
    ensures var (index, free) := NextIndex(live, t, now);
      && (free <==> forall a :: a in Bound(t, now) ==> a !in live.actorRuns || live.actorRuns[a] == NOBODY || live.actorRuns[a] == t.runId)
      && (free ==> Reindexed(live.actorRuns, Unindex(index, t.removed, t.runId), t, now))
  {
    var members := t.publication.value.members;
    if t.publication.value.status == Active && now < t.deadline {
      FreeIff(live.actorRuns, members, t.runId);
      if IndexFree(live.actorRuns, members, t.runId) {
        IndexMembersComplete(live.actorRuns, members, t.runId);
      } else if IndexMembers(live.actorRuns, members, t.runId).1 {
        IndexFreeWhenWritten(live.actorRuns, members, t.runId);
      }
    }
  }

  lemma FreeIff(index: map<Id, Id>, members: seq<Member>, run: Id)
    ensures IndexFree(index, members, run) <==> forall a :: a in IdSet(members) ==> a !in index || index[a] == NOBODY || index[a] == run
  {
    if forall a :: a in IdSet(members) ==> a !in index || index[a] == NOBODY || index[a] == run {
      forall m | m in members ensures m.id !in index || index[m.id] == NOBODY || index[m.id] == run {
        assert m.id in IdSet(members);
      }
    }
  }

  lemma DeliveredParts(live: Live, t: Transition, index: map<Id, Id>)
    requires t.publication.Some?
    ensures var after := Delivered(live, t, index);
      && after.runs == live.runs[t.runId := t.publication.value] && after.expiry == live.expiry[t.runId := t.deadline]
      && after.actorRuns == Unindex(index, t.removed, t.runId)
      && LegacyDropped(live, after, t.legacyOwner, t.runId)
  {
    hide Unindex;
  }

  // ---------- deliveries and whole calls ----------

  /**
   A delivery is through exactly when its publication was answered and acknowledged; then nothing is left to deliver.
   Every other delivery leaves the durable side as it was, to be delivered again, and the live side has the last
   committed body unless it could not be reached, when it too is as it was.
   */
  lemma RedeliveredHow(w: World, log: Log, run: Id, now: Time, fault: DeliveryFault)
    requires Inv(w, log) && StateOf(w.durable, run).pending
    ensures var (v, error) := Redeliver(w, run, now, fault);
      && (error.None? <==> fault.publish == Received && fault.acknowledged)
      && (if error.None? then !StateOf(v.durable, run).pending else v.durable == w.durable)
      && (if fault.publish == Unreachable then v.live == w.live
          else run in log && log[run] != [] && run in v.live.runs && v.live.runs[run] == Last(log[run]).session)
  {
    FaultlessRedelivery(w, log, run, now);
    PendingPublicationSucceeds(w, log, run, now);
    RowIsOwn(w, log, run);
    RowIsState(w.durable, run);
    hide *;
    PublishedBody(w.live, w.durable.states[run], now);
    if fault.publish == Received && fault.acknowledged {
      assert fault == DeliveryFault(Received, true);
    } else {
      FaultyRedelivery(w, run, now, fault);
    }
  }

  lemma RowIsState(d: Durable, run: Id)
    requires run in d.states
    ensures StateOf(d, run) == d.states[run]
  {
  }

  lemma FaultyRedelivery(w: World, run: Id, now: Time, fault: DeliveryFault)
    requires StateOf(w.durable, run).pending && Publish(w.live, StateOf(w.durable, run), now).1.None?
    requires fault.publish != Received || !fault.acknowledged
    ensures var live := if fault.publish == Unreachable then w.live else Publish(w.live, StateOf(w.durable, run), now).0;
      Redeliver(w, run, now, fault) == (World(w.durable, live), Some(StorageFailure))
  {
    hide Publish, Acknowledge, StateOf;
  }

  /** A call that names no actor, no run or no revision is refused before it reaches anything, a pending publication included. */
  lemma NamelessIsRefused(w: World, actor: Id, run: Id, revision: int, c: Command, x: Circumstance)
    requires actor == NOBODY || run == NOBODY || revision < 1
    ensures Mutate(w, actor, run, revision, c, x) == (w, Reply(None, Some(if actor == NOBODY then CharacterNotFound else RevisionConflict)))
  {
  }

  /**
   A call whose transaction commits on a run at rest is answered with a result exactly when it names an actor, a run
   and a revision, and that command is the one its receipt is of or, without a receipt, one that is accepted.
   */
  lemma AnsweredIff(w: World, log: Log, actor: Id, run: Id, revision: int, c: Command, x: Circumstance)
    requires Inv(w, log) && run in log && log[run] != [] && !StateOf(w.durable, run).pending
    requires x.commit == Committed && x.readable
    ensures run in w.live.expiry
    ensures var key := ResultKey(run, actor, revision);
      Mutate(w, actor, run, revision, c, x).1.result.Some? <==>
        (actor != NOBODY && run != NOBODY && revision >= 1
         && if key in w.durable.results then w.durable.results[key].action == ActionOf(c)
            else x.now < w.live.expiry[run] && Fits(Last(log[run]).session, actor, revision, c))
  {
    WithoutReceipt(w, log, actor, run, revision, c, x);
    hide *;
    if actor == NOBODY || run == NOBODY || revision < 1 {
      NamelessIsRefused(w, actor, run, revision, c, x);
    } else if ResultKey(run, actor, revision) in w.durable.results {
      RetryReturnsTheReceipt(w, actor, run, revision, c, x);
    } else {
      NewCommandIsAnswered(w, actor, run, revision, c, x);
    }
  }

  lemma NewCommandIsAnswered(w: World, actor: Id, run: Id, revision: int, c: Command, x: Circumstance)
    requires actor != NOBODY && run != NOBODY && revision >= 1 && x.commit == Committed
    requires ResultKey(run, actor, revision) !in w.durable.results
    ensures Mutate(w, actor, run, revision, c, x).1.result.Some? <==> MutateBody(w, actor, run, revision, c, x).1.Success?
  {
    hide MutateBody, PublishPending;
  }

  lemma WithoutReceipt(w: World, log: Log, actor: Id, run: Id, revision: int, c: Command, x: Circumstance)
    requires Inv(w, log) && run in log && log[run] != [] && !StateOf(w.durable, run).pending
    ensures run in w.live.expiry
    ensures ResultKey(run, actor, revision) !in w.durable.results ==>
      (MutateBody(w, actor, run, revision, c, x).1.Success? <==> x.now < w.live.expiry[run] && Fits(Last(log[run]).session, actor, revision, c))
  {
    RestingRun(w, log, run);
    hide *;
    if ResultKey(run, actor, revision) !in w.durable.results {
      AcceptedIff(w, log, actor, run, revision, c, x);
    }
  }

  /**
   What the caller of a start learns: its receipt is stored exactly when the party was let in and the transaction was not
   undone, the reply carries it exactly when it is stored and either the commit was answered or the receipt can be read,
   and a reply without a result means that none is stored, unless it could not be read.
   */
  lemma StartIsAnswered(w: World, run: Id, q: StartRequest, x: Circumstance)
    requires FreshRun(w.durable, run) && ResultKey(run, q.leader, 0) !in w.durable.results
    ensures var (v, reply) := StartRun(w, run, q, x);
      var key := ResultKey(run, q.leader, 0);
      && (key in v.durable.results <==>
            x.commit != RolledBack && PartyFits(q) && forall i :: 0 <= i < |q.memberIds| ==> Welcome(w, q, q.memberIds[i], x.now))
      && (reply.result.Some? <==> key in v.durable.results && (x.commit == Committed || x.readable))
      && (reply.result.Some? ==> v.durable.results[key] == reply.result.value)
      && (reply.result.None? ==> reply.error.Some? && (!x.readable ==> reply.error.value == OutcomeUnknown))
  {
    StartedIff(w, run, q, x.now, x.deadline);
    PublishPendingKeepsReceipts(StartSection(w, run, q, x).0, run, x.after);
    hide StartBody, PublishPending, FirstBody, Welcome, PartyFits, Bind, AddRows, IdSet;
  }

  /**
   A session of before the protocol that has no receipt yet is in it exactly when it may migrate and the transaction was
   not undone. It is then published at once when the commit was answered or the receipt can be read; otherwise the
   caller gets an error and publishing is left to the next call.
   */
  lemma MigrationIsAnswered(w: World, actor: Id, run: Id, x: Circumstance)
    requires run !in w.durable.states && ResultKey(run, actor, 0) !in w.durable.results
    ensures var body := MigrateBody(w, actor, run, x.now).0;
      var took := run in w.durable.admissions && Contains(w.durable.admissions[run], actor) && MayMigrate(w, run, x.now) && x.commit != RolledBack;
      var (v, error) := MigrateSession(w, actor, run, x);
      && (ResultKey(run, actor, 0) in v.durable.results <==> took)
      && (if took && (x.commit == Committed || x.readable) then (v, error) == PublishPending(body, run, x.after)
          else v == World(if took then body.durable else w.durable, w.live) && error.Some? && (!x.readable ==> error.value == OutcomeUnknown))
  {
    MigratedIff(w, actor, run, x.now);
    PublishPendingKeepsReceipts(MigrateBody(w, actor, run, x.now).0, run, x.after);
    hide MigrateBody, PublishPending, Migrated, MayMigrate, Contains, Bind, AddRows, IdSet;
  }

  /** Asked for again, a migration only delivers what is pending, and that when its commit was answered or its receipt can be read. */
  lemma MigratingAgain(w: World, actor: Id, run: Id, x: Circumstance)
    requires run in w.durable.admissions && Contains(w.durable.admissions[run], actor) && StateOf(w.durable, run).revision > 0
    ensures var key := ResultKey(run, actor, 0);
      MigrateSession(w, actor, run, x) ==
        if x.commit == Committed || (x.readable && key in w.durable.results && w.durable.results[key].action == Migrate)
        then PublishPending(w, run, x.after)
        else (w, Some(if x.readable then StorageFailure else OutcomeUnknown))
  {
    hide PublishPending, Contains;
  }

  // ---------- refused publications and settlements ----------

  /** Free to be indexed under the run: indexed nowhere, under nothing, or under the run already. */
  predicate MayIndex(index: map<Id, Id>, a: Id, run: Id) {
    a !in index || index[a] == NOBODY || index[a] == run
  }

  /** At the k-th member the walk met somebody else's entry; those before are indexed under the run, everybody else is as before. */
  ghost predicate StoppedAt(before: map<Id, Id>, after: map<Id, Id>, members: seq<Member>, run: Id, k: int) {
    && 0 <= k < |members| && !MayIndex(before, members[k].id, run)
    && (forall i :: 0 <= i < k ==> MayIndex(before, members[i].id, run) && members[i].id in after && after[members[i].id] == run)
    && (forall a :: (forall i :: 0 <= i < k ==> members[i].id != a) ==> (a in after <==> a in before) && (a in before ==> after[a] == before[a]))
  }

  lemma {:induction false} WalkStops(index: map<Id, Id>, members: seq<Member>, run: Id) returns (k: int)
    requires !IndexMembers(index, members, run).1
    ensures StoppedAt(index, IndexMembers(index, members, run).0, members, run, k)
    decreases |members|
  {
    hide StoppedAt;
    if MayIndex(index, members[0].id, run) {
      var first, rest := index[members[0].id := run], members[1..];
      var stop := WalkStops(first, rest, run);
      k := stop + 1;
      FirstStep(index, IndexMembers(first, rest, run).0, members, run, stop);
    } else {
      k := 0;
      StopsAtOnce(index, members, run);
    }
  }

  lemma StopsAtOnce(index: map<Id, Id>, members: seq<Member>, run: Id)
    requires members != [] && !MayIndex(index, members[0].id, run)
    ensures StoppedAt(index, index, members, run, 0)
  {
  }

  lemma FirstStep(index: map<Id, Id>, after: map<Id, Id>, members: seq<Member>, run: Id, k: int)
    requires members != [] && MayIndex(index, members[0].id, run)
    requires StoppedAt(index[members[0].id := run], after, members[1..], run, k)
    ensures StoppedAt(index, after, members, run, k + 1)
  {
    var first, rest := index[members[0].id := run], members[1..];
    assert members[k + 1] == rest[k];
    forall i | 0 <= i < k + 1 ensures MayIndex(index, members[i].id, run) && members[i].id in after && after[members[i].id] == run {
      if i > 0 {
        assert members[i] == rest[i - 1];
      }
    }
    forall a | forall i :: 0 <= i < k + 1 ==> members[i].id != a ensures (a in after <==> a in index) && (a in index ==> after[a] == index[a]) {
      assert members[0].id != a;
      forall j | 0 <= j < k ensures rest[j].id != a {
        assert members[j + 1] == rest[j];
      }
    }
  }

  /**
   A publication that is refused has left the live store alone, unless it met a member indexed under another run: then
   the body and its deadline are there and the members before that one are indexed, but nobody is removed and no old
   session is dropped.
   */
  lemma RefusedPublication(live: Live, t: Transition, now: Time)
    requires Publish(live, t, now).1.Some?
    ensures var (after, error) := Publish(live, t, now);
      && (error == Some(ActiveSessionExists) <==> IsDeliverable(live, t))
      && (!IsDeliverable(live, t) ==> after == live)
      && (IsDeliverable(live, t) ==>
            && after == live.(runs := live.runs[t.runId := t.publication.value], expiry := live.expiry[t.runId := t.deadline], actorRuns := after.actorRuns)
            && exists k :: StoppedAt(live.actorRuns, after.actorRuns, t.publication.value.members, t.runId, k))
  {
    FitsIff(live, t);
    if IsDeliverable(live, t) {
      var k := WalkStops(live.actorRuns, t.publication.value.members, t.runId);
    }
    hide IsDeliverable, IndexMembers, StoppedAt, PublicationFits, LegacyMismatch;
  }

  /**
   A settlement is accepted exactly when the run has nothing to publish and its revision is the one meant, nobody is
   listed twice and everybody listed is enrolled and unpaid. It then pays them, and nothing else.
   */
  lemma FinalizedIff(d: Durable, run: Id, revision: int, settled: seq<Member>)
    ensures Finalize(d, run, revision, settled).Success? <==>
      && !StateOf(d, run).pending && StateOf(d, run).revision == revision
      && (forall i, j :: 0 <= i < j < |settled| ==> settled[i].id != settled[j].id)
      && forall m :: m in settled ==> ParticipantKey(run, m.id) in d.participants && d.participants[ParticipantKey(run, m.id)] == Enrolled
    ensures Finalize(d, run, revision, settled).Success? ==>
      var e := Finalize(d, run, revision, settled).value;
      && e == d.(participants := e.participants)
      && (forall m :: m in settled ==> ParticipantKey(run, m.id) in e.participants && e.participants[ParticipantKey(run, m.id)] == Settled(m))
      && forall k: ParticipantKey :: k.run != run || k.actor !in IdSet(settled) ==>
           (k in e.participants <==> k in d.participants) && (k in d.participants ==> e.participants[k] == d.participants[k])
  {
    if Finalize(d, run, revision, settled).Success? {
      PayRecords(d.participants, run, settled);
    }
    hide Pay, StateOf;
  }
}

/** When entries, votes and deliveries are accepted and what they do, told by the tables alone. */
module ContestGates {
  import opened Common
  import opened ContestTypes
  import opened ContestActions
  import opened ContestRules
  import opened ContestRounds
  import opened ContestEntries
  import opened ContestRuns
  import opened ContestQuorum
  import opened ContestSettlements
  import ContestWorker

  // ---------- the open rounds ----------

  /** The rounds once a waiting one is there: behind the running round and from its end on, or else from now on. */
  function Furnished(rounds: seq<Round>, now: Time): (after: seq<Round>)
    ensures after != []
  {
    if rounds != [] && rounds[|rounds| - 1].status == Preparing then rounds
    else
      var start := if rounds != [] && rounds[|rounds| - 1].status == Active then rounds[|rounds| - 1].end else now;
      rounds + [Round(|rounds| + 1, Preparing, start, start + CYCLE)]
  }

  lemma FurnishedIs(c: Contest, now: Time)
    requires RoundsOk(c.rounds)
    ensures var (d, p) := EnsurePreparing(c, now);
      && d == c.(rounds := Furnished(c.rounds, now)) && p == d.rounds[|d.rounds| - 1] && p.number == |d.rounds|
  {
    EndOfLine(c.rounds);
    if Latest(c.rounds, Preparing).None? {
      NextNumber(c, now);
      hide EnsurePreparing, RoundsOk, Latest;
      OpenedRound(c, now);
    } else {
      PreparingIsLast(c.rounds);
      hide RoundsOk, Latest;
    }
  }

  lemma OpenedRound(c: Contest, now: Time)
    requires Latest(c.rounds, Preparing).None?
    ensures var p, active := EnsurePreparing(c, now).1, Latest(c.rounds, Active);
      var start := if active.Some? then active.value.end else now;
      p == Round(p.number, Preparing, start, start + CYCLE)
  {
    hide Latest;
  }

  /** The waiting round is last, and without one the running round is. */
  lemma EndOfLine(rounds: seq<Round>)
    requires RoundsOk(rounds)
    ensures Latest(rounds, Preparing).Some? <==> rounds != [] && rounds[|rounds| - 1].status == Preparing
    ensures Latest(rounds, Preparing).Some? ==> Latest(rounds, Preparing).value == rounds[|rounds| - 1]
    ensures Latest(rounds, Preparing).None? ==>
      (Latest(rounds, Active).Some? <==> rounds != [] && rounds[|rounds| - 1].status == Active)
      && (Latest(rounds, Active).Some? ==> Latest(rounds, Active).value == rounds[|rounds| - 1])
  {
    Places(rounds);
    LatestIs(rounds, Active);
    LatestIs(rounds, Preparing);
  }

  lemma RunningIs(rounds: seq<Round>, number: int)
    requires RoundsOk(rounds)
    ensures InStatus(rounds, number, Active) <==> Latest(rounds, Active).Some? && Latest(rounds, Active).value.number == number
  {
    LatestIs(rounds, Active);
    if InStatus(rounds, number, Active) {
      OneActive(rounds, number);
    }
  }

  // ---------- entering ----------

  /** The character is in one of the rounds that it must not be in: the running one, or the one the entry is for. */
  predicate RunsAlready(c: Contest, character: Id) {
    exists e :: e in c.entries && e.character == character && InStatus(c.rounds, e.round, Active)
  }

  predicate IsIn(entries: seq<Entry>, round: int, character: Id) {
    exists e :: e in entries && e.character == character && e.round == round
  }

  predicate TitleIsIn(entries: seq<Entry>, round: int, title: string) {
    exists e :: e in entries && e.title == title && e.round == round
  }

  lemma RunsAlreadyIs(c: Contest, character: Id)
    requires RoundsOk(c.rounds)
    ensures RunsAlready(c, character) <==>
      Latest(c.rounds, Active).Some? && Entered(c.entries, Latest(c.rounds, Active).value.number, character)
  {
    forall number ensures InStatus(c.rounds, number, Active) <==> Latest(c.rounds, Active).Some? && Latest(c.rounds, Active).value.number == number {
      RunningIs(c.rounds, number);
    }
    hide InStatus, Latest;
    if RunsAlready(c, character) {
      var e :| e in c.entries && e.character == character && InStatus(c.rounds, e.round, Active);
      assert e.round == Latest(c.rounds, Active).value.number;
    }
    if Latest(c.rounds, Active).Some? && Entered(c.entries, Latest(c.rounds, Active).value.number, character) {
      var e :| e in c.entries && e.round == Latest(c.rounds, Active).value.number && e.character == character;
      assert InStatus(c.rounds, e.round, Active);
    }
  }

  lemma SameMeaning(entries: seq<Entry>, round: int, character: Id, title: string)
    ensures Entered(entries, round, character) <==> IsIn(entries, round, character)
    ensures TitleTaken(entries, round, title) <==> TitleIsIn(entries, round, title)
  {
  }

  /**
   A known character may enter the waiting round unless it is in the running or the waiting one, under a title that
   nobody has in the waiting round. The entry then stands there without votes or rank, and nothing else changes but
   that a missing waiting round was opened.
   */
  lemma EnteredIff(c: Contest, character: Id, title: string, id: Id, now: Time)
    requires RoundsOk(c.rounds) && FreshId(c, id)
    ensures var r, w := Enter(c, character, title, id, now), |Furnished(c.rounds, now)|;
      && (r.Success? <==> (character in c.wallets && !RunsAlready(c, character)
            && !IsIn(c.entries, w, character) && !TitleIsIn(c.entries, w, title)))
      && (r.Success? ==>
            r.value == c.(rounds := Furnished(c.rounds, now), entries := c.entries + [Entry(id, w, character, title, 0, 0, now)]))
      && (r.Failure? ==> r.error == if character !in c.wallets then CharacterNotFound
            else if RunsAlready(c, character) then ConsecutiveEntry
            else if IsIn(c.entries, w, character) then AlreadyEntered else DuplicateTitle)
  {
    FurnishedIs(c, now);
    RunsAlreadyIs(c, character);
    var (d, p) := EnsurePreparing(c, now);
    SameMeaning(c.entries, p.number, character, title);
    EntryIndexIs(c.entries, id);
    hide EnsurePreparing, Furnished, RunsAlready, Entered, TitleTaken, IsIn, TitleIsIn, Latest, RoundsOk;
    assert EntryIndex(c.entries, id) < 0;
  }

  // ---------- voting ----------

  /** An entry of the running round. */
  predicate StandsFor(c: Contest, e: Entry, id: Id) {
    e in c.entries && e.id == id && InStatus(c.rounds, e.round, Active)
  }

  predicate SomebodyRuns(rounds: seq<Round>) {
    exists i :: 0 <= i < |rounds| && rounds[i].status == Active
  }

  predicate VotedThere(c: Contest, voter: Id) {
    exists v :: v in c.votes && v.voter == voter && InStatus(c.rounds, v.round, Active)
  }

  lemma VotedThereIs(c: Contest, voter: Id)
    requires RoundsOk(c.rounds) && Latest(c.rounds, Active).Some?
    ensures VotedThere(c, voter) <==> HasVoted(c.votes, Latest(c.rounds, Active).value.number, voter)
  {
    forall number ensures InStatus(c.rounds, number, Active) <==> Latest(c.rounds, Active).value.number == number {
      RunningIs(c.rounds, number);
    }
    hide InStatus, Latest;
    if VotedThere(c, voter) {
      var v :| v in c.votes && v.voter == voter && InStatus(c.rounds, v.round, Active);
      assert v.round == Latest(c.rounds, Active).value.number;
    }
    if HasVoted(c.votes, Latest(c.rounds, Active).value.number, voter) {
      var v :| v in c.votes && v.round == Latest(c.rounds, Active).value.number && v.voter == voter;
      assert InStatus(c.rounds, v.round, Active);
    }
  }

  lemma SomebodyRunsIs(rounds: seq<Round>)
    requires RoundsOk(rounds)
    ensures SomebodyRuns(rounds) <==> Latest(rounds, Active).Some?
  {
    LatestIs(rounds, Active);
    if Latest(rounds, Active).Some? {
      assert rounds[Latest(rounds, Active).value.number - 1].status == Active;
    }
  }

  lemma {:induction false} EntryAtFinds(entries: seq<Entry>, e: Entry)
    requires DistinctIds(entries) && e in entries
    ensures EntryAt(entries, e.id) == Some(e)
    decreases |entries|
  {
    EntryAtIs(entries, e.id);
    var n := |entries| - 1;
    if entries[n] != e {
      var i :| 0 <= i < n && entries[i] == e;
      assert entries[..n][i] == e;
      EntryAtFinds(entries[..n], e);
    }
  }

  lemma StandsIs(c: Contest, id: Id)
    requires RoundsOk(c.rounds) && DistinctIds(c.entries) && Latest(c.rounds, Active).Some?
    ensures var found := EntryAt(c.entries, id);
      forall e :: StandsFor(c, e, id) <==> found == Some(e) && e.round == Latest(c.rounds, Active).value.number
  {
    EntryAtIs(c.entries, id);
    forall e ensures StandsFor(c, e, id) <==> EntryAt(c.entries, id) == Some(e) && e.round == Latest(c.rounds, Active).value.number {
      RunningIs(c.rounds, e.round);
      if e in c.entries && e.id == id { EntryAtFinds(c.entries, e); }
    }
  }

  /** One more vote, at one entry. */
  predicate CountedAt(before: seq<Entry>, after: seq<Entry>, id: Id) {
    |after| == |before| && forall i :: 0 <= i < |before| ==>
      after[i] == if before[i].id == id then before[i].(votes := before[i].votes + 1) else before[i]
  }

  /** A known character votes once in the running round, for an entry of it; the vote is kept and counted there and nothing else changes. */
  lemma VotedIff(c: Contest, voter: Id, id: Id)
    requires RoundsOk(c.rounds) && DistinctIds(c.entries)
    ensures var r := CastVote(c, voter, id);
      && (r.Success? <==> voter in c.wallets && SomebodyRuns(c.rounds) && !VotedThere(c, voter) && exists e :: StandsFor(c, e, id))
      && (r.Success? ==> CountedAt(c.entries, r.value.entries, id))
      && (forall e :: r.Success? && StandsFor(c, e, id) ==>
            r.value == c.(votes := c.votes + [Vote(e.round, id, voter)], entries := r.value.entries))
      && (r.Failure? ==> r.error == if voter !in c.wallets then CharacterNotFound
            else if !SomebodyRuns(c.rounds) then NotActive
            else if VotedThere(c, voter) then AlreadyVoted else EntryNotFound)
  {
    SomebodyRunsIs(c.rounds);
    hide SomebodyRuns, VotedThere, StandsFor, HasVoted, Latest, RoundsOk, EntryAt;
    if Latest(c.rounds, Active).Some? {
      VotedThereIs(c, voter);
      StandsIs(c, id);
    }
  }

  // ---------- deliveries ----------

  /** The round whose deadline the schedule serves: the running one, or else the waiting one. */
  function Open(rounds: seq<Round>): Round
    requires rounds != []
  {
    if |rounds| >= 2 && rounds[|rounds| - 2].status == Active then rounds[|rounds| - 2] else rounds[|rounds| - 1]
  }

  /** The rounds after a repair: as they are while one runs, otherwise with a waiting one. */
  function Repaired(rounds: seq<Round>, now: Time): (after: seq<Round>)
    ensures after != []
  {
    if SomebodyRuns(rounds) then rounds else Furnished(rounds, now)
  }

  lemma OpenIs(c: Contest, now: Time)
    requires RoundsOk(c.rounds)
    ensures var active := Latest(c.rounds, Active);
      var (d, target) := if active.Some? then (c, active.value) else EnsurePreparing(c, now);
      d == c.(rounds := Repaired(c.rounds, now)) && target == Open(d.rounds)
  {
    SomebodyRunsIs(c.rounds);
    FurnishedIs(c, now);
    Places(c.rounds);
    LatestIs(c.rounds, Active);
    LatestIs(c.rounds, Preparing);
    if Latest(c.rounds, Active).Some? {
      RunningIsOpen(c.rounds);
    }
  }

  lemma RunningIsOpen(rounds: seq<Round>)
    requires RoundsOk(rounds) && Latest(rounds, Active).Some?
    ensures rounds != [] && Open(rounds) == Latest(rounds, Active).value
  {
    Places(rounds);
    LatestIs(rounds, Active);
    var i := Latest(rounds, Active).value.number - 1;
    if i == |rounds| - 1 && |rounds| >= 2 {
      assert Follows(rounds[|rounds| - 2].status, rounds[|rounds| - 1].status);
    }
  }

  /** Somebody waits for, or works on, the deadline of a round. */
  predicate IsServed(actions: seq<Action>, r: Round) {
    exists a :: a in actions && (a.state == Pending || a.state == Processing) && a.at == r.end && ParseActionId(a.id) == Some((r.number, r.end))
  }

  lemma ServedIs(actions: seq<Action>, r: Round)
    ensures IsServed(actions, r) <==> exists a :: a in actions && Serves(a, r.number, r.end)
  {
    hide ParseActionId;
    if IsServed(actions, r) {
      var a :| a in actions && (a.state == Pending || a.state == Processing) && a.at == r.end && ParseActionId(a.id) == Some((r.number, r.end));
      assert Serves(a, r.number, r.end);
    }
    if exists a :: a in actions && Serves(a, r.number, r.end) {
      var a :| a in actions && Serves(a, r.number, r.end);
      assert a.at == r.end;
    }
  }

  /**
   A repair opens a missing waiting round while none runs, and schedules one waiting action for the deadline of the
   running round, or else of the waiting one, exactly when none serves it yet.
   */
  lemma RepairedHow(s: System, now: Time, nonce: string)
    requires RoundsOk(s.contest.rounds)
    ensures var t := Reconcile(s, now, nonce);
      var target := Open(Repaired(s.contest.rounds, now));
      && t.contest == s.contest.(rounds := Repaired(s.contest.rounds, now))
      && (IsServed(s.actions, target) || target.end < 0 ==> t.actions == s.actions)
      && (!IsServed(s.actions, target) && target.end >= 0 ==>
            && target.number >= 0
            && t.actions == s.actions + [Action(ActionId(target.number, target.end) + ":" + nonce, target.end, Pending)])
  {
    OpenIs(s.contest, now);
    var target := Open(Repaired(s.contest.rounds, now));
    ServedIs(s.actions, target);
    TargetNumbered(s.contest.rounds, now);
    hide Open, Repaired, IsServed, Serves, ActionId, EnsurePreparing, Latest, RoundsOk;
  }

  lemma TargetNumbered(rounds: seq<Round>, now: Time)
    requires RoundsOk(rounds)
    ensures Open(Repaired(rounds, now)).number >= 1
  {
  }

  /** A round that will not need the action any more: unknown, settled, or running past the action's time. */
  predicate NeedsNothing(rounds: seq<Round>, round: int, target: Time) {
    1 <= round <= |rounds| ==> rounds[round - 1].status == Settled || target < rounds[round - 1].end
  }

  lemma AnsweredIs(c: Contest, round: int, target: Time)
    requires RoundsOk(c.rounds)
    ensures Answered(c, round, target) <==> NeedsNothing(c.rounds, round, target)
    ensures RoundAt(c.rounds, round).Some? <==> 1 <= round <= |c.rounds|
  {
    RoundAtIs(c.rounds, round);
  }

  /** A settlement would succeed now, unforced. */
  predicate IsRipe(rounds: seq<Round>, now: Time) {
    rounds != [] && (SomebodyRuns(rounds) || rounds[|rounds| - 1].status == Preparing) && Open(rounds).end <= now
  }

  lemma RipeIs(c: Contest, now: Time)
    requires RoundsOk(c.rounds)
    ensures Settle(c, false, now).Success? <==> IsRipe(c.rounds, now)
    ensures Settle(c, false, now).Failure? ==> Settle(c, false, now).error == NotReady
  {
    SomebodyRunsIs(c.rounds);
    if Latest(c.rounds, Active).Some? {
      var a := Latest(c.rounds, Active).value;
      LatestIs(c.rounds, Active);
      RunningIsOpen(c.rounds);
      RunningClosesIff(c, a, false, now);
      NotReadyIs(c, now);
    } else {
      NoneActive(c.rounds);
      WaitingStartsIff(c, false, now);
      NotReadyIs(c, now);
      if |c.rounds| >= 2 { assert c.rounds[|c.rounds| - 2].status != Active; }
    }
  }

  lemma NoneActive(rounds: seq<Round>)
    requires RoundsOk(rounds) && Latest(rounds, Active).None?
    ensures NoneRuns(rounds)
  {
    LatestIs(rounds, Active);
  }

  lemma NotReadyIs(c: Contest, now: Time)
    ensures Settle(c, false, now).Failure? ==> Settle(c, false, now).error == NotReady
  {
    hide EnsurePreparing, Promote, EntriesOf, Latest, Postpone, Conclude;
  }

  /**
   A delivery whose round needs nothing only repairs the schedule. Any other settles and repairs when a settlement is
   due; when none is, it is a failure that changes nothing, unless another delivery has answered its round meanwhile.
   */
  lemma DeliveredHow(seen: Contest, s: System, id: string, now: Time, nonce: string)
    requires RoundsOk(seen.rounds) && RoundsOk(s.contest.rounds)
    ensures var (t, error) := Handle(seen, s, id, now, nonce);
      var named := ParseActionId(id);
      if named.Some? && NeedsNothing(seen.rounds, named.value.0, named.value.1) then t == Reconcile(s, now, nonce) && error.None?
      else if IsRipe(s.contest.rounds, now) then
        && Settle(s.contest, false, now).Success? && error.None?
        && t == Reconcile(s.(contest := Settle(s.contest, false, now).value), now, nonce)
      else if named.Some? && 1 <= named.value.0 <= |s.contest.rounds| && NeedsNothing(s.contest.rounds, named.value.0, named.value.1)
        then t == Reconcile(s, now, nonce) && error.None?
      else t == s && error == Some(NotReady)
  {
    hide Reconcile, Settle, ParseActionId, IsRipe, NeedsNothing, RoundsOk, Answered;
    RipeIs(s.contest, now);
    var named := ParseActionId(id);
    if named.Some? {
      AnsweredIs(seen, named.value.0, named.value.1);
      AnsweredIs(s.contest, named.value.0, named.value.1);
    }
  }

  // ---------- the worker ----------

  /** A waiting action whose second has come. */
  predicate IsTaken(actions: seq<Action>, k: nat, now: Time) {
    k < |actions| && actions[k].state == Pending && actions[k].at / 1_000_000_000 <= now / 1_000_000_000
  }

  /**
   The worker takes up exactly a waiting action whose second has come: the action is marked as worked on, delivered
   once, and marked by its outcome; a worker that stops leaves what it did up to there.
   */
  lemma WorkedHow(s: System, k: nat, now: Time, nonce: string, stop: Stop)
    ensures !IsTaken(s.actions, k, now) ==> Work(s, k, now, nonce, stop) == s
    ensures IsTaken(s.actions, k, now) ==>
      var taken := s.(actions := s.actions[k := s.actions[k].(state := Processing)]);
      var (t, error) := Handle(s.contest, taken, s.actions[k].id, now, nonce);
      && k < |t.actions|
      && Work(s, k, now, nonce, stop) ==
           if stop == BeforeHandler then taken
           else if stop == BeforeSaving then t
           else t.(actions := t.actions[k := t.actions[k].(state := if error.None? then Completed else Failed)])
  {
    hide Handle;
    if IsTaken(s.actions, k, now) {
      ContestWorker.HandleAppends(s.contest, Marked(s, k, Processing), s.actions[k].id, now, nonce);
    }
  }
}

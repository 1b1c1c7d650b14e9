/** Rewards over a whole run: who earns what in a round, and every found treasure handed out exactly once. */
module ChallengeRewards {
  import opened Common
  import opened ChallengeTypes
  import opened ChallengeRules
  import opened ChallengeProtocol
  import opened ChallengeInvariants
  import opened ChallengeSteps

  // ---------- one round ----------

  predicate Healthy(m: Member) {
    0 <= m.hp && (m.maxHp > 0 ==> m.hp <= m.maxHp)
  }

  /**
   A round reports what it adds: the run's totals grow by it, whoever stands afterwards earns all of it and the
   fallen nothing, and health stays within its limits. A treasure costs nobody anything.
   */
  lemma RoundAccounts(run: Session, draw: RoundDraw, i: nat)
    requires run.status == Active && i < |run.members|
    ensures var o := Round(run, draw);
      var before, after := run.members[i], o.session.members[i];
      && o.report.Some? && o.report.value.round == run.round
      && o.session.exp == run.exp + o.report.value.exp && o.session.gold == run.gold + o.report.value.gold
      && after.exp == before.exp + (if after.hp > 0 then o.report.value.exp else 0)
      && after.gold == before.gold + (if after.hp > 0 then o.report.value.gold else 0)
      && (Healthy(before) ==> Healthy(after))
      && (FoundTreasure(run, draw) ==> o.session.members == run.members && o.session.items == run.items + [o.report.value.item])
      && (!FoundTreasure(run, draw) ==> o.session.items == run.items && (o.report.value.won ==> SomeoneStands(run.members)))
      && (o.report.value.ended <==> o.session.status == Defeated)
  {
    var o := Round(run, draw);
    var fought := BattleMembers(run, draw);
    if !FoundTreasure(run, draw) && WonBattle(run, draw) {
      assert o.session.members[i] == Rewarded(fought[i], TotalExp(draw.monsters), TotalGold(draw.monsters));
    }
  }

  // ---------- what the books of a run keep ----------

  ghost predicate LeaderHpFollows(run: Session) {
    forall m :: m in run.members && m.id == run.leader ==> run.leaderHp == m.hp
  }

  /** Whatever is still to be handed out belongs to somebody who still plays. */
  ghost predicate AwardsHeld(run: Session) {
    forall k :: 0 <= k < |run.awards| && !run.awards[k].delivered ==> run.awards[k].recipient in Roster(run)
  }

  ghost predicate Booked(run: Session) {
    && RewardsCovered(run) && AwardsHeld(run)
    && (run.status == Active ==> LeaderHpFollows(run))
  }

  /** Treasures not handed out yet. */
  function Owed(awards: seq<Award>): (items: seq<Id>)
    ensures |items| <= |awards|
  {
    if awards == [] then []
    else Owed(awards[..|awards| - 1]) + (if awards[|awards| - 1].delivered then [] else [awards[|awards| - 1].item])
  }

  /** What a settlement pays out in treasure. */
  function Handed(awards: seq<Award>, settled: set<Id>): (items: seq<Id>)
    ensures |items| <= |awards|
  {
    if awards == [] then []
    else
      var last := awards[|awards| - 1];
      Handed(awards[..|awards| - 1], settled) + (if !last.delivered && last.recipient in settled then [last.item] else [])
  }

  lemma {:induction false} DeliveryHandsOut(awards: seq<Award>, settled: set<Id>)
    ensures multiset(Owed(awards)) == multiset(Owed(Deliver(awards, settled))) + multiset(Handed(awards, settled))
    decreases |awards|
  {
    if awards != [] {
      var n := |awards| - 1;
      assert Deliver(awards, settled)[..n] == Deliver(awards[..n], settled);
      DeliveryHandsOut(awards[..n], settled);
    }
  }

  /** When everybody who holds an award is settled, marking all is the same as handing out what is owed. */
  lemma {:induction false} EverythingHandedOut(awards: seq<Award>, settled: set<Id>)
    requires forall k :: 0 <= k < |awards| && !awards[k].delivered ==> awards[k].recipient in settled
    ensures Handed(awards, settled) == Owed(awards) && Owed(AllDelivered(awards)) == []
    decreases |awards|
  {
    if awards != [] {
      var n := |awards| - 1;
      assert AllDelivered(awards)[..n] == AllDelivered(awards[..n]);
      EverythingHandedOut(awards[..n], settled);
    }
  }

  lemma {:induction false} NothingOwed(awards: seq<Award>)
    requires forall k :: 0 <= k < |awards| ==> awards[k].delivered
    ensures Owed(awards) == []
    decreases |awards|
  {
    if awards != [] {
      NothingOwed(awards[..|awards| - 1]);
    }
  }

  lemma {:induction false} NobodySettled(awards: seq<Award>)
    ensures Handed(awards, {}) == []
    decreases |awards|
  {
    if awards != [] {
      NobodySettled(awards[..|awards| - 1]);
    }
  }

  // ---------- one accepted command ----------

  datatype Turn = Turn(actor: Id, command: Command)

  function Outcomes(run: Session, t: Turn): Outcome {
    ComputedBy(run, t.actor, t.command)
  }

  /** A member's command on a run that still plays; monsters never take rewards away. */
  ghost predicate Legal(run: Session, t: Turn) {
    && run.status == Active && Contains(run, t.actor)
    && (t.command.AdvanceRound? ==> forall m :: m in t.command.draw.monsters ==> 0 <= m.exp && 0 <= m.gold)
  }

  function HandedBy(run: Session, t: Turn): seq<Id> {
    Handed(run.awards, IdSet(Outcomes(run, t).settled))
  }

  /** Found treasures are either owed or were handed out. */
  ghost predicate TreasuresMove(run: Session, handed: seq<Id>, next: Session) {
    multiset(next.items) + multiset(Owed(run.awards)) == multiset(run.items) + multiset(handed) + multiset(Owed(next.awards))
  }

  lemma TurnKeepsBooks(run: Session, t: Turn)
    requires Playable(run) && Booked(run) && Legal(run, t)
    ensures var next := Outcomes(run, t).session;
      Booked(next) && (next.status == Active ==> Playable(next)) && TreasuresMove(run, HandedBy(run, t), next)
  {
    match t.command
    case AdvanceRound(draw) => RoundKeepsBooks(run, draw);
    case ExitRun => DepartureKeepsBooks(run, t.actor);
  }

  lemma RoundKeepsBooks(run: Session, draw: RoundDraw)
    requires Playable(run) && Booked(run) && forall m :: m in draw.monsters ==> 0 <= m.exp && 0 <= m.gold
    ensures var o := Round(run, draw);
      && Booked(o.session) && (o.session.status == Active ==> Playable(o.session))
      && TreasuresMove(run, Handed(run.awards, IdSet(o.settled)), o.session)
  {
    hide Handed, Owed, TotalExp, TotalGold;
    var o := Round(run, draw);
    RoundKeepsRewardsCovered(run, draw);
    RoundKeepsEnrolment(run, draw);
    if FoundTreasure(run, draw) {
      NobodySettled(run.awards);
      TreasureIsOwed(run, draw);
      assert IdSet(o.settled) == {};
      assert run.members == o.session.members;
    } else if WonBattle(run, draw) {
      NobodySettled(run.awards);
      assert IdSet(o.settled) == {};
      LeaderHpIsHis(BattleMembers(run, draw), run.leader, run.leaderHp);
      WonLeaderHpFollows(run, draw);
    } else {
      assert o.settled == o.session.members;
      assert Roster(run) == IdSet(o.settled);
      EverythingHandedOut(run.awards, IdSet(o.settled));
      assert o.session.awards == AllDelivered(run.awards);
    }
  }

  lemma TreasureIsOwed(run: Session, draw: RoundDraw)
    requires FoundTreasure(run, draw)
    ensures var next := Round(run, draw).session; TreasuresMove(run, [], next)
  {
    var next := Round(run, draw).session;
    assert next.awards[..|run.awards|] == run.awards;
  }

  /** The leader's health is that of the member who leads. */
  lemma {:induction false} LeaderHpIsHis(members: seq<Member>, leader: Id, before: int)
    requires DistinctMembers(members)
    ensures forall m :: m in members && m.id == leader ==> LeaderHp(members, leader, before) == m.hp
    decreases |members|
  {
    if members != [] {
      LeaderHpIsHis(members[..|members| - 1], leader, before);
      assert members == members[..|members| - 1] + [members[|members| - 1]];
    }
  }

  lemma WonLeaderHpFollows(run: Session, draw: RoundDraw)
    requires Playable(run) && !FoundTreasure(run, draw) && WonBattle(run, draw)
    requires var fought := BattleMembers(run, draw);
      forall m :: m in fought && m.id == run.leader ==> LeaderHp(fought, run.leader, run.leaderHp) == m.hp
    ensures LeaderHpFollows(Round(run, draw).session)
  {
    var fought, after := BattleMembers(run, draw), Round(run, draw).session.members;
    forall i | 0 <= i < |after| && after[i].id == run.leader ensures LeaderHp(fought, run.leader, run.leaderHp) == after[i].hp {
      assert fought[i] in fought;
    }
  }

  lemma DepartureKeepsBooks(run: Session, actor: Id)
    requires Playable(run) && Booked(run) && Contains(run, actor)
    ensures var o := Departure(run, actor);
      && Booked(o.session) && (o.session.status == Active ==> Playable(o.session))
      && TreasuresMove(run, Handed(run.awards, IdSet(o.settled)), o.session)
  {
    hide Handed, Owed;
    assert actor in IdSet(run.members);
    var o := Departure(run, actor);
    DepartureShrinksRoster(run, actor);
    DepartureKeepsRewardsCovered(run, actor);
    DeliveryHandsOut(run.awards, {actor});
    assert IdSet(o.settled) == {actor};
    assert o.session.awards == Deliver(run.awards, {actor});
    if o.session.status == Active {
      var rest := Without(run.members, actor);
      forall m | m in rest && m.id == o.session.leader ensures o.session.leaderHp == m.hp {
        if run.leader == actor {
          assert rest[0] in rest;
          SameMember(rest, m, rest[0]);
        }
      }
    }
  }

  lemma SameMember(members: seq<Member>, m: Member, o: Member)
    requires DistinctMembers(members) && m in members && o in members && m.id == o.id
    ensures m == o
  {
    var i :| 0 <= i < |members| && members[i] == m;
    var j :| 0 <= j < |members| && members[j] == o;
    assert i == j;
  }

  // ---------- whole runs ----------

  function Body(run: Session, turns: seq<Turn>): Session {
    if turns == [] then run else Outcomes(Body(run, turns[..|turns| - 1]), turns[|turns| - 1]).session
  }

  /** All treasure handed out on the way, in order. */
  function HandedOut(run: Session, turns: seq<Turn>): seq<Id> {
    if turns == [] then []
    else HandedOut(run, turns[..|turns| - 1]) + HandedBy(Body(run, turns[..|turns| - 1]), turns[|turns| - 1])
  }

  ghost predicate AllLegal(run: Session, turns: seq<Turn>) {
    forall i :: 0 <= i < |turns| ==> Legal(Body(run, turns[..i]), turns[i])
  }

  lemma TreasuresMoveOn(a: Session, first: seq<Id>, b: Session, second: seq<Id>, c: Session)
    requires TreasuresMove(a, first, b) && TreasuresMove(b, second, c)
    ensures TreasuresMove(a, first + second, c)
  {
    hide Owed;
    assert multiset(first + second) == multiset(first) + multiset(second);
    forall x: Id
      ensures multiset(c.items)[x] + multiset(Owed(a.awards))[x]
        == multiset(a.items)[x] + multiset(first)[x] + multiset(second)[x] + multiset(Owed(c.awards))[x]
    {
      assert (multiset(b.items) + multiset(Owed(a.awards)))[x] == (multiset(a.items) + multiset(first) + multiset(Owed(b.awards)))[x];
      assert (multiset(c.items) + multiset(Owed(b.awards)))[x] == (multiset(b.items) + multiset(second) + multiset(Owed(c.awards)))[x];
    }
  }

  /** The books are kept, and treasure moved from found to handed out. */
  ghost predicate Kept(run: Session, handed: seq<Id>, last: Session) {
    Booked(last) && (last.status == Active ==> Playable(last)) && TreasuresMove(run, handed, last)
  }

  lemma OneMoreTurn(run: Session, handed: seq<Id>, last: Session, t: Turn)
    requires Kept(run, handed, last) && Legal(last, t)
    ensures Kept(run, handed + HandedBy(last, t), Outcomes(last, t).session)
  {
    hide Booked, Playable, Outcomes, HandedBy, TreasuresMove;
    TurnKeepsBooks(last, t);
    TreasuresMoveOn(run, handed, last, HandedBy(last, t), Outcomes(last, t).session);
  }

  lemma NothingMoved(run: Session)
    requires Playable(run) && Booked(run)
    ensures Kept(run, [], run)
  {
    hide Booked, Playable, Owed;
    assert multiset(run.items) + multiset([]) == multiset(run.items);
  }

  lemma {:induction false} RunKeepsBooks(run: Session, turns: seq<Turn>)
    requires Playable(run) && Booked(run) && AllLegal(run, turns)
    ensures Kept(run, HandedOut(run, turns), Body(run, turns))
    decreases |turns|
  {
    hide Booked, Playable, Outcomes, HandedBy, Legal, Kept;
    if turns == [] {
      NothingMoved(run);
    } else {
      var n := |turns| - 1;
      forall i | 0 <= i < n ensures Legal(Body(run, turns[..n][..i]), turns[..n][i]) {
        assert turns[..n][..i] == turns[..i];
      }
      RunKeepsBooks(run, turns[..n]);
      OneMoreTurn(run, HandedOut(run, turns[..n]), Body(run, turns[..n]), turns[n]);
    }
  }

  lemma StartIsBooked(run: Id, leader: Id, members: seq<Member>)
    requires Playable(NewRun(run, leader, members))
    requires forall m :: m in members ==> m.exp == 0 && m.gold == 0
    ensures Booked(NewRun(run, leader, members))
  {
    LeaderHpIsHis(members, leader, 0);
  }

  lemma OverIsSettled(run: Session)
    requires Booked(run) && run.status != Active
    ensures Owed(run.awards) == []
  {
    NothingOwed(run.awards);
  }

  /**
   From its start to its end, in any sequence of accepted rounds and departures, a run hands out every treasure it
   found exactly once; on the way what is not handed out yet belongs to somebody who plays, nobody's buffered reward
   exceeds the run's, and the leader's health is the leading member's.
   */
  lemma TreasuresAreHandedOutOnce(run: Id, leader: Id, members: seq<Member>, turns: seq<Turn>)
    requires Playable(NewRun(run, leader, members))
    requires forall m :: m in members ==> m.exp == 0 && m.gold == 0
    requires AllLegal(NewRun(run, leader, members), turns)
    ensures var start := NewRun(run, leader, members);
      var last := Body(start, turns);
      && multiset(last.items) == multiset(HandedOut(start, turns)) + multiset(Owed(last.awards))
      && (last.status != Active ==> multiset(HandedOut(start, turns)) == multiset(last.items))
      && Booked(last)
  {
    hide Booked, Playable, AllLegal, Owed, HandedOut, Body;
    var start := NewRun(run, leader, members);
    StartIsBooked(run, leader, members);
    RunKeepsBooks(start, turns);
    NothingOwed(start.awards);
    var last, handed := Body(start, turns), HandedOut(start, turns);
    ghost var none: seq<Id> := [];
    assert multiset(last.items) + multiset(none) == multiset(none) + multiset(handed) + multiset(Owed(last.awards));
    assert multiset(last.items) + multiset(none) == multiset(last.items);
    assert multiset(none) + multiset(handed) == multiset(handed);
    if last.status != Active {
      OverIsSettled(last);
    }
  }
}

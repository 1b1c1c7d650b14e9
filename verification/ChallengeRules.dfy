/** What one accepted command computes from the live run: a departure or a round. */
module ChallengeRules {
  import opened Common
  import opened ChallengeTypes

  datatype Monster = Monster(exp: int, gold: int)

  /** Random draws and battle outcome of one round; the engine itself is arbitrary. */
  datatype RoundDraw = RoundDraw(
    threshold: int,
    lucky: bool,
    pool: seq<Id>,
    pick: nat,
    monsters: seq<Monster>,
    won: bool,
    remainingHp: map<Id, int>,
    remainingMp: map<Id, int>)

  datatype Outcome = Outcome(
    session: Session,
    report: Option<RoundReport>,
    settled: seq<Member>,
    removed: seq<Id>)

  // ---------- departure ----------

  const NO_MEMBER := Member(NOBODY, 0, None, 0, 0, 0, 0)

  function Without(members: seq<Member>, actor: Id): seq<Member> {
    if members == [] then []
    else (if members[0].id == actor then [] else [members[0]]) + Without(members[1..], actor)
  }

  function Departing(members: seq<Member>, actor: Id): Member {
    if members == [] then NO_MEMBER
    else if members[|members| - 1].id == actor then members[|members| - 1]
    else Departing(members[..|members| - 1], actor)
  }

  function Deliver(awards: seq<Award>, to: set<Id>): seq<Award> {
    seq(|awards|, i requires 0 <= i < |awards| =>
      if awards[i].recipient in to then awards[i].(delivered := true) else awards[i])
  }

  function AllDelivered(awards: seq<Award>): seq<Award> {
    seq(|awards|, i requires 0 <= i < |awards| => awards[i].(delivered := true))
  }

  function Departure(run: Session, actor: Id): Outcome {
    var rest := Without(run.members, actor);
    var left := run.(members := rest, awards := Deliver(run.awards, {actor}));
    var next :=
      if rest == [] then left.(status := Claimed)
      else if run.leader == actor then left.(leader := rest[0].id, leaderHp := rest[0].hp)
      else left;
    Outcome(next, None, [Departing(run.members, actor)], [actor])
  }

  lemma {:induction false} WithoutRemoves(members: seq<Member>, actor: Id)
    ensures IdSet(Without(members, actor)) == IdSet(members) - {actor}
    ensures forall m :: m in Without(members, actor) <==> m in members && m.id != actor
    ensures |Without(members, actor)| <= |members|
  {
    if members != [] {
      WithoutRemoves(members[1..], actor);
      assert members == [members[0]] + members[1..];
    }
  }

  lemma {:induction false} WithoutKeepsDistinct(members: seq<Member>, actor: Id)
    requires DistinctMembers(members)
    ensures DistinctMembers(Without(members, actor))
  {
    if members != [] {
      WithoutKeepsDistinct(members[1..], actor);
      WithoutRemoves(members[1..], actor);
    }
  }

  lemma {:induction false} DepartingIsActor(members: seq<Member>, actor: Id)
    requires actor in IdSet(members)
    ensures Departing(members, actor) in members
    ensures Departing(members, actor).id == actor
  {
    var n := |members| - 1;
    if members[n].id != actor {
      assert members == members[..n] + [members[n]];
      DepartingIsActor(members[..n], actor);
    }
  }

  /** A departure settles exactly the actor, keeps every survivor verbatim and leaves a leader in the roster. */
  lemma DepartureShrinksRoster(run: Session, actor: Id)
    requires run.status == Active && DistinctMembers(run.members)
    requires actor in IdSet(run.members) && run.leader in IdSet(run.members)
    ensures var o := Departure(run, actor);
      && Roster(o.session) == Roster(run) - {actor}
      && DistinctMembers(o.session.members)
      && (forall m :: m in o.session.members <==> m in run.members && m.id != actor)
      && (o.session.status == Active ==> o.session.leader in IdSet(o.session.members))
      && (o.session.status == Active <==> o.session.members != [])
      && |o.settled| == 1 && o.settled[0] in run.members && o.settled[0].id == actor
  {
    WithoutRemoves(run.members, actor);
    WithoutKeepsDistinct(run.members, actor);
    DepartingIsActor(run.members, actor);
    var rest := Without(run.members, actor);
    if rest != [] {
      assert rest[0] in rest;
      assert forall m :: m in rest ==> m.id in IdSet(rest);
    }
  }

  // ---------- a round ----------

  function Clamp(value: int, limit: int): int {
    if limit > 0 then Min(Max(0, value), limit) else Max(0, value)
  }

  predicate FoundTreasure(run: Session, draw: RoundDraw) {
    run.items == [] && draw.pool != [] && run.round >= draw.threshold && draw.lucky
  }

  predicate SomeoneStands(members: seq<Member>) {
    exists m :: m in members && m.hp > 0
  }

  predicate WonBattle(run: Session, draw: RoundDraw) {
    draw.won && SomeoneStands(run.members)
  }

  function TotalExp(monsters: seq<Monster>): int {
    if monsters == [] then 0 else TotalExp(monsters[..|monsters| - 1]) + monsters[|monsters| - 1].exp
  }

  function TotalGold(monsters: seq<Monster>): int {
    if monsters == [] then 0 else TotalGold(monsters[..|monsters| - 1]) + monsters[|monsters| - 1].gold
  }

  /** Without a living ally no battle is fought and nobody's remaining HP is reported. */
  function ReportedHp(run: Session, draw: RoundDraw): map<Id, int> {
    if SomeoneStands(run.members) then draw.remainingHp else map[]
  }

  function ReportedMp(run: Session, draw: RoundDraw): map<Id, int> {
    if SomeoneStands(run.members) then draw.remainingMp else map[]
  }

  function AfterBattle(m: Member, hp: map<Id, int>, mp: map<Id, int>, won: bool): Member {
    m.(hp := if m.id in hp then Clamp(hp[m.id], m.maxHp) else if won then m.hp else 0,
       mp := if m.id in mp then Some(Clamp(mp[m.id], m.maxMp)) else m.mp)
  }

  function Rewarded(m: Member, exp: int, gold: int): Member {
    if m.hp > 0 then m.(exp := m.exp + exp, gold := m.gold + gold) else m
  }

  function BattleMembers(run: Session, draw: RoundDraw): (members: seq<Member>)
    ensures |members| == |run.members|
  {
    seq(|run.members|, i requires 0 <= i < |run.members| =>
      AfterBattle(run.members[i], ReportedHp(run, draw), ReportedMp(run, draw), WonBattle(run, draw)))
  }

  function LeaderHp(members: seq<Member>, leader: Id, before: int): int {
    if members == [] then before
    else if members[|members| - 1].id == leader then members[|members| - 1].hp
    else LeaderHp(members[..|members| - 1], leader, before)
  }

  function RewardedMembers(members: seq<Member>, exp: int, gold: int): (after: seq<Member>)
    ensures |after| == |members|
  {
    seq(|members|, i requires 0 <= i < |members| => Rewarded(members[i], exp, gold))
  }

  function Round(run: Session, draw: RoundDraw): Outcome {
    if FoundTreasure(run, draw) then
      var item := draw.pool[draw.pick % |draw.pool|];
      Outcome(
        run.(round := run.round + 1, items := run.items + [item], awards := run.awards + [Award(item, run.leader, false)]),
        Some(RoundReport(run.round, true, 0, 0, item, false)), [], [])
    else
      var fought := BattleMembers(run, draw);
      if WonBattle(run, draw) then
        var exp, gold := TotalExp(draw.monsters), TotalGold(draw.monsters);
        Outcome(
          run.(members := RewardedMembers(fought, exp, gold),
               leaderHp := LeaderHp(fought, run.leader, run.leaderHp),
               round := run.round + 1, exp := run.exp + exp, gold := run.gold + gold),
          Some(RoundReport(run.round, true, exp, gold, NOBODY, false)), [], [])
      else
        Outcome(
          run.(members := fought, leaderHp := 0, status := Defeated,
               awards := AllDelivered(run.awards)),
          Some(RoundReport(run.round, false, 0, 0, NOBODY, true)), fought, Ids(fought))
  }

  /** A round never changes who is enrolled, and it settles everybody or nobody. */
  lemma RoundKeepsEnrolment(run: Session, draw: RoundDraw)
    requires run.status == Active
    ensures var o := Round(run, draw);
      && Ids(o.session.members) == Ids(run.members)
      && IdSet(o.session.members) == IdSet(run.members)
      && o.session.leader == run.leader
      && (DistinctMembers(run.members) ==> DistinctMembers(o.session.members))
      && (o.session.status == Active ==> o.settled == [] && o.removed == [] && o.session.round == run.round + 1)
      && (o.session.status != Active ==> o.settled == o.session.members && o.removed == Ids(run.members))
  {
    var o := Round(run, draw);
    assert forall i :: 0 <= i < |run.members| ==> o.session.members[i].id == run.members[i].id;
    assert Ids(o.session.members) == Ids(run.members);
    SameIdsSameSet(o.session.members, run.members);
  }

  lemma SameIdsSameSet(a: seq<Member>, b: seq<Member>)
    requires Ids(a) == Ids(b)
    ensures IdSet(a) == IdSet(b)
  {
    forall x ensures x in IdSet(a) <==> x in IdSet(b) {
      if x in IdSet(a) {
        var i :| 0 <= i < |a| && a[i].id == x;
        assert Ids(a)[i] == Ids(b)[i];
        assert b[i] in b;
      }
      if x in IdSet(b) {
        var i :| 0 <= i < |b| && b[i].id == x;
        assert Ids(a)[i] == Ids(b)[i];
        assert a[i] in a;
      }
    }
  }

  /** Nobody's buffered reward exceeds the run's total, round after round. */
  ghost predicate RewardsCovered(run: Session) {
    && 0 <= run.exp && 0 <= run.gold
    && forall m :: m in run.members ==> 0 <= m.exp <= run.exp && 0 <= m.gold <= run.gold
  }

  lemma {:induction false} TotalsNonNegative(monsters: seq<Monster>)
    requires forall m :: m in monsters ==> 0 <= m.exp && 0 <= m.gold
    ensures 0 <= TotalExp(monsters) && 0 <= TotalGold(monsters)
  {
    if monsters != [] {
      TotalsNonNegative(monsters[..|monsters| - 1]);
    }
  }

  lemma RoundKeepsRewardsCovered(run: Session, draw: RoundDraw)
    requires run.status == Active && RewardsCovered(run)
    requires forall m :: m in draw.monsters ==> 0 <= m.exp && 0 <= m.gold
    ensures RewardsCovered(Round(run, draw).session)
    ensures forall m :: m in Round(run, draw).settled ==> 0 <= m.exp <= run.exp && 0 <= m.gold <= run.gold
  {
    TotalsNonNegative(draw.monsters);
    var o := Round(run, draw);
    forall i | 0 <= i < |o.session.members|
      ensures var m := o.session.members[i]; 0 <= m.exp <= o.session.exp && 0 <= m.gold <= o.session.gold
    {
      assert run.members[i] in run.members;
    }
  }

  lemma DepartureKeepsRewardsCovered(run: Session, actor: Id)
    requires run.status == Active && RewardsCovered(run) && actor in IdSet(run.members)
    ensures RewardsCovered(Departure(run, actor).session)
    ensures forall m :: m in Departure(run, actor).settled ==> 0 <= m.exp <= run.exp && 0 <= m.gold <= run.gold
  {
    WithoutRemoves(run.members, actor);
    DepartingIsActor(run.members, actor);
  }

  // ---------- the loops that compute these ----------

  method MarkDelivered(before: seq<Award>, actor: Id) returns (awards: seq<Award>)
    ensures awards == Deliver(before, {actor})
  {
    awards := before;
    for i := 0 to |awards|
      invariant |awards| == |before|
      invariant forall k :: 0 <= k < i ==> awards[k] == Deliver(before, {actor})[k]
      invariant forall k :: i <= k < |awards| ==> awards[k] == before[k]
    {
      if awards[i].recipient == actor {
        awards := awards[i := awards[i].(delivered := true)];
      }
    }
  }

  method MarkAllDelivered(before: seq<Award>) returns (awards: seq<Award>)
    ensures awards == AllDelivered(before)
  {
    awards := before;
    for i := 0 to |awards|
      invariant |awards| == |before|
      invariant forall k :: 0 <= k < i ==> awards[k] == before[k].(delivered := true)
      invariant forall k :: i <= k < |awards| ==> awards[k] == before[k]
    {
      awards := awards[i := awards[i].(delivered := true)];
    }
  }

  method Reward(before: seq<Member>, exp: int, gold: int) returns (members: seq<Member>)
    ensures members == RewardedMembers(before, exp, gold)
  {
    members := before;
    for i := 0 to |members|
      invariant |members| == |before|
      invariant forall k :: 0 <= k < i ==> members[k] == Rewarded(before[k], exp, gold)
      invariant forall k :: i <= k < |members| ==> members[k] == before[k]
    {
      if members[i].hp > 0 {
        members := members[i := members[i].(exp := members[i].exp + exp, gold := members[i].gold + gold)];
      }
    }
  }

  lemma WithoutNext(kept: seq<Member>, rest: seq<Member>, actor: Id)
    requires rest != []
    ensures kept + Without(rest, actor) == (if rest[0].id == actor then kept else kept + [rest[0]]) + Without(rest[1..], actor)
  {
  }

  method SplitMembers(members: seq<Member>, actor: Id) returns (departing: Member, remaining: seq<Member>)
    ensures departing == Departing(members, actor)
    ensures remaining == Without(members, actor)
  {
    hide Without;
    departing, remaining := NO_MEMBER, [];
    assert members[0..] == members;
    for i := 0 to |members|
      invariant departing == Departing(members[..i], actor)
      invariant remaining + Without(members[i..], actor) == Without(members, actor)
    {
      var m := members[i];
      assert members[..i + 1][..i] == members[..i];
      assert members[i..][1..] == members[i + 1..];
      WithoutNext(remaining, members[i..], actor);
      if m.id == actor {
        departing := m;
      } else {
        remaining := remaining + [m];
      }
    }
    assert members[..|members|] == members;
    NobodyLeft(actor);
    assert members[|members|..] == [];
  }

  lemma NobodyLeft(actor: Id)
    ensures Without([], actor) == []
  {
  }

  method ExitMembers(run: Session, actor: Id) returns (outcome: Outcome)
    ensures outcome == Departure(run, actor)
  {
    var departing, remaining := SplitMembers(run.members, actor);
    var awards := MarkDelivered(run.awards, actor);
    var next := run.(members := remaining, awards := awards);
    if remaining == [] {
      next := next.(status := Claimed);
    } else if run.leader == actor {
      next := next.(leader := remaining[0].id, leaderHp := remaining[0].hp);
    }
    outcome := Outcome(next, None, [departing], [actor]);
  }

  method FightRound(run: Session, draw: RoundDraw) returns (members: seq<Member>, leaderHp: int)
    ensures members == BattleMembers(run, draw)
    ensures leaderHp == LeaderHp(members, run.leader, run.leaderHp)
  {
    var hp, mp, won := ReportedHp(run, draw), ReportedMp(run, draw), WonBattle(run, draw);
    members := run.members;
    leaderHp := run.leaderHp;
    for i := 0 to |members|
      invariant |members| == |run.members|
      invariant forall k :: 0 <= k < i ==> members[k] == BattleMembers(run, draw)[k]
      invariant forall k :: i <= k < |members| ==> members[k] == run.members[k]
      invariant leaderHp == LeaderHp(members[..i], run.leader, run.leaderHp)
    {
      var m := members[i];
      if m.id in hp {
        m := m.(hp := Clamp(hp[m.id], m.maxHp));
      } else if !won {
        m := m.(hp := 0);
      }
      if m.id in mp {
        m := m.(mp := Some(Clamp(mp[m.id], m.maxMp)));
      }
      ghost var before := members[..i];
      members := members[i := m];
      assert members[..i + 1][..i] == before;
      if m.id == run.leader {
        leaderHp := m.hp;
      }
    }
    assert members[..|members|] == members;
  }

  method ComputeRound(run: Session, draw: RoundDraw) returns (outcome: Outcome)
    ensures outcome == Round(run, draw)
  {
    if FoundTreasure(run, draw) {
      var item := draw.pool[draw.pick % |draw.pool|];
      var next := run.(round := run.round + 1, items := run.items + [item],
                       awards := run.awards + [Award(item, run.leader, false)]);
      return Outcome(next, Some(RoundReport(run.round, true, 0, 0, item, false)), [], []);
    }
    var exp, gold := 0, 0;
    for i := 0 to |draw.monsters|
      invariant exp == TotalExp(draw.monsters[..i]) && gold == TotalGold(draw.monsters[..i])
    {
      assert draw.monsters[..i + 1][..i] == draw.monsters[..i];
      exp := exp + draw.monsters[i].exp;
      gold := gold + draw.monsters[i].gold;
    }
    assert draw.monsters[..|draw.monsters|] == draw.monsters;
    var fought, leaderHp := FightRound(run, draw);
    if WonBattle(run, draw) {
      var members := Reward(fought, exp, gold);
      var next := run.(members := members, leaderHp := leaderHp, round := run.round + 1,
                       exp := run.exp + exp, gold := run.gold + gold);
      return Outcome(next, Some(RoundReport(run.round, true, exp, gold, NOBODY, false)), [], []);
    }
    var removed: seq<Id> := [];
    for i := 0 to |fought|
      invariant removed == Ids(fought)[..i]
    {
      removed := removed + [fought[i].id];
    }
    var awards := MarkAllDelivered(run.awards);
    var over := run.(members := fought, leaderHp := 0, status := Defeated, awards := awards);
    assert removed == Ids(fought);
    outcome := Outcome(over, Some(RoundReport(run.round, false, 0, 0, NOBODY, true)), fought, removed);
  }
}

/** What a round and a departure do, told by the draw, the members and the reports alone. */
module ChallengeRounds {
  import opened Common
  import opened ChallengeTypes
  import opened ChallengeRules

  // ---------- treasure ----------

  /**
   A treasure is found exactly by a run that has none yet, from a pool that holds some, from the threshold round on and
   with luck. It comes out of the pool, is owed to the leader, and costs and earns nobody anything.
   */
  lemma TreasureIsFoundIff(run: Session, draw: RoundDraw)
    requires run.status == Active
    ensures var o := Round(run, draw);
      && o.report.Some?
      && (o.session.items != run.items <==> run.items == [] && draw.pool != [] && run.round >= draw.threshold && draw.lucky)
      && (o.session.items != run.items ==>
            && |o.session.items| == 1 && o.session.items[0] in draw.pool && o.report.value.item == o.session.items[0]
            && o.session.awards == run.awards + [Award(o.session.items[0], run.leader, false)]
            && o.session.members == run.members && o.session.leaderHp == run.leaderHp
            && o.session.exp == run.exp && o.session.gold == run.gold && o.session.status == Active
            && o.session.round == run.round + 1
            && o.report.value.won && !o.report.value.ended && o.settled == [])
  {
  }

  // ---------- battles ----------

  predicate Fights(run: Session, draw: RoundDraw) {
    run.status == Active && (run.items != [] || draw.pool == [] || run.round < draw.threshold || !draw.lucky)
  }

  /**
   A battle is won exactly when the engine says so and somebody stood to fight it, and the run goes on exactly when it
   is won. A won round moves to the next one and leaves treasures alone; a lost one ends the run where it is, hands out
   every treasure and settles the whole roster.
   */
  lemma RoundIsWonIff(run: Session, draw: RoundDraw)
    requires Fights(run, draw)
    ensures var o := Round(run, draw);
      && o.report.Some? && o.report.value.item == NOBODY && o.session.items == run.items
      && (o.report.value.won <==> draw.won && exists m :: m in run.members && m.hp > 0)
      && (o.session.status == Active <==> o.report.value.won) && (o.report.value.ended <==> !o.report.value.won)
      && (o.report.value.won ==> o.session.round == run.round + 1 && o.session.awards == run.awards && o.settled == [])
      && (!o.report.value.won ==>
            && o.session.status == Defeated && o.session.round == run.round && o.session.leaderHp == 0
            && |o.session.awards| == |run.awards|
            && (forall k :: 0 <= k < |run.awards| ==> o.session.awards[k] == run.awards[k].(delivered := true))
            && o.settled == o.session.members)
  {
  }

  /** A reported amount is kept within zero and its limit, where there is one. */
  predicate Within(reported: int, limit: int, kept: int) {
    && 0 <= kept && (limit > 0 ==> kept <= limit)
    && (0 <= reported && (limit > 0 ==> reported <= limit) ==> kept == reported)
    && (reported < 0 ==> kept == 0)
    && (limit > 0 && reported > limit ==> kept == limit)
  }

  /**
   What a battle leaves of a member. Reported health and magic are taken over within their limits, and nothing is
   reported when nobody stood. An unreported member keeps its health on a win and has none on a loss.
   */
  lemma BattleLeaves(run: Session, draw: RoundDraw, i: nat)
    requires Fights(run, draw) && i < |run.members|
    ensures var o := Round(run, draw);
      var before, after := run.members[i], o.session.members[i];
      var stood := exists m :: m in run.members && m.hp > 0;
      && (stood && before.id in draw.remainingHp ==> Within(draw.remainingHp[before.id], before.maxHp, after.hp))
      && (!stood || before.id !in draw.remainingHp ==> after.hp == if o.report.value.won then before.hp else 0)
      && (stood && before.id in draw.remainingMp ==> after.mp.Some? && Within(draw.remainingMp[before.id], before.maxMp, after.mp.value))
      && (!stood || before.id !in draw.remainingMp ==> after.mp == before.mp)
      && after.maxHp == before.maxHp && after.maxMp == before.maxMp
  {
    var fought := BattleMembers(run, draw);
    if WonBattle(run, draw) {
      assert Round(run, draw).session.members[i] == Rewarded(fought[i], TotalExp(draw.monsters), TotalGold(draw.monsters));
    }
  }

  /** A round lost reports nothing earned; a round won reports nothing without monsters and what one more monster adds. */
  lemma MonstersPay(run: Session, draw: RoundDraw, monster: Monster)
    requires Fights(run, draw)
    ensures var r := Round(run, draw).report.value;
      var none, more := Round(run, draw.(monsters := [])).report.value, Round(run, draw.(monsters := draw.monsters + [monster])).report.value;
      && (!r.won ==> r.exp == 0 && r.gold == 0)
      && none.exp == 0 && none.gold == 0 && none.won == r.won && more.won == r.won
      && (r.won ==> more.exp == r.exp + monster.exp && more.gold == r.gold + monster.gold)
  {
    assert (draw.monsters + [monster])[..|draw.monsters|] == draw.monsters;
  }

  // ---------- departures ----------

  /** Those who stay keep their order, and a leader who goes is followed by the first of them, with that member's health. */
  lemma {:induction false} StayersKeepOrder(members: seq<Member>, actor: Id, i: nat, j: nat)
    requires i < j < |Without(members, actor)|
    ensures exists k: nat, l: nat :: k < l < |members| && members[k] == Without(members, actor)[i] && members[l] == Without(members, actor)[j]
    decreases |members|
  {
    var rest := Without(members[1..], actor);
    if members[0].id == actor {
      StayersKeepOrder(members[1..], actor, i, j);
      var k: nat, l: nat :| k < l < |members[1..]| && members[1..][k] == rest[i] && members[1..][l] == rest[j];
      assert members[k + 1] == rest[i] && members[l + 1] == rest[j];
    } else if i == 0 {
      WithoutRemoves(members[1..], actor);
      assert rest[j - 1] in members[1..];
      var l :| 0 <= l < |members[1..]| && members[1..][l] == rest[j - 1];
      assert members[0] == Without(members, actor)[0] && members[l + 1] == Without(members, actor)[j];
    } else {
      StayersKeepOrder(members[1..], actor, i - 1, j - 1);
      var k: nat, l: nat :| k < l < |members[1..]| && members[1..][k] == rest[i - 1] && members[1..][l] == rest[j - 1];
      assert members[k + 1] == Without(members, actor)[i] && members[l + 1] == Without(members, actor)[j];
    }
  }

  /**
   A departure claims the run exactly when nobody stays; otherwise it goes on as it was, led by its leader, or by the
   first member who stays when the leader goes. The leaver's treasures are handed out and nobody else's.
   */
  lemma DepartureHandsOver(run: Session, actor: Id)
    requires run.status == Active && DistinctMembers(run.members) && actor in IdSet(run.members)
    ensures var o := Departure(run, actor);
      var stay := o.session.members;
      && (o.session.status == Claimed <==> stay == []) && (o.session.status == Active <==> stay != [])
      && (stay != [] && run.leader != actor ==> o.session.leader == run.leader && o.session.leaderHp == run.leaderHp)
      && (stay != [] && run.leader == actor ==> o.session.leader == stay[0].id && o.session.leaderHp == stay[0].hp)
      && o.removed == [actor] && o.report == None
      && o.session.round == run.round && o.session.exp == run.exp && o.session.gold == run.gold && o.session.items == run.items
      && |o.session.awards| == |run.awards|
      && (forall k :: 0 <= k < |run.awards| ==>
            o.session.awards[k] == if run.awards[k].recipient == actor then run.awards[k].(delivered := true) else run.awards[k])
  {
  }
}

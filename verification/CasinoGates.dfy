/** Who may enter, leave, start and act at a table and what that does, told by the room and its members alone. */
module CasinoGates {
  import opened Common
  import opened CasinoTable
  import opened CasinoRules
  import opened CasinoCoins
  import opened CasinoBetting
  import opened CasinoDealing
  import opened CasinoRooms
  import opened CasinoShowdowns

  // ---------- members ----------

  lemma HasIff(members: seq<Member>, id: Id)
    ensures MemberAt(members, id).Some? <==> Has(members, id)
  {
    FoundMember(members, id);
  }

  lemma SittingCount(room: Room)
    requires DistinctMembers(room.members)
    ensures Players(room) == |Those(room.members, Sits)|
  {
    CountSitting(room.members);
  }

  // ---------- coming and going ----------

  /** A room is opened with its creator in it by somebody who can pay five bets, or one in doppelganger, at a rate of the list. */
  lemma CreatedIff(accounts: Accounts, id: Id, doppel: bool, maxPlayers: int, rate: int, spectators: bool)
    ensures var r := CreateRoom(accounts, id, doppel, maxPlayers, rate, spectators);
      && (r.Success? <==> (id != NOBODY && 2 <= maxPlayers <= 8
            && (if doppel then rate >= 10 else rate in {1, 5, 10, 20, 50, 100, 500, 1000, 5000})
            && Coins(accounts, id) >= (if doppel then rate else 5 * rate)))
      && (r.Success? ==>
            && r.value.members == [Member(id, false, Waiting, -1)] && r.value.leader == id && r.value.round == 0 && r.value.pot == 0
            && r.value.rate == rate && r.value.maxPlayers == maxPlayers && r.value.spectators == spectators
            && r.value.status == Gathering && r.value.winners == [] && r.value.currentBet == rate && r.value.maxBet == 5 * rate)
  {
  }

  /** A character with a bet in hand takes a free seat of a room that is open, without a card and last in line. */
  lemma JoinedIff(t: Table, id: Id, exhausted: bool)
    requires DistinctMembers(t.room.members)
    ensures var r := Join(t, id, exhausted);
      && (r.Success? <==> (id != NOBODY && !exhausted && t.room.status != Disbanded && Coins(t.accounts, id) >= t.room.rate
            && !Has(t.room.members, id) && |Those(t.room.members, Sits)| < t.room.maxPlayers))
      && (r.Success? ==> r.value == t.room.(members := t.room.members + [Member(id, false, Waiting, -1)]))
  {
    HasIff(t.room.members, id);
    SittingCount(t.room);
    hide Has, Those, MemberAt, Participants, DistinctMembers;
  }

  lemma SpectatedIff(room: Room, id: Id)
    ensures var r := Spectate(room, id);
      && (r.Success? <==> (id != NOBODY && room.status != Disbanded && room.spectators && !Has(room.members, id)))
      && (r.Success? ==> r.value == room.(members := room.members + [Member(id, true, Idle, -1)]))
  {
    HasIff(room.members, id);
    hide Has, MemberAt;
  }

  /** Without one member everybody else is there, in order. */
  ghost predicate AllBut(before: seq<Member>, after: seq<Member>, id: Id) {
    && (forall m :: m in after <==> m in before && m.id != id)
    && (forall i, j :: 0 <= i < j < |after| ==> exists k, l :: 0 <= k < l < |before| && before[k] == after[i] && before[l] == after[j])
  }

  lemma {:induction false} WithoutKeepsOrder(members: seq<Member>, id: Id, i: nat, j: nat)
    requires i < j < |WithoutMember(members, id)|
    ensures exists k, l :: 0 <= k < l < |members| && members[k] == WithoutMember(members, id)[i] && members[l] == WithoutMember(members, id)[j]
    decreases |members|
  {
    var n := |members| - 1;
    var rest := WithoutMember(members[..n], id);
    if j < |rest| {
      WithoutKeepsOrder(members[..n], id, i, j);
      var k, l :| 0 <= k < l < n && members[..n][k] == rest[i] && members[..n][l] == rest[j];
      assert members[k] == rest[i] && members[l] == rest[j];
    } else {
      WithoutMemberIn(members[..n], id, rest[i]);
      var k :| 0 <= k < n && members[..n][k] == rest[i];
      assert members[k] == rest[i] && members[n] == WithoutMember(members, id)[j];
    }
  }

  lemma WithoutIsAllBut(members: seq<Member>, id: Id)
    ensures AllBut(members, WithoutMember(members, id), id)
  {
    forall m ensures m in WithoutMember(members, id) <==> m in members && m.id != id {
      WithoutMemberIn(members, id, m);
    }
    var after := WithoutMember(members, id);
    forall i, j | 0 <= i < j < |after|
      ensures exists k, l :: 0 <= k < l < |members| && members[k] == after[i] && members[l] == after[j]
    {
      WithoutKeepsOrder(members, id, i, j);
    }
  }

  /** The first at the table, in order. */
  predicate FirstAtTable(members: seq<Member>, id: Id) {
    exists i :: 0 <= i < |members| && !members[i].spectator && members[i].id == id && forall j :: 0 <= j < i ==> members[j].spectator
  }

  lemma {:induction false} FirstParticipantIs(members: seq<Member>)
    requires Participants(members) != []
    ensures FirstAtTable(members, Participants(members)[0].id)
    decreases |members|
  {
    var n := |members| - 1;
    if Participants(members[..n]) == [] {
      forall j | 0 <= j < n ensures members[j].spectator {
        InParticipants(members[..n], members[j]);
      }
      assert !members[n].spectator;
    } else {
      FirstParticipantIs(members[..n]);
      var i :| 0 <= i < n && !members[..n][i].spectator && members[..n][i].id == Participants(members[..n])[0].id
        && forall j :: 0 <= j < i ==> members[..n][j].spectator;
      assert !members[i].spectator && forall j :: 0 <= j < i ==> members[j].spectator;
    }
  }

  lemma LeftIff(room: Room, id: Id)
    ensures Leave(room, id).Success? <==> id != NOBODY && Has(room.members, id)
  {
    HasIff(room.members, id);
    hide Has, MemberAt, WithoutMember, Participants;
  }

  predicate SomebodySits(members: seq<Member>) {
    exists m :: m in members && !m.spectator
  }

  lemma SittingIff(members: seq<Member>)
    ensures SomebodySits(members) <==> Participants(members) != []
  {
    SittingAre(members);
    if Participants(members) != [] { assert Participants(members)[0] in Participants(members); }
  }

  /**
   A spectator leaves nothing behind. When one of those at the table goes, the room closes with the last of them;
   otherwise the first who stays leads once the leader goes.
   */
  lemma LeftHow(room: Room, m: Member)
    requires DistinctMembers(room.members) && m in room.members && m.id != NOBODY
    ensures Leave(room, m.id).Success?
    ensures var after := Leave(room, m.id).value;
      && AllBut(room.members, after.members, m.id) && after == room.(members := after.members, status := after.status, leader := after.leader)
      && if m.spectator then after.status == room.status && after.leader == room.leader
         else if !SomebodySits(after.members) then after.status == Disbanded && after.leader == room.leader
         else after.status == room.status && if room.leader == m.id then FirstAtTable(after.members, after.leader) else after.leader == room.leader
  {
    FoundMember(room.members, m.id);
    SameHand(room.members, m, MemberAt(room.members, m.id).value);
    WithoutIsAllBut(room.members, m.id);
    var left := WithoutMember(room.members, m.id);
    SittingIff(left);
    if Participants(left) != [] {
      FirstParticipantIs(left);
    }
    hide AllBut, FirstAtTable, WithoutMember, Participants, DistinctMembers, MemberAt, SomebodySits;
  }

  /** The leader may send another member away between two games. */
  lemma KickedIff(room: Room, leader: Id, id: Id)
    ensures var r := Kick(room, leader, id);
      && (r.Success? <==> (leader != NOBODY && id != NOBODY && leader != id && room.leader == leader && room.round <= 0 && Has(room.members, id)))
      && (r.Success? ==> AllBut(room.members, r.value.members, id) && r.value == room.(members := r.value.members))
  {
    HasIff(room.members, id);
    WithoutIsAllBut(room.members, id);
    hide AllBut, WithoutMember, MemberAt, Has;
  }

  // ---------- starting ----------

  predicate MayStart(room: Room, leader: Id) {
    leader != NOBODY && room.leader == leader && room.round <= 0 && |Those(room.members, Sits)| >= 2
  }

  lemma StartRefusedIff(room: Room, leader: Id)
    requires DistinctMembers(room.members)
    ensures StartRefusal(room, leader).None? <==> MayStart(room, leader)
  {
    SittingCount(room);
    hide Those, Participants;
  }

  /** A game of cards starts for the leader of two or more, with the first bet at the rate and the last at five times it. */
  lemma CardsStartWith(room: Room, leader: Id, draws: seq<nat>)
    requires DistinctMembers(room.members) && StartCards(room, leader, draws).Success?
    ensures MayStart(room, leader)
    ensures var s := StartCards(room, leader, draws).value;
      && s == room.(members := s.members, round := 1, status := InProgress, currentBet := room.rate, maxBet := 5 * room.rate, pot := 0, winners := [])
      && DealtFrom(room.members, s.members, Deck(13))
  {
    StartRefusedIff(room, leader);
    StartDealsDistinctHands(room, leader, draws);
    hide Deal, DealtFrom, Those, Participants;
  }

  /** Doppelganger starts for the leader of two or more, with nobody's mark down. */
  lemma DoppelStartsIff(room: Room, leader: Id)
    requires DistinctMembers(room.members)
    ensures StartDoppel(room, leader).Success? <==> MayStart(room, leader)
    ensures StartDoppel(room, leader).Success? ==>
      var s := StartDoppel(room, leader).value;
      && s == room.(members := s.members, round := 1, status := InProgress, currentBet := room.rate, maxBet := room.rate, pot := 0, winners := [])
      && |s.members| == |room.members|
      && forall i :: 0 <= i < |s.members| ==>
           s.members[i] == if room.members[i].spectator then room.members[i] else room.members[i].(card := -1, move := Idle)
  {
    StartRefusedIff(room, leader);
    hide Those, Participants;
  }

  // ---------- acting ----------

  /** A member at the table of a running game. */
  predicate Seated(room: Room, m: Member) {
    m in room.members && !m.spectator && m.id != NOBODY && room.round > 0 && room.status == InProgress
  }

  lemma SeatedIff(room: Room, id: Id)
    requires DistinctMembers(room.members)
    ensures PlayRefusal(room, id).None? <==> exists m :: Seated(room, m) && m.id == id
    ensures ActRefusal(room, id).None? <==> exists m :: Seated(room, m) && m.id == id && (m.move == Idle || m.move == Waiting)
  {
    FoundMember(room.members, id);
    var found := MemberAt(room.members, id);
    if found.Some? {
      forall m | m in room.members && m.id == id ensures m == found.value { SameHand(room.members, m, found.value); }
      assert PlayRefusal(room, id).None? ==> Seated(room, found.value);
    }
    hide MemberAt;
  }

  /** In Indian poker whoever has not acted calls, shows down or folds. */
  lemma IndianPlayedIff(t: Table, id: Id, move: Move)
    requires DistinctMembers(t.room.members)
    ensures PlayIndian(t, id, move).Success? <==>
      (move == Called || move == Showdown || move == Folded)
      && exists m :: Seated(t.room, m) && m.id == id && (m.move == Idle || m.move == Waiting)
  {
    SeatedIff(t.room, id);
    hide PlayRefusal, Seated, IndianOver, IndianShowdown, Acted, AllActed;
    if id == NOBODY {
      hide *;
      NobodyActs(t.room, id);
    }
  }

  lemma NobodyActs(room: Room, id: Id)
    requires id == NOBODY
    ensures forall m :: Seated(room, m) ==> m.id != id
  {
  }

  /** In high-low whoever has not acted calls, declares high or folds, and declares low at a table of more than two. */
  lemma HighLowPlayedIff(t: Table, id: Id, move: Move)
    requires DistinctMembers(t.room.members)
    ensures PlayHighLow(t, id, move).Success? <==>
      (move == Called || move == High || move == Folded || (move == Low && |Those(t.room.members, Sits)| > 2))
      && exists m :: Seated(t.room, m) && m.id == id && (m.move == Idle || m.move == Waiting)
  {
    SeatedIff(t.room, id);
    SittingCount(t.room);
    hide ActRefusal, Seated, HighLowOver, HighLowShowdown, Acted, AllActed, Those, Participants;
  }

  /** In doppelganger everybody at the table may put down or change a mark, one of as many as there are people and one more, up to eight. */
  lemma DoppelPlayedIff(t: Table, id: Id, mark: int, draw: nat)
    requires DistinctMembers(t.room.members)
    ensures PlayDoppel(t, id, mark, draw).Success? <==>
      0 <= mark <= 7 && mark <= |Those(t.room.members, Sits)| && exists m :: Seated(t.room, m) && m.id == id
  {
    SeatedIff(t.room, id);
    SittingCount(t.room);
    hide PlayRefusal, Seated, DoppelShowdown, AllMarked, MarkStake, Those, Participants;
  }

  // ---------- after a game ----------

  /** Those at the table who have coins left wait for the next game, in order; those without are gone; spectators stay. */
  lemma {:induction false} SurvivorsKeepOrder(members: seq<Member>, accounts: Accounts, i: nat)
    requires i < |Survivors(members, accounts)|
    ensures exists k :: 0 <= k < |members| && Kept(members[k], Survivors(members, accounts)[i], accounts)
    decreases |members|
  {
    var n := |members| - 1;
    var before := Survivors(members[..n], accounts);
    if i < |before| {
      SurvivorsKeepOrder(members[..n], accounts, i);
      var k :| 0 <= k < n && Kept(members[..n][k], before[i], accounts);
      assert Kept(members[k], before[i], accounts);
    } else {
      assert Kept(members[n], Survivors(members, accounts)[i], accounts);
    }
  }

  predicate Kept(before: Member, after: Member, accounts: Accounts) {
    if before.spectator then after == before else Coins(accounts, before.id) > 0 && after == before.(move := Waiting)
  }

  lemma {:induction false} SurvivorsComplete(members: seq<Member>, accounts: Accounts, m: Member)
    requires m in members && (m.spectator || Coins(accounts, m.id) > 0)
    ensures (if m.spectator then m else m.(move := Waiting)) in Survivors(members, accounts)
    decreases |members|
  {
    var n := |members| - 1;
    if m != members[n] {
      SurvivorsComplete(members[..n], accounts, m);
    }
  }

  /** A table after its game: between two games, nothing in the pot, and everybody who can still bet waiting for the next. */
  ghost predicate Cleared(t: Table, u: Table) {
    && u.room.round == 0 && u.room.status == Gathering && u.room.pot == 0
    && u.room.rate == t.room.rate && u.room.maxBet == t.room.maxBet && u.room.maxPlayers == t.room.maxPlayers && u.room.spectators == t.room.spectators
    && (forall o :: o in u.room.members ==> exists m :: m in t.room.members && Remains(m, o, u.accounts))
    && (forall m :: m in t.room.members && (m.spectator || Coins(u.accounts, m.id) > 0) ==> HasPlace(u.room.members, m))
  }

  predicate HasPlace(members: seq<Member>, m: Member) {
    exists o :: o in members && o.id == m.id && o.spectator == m.spectator
  }

  predicate Remains(m: Member, o: Member, accounts: Accounts) {
    o.id == m.id && o.spectator == m.spectator && (!m.spectator ==> Coins(accounts, m.id) > 0 && o.move == Waiting)
  }

  lemma FinishClears(t: Table, winners: seq<Id>, share: nat)
    ensures Cleared(t, Finish(t, winners, share)) && Finish(t, winners, share).room.winners == winners
  {
    hide PayAll, Heir, Survivors;
    var u := Finish(t, winners, share);
    forall o | o in u.room.members ensures exists m :: m in t.room.members && Remains(m, o, u.accounts) {
      var i :| 0 <= i < |u.room.members| && u.room.members[i] == o;
      SurvivorsKeepOrder(t.room.members, u.accounts, i);
      var k :| 0 <= k < |t.room.members| && Kept(t.room.members[k], o, u.accounts);
      assert Remains(t.room.members[k], o, u.accounts);
    }
    forall m | m in t.room.members && (m.spectator || Coins(u.accounts, m.id) > 0) ensures HasPlace(u.room.members, m) {
      SurvivorsComplete(t.room.members, u.accounts, m);
    }
  }

  /** The same people, whatever they did or put down. */
  ghost predicate SamePeople(a: seq<Member>, b: seq<Member>) {
    |a| == |b| && forall i :: 0 <= i < |a| ==> a[i].id == b[i].id && a[i].spectator == b[i].spectator
  }

  lemma PersonBefore(a: seq<Member>, b: seq<Member>, m: Member)
    requires (SamePeople(a, b) || SamePeople(b, a)) && m in b
    ensures exists o :: o in a && o.id == m.id && o.spectator == m.spectator
  {
    var i :| 0 <= i < |b| && b[i] == m;
    assert a[i] in a;
  }

  lemma ClearedFrom(t: Table, v: Table, u: Table)
    requires Cleared(v, u) && SamePeople(t.room.members, v.room.members)
    requires v.room.rate == t.room.rate && v.room.maxBet == t.room.maxBet && v.room.maxPlayers == t.room.maxPlayers && v.room.spectators == t.room.spectators
    ensures Cleared(t, u)
  {
    hide SamePeople, Remains, HasPlace, Coins;
    forall o | o in u.room.members ensures exists m :: m in t.room.members && Remains(m, o, u.accounts) {
      var m :| m in v.room.members && Remains(m, o, u.accounts);
      PersonBefore(t.room.members, v.room.members, m);
      var n :| n in t.room.members && n.id == m.id && n.spectator == m.spectator;
      SamePerson(m, n, o, u.room.members, u.accounts);
    }
    forall m | m in t.room.members && (m.spectator || Coins(u.accounts, m.id) > 0) ensures HasPlace(u.room.members, m) {
      PersonBefore(v.room.members, t.room.members, m);
      var n :| n in v.room.members && n.id == m.id && n.spectator == m.spectator;
      SamePerson(n, m, m, u.room.members, u.accounts);
    }
  }

  lemma SamePerson(m: Member, n: Member, o: Member, members: seq<Member>, accounts: Accounts)
    requires n.id == m.id && n.spectator == m.spectator
    ensures Remains(m, o, accounts) ==> Remains(n, o, accounts)
    ensures HasPlace(members, m) ==> HasPlace(members, n)
  {
  }

  /** Every game that ends leaves the table cleared, with the next one opening at the rate. */
  lemma GamesClear(game: Game, t: Table, id: Id, move: Move)
    requires t.room.round > 0 && Play(game, t, id, move).Success? && Play(game, t, id, move).value.room.round == 0
    ensures Cleared(t, Play(game, t, id, move).value) && Play(game, t, id, move).value.room.currentBet == t.room.rate
  {
    hide Cleared, Finish, IndianOver, HighLowOver, Acted, BestUnfolded, HighLowWinners, AllActed, Reopened, SamePeople;
    var u := Play(game, t, id, move).value;
    if game == IndianPoker {
      var v := Acted(t, id, IndianMove(t, id, move));
      var best := BestUnfolded(Participants(v.room.members));
      ActedPeople(t, id, IndianMove(t, id, move));
      FinishClears(v, if best.id == NOBODY then [] else [best.id], if v.room.pot > 0 then v.room.pot else 0);
      ShownClears(v, Finish(v, if best.id == NOBODY then [] else [best.id], if v.room.pot > 0 then v.room.pot else 0), u);
      ClearedFrom(t, v, u);
    } else {
      var v := Acted(t, id, move);
      ActedPeople(t, id, move);
      FinishClears(v, HighLowWinners(v.room.members), Share(v.room.pot, HighLowWinners(v.room.members)));
      ShownClears(v, Finish(v, HighLowWinners(v.room.members), Share(v.room.pot, HighLowWinners(v.room.members))), u);
      ClearedFrom(t, v, u);
    }
  }

  lemma ActedPeople(t: Table, id: Id, move: Move)
    ensures var v := Acted(t, id, move);
      && SamePeople(t.room.members, v.room.members) && v.room.round == t.room.round
      && v.room.rate == t.room.rate && v.room.maxBet == t.room.maxBet && v.room.maxPlayers == t.room.maxPlayers && v.room.spectators == t.room.spectators
  {
  }

  lemma ShownClears(v: Table, done: Table, u: Table)
    requires Cleared(v, done) && u.accounts == done.accounts && u.room == done.room.(currentBet := u.room.currentBet, winners := u.room.winners)
    ensures Cleared(v, u)
  {
  }

  lemma DoppelClears(t: Table, id: Id, mark: int, draw: nat)
    requires t.room.round > 0 && PlayDoppel(t, id, mark, draw).Success? && PlayDoppel(t, id, mark, draw).value.room.round == 0
    ensures Cleared(t, PlayDoppel(t, id, mark, draw).value)
  {
    hide Cleared, Finish, Matches, LeaderMark, AllMarked, MarkStake, SamePeople, Participants;
    var u := PlayDoppel(t, id, mark, draw).value;
    var v := MarkedTable(t, id, mark);
    MarkedPeople(t, id, mark);
    var children := Matches(Participants(v.room.members), v.room.leader, LeaderMark(Participants(v.room.members), v.room.leader));
    if children == [] {
      FinishClears(v, [v.room.leader], Share(v.room.pot, [v.room.leader]));
      ClearedFrom(t, v, u);
    } else {
      var led := v.(room := v.room.(leader := if draw < |children| then children[draw] else children[0]));
      FinishClears(led, children, Share(v.room.pot, children));
      ClearedFrom(t, led, u);
    }
  }

  lemma MarkedPeople(t: Table, id: Id, mark: int)
    ensures var v := MarkedTable(t, id, mark);
      && SamePeople(t.room.members, v.room.members) && v.room.round == t.room.round
      && v.room.rate == t.room.rate && v.room.maxBet == t.room.maxBet && v.room.maxPlayers == t.room.maxPlayers && v.room.spectators == t.room.spectators
  {
    hide MarkStake;
  }
}

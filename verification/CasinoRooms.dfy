/** Rooms under any sequence of joining, leaving, kicking, starting and playing. */
module CasinoRooms {
  import opened Common
  import opened CasinoTable
  import opened CasinoRules
  import opened CasinoCoins
  import opened CasinoBetting
  import opened CasinoDealing

  datatype Kind = Cards(game: Game) | Doppel

  datatype Event =
    | Joined(id: Id, exhausted: bool, accounts: Accounts)
    | Spectated(id: Id)
    | Left(id: Id)
    | Kicked(leader: Id, id: Id)
    | Started(leader: Id, draws: seq<nat>)
    | Played(id: Id, move: Move, accounts: Accounts)
    | ChoseMark(id: Id, mark: int, draw: nat, accounts: Accounts)

  function OnlyRoom(r: Result<Table, Error>): Result<Room, Error> {
    if r.Success? then Success(r.value.room) else Failure(r.error)
  }

  function Attempt(kind: Kind, room: Room, e: Event): Result<Room, Error> {
    match e
    case Joined(id, exhausted, accounts) => Join(Table(room, accounts), id, exhausted)
    case Spectated(id) => Spectate(room, id)
    case Left(id) => Leave(room, id)
    case Kicked(leader, id) => Kick(room, leader, id)
    case Started(leader, draws) => if kind.Doppel? then StartDoppel(room, leader) else StartCards(room, leader, draws)
    case Played(id, move, accounts) =>
      if kind.Doppel? then Failure(InvalidRequest) else OnlyRoom(Play(kind.game, Table(room, accounts), id, move))
    case ChoseMark(id, mark, draw, accounts) =>
      if kind.Doppel? then OnlyRoom(PlayDoppel(Table(room, accounts), id, mark, draw)) else Failure(InvalidRequest)
  }

  /** A refused event leaves the room as it was. */
  function After(kind: Kind, room: Room, events: seq<Event>): Room {
    if events == [] then room
    else
      var before := After(kind, room, events[..|events| - 1]);
      var r := Attempt(kind, before, events[|events| - 1]);
      if r.Success? then r.value else before
  }

  /** Enough cards for everybody, bets that follow the rounds, no pot outside a game and no winners inside one. */
  ghost predicate RoomOk(kind: Kind, room: Room) {
    && DistinctMembers(room.members) && Named(room.members)
    && MIN_PARTY <= room.maxPlayers <= MAX_PARTY && Players(room) <= room.maxPlayers
    && room.rate >= 1 && room.pot >= 0 && 0 <= room.round <= LAST_ROUND
    && (room.round == 0 ==> room.pot == 0) && (room.round > 0 ==> room.winners == [])
    && (kind.Cards? && room.round > 0 ==> room.currentBet == Parts(room.round, room.rate) && room.maxBet == 5 * room.rate)
  }

  // ---------- members ----------

  lemma AppendedMember(members: seq<Member>, m: Member)
    requires DistinctMembers(members) && Named(members) && m.id != NOBODY && MemberAt(members, m.id).None?
    ensures DistinctMembers(members + [m]) && Named(members + [m])
    ensures |Participants(members + [m])| == |Participants(members)| + (if m.spectator then 0 else 1)
  {
    FoundMember(members, m.id);
    assert (members + [m])[..|members|] == members;
  }

  /** Appending at most one member. */
  lemma Appended(before: seq<Member>, tail: seq<Member>)
    requires |tail| <= 1
    ensures |Participants(before + tail)| == |Participants(before)| + (if tail != [] && !tail[0].spectator then 1 else 0)
    ensures forall m :: m in before + tail <==> m in before || m in tail
    ensures DistinctMembers(before) && (forall m, o :: m in before && o in tail ==> m.id != o.id) ==> DistinctMembers(before + tail)
  {
    if tail == [] {
      assert before + tail == before;
    } else {
      assert (before + tail)[..|before|] == before;
    }
  }

  lemma {:induction false} WithoutMemberIn(members: seq<Member>, id: Id, m: Member)
    ensures m in WithoutMember(members, id) <==> m in members && m.id != id
    decreases |members|
  {
    if members != [] {
      WithoutMemberIn(members[..|members| - 1], id, m);
      assert m in members <==> m in members[..|members| - 1] || m == members[|members| - 1];
    }
  }

  lemma {:induction false} WithoutMemberIs(members: seq<Member>, id: Id)
    requires DistinctMembers(members)
    ensures DistinctMembers(WithoutMember(members, id))
    ensures |Participants(WithoutMember(members, id))| <= |Participants(members)|
    ensures forall m :: m in WithoutMember(members, id) <==> m in members && m.id != id
    decreases |members|
  {
    hide Participants, DistinctMembers;
    forall m ensures m in WithoutMember(members, id) <==> m in members && m.id != id {
      WithoutMemberIn(members, id, m);
    }
    if members == [] {
      assert WithoutMember(members, id) == members;
    } else {
      var n := |members| - 1;
      LastIsDistinct(members);
      WithoutMemberIs(members[..n], id);
      Appended(members[..n], [members[n]]);
      assert members == members[..n] + [members[n]];
      Appended(WithoutMember(members[..n], id), if members[n].id == id then [] else [members[n]]);
    }
  }

  lemma LastIsDistinct(members: seq<Member>)
    requires DistinctMembers(members) && members != []
    ensures DistinctMembers(members[..|members| - 1])
    ensures forall m :: m in members[..|members| - 1] ==> m.id != members[|members| - 1].id
  {
  }

  function Tail(last: Member, accounts: Accounts): seq<Member> {
    if last.spectator then [last] else if Coins(accounts, last.id) == 0 then [] else [last.(move := Waiting)]
  }

  lemma {:induction false} SurvivorsIn(members: seq<Member>, accounts: Accounts)
    ensures forall id :: Has(Survivors(members, accounts), id) ==> Has(members, id)
    ensures forall m :: m in members && !m.spectator && Coins(accounts, m.id) > 0 ==> m.(move := Waiting) in Survivors(members, accounts)
    ensures forall m :: m in Survivors(members, accounts) && !m.spectator ==> Coins(accounts, m.id) > 0
    decreases |members|
  {
    hide Participants, Coins;
    if members != [] {
      var n := |members| - 1;
      SurvivorsIn(members[..n], accounts);
      assert members == members[..n] + [members[n]];
      assert Survivors(members, accounts) == Survivors(members[..n], accounts) + Tail(members[n], accounts);
      forall id | Has(Survivors(members, accounts), id) ensures Has(members, id) {
        if Has(Survivors(members[..n], accounts), id) {
          var m :| m in members[..n] && m.id == id;
          assert m in members;
        } else {
          assert members[n] in members;
        }
      }
    }
  }

  lemma {:induction false} SurvivorsAre(members: seq<Member>, accounts: Accounts)
    requires DistinctMembers(members)
    ensures DistinctMembers(Survivors(members, accounts))
    ensures |Participants(Survivors(members, accounts))| <= |Participants(members)|
    ensures forall id :: Has(Survivors(members, accounts), id) ==> Has(members, id)
    ensures forall m :: m in members && !m.spectator && Coins(accounts, m.id) > 0 ==> m.(move := Waiting) in Survivors(members, accounts)
    ensures forall m :: m in Survivors(members, accounts) && !m.spectator ==> Coins(accounts, m.id) > 0
    decreases |members|
  {
    hide Participants, Coins;
    SurvivorsIn(members, accounts);
    if members != [] {
      var n := |members| - 1;
      SurvivorsAre(members[..n], accounts);
      var before := Survivors(members[..n], accounts);
      assert members == members[..n] + [members[n]];
      Appended(members[..n], [members[n]]);
      Appended(before, Tail(members[n], accounts));
      assert Survivors(members, accounts) == before + Tail(members[n], accounts);
      forall m | m in before ensures m.id != members[n].id {
        assert Has(before, m.id);
        var o :| o in members[..n] && o.id == m.id;
      }
    }
  }

  lemma SurvivorsNamed(members: seq<Member>, accounts: Accounts)
    requires DistinctMembers(members) && Named(members)
    ensures Named(Survivors(members, accounts))
  {
    SurvivorsAre(members, accounts);
    forall m | m in Survivors(members, accounts) ensures m.id != NOBODY {
      assert Has(Survivors(members, accounts), m.id);
      var o :| o in members && o.id == m.id;
    }
  }

  // ---------- one event ----------

  lemma JoinKeepsOk(kind: Kind, t: Table, id: Id, exhausted: bool)
    requires RoomOk(kind, t.room) && Join(t, id, exhausted).Success?
    ensures RoomOk(kind, Join(t, id, exhausted).value)
  {
    AppendedMember(t.room.members, Member(id, false, Waiting, -1));
  }

  lemma SpectateKeepsOk(kind: Kind, room: Room, id: Id)
    requires RoomOk(kind, room) && Spectate(room, id).Success?
    ensures RoomOk(kind, Spectate(room, id).value)
  {
    AppendedMember(room.members, Member(id, true, Idle, -1));
  }

  lemma DepartureKeepsOk(kind: Kind, room: Room, id: Id, after: Room)
    requires RoomOk(kind, room)
    requires after == room.(members := WithoutMember(room.members, id), leader := after.leader, status := after.status)
    ensures RoomOk(kind, after)
  {
    hide Participants;
    WithoutMemberIs(room.members, id);
  }

  lemma StartKeepsOk(kind: Kind, room: Room, leader: Id, draws: seq<nat>)
    requires RoomOk(kind, room) && kind.Cards? && StartCards(room, leader, draws).Success?
    ensures RoomOk(kind, StartCards(room, leader, draws).value)
  {
    hide Participants;
    StartIsBetting(room, leader, draws);
  }

  lemma BlankKeepsOk(kind: Kind, room: Room, leader: Id)
    requires RoomOk(kind, room) && kind.Doppel? && StartDoppel(room, leader).Success?
    ensures RoomOk(kind, StartDoppel(room, leader).value)
  {
    var after := StartDoppel(room, leader).value;
    DealKeepsParticipants(room.members, after.members);
    forall m | m in after.members ensures m.id != NOBODY {
      var i :| 0 <= i < |after.members| && after.members[i] == m;
      assert room.members[i] in room.members;
    }
  }

  lemma FinishKeepsOk(kind: Kind, t: Table, winners: seq<Id>, share: nat)
    requires DistinctMembers(t.room.members) && Named(t.room.members)
    requires MIN_PARTY <= t.room.maxPlayers <= MAX_PARTY && Players(t.room) <= t.room.maxPlayers && t.room.rate >= 1
    ensures RoomOk(kind, Finish(t, winners, share).room)
  {
    hide Participants, PayAll;
    SurvivorsAre(t.room.members, PayAll(t.accounts, winners, share));
    SurvivorsNamed(t.room.members, PayAll(t.accounts, winners, share));
  }

  lemma ActedKeepsOk(kind: Kind, t: Table, id: Id, move: Move)
    requires RoomOk(kind, t.room) && t.room.round > 0
    ensures RoomOk(kind, Acted(t, id, move).room)
  {
    MovedMembers(t.room.members, id, move);
    MoveKeepsHands(t, id, move);
    DealKeepsParticipants(t.room.members, WithMove(t.room.members, id, move));
  }

  lemma ShowdownKeepsOk(game: Game, u: Table)
    requires RoomOk(Cards(game), u.room)
    ensures RoomOk(Cards(game), IndianShowdown(u).room) && RoomOk(Cards(game), HighLowShowdown(u).room)
  {
    hide BestUnfolded, HighLowWinners, Finish, RoomOk;
    var best := BestUnfolded(Participants(u.room.members));
    var winners := if best.id == NOBODY then [] else [best.id];
    RoomParts(Cards(game), u.room);
    FinishKeepsOk(Cards(game), u, winners, if u.room.pot > 0 then u.room.pot else 0);
    FinishKeepsOk(Cards(game), u, HighLowWinners(u.room.members), Share(u.room.pot, HighLowWinners(u.room.members)));
    FinishedBet(game, u, winners, if u.room.pot > 0 then u.room.pot else 0, if winners == [] then u.room.winners else winners);
    FinishedBet(game, u, HighLowWinners(u.room.members), Share(u.room.pot, HighLowWinners(u.room.members)), HighLowWinners(u.room.members));
    FinishShows(u, HighLowWinners(u.room.members), Share(u.room.pot, HighLowWinners(u.room.members)));
  }

  lemma FinishShows(u: Table, winners: seq<Id>, share: nat)
    ensures Finish(u, winners, share).room.winners == winners
  {
  }

  lemma FinishedBet(game: Game, u: Table, winners: seq<Id>, share: nat, shown: seq<Id>)
    requires RoomOk(Cards(game), Finish(u, winners, share).room)
    ensures RoomOk(Cards(game), Finish(u, winners, share).room.(currentBet := u.room.rate, winners := shown))
  {
    hide Survivors, PayAll, Participants;
  }

  lemma RoomParts(kind: Kind, room: Room)
    requires RoomOk(kind, room)
    ensures DistinctMembers(room.members) && Named(room.members)
    ensures MIN_PARTY <= room.maxPlayers <= MAX_PARTY && Players(room) <= room.maxPlayers && room.rate >= 1
  {
  }

  lemma PlayKeepsOk(game: Game, t: Table, id: Id, move: Move)
    requires RoomOk(Cards(game), t.room) && Play(game, t, id, move).Success?
    ensures RoomOk(Cards(game), Play(game, t, id, move).value.room)
  {
    hide IndianOver, HighLowOver, IndianShowdown, HighLowShowdown, Acted, RoomOk, AllActed;
    AcceptedActor(game, t, id, move);
    var u := Acted(t, id, PlayedMove(game, t, id, move));
    ActedKeepsOk(Cards(game), t, id, PlayedMove(game, t, id, move));
    ShowdownKeepsOk(game, u);
    ActedRound(t, id, PlayedMove(game, t, id, move));
    if !Over(game, u) && AllActed(u.room.members) {
      NotOverBelowMax(game, u);
      NextRoundKeepsOk(game, u.room);
    }
  }

  lemma ActedRound(t: Table, id: Id, move: Move)
    ensures Acted(t, id, move).room.round == t.room.round
  {
  }

  lemma NextRoundKeepsOk(game: Game, room: Room)
    requires RoomOk(Cards(game), room) && room.round > 0 && room.currentBet < room.maxBet
    ensures RoomOk(Cards(game), NextRound(room))
  {
    hide Participants;
    BelowMaxBet(room.round, room.rate);
    ReopenedCounts(room.members);
    ReopenedMembers(room.members);
  }

  lemma MarkKeepsOk(t: Table, id: Id, mark: int, draw: nat)
    requires RoomOk(Doppel, t.room) && PlayDoppel(t, id, mark, draw).Success?
    ensures RoomOk(Doppel, PlayDoppel(t, id, mark, draw).value.room)
  {
    var members := WithMark(t.room.members, id, mark);
    MarkedMembers(t.room.members, id, mark);
    DealKeepsParticipants(t.room.members, members);
    forall m | m in members ensures m.id != NOBODY {
      var i :| 0 <= i < |members| && members[i] == m;
      assert t.room.members[i] in t.room.members;
    }
    hide Participants, Finish, MemberAt;
    var v := MarkedTable(t, id, mark);
    if AllMarked(v.room.members) {
      var playing := Participants(v.room.members);
      var children := Matches(playing, t.room.leader, LeaderMark(playing, t.room.leader));
      if children == [] {
        FinishKeepsOk(Doppel, v, [t.room.leader], Share(v.room.pot, [t.room.leader]));
      } else {
        FinishKeepsOk(Doppel, v.(room := v.room.(leader := if draw < |children| then children[draw] else children[0])), children, Share(v.room.pot, children));
      }
    }
  }

  lemma EventKeepsOk(kind: Kind, room: Room, e: Event)
    requires RoomOk(kind, room) && Attempt(kind, room, e).Success?
    ensures RoomOk(kind, Attempt(kind, room, e).value)
  {
    hide RoomOk, Join, Spectate, StartDoppel, StartCards, Play, PlayDoppel;
    match e
    case Joined(id, exhausted, accounts) => JoinKeepsOk(kind, Table(room, accounts), id, exhausted);
    case Spectated(id) => SpectateKeepsOk(kind, room, id);
    case Left(id) => DepartureKeepsOk(kind, room, id, Leave(room, id).value);
    case Kicked(leader, id) => DepartureKeepsOk(kind, room, id, Kick(room, leader, id).value);
    case Started(leader, draws) =>
      if kind.Doppel? { BlankKeepsOk(kind, room, leader); } else { StartKeepsOk(kind, room, leader, draws); }
    case Played(id, move, accounts) => PlayKeepsOk(kind.game, Table(room, accounts), id, move);
    case ChoseMark(id, mark, draw, accounts) => MarkKeepsOk(Table(room, accounts), id, mark, draw);
  }

  // ---------- every room ----------

  lemma CreatedRoomOk(kind: Kind, accounts: Accounts, id: Id, maxPlayers: int, rate: int, spectators: bool)
    requires CreateRoom(accounts, id, kind.Doppel?, maxPlayers, rate, spectators).Success?
    ensures RoomOk(kind, CreateRoom(accounts, id, kind.Doppel?, maxPlayers, rate, spectators).value)
  {
  }

  lemma {:induction false} RoomsStayOk(kind: Kind, room: Room, events: seq<Event>)
    requires RoomOk(kind, room)
    ensures RoomOk(kind, After(kind, room, events))
    decreases |events|
  {
    hide RoomOk, Attempt;
    if events != [] {
      var n := |events| - 1;
      RoomsStayOk(kind, room, events[..n]);
      var before := After(kind, room, events[..n]);
      if Attempt(kind, before, events[n]).Success? {
        EventKeepsOk(kind, before, events[n]);
      }
    }
  }

  lemma BetsFollowRounds(game: Game, accounts: Accounts, id: Id, maxPlayers: int, rate: int, spectators: bool, events: seq<Event>)
    requires CreateRoom(accounts, id, false, maxPlayers, rate, spectators).Success?
    ensures var room := After(Cards(game), CreateRoom(accounts, id, false, maxPlayers, rate, spectators).value, events);
      && 0 <= room.round <= 5 && Players(room) <= MAX_PARTY
      && (room.round > 0 ==> room.currentBet == room.round * room.rate && room.maxBet == 5 * room.rate)
      && (room.round == 0 ==> room.pot == 0) && (room.round > 0 ==> room.winners == [])
  {
    hide After, CreateRoom;
    CreatedRoomOk(Cards(game), accounts, id, maxPlayers, rate, spectators);
    var created := CreateRoom(accounts, id, false, maxPlayers, rate, spectators).value;
    RoomsStayOk(Cards(game), created, events);
    var room := After(Cards(game), created, events);
    if room.round > 0 {
      PartsMultiply(room.round, room.rate);
    }
  }

  /**
   Whatever happened in a room, a start that is permitted is never refused for want of cards, whatever positions the
   random source answers: joining keeps the participants below the deck.
   */
  lemma DeckNeverRunsDry(game: Game, accounts: Accounts, id: Id, maxPlayers: int, rate: int, spectators: bool,
                         events: seq<Event>, leader: Id, draws: seq<nat>)
    requires CreateRoom(accounts, id, false, maxPlayers, rate, spectators).Success?
    requires var room := After(Cards(game), CreateRoom(accounts, id, false, maxPlayers, rate, spectators).value, events);
      StartRefusal(room, leader).None? && RandomDraws(draws, Players(room), DECK_SIZE)
    ensures var room := After(Cards(game), CreateRoom(accounts, id, false, maxPlayers, rate, spectators).value, events);
      StartCards(room, leader, draws).Success? && Players(room) <= MAX_PARTY
  {
    hide After, CreateRoom, Participants;
    BetsFollowRounds(game, accounts, id, maxPlayers, rate, spectators, events);
    var room := After(Cards(game), CreateRoom(accounts, id, false, maxPlayers, rate, spectators).value, events);
    DealSucceeds(room.members, Deck(DECK_SIZE), draws);
  }

  // ---------- who leads ----------

  predicate Plays(members: seq<Member>, id: Id) {
    exists m :: m in members && m.id == id && !m.spectator
  }

  lemma SurvivorPlays(members: seq<Member>, accounts: Accounts, id: Id)
    requires DistinctMembers(members)
    ensures Plays(Survivors(members, accounts), id) <==> Plays(members, id) && Coins(accounts, id) > 0
  {
    SurvivorsAre(members, accounts);
    if Plays(members, id) && Coins(accounts, id) > 0 {
      var m :| m in members && m.id == id && !m.spectator;
      assert m.(move := Waiting) in Survivors(members, accounts);
    }
    if Plays(Survivors(members, accounts), id) {
      SurvivorPlayed(members, accounts, id);
    }
  }

  lemma {:induction false} SurvivorPlayed(members: seq<Member>, accounts: Accounts, id: Id)
    requires Plays(Survivors(members, accounts), id)
    ensures Plays(members, id)
    decreases |members|
  {
    if members != [] {
      var n := |members| - 1;
      if Plays(Survivors(members[..n], accounts), id) {
        SurvivorPlayed(members[..n], accounts, id);
        var m :| m in members[..n] && m.id == id && !m.spectator;
        assert m in members;
      } else {
        assert members[n] in members;
      }
    }
  }

  lemma LeaderAfterFinish(t: Table, winners: seq<Id>, share: nat)
    requires DistinctMembers(t.room.members) && Plays(t.room.members, t.room.leader)
    ensures var u := Finish(t, winners, share);
      Plays(u.room.members, u.room.leader) <==>
        || Coins(u.accounts, t.room.leader) > 0
        || (winners != [] && Plays(t.room.members, winners[0]) && Coins(u.accounts, winners[0]) > 0)
  {
    hide PayAll;
    var u := Finish(t, winners, share);
    SurvivorPlays(t.room.members, u.accounts, t.room.leader);
    if winners != [] {
      SurvivorPlays(t.room.members, u.accounts, winners[0]);
    }
    var m :| m in t.room.members && m.id == t.room.leader && !m.spectator;
    InParticipants(t.room.members, m);
    if Broke(t.room.members, u.accounts, t.room.leader) {
      assert Coins(u.accounts, t.room.leader) == 0;
    }
  }

  /** What somebody has once the actor has staked and the winners got their share. */
  function Afterwards(t: Table, actor: Id, winners: seq<Id>, share: nat, id: Id): int {
    Coins(t.accounts, id) - (if id == actor then Stake(t.accounts, actor, t.room.currentBet) else 0)
      + (if id in winners then share else 0)
  }

  /** The old leader keeps coins, or the first winner does. */
  predicate SomebodyLeads(t: Table, actor: Id, winners: seq<Id>, share: nat) {
    || Afterwards(t, actor, winners, share, t.room.leader) > 0
    || (winners != [] && Afterwards(t, actor, winners, share, winners[0]) > 0)
  }

  lemma MovePlays(members: seq<Member>, id: Id, move: Move, who: Id)
    ensures Plays(WithMove(members, id, move), who) <==> Plays(members, who)
  {
    var after := WithMove(members, id, move);
    if Plays(after, who) {
      var m :| m in after && m.id == who && !m.spectator;
      var i :| 0 <= i < |after| && after[i] == m;
      assert members[i] in members;
    }
    if Plays(members, who) {
      var m :| m in members && m.id == who && !m.spectator;
      var i :| 0 <= i < |members| && members[i] == m;
      assert after[i] in after;
    }
  }

  lemma LeaderAfterAction(t: Table, id: Id, move: Move, winners: seq<Id>, share: nat)
    requires DistinctMembers(t.room.members) && Plays(t.room.members, t.room.leader) && NoDuplicates(winners)
    requires forall w :: w in winners ==> Plays(t.room.members, w)
    ensures var u := Finish(Acted(t, id, move), winners, share);
      Plays(u.room.members, u.room.leader) <==> SomebodyLeads(t, id, winners, share)
  {
    hide PayAll, Stake, Survivors, Heir, Coins, Plays;
    var v := Acted(t, id, move);
    MovedMembers(t.room.members, id, move);
    MovePlays(t.room.members, id, move, t.room.leader);
    LeaderAfterFinish(v, winners, share);
    ActedCoins(t, id, move, t.room.leader);
    PayAllCoins(v.accounts, winners, share, t.room.leader);
    if winners != [] {
      MovePlays(t.room.members, id, move, winners[0]);
      ActedCoins(t, id, move, winners[0]);
      PayAllCoins(v.accounts, winners, share, winners[0]);
    }
  }

  lemma HighLowWinnersTakePart(members: seq<Member>)
    requires Named(members) && DistinctMembers(members)
    ensures forall id :: id in HighLowWinners(members) ==> Plays(members, id)
  {
    var playing := Participants(members);
    ParticipantsNamed(members);
    BestHighIsBest(playing);
    BestLowIsBest(playing);
    FirstUnfoldedIs(playing);
    forall m | m in playing ensures m in members && !m.spectator { InParticipants(members, m); }
  }

  lemma IndianWinnersTakePart(members: seq<Member>)
    requires Named(members)
    ensures forall id :: id in IndianWinners(members) ==> Plays(members, id)
  {
    ParticipantsNamed(members);
    BestUnfoldedIsBest(Participants(members));
    forall m | m in Participants(members) ensures m in members && !m.spectator { InParticipants(members, m); }
  }

  function WinnersShare(game: Game, pot: int, winners: seq<Id>): nat {
    match game
    case IndianPoker => if pot > 0 then pot else 0
    case HighLow => Share(pot, winners)
  }

  /**
   When an action ends a card game, the room is led by somebody who plays exactly if the old leader has coins
   left after stake and share, or somebody won and the first winner has. A game nobody wins does not replace a
   ruined leader.
   */
  lemma LeaderAfterGame(game: Game, t: Table, id: Id, move: Move)
    requires DistinctMembers(t.room.members) && Named(t.room.members) && Plays(t.room.members, t.room.leader)
    requires Play(game, t, id, move).Success?
    ensures var u := Play(game, t, id, move).value;
      var winners := Winners(game, WithMove(t.room.members, id, PlayedMove(game, t, id, move)));
      var share := WinnersShare(game, t.room.pot + Stake(t.accounts, id, t.room.currentBet), winners);
      Ended(t, u) ==> (Plays(u.room.members, u.room.leader) <==> SomebodyLeads(t, id, winners, share))
  {
    hide Over, IndianOver, HighLowOver, AllActed, HighLowWinners, BestUnfolded, Finish, Plays, SomebodyLeads, Stake, ActRefusal, PlayedMove, IndianMove;
    var played := PlayedMove(game, t, id, move);
    var v := Acted(t, id, played);
    var winners := Winners(game, v.room.members);
    var share := WinnersShare(game, v.room.pot, winners);
    MovedMembers(t.room.members, id, played);
    if Ended(t, Play(game, t, id, move).value) {
      FinishedByShowdown(game, t, id, move);
      WinnersTakePart(game, v.room.members);
      forall w | w in winners ensures Plays(t.room.members, w) { MovePlays(t.room.members, id, played, w); }
      LeaderAfterAction(t, id, played, winners, share);
    }
  }

  lemma WinnersTakePart(game: Game, members: seq<Member>)
    requires Named(members) && DistinctMembers(members)
    ensures NoDuplicates(Winners(game, members)) && forall id :: id in Winners(game, members) ==> Plays(members, id)
  {
    hide HighLowWinners, IndianWinners, Plays;
    IndianWinnersTakePart(members);
    HighLowWinnersTakePart(members);
    HighLowWinnersPlay(members);
  }

  /** The members, the leader and the accounts after a game are those of the shared ending. */
  lemma FinishedByShowdown(game: Game, t: Table, id: Id, move: Move)
    requires Play(game, t, id, move).Success? && Ended(t, Play(game, t, id, move).value)
    ensures var v := Acted(t, id, PlayedMove(game, t, id, move));
      var winners := Winners(game, v.room.members);
      var done := Finish(v, winners, WinnersShare(game, v.room.pot, winners));
      var u := Play(game, t, id, move).value;
      && u.accounts == done.accounts && u.room.members == done.room.members && u.room.leader == done.room.leader
      && (winners != [] || game == HighLow ==> u.room.winners == winners)
  {
    hide IndianOver, HighLowOver, AllActed, HighLowWinners, BestUnfolded, PayAll, Survivors, Heir, ActRefusal;
  }

  // ---------- leaving in the middle ----------

  ghost predicate Stuck(game: Game, room: Room) {
    forall accounts, id, move :: Play(game, Table(room, accounts), id, move).Failure?
  }

  lemma ActorIsOpen(game: Game, room: Room, accounts: Accounts, id: Id, move: Move)
    requires DistinctMembers(room.members) && AllActed(room.members)
    ensures Play(game, Table(room, accounts), id, move).Failure?
  {
    if Play(game, Table(room, accounts), id, move).Success? {
      AcceptedActor(game, Table(room, accounts), id, move);
      FoundMember(room.members, id);
      InParticipants(room.members, MemberAt(room.members, id).value);
    }
  }

  /** A departure in the middle of a game wedges it exactly when everybody who stays has already acted. */
  lemma LeavingCanWedge(game: Game, room: Room, id: Id)
    requires RoomOk(Cards(game), room) && room.round > 0 && room.status == InProgress
    requires Leave(room, id).Success? && Leave(room, id).value.status == InProgress
    ensures Stuck(game, Leave(room, id).value) <==> AllActed(WithoutMember(room.members, id))
  {
    var left := Leave(room, id).value;
    WithoutMemberIs(room.members, id);
    if AllActed(left.members) {
      hide Play, AllActed;
      forall accounts, other, move ensures Play(game, Table(left, accounts), other, move).Failure? {
        ActorIsOpen(game, left, accounts, other, move);
      }
    } else {
      DepartureKeepsOk(Cards(game), room, id, left);
      SomebodyMayFold(game, left);
      var other :| MayFold(game, left, other);
      assert Play(game, Table(left, map[]), other, Folded).Success?;
    }
  }

  /** A wedged game goes on once somebody new sits down: a newcomer may act. */
  lemma NewcomerMayAct(game: Game, room: Room, accounts: Accounts, id: Id)
    requires RoomOk(Cards(game), room) && room.round > 0 && room.status == InProgress
    requires Join(Table(room, accounts), id, false).Success?
    ensures !Stuck(game, Join(Table(room, accounts), id, false).value)
  {
    var joined := Join(Table(room, accounts), id, false).value;
    var newcomer := Member(id, false, Waiting, -1);
    JoinKeepsOk(Cards(game), Table(room, accounts), id, false);
    InParticipants(joined.members, newcomer);
    assert newcomer in joined.members && MayAct(newcomer);
    hide Play, Participants;
    SomebodyMayFold(game, joined);
    var other :| MayFold(game, joined, other);
    assert Play(game, Table(joined, map[]), other, Folded).Success?;
  }
}

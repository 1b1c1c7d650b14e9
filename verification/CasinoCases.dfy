/** Concrete rooms, from their creation on, in which a game loses its pot, its leader or its way. */
module CasinoCases {
  import opened Common
  import opened CasinoTable
  import opened CasinoRules
  import opened CasinoCoins
  import opened CasinoBetting
  import opened CasinoDealing
  import opened CasinoRooms

  // ---------- one event at a time ----------

  lemma Then(kind: Kind, room: Room, events: seq<Event>, n: nat, next: Room)
    requires n < |events| && Attempt(kind, After(kind, room, events[..n]), events[n]) == Success(next)
    ensures After(kind, room, events[..n + 1]) == next
  {
    hide Attempt;
    assert events[..n + 1][..n] == events[..n];
  }

  predicate Playing(members: seq<Member>) {
    forall i :: 0 <= i < |members| ==> !members[i].spectator
  }

  lemma {:induction false} AllParticipate(members: seq<Member>)
    requires Playing(members)
    ensures Participants(members) == members
    decreases |members|
  {
    if members != [] {
      var n := |members| - 1;
      AllParticipate(members[..n]);
      assert members == members[..n] + [members[n]];
    }
  }

  lemma NotSeated(members: seq<Member>, id: Id)
    requires forall i :: 0 <= i < |members| ==> members[i].id != id
    ensures MemberAt(members, id) == None
  {
    FoundMember(members, id);
  }

  lemma {:induction false} SeatedAt(members: seq<Member>, i: nat)
    requires i < |members| && DistinctMembers(members)
    ensures MemberAt(members, members[i].id) == Some(members[i])
    decreases |members|
  {
    if i > 0 {
      SeatedAt(members[1..], i - 1);
    }
  }

  /** Somebody new sits down. */
  lemma SitsDown(kind: Kind, room: Room, accounts: Accounts, id: Id)
    requires id != NOBODY && room.status != Disbanded && Coins(accounts, id) >= room.rate
    requires Playing(room.members) && |room.members| < room.maxPlayers
    requires forall i :: 0 <= i < |room.members| ==> room.members[i].id != id
    ensures Attempt(kind, room, Joined(id, false, accounts)) == Success(room.(members := room.members + [Member(id, false, Waiting, -1)]))
  {
    NotSeated(room.members, id);
    AllParticipate(room.members);
  }

  function Hands(members: seq<Member>, first: nat): seq<Member> {
    seq(|members|, i requires 0 <= i < |members| => members[i].(card := first + i, move := Idle))
  }

  /** Everybody draws the lowest card left. */
  lemma {:induction false} DealLowest(members: seq<Member>, first: nat, draws: seq<nat>)
    requires Playing(members) && |draws| == |members| && first + |members| <= DECK_SIZE
    requires forall i :: 0 <= i < |draws| ==> draws[i] == 0
    ensures Deal(members, Deck(DECK_SIZE)[first..], draws) == Some(Hands(members, first))
    decreases |members|
  {
    var deck := Deck(DECK_SIZE)[first..];
    if members == [] {
      assert Hands(members, first) == [];
    } else {
      assert Drop(deck, 0) == Deck(DECK_SIZE)[first + 1..];
      DealLowest(members[1..], first + 1, draws[1..]);
      assert Hands(members, first) == [members[0].(card := first, move := Idle)] + Hands(members[1..], first + 1);
    }
  }

  lemma Begins(game: Game, room: Room, draws: seq<nat>)
    requires room.leader != NOBODY && room.round == 0 && Playing(room.members) && 2 <= |room.members| <= DECK_SIZE
    requires |draws| == |room.members| && forall i :: 0 <= i < |draws| ==> draws[i] == 0
    ensures Attempt(Cards(game), room, Started(room.leader, draws))
      == Success(room.(members := Hands(room.members, 0), round := 1, status := InProgress, currentBet := room.rate,
                       maxBet := room.rate * 5, pot := 0, winners := []))
  {
    AllParticipate(room.members);
    DealLowest(room.members, 0, draws);
    assert Deck(DECK_SIZE)[0..] == Deck(DECK_SIZE);
  }

  /** The i-th member may act now. */
  ghost predicate ToMove(room: Room, i: nat) {
    && room.round > 0 && room.status == InProgress && i < |room.members| && DistinctMembers(room.members)
    && Playing(room.members) && room.members[i].id != NOBODY && MayAct(room.members[i])
  }

  lemma Moved(members: seq<Member>, i: nat, move: Move)
    requires i < |members| && DistinctMembers(members)
    ensures WithMove(members, members[i].id, move) == members[i := members[i].(move := move)]
  {
  }

  lemma ActedRoom(t: Table, i: nat, move: Move)
    requires i < |t.room.members| && DistinctMembers(t.room.members)
    ensures var id := t.room.members[i].id;
      var stake := Stake(t.accounts, id, t.room.currentBet);
      && Acted(t, id, move).room
        == t.room.(pot := t.room.pot + stake, members := t.room.members[i := t.room.members[i].(move := move)])
      && Acted(t, id, move).accounts == Debit(t.accounts, id, stake)
  {
    hide WithMove, Stake;
    Moved(t.room.members, i, move);
  }

  lemma OpenHand(members: seq<Member>, i: nat)
    requires i < |members| && Playing(members) && MayAct(members[i])
    ensures !AllActed(members)
  {
    AllParticipate(members);
  }

  lemma {:induction false} TwoInPlay(members: seq<Member>, i: nat, j: nat)
    requires i < j < |members| && Playing(members) && members[i].move != Folded && members[j].move != Folded
    ensures Unfolded(members) >= 2
  {
    AllParticipate(members);
    FoldedAtMost(members, i, j);
  }

  lemma {:induction false} FoldedAtMost(members: seq<Member>, i: nat, j: nat)
    requires i < j < |members| && members[i].move != Folded && members[j].move != Folded
    ensures Count(members, HasFolded) <= |members| - 2
    decreases |members|
  {
    var n := |members| - 1;
    if j < n {
      FoldedAtMost(members[..n], i, j);
    } else {
      FoldedButOne(members[..n], i);
    }
  }

  lemma {:induction false} FoldedButOne(members: seq<Member>, i: nat)
    requires i < |members| && members[i].move != Folded
    ensures Count(members, HasFolded) <= |members| - 1
  {
    CountAll(members, HasFolded);
    assert members[i] in members && !HasFolded(members[i]);
  }

  lemma TurnIsAccepted(game: Game, t: Table, i: nat, move: Move)
    requires ToMove(t.room, i) && move in {Called, Folded}
    ensures Play(game, t, t.room.members[i].id, move).Success?
  {
    hide Acted, IndianOver, HighLowOver, IndianShowdown, HighLowShowdown, NextRound, MemberAt, AllActed, DistinctMembers;
    SeatedAt(t.room.members, i);
  }

  lemma NotOver(game: Game, u: Table)
    requires Unfolded(u.room.members) >= 2 && !AllActed(u.room.members)
    ensures !Over(game, u)
  {
    hide Unfolded, AllActed, CoinlessPlayer;
  }

  lemma SameMove(game: Game, t: Table, id: Id, move: Move)
    requires game == HighLow || move == Folded || Coins(t.accounts, id) >= t.room.currentBet
    ensures PlayedMove(game, t, id, move) == move
  {
  }

  /** An action after which somebody has still to act, two hands being left, only adds the stake. */
  lemma GameGoesOn(game: Game, t: Table, i: nat, move: Move, j: nat, k: nat, open: nat)
    requires ToMove(t.room, i) && move in {Called, Folded}
    requires game == HighLow || move == Folded || Coins(t.accounts, t.room.members[i].id) >= t.room.currentBet
    requires var members := t.room.members[i := t.room.members[i].(move := move)];
      j < k < |members| && members[j].move != Folded && members[k].move != Folded && open < |members| && MayAct(members[open])
    ensures OnlyRoom(Play(game, t, t.room.members[i].id, move))
      == Success(t.room.(pot := t.room.pot + Stake(t.accounts, t.room.members[i].id, t.room.currentBet),
                         members := t.room.members[i := t.room.members[i].(move := move)]))
  {
    var id := t.room.members[i].id;
    var members := t.room.members[i := t.room.members[i].(move := move)];
    hide Play, Over, PlayedMove, Unfolded, AllActed, Acted, Stake, NextRound;
    ActedRoom(t, i, move);
    OpenHand(members, open);
    TwoInPlay(members, j, k);
    TurnIsAccepted(game, t, i, move);
    SameMove(game, t, id, move);
    PlayIs(game, t, id, move);
    NotOver(game, Acted(t, id, move));
  }

  // ---------- a hand without a card ----------

  const RICH: Accounts := map["a" := 100, "b" := 100, "c" := 100]

  const LATE: seq<Event> :=
    [Joined("b", false, RICH), Started("a", [0, 0]), Joined("c", false, RICH), Played("a", Folded, RICH)]

  function Seat(id: Id, move: Move, card: int): Member {
    Member(id, false, move, card)
  }

  function Gathered(maxPlayers: int, rate: int, members: seq<Member>): Room {
    Room("a", maxPlayers, rate, false, Gathering, 0, rate, rate * 5, 0, [], members)
  }

  /** The room led by a in the first round of a game. */
  function Dealt(maxPlayers: int, rate: int, pot: int, members: seq<Member>): Room {
    Room("a", maxPlayers, rate, false, InProgress, 1, rate, rate * 5, pot, [], members)
  }

  /** The two who were there when the cards were dealt. */
  lemma TwoAreDealt(game: Game, maxPlayers: int, rate: int, accounts: Accounts, events: seq<Event>)
    requires maxPlayers >= 2 && Coins(accounts, "b") >= rate && |events| >= 2
    requires events[0] == Joined("b", false, accounts) && events[1] == Started("a", [0, 0])
    ensures After(Cards(game), Gathered(maxPlayers, rate, [Seat("a", Waiting, -1)]), events[..2])
      == Dealt(maxPlayers, rate, 0, [Seat("a", Idle, 0), Seat("b", Idle, 1)])
  {
    hide After, Attempt;
    var first := Gathered(maxPlayers, rate, [Seat("a", Waiting, -1)]);
    var pair := [Seat("a", Waiting, -1), Seat("b", Waiting, -1)];
    SitsDown(Cards(game), first, accounts, "b");
    assert first.members + [Seat("b", Waiting, -1)] == pair;
    assert After(Cards(game), first, events[..0]) == first by { NothingYet(Cards(game), first); }
    Then(Cards(game), first, events, 0, first.(members := pair));
    Begins(game, first.(members := pair), [0, 0]);
    assert Hands(pair, 0) == [Seat("a", Idle, 0), Seat("b", Idle, 1)];
    Then(Cards(game), first, events, 1, Dealt(maxPlayers, rate, 0, Hands(pair, 0)));
  }

  lemma NothingYet(kind: Kind, room: Room)
    ensures After(kind, room, []) == room
  {
  }

  /** The table after the first of the two has folded. */
  function OneFolded(): Room {
    Dealt(3, 10, 10, [Seat("a", Folded, 0), Seat("b", Idle, 1), Seat("c", Waiting, -1)])
  }

  function Crowd(): Room {
    Dealt(3, 10, 0, [Seat("a", Idle, 0), Seat("b", Idle, 1), Seat("c", Waiting, -1)])
  }

  lemma ThirdSits()
    ensures Attempt(Cards(IndianPoker), Dealt(3, 10, 0, [Seat("a", Idle, 0), Seat("b", Idle, 1)]), Joined("c", false, RICH)) == Success(Crowd())
  {
    hide Attempt;
    var dealt := Dealt(3, 10, 0, [Seat("a", Idle, 0), Seat("b", Idle, 1)]);
    SitsDown(Cards(IndianPoker), dealt, RICH, "c");
    assert dealt.members + [Seat("c", Waiting, -1)] == Crowd().members;
  }

  lemma FirstFolds()
    ensures Attempt(Cards(IndianPoker), Crowd(), Played("a", Folded, RICH)) == Success(OneFolded())
  {
    hide Attempt, Play;
    GameGoesOn(IndianPoker, Table(Crowd(), RICH), 0, Folded, 1, 2, 1);
    assert Crowd().members[0 := Seat("a", Folded, 0)] == OneFolded().members;
    PlayedEvent(IndianPoker, Crowd(), "a", Folded, RICH);
  }

  lemma LateRoom()
    ensures After(Cards(IndianPoker), Gathered(3, 10, [Seat("a", Waiting, -1)]), LATE) == OneFolded()
  {
    hide After, Attempt;
    var kind, first := Cards(IndianPoker), Gathered(3, 10, [Seat("a", Waiting, -1)]);
    TwoAreDealt(IndianPoker, 3, 10, RICH, LATE);
    ThirdSits();
    FirstFolds();
    hide Gathered, Dealt, Crowd, OneFolded;
    Then(kind, first, LATE, 2, Crowd());
    Then(kind, first, LATE, 3, OneFolded());
    assert LATE[..4] == LATE;
  }

  lemma LateStart()
    ensures CreateRoom(RICH, "a", false, 3, 10, false) == Success(Gathered(3, 10, [Seat("a", Waiting, -1)]))
  {
  }

  lemma PlayedEvent(game: Game, room: Room, id: Id, move: Move, accounts: Accounts)
    ensures Attempt(Cards(game), room, Played(id, move, accounts)) == OnlyRoom(Play(game, Table(room, accounts), id, move))
  {
    hide Play;
  }

  function BothFolded(): seq<Member> {
    [Seat("a", Folded, 0), Seat("b", Folded, 1), Seat("c", Waiting, -1)]
  }

  lemma OnlyTheLatecomer()
    ensures WithMove(OneFolded().members, "b", Folded) == BothFolded()
    ensures NoCardLeft(BothFolded()) && Unfolded(BothFolded()) == 1
  {
    Moved(OneFolded().members, 1, Folded);
    assert OneFolded().members[1 := Seat("b", Folded, 1)] == BothFolded();
    AllParticipate(BothFolded());
    OneOfThree(BothFolded());
  }

  lemma LastFolds(t: Table)
    requires t == Table(OneFolded(), RICH["a" := 90])
    ensures PlayIndian(t, "b", Folded).Success? && Ended(t, PlayIndian(t, "b", Folded).value)
    ensures PlayIndian(t, "b", Folded).value.room.pot == 0
  {
    TurnIsAccepted(IndianPoker, t, 1, Folded);
    hide PlayIndian, IndianOver, PlayedMove, Unfolded, WithMove, Stake, BothFolded, NoCardLeft;
    OnlyTheLatecomer();
    SameMove(IndianPoker, t, "b", Folded);
    PlayIs(IndianPoker, t, "b", Folded);
    OneHandIsTheEnd(Acted(t, "b", Folded));
  }

  lemma OneHandIsTheEnd(u: Table)
    requires Unfolded(u.room.members) <= 1
    ensures IndianOver(u)
  {
    hide Unfolded, AllActed, CoinlessPlayer;
  }

  lemma OneOfThree(members: seq<Member>)
    requires |members| == 3 && Playing(members) && HasFolded(members[0]) && HasFolded(members[1]) && !HasFolded(members[2])
    ensures Unfolded(members) == 1
  {
    AllParticipate(members);
    CountAppend(members[..0], members[0], HasFolded);
    CountAppend(members[..1], members[1], HasFolded);
    CountAppend(members[..2], members[2], HasFolded);
    assert members[..0] == [] && members[..0] + [members[0]] == members[..1];
    assert members[..1] + [members[1]] == members[..2] && members[..2] + [members[2]] == members;
  }

  /**
   Two players are dealt cards, a third sits down in the middle of the game, and the two fold: the hand that is
   left has no card, nobody wins, and the twenty coins in the pot are gone.
   */
  lemma LatecomerCostsThePot()
    ensures CreateRoom(RICH, "a", false, 3, 10, false).Success?
    ensures var room := After(Cards(IndianPoker), CreateRoom(RICH, "a", false, 3, 10, false).value, LATE);
      var t := Table(room, RICH["a" := 90]);
      var r := PlayIndian(t, "b", Folded);
      && r.Success? && Ended(t, r.value) && r.value.room.winners == [] && r.value.room.pot == 0
      && Wealth(t.accounts, ["a", "b", "c"]) + t.room.pot == Wealth(RICH, ["a", "b", "c"])
      && Wealth(r.value.accounts, ["a", "b", "c"]) == Wealth(RICH, ["a", "b", "c"]) - 20
  {
    hide After, PlayIndian, Wealth, WithMove, NoCardLeft, CreateRoom;
    LateRoom();
    LateStart();
    var t := Table(OneFolded(), RICH["a" := 90]);
    var ids := ["a", "b", "c"];
    LastFolds(t);
    OnlyTheLatecomer();
    IndianConserves(t, "b", Folded, ids);
    WealthAt(RICH, t.accounts, ids, "a");
  }

  // ---------- a ruined leader ----------

  /** Two players who call for three rounds, the leader with five coins. */
  const CALLS: seq<Event> := [
    Joined("b", false, Purses(5, 50)), Started("a", [0, 0]),
    Played("a", Called, Purses(5, 50)), Played("b", Called, Purses(4, 50)),
    Played("a", Called, Purses(4, 49)), Played("b", Called, Purses(2, 49)),
    Played("a", Called, Purses(2, 47))]

  function Purses(a: nat, b: nat): Accounts {
    map["a" := a, "b" := b]
  }

  /** The leader to act in some round, and the other after that. */
  function Calling(round: int, pot: int, leader: Move): Room {
    Room("a", 2, 1, false, InProgress, round, round, 5, pot, [], [Seat("a", leader, 0), Seat("b", Idle, 1)])
  }

  lemma LeaderCalls(round: nat, pot: int, accounts: Accounts)
    requires round >= 1
    ensures Attempt(Cards(HighLow), Calling(round, pot, Idle), Played("a", Called, accounts))
      == Success(Calling(round, pot + Stake(accounts, "a", round), Called))
  {
    hide Play;
    var t := Table(Calling(round, pot, Idle), accounts);
    GameGoesOn(HighLow, t, 0, Called, 0, 1, 1);
    assert t.room.members[0 := Seat("a", Called, 0)] == Calling(round, pot, Called).members;
  }

  lemma BothCalled(members: seq<Member>)
    requires members == [Seat("a", Called, 0), Seat("b", Called, 1)]
    ensures AllActed(members) && Participants(members) == members && Unfolded(members) == 2
    ensures Count(members, IsDeclared) == 0 && HighLowWinners(members) == []
  {
    AllParticipate(members);
    CountNone(members, IsDeclared);
    CountNone(members, HasFolded);
    HighLowPotVanishes(members);
  }

  lemma CallsAreIn(t: Table, members: seq<Member>)
    requires t.room.members == [Seat("a", Called, 0), Seat("b", Idle, 1)] && members == [Seat("a", Called, 0), Seat("b", Called, 1)]
    ensures MemberAt(t.room.members, "b") == Some(Seat("b", Idle, 1)) && WithMove(t.room.members, "b", Called) == members
  {
    SeatedAt(t.room.members, 1);
    Moved(t.room.members, 1, Called);
  }

  lemma Solvent(members: seq<Member>, accounts: Accounts)
    requires members == [Seat("a", Called, 0), Seat("b", Called, 1)]
    ensures CoinlessPlayer(members, accounts) <==> Coins(accounts, "a") == 0 || Coins(accounts, "b") == 0
  {
    AllParticipate(members);
    assert members[0] in members && members[1] in members;
  }

  lemma RoundIsCalled(round: nat, pot: int, accounts: Accounts)
    requires 1 <= round < 5 && Coins(accounts, "a") > 0 && Coins(accounts, "b") > round
    ensures Attempt(Cards(HighLow), Calling(round, pot, Called), Played("b", Called, accounts))
      == Success(Calling(round + 1, pot + round, Idle))
  {
    var t := Table(Calling(round, pot, Called), accounts);
    var members := [Seat("a", Called, 0), Seat("b", Called, 1)];
    hide Play, PlayedMove, Over, AllActed, Acted, Attempt, Unfolded, Participants, Count, HighLowWinners;
    ActedRoom(t, 1, Called);
    BothCalled(members);
    TurnIsAccepted(HighLow, t, 1, Called);
    PlayedEvent(HighLow, t.room, "b", Called, accounts);
    var u := Acted(t, "b", Called);
    assert u.room.members == members;
    SameMove(HighLow, t, "b", Called);
    PlayIs(HighLow, t, "b", Called);
    CallsGoOn(u);
    assert Reopened(members) == Calling(round + 1, pot, Idle).members;
  }

  lemma CallsGoOn(u: Table)
    requires u.room.members == [Seat("a", Called, 0), Seat("b", Called, 1)] && u.room.currentBet < u.room.maxBet
    requires Coins(u.accounts, "a") > 0 && Coins(u.accounts, "b") > 0
    ensures !Over(HighLow, u)
  {
    BothCalled(u.room.members);
    Solvent(u.room.members, u.accounts);
    hide CoinlessPlayer, AllActed, Unfolded, Participants, Count;
  }

  lemma CallsRoom()
    ensures CreateRoom(Purses(5, 50), "a", false, 2, 1, false) == Success(Gathered(2, 1, [Seat("a", Waiting, -1)]))
    ensures After(Cards(HighLow), Gathered(2, 1, [Seat("a", Waiting, -1)]), CALLS) == Calling(3, 8, Called)
  {
    hide After, Attempt;
    var kind, first := Cards(HighLow), Gathered(2, 1, [Seat("a", Waiting, -1)]);
    TwoAreDealt(HighLow, 2, 1, Purses(5, 50), CALLS);
    LeaderCalls(1, 0, Purses(5, 50));
    Then(kind, first, CALLS, 2, Calling(1, 1, Called));
    RoundIsCalled(1, 1, Purses(4, 50));
    Then(kind, first, CALLS, 3, Calling(2, 2, Idle));
    LeaderCalls(2, 2, Purses(4, 49));
    Then(kind, first, CALLS, 4, Calling(2, 4, Called));
    RoundIsCalled(2, 4, Purses(2, 49));
    Then(kind, first, CALLS, 5, Calling(3, 6, Idle));
    LeaderCalls(3, 6, Purses(2, 47));
    Then(kind, first, CALLS, 6, Calling(3, 8, Called));
    assert CALLS[..7] == CALLS;
  }

  lemma LastCallEnds(t: Table)
    requires t == Table(Calling(3, 8, Called), Purses(0, 47))
    ensures PlayHighLow(t, "b", Called).Success? && Ended(t, PlayHighLow(t, "b", Called).value)
    ensures HighLowWinners(WithMove(t.room.members, "b", Called)) == []
    ensures PlayHighLow(t, "b", Called).value.room.leader == "a"
  {
    var members := [Seat("a", Called, 0), Seat("b", Called, 1)];
    CallsAreIn(t, members);
    BothCalled(members);
    hide AllActed, WithMove, MemberAt, Unfolded, Participants, Count, HighLowWinners, Survivors, CoinlessPlayer, Broke;
    var u := Acted(t, "b", Called);
    Solvent(members, u.accounts);
  }

  /**
   A leader with five coins and another player call in every round. In the third the leader is all in, so the
   round ends the game with no hand declared: the eleven coins in the pot are gone, and the room is still led
   by the ruined leader, who has been ejected, although the other player is there.
   */
  lemma RuinedLeaderStays()
    ensures CreateRoom(Purses(5, 50), "a", false, 2, 1, false).Success?
    ensures var room := After(Cards(HighLow), CreateRoom(Purses(5, 50), "a", false, 2, 1, false).value, CALLS);
      var t := Table(room, Purses(0, 47));
      var r := PlayHighLow(t, "b", Called);
      && r.Success? && Ended(t, r.value) && r.value.room.winners == []
      && r.value.room.leader == "a" && !Plays(r.value.room.members, "a")
      && Coins(r.value.accounts, "a") == 0 && Coins(r.value.accounts, "b") == 44
  {
    hide After, PlayHighLow, HighLowWinners, WithMove, Plays, CreateRoom, Play;
    CallsRoom();
    var t := Table(Calling(3, 8, Called), Purses(0, 47));
    HighLowIsPlayed(t, "b", Called);
    LastCallEnds(t);
    LeaderSits(t.room);
    LeaderAfterGame(HighLow, t, "b", Called);
    HighLowPays(t, "b", Called, "a");
    HighLowPays(t, "b", Called, "b");
  }

  lemma HighLowIsPlayed(t: Table, id: Id, move: Move)
    ensures Play(HighLow, t, id, move) == PlayHighLow(t, id, move)
  {
    hide PlayHighLow;
  }

  lemma LeaderSits(room: Room)
    requires room == Calling(3, 8, Called)
    ensures Plays(room.members, "a")
  {
    assert room.members[0] in room.members;
  }

  // ---------- a game nobody can go on with ----------

  const QUIT: seq<Event> := [
    Joined("b", false, RICH), Joined("c", false, RICH), Started("a", [0, 0, 0]),
    Played("a", Called, RICH), Played("b", Called, RICH["a" := 90]), Left("c")]

  /** Three at the table, the first two having done this. */
  function Three(pot: int, a: Move, b: Move): Room {
    Dealt(3, 10, pot, [Seat("a", a, 0), Seat("b", b, 1), Seat("c", Idle, 2)])
  }

  function Trio(): seq<Member> {
    [Seat("a", Waiting, -1), Seat("b", Waiting, -1), Seat("c", Waiting, -1)]
  }

  lemma TrioIsDealt(game: Game)
    ensures After(Cards(game), Gathered(3, 10, [Seat("a", Waiting, -1)]), QUIT[..3]) == Three(0, Idle, Idle)
  {
    hide After, Attempt;
    var kind, first := Cards(game), Gathered(3, 10, [Seat("a", Waiting, -1)]);
    var pair := [Seat("a", Waiting, -1), Seat("b", Waiting, -1)];
    SitsDown(kind, first, RICH, "b");
    assert first.members + [Seat("b", Waiting, -1)] == pair;
    NothingYet(kind, first);
    Then(kind, first, QUIT, 0, first.(members := pair));
    SitsDown(kind, first.(members := pair), RICH, "c");
    assert pair + [Seat("c", Waiting, -1)] == Trio();
    Then(kind, first, QUIT, 1, first.(members := Trio()));
    TrioBegins(game);
    Then(kind, first, QUIT, 2, Three(0, Idle, Idle));
  }

  lemma TrioBegins(game: Game)
    ensures Attempt(Cards(game), Gathered(3, 10, Trio()), Started("a", [0, 0, 0])) == Success(Three(0, Idle, Idle))
  {
    hide Attempt;
    Begins(game, Gathered(3, 10, Trio()), [0, 0, 0]);
    assert Hands(Trio(), 0) == Three(0, Idle, Idle).members;
  }

  lemma TwoCall(game: Game)
    ensures Attempt(Cards(game), Three(0, Idle, Idle), QUIT[3]) == Success(Three(10, Called, Idle))
    ensures Attempt(Cards(game), Three(10, Called, Idle), QUIT[4]) == Success(Three(20, Called, Called))
  {
    hide Play;
    GameGoesOn(game, Table(Three(0, Idle, Idle), RICH), 0, Called, 1, 2, 2);
    assert Three(0, Idle, Idle).members[0 := Seat("a", Called, 0)] == Three(10, Called, Idle).members;
    GameGoesOn(game, Table(Three(10, Called, Idle), RICH["a" := 90]), 1, Called, 0, 2, 2);
    assert Three(10, Called, Idle).members[1 := Seat("b", Called, 1)] == Three(20, Called, Called).members;
  }

  function Two(): Room {
    Dealt(3, 10, 20, [Seat("a", Called, 0), Seat("b", Called, 1)])
  }

  lemma {:induction false} DropsNobody(members: seq<Member>, id: Id)
    requires forall i :: 0 <= i < |members| ==> members[i].id != id
    ensures WithoutMember(members, id) == members
    decreases |members|
  {
    if members != [] {
      var n := |members| - 1;
      DropsNobody(members[..n], id);
      assert members == members[..n] + [members[n]];
    }
  }

  lemma CLeaves()
    ensures var members := Three(20, Called, Called).members;
      && MemberAt(members, "c") == Some(Seat("c", Idle, 2)) && WithoutMember(members, "c") == Two().members
    ensures Participants(Two().members) == Two().members && AllActed(Two().members)
  {
    hide Participants;
    var members := Three(20, Called, Called).members;
    SeatedAt(members, 2);
    assert members[..2] == Two().members;
    DropsNobody(Two().members, "c");
    assert WithoutMember(members, "c") == WithoutMember(members[..2], "c") + [];
    AllParticipate(Two().members);
  }

  lemma LastLeaves(game: Game)
    ensures Leave(Three(20, Called, Called), "c") == Success(Two())
    ensures Attempt(Cards(game), Three(20, Called, Called), QUIT[5]) == Success(Two())
  {
    hide WithoutMember, MemberAt, Participants, AllActed;
    CLeaves();
  }

  lemma QuitRoom(game: Game)
    ensures After(Cards(game), Gathered(3, 10, [Seat("a", Waiting, -1)]), QUIT[..5]) == Three(20, Called, Called)
    ensures After(Cards(game), Gathered(3, 10, [Seat("a", Waiting, -1)]), QUIT) == Two()
  {
    hide After, Attempt;
    var kind, first := Cards(game), Gathered(3, 10, [Seat("a", Waiting, -1)]);
    TrioIsDealt(game);
    TwoCall(game);
    LastLeaves(game);
    hide Gathered, Three, Two, Dealt, Leave;
    Then(kind, first, QUIT, 3, Three(10, Called, Idle));
    Then(kind, first, QUIT, 4, Three(20, Called, Called));
    Then(kind, first, QUIT, 5, Two());
    assert QUIT[..6] == QUIT;
  }

  /**
   Three are dealt cards, two call, and the third leaves instead of acting: the game is still in its first round
   with twenty coins in the pot, and no action of those who stay is ever accepted.
   */
  lemma LastToActLeaves(game: Game)
    ensures CreateRoom(RICH, "a", false, 3, 10, false).Success?
    ensures var room := After(Cards(game), CreateRoom(RICH, "a", false, 3, 10, false).value, QUIT);
      && room.status == InProgress && room.round == 1 && room.pot == 20 && Players(room) == 2
      && Stuck(game, room)
  {
    hide After, Stuck, CreateRoom;
    LateStart();
    QuitRoom(game);
    LastLeaves(game);
    CLeaves();
    ThreeAreOk(game);
    hide WithoutMember, AllActed, Leave, Participants, RoomOk;
    LeavingCanWedge(game, Three(20, Called, Called), "c");
  }

  lemma ThreeAreOk(game: Game)
    ensures RoomOk(Cards(game), Three(20, Called, Called))
  {
    AllParticipate(Three(20, Called, Called).members);
  }

  // ---------- a room everybody leaves ----------

  function One(): Room {
    Two().(leader := "b", members := [Seat("b", Called, 1)])
  }

  function Nobody(): Room {
    One().(members := [], status := Disbanded)
  }

  lemma ALeaves()
    ensures MemberAt(Two().members, "a") == Some(Seat("a", Called, 0)) && WithoutMember(Two().members, "a") == One().members
    ensures Participants(One().members) == One().members
  {
    hide Participants;
    var two := Two().members;
    SeatedAt(two, 0);
    DropsNobody(One().members, "a");
    assert two[..1][..0] == [] && two[..1][0] == two[0];
    assert WithoutMember(two[..1], "a") == [];
    assert [] + [two[1]] == One().members;
    AllParticipate(One().members);
  }

  lemma BLeaves()
    ensures MemberAt(One().members, "b") == Some(Seat("b", Called, 1)) && WithoutMember(One().members, "b") == []
    ensures Participants([]) == []
  {
    var one := One().members;
    SeatedAt(one, 0);
    assert one[..0] == [];
  }

  lemma BothLeave(game: Game)
    ensures Attempt(Cards(game), Two(), Left("a")) == Success(One())
    ensures Attempt(Cards(game), One(), Left("b")) == Success(Nobody())
  {
    hide WithoutMember, MemberAt, Participants;
    ALeaves();
    BLeaves();
  }

  /** When those two leave as well the room closes, and the twenty coins in its pot go to nobody: leaving pays nothing. */
  lemma ClosingTakesThePot(game: Game)
    ensures CreateRoom(RICH, "a", false, 3, 10, false).Success?
    ensures var room := After(Cards(game), CreateRoom(RICH, "a", false, 3, 10, false).value, QUIT + [Left("a"), Left("b")]);
      room.status == Disbanded && room.members == [] && room.round == 1 && room.pot == 20
  {
    hide After, Attempt, CreateRoom;
    LateStart();
    QuitRoom(game);
    BothLeave(game);
    var events := QUIT + [Left("a"), Left("b")];
    assert events[..6] == QUIT && events[..8] == events;
    Then(Cards(game), Gathered(3, 10, [Seat("a", Waiting, -1)]), events, 6, One());
    Then(Cards(game), Gathered(3, 10, [Seat("a", Waiting, -1)]), events, 7, Nobody());
  }
}

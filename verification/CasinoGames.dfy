/** Whole games from the deal to the showdown, with the roster that was dealt to. */
module CasinoGames {
  import opened Common
  import opened CasinoTable
  import opened CasinoRules
  import opened CasinoCoins
  import opened CasinoBetting
  import opened CasinoDealing

  // ---------- hands still in the game ----------

  predicate InPlay(m: Member) { m.move != Folded }

  lemma {:induction false} UnfoldedCount(members: seq<Member>)
    ensures Count(members, HasFolded) + Count(members, InPlay) == |members|
    decreases |members|
  {
    if members != [] {
      UnfoldedCount(members[..|members| - 1]);
    }
  }

  /** A move takes at most one hand out of the game. */
  lemma {:induction false} OneHandAtMost(members: seq<Member>, id: Id, move: Move)
    requires DistinctMembers(members)
    ensures Count(Participants(members), InPlay) <= Count(Participants(WithMove(members, id, move)), InPlay) + 1
    ensures (forall m :: m in members ==> m.id != id) ==> WithMove(members, id, move) == members
    decreases |members|
  {
    hide Participants, Count;
    if members != [] {
      var n := |members| - 1;
      WithMovePrefix(members, id, move);
      OpenAppend(members, InPlay);
      OpenAppend(WithMove(members, id, move), InPlay);
      OneHandAtMost(members[..n], id, move);
    } else {
      assert WithMove(members, id, move) == members;
    }
  }

  lemma ActingFoldsOne(members: seq<Member>, id: Id, move: Move)
    requires DistinctMembers(members)
    ensures Unfolded(WithMove(members, id, move)) >= Unfolded(members) - 1
  {
    UnfoldedCount(Participants(members));
    UnfoldedCount(Participants(WithMove(members, id, move)));
    OneHandAtMost(members, id, move);
  }

  lemma {:induction false} ReopeningKeepsHands(members: seq<Member>)
    ensures Count(Participants(Reopened(members)), InPlay) == Count(Participants(members), InPlay)
    decreases |members|
  {
    hide Participants, Count;
    if members == [] {
      assert Reopened(members) == members;
    } else {
      var n := |members| - 1;
      assert Reopened(members)[..n] == Reopened(members[..n]);
      OpenAppend(members, InPlay);
      OpenAppend(Reopened(members), InPlay);
      ReopeningKeepsHands(members[..n]);
    }
  }

  lemma ReopeningFoldsNobody(members: seq<Member>)
    ensures Unfolded(Reopened(members)) == Unfolded(members)
  {
    UnfoldedCount(Participants(members));
    UnfoldedCount(Participants(Reopened(members)));
    ReopeningKeepsHands(members);
  }

  lemma SomeHandIsLeft(members: seq<Member>)
    requires Unfolded(members) >= 1
    ensures exists m :: m in Participants(members) && m.move != Folded
  {
    CountAll(Participants(members), HasFolded);
  }

  /** As long as a dealt hand is left there is a card among the unfolded hands. */
  lemma DealtHandHoldsACard(members: seq<Member>)
    requires DistinctHandsOk(members) && Unfolded(members) >= 1
    ensures !NoCardLeft(members)
  {
    SomeHandIsLeft(members);
  }

  // ---------- one action of a dealt game ----------

  /** A dealt game that goes on: bets within bounds, distinct cards all around, nobody shown as winner. */
  ghost predicate InDeal(game: Game, room: Room) {
    && Betting(room) && ToAct(room.members) <= Players(room) && PotBounded(room)
    && DistinctHandsOk(room.members) && room.winners == []
    && (game == IndianPoker ==> Unfolded(room.members) >= 2)
  }

  lemma NobodyFoldedYet(before: seq<Member>, members: seq<Member>, deck: seq<int>)
    requires DealtFrom(before, members, deck)
    ensures Unfolded(members) == |Participants(before)|
  {
    CountNone(Participants(members), HasFolded);
    forall m | m in Participants(members) ensures !HasFolded(m) {
      InParticipants(members, m);
    }
    DealKeepsParticipants(before, members);
  }

  lemma StartIsInDeal(game: Game, room: Room, leader: Id, draws: seq<nat>)
    requires Startable(room) && StartCards(room, leader, draws).Success?
    ensures InDeal(game, StartCards(room, leader, draws).value)
  {
    hide Betting, DistinctHandsOk, Participants, Unfolded, DealtFrom, Deal, ToAct, PotBounded;
    StartIsBetting(room, leader, draws);
    StartDealsDistinctHands(room, leader, draws);
    NobodyFoldedYet(room.members, StartCards(room, leader, draws).value.members, Deck(DECK_SIZE));
  }

  lemma InDealParts(game: Game, room: Room)
    requires InDeal(game, room)
    ensures Betting(room) && DistinctHandsOk(room.members) && (game == IndianPoker ==> Unfolded(room.members) >= 2)
    ensures room.winners == [] && room.pot >= 0 && room.round >= 1 && DistinctMembers(room.members) && Named(room.members)
    ensures ToAct(room.members) <= Players(room) && PotBounded(room)
  {
  }

  lemma ActedInDeal(game: Game, t: Table, id: Id, move: Move)
    requires InDeal(game, t.room)
    ensures var u := Acted(t, id, move).room;
      && SameHands(t.room.members, u.members) && DistinctHandsOk(u.members) && u.winners == [] && u.pot >= 0
      && DistinctMembers(u.members) && Named(u.members) && (game == IndianPoker ==> Unfolded(u.members) >= 1)
  {
    hide Unfolded, DistinctHandsOk, DistinctMembers, Named, Betting, SameHands, InDeal, PotBounded;
    InDealParts(game, t.room);
    MoveKeepsHands(t, id, move);
    SameHandsKeepsDistinct(t.room.members, Acted(t, id, move).room.members);
    ActingFoldsOne(t.room.members, id, move);
    MovedMembers(t.room.members, id, move);
  }

  lemma UnfinishedHasTwo(u: Table)
    requires !IndianOver(u)
    ensures Unfolded(u.room.members) >= 2
  {
    hide AllActed, CoinlessPlayer;
  }

  lemma NextRoundHands(room: Room)
    ensures SameHands(room.members, NextRound(room).members) && NextRound(room).winners == room.winners
    ensures Unfolded(NextRound(room).members) == Unfolded(room.members)
  {
    hide Unfolded;
    ReopeningFoldsNobody(room.members);
  }

  lemma SameHandsThrough(a: seq<Member>, b: seq<Member>, c: seq<Member>)
    requires SameHands(a, b) && SameHands(b, c)
    ensures SameHands(a, c)
  {
  }

  /** Every accepted action of a dealt game ends it or leaves it a dealt game with the same hands. */
  lemma ActionStaysInDeal(game: Game, t: Table, id: Id, move: Move)
    requires InDeal(game, t.room) && Play(game, t, id, move).Success?
    ensures var u := Play(game, t, id, move).value;
      u.room.round != 0 ==> InDeal(game, u.room) && SameHands(t.room.members, u.room.members)
  {
    hide Play, Over, IndianOver, AllActed, PotBounded, ToAct, Players, Acted, Unfolded, DistinctHandsOk, Betting, SameHands, NextRound, PlayedMove, InDeal;
    InDealParts(game, t.room);
    ActionGetsCloser(game, t, id, move);
    PlayIs(game, t, id, move);
    var played := PlayedMove(game, t, id, move);
    var v, u := Acted(t, id, played), Play(game, t, id, move).value;
    ActedInDeal(game, t, id, played);
    if u.room.round != 0 {
      if game == IndianPoker { NotOverHasTwo(game, v); }
      NextRoundHands(v.room);
      SameHandsThrough(t.room.members, v.room.members, NextRound(v.room).members);
      SameHandsKeepsDistinct(t.room.members, u.room.members);
      PartsInDeal(game, u.room);
    }
  }

  lemma NotOverHasTwo(game: Game, v: Table)
    requires game == IndianPoker && !Over(game, v)
    ensures Unfolded(v.room.members) >= 2
  {
    hide IndianOver, Unfolded;
    UnfinishedHasTwo(v);
  }

  lemma PartsInDeal(game: Game, room: Room)
    requires Betting(room) && ToAct(room.members) <= Players(room) && PotBounded(room)
    requires DistinctHandsOk(room.members) && room.winners == [] && (game == IndianPoker ==> Unfolded(room.members) >= 2)
    ensures InDeal(game, room)
  {
  }

  /** A showdown of a dealt game shows the winners among its hands; Indian poker then has one, who gets the pot. */
  lemma DealtShowdown(game: Game, t: Table, id: Id, move: Move)
    requires InDeal(game, t.room) && Play(game, t, id, move).Success? && Play(game, t, id, move).value.room.round == 0
    ensures var members := WithMove(t.room.members, id, PlayedMove(game, t, id, move));
      var u := Play(game, t, id, move).value;
      && u.room.winners == Winners(game, members) && u.room.pot == 0
      && Named(members) && DistinctMembers(members) && DistinctHandsOk(members)
      && (game == IndianPoker ==> !NoCardLeft(members) && |u.room.winners| == 1)
  {
    hide DistinctHandsOk, Betting, SameHands, InDeal, IndianOver, HighLowOver, AllActed, Unfolded, IndianWinners, HighLowWinners, NoCardLeft, PayAll, Survivors, Heir;
    InDealParts(game, t.room);
    var played := PlayedMove(game, t, id, move);
    var v := Acted(t, id, played);
    ActedInDeal(game, t, id, played);
    if game == IndianPoker {
      DealtHandHoldsACard(v.room.members);
      IndianPotVanishes(v.room.members);
    }
    ShowdownShows(game, t, id, move);
  }

  lemma ShowdownShows(game: Game, t: Table, id: Id, move: Move)
    requires Play(game, t, id, move).Success? && Ended(t, Play(game, t, id, move).value)
    ensures var winners := Winners(game, WithMove(t.room.members, id, PlayedMove(game, t, id, move)));
      var u := Play(game, t, id, move).value;
      u.room.pot == 0 && u.room.winners == if winners == [] && game == IndianPoker then t.room.winners else winners
  {
    hide IndianOver, HighLowOver, AllActed, HighLowWinners, BestUnfolded, PayAll, Survivors, Heir, ActRefusal;
  }

  // ---------- whole games ----------

  lemma {:induction false} GameStaysInDeal(game: Game, room: Room, turns: seq<Turn>)
    requires InDeal(game, room) && PlayAll(game, room, turns).Some?
    ensures var last := PlayAll(game, room, turns).value;
      last.round != 0 ==> InDeal(game, last) && SameHands(room.members, last.members)
    decreases |turns|
  {
    hide InDeal, Play, SameHands;
    if turns == [] {
      SameHandsSelf(room.members);
    } else {
      var n := |turns| - 1;
      GameStaysInDeal(game, room, turns[..n]);
      var t := Table(PlayAll(game, room, turns[..n]).value, turns[n].accounts);
      AcceptedActor(game, t, turns[n].id, turns[n].move);
      ActionStaysInDeal(game, t, turns[n].id, turns[n].move);
      if PlayAll(game, room, turns).value.round != 0 {
        SameHandsThrough(room.members, t.room.members, PlayAll(game, room, turns).value.members);
      }
    }
  }

  lemma SameHandsSelf(members: seq<Member>)
    ensures SameHands(members, members)
  {
  }

  /** From the deal to the showdown everybody keeps the card that was dealt, and no two hold the same. */
  lemma DealtHandsLast(game: Game, room: Room, leader: Id, draws: seq<nat>, turns: seq<Turn>)
    requires Startable(room) && StartCards(room, leader, draws).Success?
    requires PlayAll(game, StartCards(room, leader, draws).value, turns).Some?
    ensures var started := StartCards(room, leader, draws).value;
      var last := PlayAll(game, started, turns).value;
      last.round != 0 ==> SameHands(started.members, last.members) && DistinctHandsOk(last.members)
  {
    hide InDeal, Startable, StartCards, SameHands, DistinctHandsOk;
    StartIsInDeal(game, room, leader, draws);
    GameStaysInDeal(game, StartCards(room, leader, draws).value, turns);
    var last := PlayAll(game, StartCards(room, leader, draws).value, turns).value;
    if last.round != 0 { InDealParts(game, last); }
  }

  /** The action that ends a dealt game finds the same winners in whatever order the members are listed. */
  lemma DealtWinnersIgnoreOrder(game: Game, room: Room, leader: Id, draws: seq<nat>, turns: seq<Turn>, end: Turn, others: seq<Member>)
    requires Startable(room) && StartCards(room, leader, draws).Success?
    requires PlayAll(game, StartCards(room, leader, draws).value, turns).Some?
    requires var last := PlayAll(game, StartCards(room, leader, draws).value, turns).value;
      var t := Table(last, end.accounts);
      && Play(game, t, end.id, end.move).Success? && Play(game, t, end.id, end.move).value.room.round == 0
      && Reordered(WithMove(last.members, end.id, PlayedMove(game, t, end.id, end.move)), others) && DistinctMembers(others)
    ensures var last := PlayAll(game, StartCards(room, leader, draws).value, turns).value;
      Play(game, Table(last, end.accounts), end.id, end.move).value.room.winners == Winners(game, others)
  {
    hide InDeal, Startable, StartCards, DistinctHandsOk, Play, PlayedMove, WithMove;
    StartIsInDeal(game, room, leader, draws);
    GameStaysInDeal(game, StartCards(room, leader, draws).value, turns);
    var t := Table(PlayAll(game, StartCards(room, leader, draws).value, turns).value, end.accounts);
    AcceptedActor(game, t, end.id, end.move);
    DealtShowdown(game, t, end.id, end.move);
    var members := WithMove(t.room.members, end.id, PlayedMove(game, t, end.id, end.move));
    ReorderedWinners(game, members, others);
  }

  lemma ReorderedWinners(game: Game, members: seq<Member>, others: seq<Member>)
    requires Named(members) && DistinctMembers(members) && DistinctMembers(others)
    requires DistinctHandsOk(members) && Reordered(members, others)
    ensures Winners(game, members) == Winners(game, others)
  {
    hide HighLowWinners, BestUnfolded;
    assert Named(others);
    if game == IndianPoker {
      IndianWinnerIgnoresOrder(members, others);
    } else {
      HighLowWinnersIgnoreOrder(members, others);
    }
  }

  // ---------- no coin is lost in a dealt game of Indian poker ----------

  /** The table as the k-th action finds it, and as it leaves it. */
  function Found(game: Game, room: Room, turns: seq<Turn>, k: nat): Table
    requires k < |turns|
  {
    var before := PlayAll(game, room, turns[..k]);
    Table(if before.Some? then before.value else room, turns[k].accounts)
  }

  function Leaves(game: Game, room: Room, turns: seq<Turn>, k: nat): Table
    requires k < |turns|
  {
    var t := Found(game, room, turns, k);
    var r := Play(game, t, turns[k].id, turns[k].move);
    if r.Success? then r.value else t
  }

  function Held(t: Table, ids: seq<Id>): int {
    Wealth(t.accounts, ids) + t.room.pot
  }

  lemma CoversSameHands(ids: seq<Id>, before: seq<Member>, after: seq<Member>)
    requires Covers(ids, before) && SameHands(before, after)
    ensures Covers(ids, after)
  {
    forall m | m in after ensures m.id in ids {
      var i :| 0 <= i < |after| && after[i] == m;
      assert before[i] in before;
    }
  }

  lemma DealtActionConserves(t: Table, id: Id, move: Move, ids: seq<Id>)
    requires InDeal(IndianPoker, t.room) && Covers(ids, t.room.members) && PlayIndian(t, id, move).Success?
    ensures Held(PlayIndian(t, id, move).value, ids) == Held(t, ids)
  {
    hide InDeal, PlayIndian, Covers, NoCardLeft;
    InDealParts(IndianPoker, t.room);
    IndianConserves(t, id, move, ids);
    if Ended(t, PlayIndian(t, id, move).value) {
      DealtShowdown(IndianPoker, t, id, move);
    }
  }

  lemma {:induction false} EveryActionConserves(room: Room, turns: seq<Turn>, ids: seq<Id>)
    requires InDeal(IndianPoker, room) && Covers(ids, room.members) && PlayAll(IndianPoker, room, turns).Some?
    ensures forall k :: 0 <= k < |turns| ==>
      Held(Leaves(IndianPoker, room, turns, k), ids) == Held(Found(IndianPoker, room, turns, k), ids)
    ensures var last := PlayAll(IndianPoker, room, turns).value;
      if last.round == 0 then |last.winners| == 1 && last.pot == 0 else last.winners == []
    decreases |turns|
  {
    hide InDeal, Play, Covers, SameHands, Held;
    if turns == [] {
      InDealParts(IndianPoker, room);
    } else {
      var n := |turns| - 1;
      EveryActionConserves(room, turns[..n], ids);
      forall k | 0 <= k < n
        ensures Found(IndianPoker, room, turns, k) == Found(IndianPoker, room, turns[..n], k)
        ensures Leaves(IndianPoker, room, turns, k) == Leaves(IndianPoker, room, turns[..n], k)
      {
        assert turns[..n][..k] == turns[..k];
      }
      LastActionConserves(room, turns, ids);
    }
  }

  lemma LastActionConserves(room: Room, turns: seq<Turn>, ids: seq<Id>)
    requires InDeal(IndianPoker, room) && Covers(ids, room.members) && turns != [] && PlayAll(IndianPoker, room, turns).Some?
    ensures var n := |turns| - 1;
      Held(Leaves(IndianPoker, room, turns, n), ids) == Held(Found(IndianPoker, room, turns, n), ids)
    ensures var last := PlayAll(IndianPoker, room, turns).value;
      if last.round == 0 then |last.winners| == 1 && last.pot == 0 else last.winners == []
  {
    hide InDeal, PlayIndian, Covers, SameHands, Held;
    var n := |turns| - 1;
    GameStaysInDeal(IndianPoker, room, turns[..n]);
    var t := Found(IndianPoker, room, turns, n);
    AcceptedActor(IndianPoker, t, turns[n].id, turns[n].move);
    CoversSameHands(ids, room.members, t.room.members);
    DealtActionConserves(t, turns[n].id, turns[n].move, ids);
    ActionStaysInDeal(IndianPoker, t, turns[n].id, turns[n].move);
    var last := PlayAll(IndianPoker, room, turns).value;
    if last.round == 0 {
      DealtShowdown(IndianPoker, t, turns[n].id, turns[n].move);
    } else {
      InDealParts(IndianPoker, last);
    }
  }

  /**
   A dealt game of Indian poker with its own roster loses nothing: no action changes what the members own together
   with the pot, whatever happens to their accounts in between, and when it ends somebody has won and no pot is left.
   */
  lemma DealtGameLosesNothing(room: Room, leader: Id, draws: seq<nat>, turns: seq<Turn>, ids: seq<Id>)
    requires Startable(room) && Covers(ids, room.members) && StartCards(room, leader, draws).Success?
    requires PlayAll(IndianPoker, StartCards(room, leader, draws).value, turns).Some?
    ensures var started := StartCards(room, leader, draws).value;
      && (forall k :: 0 <= k < |turns| ==>
            Held(Leaves(IndianPoker, started, turns, k), ids) == Held(Found(IndianPoker, started, turns, k), ids))
      && var last := PlayAll(IndianPoker, started, turns).value;
      if last.round == 0 then |last.winners| == 1 && last.pot == 0 else last.winners == []
  {
    hide InDeal, Startable, Covers, PlayAll, Held;
    StartIsInDeal(IndianPoker, room, leader, draws);
    var started := StartCards(room, leader, draws).value;
    StartDealsDistinctHands(room, leader, draws);
    DealtCovers(ids, room.members, started.members);
    EveryActionConserves(started, turns, ids);
  }

  lemma DealtCovers(ids: seq<Id>, before: seq<Member>, after: seq<Member>)
    requires Covers(ids, before) && DealtFrom(before, after, Deck(DECK_SIZE))
    ensures Covers(ids, after)
  {
    forall m | m in after ensures m.id in ids {
      var i :| 0 <= i < |after| && after[i] == m;
      assert before[i] in before;
    }
  }

  /** Nothing but the game itself touches the accounts. */
  ghost predicate Undisturbed(room: Room, turns: seq<Turn>) {
    forall k :: 1 <= k < |turns| ==> turns[k].accounts == Leaves(IndianPoker, room, turns, k - 1).accounts
  }

  lemma {:induction false} ThreadedTotal(room: Room, turns: seq<Turn>, ids: seq<Id>, k: nat)
    requires PlayAll(IndianPoker, room, turns).Some? && Undisturbed(room, turns) && k < |turns|
    requires forall i :: 0 <= i < |turns| ==> Held(Leaves(IndianPoker, room, turns, i), ids) == Held(Found(IndianPoker, room, turns, i), ids)
    ensures Held(Leaves(IndianPoker, room, turns, k), ids) == Wealth(turns[0].accounts, ids) + room.pot
    decreases k
  {
    hide Play, Wealth;
    if k == 0 {
      assert turns[..0] == [];
    } else {
      ThreadedTotal(room, turns, ids, k - 1);
      PlayedPrefix(IndianPoker, room, turns, k);
      assert turns[..k][..k - 1] == turns[..k - 1] && turns[..k][k - 1] == turns[k - 1];
    }
  }

  lemma {:induction false} PlayedPrefix(game: Game, room: Room, turns: seq<Turn>, k: nat)
    requires PlayAll(game, room, turns).Some? && k <= |turns|
    ensures PlayAll(game, room, turns[..k]).Some?
    decreases |turns|
  {
    hide Play;
    if k == |turns| {
      assert turns[..k] == turns;
    } else {
      var n := |turns| - 1;
      PlayedPrefix(game, room, turns[..n], k);
      assert turns[..n][..k] == turns[..k];
    }
  }

  /** Played to its end without outside payments, a dealt game leaves its members together with what they came with. */
  lemma DealtGameRedistributes(room: Room, leader: Id, draws: seq<nat>, turns: seq<Turn>, ids: seq<Id>)
    requires Startable(room) && Covers(ids, room.members) && StartCards(room, leader, draws).Success?
    requires var started := StartCards(room, leader, draws).value;
      turns != [] && PlayAll(IndianPoker, started, turns).Some? && Undisturbed(started, turns)
    ensures var started := StartCards(room, leader, draws).value;
      var last := Leaves(IndianPoker, started, turns, |turns| - 1);
      && Wealth(last.accounts, ids) + last.room.pot == Wealth(turns[0].accounts, ids)
      && (last.room.round == 0 ==> Wealth(last.accounts, ids) == Wealth(turns[0].accounts, ids))
  {
    hide InDeal, Startable, Covers, Play, Undisturbed, Wealth;
    DealtGameLosesNothing(room, leader, draws, turns, ids);
    var started := StartCards(room, leader, draws).value;
    ThreadedTotal(started, turns, ids, |turns| - 1);
    PlayedPrefix(IndianPoker, started, turns, |turns| - 1);
    assert PlayAll(IndianPoker, started, turns) == Some(Leaves(IndianPoker, started, turns, |turns| - 1).room);
  }
}

/** Dealing without replacement, and what distinct cards make of a winner. */
module CasinoDealing {
  import opened Common
  import opened CasinoTable
  import opened CasinoRules
  import opened CasinoCoins
  import opened CasinoBetting

  ghost predicate DistinctCards(deck: seq<int>) {
    forall i, j :: 0 <= i < j < |deck| ==> deck[i] != deck[j]
  }

  lemma DropKeepsDistinct(deck: seq<int>, i: nat)
    requires DistinctCards(deck) && i < |deck|
    ensures DistinctCards(Drop(deck, i)) && |Drop(deck, i)| == |deck| - 1 && deck[i] !in Drop(deck, i)
    ensures forall card :: card in Drop(deck, i) ==> card in deck
  {
    var rest := Drop(deck, i);
    forall k | 0 <= k < |rest| ensures rest[k] == if k < i then deck[k] else deck[k + 1] {
    }
  }

  /** Every participant holds a card of the deck and no two hold the same; nothing else about a member changes. */
  ghost predicate DealtFrom(before: seq<Member>, after: seq<Member>, deck: seq<int>) {
    && |after| == |before|
    && (forall i :: 0 <= i < |after| ==>
          && after[i].id == before[i].id && after[i].spectator == before[i].spectator
          && (after[i].spectator ==> after[i] == before[i])
          && (!after[i].spectator ==> after[i].card in deck && after[i].move == Idle))
    && forall i, j :: 0 <= i < j < |after| && !after[i].spectator && !after[j].spectator ==> after[i].card != after[j].card
  }

  lemma {:induction false} DealDeals(members: seq<Member>, deck: seq<int>, draws: seq<nat>)
    requires DistinctCards(deck) && Deal(members, deck, draws).Some?
    ensures DealtFrom(members, Deal(members, deck, draws).value, deck)
    decreases |members|
  {
    if members != [] {
      var after := Deal(members, deck, draws).value;
      if members[0].spectator {
        DealDeals(members[1..], deck, draws);
        var rest := Deal(members[1..], deck, draws).value;
        assert after == [members[0]] + rest;
        forall i | 1 <= i < |after| ensures after[i] == rest[i - 1] && members[i] == members[1..][i - 1] {
        }
      } else {
        var left := Drop(deck, draws[0]);
        DropKeepsDistinct(deck, draws[0]);
        DealDeals(members[1..], left, draws[1..]);
        var rest := Deal(members[1..], left, draws[1..]).value;
        forall i | 1 <= i < |after| ensures after[i] == rest[i - 1] && members[i] == members[1..][i - 1] {
        }
      }
    }
  }

  lemma {:induction false} ParticipantsFront(members: seq<Member>)
    requires members != []
    ensures Participants(members) == (if members[0].spectator then [] else [members[0]]) + Participants(members[1..])
    decreases |members|
  {
    var n := |members| - 1;
    if n > 0 {
      ParticipantsFront(members[..n]);
      assert members[..n][1..] == members[1..][..n - 1];
      assert members[1..][n - 1] == members[n];
    }
  }

  /** With enough cards and positions inside the shrinking deck, dealing never fails. */
  lemma {:induction false} DealSucceeds(members: seq<Member>, deck: seq<int>, draws: seq<nat>)
    requires FairDraws(draws, |Participants(members)|, |deck|)
    ensures Deal(members, deck, draws).Some?
    decreases |members|
  {
    if members != [] {
      ParticipantsFront(members);
      if members[0].spectator {
        DealSucceeds(members[1..], deck, draws);
      } else {
        DealSucceeds(members[1..], Drop(deck, draws[0]), draws[1..]);
      }
    }
  }

  /** Cards are not dealt twice as long as the game runs. */
  ghost predicate DistinctHandsOk(members: seq<Member>) {
    && (forall m :: m in Participants(members) ==> 0 <= m.card < DECK_SIZE)
    && forall m, o :: m in Participants(members) && o in Participants(members) && m.card == o.card ==> m.id == o.id
  }

  lemma StartDealsDistinctHands(room: Room, leader: Id, draws: seq<nat>)
    requires StartCards(room, leader, draws).Success?
    ensures var started := StartCards(room, leader, draws).value;
      && DealtFrom(room.members, started.members, Deck(DECK_SIZE))
      && DistinctHandsOk(started.members)
  {
    var after := Deal(room.members, Deck(DECK_SIZE), draws).value;
    DealDeals(room.members, Deck(DECK_SIZE), draws);
    forall m | m in Participants(after) ensures 0 <= m.card < DECK_SIZE {
      InParticipants(after, m);
    }
    forall m, o | m in Participants(after) && o in Participants(after) && m.card == o.card ensures m.id == o.id {
      InParticipants(after, m);
      InParticipants(after, o);
      var i :| 0 <= i < |after| && after[i] == m;
      var j :| 0 <= j < |after| && after[j] == o;
    }
  }

  /** Same people, same seats at the table, same cards. */
  ghost predicate SameHands(before: seq<Member>, after: seq<Member>) {
    |after| == |before| && forall i :: 0 <= i < |after| ==>
      after[i].id == before[i].id && after[i].card == before[i].card && after[i].spectator == before[i].spectator
  }

  lemma SameHandsKeepsDistinct(before: seq<Member>, after: seq<Member>)
    requires SameHands(before, after) && DistinctHandsOk(before)
    ensures DistinctHandsOk(after)
  {
    forall m | m in Participants(after) ensures exists o :: o in Participants(before) && o.id == m.id && o.card == m.card {
      InParticipants(after, m);
      var i :| 0 <= i < |after| && after[i] == m;
      InParticipants(before, before[i]);
    }
  }

  /** Until the showdown no action touches a card. */
  lemma ActionsKeepHands(game: Game, t: Table, id: Id, move: Move)
    requires Play(game, t, id, move).Success? && DistinctHandsOk(t.room.members)
    ensures var u := Play(game, t, id, move).value;
      u.room.round != 0 ==> SameHands(t.room.members, u.room.members) && DistinctHandsOk(u.room.members)
  {
    hide Play, Over, AllActed, DistinctHandsOk, Acted, PlayedMove;
    PlayIs(game, t, id, move);
    var u := Play(game, t, id, move).value;
    var acted := Acted(t, id, PlayedMove(game, t, id, move));
    MoveKeepsHands(t, id, PlayedMove(game, t, id, move));
    if u.room.round != 0 {
      assert SameHands(t.room.members, u.room.members);
      SameHandsKeepsDistinct(t.room.members, u.room.members);
    }
  }

  lemma MoveKeepsHands(t: Table, id: Id, move: Move)
    ensures SameHands(t.room.members, Acted(t, id, move).room.members)
  {
  }

  // ---------- the winner does not depend on who is listed first ----------

  ghost predicate Reordered(members: seq<Member>, others: seq<Member>) {
    forall m :: m in members <==> m in others
  }

  lemma ReorderedParticipants(members: seq<Member>, others: seq<Member>)
    requires Reordered(members, others)
    ensures Reordered(Participants(members), Participants(others))
  {
    forall m ensures m in Participants(members) <==> m in Participants(others) {
      InParticipants(members, m);
      InParticipants(others, m);
    }
  }

  /** Among dealt hands the Indian poker winner is unique, however the members are listed. */
  lemma IndianWinnerIgnoresOrder(members: seq<Member>, others: seq<Member>)
    requires Named(members) && Named(others) && DistinctHandsOk(members) && Reordered(members, others)
    ensures BestUnfolded(Participants(members)).id == BestUnfolded(Participants(others)).id
  {
    ReorderedParticipants(members, others);
    ParticipantsNamed(members);
    ParticipantsNamed(others);
    BestUnfoldedIsBest(Participants(members));
    BestUnfoldedIsBest(Participants(others));
  }

  function Chosen(members: seq<Member>, p: Member -> bool): set<Member> {
    set m | m in members && p(m)
  }

  predicate Anybody(m: Member) { true }

  lemma ChosenGrows(members: seq<Member>, p: Member -> bool)
    requires members != []
    ensures var last := members[|members| - 1];
      Chosen(members, p) == Chosen(members[..|members| - 1], p) + (if p(last) then {last} else {})
  {
    assert forall m :: m in members <==> m in members[..|members| - 1] || m == members[|members| - 1];
  }

  lemma {:induction false} CountIsCardinality(members: seq<Member>, p: Member -> bool)
    requires DistinctMembers(members)
    ensures Count(members, p) == |Chosen(members, p)|
    decreases |members|
  {
    if members == [] {
      assert Chosen(members, p) == {};
    } else {
      var n := |members| - 1;
      CountIsCardinality(members[..n], p);
      ChosenGrows(members, p);
      assert members[n] !in Chosen(members[..n], p);
    }
  }

  lemma LengthIsCardinality(members: seq<Member>)
    requires DistinctMembers(members)
    ensures |members| == |Chosen(members, Anybody)|
  {
    CountAll(members, Anybody);
    CountIsCardinality(members, Anybody);
  }

  lemma ReorderedChosen(members: seq<Member>, others: seq<Member>, p: Member -> bool)
    requires Reordered(members, others)
    ensures Chosen(members, p) == Chosen(others, p)
  {
  }

  lemma UnfoldedIgnoresOrder(members: seq<Member>, others: seq<Member>)
    requires DistinctMembers(members) && DistinctMembers(others) && Reordered(members, others)
    ensures Unfolded(members) == Unfolded(others) && |Participants(members)| == |Participants(others)|
  {
    hide Participants, Count, Chosen, DistinctMembers, Reordered;
    var a, b := Participants(members), Participants(others);
    ReorderedParticipants(members, others);
    ParticipantsDistinct(members);
    ParticipantsDistinct(others);
    CountIsCardinality(a, HasFolded);
    CountIsCardinality(b, HasFolded);
    LengthIsCardinality(a);
    LengthIsCardinality(b);
    ReorderedChosen(a, b, HasFolded);
    ReorderedChosen(a, b, Anybody);
  }

  lemma SoleUnfolded(members: seq<Member>, m: Member, o: Member)
    requires DistinctMembers(members) && Unfolded(members) == 1
    requires m in Participants(members) && o in Participants(members) && m.move != Folded && o.move != Folded
    ensures m == o
  {
    hide Participants, Count, DistinctMembers;
    var playing := Participants(members);
    ParticipantsDistinct(members);
    CountIsCardinality(playing, HasFolded);
    LengthIsCardinality(playing);
    if m != o {
      TwoMissing(Chosen(playing, HasFolded), Chosen(playing, Anybody), m, o);
    }
  }

  lemma TwoMissing(part: set<Member>, all: set<Member>, m: Member, o: Member)
    requires part <= all && m in all && o in all && m != o && m !in part && o !in part
    ensures |part| + 2 <= |all|
  {
    assert |all - {m, o}| == |all| - 2 by { assert {m, o} <= all; }
    SubsetSize(part, all - {m, o});
  }

  lemma {:induction false} SubsetSize<T>(a: set<T>, b: set<T>)
    requires a <= b
    ensures |a| <= |b|
    decreases a
  {
    if a != {} {
      var x :| x in a;
      SubsetSize(a - {x}, b - {x});
    }
  }

  /** The same for high-low: highest, lowest and sole survivor are the same people in any order. */
  lemma HighLowWinnersIgnoreOrder(members: seq<Member>, others: seq<Member>)
    requires Named(members) && Named(others) && DistinctMembers(members) && DistinctMembers(others)
    requires DistinctHandsOk(members) && Reordered(members, others)
    ensures HighLowWinners(members) == HighLowWinners(others)
  {
    var a, b := Participants(members), Participants(others);
    ReorderedParticipants(members, others);
    UnfoldedIgnoresOrder(members, others);
    ParticipantsNamed(members);
    ParticipantsNamed(others);
    BestHighIsBest(a);
    BestHighIsBest(b);
    BestLowIsBest(a);
    BestLowIsBest(b);
    if Unfolded(members) == 1 {
      FirstUnfoldedIs(a);
      FirstUnfoldedIs(b);
      CountAll(a, HasFolded);
      CountAll(b, HasFolded);
      var m :| m in a && m.id == FirstUnfolded(a) && m.move != Folded;
      var o :| o in b && o.id == FirstUnfolded(b) && o.move != Folded;
      SoleUnfolded(members, m, o);
    }
  }

  // ---------- whole games ----------

  ghost predicate Startable(room: Room) {
    DistinctMembers(room.members) && Named(room.members) && room.rate >= 1
  }

  lemma {:induction false} DealtAreOpen(members: seq<Member>)
    requires forall i :: 0 <= i < |members| && !members[i].spectator ==> members[i].move == Idle
    ensures ToAct(members) == |Participants(members)|
  {
    CountAll(Participants(members), MayAct);
    forall m | m in Participants(members) ensures MayAct(m) {
      InParticipants(members, m);
    }
  }

  lemma {:induction false} DealKeepsParticipants(before: seq<Member>, after: seq<Member>)
    requires |after| == |before| && forall i :: 0 <= i < |after| ==> after[i].spectator == before[i].spectator
    ensures |Participants(after)| == |Participants(before)|
    decreases |before|
  {
    if before != [] {
      DealKeepsParticipants(before[..|before| - 1], after[..|after| - 1]);
    }
  }

  /** A freshly dealt game can take five actions a head. */
  lemma StartIsBetting(room: Room, leader: Id, draws: seq<nat>)
    requires Startable(room) && StartCards(room, leader, draws).Success?
    ensures var started := StartCards(room, leader, draws).value;
      && Betting(started) && Players(started) == Players(room) && ToAct(started.members) <= Players(started)
      && PotBounded(started) && ActionsLeft(started) == 5 * Players(room)
  {
    var started := StartCards(room, leader, draws).value;
    StartDealsDistinctHands(room, leader, draws);
    DealtAreOpen(started.members);
    DealKeepsParticipants(room.members, started.members);
    OpenIsNotAllActed(started.members);
    PartsMultiply(4, Players(room));
    forall m | m in started.members ensures m.id != NOBODY {
      var i :| 0 <= i < |started.members| && started.members[i] == m;
      assert room.members[i] in room.members;
    }
  }

  /** Folding is open to a member whatever anybody owns. */
  ghost predicate MayFold(game: Game, room: Room, id: Id) {
    forall accounts :: Play(game, Table(room, accounts), id, Folded).Success?
  }

  /**
   From the deal on, with the roster that was dealt to, a game of Indian poker or high-low is over after
   five actions a head at the latest; meanwhile it bets round times rate, in at most five rounds, into a pot
   of at most fifteen rates a head, and somebody can always act.
   */
  lemma GamesEnd(game: Game, room: Room, leader: Id, draws: seq<nat>, turns: seq<Turn>)
    requires Startable(room) && StartCards(room, leader, draws).Success?
    requires PlayAll(game, StartCards(room, leader, draws).value, turns).Some?
    ensures var n := Players(room);
      var last := PlayAll(game, StartCards(room, leader, draws).value, turns).value;
      && |turns| <= 5 * n
      && (|turns| == 5 * n ==> last.round == 0)
      && (last.round != 0 ==>
            && 1 <= last.round <= 5 && last.currentBet == last.round * room.rate
            && 0 <= last.pot <= 15 * n * room.rate
            && exists id :: MayFold(game, last, id))
  {
    var started := StartCards(room, leader, draws).value;
    StartIsBetting(room, leader, draws);
    PlayStaysBounded(game, started, turns);
    var last := PlayAll(game, started, turns).value;
    if last.round != 0 {
      BettingLeft(last);
      PartsMultiply(last.round, room.rate);
      PotAtMostFifteen(last);
      SomebodyMayFold(game, last);
    }
  }

  lemma PotAtMostFifteen(room: Room)
    requires 1 <= room.round <= LAST_ROUND && room.rate >= 1 && ToAct(room.members) <= Players(room) && PotBounded(room)
    ensures room.pot <= 15 * Players(room) * room.rate
  {
    var n := Players(room);
    hide Participants, Count;
    PartsGrow(n - ToAct(room.members), n, Parts(room.round, room.rate));
    CeilingGrows(n, room.rate, room.round + 1, 6);
    CeilingIsFifteen(n, room.rate);
  }

  lemma SomebodyMayFold(game: Game, room: Room)
    requires Betting(room)
    ensures exists id :: MayFold(game, room, id)
  {
    hide IndianOver, HighLowOver, IndianShowdown, HighLowShowdown, Acted;
    var m :| m in Participants(room.members) && MayAct(m);
    InParticipants(room.members, m);
    FoundMember(room.members, m.id);
    DistinctHands(room.members, m, MemberAt(room.members, m.id).value);
    assert MayFold(game, room, m.id);
  }
}

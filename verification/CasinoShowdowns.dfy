/** When a table game ends and who is paid how much, told by the hands, moves and marks on the table. */
module CasinoShowdowns {
  import opened Common
  import opened CasinoTable
  import opened CasinoRules
  import opened CasinoCoins
  import opened CasinoBetting
  import opened CasinoDealing

  // ---------- those at the table ----------

  /** The people at the table for whom something holds; spectators are not at it. */
  function Those(members: seq<Member>, p: Member -> bool): set<Member> {
    set m | m in members && !m.spectator && p(m)
  }

  predicate Sits(m: Member) { true }

  predicate HoldsOn(m: Member) { m.move != Folded }

  lemma ThoseAreChosen(members: seq<Member>, p: Member -> bool)
    ensures Those(members, p) == Chosen(Participants(members), p)
  {
    forall m ensures m in Those(members, p) <==> m in Chosen(Participants(members), p) {
      InParticipants(members, m);
    }
  }

  lemma CountThose(members: seq<Member>, p: Member -> bool)
    requires DistinctMembers(members)
    ensures Count(Participants(members), p) == |Those(members, p)|
  {
    ThoseAreChosen(members, p);
    ParticipantsDistinct(members);
    CountIsCardinality(Participants(members), p);
  }

  lemma {:induction false} CountParts(members: seq<Member>)
    ensures Count(members, HasFolded) + Count(members, HoldsOn) == |members| == Count(members, Sits)
    decreases |members|
  {
    if members != [] {
      CountParts(members[..|members| - 1]);
    }
  }

  lemma CountSitting(members: seq<Member>)
    requires DistinctMembers(members)
    ensures Unfolded(members) == |Those(members, HoldsOn)| && |Participants(members)| == |Those(members, Sits)|
  {
    CountParts(Participants(members));
    CountThose(members, HoldsOn);
    CountThose(members, Sits);
  }

  // ---------- what an action changes ----------

  /** The members once one of them made a move. */
  predicate AfterMove(before: seq<Member>, after: seq<Member>, id: Id, move: Move) {
    |after| == |before| && forall i :: 0 <= i < |before| ==>
      after[i] == if before[i].id == id then before[i].(move := move) else before[i]
  }

  lemma MoveIs(before: seq<Member>, after: seq<Member>, id: Id, move: Move)
    requires AfterMove(before, after, id, move)
    ensures after == WithMove(before, id, move)
  {
  }

  /** The members once one of them put down a mark. */
  predicate AfterMark(before: seq<Member>, after: seq<Member>, id: Id, mark: int) {
    |after| == |before| && forall i :: 0 <= i < |before| ==>
      after[i] == if before[i].id == id then before[i].(card := mark, move := Marked) else before[i]
  }

  lemma MarkIs(before: seq<Member>, after: seq<Member>, id: Id, mark: int)
    requires AfterMark(before, after, id, mark)
    ensures after == WithMark(before, id, mark)
  {
  }

  /** In Indian poker a call that cannot be covered asks for the showdown. */
  function Meant(t: Table, id: Id, move: Move): Move {
    if move == Called && Coins(t.accounts, id) < t.room.currentBet then Showdown else move
  }

  predicate AsksForShowdown(m: Member) { m.move == Showdown }

  predicate Declares(m: Member) { m.move == High || m.move == Low }

  lemma CountSame(members: seq<Member>, p: Member -> bool, q: Member -> bool)
    requires forall m :: m in members ==> p(m) == q(m)
    ensures Count(members, p) == Count(members, q)
    decreases |members|
  {
  }

  // ---------- when a game of cards ends ----------

  predicate EverybodyActed(members: seq<Member>) {
    forall m :: m in members && !m.spectator ==> m.move != Idle && m.move != Waiting
  }

  /** What a character holds once its stake is on the table. */
  function Left(t: Table, id: Id, other: Id): int {
    Coins(t.accounts, other) - (if other == id then Min(Coins(t.accounts, id), Max(t.room.currentBet, 0)) else 0)
  }

  predicate SomebodyIsOut(t: Table, id: Id, members: seq<Member>) {
    exists m :: m in members && !m.spectator && m.move != Folded && Left(t, id, m.id) == 0
  }

  lemma ActedParts(t: Table, id: Id, move: Move)
    ensures var u := Acted(t, id, move);
      && u.room.members == WithMove(t.room.members, id, move) && u.room == t.room.(pot := u.room.pot, members := u.room.members)
      && (AllActed(u.room.members) <==> EverybodyActed(u.room.members))
      && (CoinlessPlayer(u.room.members, u.accounts) <==> SomebodyIsOut(t, id, u.room.members))
      && u.room.pot - t.room.pot == Coins(t.accounts, id) - Left(t, id, id)
      && forall other :: Coins(u.accounts, other) == Left(t, id, other)
  {
    var u := Acted(t, id, move);
    forall other ensures Coins(u.accounts, other) == Left(t, id, other) {
      ActedCoins(t, id, move, other);
    }
    SittingAre(u.room.members);
    hide Acted, Participants, Left;
    if CoinlessPlayer(u.room.members, u.accounts) {
      var m :| m in Participants(u.room.members) && m.move != Folded && Coins(u.accounts, m.id) == 0;
      assert SomebodyIsOut(t, id, u.room.members);
    }
    if SomebodyIsOut(t, id, u.room.members) {
      var m :| m in u.room.members && !m.spectator && m.move != Folded && Left(t, id, m.id) == 0;
      assert m in Participants(u.room.members) && Coins(u.accounts, m.id) == 0;
    }
  }

  lemma SittingAre(members: seq<Member>)
    ensures forall m :: m in Participants(members) <==> m in members && !m.spectator
  {
    forall m ensures m in Participants(members) <==> m in members && !m.spectator {
      InParticipants(members, m);
    }
  }

  /** A round of which everybody has had enough opens the next one, a rate dearer, for all who hold on. */
  predicate Reopens(t: Table, members: seq<Member>, room: Room) {
    && room.round == t.room.round + 1 && room.currentBet == t.room.currentBet + t.room.rate && |room.members| == |members|
    && forall i :: 0 <= i < |members| ==>
         room.members[i] == if members[i].spectator || members[i].move == Folded then members[i] else members[i].(move := Idle)
  }

  /** What an action that ends no game leaves: the next round once everybody acted, else only the actor's move. */
  predicate GoesOn(t: Table, members: seq<Member>, u: Table) {
    && (if EverybodyActed(members) then Reopens(t, members, u.room)
        else u.room.round == t.room.round && u.room.currentBet == t.room.currentBet && u.room.members == members)
    && u.room.status == t.room.status && u.room.leader == t.room.leader && u.room.rate == t.room.rate
    && u.room.maxBet == t.room.maxBet && u.room.winners == t.room.winners
  }

  /**
   Indian poker ends with at most one hand held, or once everybody has acted and somebody who holds on is out of coins,
   the bet is at its limit, or at least half of those who hold on ask for the showdown. Otherwise it goes on.
   */
  lemma IndianEndsIff(t: Table, id: Id, move: Move, members: seq<Member>)
    requires DistinctMembers(t.room.members) && PlayIndian(t, id, move).Success?
    requires AfterMove(t.room.members, members, id, Meant(t, id, move))
    ensures var u := PlayIndian(t, id, move).value;
      var holding := |Those(members, HoldsOn)|;
      && (Ended(t, u) <==> (holding <= 1 || (EverybodyActed(members)
            && (SomebodyIsOut(t, id, members) || t.room.currentBet >= t.room.maxBet || 2 * |Those(members, AsksForShowdown)| >= holding))))
      && (!Ended(t, u) ==> GoesOn(t, members, u))
  {
    hide Those, Participants, Count, Unfolded, AllActed, CoinlessPlayer, EverybodyActed, AfterMove, SomebodyIsOut, Acted, Survivors, Heir, PayAll, BestUnfolded, DistinctMembers, Left;
    var played := IndianMove(t, id, move);
    MoveIs(t.room.members, members, id, played);
    MovedMembers(t.room.members, id, played);
    ActedParts(t, id, played);
    CountSitting(members);
    CountSame(Participants(members), IsShowdown, AsksForShowdown);
    CountThose(members, AsksForShowdown);
  }

  /**
   High-low ends once everybody has acted and somebody who holds on is out of coins, the bet is at its limit, at least
   half of those who hold on declared, or at most one hand is held. Otherwise it goes on.
   */
  lemma HighLowEndsIff(t: Table, id: Id, move: Move, members: seq<Member>)
    requires DistinctMembers(t.room.members) && PlayHighLow(t, id, move).Success? && AfterMove(t.room.members, members, id, move)
    ensures var u := PlayHighLow(t, id, move).value;
      var holding := |Those(members, HoldsOn)|;
      && (Ended(t, u) <==> (EverybodyActed(members)
            && (SomebodyIsOut(t, id, members) || t.room.currentBet >= t.room.maxBet || 2 * |Those(members, Declares)| >= holding || holding <= 1)))
      && (!Ended(t, u) ==> GoesOn(t, members, u))
  {
    hide Those, Participants, Count, Unfolded, AllActed, CoinlessPlayer, EverybodyActed, AfterMove, SomebodyIsOut, Acted, Survivors, Heir, PayAll, HighLowWinners, DistinctMembers, Left;
    MoveIs(t.room.members, members, id, move);
    MovedMembers(t.room.members, id, move);
    ActedParts(t, id, move);
    CountSitting(members);
    CountSame(Participants(members), IsDeclared, Declares);
    CountThose(members, Declares);
  }

  // ---------- who is paid in high-low ----------

  /** Declared high with a card; somebody who sat down after the deal holds none. */
  predicate CallsHigh(m: Member) { m.move == High && m.card >= 0 }

  predicate CallsLow(m: Member) { m.move == Low }

  /** Two at the table who called the same way. */
  predicate Opposed(m: Member, o: Member) {
    !m.spectator && !o.spectator && ((CallsHigh(m) && CallsHigh(o)) || (CallsLow(m) && CallsLow(o)))
  }

  /** No two hands that declared the same way are equal, and every card is below 99. */
  ghost predicate Comparable(members: seq<Member>) {
    && (forall m :: m in members ==> m.card < 99)
    && (forall m, o :: m in members && o in members && Opposed(m, o) && m.card == o.card ==> m == o)
  }

  predicate Highest(members: seq<Member>, m: Member) {
    CallsHigh(m) && forall o :: o in members && !o.spectator && CallsHigh(o) ==> o.card <= m.card
  }

  predicate Lowest(members: seq<Member>, m: Member) {
    CallsLow(m) && forall o :: o in members && !o.spectator && CallsLow(o) ==> o.card >= m.card
  }

  predicate SomeHigh(members: seq<Member>) {
    exists m :: m in members && !m.spectator && CallsHigh(m)
  }

  predicate SomeLow(members: seq<Member>) {
    exists m :: m in members && !m.spectator && CallsLow(m)
  }

  /** Two are paid: more than two at the table, one who called high and one who called low. */
  predicate Splits(members: seq<Member>) {
    |Those(members, Sits)| > 2 && SomeHigh(members) && SomeLow(members)
  }

  /** The best high hand, the best low one when it does not have to give way, or the only hand held when nobody declared. */
  predicate PaidHand(members: seq<Member>, m: Member) {
    || Highest(members, m)
    || (Lowest(members, m) && (|Those(members, Sits)| > 2 || !SomeHigh(members)))
    || (!SomeHigh(members) && !SomeLow(members) && HoldsOn(m) && |Those(members, HoldsOn)| == 1)
  }

  lemma BestHighIs(members: seq<Member>)
    requires Named(members) && Comparable(members)
    ensures var high := BestHigh(Participants(members)).id;
      && (high != NOBODY <==> SomeHigh(members))
      && (forall m :: m in members && !m.spectator && Highest(members, m) ==> m.id == high)
      && (high != NOBODY ==> exists m :: m in members && !m.spectator && Highest(members, m) && m.id == high)
  {
    ParticipantsNamed(members);
    SittingAre(members);
    BestHighIsBest(Participants(members));
    var best := BestHigh(Participants(members));
    hide *;
    HighestIs(members, Participants(members), best);
  }

  lemma HighestIs(members: seq<Member>, playing: seq<Member>, best: Best)
    requires Comparable(members) && (forall m :: m in playing <==> m in members && !m.spectator) && best.card >= -1
    requires forall m :: m in playing && m.move == High ==> m.card <= best.card
    requires best.id == NOBODY <==> best.card == -1
    requires best.id != NOBODY ==> exists m :: m in playing && m.id == best.id && m.move == High && m.card == best.card
    ensures best.id != NOBODY <==> SomeHigh(members)
    ensures forall m :: m in members && !m.spectator && Highest(members, m) ==> m.id == best.id
    ensures best.id != NOBODY ==> exists m :: m in members && !m.spectator && Highest(members, m) && m.id == best.id
  {
    if best.id != NOBODY {
      var m :| m in playing && m.id == best.id && m.move == High && m.card == best.card;
      assert Highest(members, m);
      forall o | o in members && !o.spectator && Highest(members, o) ensures o.id == best.id {
        assert Opposed(m, o);
      }
    }
  }

  lemma BestLowIs(members: seq<Member>)
    requires Named(members) && Comparable(members)
    ensures var low := BestLow(Participants(members)).id;
      && (low != NOBODY <==> SomeLow(members))
      && (forall m :: m in members && !m.spectator && Lowest(members, m) ==> m.id == low)
      && (low != NOBODY ==> exists m :: m in members && !m.spectator && Lowest(members, m) && m.id == low)
  {
    ParticipantsNamed(members);
    SittingAre(members);
    BestLowIsBest(Participants(members));
    var best := BestLow(Participants(members));
    hide *;
    LowestIs(members, Participants(members), best);
  }

  lemma LowestIs(members: seq<Member>, playing: seq<Member>, best: Best)
    requires Comparable(members) && forall m :: m in playing <==> m in members && !m.spectator
    requires forall m :: m in playing && m.move == Low ==> m.card >= best.card
    requires best.id == NOBODY <==> best.card == 99
    requires best.id != NOBODY ==> exists m :: m in playing && m.id == best.id && m.move == Low && m.card == best.card
    ensures best.id != NOBODY <==> SomeLow(members)
    ensures forall m :: m in members && !m.spectator && Lowest(members, m) ==> m.id == best.id
    ensures best.id != NOBODY ==> exists m :: m in members && !m.spectator && Lowest(members, m) && m.id == best.id
  {
    if best.id != NOBODY {
      var m :| m in playing && m.id == best.id && m.move == Low && m.card == best.card;
      assert Lowest(members, m);
      forall o | o in members && !o.spectator && Lowest(members, o) ensures o.id == best.id {
        assert Opposed(m, o);
      }
    }
  }

  lemma OnlyHolderIs(members: seq<Member>, m: Member)
    requires Named(members) && DistinctMembers(members) && |Those(members, HoldsOn)| == 1
    requires m in members && !m.spectator
    ensures FirstUnfolded(Participants(members)) != NOBODY
    ensures HoldsOn(m) <==> m.id == FirstUnfolded(Participants(members))
  {
    ParticipantsNamed(members);
    CountSitting(members);
    SittingAre(members);
    var playing := Participants(members);
    FirstUnfoldedIs(playing);
    CountAll(playing, HasFolded);
    hide Participants, Count, FirstUnfolded, Named;
    var o :| o in playing && o.id == FirstUnfolded(playing) && o.move != Folded;
    if HoldsOn(m) {
      SoleUnfolded(members, m, o);
    } else if m.id == o.id {
      DistinctHands(members, m, o);
    }
  }

  lemma SameHand(members: seq<Member>, m: Member, o: Member)
    requires DistinctMembers(members) && m in members && o in members && m.id == o.id
    ensures m == o
  {
  }

  /** The winners from the best hands of either kind and the numbers at the table. */
  lemma WinnersFrom(members: seq<Member>)
    requires Named(members) && DistinctMembers(members)
    ensures var playing, winners := Participants(members), HighLowWinners(members);
      var high, low := BestHigh(playing).id, BestLow(playing).id;
      && (high != NOBODY && low != NOBODY ==> winners == if |Those(members, Sits)| > 2 then [high, low] else [high])
      && (high != NOBODY && low == NOBODY ==> winners == [high])
      && (high == NOBODY && low != NOBODY ==> winners == [low])
      && (high == NOBODY && low == NOBODY ==>
            winners == if |Those(members, HoldsOn)| == 1 && FirstUnfolded(playing) != NOBODY then [FirstUnfolded(playing)] else [])
  {
    CountSitting(members);
    hide Participants, Count, FirstUnfolded, BestHigh, BestLow, Named, Unfolded, Those;
  }

  lemma HighestIsOne(members: seq<Member>, m: Member, high: Id)
    requires DistinctMembers(members) && m in members && !m.spectator
    requires forall o :: o in members && !o.spectator && Highest(members, o) ==> o.id == high
    requires high != NOBODY ==> exists h :: h in members && !h.spectator && Highest(members, h) && h.id == high
    requires m.id != NOBODY
    ensures high != NOBODY ==> (m.id == high <==> Highest(members, m))
    ensures high == NOBODY ==> !Highest(members, m)
  {
    hide Highest;
    if high != NOBODY {
      var h :| h in members && !h.spectator && Highest(members, h) && h.id == high;
      if m.id == high { SameHand(members, m, h); }
    }
  }

  lemma LowestIsOne(members: seq<Member>, m: Member, low: Id)
    requires DistinctMembers(members) && m in members && !m.spectator
    requires forall o :: o in members && !o.spectator && Lowest(members, o) ==> o.id == low
    requires low != NOBODY ==> exists l :: l in members && !l.spectator && Lowest(members, l) && l.id == low
    requires m.id != NOBODY
    ensures low != NOBODY ==> (m.id == low <==> Lowest(members, m))
    ensures low == NOBODY ==> !Lowest(members, m)
  {
    hide Lowest;
    if low != NOBODY {
      var l :| l in members && !l.spectator && Lowest(members, l) && l.id == low;
      if m.id == low { SameHand(members, m, l); }
    }
  }

  /** Of the people at the table exactly the paid hands win. */
  lemma WinnersAreTheHands(members: seq<Member>, m: Member)
    requires Named(members) && DistinctMembers(members) && Comparable(members) && m in members && !m.spectator
    ensures m.id in HighLowWinners(members) <==> PaidHand(members, m)
    ensures HighLowWinners(members) != [] ==> |HighLowWinners(members)| == if Splits(members) then 2 else 1
  {
    hide Participants, Count, FirstUnfolded, BestHigh, BestLow, Comparable, Named, Unfolded, Those, HighLowWinners, Highest, Lowest, SomeHigh, SomeLow, DistinctMembers, HoldsOn;
    NamedMember(members, m);
    BestHighIs(members);
    BestLowIs(members);
    HighestIsOne(members, m, BestHigh(Participants(members)).id);
    LowestIsOne(members, m, BestLow(Participants(members)).id);
    WinnersFrom(members);
    if |Those(members, HoldsOn)| == 1 {
      OnlyHolderIs(members, m);
    }
  }

  lemma NamedMember(members: seq<Member>, m: Member)
    requires Named(members) && m in members
    ensures m.id != NOBODY
  {
  }

  /**
   A finished game of high-low pays the highest hand that called high and, unless it has to give way at a table of two,
   the lowest that called low, or the only hand held when nobody called: the whole pot to one, half of it to each of two,
   and nothing to anybody else.
   */
  lemma HighLowPaysHands(t: Table, id: Id, move: Move, members: seq<Member>, m: Member)
    requires Named(t.room.members) && DistinctMembers(t.room.members) && t.room.pot >= 0
    requires PlayHighLow(t, id, move).Success? && Ended(t, PlayHighLow(t, id, move).value)
    requires AfterMove(t.room.members, members, id, move) && Comparable(members) && m in members && !m.spectator
    ensures var pot := t.room.pot + Coins(t.accounts, id) - Left(t, id, id);
      Coins(PlayHighLow(t, id, move).value.accounts, m.id)
        == Left(t, id, m.id) + (if !PaidHand(members, m) then 0 else if Splits(members) then pot / 2 else pot)
  {
    hide PlayHighLow, HighLowWinners, Comparable, PaidHand, Splits, Named, DistinctMembers;
    MoveIs(t.room.members, members, id, move);
    MovedMembers(t.room.members, id, move);
    WinnersAreTheHands(members, m);
    HighLowPays(t, id, move, m.id);
  }

  /** Whoever is not at the table is neither charged nor paid by a game of high-low. */
  lemma HighLowSparesOthers(t: Table, id: Id, move: Move, other: Id)
    requires Named(t.room.members) && DistinctMembers(t.room.members) && PlayHighLow(t, id, move).Success?
    requires forall m :: m in t.room.members && !m.spectator ==> m.id != other
    ensures Coins(PlayHighLow(t, id, move).value.accounts, other) == Coins(t.accounts, other)
  {
    FoundMember(t.room.members, id);
    var members := WithMove(t.room.members, id, move);
    MovedMembers(t.room.members, id, move);
    HighLowPays(t, id, move, other);
    WinnersSit(members);
    hide PlayHighLow, HighLowWinners;
    if other in HighLowWinners(members) {
      var m :| m in members && !m.spectator && m.id == other;
      var i :| 0 <= i < |members| && members[i] == m;
      assert t.room.members[i] in t.room.members;
    }
    ActorSits(t, id, move);
  }

  lemma ActorSits(t: Table, id: Id, move: Move)
    requires PlayHighLow(t, id, move).Success?
    ensures exists m :: m in t.room.members && m.id == id && !m.spectator
  {
    FoundMember(t.room.members, id);
  }

  lemma WinnersSit(members: seq<Member>)
    requires Named(members) && DistinctMembers(members)
    ensures forall id :: id in HighLowWinners(members) ==> exists m :: m in members && !m.spectator && m.id == id
  {
    var playing := Participants(members);
    ParticipantsNamed(members);
    SittingAre(members);
    BestHighIsBest(playing);
    BestLowIsBest(playing);
    FirstUnfoldedIs(playing);
    hide Participants, Unfolded, BestHigh, BestLow, FirstUnfolded, Named, DistinctMembers;
  }

  // ---------- who is paid in Indian poker ----------

  predicate Beats(members: seq<Member>, m: Member) {
    HoldsOn(m) && m.card >= 0 && forall o :: o in members && !o.spectator && HoldsOn(o) ==> o.card <= m.card
  }

  /** Among distinct hands a finished game of Indian poker pays its pot to the highest hand held and nothing to anybody else. */
  lemma IndianPaysHands(t: Table, id: Id, move: Move, members: seq<Member>, m: Member)
    requires Named(t.room.members) && DistinctMembers(t.room.members) && t.room.pot >= 0
    requires PlayIndian(t, id, move).Success? && Ended(t, PlayIndian(t, id, move).value)
    requires AfterMove(t.room.members, members, id, Meant(t, id, move)) && m in members && !m.spectator
    requires forall o :: o in members && !o.spectator && o.card == m.card && o.card >= 0 ==> o == m
    ensures Coins(PlayIndian(t, id, move).value.accounts, m.id)
        == Left(t, id, m.id) + (if Beats(members, m) then t.room.pot + Coins(t.accounts, id) - Left(t, id, id) else 0)
  {
    MoveIs(t.room.members, members, id, IndianMove(t, id, move));
    MovedMembers(t.room.members, id, IndianMove(t, id, move));
    IndianPays(t, id, move, m.id);
    ParticipantsNamed(members);
    SittingAre(members);
    BestUnfoldedIsBest(Participants(members));
    NamedMember(members, m);
    StakeIs(t, id, m.id);
    hide *;
    BeatsIs(members, Participants(members), BestUnfolded(Participants(members)), m);
  }

  lemma StakeIs(t: Table, id: Id, other: Id)
    ensures Left(t, id, other) == Coins(t.accounts, other) - (if other == id then Stake(t.accounts, id, t.room.currentBet) else 0)
  {
  }

  lemma BeatsIs(members: seq<Member>, playing: seq<Member>, best: Best, m: Member)
    requires DistinctMembers(members) && m in members && !m.spectator && m.id != NOBODY
    requires forall o :: o in playing <==> o in members && !o.spectator
    requires forall o :: o in members && !o.spectator && o.card == m.card && o.card >= 0 ==> o == m
    requires best.card >= -1 && forall o :: o in playing && o.move != Folded ==> o.card <= best.card
    requires best.id == NOBODY <==> best.card == -1
    requires best.id != NOBODY ==> exists o :: o in playing && o.id == best.id && o.move != Folded && o.card == best.card
    ensures m.id == best.id <==> Beats(members, m)
  {
    if best.id != NOBODY {
      var o :| o in playing && o.id == best.id && o.move != Folded && o.card == best.card;
      if m.id == o.id { SameHand(members, m, o); }
    }
  }

  // ---------- doppelganger ----------

  /** The leader's mark, or the first one when the leader does not take part. */
  predicate LeadersMark(members: seq<Member>, leader: Id, mark: int) {
    if exists m :: m in members && !m.spectator && m.id == leader
    then exists m :: m in members && !m.spectator && m.id == leader && m.card == mark
    else mark == 0
  }

  lemma {:induction false} LeaderMarkIs(playing: seq<Member>, leader: Id)
    requires DistinctMembers(playing)
    ensures forall m :: m in playing && m.id == leader ==> LeaderMark(playing, leader) == m.card
    ensures (forall m :: m in playing ==> m.id != leader) ==> LeaderMark(playing, leader) == 0
    decreases |playing|
  {
    if playing != [] {
      LeaderMarkIs(playing[..|playing| - 1], leader);
      assert forall m :: m in playing <==> m in playing[..|playing| - 1] || m == playing[|playing| - 1];
    }
  }

  /** Those who put down the leader's mark, the leader aside. */
  function Doubles(members: seq<Member>, leader: Id, mark: int): set<Member> {
    set m | m in members && !m.spectator && m.id != leader && m.card == mark
  }

  function Doubling(leader: Id, mark: int): Member -> bool {
    (m: Member) => m.id != leader && m.card == mark
  }

  lemma {:induction false} MatchesCount(playing: seq<Member>, leader: Id, mark: int)
    ensures |Matches(playing, leader, mark)| == Count(playing, Doubling(leader, mark))
    decreases |playing|
  {
    if playing != [] {
      MatchesCount(playing[..|playing| - 1], leader, mark);
    }
  }

  /** What a mark costs: the rate, or all there is, the first time, and nothing when it is changed. */
  function Price(t: Table, m: Member): int {
    if m.card >= 0 then 0 else Min(Coins(t.accounts, m.id), Max(t.room.rate, 0))
  }

  /**
   A mark is charged once. The game ends when the last mark is down, and then pays the pot in equal whole parts to
   those who doubled the leader's mark, one of whom leads from then on, or all of it to the leader when nobody did.
   */
  lemma DoppelPays(t: Table, id: Id, mark: int, draw: nat, members: seq<Member>, actor: Member, leaders: int, other: Id)
    requires DistinctMembers(t.room.members) && t.room.pot >= 0 && PlayDoppel(t, id, mark, draw).Success?
    requires actor in t.room.members && actor.id == id
    requires AfterMark(t.room.members, members, id, mark) && LeadersMark(members, t.room.leader, leaders)
    ensures var u := PlayDoppel(t, id, mark, draw).value;
      var pot, doubles := t.room.pot + Price(t, actor), Doubles(members, t.room.leader, leaders);
      var after := Coins(t.accounts, other) - (if other == id then Price(t, actor) else 0);
      && (Ended(t, u) <==> forall m :: m in members && !m.spectator ==> m.card >= 0)
      && (!Ended(t, u) ==> Coins(u.accounts, other) == after && u.room == t.room.(pot := pot, members := members))
      && (Ended(t, u) && doubles == {} ==>
            Coins(u.accounts, other) == after + (if other == t.room.leader then pot else 0) && u.room.leader == t.room.leader)
      && (Ended(t, u) && doubles != {} ==>
            && Coins(u.accounts, other) == after + (if exists m :: m in doubles && m.id == other then pot / |doubles| else 0)
            && exists m :: m in doubles && m.id == u.room.leader)
  {
    hide *;
    MarkIs(t.room.members, members, id, mark);
    var v := MarkedTable(t, id, mark);
    MarkedParts(t, id, mark, actor, other);
    MarkedMembers(t.room.members, id, mark);
    DoppelIs(t, id, mark, draw);
    if AllMarked(v.room.members) {
      DoublesArePaid(v, draw, leaders, other);
    }
    EndsMarked(t, v, DoppelShowdown(v, draw), PlayDoppel(t, id, mark, draw).value);
  }

  lemma DoppelIs(t: Table, id: Id, mark: int, draw: nat)
    requires PlayDoppel(t, id, mark, draw).Success?
    ensures t.room.round > 0
    ensures var v := MarkedTable(t, id, mark);
      PlayDoppel(t, id, mark, draw).value == if AllMarked(v.room.members) then DoppelShowdown(v, draw) else v
  {
    hide DoppelShowdown, AllMarked, MarkStake, WithMark;
  }

  lemma EndsMarked(t: Table, v: Table, shown: Table, u: Table)
    requires t.room.round > 0 && v.room.round == t.room.round && (AllMarked(v.room.members) ==> shown.room.round == 0)
    requires u == if AllMarked(v.room.members) then shown else v
    ensures Ended(t, u) <==> AllMarked(v.room.members)
  {
    hide AllMarked;
  }

  /** The table once a mark was paid for and put down. */
  lemma MarkedParts(t: Table, id: Id, mark: int, actor: Member, other: Id)
    requires DistinctMembers(t.room.members) && actor in t.room.members && actor.id == id
    ensures var v := MarkedTable(t, id, mark);
      && v.room == t.room.(pot := t.room.pot + Price(t, actor), members := WithMark(t.room.members, id, mark))
      && Coins(v.accounts, other) == Coins(t.accounts, other) - (if other == id then Price(t, actor) else 0)
      && Price(t, actor) >= 0
      && (AllMarked(v.room.members) <==> forall m :: m in v.room.members && !m.spectator ==> m.card >= 0)
  {
    FoundMember(t.room.members, id);
    SameHand(t.room.members, actor, MemberAt(t.room.members, id).value);
    SittingAre(MarkedTable(t, id, mark).room.members);
    hide Participants, DistinctMembers, WithMark, MemberAt;
  }

  lemma DoublesAre(members: seq<Member>, leader: Id, mark: int)
    requires DistinctMembers(members) && LeadersMark(members, leader, mark)
    ensures var playing := Participants(members);
      var children := Matches(playing, leader, LeaderMark(playing, leader));
      && NoDuplicates(children) && |children| == |Doubles(members, leader, mark)|
      && forall id :: id in children <==> exists m :: m in Doubles(members, leader, mark) && m.id == id
  {
    var playing := Participants(members);
    ParticipantsDistinct(members);
    SittingAre(members);
    hide Participants;
    LeaderMarkIs(playing, leader);
    hide LeaderMark;
    assert LeaderMark(playing, leader) == mark;
    MatchesPlay(playing, leader, mark);
    MatchesCount(playing, leader, mark);
    CountIsCardinality(playing, Doubling(leader, mark));
    hide Matches;
    assert Doubles(members, leader, mark) == Chosen(playing, Doubling(leader, mark));
    forall id ensures id in Matches(playing, leader, mark) <==> exists m :: m in Doubles(members, leader, mark) && m.id == id {
    }
  }

  lemma DoublesArePaid(v: Table, draw: nat, mark: int, other: Id)
    requires DistinctMembers(v.room.members) && v.room.pot >= 0 && LeadersMark(v.room.members, v.room.leader, mark)
    ensures var u, doubles := DoppelShowdown(v, draw), Doubles(v.room.members, v.room.leader, mark);
      && u.room.round == 0
      && (doubles == {} ==>
            Coins(u.accounts, other) == Coins(v.accounts, other) + (if other == v.room.leader then v.room.pot else 0) && u.room.leader == v.room.leader)
      && (doubles != {} ==>
            && Coins(u.accounts, other) == Coins(v.accounts, other) + (if exists m :: m in doubles && m.id == other then v.room.pot / |doubles| else 0)
            && exists m :: m in doubles && m.id == u.room.leader)
  {
    hide Participants, PayAll, Survivors, Broke, Matches, LeaderMark, Doubles, DistinctMembers, LeadersMark;
    DoublesAre(v.room.members, v.room.leader, mark);
    var playing := Participants(v.room.members);
    var children := Matches(playing, v.room.leader, LeaderMark(playing, v.room.leader));
    PayAllCoins(v.accounts, children, Share(v.room.pot, children), other);
    PayAllCoins(v.accounts, [v.room.leader], Share(v.room.pot, [v.room.leader]), other);
    if children != [] {
      assert children[0] in children;
      assert draw < |children| ==> children[draw] in children;
    }
  }
}

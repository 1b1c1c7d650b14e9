/** Where the coins go: every action's effect on every account, and what a showdown loses. */
module CasinoCoins {
  import opened Common
  import opened CasinoTable
  import opened CasinoRules

  /** What a list of characters owns together. */
  function Wealth(accounts: Accounts, ids: seq<Id>): nat {
    if ids == [] then 0 else Wealth(accounts, ids[..|ids| - 1]) + Coins(accounts, ids[|ids| - 1])
  }

  lemma {:induction false} WealthElsewhere(a: Accounts, b: Accounts, ids: seq<Id>)
    requires forall id :: id in ids ==> Coins(a, id) == Coins(b, id)
    ensures Wealth(a, ids) == Wealth(b, ids)
    decreases |ids|
  {
    if ids != [] {
      WealthElsewhere(a, b, ids[..|ids| - 1]);
    }
  }

  /** One account's change is the list's change. */
  lemma {:induction false} WealthAt(a: Accounts, b: Accounts, ids: seq<Id>, id: Id)
    requires NoDuplicates(ids) && id in ids
    requires forall other :: other in ids && other != id ==> Coins(a, other) == Coins(b, other)
    ensures Wealth(b, ids) - Wealth(a, ids) == Coins(b, id) - Coins(a, id)
    decreases |ids|
  {
    var n := |ids| - 1;
    if ids[n] == id {
      WealthElsewhere(a, b, ids[..n]);
    } else {
      WealthAt(a, b, ids[..n], id);
    }
  }

  lemma {:induction false} PayAllCoins(accounts: Accounts, winners: seq<Id>, share: nat, id: Id)
    requires NoDuplicates(winners)
    ensures Coins(PayAll(accounts, winners, share), id) == Coins(accounts, id) + (if id in winners then share else 0)
    decreases |winners|
  {
    if winners != [] {
      PayAllCoins(accounts, winners[..|winners| - 1], share, id);
    }
  }

  /** `n` equal parts. */
  function Parts(n: nat, share: nat): nat {
    if n == 0 then 0 else Parts(n - 1, share) + share
  }

  lemma {:induction false} PartsMultiply(n: nat, share: nat)
    ensures Parts(n, share) == n * share
  {
    if n > 0 {
      PartsMultiply(n - 1, share);
      assert n * share == (n - 1) * share + share;
    }
  }

  lemma PartsAndRest(pot: nat, n: nat)
    requires n > 0
    ensures Parts(n, pot / n) + pot % n == pot
  {
    PartsMultiply(n, pot / n);
  }

  lemma {:induction false} PayAllWealth(accounts: Accounts, winners: seq<Id>, share: nat, ids: seq<Id>)
    requires NoDuplicates(winners) && NoDuplicates(ids) && forall id :: id in winners ==> id in ids
    ensures Wealth(PayAll(accounts, winners, share), ids) == Wealth(accounts, ids) + Parts(|winners|, share)
    decreases |winners|
  {
    hide Wealth, Coins;
    if winners != [] {
      var n := |winners| - 1;
      var before := PayAll(accounts, winners[..n], share);
      PayAllWealth(accounts, winners[..n], share, ids);
      forall other ensures Coins(Credit(before, winners[n], share), other) == Coins(before, other) + (if other == winners[n] then share else 0) {
        CreditCoins(before, winners[n], share, other);
      }
      WealthAt(before, Credit(before, winners[n], share), ids, winners[n]);
    }
  }

  lemma CreditCoins(accounts: Accounts, id: Id, amount: nat, other: Id)
    ensures Coins(Credit(accounts, id, amount), other) == Coins(accounts, other) + (if other == id then amount else 0)
  {
  }

  // ---------- who can win ----------

  lemma {:induction false} InParticipants(members: seq<Member>, m: Member)
    ensures m in Participants(members) <==> m in members && !m.spectator
    decreases |members|
  {
    if members != [] {
      InParticipants(members[..|members| - 1], m);
      assert m in members <==> m in members[..|members| - 1] || m == members[|members| - 1];
    }
  }

  ghost predicate Named(members: seq<Member>) {
    forall m :: m in members ==> m.id != NOBODY
  }

  predicate Has(members: seq<Member>, id: Id) {
    exists m :: m in members && m.id == id
  }

  /** The winning hand is an unfolded one that no unfolded hand beats; there is none only if nobody unfolded holds a card. */
  lemma {:induction false} BestUnfoldedIsBest(playing: seq<Member>)
    requires Named(playing)
    ensures var best := BestUnfolded(playing);
      && best.card >= -1
      && (forall m :: m in playing && m.move != Folded ==> m.card <= best.card)
      && (best.id == NOBODY <==> best.card == -1)
      && (best.id != NOBODY ==> exists m :: m in playing && m.id == best.id && m.move != Folded && m.card == best.card)
    decreases |playing|
  {
    if playing != [] {
      var n := |playing| - 1;
      BestUnfoldedIsBest(playing[..n]);
      assert forall m :: m in playing <==> m in playing[..n] || m == playing[n];
    }
  }

  lemma {:induction false} BestHighIsBest(playing: seq<Member>)
    requires Named(playing)
    ensures var best := BestHigh(playing);
      && best.card >= -1
      && (forall m :: m in playing && m.move == High ==> m.card <= best.card)
      && (best.id == NOBODY <==> best.card == -1)
      && (best.id != NOBODY ==> exists m :: m in playing && m.id == best.id && m.move == High && m.card == best.card)
    decreases |playing|
  {
    if playing != [] {
      var n := |playing| - 1;
      BestHighIsBest(playing[..n]);
      assert forall m :: m in playing <==> m in playing[..n] || m == playing[n];
    }
  }

  lemma {:induction false} BestLowIsBest(playing: seq<Member>)
    requires Named(playing)
    ensures var best := BestLow(playing);
      && best.card <= 99
      && (forall m :: m in playing && m.move == Low ==> m.card >= best.card)
      && (best.id == NOBODY <==> best.card == 99)
      && (best.id != NOBODY ==> exists m :: m in playing && m.id == best.id && m.move == Low && m.card == best.card)
    decreases |playing|
  {
    if playing != [] {
      var n := |playing| - 1;
      BestLowIsBest(playing[..n]);
      assert forall m :: m in playing <==> m in playing[..n] || m == playing[n];
    }
  }

  lemma {:induction false} FirstUnfoldedIs(playing: seq<Member>)
    requires Named(playing)
    ensures FirstUnfolded(playing) == NOBODY <==> forall m :: m in playing ==> m.move == Folded
    ensures FirstUnfolded(playing) != NOBODY ==> exists m :: m in playing && m.id == FirstUnfolded(playing) && m.move != Folded
    decreases |playing|
  {
    if playing != [] {
      FirstUnfoldedIs(playing[1..]);
      assert forall m :: m in playing <==> m in playing[1..] || m == playing[0];
    }
  }

  lemma {:induction false} CountAll(members: seq<Member>, p: Member -> bool)
    ensures Count(members, p) <= |members|
    ensures Count(members, p) == |members| <==> forall m :: m in members ==> p(m)
    decreases |members|
  {
    if members != [] {
      CountAll(members[..|members| - 1], p);
      assert forall m :: m in members <==> m in members[..|members| - 1] || m == members[|members| - 1];
    }
  }

  lemma ParticipantsNamed(members: seq<Member>)
    requires Named(members)
    ensures Named(Participants(members))
  {
    forall m | m in Participants(members) ensures m.id != NOBODY {
      InParticipants(members, m);
    }
  }

  lemma DistinctHands(members: seq<Member>, m: Member, o: Member)
    requires DistinctMembers(members) && m in members && o in members && m.id == o.id
    ensures m == o
  {
  }

  // ---------- one action's effect on every account ----------

  /** Before the end of a game, coins go from the actor to the pot and nowhere else. */
  lemma ActedCoins(t: Table, id: Id, move: Move, other: Id)
    ensures var u := Acted(t, id, move);
      var stake := Stake(t.accounts, id, t.room.currentBet);
      && u.room.pot == t.room.pot + stake
      && Coins(u.accounts, other) == Coins(t.accounts, other) - (if other == id then stake else 0)
  {
  }

  predicate Ended(t: Table, u: Table) {
    t.room.round > 0 && u.room.round == 0
  }

  /** What a finished game has made disappear: the indivisible rest, or the whole pot when nobody wins. */
  function Lost(pot: nat, winners: seq<Id>): nat {
    if winners == [] then pot else pot % |winners|
  }

  lemma FinishConserves(t: Table, winners: seq<Id>, share: nat, ids: seq<Id>)
    requires t.room.pot >= 0 && NoDuplicates(ids) && NoDuplicates(winners) && forall id :: id in winners ==> id in ids
    requires share == Share(t.room.pot, winners)
    ensures Wealth(Finish(t, winners, share).accounts, ids) + Lost(t.room.pot, winners) == Wealth(t.accounts, ids) + t.room.pot
  {
    hide Wealth, Survivors, Heir, PayAll;
    PayAllWealth(t.accounts, winners, share, ids);
    if winners != [] {
      PartsAndRest(t.room.pot, |winners|);
    }
  }

  lemma ActedConserves(t: Table, id: Id, move: Move, ids: seq<Id>)
    requires NoDuplicates(ids) && id in ids
    ensures var u := Acted(t, id, move);
      Wealth(u.accounts, ids) + u.room.pot == Wealth(t.accounts, ids) + t.room.pot
  {
    WealthAt(t.accounts, Acted(t, id, move).accounts, ids, id);
  }

  ghost predicate Covers(ids: seq<Id>, members: seq<Member>) {
    NoDuplicates(ids) && forall m :: m in members ==> m.id in ids
  }

  lemma {:induction false} FoundMember(members: seq<Member>, id: Id)
    ensures MemberAt(members, id).Some? ==> MemberAt(members, id).value in members && MemberAt(members, id).value.id == id
    ensures MemberAt(members, id).None? ==> forall m :: m in members ==> m.id != id
  {
    if members != [] {
      FoundMember(members[1..], id);
      assert forall m :: m in members <==> m in members[1..] || m == members[0];
    }
  }

  lemma MovedMembers(members: seq<Member>, id: Id, move: Move)
    ensures Named(members) ==> Named(WithMove(members, id, move))
    ensures DistinctMembers(members) ==> DistinctMembers(WithMove(members, id, move))
    ensures forall ids :: Covers(ids, members) ==> Covers(ids, WithMove(members, id, move))
  {
    var after := WithMove(members, id, move);
    forall m | m in after ensures exists o :: o in members && o.id == m.id {
      var i :| 0 <= i < |after| && after[i] == m;
      assert members[i] in members;
    }
  }

  lemma IndianWinnerPlays(members: seq<Member>)
    requires Named(members)
    ensures var best := BestUnfolded(Participants(members));
      best.id != NOBODY ==> Has(members, best.id)
  {
    ParticipantsNamed(members);
    BestUnfoldedIsBest(Participants(members));
    var best := BestUnfolded(Participants(members));
    if best.id != NOBODY {
      var m :| m in Participants(members) && m.id == best.id && m.move != Folded && m.card == best.card;
      InParticipants(members, m);
    }
  }

  /** Every hand left belongs to somebody who was not dealt a card. */
  predicate NoCardLeft(members: seq<Member>) {
    forall m :: m in Participants(members) && m.move != Folded ==> m.card < 0
  }

  function IndianWinners(members: seq<Member>): (winners: seq<Id>)
    ensures |winners| <= 1
  {
    var best := BestUnfolded(Participants(members));
    if best.id == NOBODY then [] else [best.id]
  }

  /** An Indian poker showdown has no winner exactly when nobody unfolded holds a card. */
  lemma IndianPotVanishes(members: seq<Member>)
    requires Named(members)
    ensures IndianWinners(members) == [] <==> NoCardLeft(members)
    ensures forall id :: id in IndianWinners(members) ==> Has(members, id)
  {
    ParticipantsNamed(members);
    BestUnfoldedIsBest(Participants(members));
    IndianWinnerPlays(members);
  }

  /**
   Indian poker: coins are conserved, except that the whole pot is gone when the game ends with no card among
   the unfolded hands; the winners of an earlier game are then still shown.
   */
  lemma IndianConserves(t: Table, id: Id, move: Move, ids: seq<Id>)
    requires t.room.pot >= 0 && Named(t.room.members) && Covers(ids, t.room.members)
    requires PlayIndian(t, id, move).Success?
    ensures var u := PlayIndian(t, id, move).value;
      var pot := t.room.pot + Stake(t.accounts, id, t.room.currentBet);
      var members := WithMove(t.room.members, id, IndianMove(t, id, move));
      && Wealth(u.accounts, ids) + u.room.pot + (if Ended(t, u) && NoCardLeft(members) then pot else 0)
        == Wealth(t.accounts, ids) + t.room.pot
      && (Ended(t, u) ==> u.room.winners == if NoCardLeft(members) then t.room.winners else IndianWinners(members))
  {
    hide IndianShowdown, IndianOver, Wealth, NoCardLeft, IndianWinners;
    FoundMember(t.room.members, id);
    var v := Acted(t, id, IndianMove(t, id, move));
    ActedConserves(t, id, IndianMove(t, id, move), ids);
    MovedMembers(t.room.members, id, IndianMove(t, id, move));
    if IndianOver(v) {
      IndianShowdownConserves(v, ids);
    }
  }

  lemma IndianShowdownConserves(v: Table, ids: seq<Id>)
    requires v.room.pot >= 0 && Named(v.room.members) && Covers(ids, v.room.members)
    ensures var u := IndianShowdown(v);
      && Wealth(u.accounts, ids) + (if NoCardLeft(v.room.members) then v.room.pot else 0) == Wealth(v.accounts, ids) + v.room.pot
      && u.room.winners == (if NoCardLeft(v.room.members) then v.room.winners else IndianWinners(v.room.members))
      && u.room.round == 0 && u.room.pot == 0
  {
    hide Wealth, Survivors, Heir, BestUnfolded, NoCardLeft;
    IndianPotVanishes(v.room.members);
    IndianWinnerPlays(v.room.members);
    var best := BestUnfolded(Participants(v.room.members));
    if best.id != NOBODY {
      FinishConserves(v, [best.id], v.room.pot, ids);
    }
  }

  lemma HighLowWinnersPlay(members: seq<Member>)
    requires Named(members) && DistinctMembers(members)
    ensures NoDuplicates(HighLowWinners(members))
    ensures forall id :: id in HighLowWinners(members) ==> Has(members, id)
  {
    hide Participants, Unfolded, BestHigh, BestLow, FirstUnfolded;
    var playing := Participants(members);
    ParticipantsNamed(members);
    BestHighIsBest(playing);
    BestLowIsBest(playing);
    FirstUnfoldedIs(playing);
    var (high, low) := Declared(members);
    forall m | m in playing ensures m in members { InParticipants(members, m); }
    if BestHigh(playing).id != NOBODY && BestLow(playing).id != NOBODY {
      var h :| h in playing && h.id == BestHigh(playing).id && h.move == High;
      var l :| l in playing && l.id == BestLow(playing).id && l.move == Low;
      if h.id == l.id { DistinctHands(members, h, l); }
    }
  }

  /** High-low: a split loses the odd coin, and a game in which nobody wins loses the pot. */
  lemma HighLowConserves(t: Table, id: Id, move: Move, ids: seq<Id>)
    requires t.room.pot >= 0 && Named(t.room.members) && DistinctMembers(t.room.members) && Covers(ids, t.room.members)
    requires PlayHighLow(t, id, move).Success?
    ensures var u := PlayHighLow(t, id, move).value;
      var pot := t.room.pot + Stake(t.accounts, id, t.room.currentBet);
      && Wealth(u.accounts, ids) + u.room.pot + (if Ended(t, u) then Lost(pot, u.room.winners) else 0)
        == Wealth(t.accounts, ids) + t.room.pot
      && (Ended(t, u) ==> |u.room.winners| <= 2)
  {
    hide HighLowShowdown, HighLowOver, Wealth;
    FoundMember(t.room.members, id);
    var v := Acted(t, id, move);
    ActedConserves(t, id, move, ids);
    MovedMembers(t.room.members, id, move);
    if HighLowOver(v) {
      HighLowShowdownConserves(v, ids);
    }
  }

  lemma HighLowShowdownConserves(v: Table, ids: seq<Id>)
    requires v.room.pot >= 0 && Named(v.room.members) && DistinctMembers(v.room.members) && Covers(ids, v.room.members)
    ensures var u := HighLowShowdown(v);
      && Wealth(u.accounts, ids) + Lost(v.room.pot, u.room.winners) == Wealth(v.accounts, ids) + v.room.pot
      && |u.room.winners| <= 2 && u.room.round == 0 && u.room.pot == 0
  {
    hide Wealth, PayAll, Survivors, Heir, Declared;
    HighLowWinnersPlay(v.room.members);
    var winners := HighLowWinners(v.room.members);
    FinishConserves(v, winners, Share(v.room.pot, winners), ids);
  }

  /** A finished high-low game pays every winner its share, and everybody else nothing but what the actor staked. */
  lemma HighLowPays(t: Table, id: Id, move: Move, other: Id)
    requires Named(t.room.members) && DistinctMembers(t.room.members) && PlayHighLow(t, id, move).Success?
    ensures var u := PlayHighLow(t, id, move).value;
      var stake := Stake(t.accounts, id, t.room.currentBet);
      var winners := HighLowWinners(WithMove(t.room.members, id, move));
      && (Ended(t, u) ==> u.room.winners == winners)
      && Coins(u.accounts, other) == Coins(t.accounts, other) - (if other == id then stake else 0)
        + (if Ended(t, u) && other in winners then Share(t.room.pot + stake, winners) else 0)
  {
    hide HighLowOver, HighLowWinners, PayAll, Survivors, Heir;
    var v := Acted(t, id, move);
    MovedMembers(t.room.members, id, move);
    HighLowWinnersPlay(v.room.members);
    ActedCoins(t, id, move, other);
    PayAllCoins(v.accounts, HighLowWinners(v.room.members), Share(v.room.pot, HighLowWinners(v.room.members)), other);
  }

  /** A finished game of Indian poker pays its whole pot to the best unfolded hand. */
  lemma IndianPays(t: Table, id: Id, move: Move, other: Id)
    requires t.room.pot >= 0 && Named(t.room.members) && PlayIndian(t, id, move).Success?
    ensures var u := PlayIndian(t, id, move).value;
      var stake := Stake(t.accounts, id, t.room.currentBet);
      var best := BestUnfolded(Participants(WithMove(t.room.members, id, IndianMove(t, id, move))));
      && Coins(u.accounts, other) == Coins(t.accounts, other) - (if other == id then stake else 0)
        + (if Ended(t, u) && other == best.id && other != NOBODY then t.room.pot + stake else 0)
  {
    hide IndianOver, BestUnfolded, PayAll, Survivors, Heir;
    var v := Acted(t, id, IndianMove(t, id, move));
    ActedCoins(t, id, IndianMove(t, id, move), other);
    var best := BestUnfolded(Participants(v.room.members));
    var winners := if best.id == NOBODY then [] else [best.id];
    PayAllCoins(v.accounts, winners, v.room.pot, other);
  }

  /** The pot of a finished high-low game vanishes exactly when nobody declared with a card and not exactly one hand is left. */
  lemma HighLowPotVanishes(members: seq<Member>)
    requires Named(members) && forall m :: m in Participants(members) ==> m.card < 99
    ensures HighLowWinners(members) == [] <==>
      && (forall m :: m in Participants(members) && m.move == High ==> m.card < 0)
      && (forall m :: m in Participants(members) ==> m.move != Low)
      && Unfolded(members) != 1
  {
    var playing := Participants(members);
    ParticipantsNamed(members);
    BestHighIsBest(playing);
    BestLowIsBest(playing);
    FirstUnfoldedIs(playing);
    CountAll(playing, HasFolded);
  }

  /** Two players who only ever call lose the whole pot to nobody. */
  lemma CallersLoseThePot()
    ensures var members := [Member("a", false, Called, 3), Member("b", false, Idle, 9)];
      var t := Table(Room("a", 2, 1, false, InProgress, 5, 5, 5, 25, [], members), map["a" := 7, "b" := 7]);
      var r := PlayHighLow(t, "b", Called);
      && r.Success? && Ended(t, r.value) && r.value.room.winners == [] && r.value.room.pot == 0
      && Wealth(r.value.accounts, ["a", "b"]) == Wealth(t.accounts, ["a", "b"]) + t.room.pot - 30
  {
    var members := [Member("a", false, Called, 3), Member("b", false, Idle, 9)];
    var t := Table(Room("a", 2, 1, false, InProgress, 5, 5, 5, 25, [], members), map["a" := 7, "b" := 7]);
    assert members[1..] == [members[1]];
    var u := Acted(t, "b", Called);
    CallersEnd(u.room.members);
    assert HighLowOver(u);
    HighLowConserves(t, "b", Called, ["a", "b"]);
  }

  lemma CallersEnd(members: seq<Member>)
    requires members == [Member("a", false, Called, 3), Member("b", false, Called, 9)]
    ensures AllActed(members) && HighLowWinners(members) == []
  {
    assert members[..1] == [members[0]] && [members[0]][..0] == [];
    assert Participants([members[0]]) == [members[0]];
    assert Participants(members) == members;
    assert Count([members[0]], HasFolded) == 0;
    HighLowPotVanishes(members);
  }

  // ---------- doppelganger ----------

  lemma {:induction false} MatchesPlay(playing: seq<Member>, leader: Id, mark: int)
    requires forall i, j :: 0 <= i < j < |playing| ==> playing[i].id != playing[j].id
    ensures NoDuplicates(Matches(playing, leader, mark))
    ensures forall id :: id in Matches(playing, leader, mark) <==> exists m :: m in playing && m.id == id && m.id != leader && m.card == mark
    decreases |playing|
  {
    if playing != [] {
      var n := |playing| - 1;
      MatchesPlay(playing[..n], leader, mark);
      assert forall m :: m in playing <==> m in playing[..n] || m == playing[n];
      assert forall m :: m in playing[..n] ==> m.id != playing[n].id;
      assert playing[n].id !in Matches(playing[..n], leader, mark);
    }
  }

  lemma {:induction false} ParticipantsDistinct(members: seq<Member>)
    requires DistinctMembers(members)
    ensures DistinctMembers(Participants(members))
    decreases |members|
  {
    if members != [] {
      var n := |members| - 1;
      ParticipantsDistinct(members[..n]);
      forall m | m in Participants(members[..n]) ensures m.id != members[n].id {
        InParticipants(members[..n], m);
      }
    }
  }

  /** Doppelganger: what is lost is the rest of the division among the matching children. */
  lemma DoppelConserves(t: Table, id: Id, mark: int, draw: nat, ids: seq<Id>)
    requires t.room.pot >= 0 && DistinctMembers(t.room.members) && Covers(ids, t.room.members) && t.room.leader in ids
    requires PlayDoppel(t, id, mark, draw).Success?
    ensures var u := PlayDoppel(t, id, mark, draw).value;
      && Wealth(u.accounts, ids) + u.room.pot + (if Ended(t, u) then Lost(t.room.pot + MarkStake(t, id), u.room.winners) else 0)
        == Wealth(t.accounts, ids) + t.room.pot
      && (Ended(t, u) ==> u.room.winners != [])
  {
    hide DoppelShowdown, AllMarked, Wealth;
    FoundMember(t.room.members, id);
    MarkedMembers(t.room.members, id, mark);
    var v := MarkedTable(t, id, mark);
    WealthAt(t.accounts, v.accounts, ids, id);
    if AllMarked(v.room.members) {
      DoppelShowdownConserves(v, draw, ids);
    }
  }

  function MarkedTable(t: Table, id: Id, mark: int): Table {
    var staked := Staked(t, id, MarkStake(t, id));
    staked.(room := staked.room.(members := WithMark(t.room.members, id, mark)))
  }

  lemma DoppelShowdownConserves(v: Table, draw: nat, ids: seq<Id>)
    requires v.room.pot >= 0 && DistinctMembers(v.room.members) && Covers(ids, v.room.members) && v.room.leader in ids
    ensures var u := DoppelShowdown(v, draw);
      && Wealth(u.accounts, ids) + Lost(v.room.pot, u.room.winners) == Wealth(v.accounts, ids) + v.room.pot
      && u.room.winners != [] && u.room.round == 0 && u.room.pot == 0
  {
    hide Wealth, PayAll, Survivors, Heir, Covers;
    var playing := Participants(v.room.members);
    ParticipantsDistinct(v.room.members);
    var mark := LeaderMark(playing, v.room.leader);
    var children := Matches(playing, v.room.leader, mark);
    MatchesPlay(playing, v.room.leader, mark);
    forall child | child in children ensures child in ids {
      var m :| m in playing && m.id == child;
      InParticipants(v.room.members, m);
      CoveredMember(ids, v.room.members, m);
    }
    assert NoDuplicates(ids) by { CoversDistinct(ids, v.room.members); }
    if children == [] {
      FinishConserves(v, [v.room.leader], Share(v.room.pot, [v.room.leader]), ids);
    } else {
      FinishConserves(v.(room := v.room.(leader := if draw < |children| then children[draw] else children[0])), children, Share(v.room.pot, children), ids);
    }
  }

  lemma CoveredMember(ids: seq<Id>, members: seq<Member>, m: Member)
    requires Covers(ids, members) && m in members
    ensures m.id in ids
  {
  }

  lemma CoversDistinct(ids: seq<Id>, members: seq<Member>)
    requires Covers(ids, members)
    ensures NoDuplicates(ids)
  {
  }

  lemma MarkedMembers(members: seq<Member>, id: Id, mark: int)
    ensures DistinctMembers(members) ==> DistinctMembers(WithMark(members, id, mark))
    ensures forall ids :: Covers(ids, members) ==> Covers(ids, WithMark(members, id, mark))
  {
    var after := WithMark(members, id, mark);
    forall m | m in after ensures exists o :: o in members && o.id == m.id {
      var i :| 0 <= i < |after| && after[i] == m;
      assert members[i] in members;
    }
  }
}

/** One room and its accounts as the service mutates them, proved against the rules. */
module CasinoService {
  import opened Common
  import opened CasinoTable
  import Rules = CasinoRules
  import opened CasinoRules

  lemma {:induction false} ParticipantsAppend(members: seq<Member>, n: nat)
    requires n < |members|
    ensures Participants(members[..n + 1]) == Participants(members[..n]) + (if members[n].spectator then [] else [members[n]])
  {
    assert members[..n + 1][..n] == members[..n];
  }

  lemma {:induction false} CountAppends(members: seq<Member>, n: nat, p: Member -> bool)
    requires n < |members|
    ensures Count(members[..n + 1], p) == Count(members[..n], p) + (if p(members[n]) then 1 else 0)
  {
    assert members[..n + 1][..n] == members[..n];
  }

  /** Deals to everybody in order, removing each drawn card from the deck. */
  method DealHands(members: seq<Member>, draws: seq<nat>) returns (dealt: Option<seq<Member>>)
    ensures dealt == CasinoTable.Deal(members, Deck(DECK_SIZE), draws)
  {
    var deck, drawn, hands := Deck(DECK_SIZE), 0, [];
    for i := 0 to |members|
      invariant drawn <= |draws|
      invariant CasinoTable.Deal(members, Deck(DECK_SIZE), draws) == Prefixed(hands, CasinoTable.Deal(members[i..], deck, draws[drawn..]))
    {
      ghost var rest := members[i..];
      assert rest[0] == members[i] && rest[1..] == members[i + 1..];
      if members[i].spectator {
        OneMoreBuilt(hands, members[i], CasinoTable.Deal(members[i + 1..], deck, draws[drawn..]));
        hands := hands + [members[i]];
      } else {
        if drawn == |draws| || draws[drawn] >= |deck| {
          return None;
        }
        assert draws[drawn..][0] == draws[drawn] && draws[drawn..][1..] == draws[drawn + 1..];
        var hand := members[i].(card := deck[draws[drawn]], move := Idle);
        deck := Drop(deck, draws[drawn]);
        drawn := drawn + 1;
        OneMoreBuilt(hands, hand, CasinoTable.Deal(members[i + 1..], deck, draws[drawn..]));
        hands := hands + [hand];
      }
    }
    assert hands + [] == hands;
    return Some(hands);
  }

  class CasinoRoom {
    var leader: Id
    const maxPlayers: int
    const rate: int
    const spectators: bool
    var status: Status
    var round: int
    var currentBet: int
    var maxBet: int
    var pot: int
    var winners: seq<Id>
    var members: seq<Member>
    var accounts: Accounts

    function RoomValue(): Room
      reads this
    {
      Room(leader, maxPlayers, rate, spectators, status, round, currentBet, maxBet, pot, winners, members)
    }

    function Value(): Table
      reads this
    {
      Table(RoomValue(), accounts)
    }

    constructor (room: Room, accounts: Accounts)
      ensures Value() == Table(room, accounts)
    {
      leader, maxPlayers, rate, spectators, status := room.leader, room.maxPlayers, room.rate, room.spectators, room.status;
      round, currentBet, maxBet, pot := room.round, room.currentBet, room.maxBet, room.pot;
      winners, members, this.accounts := room.winners, room.members, accounts;
    }

    // ---------- reading ----------

    method ListParticipants() returns (playing: seq<Member>)
      ensures playing == Participants(members)
    {
      playing := [];
      for i := 0 to |members|
        invariant playing == Participants(members[..i])
      {
        ParticipantsAppend(members, i);
        if !members[i].spectator {
          playing := playing + [members[i]];
        }
      }
      assert members[..|members|] == members;
    }

    method FindMember(id: Id) returns (m: Option<Member>)
      ensures m == MemberAt(members, id)
    {
      var i := 0;
      while i < |members|
        invariant 0 <= i <= |members|
        invariant MemberAt(members, id) == MemberAt(members[i..], id)
      {
        if members[i].id == id {
          return Some(members[i]);
        }
        i := i + 1;
      }
      return None;
    }

    /** Folded, acted and declared hands are counted in one pass, with the first player out of coins. */
    method Tally(playing: seq<Member>) returns (folded: nat, showdowns: nat, declared: nat, allActed: bool, coinless: bool)
      requires playing == Participants(members)
      ensures folded == Count(playing, HasFolded) && showdowns == Count(playing, IsShowdown) && declared == Count(playing, IsDeclared)
      ensures allActed == AllActed(members) && coinless == CoinlessPlayer(members, accounts)
    {
      folded, showdowns, declared, allActed, coinless := 0, 0, 0, true, false;
      for i := 0 to |playing|
        invariant folded == Count(playing[..i], HasFolded)
        invariant showdowns == Count(playing[..i], IsShowdown)
        invariant declared == Count(playing[..i], IsDeclared)
        invariant allActed == forall j :: 0 <= j < i ==> !MayAct(playing[j])
        invariant coinless == exists j :: 0 <= j < i && playing[j].move != Folded && Coins(accounts, playing[j].id) == 0
      {
        var m := playing[i];
        CountAppends(playing, i, HasFolded);
        CountAppends(playing, i, IsShowdown);
        CountAppends(playing, i, IsDeclared);
        if m.move == Folded {
          folded := folded + 1;
        }
        if m.move == Showdown {
          showdowns := showdowns + 1;
        }
        if m.move == High || m.move == Low {
          declared := declared + 1;
        }
        if MayAct(m) {
          allActed := false;
        }
        if m.move != Folded && Coins(accounts, m.id) == 0 {
          coinless := true;
        }
      }
      assert playing[..|playing|] == playing;
    }

    // ---------- ending ----------

    method Pay(paid: seq<Id>, share: nat)
      modifies this`accounts
      ensures accounts == PayAll(old(accounts), paid, share)
    {
      for i := 0 to |paid|
        invariant accounts == PayAll(old(accounts), paid[..i], share)
      {
        assert paid[..i + 1][..i] == paid[..i];
        accounts := accounts[paid[i] := Coins(accounts, paid[i]) + share];
      }
      assert paid[..|paid|] == paid;
    }

    method Eject(paid: seq<Id>)
      modifies this`leader, this`members
      ensures leader == Heir(old(RoomValue()), accounts, paid)
      ensures members == Survivors(old(members), accounts)
    {
      var broke, before, boss := false, members, leader;
      var kept: seq<Member> := [];
      for i := 0 to |before|
        invariant kept == Survivors(before[..i], accounts)
        invariant broke == Broke(before[..i], accounts, boss)
        invariant leader == boss
      {
        assert before[..i + 1][..i] == before[..i];
        ParticipantsAppend(before, i);
        var m := before[i];
        if m.spectator {
          kept := kept + [m];
        } else if Coins(accounts, m.id) == 0 {
          if m.id == boss {
            broke := true;
          }
        } else {
          kept := kept + [m.(move := Waiting)];
        }
      }
      assert before[..|before|] == before;
      members := kept;
      if broke && paid != [] {
        leader := paid[0];
      }
    }

    method Finish(paid: seq<Id>, share: nat)
      modifies this`leader, this`round, this`status, this`pot, this`winners, this`members, this`accounts
      ensures Value() == CasinoTable.Finish(old(Value()), paid, share)
    {
      hide PayAll, Survivors, Broke;
      Pay(paid, share);
      Eject(paid);
      round, status, pot, winners := 0, Gathering, 0, paid;
    }

    // ---------- starting ----------

    method StartRefusal(id: Id) returns (error: Option<Error>)
      ensures error == CasinoTable.StartRefusal(RoomValue(), id)
    {
      if id == NOBODY {
        return Some(InvalidCharacter);
      }
      if leader != id {
        return Some(NotLeader);
      }
      if round > 0 {
        return Some(GameInProgress);
      }
      var playing := ListParticipants();
      if |playing| < MIN_PARTY {
        return Some(NotEnoughPlayers);
      }
      return None;
    }

    method StartCards(id: Id, draws: seq<nat>) returns (error: Option<Error>)
      modifies this
      ensures error.None? ==> CasinoTable.StartCards(old(RoomValue()), id, draws) == Success(RoomValue())
      ensures error.Some? ==> CasinoTable.StartCards(old(RoomValue()), id, draws) == Failure(error.value) && Value() == old(Value())
      ensures accounts == old(accounts)
    {
      hide CasinoTable.StartRefusal, CasinoTable.Deal;
      error := StartRefusal(id);
      if error.Some? {
        return;
      }
      var dealt := DealHands(members, draws);
      if dealt.None? {
        return Some(InvalidRequest);
      }
      members := dealt.value;
      round, status, currentBet, maxBet, pot, winners := 1, InProgress, rate, rate * 5, 0, [];
    }

    method StartDoppel(id: Id) returns (error: Option<Error>)
      modifies this
      ensures error.None? ==> Rules.StartDoppel(old(RoomValue()), id) == Success(RoomValue())
      ensures error.Some? ==> Rules.StartDoppel(old(RoomValue()), id) == Failure(error.value) && Value() == old(Value())
      ensures accounts == old(accounts)
    {
      hide CasinoTable.StartRefusal, Blank;
      error := StartRefusal(id);
      if error.Some? {
        return;
      }
      BlankMembers();
      round, status, currentBet, maxBet, pot, winners := 1, InProgress, rate, rate, 0, [];
    }

    method BlankMembers()
      modifies this`members
      ensures members == Blank(old(members))
    {
      var before := members;
      for i := 0 to |before|
        invariant |members| == |before|
        invariant forall j :: 0 <= j < i ==> members[j] == Blank(before)[j]
        invariant forall j :: i <= j < |before| ==> members[j] == before[j]
      {
        if !members[i].spectator {
          members := members[i := members[i].(card := -1, move := Idle)];
        }
      }
      assert members == Blank(before);
    }

    // ---------- playing cards ----------

    method PlayRefusal(id: Id) returns (error: Option<Error>)
      ensures error == CasinoTable.PlayRefusal(RoomValue(), id)
    {
      if id == NOBODY {
        return Some(InvalidCharacter);
      }
      if round <= 0 || status != InProgress {
        return Some(NotInRound);
      }
      var m := FindMember(id);
      if m.None? {
        return Some(MemberNotFound);
      }
      if m.value.spectator {
        return Some(SpectatorCannot);
      }
      return None;
    }

    method ActRefusal(id: Id) returns (error: Option<Error>)
      ensures error == Rules.ActRefusal(RoomValue(), id)
    {
      error := PlayRefusal(id);
      if error.Some? {
        return;
      }
      var m := FindMember(id);
      if m.Some? && !MayAct(m.value) {
        return Some(AlreadyActed);
      }
    }

    /** The stake moves into the pot and the move onto the table. */
    method Act(id: Id, move: Move)
      modifies this`pot, this`members, this`accounts
      ensures Value() == Acted(old(Value()), id, move)
    {
      hide WithMove;
      var stake := Stake(accounts, id, currentBet);
      accounts := Debit(accounts, id, stake);
      pot := pot + stake;
      SetMove(id, move);
    }

    method SetMove(id: Id, move: Move)
      modifies this`members
      ensures members == WithMove(old(members), id, move)
    {
      var before := members;
      for i := 0 to |before|
        invariant |members| == |before|
        invariant forall j :: 0 <= j < i ==> members[j] == WithMove(before, id, move)[j]
        invariant forall j :: i <= j < |before| ==> members[j] == before[j]
      {
        if members[i].id == id {
          members := members[i := members[i].(move := move)];
        }
      }
      assert members == WithMove(before, id, move);
    }

    method NextRound()
      modifies this`round, this`currentBet, this`members
      ensures Value() == old(Value()).(room := CasinoTable.NextRound(old(RoomValue())))
    {
      round, currentBet := round + 1, currentBet + rate;
      Reopen();
    }

    method Reopen()
      modifies this`members
      ensures members == Reopened(old(members))
    {
      var before := members;
      for i := 0 to |before|
        invariant |members| == |before|
        invariant forall j :: 0 <= j < i ==> members[j] == Reopened(before)[j]
        invariant forall j :: i <= j < |before| ==> members[j] == before[j]
      {
        if !members[i].spectator && members[i].move != Folded {
          members := members[i := members[i].(move := Idle)];
        }
      }
      assert members == Reopened(before);
    }

    method IndianShowdown(playing: seq<Member>)
      requires playing == Participants(members)
      modifies this
      ensures Value() == Rules.IndianShowdown(old(Value()))
    {
      hide CasinoTable.Finish, BestUnfolded;
      var best := FindBest(playing);
      var shown := winners;
      var paid: seq<Id> := if best == NOBODY then [] else [best];
      Finish(paid, if pot > 0 then pot else 0);
      currentBet := rate;
      winners := if paid == [] then shown else paid;
    }

    method FindBest(playing: seq<Member>) returns (winner: Id)
      ensures winner == BestUnfolded(playing).id
    {
      winner := NOBODY;
      var card := -1;
      for i := 0 to |playing|
        invariant Best(winner, card) == BestUnfolded(playing[..i])
      {
        assert playing[..i + 1][..i] == playing[..i];
        if playing[i].move != Folded && playing[i].card > card {
          winner, card := playing[i].id, playing[i].card;
        }
      }
      assert playing[..|playing|] == playing;
    }

    method PlayIndian(id: Id, move: Move) returns (error: Option<Error>)
      modifies this
      ensures error.None? ==> Rules.PlayIndian(old(Value()), id, move) == Success(Value())
      ensures error.Some? ==> Rules.PlayIndian(old(Value()), id, move) == Failure(error.value) && Value() == old(Value())
    {
      hide Acted, Rules.ActRefusal, AllActed, IndianOver, Rules.IndianShowdown, CasinoTable.NextRound;
      if id == NOBODY {
        return Some(InvalidCharacter);
      }
      if move !in {Called, Showdown, Folded} {
        return Some(InvalidRequest);
      }
      error := ActRefusal(id);
      if error.Some? {
        return;
      }
      Act(id, if move == Called && Coins(accounts, id) < currentBet then Showdown else move);
      GoOnIndian();
    }

    /** After an action: the showdown, the next round, or nothing while somebody may still act. */
    method GoOnIndian()
      modifies this
      ensures var u := old(Value());
        Value() == if IndianOver(u) then Rules.IndianShowdown(u)
          else if AllActed(u.room.members) then u.(room := CasinoTable.NextRound(u.room)) else u
    {
      hide AllActed, CoinlessPlayer, Rules.IndianShowdown, CasinoTable.NextRound;
      var playing := ListParticipants();
      var folded, showdowns, declared, allActed, coinless := Tally(playing);
      var unfolded := |playing| - folded;
      if unfolded <= 1 || (allActed && (coinless || currentBet >= maxBet || 2 * showdowns >= unfolded)) {
        IndianShowdown(playing);
      } else if allActed {
        NextRound();
      }
    }

    method FindDeclared(playing: seq<Member>, unfolded: int) returns (high: Id, low: Id)
      requires playing == Participants(members) && unfolded == Unfolded(members)
      ensures (high, low) == Declared(members)
    {
      high, low := NOBODY, NOBODY;
      var top, bottom := -1, 99;
      for i := 0 to |playing|
        invariant Best(high, top) == BestHigh(playing[..i]) && Best(low, bottom) == BestLow(playing[..i])
      {
        assert playing[..i + 1][..i] == playing[..i];
        if playing[i].move == High {
          if playing[i].card > top {
            high, top := playing[i].id, playing[i].card;
          }
        } else if playing[i].move == Low {
          if playing[i].card < bottom {
            low, bottom := playing[i].id, playing[i].card;
          }
        }
      }
      assert playing[..|playing|] == playing;
      if high == NOBODY && low == NOBODY && unfolded == 1 {
        var i := 0;
        while i < |playing|
          invariant 0 <= i <= |playing|
          invariant FirstUnfolded(playing) == FirstUnfolded(playing[i..])
        {
          if playing[i].move != Folded {
            high := playing[i].id;
            return;
          }
          i := i + 1;
        }
      }
    }

    method HighLowShowdown(playing: seq<Member>, unfolded: int)
      requires playing == Participants(members) && unfolded == Unfolded(members)
      modifies this
      ensures Value() == Rules.HighLowShowdown(old(Value()))
    {
      hide CasinoTable.Finish, Declared;
      var high, low := FindDeclared(playing, unfolded);
      var paid: seq<Id> := [];
      if |playing| > 2 && high != NOBODY && low != NOBODY {
        paid := [high, low];
      } else if high != NOBODY {
        paid := [high];
      } else if low != NOBODY {
        paid := [low];
      }
      Finish(paid, Share(pot, paid));
      currentBet := rate;
    }

    method PlayHighLow(id: Id, move: Move) returns (error: Option<Error>)
      modifies this
      ensures error.None? ==> Rules.PlayHighLow(old(Value()), id, move) == Success(Value())
      ensures error.Some? ==> Rules.PlayHighLow(old(Value()), id, move) == Failure(error.value) && Value() == old(Value())
    {
      hide Acted, Rules.ActRefusal, AllActed, HighLowOver, Rules.HighLowShowdown, CasinoTable.NextRound;
      error := ActRefusal(id);
      if error.Some? {
        return;
      }
      var seated := ListParticipants();
      if move == Low && |seated| <= 2 {
        return Some(LowNotAllowed);
      }
      if move !in {Called, High, Low, Folded} {
        return Some(InvalidRequest);
      }
      Act(id, move);
      GoOnHighLow();
    }

    method GoOnHighLow()
      modifies this
      ensures var u := old(Value());
        Value() == if HighLowOver(u) then Rules.HighLowShowdown(u)
          else if AllActed(u.room.members) then u.(room := CasinoTable.NextRound(u.room)) else u
    {
      hide AllActed, CoinlessPlayer, Rules.HighLowShowdown, CasinoTable.NextRound;
      var playing := ListParticipants();
      var folded, showdowns, declared, allActed, coinless := Tally(playing);
      var unfolded := |playing| - folded;
      if allActed && (coinless || currentBet >= maxBet || 2 * declared >= unfolded || unfolded <= 1) {
        HighLowShowdown(playing, unfolded);
      } else if allActed {
        NextRound();
      }
    }

    // ---------- doppelganger ----------

    method SetMark(id: Id, mark: int)
      modifies this`members
      ensures members == WithMark(old(members), id, mark)
    {
      var before := members;
      for i := 0 to |before|
        invariant |members| == |before|
        invariant forall j :: 0 <= j < i ==> members[j] == WithMark(before, id, mark)[j]
        invariant forall j :: i <= j < |before| ==> members[j] == before[j]
      {
        if members[i].id == id {
          members := members[i := members[i].(card := mark, move := Marked)];
        }
      }
      assert members == WithMark(before, id, mark);
    }

    method FindMatches(playing: seq<Member>) returns (children: seq<Id>, allMarked: bool)
      ensures children == Matches(playing, leader, LeaderMark(playing, leader))
      ensures allMarked == forall m :: m in playing ==> m.card >= 0
    {
      var mark := 0;
      allMarked := true;
      for i := 0 to |playing|
        invariant mark == LeaderMark(playing[..i], leader)
        invariant allMarked == forall j :: 0 <= j < i ==> playing[j].card >= 0
      {
        assert playing[..i + 1][..i] == playing[..i];
        if playing[i].id == leader {
          mark := playing[i].card;
        }
        if playing[i].card < 0 {
          allMarked := false;
        }
      }
      children := [];
      for i := 0 to |playing|
        invariant children == Matches(playing[..i], leader, mark)
      {
        assert playing[..i + 1][..i] == playing[..i];
        if playing[i].id != leader && playing[i].card == mark {
          children := children + [playing[i].id];
        }
      }
      assert playing[..|playing|] == playing;
    }

    method DoppelShowdown(playing: seq<Member>, children: seq<Id>, draw: nat)
      requires playing == Participants(members) && children == Matches(playing, leader, LeaderMark(playing, leader))
      modifies this
      ensures Value() == Rules.DoppelShowdown(old(Value()), draw)
    {
      hide CasinoTable.Finish, Matches, LeaderMark;
      if children == [] {
        Finish([leader], Share(pot, [leader]));
      } else {
        leader := if draw < |children| then children[draw] else children[0];
        Finish(children, Share(pot, children));
      }
    }

    /** Only the first mark of a game costs its stake. */
    method StakeMark(id: Id)
      modifies this`accounts, this`pot
      ensures Value() == Staked(old(Value()), id, MarkStake(old(Value()), id))
    {
      var m := FindMember(id);
      var stake := if m.Some? && m.value.card < 0 then Stake(accounts, id, rate) else 0;
      accounts := Debit(accounts, id, stake);
      pot := pot + stake;
    }

    method PlayDoppel(id: Id, mark: int, draw: nat) returns (error: Option<Error>)
      modifies this
      ensures error.None? ==> Rules.PlayDoppel(old(Value()), id, mark, draw) == Success(Value())
      ensures error.Some? ==> Rules.PlayDoppel(old(Value()), id, mark, draw) == Failure(error.value) && Value() == old(Value())
    {
      hide CasinoTable.PlayRefusal, Rules.DoppelShowdown, WithMark, Participants, Staked, MarkStake, Matches;
      error := PlayRefusal(id);
      if error.Some? {
        return;
      }
      var seated := ListParticipants();
      if mark < 0 || mark > Min(|seated|, MARKS - 1) {
        return Some(InvalidMark);
      }
      StakeMark(id);
      SetMark(id, mark);
      var playing := ListParticipants();
      var children, allMarked := FindMatches(playing);
      if allMarked {
        DoppelShowdown(playing, children, draw);
      }
    }

    // ---------- members ----------

    method Join(id: Id, exhausted: bool) returns (error: Option<Error>)
      modifies this`members
      ensures error.None? ==> Rules.Join(old(Value()), id, exhausted) == Success(RoomValue())
      ensures error.Some? ==> Rules.Join(old(Value()), id, exhausted) == Failure(error.value) && Value() == old(Value())
    {
      hide Participants, MemberAt;
      if id == NOBODY {
        return Some(InvalidCharacter);
      }
      if exhausted {
        return Some(Exhausted);
      }
      if status == Disbanded {
        return Some(RoomNotFound);
      }
      if Coins(accounts, id) < rate {
        return Some(InsufficientCoins);
      }
      var m := FindMember(id);
      if m.Some? {
        return Some(AlreadyInRoom);
      }
      var playing := ListParticipants();
      if |playing| >= maxPlayers {
        return Some(RoomFull);
      }
      members := members + [Member(id, false, Waiting, -1)];
      return None;
    }

    method Remove(id: Id)
      modifies this`members
      ensures members == WithoutMember(old(members), id)
    {
      var before := members;
      var kept: seq<Member> := [];
      for i := 0 to |before|
        invariant kept == WithoutMember(before[..i], id)
      {
        assert before[..i + 1][..i] == before[..i];
        if before[i].id != id {
          kept := kept + [before[i]];
        }
      }
      assert before[..|before|] == before;
      members := kept;
    }

    method Leave(id: Id) returns (error: Option<Error>)
      modifies this`members, this`leader, this`status
      ensures error.None? ==> Rules.Leave(old(RoomValue()), id) == Success(RoomValue())
      ensures error.Some? ==> Rules.Leave(old(RoomValue()), id) == Failure(error.value) && Value() == old(Value())
    {
      hide Participants, MemberAt, WithoutMember;
      if id == NOBODY {
        return Some(InvalidCharacter);
      }
      var m := FindMember(id);
      if m.None? {
        return Some(MemberNotFound);
      }
      Remove(id);
      if m.value.spectator {
        return None;
      }
      var playing := ListParticipants();
      if |playing| == 0 {
        status := Disbanded;
      } else if leader == id {
        leader := playing[0].id;
      }
      return None;
    }

    method Kick(boss: Id, id: Id) returns (error: Option<Error>)
      modifies this`members
      ensures error.None? ==> Rules.Kick(old(RoomValue()), boss, id) == Success(RoomValue())
      ensures error.Some? ==> Rules.Kick(old(RoomValue()), boss, id) == Failure(error.value) && Value() == old(Value())
    {
      hide MemberAt, WithoutMember;
      if boss == NOBODY || id == NOBODY {
        return Some(InvalidCharacter);
      }
      if boss == id {
        return Some(CannotKickSelf);
      }
      if leader != boss {
        return Some(NotLeader);
      }
      if round > 0 {
        return Some(GameInProgress);
      }
      var m := FindMember(id);
      if m.None? {
        return Some(MemberNotFound);
      }
      Remove(id);
      return None;
    }
  }
}

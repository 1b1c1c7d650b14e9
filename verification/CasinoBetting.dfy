/** Betting rounds end: the bets, the pot and the number of actions are bounded for a fixed roster. */
module CasinoBetting {
  import opened Common
  import opened CasinoTable
  import opened CasinoRules
  import opened CasinoCoins

  const LAST_ROUND := 5

  datatype Game = IndianPoker | HighLow

  function Play(game: Game, t: Table, id: Id, move: Move): Result<Table, Error> {
    match game
    case IndianPoker => PlayIndian(t, id, move)
    case HighLow => PlayHighLow(t, id, move)
  }

  /** Who wins a showdown among these hands. */
  function Winners(game: Game, members: seq<Member>): seq<Id> {
    match game
    case IndianPoker => IndianWinners(members)
    case HighLow => HighLowWinners(members)
  }

  predicate Over(game: Game, t: Table) {
    match game
    case IndianPoker => IndianOver(t)
    case HighLow => HighLowOver(t)
  }

  /** A game in progress bets its rate once per round, and somebody may still act. */
  ghost predicate Betting(room: Room) {
    && room.status == InProgress && 1 <= room.round <= LAST_ROUND && room.rate >= 1 && room.pot >= 0
    && room.currentBet == Parts(room.round, room.rate) && room.maxBet == 5 * room.rate
    && DistinctMembers(room.members) && Named(room.members)
    && !AllActed(room.members)
  }

  function ToAct(members: seq<Member>): nat {
    Count(Participants(members), MayAct)
  }

  // ---------- counting ----------

  lemma {:induction false} CountNone(members: seq<Member>, p: Member -> bool)
    ensures Count(members, p) == 0 <==> forall m :: m in members ==> !p(m)
    decreases |members|
  {
    if members != [] {
      CountNone(members[..|members| - 1], p);
      assert forall m :: m in members <==> m in members[..|members| - 1] || m == members[|members| - 1];
    }
  }

  lemma {:induction false} MoveElsewhere(members: seq<Member>, id: Id, move: Move)
    requires forall m :: m in members ==> m.id != id
    ensures WithMove(members, id, move) == members
  {
  }

  lemma WithMovePrefix(members: seq<Member>, id: Id, move: Move)
    requires members != []
    ensures WithMove(members, id, move)[..|members| - 1] == WithMove(members[..|members| - 1], id, move)
  {
  }

  lemma CountAppend(members: seq<Member>, m: Member, p: Member -> bool)
    ensures Count(members + [m], p) == Count(members, p) + (if p(m) then 1 else 0)
  {
    assert (members + [m])[..|members|] == members;
  }

  lemma OpenAppend(members: seq<Member>, p: Member -> bool)
    requires members != []
    ensures var last := members[|members| - 1];
      var before := members[..|members| - 1];
      && |Participants(members)| == |Participants(before)| + (if last.spectator then 0 else 1)
      && Count(Participants(members), p) == Count(Participants(before), p) + (if !last.spectator && p(last) then 1 else 0)
  {
    var last := members[|members| - 1];
    var before := members[..|members| - 1];
    if last.spectator {
      assert Participants(members) == Participants(before) + [] == Participants(before);
    } else {
      CountAppend(Participants(before), last, p);
    }
  }

  /** A participant's move changes neither the number of participants nor anybody else's turn. */
  lemma {:induction false} OneLessOpen(members: seq<Member>, id: Id, move: Move)
    requires DistinctMembers(members) && move != Idle && move != Waiting
    requires MemberAt(members, id).Some? && !MemberAt(members, id).value.spectator && MayAct(MemberAt(members, id).value)
    ensures |Participants(WithMove(members, id, move))| == |Participants(members)|
    ensures ToAct(WithMove(members, id, move)) == ToAct(members) - 1
    decreases |members|
  {
    hide Participants, Count;
    FoundMember(members, id);
    var n := |members| - 1;
    WithMovePrefix(members, id, move);
    OpenAppend(members, MayAct);
    OpenAppend(WithMove(members, id, move), MayAct);
    if members[n].id == id {
      MoveElsewhere(members[..n], id, move);
      assert MemberAt(members, id).value == members[n];
    } else {
      FoundMember(members[..n], id);
      DistinctHands(members, MemberAt(members, id).value, MemberAt(members[..n], id).value);
      OneLessOpen(members[..n], id, move);
    }
  }

  lemma {:induction false} ReopenedCounts(members: seq<Member>)
    ensures |Participants(Reopened(members))| == |Participants(members)|
    ensures ToAct(Reopened(members)) + Count(Participants(members), HasFolded) == |Participants(members)|
    decreases |members|
  {
    if members != [] {
      hide Participants, Count;
      var n := |members| - 1;
      assert Reopened(members)[..n] == Reopened(members[..n]);
      ReopenedCounts(members[..n]);
      OpenAppend(members, HasFolded);
      OpenAppend(Reopened(members), MayAct);
    }
  }

  lemma ReopenedMembers(members: seq<Member>)
    ensures Named(members) ==> Named(Reopened(members))
    ensures DistinctMembers(members) ==> DistinctMembers(Reopened(members))
  {
    var after := Reopened(members);
    forall m | m in after ensures exists o :: o in members && o.id == m.id {
      var i :| 0 <= i < |after| && after[i] == m;
      assert members[i] in members;
    }
  }

  lemma OpenIsNotAllActed(members: seq<Member>)
    ensures AllActed(members) <==> ToAct(members) == 0
  {
    CountNone(Participants(members), MayAct);
  }

  // ---------- the bounds ----------

  /** Actions a game with a fixed roster can still take. */
  function ActionsLeft(room: Room): nat
    requires room.round <= LAST_ROUND
  {
    Parts(LAST_ROUND - room.round, Players(room)) + ToAct(room.members)
  }

  /** What earlier rounds can have put into the pot. */
  function Ceiling(players: nat, rate: nat, round: nat): nat {
    if round <= 1 then 0 else Ceiling(players, rate, round - 1) + Parts(players, Parts(round - 1, rate))
  }

  ghost predicate PotBounded(room: Room)
    requires room.rate >= 0 && room.round >= 0 && ToAct(room.members) <= Players(room)
  {
    room.pot <= Ceiling(Players(room), room.rate, room.round) + Parts(Players(room) - ToAct(room.members), Parts(room.round, room.rate))
  }

  lemma OpenAtMostPlayers(members: seq<Member>)
    ensures ToAct(members) <= |Participants(members)|
  {
    CountAll(Participants(members), MayAct);
  }

  lemma {:induction false} PartsGrow(a: nat, b: nat, share: nat)
    requires a <= b
    ensures Parts(a, share) <= Parts(b, share)
    decreases b
  {
    if a < b {
      PartsGrow(a, b - 1, share);
    }
  }

  lemma FiveParts(share: nat)
    ensures Parts(5, share) == 5 * share
  {
    PartsMultiply(5, share);
  }

  /** A bet below the maximum was made before the last round. */
  lemma BelowMaxBet(round: nat, rate: nat)
    requires Parts(round, rate) < 5 * rate
    ensures round < LAST_ROUND
  {
    if round >= LAST_ROUND {
      PartsGrow(5, round, rate);
      FiveParts(rate);
    }
  }

  lemma {:induction false} CeilingGrows(players: nat, rate: nat, a: nat, b: nat)
    requires a <= b
    ensures Ceiling(players, rate, a) <= Ceiling(players, rate, b)
    decreases b
  {
    if a < b {
      CeilingGrows(players, rate, a, b - 1);
    }
  }

  /** Five full rounds of a whole roster add up to fifteen rates a head. */
  lemma CeilingIsFifteen(players: nat, rate: nat)
    ensures Ceiling(players, rate, 6) == 15 * players * rate
  {
    hide Parts;
    CeilingStep(players, rate, 1);
    CeilingStep(players, rate, 2);
    CeilingStep(players, rate, 3);
    CeilingStep(players, rate, 4);
    CeilingStep(players, rate, 5);
    assert Ceiling(players, rate, 1) == 0;
    assert 15 * players * rate == 15 * (players * rate);
  }

  lemma CeilingStep(players: nat, rate: nat, k: nat)
    requires k >= 1
    ensures Ceiling(players, rate, k + 1) == Ceiling(players, rate, k) + k * (players * rate)
  {
    PartsMultiply(k, rate);
    PartsMultiply(players, k * rate);
    assert players * (k * rate) == k * (players * rate);
  }

  // ---------- one action ----------

  lemma AcceptedActor(game: Game, t: Table, id: Id, move: Move)
    requires Play(game, t, id, move).Success?
    ensures MemberAt(t.room.members, id).Some?
    ensures !MemberAt(t.room.members, id).value.spectator && MayAct(MemberAt(t.room.members, id).value)
    ensures move != Idle && move != Waiting && t.room.round > 0
  {
    hide IndianOver, HighLowOver, IndianShowdown, HighLowShowdown, Acted;
  }

  function PlayedMove(game: Game, t: Table, id: Id, move: Move): Move {
    if game == IndianPoker then IndianMove(t, id, move) else move
  }

  lemma PlayIs(game: Game, t: Table, id: Id, move: Move)
    requires Play(game, t, id, move).Success?
    ensures var u := Acted(t, id, PlayedMove(game, t, id, move));
      var v := Play(game, t, id, move).value;
      && (Over(game, u) ==> v.room.round == 0 && v.room.pot == 0)
      && (!Over(game, u) ==> v == if AllActed(u.room.members) then u.(room := NextRound(u.room)) else u)
  {
    hide IndianOver, HighLowOver, Acted, AllActed, ActRefusal, PayAll, Survivors, Heir, HighLowWinners, BestUnfolded;
  }

  lemma NotOverBelowMax(game: Game, u: Table)
    requires !Over(game, u) && AllActed(u.room.members)
    ensures u.room.currentBet < u.room.maxBet && Unfolded(u.room.members) >= 2
  {
  }

  lemma ActedTable(t: Table, id: Id, move: Move)
    requires Betting(t.room) && MemberAt(t.room.members, id).Some?
    requires !MemberAt(t.room.members, id).value.spectator && MayAct(MemberAt(t.room.members, id).value)
    requires move != Idle && move != Waiting && ToAct(t.room.members) <= Players(t.room) && PotBounded(t.room)
    ensures var u := Acted(t, id, move);
      && u.room == t.room.(pot := u.room.pot, members := u.room.members)
      && t.room.pot <= u.room.pot && DistinctMembers(u.room.members) && Named(u.room.members)
      && Players(u.room) == Players(t.room) && ToAct(u.room.members) == ToAct(t.room.members) - 1
      && PotBounded(u.room)
  {
    hide Participants, AllActed;
    OneLessOpen(t.room.members, id, move);
    MovedMembers(t.room.members, id, move);
    var u := Acted(t, id, move);
    var acted := Players(t.room) - ToAct(t.room.members);
    assert Parts(acted + 1, t.room.currentBet) == Parts(acted, t.room.currentBet) + t.room.currentBet;
  }

  lemma NextRoundBounded(room: Room)
    requires 1 <= room.round && room.rate >= 1 && ToAct(room.members) == 0 && PotBounded(room)
    ensures ToAct(NextRound(room).members) <= Players(NextRound(room)) == Players(room)
    ensures PotBounded(NextRound(room))
  {
    hide Participants, Count;
    ReopenedCounts(room.members);
  }

  /** Every accepted action either ends the game or leaves one action less, within the pot's bound. */
  lemma ActionGetsCloser(game: Game, t: Table, id: Id, move: Move)
    requires Betting(t.room) && ToAct(t.room.members) <= Players(t.room) && PotBounded(t.room)
    requires Play(game, t, id, move).Success?
    ensures var v := Play(game, t, id, move).value;
      v.room.round != 0 ==>
        && Betting(v.room) && Players(v.room) == Players(t.room) && v.room.rate == t.room.rate
        && ToAct(v.room.members) <= Players(v.room) && PotBounded(v.room)
        && ActionsLeft(v.room) < ActionsLeft(t.room)
  {
    hide Play, Over, AllActed, PotBounded, ToAct, Players, Acted, Parts, DistinctMembers, Named, NextRound;
    AcceptedActor(game, t, id, move);
    PlayIs(game, t, id, move);
    var u := Acted(t, id, PlayedMove(game, t, id, move));
    ActedTable(t, id, PlayedMove(game, t, id, move));
    OpenAtMostPlayers(u.room.members);
    OpenIsNotAllActed(u.room.members);
    if !Over(game, u) && AllActed(u.room.members) {
      NotOverBelowMax(game, u);
      RoundGetsCloser(u.room);
    }
  }

  lemma RoundGetsCloser(room: Room)
    requires 1 <= room.round <= LAST_ROUND && room.rate >= 1 && room.pot >= 0 && room.status == InProgress
    requires room.currentBet == Parts(room.round, room.rate) < room.maxBet == 5 * room.rate
    requires DistinctMembers(room.members) && Named(room.members) && Unfolded(room.members) >= 2
    requires ToAct(room.members) == 0 && PotBounded(room)
    ensures var v := NextRound(room);
      && Betting(v) && Players(v) == Players(room) && v.rate == room.rate && v.round == room.round + 1
      && ToAct(v.members) <= Players(v) && PotBounded(v) && ActionsLeft(v) <= ActionsLeft(room)
  {
    hide PotBounded, Participants, Count, AllActed;
    BelowMaxBet(room.round, room.rate);
    NextRoundBounded(room);
    ReopenedCounts(room.members);
    ReopenedMembers(room.members);
    OpenIsNotAllActed(NextRound(room).members);
  }

  // ---------- whole games ----------

  /** One accepted action; between actions anything may happen to the accounts. */
  datatype Turn = Turn(id: Id, move: Move, accounts: Accounts)

  function PlayAll(game: Game, room: Room, turns: seq<Turn>): Option<Room> {
    if turns == [] then Some(room)
    else
      var before := PlayAll(game, room, turns[..|turns| - 1]);
      if before.None? then None
      else
        var last := turns[|turns| - 1];
        var r := Play(game, Table(before.value, last.accounts), last.id, last.move);
        if r.Failure? then None else Some(r.value.room)
  }

  lemma {:induction false} PlayStaysBounded(game: Game, room: Room, turns: seq<Turn>)
    requires Betting(room) && ToAct(room.members) <= Players(room) && PotBounded(room)
    requires PlayAll(game, room, turns).Some?
    ensures var last := PlayAll(game, room, turns).value;
      && (last.round != 0 ==>
            && Betting(last) && Players(last) == Players(room) && last.rate == room.rate
            && ToAct(last.members) <= Players(last) && PotBounded(last)
            && ActionsLeft(last) + |turns| <= ActionsLeft(room))
      && |turns| <= ActionsLeft(room)
    decreases |turns|
  {
    hide Betting, ToAct, Players, PotBounded, Play;
    if turns != [] {
      var n := |turns| - 1;
      PlayStaysBounded(game, room, turns[..n]);
      var before := PlayAll(game, room, turns[..n]).value;
      AcceptedActor(game, Table(before, turns[n].accounts), turns[n].id, turns[n].move);
      BettingRound(before);
      ActionGetsCloser(game, Table(before, turns[n].accounts), turns[n].id, turns[n].move);
      BettingLeft(before);
      var last := PlayAll(game, room, turns).value;
      if last.round != 0 { BettingLeft(last); }
    }
  }

  lemma BettingRound(room: Room)
    requires Betting(room)
    ensures 1 <= room.round <= LAST_ROUND
  {
  }

  lemma BettingLeft(room: Room)
    requires Betting(room)
    ensures room.round <= LAST_ROUND && ActionsLeft(room) >= 1
  {
    OpenIsNotAllActed(room.members);
  }
}

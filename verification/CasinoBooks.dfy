/** Coins over a whole room history, with joins, departures and payments elsewhere: what the room ever loses. */
module CasinoBooks {
  import opened Common
  import opened CasinoTable
  import opened CasinoRules
  import opened CasinoCoins
  import opened CasinoBetting
  import opened CasinoDealing
  import opened CasinoRooms

  // ---------- one table with its accounts ----------

  /** Something happens in the room, with the accounts as they are, or somebody is paid or charged elsewhere. */
  datatype Happening = AtTable(e: Event) | Elsewhere(accounts: Accounts)

  function InRoom(r: Result<Room, Error>, accounts: Accounts): Result<Table, Error> {
    if r.Success? then Success(Table(r.value, accounts)) else Failure(r.error)
  }

  /** The event on the table's own accounts; those an event carries are not looked at. */
  function Attempted(kind: Kind, t: Table, e: Event): Result<Table, Error> {
    match e
    case Joined(id, exhausted, _) => InRoom(Join(t, id, exhausted), t.accounts)
    case Spectated(id) => InRoom(Spectate(t.room, id), t.accounts)
    case Left(id) => InRoom(Leave(t.room, id), t.accounts)
    case Kicked(leader, id) => InRoom(Kick(t.room, leader, id), t.accounts)
    case Started(leader, draws) =>
      InRoom(if kind.Doppel? then StartDoppel(t.room, leader) else StartCards(t.room, leader, draws), t.accounts)
    case Played(id, move, _) => if kind.Doppel? then Failure(InvalidRequest) else Play(kind.game, t, id, move)
    case ChoseMark(id, mark, draw, _) => if kind.Doppel? then PlayDoppel(t, id, mark, draw) else Failure(InvalidRequest)
  }

  function With(e: Event, accounts: Accounts): Event {
    match e
    case Joined(id, exhausted, _) => Joined(id, exhausted, accounts)
    case Played(id, move, _) => Played(id, move, accounts)
    case ChoseMark(id, mark, draw, _) => ChoseMark(id, mark, draw, accounts)
    case _ => e
  }

  /** The room goes the way of the room histories. */
  lemma SameRoom(kind: Kind, t: Table, e: Event)
    ensures OnlyRoom(Attempted(kind, t, e)) == Attempt(kind, t.room, With(e, t.accounts))
  {
    hide Play, PlayDoppel, Join, Spectate, Leave, Kick, StartCards, StartDoppel;
  }

  function Next(kind: Kind, t: Table, h: Happening): Table {
    match h
    case AtTable(e) => (var r := Attempted(kind, t, e); if r.Success? then r.value else t)
    case Elsewhere(accounts) => t.(accounts := accounts)
  }

  function Follow(kind: Kind, t: Table, hs: seq<Happening>): Table {
    if hs == [] then t else Next(kind, Follow(kind, t, hs[..|hs| - 1]), hs[|hs| - 1])
  }

  // ---------- what an event costs ----------

  /** What these characters own together with the pot of a room that is still there. */
  function Kept(t: Table, ids: seq<Id>): int {
    Wealth(t.accounts, ids) + (if t.room.status == Disbanded then 0 else t.room.pot)
  }

  /** The last participant goes and the room is closed. */
  predicate Closes(room: Room, id: Id) {
    var m := MemberAt(room.members, id);
    m.Some? && !m.value.spectator && room.status != Disbanded && Participants(WithoutMember(room.members, id)) == []
  }

  function DoppelWinners(room: Room, members: seq<Member>): seq<Id> {
    var playing := Participants(members);
    var children := Matches(playing, room.leader, LeaderMark(playing, room.leader));
    if children == [] then [room.leader] else children
  }

  /** What a card showdown loses: the pot without a winner, or the rest of dividing it. */
  function ShowdownCost(game: Game, t: Table, id: Id, move: Move): int {
    var v := Acted(t, id, PlayedMove(game, t, id, move));
    if !Over(game, v) then 0
    else
      match game
      case IndianPoker => if NoCardLeft(v.room.members) then v.room.pot else 0
      case HighLow => Lost(Max(0, v.room.pot), HighLowWinners(v.room.members))
  }

  function MarkCost(t: Table, id: Id, mark: int): int {
    var members := WithMark(t.room.members, id, mark);
    if AllMarked(members) then Lost(Max(0, t.room.pot + MarkStake(t, id)), DoppelWinners(t.room, members)) else 0
  }

  /** What an event makes disappear, told from the table before it. */
  function Cost(kind: Kind, t: Table, e: Event): int {
    if Attempted(kind, t, e).Failure? then 0
    else
      match e
      case Left(id) => if Closes(t.room, id) then t.room.pot else 0
      case Played(id, move, _) => if kind.Cards? then ShowdownCost(kind.game, t, id, move) else 0
      case ChoseMark(id, mark, _, _) => MarkCost(t, id, mark)
      case _ => 0
  }

  function Costs(kind: Kind, t: Table, hs: seq<Happening>): int {
    if hs == [] then 0
    else
      var before, last := hs[..|hs| - 1], hs[|hs| - 1];
      Costs(kind, t, before) + (if last.AtTable? then Cost(kind, Follow(kind, t, before), last.e) else 0)
  }

  /** What these characters got elsewhere, less what they paid there. */
  function Gains(kind: Kind, t: Table, hs: seq<Happening>, ids: seq<Id>): int {
    if hs == [] then 0
    else
      var before, last := hs[..|hs| - 1], hs[|hs| - 1];
      Gains(kind, t, before, ids)
        + (if last.Elsewhere? then Wealth(last.accounts, ids) - Wealth(Follow(kind, t, before).accounts, ids) else 0)
  }

  // ---------- who is at the table ----------

  ghost predicate Seated(room: Room, ids: seq<Id>) {
    Covers(ids, room.members) && room.leader in ids
  }

  predicate Arrives(e: Event, id: Id) {
    match e
    case Joined(newcomer, _, _) => newcomer == id
    case Spectated(newcomer) => newcomer == id
    case _ => false
  }

  ghost predicate Expected(h: Happening, ids: seq<Id>) {
    h.AtTable? ==> forall id :: Arrives(h.e, id) ==> id in ids
  }

  lemma FinishStaysSeated(t: Table, winners: seq<Id>, share: nat, ids: seq<Id>)
    requires Seated(t.room, ids) && DistinctMembers(t.room.members) && forall w :: w in winners ==> w in ids
    ensures Seated(Finish(t, winners, share).room, ids)
  {
    hide PayAll, Broke;
    var accounts := PayAll(t.accounts, winners, share);
    SurvivorsAre(t.room.members, accounts);
    forall m | m in Survivors(t.room.members, accounts) ensures m.id in ids {
      assert Has(Survivors(t.room.members, accounts), m.id);
      var o :| o in t.room.members && o.id == m.id;
    }
  }

  lemma ActedStaysSeated(t: Table, id: Id, move: Move, ids: seq<Id>)
    requires Seated(t.room, ids)
    ensures Seated(Acted(t, id, move).room, ids)
  {
    MovedMembers(t.room.members, id, move);
  }

  lemma ReopenedCovers(members: seq<Member>, ids: seq<Id>)
    requires Covers(ids, members)
    ensures Covers(ids, Reopened(members))
  {
    forall m | m in Reopened(members) ensures m.id in ids {
      var i :| 0 <= i < |members| && Reopened(members)[i] == m;
      assert members[i] in members;
    }
  }

  lemma WinnersCovered(game: Game, members: seq<Member>, ids: seq<Id>)
    requires Named(members) && DistinctMembers(members) && Covers(ids, members)
    ensures forall w :: w in Winners(game, members) ==> w in ids
  {
    hide Winners;
    WinnersTakePart(game, members);
    forall w | w in Winners(game, members) ensures w in ids {
      var m :| m in members && m.id == w && !m.spectator;
    }
  }

  lemma PlayStaysSeated(game: Game, t: Table, id: Id, move: Move, ids: seq<Id>)
    requires RoomOk(Cards(game), t.room) && Seated(t.room, ids) && Play(game, t, id, move).Success?
    ensures Seated(Play(game, t, id, move).value.room, ids)
  {
    hide Play, Over, PlayedMove, Acted, AllActed, RoomOk, Finish, Winners, Seated;
    RoomParts(Cards(game), t.room);
    AcceptedActor(game, t, id, move);
    PlayIs(game, t, id, move);
    var played := PlayedMove(game, t, id, move);
    var v := Acted(t, id, played);
    MovedTable(t, id, played);
    ActedStaysSeated(t, id, played, ids);
    SeatedParts(v.room, ids);
    if Over(game, v) {
      FinishedByShowdown(game, t, id, move);
      WinnersCovered(game, v.room.members, ids);
      var winners := Winners(game, v.room.members);
      FinishStaysSeated(v, winners, WinnersShare(game, v.room.pot, winners), ids);
      SeatedLike(Finish(v, winners, WinnersShare(game, v.room.pot, winners)).room, Play(game, t, id, move).value.room, ids);
    } else {
      ReopenedCovers(v.room.members, ids);
      NextRoundSeated(v.room, ids);
    }
  }

  lemma MovedTable(t: Table, id: Id, move: Move)
    requires DistinctMembers(t.room.members) && Named(t.room.members)
    ensures DistinctMembers(Acted(t, id, move).room.members) && Named(Acted(t, id, move).room.members)
    ensures Acted(t, id, move).room.round == t.room.round
  {
    MovedMembers(t.room.members, id, move);
  }

  lemma SeatedParts(room: Room, ids: seq<Id>)
    requires Seated(room, ids)
    ensures Covers(ids, room.members) && room.leader in ids
  {
  }

  lemma SeatedLike(a: Room, b: Room, ids: seq<Id>)
    requires Seated(a, ids) && b.members == a.members && b.leader == a.leader
    ensures Seated(b, ids)
  {
  }

  lemma NextRoundSeated(room: Room, ids: seq<Id>)
    requires Seated(room, ids)
    ensures Seated(NextRound(room), ids)
  {
    ReopenedCovers(room.members, ids);
  }

  lemma WithoutCovered(members: seq<Member>, id: Id, ids: seq<Id>)
    requires Covers(ids, members)
    ensures Covers(ids, WithoutMember(members, id))
    ensures Participants(WithoutMember(members, id)) != [] ==> Participants(WithoutMember(members, id))[0].id in ids
  {
    var left := WithoutMember(members, id);
    forall m | m in left ensures m.id in ids { WithoutMemberIn(members, id, m); }
    if Participants(left) != [] {
      InParticipants(left, Participants(left)[0]);
    }
  }

  lemma StartCovered(before: seq<Member>, after: seq<Member>, ids: seq<Id>)
    requires Covers(ids, before) && |after| == |before| && forall i :: 0 <= i < |after| ==> after[i].id == before[i].id
    ensures Covers(ids, after)
  {
    forall m | m in after ensures m.id in ids {
      var i :| 0 <= i < |after| && after[i] == m;
      assert before[i] in before;
    }
  }

  lemma DoppelWinnersCovered(room: Room, members: seq<Member>, ids: seq<Id>)
    requires DistinctMembers(members) && Covers(ids, members) && room.leader in ids
    ensures NoDuplicates(DoppelWinners(room, members)) && forall w :: w in DoppelWinners(room, members) ==> w in ids
  {
    var playing := Participants(members);
    ParticipantsDistinct(members);
    MatchesPlay(playing, room.leader, LeaderMark(playing, room.leader));
    forall m | m in playing ensures m.id in ids { InParticipants(members, m); }
  }

  lemma MarkStaysSeated(t: Table, id: Id, mark: int, draw: nat, ids: seq<Id>)
    requires RoomOk(Doppel, t.room) && Seated(t.room, ids) && PlayDoppel(t, id, mark, draw).Success?
    ensures Seated(PlayDoppel(t, id, mark, draw).value.room, ids)
  {
    hide Finish, MarkStake, MemberAt, RoomOk, Participants, Matches, LeaderMark;
    RoomParts(Doppel, t.room);
    MarkedMembers(t.room.members, id, mark);
    var v := MarkedTable(t, id, mark);
    if AllMarked(v.room.members) {
      DoppelWinnersCovered(t.room, v.room.members, ids);
      var winners := DoppelWinners(t.room, v.room.members);
      FinishStaysSeated(v, winners, Share(v.room.pot, winners), ids);
      var drawn := v.(room := v.room.(leader := if draw < |winners| then winners[draw] else winners[0]));
      FinishStaysSeated(drawn, winners, Share(v.room.pot, winners), ids);
    }
  }

  lemma DeskStaysSeated(kind: Kind, t: Table, e: Event, ids: seq<Id>)
    requires Seated(t.room, ids) && Expected(AtTable(e), ids) && Attempted(kind, t, e).Success? && !e.Played? && !e.ChoseMark?
    ensures Seated(Attempted(kind, t, e).value.room, ids)
  {
    hide Participants, Deal, MemberAt;
    match e
    case Joined(id, _, _) => assert Arrives(e, id);
    case Spectated(id) => assert Arrives(e, id);
    case Left(id) => WithoutCovered(t.room.members, id, ids);
    case Kicked(_, id) => WithoutCovered(t.room.members, id, ids);
    case Started(leader, draws) =>
      if kind.Doppel? {
        StartCovered(t.room.members, Blank(t.room.members), ids);
      } else {
        StartDealsDistinctHands(t.room, leader, draws);
        StartCovered(t.room.members, StartCards(t.room, leader, draws).value.members, ids);
      }
  }

  lemma EventStaysSeated(kind: Kind, t: Table, e: Event, ids: seq<Id>)
    requires RoomOk(kind, t.room) && Seated(t.room, ids) && Expected(AtTable(e), ids) && Attempted(kind, t, e).Success?
    ensures Seated(Attempted(kind, t, e).value.room, ids)
  {
    hide RoomOk, Seated, Expected, Play, PlayDoppel;
    if e.Played? {
      PlayStaysSeated(kind.game, t, e.id, e.move, ids);
    } else if e.ChoseMark? {
      MarkStaysSeated(t, e.id, e.mark, e.draw, ids);
    } else {
      DeskStaysSeated(kind, t, e, ids);
    }
  }

  // ---------- one event ----------

  lemma PlayIsInGame(game: Game, t: Table, id: Id, move: Move)
    requires Play(game, t, id, move).Success?
    ensures t.room.status == InProgress && t.room.round > 0 && Play(game, t, id, move).value.room.status != Disbanded
  {
    hide IndianOver, HighLowOver, Acted, AllActed, BestUnfolded, HighLowWinners, PayAll, Survivors, Heir, MemberAt;
    ActedStatus(t, id, PlayedMove(game, t, id, move));
  }

  lemma ActedStatus(t: Table, id: Id, move: Move)
    ensures Acted(t, id, move).room.status == t.room.status && Acted(t, id, move).room.round == t.room.round
    ensures Acted(t, id, move).room.pot == t.room.pot + Stake(t.accounts, id, t.room.currentBet)
    ensures Acted(t, id, move).room.members == WithMove(t.room.members, id, move)
  {
    hide WithMove, Stake;
  }

  lemma PlayCosts(game: Game, t: Table, id: Id, move: Move, ids: seq<Id>)
    requires RoomOk(Cards(game), t.room) && Seated(t.room, ids) && Play(game, t, id, move).Success?
    ensures Kept(Play(game, t, id, move).value, ids) + ShowdownCost(game, t, id, move) == Kept(t, ids)
  {
    hide Over, PlayedMove, Acted, AllActed, Wealth, NoCardLeft, HighLowWinners, PlayIndian, PlayHighLow, Participants, Stake;
    PlayIsInGame(game, t, id, move);
    PlayIs(game, t, id, move);
    var played := PlayedMove(game, t, id, move);
    ActedStatus(t, id, played);
    EndsIffOver(game, t, id, move);
    match game
    case IndianPoker =>
      IndianConserves(t, id, move, ids);
      IndianIsPlayed(t, id, move);
    case HighLow =>
      HighLowConserves(t, id, move, ids);
      HighLowPays(t, id, move, id);
      HighLowIsPlayed(t, id, move);
  }

  lemma EndsIffOver(game: Game, t: Table, id: Id, move: Move)
    requires Play(game, t, id, move).Success? && t.room.round > 0
    ensures Ended(t, Play(game, t, id, move).value) <==> Over(game, Acted(t, id, PlayedMove(game, t, id, move)))
  {
    hide Over, PlayedMove, Acted, AllActed, Play;
    PlayIs(game, t, id, move);
    ActedStatus(t, id, PlayedMove(game, t, id, move));
  }

  lemma IndianIsPlayed(t: Table, id: Id, move: Move)
    ensures PlayedMove(IndianPoker, t, id, move) == IndianMove(t, id, move)
  {
  }

  lemma HighLowIsPlayed(t: Table, id: Id, move: Move)
    ensures PlayedMove(HighLow, t, id, move) == move
  {
  }

  lemma MarkShows(t: Table, id: Id, mark: int, draw: nat)
    requires PlayDoppel(t, id, mark, draw).Success?
    ensures t.room.round > 0 && t.room.status == InProgress && PlayDoppel(t, id, mark, draw).value.room.status != Disbanded
    ensures var members := WithMark(t.room.members, id, mark);
      var u := PlayDoppel(t, id, mark, draw).value;
      && (Ended(t, u) <==> AllMarked(members))
      && (AllMarked(members) ==> u.room.winners == DoppelWinners(t.room, members))
  {
    hide AllMarked, PayAll, Survivors, Heir, MarkStake, MemberAt, Participants, Matches, LeaderMark, WithMark;
  }

  lemma MarkCosts(t: Table, id: Id, mark: int, draw: nat, ids: seq<Id>)
    requires RoomOk(Doppel, t.room) && Seated(t.room, ids) && PlayDoppel(t, id, mark, draw).Success?
    ensures Kept(PlayDoppel(t, id, mark, draw).value, ids) + MarkCost(t, id, mark) == Kept(t, ids)
  {
    hide PlayDoppel, Wealth, AllMarked, DoppelWinners, MarkStake, Participants;
    MarkShows(t, id, mark, draw);
    DoppelConserves(t, id, mark, draw, ids);
  }

  lemma LeaveCosts(room: Room, accounts: Accounts, id: Id, ids: seq<Id>)
    requires Leave(room, id).Success?
    ensures Kept(Table(Leave(room, id).value, accounts), ids) + (if Closes(room, id) then room.pot else 0) == Kept(Table(room, accounts), ids)
  {
    hide Wealth, MemberAt, WithoutMember, Participants;
  }

  lemma StartCosts(kind: Kind, t: Table, e: Event, ids: seq<Id>)
    requires RoomOk(kind, t.room) && e.Started? && Attempted(kind, t, e).Success?
    ensures Kept(Attempted(kind, t, e).value, ids) == Kept(t, ids)
  {
    hide Wealth, Participants, Deal, Blank;
  }

  /** Whatever happens in a room, what everybody owns with the pot changes by exactly what the event costs. */
  lemma EventCosts(kind: Kind, t: Table, e: Event, ids: seq<Id>)
    requires RoomOk(kind, t.room) && Seated(t.room, ids) && Attempted(kind, t, e).Success?
    ensures Kept(Attempted(kind, t, e).value, ids) + Cost(kind, t, e) == Kept(t, ids)
  {
    hide RoomOk, Seated, Play, PlayDoppel, Wealth, ShowdownCost, MarkCost, Leave, Closes, StartCards, StartDoppel, MemberAt;
    match e
    case Left(id) => LeaveCosts(t.room, t.accounts, id, ids);
    case Started(_, _) => StartCosts(kind, t, e, ids);
    case Played(id, move, _) => PlayCosts(kind.game, t, id, move, ids);
    case ChoseMark(id, mark, draw, _) => MarkCosts(t, id, mark, draw, ids);
    case Joined(_, _, _) =>
    case Spectated(_) =>
    case Kicked(_, _) =>
  }

  // ---------- whole histories ----------

  lemma {:induction false} HistoryStaysSeated(kind: Kind, t: Table, hs: seq<Happening>, ids: seq<Id>)
    requires RoomOk(kind, t.room) && Seated(t.room, ids) && forall i :: 0 <= i < |hs| ==> Expected(hs[i], ids)
    ensures RoomOk(kind, Follow(kind, t, hs).room) && Seated(Follow(kind, t, hs).room, ids)
    decreases |hs|
  {
    hide RoomOk, Seated, Expected, Attempted, Attempt;
    if hs != [] {
      var n := |hs| - 1;
      HistoryStaysSeated(kind, t, hs[..n], ids);
      var before := Follow(kind, t, hs[..n]);
      if hs[n].AtTable? && Attempted(kind, before, hs[n].e).Success? {
        EventStaysSeated(kind, before, hs[n].e, ids);
        SameRoom(kind, before, hs[n].e);
        EventKeepsOk(kind, before.room, With(hs[n].e, before.accounts));
      }
    }
  }

  /**
   Over any history of a room, with joins, departures, games and whatever is paid elsewhere, everybody's coins and
   the pot together are what they were, plus what was paid in elsewhere, less what each event cost: nothing, but for
   a showdown without a winner, the rest of a division, and the pot of a room that its last participant leaves.
   */
  lemma {:induction false} BooksBalance(kind: Kind, t: Table, hs: seq<Happening>, ids: seq<Id>)
    requires RoomOk(kind, t.room) && Seated(t.room, ids) && forall i :: 0 <= i < |hs| ==> Expected(hs[i], ids)
    ensures Kept(Follow(kind, t, hs), ids) == Kept(t, ids) + Gains(kind, t, hs, ids) - Costs(kind, t, hs)
    decreases |hs|
  {
    hide RoomOk, Seated, Expected, Attempted, Wealth, Cost;
    if hs != [] {
      var n := |hs| - 1;
      BooksBalance(kind, t, hs[..n], ids);
      HistoryStaysSeated(kind, t, hs[..n], ids);
      var before := Follow(kind, t, hs[..n]);
      if hs[n].AtTable? {
        if Attempted(kind, before, hs[n].e).Success? {
          EventCosts(kind, before, hs[n].e, ids);
        } else {
          RefusedIsFree(kind, before, hs[n].e);
        }
      }
    }
  }

  lemma RefusedIsFree(kind: Kind, t: Table, e: Event)
    requires Attempted(kind, t, e).Failure?
    ensures Cost(kind, t, e) == 0
  {
    hide Attempted, ShowdownCost, MarkCost, Closes;
  }

  /** From its creation on a room never makes a coin appear, and what it made disappear is what its events cost. */
  lemma RoomsOnlyLose(kind: Kind, accounts: Accounts, id: Id, maxPlayers: int, rate: int, spectators: bool,
                      hs: seq<Happening>, ids: seq<Id>)
    requires CreateRoom(accounts, id, kind.Doppel?, maxPlayers, rate, spectators).Success?
    requires NoDuplicates(ids) && id in ids && forall i :: 0 <= i < |hs| ==> Expected(hs[i], ids)
    ensures var t := Table(CreateRoom(accounts, id, kind.Doppel?, maxPlayers, rate, spectators).value, accounts);
      && Kept(Follow(kind, t, hs), ids) == Wealth(accounts, ids) + Gains(kind, t, hs, ids) - Costs(kind, t, hs)
      && Costs(kind, t, hs) >= 0
  {
    CreatedRoomOk(kind, accounts, id, maxPlayers, rate, spectators);
    var t := Table(CreateRoom(accounts, id, kind.Doppel?, maxPlayers, rate, spectators).value, accounts);
    hide RoomOk, Follow, Costs, Gains, Wealth, Expected;
    BooksBalance(kind, t, hs, ids);
    CostsAreNatural(kind, t, hs, ids);
  }

  lemma CostIsNatural(kind: Kind, t: Table, e: Event)
    requires RoomOk(kind, t.room)
    ensures Cost(kind, t, e) >= 0
  {
    hide Attempted, Over, PlayedMove, NoCardLeft, HighLowWinners, AllMarked, DoppelWinners, MarkStake, Participants, Closes, WithMark, Acted;
    if e.Played? && kind.Cards? {
      ActedStatus(t, e.id, PlayedMove(kind.game, t, e.id, e.move));
    }
  }

  lemma {:induction false} CostsAreNatural(kind: Kind, t: Table, hs: seq<Happening>, ids: seq<Id>)
    requires RoomOk(kind, t.room) && Seated(t.room, ids) && forall i :: 0 <= i < |hs| ==> Expected(hs[i], ids)
    ensures Costs(kind, t, hs) >= 0
    decreases |hs|
  {
    hide RoomOk, Seated, Expected, Cost, Follow;
    if hs != [] {
      var n := |hs| - 1;
      CostsAreNatural(kind, t, hs[..n], ids);
      HistoryStaysSeated(kind, t, hs[..n], ids);
      if hs[n].AtTable? { CostIsNatural(kind, Follow(kind, t, hs[..n]), hs[n].e); }
    }
  }
}

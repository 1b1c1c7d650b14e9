/** The three table games, action by action. */
module CasinoRules {
  import opened Common
  import opened CasinoTable

  predicate IsShowdown(m: Member) { m.move == Showdown }

  predicate IsDeclared(m: Member) { m.move == High || m.move == Low }

  // ---------- Indian poker ----------

  datatype Best = Best(id: Id, card: int)

  /** The last strictly better card seen wins; folded hands are skipped. */
  function BestUnfolded(playing: seq<Member>): Best {
    if playing == [] then Best(NOBODY, -1)
    else
      var best := BestUnfolded(playing[..|playing| - 1]);
      var m := playing[|playing| - 1];
      if m.move != Folded && m.card > best.card then Best(m.id, m.card) else best
  }

  function BestHigh(playing: seq<Member>): Best {
    if playing == [] then Best(NOBODY, -1)
    else
      var best := BestHigh(playing[..|playing| - 1]);
      var m := playing[|playing| - 1];
      if m.move == High && m.card > best.card then Best(m.id, m.card) else best
  }

  function BestLow(playing: seq<Member>): Best {
    if playing == [] then Best(NOBODY, 99)
    else
      var best := BestLow(playing[..|playing| - 1]);
      var m := playing[|playing| - 1];
      if m.move == Low && m.card < best.card then Best(m.id, m.card) else best
  }

  /** Everybody's coins are looked at after the actor's stake was taken. */
  predicate IndianOver(t: Table) {
    || Unfolded(t.room.members) <= 1
    || (AllActed(t.room.members)
        && (CoinlessPlayer(t.room.members, t.accounts) || t.room.currentBet >= t.room.maxBet
            || 2 * Count(Participants(t.room.members), IsShowdown) >= Unfolded(t.room.members)))
  }

  function IndianShowdown(t: Table): Table {
    var best := BestUnfolded(Participants(t.room.members));
    var winners := if best.id == NOBODY then [] else [best.id];
    var done := Finish(t, winners, if t.room.pot > 0 then t.room.pot else 0);
    done.(room := done.room.(currentBet := t.room.rate, winners := if winners == [] then t.room.winners else winners))
  }

  /** The actor's stake and move are on the table. */
  function Acted(t: Table, id: Id, move: Move): Table {
    var staked := Staked(t, id, Stake(t.accounts, id, t.room.currentBet));
    staked.(room := staked.room.(members := WithMove(t.room.members, id, move)))
  }

  function IndianMove(t: Table, id: Id, move: Move): Move {
    if move == Called && Coins(t.accounts, id) < t.room.currentBet then Showdown else move
  }

  function ActRefusal(room: Room, id: Id): Option<Error> {
    var refusal := PlayRefusal(room, id);
    if refusal.Some? then refusal
    else if MemberAt(room.members, id).Some? && !MayAct(MemberAt(room.members, id).value) then Some(AlreadyActed)
    else None
  }

  function PlayIndian(t: Table, id: Id, move: Move): Result<Table, Error> {
    if id == NOBODY then Failure(InvalidCharacter)
    else if move !in {Called, Showdown, Folded} then Failure(InvalidRequest)
    else
      var refusal := ActRefusal(t.room, id);
      if refusal.Some? then Failure(refusal.value)
      else
        var u := Acted(t, id, IndianMove(t, id, move));
        Success(if IndianOver(u) then IndianShowdown(u) else if AllActed(u.room.members) then u.(room := NextRound(u.room)) else u)
  }

  // ---------- high-low ----------

  predicate HighLowOver(t: Table) {
    && AllActed(t.room.members)
    && (CoinlessPlayer(t.room.members, t.accounts) || t.room.currentBet >= t.room.maxBet
        || 2 * Count(Participants(t.room.members), IsDeclared) >= Unfolded(t.room.members)
        || Unfolded(t.room.members) <= 1)
  }

  function FirstUnfolded(playing: seq<Member>): Id {
    if playing == [] then NOBODY
    else if playing[0].move != Folded then playing[0].id
    else FirstUnfolded(playing[1..])
  }

  /** Highest and lowest declared hands; a sole survivor who declared nothing counts as highest. */
  function Declared(members: seq<Member>): (Id, Id) {
    var playing := Participants(members);
    var high, low := BestHigh(playing).id, BestLow(playing).id;
    if high == NOBODY && low == NOBODY && Unfolded(members) == 1 then (FirstUnfolded(playing), NOBODY) else (high, low)
  }

  function HighLowWinners(members: seq<Member>): seq<Id> {
    var (high, low) := Declared(members);
    if |Participants(members)| > 2 && high != NOBODY && low != NOBODY then [high, low]
    else if high != NOBODY then [high]
    else if low != NOBODY then [low]
    else []
  }

  /** Each winner's part of the pot, in whole coins. */
  function Share(pot: int, winners: seq<Id>): nat {
    if pot <= 0 || winners == [] then 0 else pot / |winners|
  }

  function HighLowShowdown(t: Table): Table {
    var winners := HighLowWinners(t.room.members);
    var done := Finish(t, winners, Share(t.room.pot, winners));
    done.(room := done.room.(currentBet := t.room.rate))
  }

  function PlayHighLow(t: Table, id: Id, move: Move): Result<Table, Error> {
    var refusal := ActRefusal(t.room, id);
    if refusal.Some? then Failure(refusal.value)
    else if move == Low && Players(t.room) <= 2 then Failure(LowNotAllowed)
    else if move !in {Called, High, Low, Folded} then Failure(InvalidRequest)
    else
      var u := Acted(t, id, move);
      Success(if HighLowOver(u) then HighLowShowdown(u) else if AllActed(u.room.members) then u.(room := NextRound(u.room)) else u)
  }

  // ---------- doppelganger ----------

  function Blank(members: seq<Member>): (after: seq<Member>)
    ensures |after| == |members|
  {
    seq(|members|, i requires 0 <= i < |members| => if members[i].spectator then members[i] else members[i].(card := -1, move := Idle))
  }

  function StartDoppel(room: Room, leader: Id): Result<Room, Error> {
    var refusal := StartRefusal(room, leader);
    if refusal.Some? then Failure(refusal.value)
    else Success(room.(members := Blank(room.members), round := 1, status := InProgress, currentBet := room.rate,
                       maxBet := room.rate, pot := 0, winners := []))
  }

  const MARKS := 8

  function WithMark(members: seq<Member>, id: Id, mark: int): (after: seq<Member>)
    ensures |after| == |members|
  {
    seq(|members|, i requires 0 <= i < |members| =>
      if members[i].id == id then members[i].(card := mark, move := Marked) else members[i])
  }

  /** The leader's mark; zero when the leader does not take part. */
  function LeaderMark(playing: seq<Member>, leader: Id): int {
    if playing == [] then 0
    else if playing[|playing| - 1].id == leader then playing[|playing| - 1].card
    else LeaderMark(playing[..|playing| - 1], leader)
  }

  function Matches(playing: seq<Member>, leader: Id, mark: int): seq<Id> {
    if playing == [] then []
    else
      var m := playing[|playing| - 1];
      Matches(playing[..|playing| - 1], leader, mark) + (if m.id != leader && m.card == mark then [m.id] else [])
  }

  predicate AllMarked(members: seq<Member>) {
    forall m :: m in Participants(members) ==> m.card >= 0
  }

  /** Matching children share the pot and one of them, drawn, leads; without any the leader takes it all. */
  function DoppelShowdown(t: Table, draw: nat): Table {
    var playing := Participants(t.room.members);
    var children := Matches(playing, t.room.leader, LeaderMark(playing, t.room.leader));
    if children == [] then Finish(t, [t.room.leader], Share(t.room.pot, [t.room.leader]))
    else Finish(t.(room := t.room.(leader := if draw < |children| then children[draw] else children[0])), children, Share(t.room.pot, children))
  }

  function MarkStake(t: Table, id: Id): (stake: nat)
    ensures stake <= Coins(t.accounts, id)
  {
    var m := MemberAt(t.room.members, id);
    if m.Some? && m.value.card < 0 then Stake(t.accounts, id, t.room.rate) else 0
  }

  /** A mark may be changed for free until the last participant has chosen. */
  function PlayDoppel(t: Table, id: Id, mark: int, draw: nat): Result<Table, Error> {
    var refusal := PlayRefusal(t.room, id);
    if refusal.Some? then Failure(refusal.value)
    else if mark < 0 || mark > Min(Players(t.room), MARKS - 1) then Failure(InvalidMark)
    else
      var staked := Staked(t, id, MarkStake(t, id));
      var u := staked.(room := staked.room.(members := WithMark(t.room.members, id, mark)));
      Success(if AllMarked(u.room.members) then DoppelShowdown(u, draw) else u)
  }

  // ---------- the room ----------

  const MIN_DOPPEL_RATE := 10

  const RATES := {1, 5, 10, 20, 50, 100, 500, 1000, 5000}

  /** `doppel` rooms take any rate from ten up and ask less of their creator. */
  function CreateRoom(accounts: Accounts, id: Id, doppel: bool, maxPlayers: int, rate: int, spectators: bool): Result<Room, Error> {
    if id == NOBODY then Failure(InvalidCharacter)
    else if maxPlayers < MIN_PARTY || maxPlayers > MAX_PARTY then Failure(InvalidRequest)
    else if (if doppel then rate < MIN_DOPPEL_RATE else rate !in RATES) then Failure(InvalidRequest)
    else if Coins(accounts, id) < (if doppel then rate else rate * 5) then Failure(InsufficientCoins)
    else Success(Room(id, maxPlayers, rate, spectators, Gathering, 0, rate, rate * 5, 0, [], [Member(id, false, Waiting, -1)]))
  }

  /** A character may join in the middle of a game; it then holds no card. */
  function Join(t: Table, id: Id, exhausted: bool): Result<Room, Error> {
    if id == NOBODY then Failure(InvalidCharacter)
    else if exhausted then Failure(Exhausted)
    else if t.room.status == Disbanded then Failure(RoomNotFound)
    else if Coins(t.accounts, id) < t.room.rate then Failure(InsufficientCoins)
    else if MemberAt(t.room.members, id).Some? then Failure(AlreadyInRoom)
    else if Players(t.room) >= t.room.maxPlayers then Failure(RoomFull)
    else Success(t.room.(members := t.room.members + [Member(id, false, Waiting, -1)]))
  }

  function Spectate(room: Room, id: Id): Result<Room, Error> {
    if id == NOBODY then Failure(InvalidCharacter)
    else if room.status == Disbanded then Failure(RoomNotFound)
    else if !room.spectators then Failure(SpectatorsNotAllowed)
    else if MemberAt(room.members, id).Some? then Failure(AlreadyInRoom)
    else Success(room.(members := room.members + [Member(id, true, Idle, -1)]))
  }

  function WithoutMember(members: seq<Member>, id: Id): (after: seq<Member>)
    ensures |after| <= |members|
  {
    if members == [] then []
    else
      var last := members[|members| - 1];
      WithoutMember(members[..|members| - 1], id) + (if last.id == id then [] else [last])
  }

  function Leave(room: Room, id: Id): Result<Room, Error> {
    var m := MemberAt(room.members, id);
    if id == NOBODY then Failure(InvalidCharacter)
    else if m.None? then Failure(MemberNotFound)
    else
      var left := WithoutMember(room.members, id);
      if m.value.spectator then Success(room.(members := left))
      else if Participants(left) == [] then Success(room.(members := left, status := Disbanded))
      else Success(room.(members := left, leader := if room.leader == id then Participants(left)[0].id else room.leader))
  }

  function Kick(room: Room, leader: Id, id: Id): Result<Room, Error> {
    if leader == NOBODY || id == NOBODY then Failure(InvalidCharacter)
    else if leader == id then Failure(CannotKickSelf)
    else if room.leader != leader then Failure(NotLeader)
    else if room.round > 0 then Failure(GameInProgress)
    else if MemberAt(room.members, id).None? then Failure(MemberNotFound)
    else Success(room.(members := WithoutMember(room.members, id)))
  }
}

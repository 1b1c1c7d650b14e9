/** A casino room, its members' accounts, and what the three table games share. */
module CasinoTable {
  import opened Common

  const MIN_PARTY := 2
  const MAX_PARTY := 8
  const DECK_SIZE := 13

  datatype Error =
    | InvalidCharacter
    | RoomNotFound
    | NotLeader
    | GameInProgress
    | NotEnoughPlayers
    | NotInRound
    | MemberNotFound
    | SpectatorCannot
    | AlreadyActed
    | LowNotAllowed
    | InvalidMark
    | InvalidRequest
    | InsufficientCoins
    | Exhausted
    | AlreadyInRoom
    | RoomFull
    | SpectatorsNotAllowed
    | CannotKickSelf

  /** What a member did in the round; `Idle` and `Waiting` members may still act. */
  datatype Move = Idle | Waiting | Called | Showdown | High | Low | Folded | Marked

  /** `card` is -1 for a member without one. */
  datatype Member = Member(id: Id, spectator: bool, move: Move, card: int)

  datatype Status = Gathering | InProgress | Disbanded

  datatype Room = Room(
    leader: Id,
    maxPlayers: int,
    rate: int,
    spectators: bool,
    status: Status,
    round: int,
    currentBet: int,
    maxBet: int,
    pot: int,
    winners: seq<Id>,
    members: seq<Member>)

  type Accounts = map<Id, nat>

  datatype Table = Table(room: Room, accounts: Accounts)

  function Coins(accounts: Accounts, id: Id): nat {
    if id in accounts then accounts[id] else 0
  }

  function Credit(accounts: Accounts, id: Id, amount: nat): Accounts {
    accounts[id := Coins(accounts, id) + amount]
  }

  function Debit(accounts: Accounts, id: Id, amount: nat): Accounts
    requires amount <= Coins(accounts, id)
  {
    accounts[id := Coins(accounts, id) - amount]
  }

  predicate MayAct(m: Member) {
    m.move == Idle || m.move == Waiting
  }

  predicate HasFolded(m: Member) {
    m.move == Folded
  }

  function Count(members: seq<Member>, p: Member -> bool): nat {
    if members == [] then 0
    else Count(members[..|members| - 1], p) + (if p(members[|members| - 1]) then 1 else 0)
  }

  function Participants(members: seq<Member>): (playing: seq<Member>)
    ensures |playing| <= |members|
  {
    if members == [] then []
    else
      var last := members[|members| - 1];
      Participants(members[..|members| - 1]) + (if last.spectator then [] else [last])
  }

  function Players(room: Room): nat {
    |Participants(room.members)|
  }

  function MemberAt(members: seq<Member>, id: Id): Option<Member> {
    if members == [] then None
    else if members[0].id == id then Some(members[0])
    else MemberAt(members[1..], id)
  }

  ghost predicate DistinctMembers(members: seq<Member>) {
    forall i, j :: 0 <= i < j < |members| ==> members[i].id != members[j].id
  }

  function WithMove(members: seq<Member>, id: Id, move: Move): (after: seq<Member>)
    ensures |after| == |members|
  {
    seq(|members|, i requires 0 <= i < |members| => if members[i].id == id then members[i].(move := move) else members[i])
  }

  // ---------- dealing ----------

  function Deck(n: nat): (deck: seq<int>)
    ensures |deck| == n && forall i :: 0 <= i < n ==> deck[i] == i
  {
    seq(n, i => i)
  }

  function Drop(deck: seq<int>, i: nat): seq<int>
    requires i < |deck|
  {
    deck[..i] + deck[i + 1..]
  }

  /** Everybody in order draws one card out of what is left; `draws` are the random positions. */
  function Deal(members: seq<Member>, deck: seq<int>, draws: seq<nat>): Option<seq<Member>> {
    if members == [] then Some([])
    else if members[0].spectator then
      var rest := Deal(members[1..], deck, draws);
      if rest.None? then None else Some([members[0]] + rest.value)
    else if draws == [] || draws[0] >= |deck| then None
    else
      var rest := Deal(members[1..], Drop(deck, draws[0]), draws[1..]);
      if rest.None? then None else Some([members[0].(card := deck[draws[0]], move := Idle)] + rest.value)
  }

  /** One draw a player; the random source answers a position below its bound as long as that is positive. */
  ghost predicate RandomDraws(draws: seq<nat>, players: nat, deck: nat) {
    |draws| == players && forall i :: 0 <= i < players && i < deck ==> draws[i] < deck - i
  }

  /** Every draw finds a card. */
  ghost predicate FairDraws(draws: seq<nat>, players: nat, deck: nat) {
    |draws| == players <= deck && forall i :: 0 <= i < players ==> draws[i] < deck - i
  }

  function StartRefusal(room: Room, leader: Id): Option<Error> {
    if leader == NOBODY then Some(InvalidCharacter)
    else if room.leader != leader then Some(NotLeader)
    else if room.round > 0 then Some(GameInProgress)
    else if Players(room) < MIN_PARTY then Some(NotEnoughPlayers)
    else None
  }

  /** Indian poker and high-low start alike. */
  function StartCards(room: Room, leader: Id, draws: seq<nat>): Result<Room, Error> {
    var refusal := StartRefusal(room, leader);
    if refusal.Some? then Failure(refusal.value)
    else
      var dealt := Deal(room.members, Deck(DECK_SIZE), draws);
      if dealt.None? then Failure(InvalidRequest)
      else Success(room.(members := dealt.value, round := 1, status := InProgress, currentBet := room.rate,
                         maxBet := room.rate * 5, pot := 0, winners := []))
  }

  // ---------- betting and ending ----------

  function PlayRefusal(room: Room, id: Id): Option<Error> {
    if id == NOBODY then Some(InvalidCharacter)
    else if room.round <= 0 || room.status != InProgress then Some(NotInRound)
    else
      var m := MemberAt(room.members, id);
      if m.None? then Some(MemberNotFound)
      else if m.value.spectator then Some(SpectatorCannot)
      else None
  }

  /** All in when the bet cannot be covered. */
  function Stake(accounts: Accounts, id: Id, bet: int): (stake: nat)
    ensures stake <= Coins(accounts, id) && (bet >= 0 ==> stake <= bet)
  {
    if bet <= 0 then 0 else if Coins(accounts, id) < bet then Coins(accounts, id) else bet
  }

  function Staked(t: Table, id: Id, stake: nat): Table
    requires stake <= Coins(t.accounts, id)
  {
    Table(t.room.(pot := t.room.pot + stake), Debit(t.accounts, id, stake))
  }

  predicate CoinlessPlayer(members: seq<Member>, accounts: Accounts) {
    exists m :: m in Participants(members) && m.move != Folded && Coins(accounts, m.id) == 0
  }

  predicate AllActed(members: seq<Member>) {
    forall m :: m in Participants(members) ==> !MayAct(m)
  }

  function Unfolded(members: seq<Member>): int {
    |Participants(members)| - Count(Participants(members), HasFolded)
  }

  function Reopened(members: seq<Member>): (after: seq<Member>)
    ensures |after| == |members|
  {
    seq(|members|, i requires 0 <= i < |members| =>
      if members[i].spectator || members[i].move == Folded then members[i] else members[i].(move := Idle))
  }

  function NextRound(room: Room): Room {
    room.(round := room.round + 1, currentBet := room.currentBet + room.rate, members := Reopened(room.members))
  }

  function PayAll(accounts: Accounts, winners: seq<Id>, share: nat): Accounts {
    if winners == [] then accounts
    else Credit(PayAll(accounts, winners[..|winners| - 1], share), winners[|winners| - 1], share)
  }

  /** Participants without coins go; the others wait for the next game. */
  function Survivors(members: seq<Member>, accounts: Accounts): seq<Member> {
    if members == [] then []
    else
      var last := members[|members| - 1];
      Survivors(members[..|members| - 1], accounts)
        + (if last.spectator then [last] else if Coins(accounts, last.id) == 0 then [] else [last.(move := Waiting)])
  }

  predicate Broke(members: seq<Member>, accounts: Accounts, id: Id) {
    exists m :: m in Participants(members) && m.id == id && Coins(accounts, id) == 0
  }

  /** An ejected leader is replaced by the first winner, if anybody won. */
  function Heir(room: Room, accounts: Accounts, winners: seq<Id>): Id {
    if Broke(room.members, accounts, room.leader) && winners != [] then winners[0] else room.leader
  }

  /** The pot is shared out among the winners and the table opens again. */
  function Finish(t: Table, winners: seq<Id>, share: nat): Table {
    var accounts := PayAll(t.accounts, winners, share);
    Table(t.room.(leader := Heir(t.room, accounts, winners), round := 0, status := Gathering, pot := 0, winners := winners,
                  members := Survivors(t.room.members, accounts)), accounts)
  }
}

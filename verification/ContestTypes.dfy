/** Rounds, entries, votes and wallets of the photo contest, and the tables that hold them. */
module ContestTypes {
  import opened Common

  type Time = int

  const SECOND: Time := 1_000_000_000
  const CYCLE: Time := 10 * 24 * 3600 * SECOND
  const QUORUM := 5

  const MAX_MONEY := 999_999
  const MAX_MEDALS := 999_999_999

  datatype Error =
    | NotFound
    | NotReady
    | ConsecutiveEntry
    | AlreadyEntered
    | DuplicateTitle
    | NotActive
    | AlreadyVoted
    | EntryNotFound
    | CharacterNotFound
    | Storage

  datatype Status = Preparing | Active | Settled

  datatype Round = Round(number: int, status: Status, start: Time, end: Time)

  datatype Entry = Entry(id: Id, round: int, character: Id, title: string, votes: nat, rank: nat, at: Time)

  datatype Vote = Vote(round: int, entry: Id, voter: Id)

  datatype Wallet = Wallet(money: int, medals: int)

  datatype Prize = Prize(gold: nat, medals: nat)

  const PRIZES: seq<Prize> := [Prize(15000, 10), Prize(7000, 6), Prize(3000, 3)]

  const VOTER_BONUS := 1

  /** `paid` is a history variable: the rounds whose prizes were handed out, in order. */
  datatype Contest = Contest(
    rounds: seq<Round>,
    entries: seq<Entry>,
    votes: seq<Vote>,
    legends: map<int, Id>,
    wallets: map<Id, Wallet>,
    paid: seq<int>)

  // ---------- tables ----------

  /** The highest-numbered round with a status. */
  function Latest(rounds: seq<Round>, status: Status): Option<Round> {
    if rounds == [] then None
    else
      var before := Latest(rounds[..|rounds| - 1], status);
      var last := rounds[|rounds| - 1];
      if last.status == status && (before.None? || before.value.number < last.number) then Some(last) else before
  }

  function RoundAt(rounds: seq<Round>, number: int): Option<Round> {
    if rounds == [] then None
    else if rounds[|rounds| - 1].number == number then Some(rounds[|rounds| - 1])
    else RoundAt(rounds[..|rounds| - 1], number)
  }

  function RoundIndex(rounds: seq<Round>, number: int): (i: int)
    ensures -1 <= i < |rounds| && (i >= 0 ==> rounds[i].number == number)
  {
    if rounds == [] then -1
    else if rounds[|rounds| - 1].number == number then |rounds| - 1
    else RoundIndex(rounds[..|rounds| - 1], number)
  }

  /** A row is replaced by its number or appended. */
  function SaveRound(rounds: seq<Round>, r: Round): seq<Round> {
    var i := RoundIndex(rounds, r.number);
    if i >= 0 then rounds[i := r] else rounds + [r]
  }

  function EntriesOf(entries: seq<Entry>, round: int): (found: seq<Entry>)
    ensures |found| <= |entries|
  {
    if entries == [] then []
    else
      var last := entries[|entries| - 1];
      EntriesOf(entries[..|entries| - 1], round) + (if last.round == round then [last] else [])
  }

  function VotesFor(votes: seq<Vote>, entry: Id): (found: seq<Vote>)
    ensures |found| <= |votes|
  {
    if votes == [] then []
    else
      var last := votes[|votes| - 1];
      VotesFor(votes[..|votes| - 1], entry) + (if last.entry == entry then [last] else [])
  }

  predicate Entered(entries: seq<Entry>, round: int, character: Id) {
    exists e :: e in entries && e.round == round && e.character == character
  }

  predicate TitleTaken(entries: seq<Entry>, round: int, title: string) {
    exists e :: e in entries && e.round == round && e.title == title
  }

  predicate HasVoted(votes: seq<Vote>, round: int, voter: Id) {
    exists v :: v in votes && v.round == round && v.voter == voter
  }

  function EntryAt(entries: seq<Entry>, id: Id): Option<Entry> {
    if entries == [] then None
    else if entries[|entries| - 1].id == id then Some(entries[|entries| - 1])
    else EntryAt(entries[..|entries| - 1], id)
  }

  function AddMoney(w: Wallet, gold: nat): Wallet {
    if w.money > MAX_MONEY - gold || w.money > MAX_MONEY then w.(money := MAX_MONEY) else w.(money := w.money + gold)
  }

  function AddMedals(w: Wallet, medals: nat): Wallet {
    if w.medals > MAX_MEDALS - medals then w.(medals := MAX_MEDALS) else w.(medals := w.medals + medals)
  }
}

/** Admission, voting, ranking, settlement and its schedule, each as one transaction. */
module ContestRules {
  import opened Common
  import opened ContestTypes
  import opened ContestActions

  // ---------- rounds ----------

  function EnsurePreparing(c: Contest, now: Time): (Contest, Round) {
    var p := Latest(c.rounds, Preparing);
    if p.Some? then (c, p.value)
    else
      var active, settled := Latest(c.rounds, Active), Latest(c.rounds, Settled);
      var number := if active.Some? then active.value.number + 1 else if settled.Some? then settled.value.number + 1 else 1;
      var start := if active.Some? then active.value.end else now;
      var r := Round(number, Preparing, start, start + CYCLE);
      (c.(rounds := SaveRound(c.rounds, r)), r)
  }

  function Extended(r: Round, now: Time): Round {
    r.(end := now + CYCLE)
  }

  function Promoted(r: Round, now: Time): Round {
    r.(status := Active, start := now, end := now + CYCLE)
  }

  /** The promoted round runs and the next one opens behind it. */
  function Promote(rounds: seq<Round>, p: Round, now: Time): seq<Round> {
    var running := Promoted(p, now);
    SaveRound(SaveRound(rounds, running), Round(running.number + 1, Preparing, running.end, running.end + CYCLE))
  }

  // ---------- ranking ----------

  /** More votes first, then the earlier entry. */
  predicate Ahead(a: Entry, b: Entry) {
    a.votes > b.votes || (a.votes == b.votes && a.at < b.at)
  }

  /** Behind every entry that it is not strictly ahead of. */
  function Insert(sorted: seq<Entry>, e: Entry): seq<Entry> {
    if sorted == [] then [e]
    else if Ahead(e, sorted[|sorted| - 1]) then Insert(sorted[..|sorted| - 1], e) + [sorted[|sorted| - 1]]
    else sorted + [e]
  }

  function Sorted(entries: seq<Entry>): seq<Entry> {
    if entries == [] then [] else Insert(Sorted(entries[..|entries| - 1]), entries[|entries| - 1])
  }

  function Ranked(entries: seq<Entry>): (ranked: seq<Entry>)
    ensures |ranked| == |Sorted(entries)|
  {
    var sorted := Sorted(entries);
    seq(|sorted|, i requires 0 <= i < |sorted| => sorted[i].(rank := i + 1))
  }

  function EntryIndex(entries: seq<Entry>, id: Id): (i: int)
    ensures -1 <= i < |entries| && (i >= 0 ==> entries[i].id == id)
  {
    if entries == [] then -1
    else if entries[|entries| - 1].id == id then |entries| - 1
    else EntryIndex(entries[..|entries| - 1], id)
  }

  function SaveEntry(entries: seq<Entry>, e: Entry): seq<Entry> {
    var i := EntryIndex(entries, e.id);
    if i >= 0 then entries[i := e] else entries + [e]
  }

  function SaveAll(entries: seq<Entry>, saved: seq<Entry>): seq<Entry> {
    if saved == [] then entries else SaveEntry(SaveAll(entries, saved[..|saved| - 1]), saved[|saved| - 1])
  }

  // ---------- prizes ----------

  function PayPrize(wallets: map<Id, Wallet>, id: Id, prize: Prize): map<Id, Wallet> {
    if id in wallets then wallets[id := AddMedals(AddMoney(wallets[id], prize.gold), prize.medals)] else wallets
  }

  /** The first three ranks; characters that are gone are passed over. */
  function PayPrizes(wallets: map<Id, Wallet>, ranked: seq<Entry>): map<Id, Wallet> {
    if ranked == [] then wallets
    else
      var n := |ranked| - 1;
      var before := PayPrizes(wallets, ranked[..n]);
      if n < |PRIZES| then PayPrize(before, ranked[n].character, PRIZES[n]) else before
  }

  function PayVoters(wallets: map<Id, Wallet>, votes: seq<Vote>): map<Id, Wallet> {
    if votes == [] then wallets
    else
      var before := PayVoters(wallets, votes[..|votes| - 1]);
      var voter := votes[|votes| - 1].voter;
      if voter in before then before[voter := AddMedals(before[voter], VOTER_BONUS)] else before
  }

  // ---------- settlement ----------

  function Quorate(c: Contest, r: Option<Round>): bool {
    r.Some? && |EntriesOf(c.entries, r.value.number)| >= QUORUM
  }

  /** No round runs: the preparing one starts with a quorum and is extended without. */
  function SettleWaiting(c: Contest, force: bool, now: Time): Result<Contest, Error> {
    var (d, p) := EnsurePreparing(c, now);
    if !force && now < p.end then Failure(NotReady)
    else if |EntriesOf(d.entries, p.number)| < QUORUM then Success(d.(rounds := SaveRound(d.rounds, Extended(p, now))))
    else Success(d.(rounds := Promote(d.rounds, p, now)))
  }

  function Postpone(c: Contest, a: Round, p: Option<Round>, now: Time): Contest {
    var extended := SaveRound(c.rounds, Extended(a, now));
    c.(rounds := if p.Some? then SaveRound(extended, Extended(p.value, now)) else extended)
  }

  function CloseRound(rounds: seq<Round>, a: Round): seq<Round> {
    SaveRound(rounds, a.(status := Settled))
  }

  function NextRounds(c: Contest, rounds: seq<Round>, a: Round, p: Option<Round>, now: Time): seq<Round> {
    if p.None? then SaveRound(rounds, Round(a.number + 1, Preparing, now, now + CYCLE))
    else if Quorate(c, p) then Promote(rounds, p.value, now)
    else SaveRound(rounds, Extended(p.value, now))
  }

  /** Ranks, prizes, the legend of a quorate round and the bonus of those who voted for the winner. */
  function Award(c: Contest, a: Round): Contest {
    var ranked := Ranked(EntriesOf(c.entries, a.number));
    if ranked == [] then c
    else
      c.(entries := SaveAll(c.entries, ranked),
         legends := if |ranked| >= QUORUM then c.legends[a.number := ranked[0].id] else c.legends,
         wallets := PayVoters(PayPrizes(c.wallets, ranked), VotesFor(c.votes, ranked[0].id)),
         paid := c.paid + [a.number])
  }

  function Conclude(c: Contest, a: Round, p: Option<Round>, now: Time): Contest {
    var awarded := Award(c, a);
    awarded.(rounds := NextRounds(c, CloseRound(c.rounds, a), a, p, now))
  }

  function Settle(c: Contest, force: bool, now: Time): Result<Contest, Error> {
    var active := Latest(c.rounds, Active);
    if active.None? then SettleWaiting(c, force, now)
    else
      var a, p := active.value, Latest(c.rounds, Preparing);
      if !force && now < a.end then Failure(NotReady)
      else
        var entries := |EntriesOf(c.entries, a.number)|;
        if entries < QUORUM && !Quorate(c, p) then Success(Postpone(c, a, p, now))
        else if entries == 0 then
          if p.Some? then Success(c.(rounds := Promote(CloseRound(c.rounds, a), p.value, now))) else Success(Postpone(c, a, p, now))
        else Success(Conclude(c, a, p, now))
  }

  // ---------- entering and voting ----------

  function Enter(c: Contest, character: Id, title: string, id: Id, now: Time): Result<Contest, Error> {
    if character !in c.wallets then Failure(CharacterNotFound)
    else
      var active := Latest(c.rounds, Active);
      if active.Some? && Entered(c.entries, active.value.number, character) then Failure(ConsecutiveEntry)
      else
        var (d, p) := EnsurePreparing(c, now);
        if Entered(d.entries, p.number, character) then Failure(AlreadyEntered)
        else if TitleTaken(d.entries, p.number, title) then Failure(DuplicateTitle)
        else Success(d.(entries := SaveEntry(d.entries, Entry(id, p.number, character, title, 0, 0, now))))
  }

  function Voted(entries: seq<Entry>, id: Id): (after: seq<Entry>)
    ensures |after| == |entries|
  {
    seq(|entries|, i requires 0 <= i < |entries| => if entries[i].id == id then entries[i].(votes := entries[i].votes + 1) else entries[i])
  }

  function CastVote(c: Contest, voter: Id, id: Id): Result<Contest, Error> {
    if voter !in c.wallets then Failure(CharacterNotFound)
    else
      var active := Latest(c.rounds, Active);
      if active.None? then Failure(NotActive)
      else if HasVoted(c.votes, active.value.number, voter) then Failure(AlreadyVoted)
      else
        var e := EntryAt(c.entries, id);
        if e.None? || e.value.round != active.value.number then Failure(EntryNotFound)
        else Success(c.(votes := c.votes + [Vote(active.value.number, id, voter)], entries := Voted(c.entries, id)))
  }

  // ---------- the schedule ----------

  /** An action waits, is worked on, and ends one way or the other; nothing leads back. */
  datatype ActionState = Pending | Processing | Completed | Failed

  datatype Action = Action(id: string, at: Time, state: ActionState)

  datatype System = System(contest: Contest, actions: seq<Action>)

  predicate Serves(a: Action, round: int, end: Time) {
    a.state in {Pending, Processing} && a.at == end && ParseActionId(a.id) == Some((round, end))
  }

  function Reconcile(s: System, now: Time, nonce: string): System {
    var active := Latest(s.contest.rounds, Active);
    var (c, target) := if active.Some? then (s.contest, active.value) else EnsurePreparing(s.contest, now);
    if exists a :: a in s.actions && Serves(a, target.number, target.end) then s.(contest := c)
    else if target.number < 0 || target.end < 0 then s.(contest := c)
    else System(c, s.actions + [Action(ActionId(target.number, target.end) + ":" + nonce, target.end, Pending)])
  }

  /** The round is settled, or its deadline lies beyond the action's. */
  predicate Answered(c: Contest, round: int, target: Time) {
    var r := RoundAt(c.rounds, round);
    r.None? || r.value.status == Settled || target < r.value.end
  }

  /**
   A delivered action settles only when its round was still waiting for it; otherwise the schedule is repaired.
   `seen` is the state that the first look found: another delivery may have been served since.
   */
  function Handle(seen: Contest, s: System, id: string, now: Time, nonce: string): (System, Option<Error>) {
    var parsed := ParseActionId(id);
    if parsed.Some? && Answered(seen, parsed.value.0, parsed.value.1) then (Reconcile(s, now, nonce), None)
    else
      var settled := Settle(s.contest, false, now);
      if settled.Success? then (Reconcile(s.(contest := settled.value), now, nonce), None)
      else if parsed.Some? && RoundAt(s.contest.rounds, parsed.value.0).Some? && Answered(s.contest, parsed.value.0, parsed.value.1)
        then (Reconcile(s, now, nonce), None)
      else (s, Some(settled.error))
  }

  // ---------- the worker ----------

  /** Where the worker may stop for good: before the handler ran, or before its outcome was saved. */
  datatype Stop = Nowhere | BeforeHandler | BeforeSaving

  function Marked(s: System, k: nat, state: ActionState): System {
    if k < |s.actions| then s.(actions := s.actions[k := s.actions[k].(state := state)]) else s
  }

  predicate IsDue(s: System, k: nat, now: Time) {
    k < |s.actions| && s.actions[k].state == Pending && UnixSeconds(s.actions[k].at) <= UnixSeconds(now)
  }

  /** A due action is marked, handed to the handler once, and marked with the outcome. */
  function Work(s: System, k: nat, now: Time, nonce: string, stop: Stop): System {
    if !IsDue(s, k, now) then s
    else
      var taken := Marked(s, k, Processing);
      if stop == BeforeHandler then taken
      else
        var (t, error) := Handle(taken.contest, taken, s.actions[k].id, now, nonce);
        if stop == BeforeSaving then t else Marked(t, k, if error.None? then Completed else Failed)
  }
}

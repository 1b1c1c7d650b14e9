/** What holds after any sequence of entries, votes, settlements and deliveries of scheduled actions. */
module ContestRuns {
  import opened Common
  import opened ContestTypes
  import opened ContestActions
  import opened ContestRules
  import opened ContestRounds
  import opened ContestRanking
  import opened ContestEntries

  datatype Event =
    | Submitted(character: Id, title: string, id: Id, now: Time)
    | Polled(voter: Id, entry: Id)
    | Settling(force: bool, now: Time)
    | Ensuring(now: Time)
    | Reconciling(now: Time, nonce: string)
    | Delivered(id: string, now: Time, nonce: string)
    | Worked(index: nat, now: Time, nonce: string, stop: Stop)

  /** New identifiers are new. */
  ghost predicate Fresh(s: System, e: Event) {
    e.Submitted? ==> FreshId(s.contest, e.id)
  }

  function OnContest(s: System, r: Result<Contest, Error>): System {
    if r.Success? then s.(contest := r.value) else s
  }

  function Happen(s: System, e: Event): System {
    match e
    case Submitted(character, title, id, now) => OnContest(s, Enter(s.contest, character, title, id, now))
    case Polled(voter, entry) => OnContest(s, CastVote(s.contest, voter, entry))
    case Settling(force, now) => OnContest(s, Settle(s.contest, force, now))
    case Ensuring(now) => s.(contest := EnsurePreparing(s.contest, now).0)
    case Reconciling(now, nonce) => Reconcile(s, now, nonce)
    case Delivered(id, now, nonce) => Handle(s.contest, s, id, now, nonce).0
    case Worked(index, now, nonce, stop) => Work(s, index, now, nonce, stop)
  }

  function After(s: System, events: seq<Event>): System {
    if events == [] then s else Happen(After(s, events[..|events| - 1]), events[|events| - 1])
  }

  ghost predicate AllFresh(s: System, events: seq<Event>) {
    forall i :: 0 <= i < |events| ==> Fresh(After(s, events[..i]), events[i])
  }

  lemma ReconcileKeepsOk(s: System, now: Time, nonce: string)
    requires ContestOk(s.contest)
    ensures ContestOk(Reconcile(s, now, nonce).contest)
    ensures Line(s.contest.rounds, Reconcile(s, now, nonce).contest.rounds, now)
  {
    hide ContestOk, Line, ParseActionId, ActionId;
    OkLine(s.contest);
    LineSelf(s.contest.rounds, now);
    EnsureKeepsLine(s.contest, now);
    LineKeepsOk(s.contest, EnsurePreparing(s.contest, now).0, now);
  }

  lemma OkLine(c: Contest)
    requires ContestOk(c)
    ensures RoundsOk(c.rounds)
  {
  }

  lemma HandleKeepsOk(seen: Contest, s: System, id: string, now: Time, nonce: string)
    requires ContestOk(s.contest)
    ensures var t := Handle(seen, s, id, now, nonce).0;
      ContestOk(t.contest) && Line(s.contest.rounds, t.contest.rounds, now)
  {
    hide ContestOk, Line, Reconcile, ParseActionId, Answered;
    OkLine(s.contest);
    LineSelf(s.contest.rounds, now);
    ReconcileKeepsOk(s, now, nonce);
    var settled := Settle(s.contest, false, now);
    if settled.Success? {
      SettleKeepsOk(s.contest, false, now);
      SettleKeepsLine(s.contest, false, now);
      ReconcileKeepsOk(s.(contest := settled.value), now, nonce);
      LineOn(s.contest.rounds, settled.value.rounds, Reconcile(s.(contest := settled.value), now, nonce).contest.rounds, now);
    }
  }

  /** Whatever the worker marks, the contest afterwards is the handler's, or untouched. */
  lemma WorkIs(s: System, k: nat, now: Time, nonce: string, stop: Stop)
    ensures Marked(s, k, Processing).contest == s.contest && (IsDue(s, k, now) ==> k < |s.actions|)
    ensures var taken := Marked(s, k, Processing);
      Work(s, k, now, nonce, stop).contest ==
        if IsDue(s, k, now) && stop != BeforeHandler then Handle(s.contest, taken, s.actions[k].id, now, nonce).0.contest else s.contest
  {
    hide Handle;
  }

  /** The time of an event; a vote has none. */
  function When(e: Event): Time {
    match e
    case Submitted(_, _, _, now) => now
    case Polled(_, _) => 0
    case Settling(_, now) => now
    case Ensuring(now) => now
    case Reconciling(now, _) => now
    case Delivered(_, now, _) => now
    case Worked(_, now, _, _) => now
  }

  lemma EventKeepsOk(s: System, e: Event)
    requires ContestOk(s.contest) && Fresh(s, e)
    ensures ContestOk(Happen(s, e).contest) && Line(s.contest.rounds, Happen(s, e).contest.rounds, When(e))
  {
    hide ContestOk, Line, Reconcile, Handle, Settle, CastVote, Enter, EnsurePreparing, Work, IsDue;
    OkLine(s.contest);
    LineSelf(s.contest.rounds, When(e));
    match e
    case Submitted(character, title, id, now) =>
      if Enter(s.contest, character, title, id, now).Success? { EnterKeepsOk(s.contest, character, title, id, now); }
    case Polled(voter, entry) =>
      if CastVote(s.contest, voter, entry).Success? {
        VoteKeepsOk(s.contest, voter, entry);
        VoteKeepsRounds(s.contest, voter, entry);
      }
    case Settling(force, now) =>
      if Settle(s.contest, force, now).Success? {
        SettleKeepsOk(s.contest, force, now);
        SettleKeepsLine(s.contest, force, now);
      }
    case Ensuring(now) =>
      EnsureKeepsLine(s.contest, now);
      LineKeepsOk(s.contest, EnsurePreparing(s.contest, now).0, now);
    case Reconciling(now, nonce) => ReconcileKeepsOk(s, now, nonce);
    case Delivered(id, now, nonce) => HandleKeepsOk(s.contest, s, id, now, nonce);
    case Worked(index, now, nonce, stop) =>
      WorkIs(s, index, now, nonce, stop);
      if IsDue(s, index, now) {
        HandleKeepsOk(s.contest, Marked(s, index, Processing), s.actions[index].id, now, nonce);
      }
  }

  lemma VoteKeepsRounds(c: Contest, voter: Id, entry: Id)
    requires CastVote(c, voter, entry).Success?
    ensures CastVote(c, voter, entry).value.rounds == c.rounds
  {
  }

  lemma AdvancesOn(a: seq<Round>, b: seq<Round>, c: seq<Round>)
    requires Advances(a, b) && Advances(b, c)
    ensures Advances(a, c)
  {
  }

  /**
   After any events the contest is consistent: rounds 1 to k without gaps, settled ones first, then at most one
   active and at most one preparing; and since any earlier point no round was overwritten or reopened.
   */
  lemma {:induction false} ContestStaysOk(s: System, events: seq<Event>)
    requires ContestOk(s.contest) && AllFresh(s, events)
    ensures ContestOk(After(s, events).contest) && Advances(s.contest.rounds, After(s, events).contest.rounds)
    decreases |events|
  {
    hide ContestOk, Happen, Fresh;
    if events != [] {
      var n := |events| - 1;
      forall i | 0 <= i < n ensures Fresh(After(s, events[..n][..i]), events[..n][i]) {
        assert events[..n][..i] == events[..i];
      }
      ContestStaysOk(s, events[..n]);
      var before := After(s, events[..n]);
      assert events[..n] == events[..n];
      EventKeepsOk(before, events[n]);
      AdvancesOn(s.contest.rounds, before.contest.rounds, Happen(before, events[n]).contest.rounds);
    }
  }

  function Empty(wallets: map<Id, Wallet>): System {
    System(Contest([], [], [], map[], wallets, []), [])
  }

  /** From an empty contest: one active and one preparing round at most, at the end of the line. */
  lemma OneRunningOneWaiting(wallets: map<Id, Wallet>, events: seq<Event>, i: nat, j: nat)
    requires AllFresh(Empty(wallets), events)
    requires i < |After(Empty(wallets), events).contest.rounds| && j < |After(Empty(wallets), events).contest.rounds|
    ensures var rounds := After(Empty(wallets), events).contest.rounds;
      && rounds[i].number == i + 1
      && (rounds[i].status == Preparing ==> i == |rounds| - 1)
      && (rounds[i].status == Active && i < j ==> rounds[j].status == Preparing)
      && (i < j ==> Rank(rounds[j].status) <= Rank(rounds[i].status))
      && (rounds[i].status == rounds[j].status && rounds[i].status != Settled ==> i == j)
  {
    hide After, EntriesOk, VotesOk, PaidOk;
    EmptyOk(wallets);
    ContestStaysOk(Empty(wallets), events);
    var rounds := After(Empty(wallets), events).contest.rounds;
    if i + 1 < |rounds| { assert Follows(rounds[i].status, rounds[|rounds| - 1].status); }
  }

  lemma EmptyOk(wallets: map<Id, Wallet>)
    ensures ContestOk(Empty(wallets).contest)
  {
  }

  /** Nobody is in the running and the waiting round at once, everybody votes once a round, every vote is counted, and prizes are paid once a round. */
  lemma EntriesAndVotesAreHonest(wallets: map<Id, Wallet>, events: seq<Event>)
    requires AllFresh(Empty(wallets), events)
    ensures var c := After(Empty(wallets), events).contest;
      && (forall i, j :: 0 <= i < |c.entries| && 0 <= j < |c.entries| ==> Apart(c.rounds, c.entries[i], c.entries[j]))
      && (forall i, j :: 0 <= i < j < |c.votes| ==> c.votes[i].round != c.votes[j].round || c.votes[i].voter != c.votes[j].voter)
      && (forall i :: 0 <= i < |c.entries| ==> c.entries[i].votes == |VotesFor(c.votes, c.entries[i].id)|)
      && NoDuplicates(c.paid) && (forall r :: r in c.paid ==> InStatus(c.rounds, r, Settled))
  {
    hide After, RoundsOk, Backed, VotesFor, Apart;
    EmptyOk(wallets);
    ContestStaysOk(Empty(wallets), events);
  }

  // ---------- conclusion of a round ----------

  /** A concluded round has ranks 1 to n, in order of votes and then time of entry, stored with its entries. */
  lemma RanksAreStored(c: Contest, a: Round, p: Option<Round>, now: Time, k: nat)
    requires ContestOk(c) && k < |EntriesOf(c.entries, a.number)|
    ensures var sorted := Sorted(EntriesOf(c.entries, a.number));
      && |sorted| == |EntriesOf(c.entries, a.number)| && InOrder(sorted)
      && multiset(sorted) == multiset(EntriesOf(c.entries, a.number))
      && sorted[k].(rank := k + 1) in Conclude(c, a, p, now).entries
  {
    hide RoundsOk, VotesOk, PaidOk, NextRounds;
    var found := EntriesOf(c.entries, a.number);
    SortedIs(found);
    RoundEntriesDistinct(c, a.number);
    RankedDistinct(found);
    SaveAllHolds(c.entries, Ranked(found), k);
  }

  /** What one conclusion adds to a wallet: the prize of the character's rank, and a medal for having voted for the winner. */
  lemma ConclusionPays(c: Contest, a: Round, p: Option<Round>, now: Time, x: Id)
    requires ContestOk(c) && x in c.wallets && EntriesOf(c.entries, a.number) != []
    ensures var ranked := Ranked(EntriesOf(c.entries, a.number));
      var bonus := ranked != [] && VotedIn(VotesFor(c.votes, ranked[0].id), x);
      var after := Conclude(c, a, p, now).wallets;
      && ranked != [] && x in after
      && (forall k: nat :: PrizeRank(ranked, x, k) ==>
            after[x] == if bonus then AddMedals(WithPrize(c.wallets[x], PRIZES[k]), VOTER_BONUS) else WithPrize(c.wallets[x], PRIZES[k]))
      && ((forall k: nat :: !PrizeRank(ranked, x, k)) ==>
            after[x] == if bonus then AddMedals(c.wallets[x], VOTER_BONUS) else c.wallets[x])
  {
    hide RoundsOk, PaidOk, NextRounds, PayPrizes, PayVoters, SaveAll, VotesFor, AddMedals, AddMoney, Sorted;
    var found := EntriesOf(c.entries, a.number);
    var ranked := Ranked(found);
    SortedIs(found);
    RoundEntriesDistinct(c, a.number);
    RankedDistinct(found);
    PayPrizesAt(c.wallets, ranked, x);
    VotersAreDistinct(c, ranked[0].id);
    PayVotersAt(PayPrizes(c.wallets, ranked), VotesFor(c.votes, ranked[0].id), x);
  }

  lemma VotersAreDistinct(c: Contest, entry: Id)
    requires ContestOk(c)
    ensures DistinctVoters(VotesFor(c.votes, entry))
  {
    hide RoundsOk, PaidOk, Backed;
    forall v, w | v in c.votes && w in c.votes && v.entry == w.entry ensures v.round == w.round {
      VoteRoundsAgree(c, v, w);
    }
    VotesForDistinct(c.votes, entry);
  }

  // ---------- replayed actions ----------

  /** A successful settlement leaves no round waiting: each is settled or runs a whole cycle from now. */
  lemma SettleRenewsAll(c: Contest, force: bool, now: Time, i: nat)
    requires RoundsOk(c.rounds) && Settle(c, force, now).Success? && i < |c.rounds|
    ensures var after := Settle(c, force, now).value.rounds;
      i < |after| && (after[i].status == Settled || after[i].end == now + CYCLE)
  {
    SettleKeepsLine(c, force, now);
    var active, p := Latest(c.rounds, Active), Latest(c.rounds, Preparing);
    if c.rounds[i].status != Settled {
      if active.Some? {
        hide Postpone, NextRounds, Promote, CloseRound, RoundsOk, Line;
        RunningIsRenewed(c, active.value, p, now, i);
        ConcludedRounds(c, active.value, p, now);
      } else {
        WaitingIsRenewed(c, force, now, i);
      }
    }
  }

  lemma WaitingIsRenewed(c: Contest, force: bool, now: Time, i: nat)
    requires RoundsOk(c.rounds) && Latest(c.rounds, Active).None? && SettleWaiting(c, force, now).Success?
    requires i < |c.rounds| && c.rounds[i].status != Settled
    ensures var after := SettleWaiting(c, force, now).value.rounds;
      i < |after| && after[i].end == now + CYCLE
  {
    Places(c.rounds);
    LatestIs(c.rounds, Active);
    LatestIs(c.rounds, Preparing);
    var (d, w) := EnsurePreparing(c, now);
    EnsureKeepsLine(c, now);
    Places(d.rounds);
    SaveRoundIs(d.rounds, Extended(w, now));
    PromoteKeepsLineAt(d.rounds, w, now);
  }

  lemma PromoteKeepsLineAt(rounds: seq<Round>, p: Round, now: Time)
    requires RoundsOk(rounds) && rounds != [] && p == rounds[|rounds| - 1] && p.status == Preparing
    ensures |Promote(rounds, p, now)| == |rounds| + 1
    ensures forall i :: 0 <= i < |rounds| ==> Promote(rounds, p, now)[i] == if i == |rounds| - 1 then Promoted(p, now) else rounds[i]
  {
    var running := Promoted(p, now);
    SaveRoundIs(rounds, running);
    SaveRoundIs(SaveRound(rounds, running), Round(running.number + 1, Preparing, running.end, running.end + CYCLE));
  }

  lemma RunningIsRenewed(c: Contest, a: Round, p: Option<Round>, now: Time, i: nat)
    requires RoundsOk(c.rounds) && Latest(c.rounds, Active) == Some(a) && p == Latest(c.rounds, Preparing)
    requires i < |c.rounds| && c.rounds[i].status != Settled
    ensures i < |Postpone(c, a, p, now).rounds| && Postpone(c, a, p, now).rounds[i].end == now + CYCLE
    ensures var next := NextRounds(c, CloseRound(c.rounds, a), a, p, now);
      i < |next| && (next[i].status == Settled || next[i].end == now + CYCLE)
    ensures p.Some? ==>
      var next := Promote(CloseRound(c.rounds, a), p.value, now);
      i < |next| && (next[i].status == Settled || next[i].end == now + CYCLE)
  {
    Places(c.rounds);
    LatestIs(c.rounds, Active);
    LatestIs(c.rounds, Preparing);
    CloseKeepsLine(c.rounds, a, now);
    SaveRoundIs(c.rounds, Extended(a, now));
    var closed, extended := CloseRound(c.rounds, a), SaveRound(c.rounds, Extended(a, now));
    assert i == a.number - 1 || (p.Some? && i == p.value.number - 1);
    if p.Some? {
      PromoteKeepsLineAt(closed, p.value, now);
      SaveRoundIs(closed, Extended(p.value, now));
      SaveRoundIs(extended, Extended(p.value, now));
    } else {
      SaveRoundIs(closed, Round(a.number + 1, Preparing, now, now + CYCLE));
    }
  }

  ghost predicate Known(c: Contest, round: int) {
    RoundAt(c.rounds, round).Some?
  }

  /** A due action that was handled is answered: its round is settled or runs past the action's time. */
  lemma HandledIsAnswered(s: System, id: string, now: Time, nonce: string)
    requires ContestOk(s.contest) && ParseActionId(id).Some?
    requires Known(s.contest, ParseActionId(id).value.0) && ParseActionId(id).value.1 < now + CYCLE
    requires Handle(s.contest, s, id, now, nonce).1.None?
    ensures var t := Handle(s.contest, s, id, now, nonce).0;
      Known(t.contest, ParseActionId(id).value.0) && Answered(t.contest, ParseActionId(id).value.0, ParseActionId(id).value.1)
  {
    hide ContestOk, Reconcile, Settle, ParseActionId;
    OkLine(s.contest);
    var (round, target) := ParseActionId(id).value;
    RoundAtIs(s.contest.rounds, round);
    var settled := Settle(s.contest, false, now);
    if !Answered(s.contest, round, target) && settled.Success? {
      SettleKeepsOk(s.contest, false, now);
      OkLine(settled.value);
      SettleRenewsAll(s.contest, false, now, round - 1);
      RoundAtIs(settled.value.rounds, round);
      ReconcileKeepsOk(s.(contest := settled.value), now, nonce);
      AnswerStays(settled.value, Reconcile(s.(contest := settled.value), now, nonce).contest, round, target, now);
    } else {
      ReconcileKeepsOk(s, now, nonce);
      AnswerStays(s.contest, Reconcile(s, now, nonce).contest, round, target, now);
    }
  }

  /** An answer stands through every later transaction that happens after the action's time. */
  lemma AnswerStays(c: Contest, d: Contest, round: int, target: Time, now: Time)
    requires RoundsOk(c.rounds) && Line(c.rounds, d.rounds, now) && target < now + CYCLE
    requires Known(c, round) && Answered(c, round, target)
    ensures Known(d, round) && Answered(d, round, target)
  {
    RoundAtIs(c.rounds, round);
    RoundAtIs(d.rounds, round);
  }

  ghost predicate AllAfter(events: seq<Event>, target: Time) {
    forall i :: 0 <= i < |events| && !events[i].Polled? ==> target < When(events[i]) + CYCLE
  }

  lemma PollKeepsRounds(s: System, e: Event)
    requires e.Polled?
    ensures Happen(s, e).contest.rounds == s.contest.rounds
  {
  }

  /** A round's own action is taken for unanswered, and so can settle it, exactly when its deadline is a whole second. */
  lemma OwnActionCountsIffWholeSecond(c: Contest, round: nat, nonce: string)
    requires RoundsOk(c.rounds) && 1 <= round <= |c.rounds| && round <= MAX_INT64
    requires var r := c.rounds[round - 1]; r.status != Settled && 0 < UnixSeconds(r.end) <= MAX_INT64
    ensures var r := c.rounds[round - 1];
      var parsed := ParseActionId(ActionId(round, r.end) + ":" + nonce);
      parsed.Some? && (!Answered(c, parsed.value.0, parsed.value.1) <==> r.end % SECOND == 0)
  {
    var r := c.rounds[round - 1];
    RoundAtIs(c.rounds, round);
    assert ActionId(round, r.end) + ":" + nonce == ActionId(round, r.end) + (":" + nonce);
    ActionIdReadsBack(round, r.end, ":" + nonce);
  }

  /** The round whose deadline the schedule serves. */
  function Target(c: Contest, now: Time): Round {
    var active := Latest(c.rounds, Active);
    if active.Some? then active.value else EnsurePreparing(c, now).1
  }

  lemma ParsedIsWholeSecond(id: string)
    ensures ParseActionId(id).Some? ==> ParseActionId(id).value.1 % SECOND == 0
  {
    hide Split, ParseInt;
  }

  /** Repairing the schedule again changes nothing exactly when the deadline is a whole second; otherwise every repair adds an action. */
  lemma ScheduleSettlesIffWholeSecond(s: System, now: Time, nonce: string, later: Time, again: string)
    requires ContestOk(s.contest)
    requires var target := Target(s.contest, now);
      0 < target.number <= MAX_INT64 && 0 <= target.end && 0 < UnixSeconds(target.end) <= MAX_INT64
    ensures var t := Reconcile(s, now, nonce);
      Reconcile(t, later, again) == t <==> Target(s.contest, now).end % SECOND == 0
  {
    hide ParseActionId, ActionId, EntriesOk, VotesOk, PaidOk;
    var target := Target(s.contest, now);
    EnsureKeepsLine(s.contest, now);
    var t := Reconcile(s, now, nonce);
    var id := ActionId(target.number, target.end) + ":" + nonce;
    assert id == ActionId(target.number, target.end) + (":" + nonce);
    ActionIdReadsBack(target.number, target.end, ":" + nonce);
    assert Target(t.contest, later) == target;
    if target.end % SECOND == 0 {
      if !(exists a :: a in s.actions && Serves(a, target.number, target.end)) {
        var a := t.actions[|s.actions|];
        assert Serves(a, target.number, target.end) && a in t.actions;
      }
    } else {
      forall a | a in t.actions ensures !Serves(a, target.number, target.end) {
        ParsedIsWholeSecond(a.id);
      }
    }
  }
}

/** No round runs without a quorum, and what a settlement therefore does to a running one. */
module ContestQuorum {
  import opened Common
  import opened ContestTypes
  import opened ContestActions
  import opened ContestRules
  import opened ContestRounds
  import opened ContestRanking
  import opened ContestEntries
  import opened ContestRuns

  function Size(entries: seq<Entry>, round: int): nat {
    |EntriesOf(entries, round)|
  }

  /** A round that starts to run had enough entries at that moment. */
  ghost predicate StartsQuorate(before: Contest, rounds: seq<Round>) {
    forall i :: 0 <= i < |rounds| && rounds[i].status == Active ==>
      (i < |before.rounds| && before.rounds[i].status == Active) || Size(before.entries, i + 1) >= QUORUM
  }

  ghost predicate QuorumOk(c: Contest) {
    forall i :: 0 <= i < |c.rounds| && c.rounds[i].status == Active ==> Size(c.entries, i + 1) >= QUORUM
  }

  // ---------- one settlement ----------

  /** Settling, forced or not, never starts a round without a quorum. */
  lemma SettleStartsQuorate(c: Contest, force: bool, now: Time)
    requires RoundsOk(c.rounds) && Settle(c, force, now).Success?
    ensures StartsQuorate(c, Settle(c, force, now).value.rounds)
  {
    var active, p := Latest(c.rounds, Active), Latest(c.rounds, Preparing);
    if active.None? {
      WaitingStartsQuorate(c, force, now);
    } else {
      PostponeStartsNothing(c, active.value, p, now);
      ClosingStartsQuorate(c, active.value, p, now);
      ConcludedRounds(c, active.value, p, now);
    }
  }

  lemma WaitingStartsQuorate(c: Contest, force: bool, now: Time)
    requires RoundsOk(c.rounds) && Latest(c.rounds, Active).None? && SettleWaiting(c, force, now).Success?
    ensures StartsQuorate(c, SettleWaiting(c, force, now).value.rounds)
  {
    hide EnsurePreparing, StartsQuorate, Promote, SaveRound, RoundsOk, EntriesOf, Latest;
    EnsureKeepsLine(c, now);
    EnsureStartsNothing(c, now);
    var (d, p) := EnsurePreparing(c, now);
    EnsuredIsLast(d.rounds, p);
    if Size(d.entries, p.number) >= QUORUM {
      PromotionStartsOne(c, d.rounds, p, now);
    } else {
      ExtensionStartsNothing(c, d.rounds, p, now);
    }
  }

  lemma EnsuredIsLast(rounds: seq<Round>, p: Round)
    requires RoundsOk(rounds) && Latest(rounds, Preparing) == Some(p)
    ensures rounds != [] && p == rounds[|rounds| - 1] && p.status == Preparing && p.number == |rounds|
  {
    Places(rounds);
    LatestIs(rounds, Preparing);
  }

  /** Every round but the last is as it was, and the last is still waiting. */
  ghost predicate Widened(c: Contest, rounds: seq<Round>) {
    forall i :: 0 <= i < |rounds| ==> if i < |c.rounds| then rounds[i] == c.rounds[i] else rounds[i].status == Preparing
  }

  lemma PromotionStartsOne(c: Contest, rounds: seq<Round>, p: Round, now: Time)
    requires RoundsOk(rounds) && rounds != [] && p == rounds[|rounds| - 1] && p.status == Preparing && p.number == |rounds|
    requires Widened(c, rounds) && Size(c.entries, p.number) >= QUORUM
    ensures StartsQuorate(c, Promote(rounds, p, now))
  {
    hide Promote, Size, RoundsOk;
    PromoteKeepsLineAt(rounds, p, now);
    PromotedThenWaiting(rounds, p, now);
  }

  lemma ExtensionStartsNothing(c: Contest, rounds: seq<Round>, p: Round, now: Time)
    requires RoundsOk(rounds) && rounds != [] && p == rounds[|rounds| - 1] && p.status == Preparing && p.number == |rounds|
    requires Widened(c, rounds)
    ensures StartsQuorate(c, SaveRound(rounds, Extended(p, now)))
  {
    hide Size, SaveRound;
    SaveRoundIs(rounds, Extended(p, now));
  }

  lemma PromotedThenWaiting(rounds: seq<Round>, p: Round, now: Time)
    requires RoundsOk(rounds) && rounds != [] && p == rounds[|rounds| - 1] && p.status == Preparing
    ensures |Promote(rounds, p, now)| == |rounds| + 1 && Promote(rounds, p, now)[|rounds|].status == Preparing
  {
    var running := Promoted(p, now);
    SaveRoundIs(rounds, running);
    SaveRoundIs(SaveRound(rounds, running), Round(running.number + 1, Preparing, running.end, running.end + CYCLE));
  }

  lemma EnsureStartsNothing(c: Contest, now: Time)
    requires RoundsOk(c.rounds)
    ensures var d := EnsurePreparing(c, now).0;
      d == c.(rounds := d.rounds) && |c.rounds| <= |d.rounds| && Widened(c, d.rounds)
  {
    if Latest(c.rounds, Preparing).None? {
      NextNumber(c, now);
    }
  }

  lemma PostponeStartsNothing(c: Contest, a: Round, p: Option<Round>, now: Time)
    requires RoundsOk(c.rounds) && Latest(c.rounds, Active) == Some(a) && p == Latest(c.rounds, Preparing)
    ensures StartsQuorate(c, Postpone(c, a, p, now).rounds)
  {
    Places(c.rounds);
    LatestIs(c.rounds, Preparing);
    LatestIs(c.rounds, Active);
    SaveRoundIs(c.rounds, Extended(a, now));
    if p.Some? {
      SaveRoundIs(SaveRound(c.rounds, Extended(a, now)), Extended(p.value, now));
    }
  }

  lemma ClosingStartsQuorate(c: Contest, a: Round, p: Option<Round>, now: Time)
    requires RoundsOk(c.rounds) && Latest(c.rounds, Active) == Some(a) && p == Latest(c.rounds, Preparing)
    ensures StartsQuorate(c, NextRounds(c, CloseRound(c.rounds, a), a, p, now))
    ensures Quorate(c, p) ==> StartsQuorate(c, Promote(CloseRound(c.rounds, a), p.value, now))
  {
    Places(c.rounds);
    LatestIs(c.rounds, Preparing);
    LatestIs(c.rounds, Active);
    CloseKeepsLine(c.rounds, a, now);
    var closed := CloseRound(c.rounds, a);
    if p.Some? {
      PromoteKeepsLineAt(closed, p.value, now);
      PromotedThenWaiting(closed, p.value, now);
      SaveRoundIs(closed, Extended(p.value, now));
    } else {
      SaveRoundIs(closed, Round(a.number + 1, Preparing, now, now + CYCLE));
    }
  }

  // ---------- entries are never taken back ----------

  lemma SizeAppend(entries: seq<Entry>, e: Entry, round: int)
    ensures Size(entries + [e], round) == Size(entries, round) + (if e.round == round then 1 else 0)
  {
    assert (entries + [e])[..|entries|] == entries;
  }

  ghost predicate SameRounds(before: seq<Entry>, after: seq<Entry>) {
    |after| == |before| && forall i :: 0 <= i < |after| ==> after[i].round == before[i].round
  }

  lemma {:induction false} SameSize(before: seq<Entry>, after: seq<Entry>, round: int)
    requires SameRounds(before, after)
    ensures Size(after, round) == Size(before, round)
    decreases |before|
  {
    if before != [] {
      SameSize(before[..|before| - 1], after[..|after| - 1], round);
    }
  }

  lemma QuorumStays(c: Contest, d: Contest)
    requires QuorumOk(c) && StartsQuorate(c, d.rounds)
    requires forall round :: Size(c.entries, round) <= Size(d.entries, round)
    ensures QuorumOk(d)
  {
    hide Size;
    forall i | 0 <= i < |d.rounds| && d.rounds[i].status == Active ensures Size(d.entries, i + 1) >= QUORUM {
      assert Size(c.entries, i + 1) <= Size(d.entries, i + 1);
    }
  }

  // ---------- every event ----------

  lemma SettleKeepsQuorum(c: Contest, force: bool, now: Time)
    requires ContestOk(c) && QuorumOk(c) && Settle(c, force, now).Success?
    ensures QuorumOk(Settle(c, force, now).value)
  {
    hide RoundsOk, VotesOk, PaidOk, NoConsecutive, StartsQuorate, QuorumOk, Size;
    var d := Settle(c, force, now).value;
    SettleStartsQuorate(c, force, now);
    SettleKeepsRounds(c, force, now);
    forall round ensures Size(c.entries, round) <= Size(d.entries, round) {
      SameSize(c.entries, d.entries, round);
    }
    QuorumStays(c, d);
  }

  lemma SettleKeepsRounds(c: Contest, force: bool, now: Time)
    requires ContestOk(c) && Settle(c, force, now).Success?
    ensures SameRounds(c.entries, Settle(c, force, now).value.entries)
  {
    hide RoundsOk, NoConsecutive, Award, NextRounds, Promote;
    var active := Latest(c.rounds, Active);
    if active.Some? {
      AwardKeepsEntries(c, active.value);
    }
  }

  lemma EnsureKeepsQuorum(c: Contest, now: Time)
    requires RoundsOk(c.rounds) && QuorumOk(c)
    ensures QuorumOk(EnsurePreparing(c, now).0)
  {
    hide EnsurePreparing;
    EnsureStartsNothing(c, now);
  }

  lemma EnterKeepsQuorum(c: Contest, character: Id, title: string, id: Id, now: Time)
    requires ContestOk(c) && QuorumOk(c) && FreshId(c, id) && Enter(c, character, title, id, now).Success?
    ensures QuorumOk(Enter(c, character, title, id, now).value)
  {
    hide QuorumOk, Size, EntriesOk, VotesOk, PaidOk, EnsurePreparing;
    EnsureKeepsQuorum(c, now);
    EnsureStartsNothing(c, now);
    var (d, p) := EnsurePreparing(c, now);
    var e := Entry(id, p.number, character, title, 0, 0, now);
    EntryIndexIs(d.entries, id);
    var f := Enter(c, character, title, id, now).value;
    assert f == d.(entries := d.entries + [e]);
    SameRoundsStart(d, f.rounds);
    forall round ensures Size(d.entries, round) <= Size(f.entries, round) {
      SizeAppend(d.entries, e, round);
    }
    QuorumStays(d, f);
  }

  lemma SameRoundsStart(c: Contest, rounds: seq<Round>)
    requires rounds == c.rounds
    ensures StartsQuorate(c, rounds)
  {
  }

  lemma VoteKeepsQuorum(c: Contest, voter: Id, id: Id)
    requires QuorumOk(c) && CastVote(c, voter, id).Success?
    ensures QuorumOk(CastVote(c, voter, id).value)
  {
    hide QuorumOk, Size;
    var d := CastVote(c, voter, id).value;
    SameRoundsStart(c, d.rounds);
    forall round ensures Size(c.entries, round) <= Size(d.entries, round) {
      SameSize(c.entries, d.entries, round);
    }
    QuorumStays(c, d);
  }

  lemma ReconcileKeepsQuorum(s: System, now: Time, nonce: string)
    requires ContestOk(s.contest) && QuorumOk(s.contest)
    ensures QuorumOk(Reconcile(s, now, nonce).contest)
  {
    hide QuorumOk, EnsurePreparing, ActionId, Serves;
    OkLine(s.contest);
    EnsureKeepsQuorum(s.contest, now);
  }

  lemma HandleKeepsQuorum(seen: Contest, s: System, id: string, now: Time, nonce: string)
    requires ContestOk(s.contest) && QuorumOk(s.contest)
    ensures QuorumOk(Handle(seen, s, id, now, nonce).0.contest)
  {
    hide QuorumOk, ContestOk, Reconcile, Settle, ParseActionId, Answered;
    ReconcileKeepsQuorum(s, now, nonce);
    var settled := Settle(s.contest, false, now);
    if settled.Success? {
      SettleKeepsOk(s.contest, false, now);
      SettleKeepsQuorum(s.contest, false, now);
      ReconcileKeepsQuorum(s.(contest := settled.value), now, nonce);
    }
  }

  lemma EventKeepsQuorum(s: System, e: Event)
    requires ContestOk(s.contest) && QuorumOk(s.contest) && Fresh(s, e)
    ensures QuorumOk(Happen(s, e).contest)
  {
    hide ContestOk, QuorumOk, Reconcile, Handle, Settle, CastVote, Enter, EnsurePreparing;
    OkLine(s.contest);
    match e
    case Submitted(character, title, id, now) =>
      if Enter(s.contest, character, title, id, now).Success? { EnterKeepsQuorum(s.contest, character, title, id, now); }
    case Polled(voter, entry) =>
      if CastVote(s.contest, voter, entry).Success? { VoteKeepsQuorum(s.contest, voter, entry); }
    case Settling(force, now) =>
      if Settle(s.contest, force, now).Success? { SettleKeepsQuorum(s.contest, force, now); }
    case Ensuring(now) => EnsureKeepsQuorum(s.contest, now);
    case Reconciling(now, nonce) => ReconcileKeepsQuorum(s, now, nonce);
    case Delivered(id, now, nonce) => HandleKeepsQuorum(s.contest, s, id, now, nonce);
    case Worked(index, now, nonce, stop) =>
      WorkIs(s, index, now, nonce, stop);
      if IsDue(s, index, now) {
        HandleKeepsQuorum(s.contest, Marked(s, index, Processing), s.actions[index].id, now, nonce);
      }
  }

  lemma {:induction false} QuorumIsKept(s: System, events: seq<Event>)
    requires ContestOk(s.contest) && QuorumOk(s.contest) && AllFresh(s, events)
    ensures QuorumOk(After(s, events).contest)
    decreases |events|
  {
    if events != [] {
      hide ContestOk, QuorumOk, Happen, Fresh;
      var n := |events| - 1;
      forall i | 0 <= i < n ensures Fresh(After(s, events[..n][..i]), events[..n][i]) {
        assert events[..n][..i] == events[..i];
      }
      ContestStaysOk(s, events[..n]);
      QuorumIsKept(s, events[..n]);
      EventKeepsQuorum(After(s, events[..n]), events[n]);
    }
  }

  /**
   Whatever happened since the contest was empty, a running round holds a quorum of entries; so settling it when it
   is due, or by force, always closes it and pays its prizes, and never puts it off.
   */
  lemma RunningRoundIsSettledAndPaid(wallets: map<Id, Wallet>, events: seq<Event>, force: bool, now: Time)
    requires AllFresh(Empty(wallets), events)
    ensures var c := After(Empty(wallets), events).contest;
      var active := Latest(c.rounds, Active);
      active.Some? ==>
        && Size(c.entries, active.value.number) >= QUORUM
        && (Settle(c, force, now).Success? <==> force || active.value.end <= now)
        && (Settle(c, force, now).Success? ==>
              && Settle(c, force, now).value.paid == c.paid + [active.value.number]
              && InStatus(Settle(c, force, now).value.rounds, active.value.number, Settled))
  {
    hide ContestOk, QuorumOk, After, AllFresh, NextRounds, Award;
    EmptyOk(wallets);
    EmptyIsQuorate(wallets);
    ContestStaysOk(Empty(wallets), events);
    QuorumIsKept(Empty(wallets), events);
    var c := After(Empty(wallets), events).contest;
    if Latest(c.rounds, Active).Some? {
      SettledAndPaid(c, force, now);
    }
  }

  lemma EmptyIsQuorate(wallets: map<Id, Wallet>)
    ensures QuorumOk(Empty(wallets).contest)
  {
  }

  lemma SettledAndPaid(c: Contest, force: bool, now: Time)
    requires ContestOk(c) && QuorumOk(c) && Latest(c.rounds, Active).Some?
    ensures var a := Latest(c.rounds, Active).value;
      && Size(c.entries, a.number) >= QUORUM
      && (Settle(c, force, now).Success? <==> force || a.end <= now)
      && (Settle(c, force, now).Success? ==>
            && Settle(c, force, now).value.paid == c.paid + [a.number]
            && InStatus(Settle(c, force, now).value.rounds, a.number, Settled))
  {
    hide ContestOk, RoundsOk, EntriesOk, VotesOk, QuorumOk, Latest, Conclude, Settle, Size;
    var a := Latest(c.rounds, Active).value;
    OkParts(c);
    RunningIsQuorate(c, a);
    ConcludesOrWaits(c, a, force, now);
    ConclusionCloses(c, a, now);
  }

  lemma RunningIsQuorate(c: Contest, a: Round)
    requires RoundsOk(c.rounds) && QuorumOk(c) && Latest(c.rounds, Active) == Some(a)
    ensures Size(c.entries, a.number) >= QUORUM
  {
    hide Size;
    LatestIs(c.rounds, Active);
    assert Size(c.entries, a.number - 1 + 1) >= QUORUM;
  }

  lemma ConcludesOrWaits(c: Contest, a: Round, force: bool, now: Time)
    requires Latest(c.rounds, Active) == Some(a) && Size(c.entries, a.number) >= QUORUM
    ensures Settle(c, force, now) ==
      if force || a.end <= now then Success(Conclude(c, a, Latest(c.rounds, Preparing), now)) else Failure(NotReady)
  {
    hide Conclude, EntriesOf, Latest;
  }

  lemma ConclusionCloses(c: Contest, a: Round, now: Time)
    requires RoundsOk(c.rounds) && EntriesOk(c) && VotesOk(c)
    requires Latest(c.rounds, Active) == Some(a) && Size(c.entries, a.number) >= QUORUM
    ensures var d := Conclude(c, a, Latest(c.rounds, Preparing), now);
      d.paid == c.paid + [a.number] && InStatus(d.rounds, a.number, Settled)
  {
    hide RoundsOk, EntriesOk, VotesOk, Award, NextRounds, Reranked, EntriesOf, Latest;
    AwardKeepsEntries(c, a);
    NextKeepsLine(c, a, Latest(c.rounds, Preparing), now);
  }

  lemma OkParts(c: Contest)
    requires ContestOk(c)
    ensures RoundsOk(c.rounds) && EntriesOk(c) && VotesOk(c)
  {
  }
}

/** What a settlement does to every round, told by positions, deadlines and numbers of entries alone. */
module ContestSettlements {
  import opened Common
  import opened ContestTypes
  import opened ContestActions
  import opened ContestRules
  import opened ContestRounds
  import opened ContestRanking
  import opened ContestEntries
  import opened ContestRuns
  import opened ContestQuorum

  ghost predicate NoneRuns(rounds: seq<Round>) {
    forall i :: 0 <= i < |rounds| ==> rounds[i].status != Active
  }

  ghost predicate LastWaits(rounds: seq<Round>) {
    rounds != [] && rounds[|rounds| - 1].status == Preparing
  }

  /** The waiting round as a settlement finds it: the last one, or a new one behind settled rounds. */
  function Awaited(c: Contest, now: Time): Round {
    if c.rounds != [] && c.rounds[|c.rounds| - 1].status == Preparing then c.rounds[|c.rounds| - 1]
    else Round(|c.rounds| + 1, Preparing, now, now + CYCLE)
  }

  lemma AwaitedIs(c: Contest, now: Time)
    requires RoundsOk(c.rounds) && NoneRuns(c.rounds)
    ensures var (d, p) := EnsurePreparing(c, now);
      && p == Awaited(c, now) && Latest(c.rounds, Active).None? && p.number == |d.rounds| && |d.rounds| >= 1
      && d == c.(rounds := d.rounds) && d.rounds == c.rounds[..p.number - 1] + [p] && RoundsOk(d.rounds)
      && 1 <= p.number <= |c.rounds| + 1 && p.status == Preparing
      && forall i :: 0 <= i < p.number - 1 ==> c.rounds[i].status == Settled
  {
    NoneRunsPlaces(c.rounds);
    EnsureKeepsLine(c, now);
    hide RoundsOk, Latest;
    if Latest(c.rounds, Preparing).None? {
      NextNumber(c, now);
      hide EnsurePreparing;
      FirstStart(c, now);
      assert c.rounds[..|c.rounds|] == c.rounds;
    } else {
      assert c.rounds == c.rounds[..|c.rounds| - 1] + [c.rounds[|c.rounds| - 1]];
    }
  }

  lemma FirstStart(c: Contest, now: Time)
    requires Latest(c.rounds, Active).None? && Latest(c.rounds, Preparing).None?
    ensures var p := EnsurePreparing(c, now).1; p == Round(p.number, Preparing, now, now + CYCLE)
  {
    hide Latest;
  }

  /** Without a running round the waiting one is last and every other is settled. */
  lemma NoneRunsPlaces(rounds: seq<Round>)
    requires RoundsOk(rounds) && NoneRuns(rounds)
    ensures Latest(rounds, Active).None? && Numbered(rounds)
    ensures Latest(rounds, Preparing).None? ==> forall i :: 0 <= i < |rounds| ==> rounds[i].status == Settled
    ensures Latest(rounds, Preparing).Some? ==>
      rounds != [] && Latest(rounds, Preparing).value == rounds[|rounds| - 1] && rounds[|rounds| - 1].status == Preparing
      && forall i :: 0 <= i < |rounds| - 1 ==> rounds[i].status == Settled
  {
    Places(rounds);
    LatestIs(rounds, Active);
    LatestIs(rounds, Preparing);
    hide Latest;
    forall i | 0 <= i < |rounds| - 1 ensures rounds[i].status == Settled {
      assert Follows(rounds[i].status, rounds[|rounds| - 1].status);
    }
  }

  lemma PromoteIs(rounds: seq<Round>, p: Round, now: Time)
    requires Numbered(rounds) && rounds != [] && p.number == |rounds|
    ensures Promote(rounds, p, now) == rounds[..|rounds| - 1]
      + [Round(p.number, Active, now, now + CYCLE), Round(p.number + 1, Preparing, now + CYCLE, now + CYCLE + CYCLE)]
  {
    var running := Promoted(p, now);
    SaveRoundIs(rounds, running);
    SaveRoundIs(SaveRound(rounds, running), Round(running.number + 1, Preparing, running.end, running.end + CYCLE));
  }

  /**
   Without a running round, a settlement is due by force or from the waiting round's deadline on. The waiting round
   then starts at once and for a whole cycle, with the next one waiting behind it, exactly when it has a quorum of
   entries; otherwise it waits a cycle longer. Nothing else of the contest changes.
   */
  lemma WaitingStartsIff(c: Contest, force: bool, now: Time)
    requires RoundsOk(c.rounds) && NoneRuns(c.rounds)
    ensures Settle(c, force, now).Success? <==> force || (LastWaits(c.rounds) && c.rounds[|c.rounds| - 1].end <= now)
    ensures Settle(c, force, now).Success? ==>
      var p, d := Awaited(c, now), Settle(c, force, now).value;
      && d == c.(rounds := d.rounds)
      && d.rounds == c.rounds[..p.number - 1] +
           if Size(c.entries, p.number) >= QUORUM
           then [Round(p.number, Active, now, now + CYCLE), Round(p.number + 1, Preparing, now + CYCLE, now + CYCLE + CYCLE)]
           else [Round(p.number, Preparing, p.start, now + CYCLE)]
  {
    AwaitedIs(c, now);
    var (d, p) := EnsurePreparing(c, now);
    WaitingRounds(c.rounds, d.rounds, p, now);
    hide *;
    WaitingCase(c, force, now, d, p);
    AwaitedDeadline(c, now);
  }

  lemma AwaitedDeadline(c: Contest, now: Time)
    ensures Awaited(c, now).end <= now <==> LastWaits(c.rounds) && c.rounds[|c.rounds| - 1].end <= now
  {
  }

  lemma WaitingCase(c: Contest, force: bool, now: Time, d: Contest, p: Round)
    requires EnsurePreparing(c, now) == (d, p) && Latest(c.rounds, Active).None? && d == c.(rounds := d.rounds)
    requires 1 <= p.number <= |c.rounds| + 1 && p.status == Preparing
    requires SaveRound(d.rounds, Extended(p, now)) == c.rounds[..p.number - 1] + [p.(end := now + CYCLE)]
    requires Promote(d.rounds, p, now) == c.rounds[..p.number - 1]
      + [Round(p.number, Active, now, now + CYCLE), Round(p.number + 1, Preparing, now + CYCLE, now + CYCLE + CYCLE)]
    ensures Settle(c, force, now).Success? <==> force || p.end <= now
    ensures Settle(c, force, now).Success? ==>
      && Settle(c, force, now).value == c.(rounds := Settle(c, force, now).value.rounds)
      && Settle(c, force, now).value.rounds == c.rounds[..p.number - 1] +
           if Size(c.entries, p.number) >= QUORUM
           then [Round(p.number, Active, now, now + CYCLE), Round(p.number + 1, Preparing, now + CYCLE, now + CYCLE + CYCLE)]
           else [Round(p.number, Preparing, p.start, now + CYCLE)]
  {
    hide EnsurePreparing, Promote, SaveRound, EntriesOf, Latest, Extended;
  }

  lemma WaitingRounds(before: seq<Round>, rounds: seq<Round>, p: Round, now: Time)
    requires RoundsOk(rounds) && 1 <= p.number <= |before| + 1 && rounds == before[..p.number - 1] + [p]
    ensures Promote(rounds, p, now) == before[..p.number - 1]
      + [Round(p.number, Active, now, now + CYCLE), Round(p.number + 1, Preparing, now + CYCLE, now + CYCLE + CYCLE)]
    ensures SaveRound(rounds, Extended(p, now)) == before[..p.number - 1] + [p.(end := now + CYCLE)]
  {
    PromoteIs(rounds, p, now);
    SaveRoundIs(rounds, Extended(p, now));
  }

  // ---------- behind a running round ----------

  /** The round that waits behind a running one, if there is one. */
  function Behind(rounds: seq<Round>, a: Round): Option<Round> {
    if 0 <= a.number < |rounds| then Some(rounds[a.number]) else None
  }

  lemma BehindIs(rounds: seq<Round>, a: Round)
    requires RoundsOk(rounds) && a in rounds && a.status == Active
    ensures Latest(rounds, Active) == Some(a) && Latest(rounds, Preparing) == Behind(rounds, a)
    ensures 1 <= a.number <= |rounds| <= a.number + 1 && rounds[a.number - 1] == a
    ensures Behind(rounds, a).Some? ==> rounds[a.number].number == a.number + 1 && rounds[a.number].status == Preparing
  {
    LatestIs(rounds, Active);
    LatestIs(rounds, Preparing);
    Places(rounds);
    var i :| 0 <= i < |rounds| && rounds[i] == a;
    assert Latest(rounds, Active).Some?;
    var b := Latest(rounds, Active).value;
    if Behind(rounds, a).Some? {
      assert Follows(rounds[i].status, rounds[i + 1].status);
    }
  }

  /** Enough entries in the running round, or in the one behind it. */
  predicate MayClose(c: Contest, a: Round) {
    Size(c.entries, a.number) >= QUORUM || (Behind(c.rounds, a).Some? && Size(c.entries, a.number + 1) >= QUORUM)
  }

  /** What becomes of the place behind a round that closes. */
  function Succession(c: Contest, a: Round, now: Time): seq<Round> {
    if Behind(c.rounds, a).None? then [Round(a.number + 1, Preparing, now, now + CYCLE)]
    else if Size(c.entries, a.number + 1) >= QUORUM
      then [Round(a.number + 1, Active, now, now + CYCLE), Round(a.number + 2, Preparing, now + CYCLE, now + CYCLE + CYCLE)]
    else [Round(a.number + 1, Preparing, c.rounds[a.number].start, now + CYCLE)]
  }

  /** A settlement that is not enough for either round puts both off by a cycle from now. */
  function PutOff(rounds: seq<Round>, a: Round, now: Time): seq<Round> {
    var later := [Round(a.number, Active, a.start, now + CYCLE)];
    if Behind(rounds, a).None? then later else later + [Round(a.number + 1, Preparing, rounds[a.number].start, now + CYCLE)]
  }

  lemma ClosingIs(c: Contest, a: Round, now: Time)
    requires RoundsOk(c.rounds) && a in c.rounds && a.status == Active
    ensures NextRounds(c, CloseRound(c.rounds, a), a, Behind(c.rounds, a), now)
      == c.rounds[..a.number - 1] + [Round(a.number, Settled, a.start, a.end)] + Succession(c, a, now)
  {
    BehindIs(c.rounds, a);
    CloseKeepsLine(c.rounds, a, now);
    var closed, p := CloseRound(c.rounds, a), Behind(c.rounds, a);
    assert closed[..a.number] == c.rounds[..a.number - 1] + [Round(a.number, Settled, a.start, a.end)];
    if p.None? {
      SaveRoundIs(closed, Round(a.number + 1, Preparing, now, now + CYCLE));
    } else {
      PromoteIs(closed, p.value, now);
      SaveRoundIs(closed, Extended(p.value, now));
    }
  }

  lemma PutOffIs(c: Contest, a: Round, now: Time)
    requires RoundsOk(c.rounds) && a in c.rounds && a.status == Active
    ensures Postpone(c, a, Behind(c.rounds, a), now) == c.(rounds := c.rounds[..a.number - 1] + PutOff(c.rounds, a, now))
  {
    BehindIs(c.rounds, a);
    SaveRoundIs(c.rounds, Extended(a, now));
    var p := Behind(c.rounds, a);
    if p.Some? {
      SaveRoundIs(SaveRound(c.rounds, Extended(a, now)), Extended(p.value, now));
    }
  }

  lemma EmptyClosingIs(c: Contest, a: Round, now: Time)
    requires RoundsOk(c.rounds) && a in c.rounds && a.status == Active
    requires Behind(c.rounds, a).Some? && Size(c.entries, a.number + 1) >= QUORUM
    ensures Promote(CloseRound(c.rounds, a), Behind(c.rounds, a).value, now)
      == c.rounds[..a.number - 1] + [Round(a.number, Settled, a.start, a.end)] + Succession(c, a, now)
  {
    BehindIs(c.rounds, a);
    ClosingIs(c, a, now);
  }

  /**
   With a running round, a settlement is due by force or from that round's deadline on. The round closes exactly when
   it or the one behind it has a quorum, and pays its prizes exactly when it closes with an entry; the round behind it
   then starts for a whole cycle exactly when it has a quorum, waits a cycle longer without one, or is created.
   Otherwise both are put off by a cycle and nothing else changes.
   */
  lemma RunningClosesIff(c: Contest, a: Round, force: bool, now: Time)
    requires RoundsOk(c.rounds) && a in c.rounds && a.status == Active
    ensures Settle(c, force, now).Success? <==> force || a.end <= now
    ensures Settle(c, force, now).Success? ==>
      var d := Settle(c, force, now).value;
      && 1 <= a.number <= |c.rounds|
      && d.rounds == c.rounds[..a.number - 1] +
           (if MayClose(c, a) then [Round(a.number, Settled, a.start, a.end)] + Succession(c, a, now) else PutOff(c.rounds, a, now))
      && d.paid == c.paid + (if MayClose(c, a) && Size(c.entries, a.number) > 0 then [a.number] else [])
      && d.votes == c.votes
      && (!MayClose(c, a) || Size(c.entries, a.number) == 0 ==> d == c.(rounds := d.rounds))
  {
    hide RoundsOk, Award, Promote, NextRounds, Postpone, CloseRound, EntriesOf, Succession, PutOff, Latest;
    BehindIs(c.rounds, a);
    PutOffIs(c, a, now);
    ClosingIs(c, a, now);
    if Behind(c.rounds, a).Some? && Size(c.entries, a.number + 1) >= QUORUM {
      EmptyClosingIs(c, a, now);
    }
    AwardPaysFor(c, a);
  }

  lemma AwardPaysFor(c: Contest, a: Round)
    ensures Award(c, a).rounds == c.rounds && Award(c, a).votes == c.votes
    ensures Size(c.entries, a.number) > 0 ==> Award(c, a).paid == c.paid + [a.number]
  {
    SortedIs(EntriesOf(c.entries, a.number));
  }

  // ---------- what a closed round hands out ----------

  /** The place of a character in a ranking, counted from zero; behind everybody when it is not in it. */
  function Place(ranking: seq<Entry>, x: Id): (k: nat)
    ensures k <= |ranking| && (k < |ranking| ==> ranking[k].character == x)
    ensures forall i :: 0 <= i < k ==> ranking[i].character != x
  {
    if ranking == [] then 0
    else if ranking[0].character == x then 0
    else Place(ranking[1..], x) + 1
  }

  function Gold(ranking: seq<Entry>, x: Id): nat {
    var place := Place(ranking, x);
    if place >= |ranking| then 0 else if place == 0 then 15_000 else if place == 1 then 7_000 else if place == 2 then 3_000 else 0
  }

  function Medals(ranking: seq<Entry>, x: Id): nat {
    var place := Place(ranking, x);
    if place >= |ranking| then 0 else if place == 0 then 10 else if place == 1 then 6 else if place == 2 then 3 else 0
  }

  predicate VotedFor(votes: seq<Vote>, entry: Id, x: Id) {
    exists v :: v in votes && v.entry == entry && v.voter == x
  }

  lemma VotersOf(votes: seq<Vote>, entry: Id, x: Id)
    ensures VotedIn(VotesFor(votes, entry), x) <==> VotedFor(votes, entry, x)
  {
    var found := VotesFor(votes, entry);
    if VotedIn(found, x) {
      var i :| 0 <= i < |found| && found[i].voter == x;
      VotesForAre(votes, entry, found[i]);
    }
    if VotedFor(votes, entry, x) {
      var v :| v in votes && v.entry == entry && v.voter == x;
      VotesForAre(votes, entry, v);
      var i :| 0 <= i < |found| && found[i] == v;
    }
  }

  lemma WalletGets(before: Wallet, after: Wallet, ranking: seq<Entry>, x: Id, bonus: bool)
    requires before.money <= MAX_MONEY && before.medals <= MAX_MEDALS
    requires var k := Place(ranking, x);
      var prized := if k < |ranking| && k < |PRIZES| then WithPrize(before, PRIZES[k]) else before;
      after == if bonus then AddMedals(prized, VOTER_BONUS) else prized
    ensures after.money == Min(before.money + Gold(ranking, x), 999_999)
    ensures after.medals == Min(before.medals + Medals(ranking, x) + (if bonus then 1 else 0), 999_999_999)
  {
  }

  /** The characters of a round's entries, in the order of a ranking, are distinct. */
  lemma RankingDistinct(c: Contest, round: int, ranking: seq<Entry>)
    requires ContestOk(c) && multiset(ranking) == multiset(EntriesOf(c.entries, round)) && |ranking| == |EntriesOf(c.entries, round)|
    requires ranking == Sorted(EntriesOf(c.entries, round))
    ensures DistinctCharacters(Ranked(EntriesOf(c.entries, round)))
  {
    hide Sorted;
    RoundEntriesDistinct(c, round);
    RankedDistinct(EntriesOf(c.entries, round));
  }

  lemma PrizedPlace(c: Contest, round: int, x: Id)
    requires ContestOk(c)
    ensures var found := EntriesOf(c.entries, round);
      var place := Place(Sorted(found), x);
      && (forall k: nat :: PrizeRank(Ranked(found), x, k) ==> k == place)
      && (place < |Sorted(found)| && place < |PRIZES| ==> PrizeRank(Ranked(found), x, place))
  {
    hide ContestOk, EntriesOf, Sorted;
    var found := EntriesOf(c.entries, round);
    SortedIs(found);
    RankingDistinct(c, round, Sorted(found));
    var ranked, place := Ranked(found), Place(Sorted(found), x);
    forall k: nat | PrizeRank(ranked, x, k) ensures k == place {
      assert ranked[k].character == Sorted(found)[k].character;
      SamePlace(ranked, place, k);
    }
  }

  lemma SamePlace(ranked: seq<Entry>, i: nat, j: nat)
    requires DistinctCharacters(ranked) && i < |ranked| && j < |ranked| && ranked[i].character == ranked[j].character
    ensures i == j
  {
  }

  /**
   A round that closes with entries has them ranked by votes and then by time of entry, the ranks stored, its winner
   made a legend if it had a quorum, and every character paid in full up to the limits: 15000, 7000 and 3000 gold with
   10, 6 and 3 medals for the first three places, and one medal for everybody who voted for the winner.
   */
  lemma ClosingPays(c: Contest, a: Round, force: bool, now: Time, x: Id)
    requires ContestOk(c) && a in c.rounds && a.status == Active && MayClose(c, a) && Size(c.entries, a.number) > 0
    requires Settle(c, force, now).Success?
    requires x in c.wallets && c.wallets[x].money <= MAX_MONEY && c.wallets[x].medals <= MAX_MEDALS
    ensures var d, ranking := Settle(c, force, now).value, Sorted(EntriesOf(c.entries, a.number));
      && InOrder(ranking) && multiset(ranking) == multiset(EntriesOf(c.entries, a.number)) && ranking != []
      && (forall k :: 0 <= k < |ranking| ==> ranking[k].(rank := k + 1) in d.entries)
      && d.legends == (if Size(c.entries, a.number) >= QUORUM then c.legends[a.number := ranking[0].id] else c.legends)
      && x in d.wallets
      && d.wallets[x].money == Min(c.wallets[x].money + Gold(ranking, x), 999_999)
      && d.wallets[x].medals
        == Min(c.wallets[x].medals + Medals(ranking, x) + (if VotedFor(c.votes, ranking[0].id, x) then 1 else 0), 999_999_999)
  {
    hide ContestOk, RoundsOk, NextRounds, Sorted, EntriesOf, VotesFor, Latest, PayPrizes, PayVoters, SaveAll, MayClose, AddMoney, AddMedals, WithPrize, VotedFor, VotedIn;
    ContestLine(c);
    BehindIs(c.rounds, a);
    ClosesByConclusion(c, a, force, now);
    var p, found := Behind(c.rounds, a), EntriesOf(c.entries, a.number);
    var ranking := Sorted(found);
    SortedIs(found);
    forall k | 0 <= k < |ranking| ensures ranking[k].(rank := k + 1) in Conclude(c, a, p, now).entries {
      RanksAreStored(c, a, p, now, k);
    }
    ConclusionPays(c, a, p, now, x);
    PrizedPlace(c, a.number, x);
    VotersOf(c.votes, ranking[0].id, x);
    WalletGets(c.wallets[x], Conclude(c, a, p, now).wallets[x], ranking, x, VotedFor(c.votes, ranking[0].id, x));
  }

  lemma ContestLine(c: Contest)
    requires ContestOk(c)
    ensures RoundsOk(c.rounds)
  {
  }

  lemma ClosesByConclusion(c: Contest, a: Round, force: bool, now: Time)
    requires Latest(c.rounds, Active) == Some(a) && Latest(c.rounds, Preparing) == Behind(c.rounds, a)
    requires Behind(c.rounds, a).Some? ==> Behind(c.rounds, a).value.number == a.number + 1
    requires MayClose(c, a) && Size(c.entries, a.number) > 0 && Settle(c, force, now).Success?
    ensures Settle(c, force, now).value == Conclude(c, a, Behind(c.rounds, a), now)
  {
    hide Conclude, Latest, EntriesOf;
  }

  // ---------- a round that runs ----------

  const CAST: seq<Id> := ["a", "b", "c", "d", "e"]

  function Entering(k: nat): Event
    requires k < |CAST|
  {
    Submitted(CAST[k], CAST[k], CAST[k], 0)
  }

  const OPENING: seq<Event> := [Entering(0), Entering(1), Entering(2), Entering(3), Entering(4), Settling(false, CYCLE)]

  const PURSE: map<Id, Wallet> := map["a" := Wallet(0, 0), "b" := Wallet(0, 0), "c" := Wallet(0, 0), "d" := Wallet(0, 0), "e" := Wallet(0, 0)]

  /** `k` of the cast have entered the first round. */
  ghost predicate Gathered(s: System, k: nat) {
    && k <= |CAST| && s.actions == [] && s.contest.wallets == PURSE
    && s.contest.rounds == (if k == 0 then [] else [Round(1, Preparing, 0, CYCLE)])
    && |s.contest.entries| == k
    && forall i :: 0 <= i < k ==> s.contest.entries[i] == Entry(CAST[i], 1, CAST[i], CAST[i], 0, 0, 0)
  }

  lemma OneMoreEnters(s: System, k: nat)
    requires Gathered(s, k) && k < |CAST|
    ensures Gathered(Happen(s, Entering(k)), k + 1)
  {
    var c := s.contest;
    FirstRoundWaits(c, k == 0);
    hide EnsurePreparing, Latest;
    EntryIndexIs(c.entries, CAST[k]);
    assert forall e :: e in c.entries ==> e.character != CAST[k] && e.title != CAST[k];
  }

  lemma FirstRoundWaits(c: Contest, none: bool)
    requires c.rounds == if none then [] else [Round(1, Preparing, 0, CYCLE)]
    ensures Latest(c.rounds, Active).None?
    ensures EnsurePreparing(c, 0) == (c.(rounds := [Round(1, Preparing, 0, CYCLE)]), Round(1, Preparing, 0, CYCLE))
  {
    LatestIs(c.rounds, Active);
    LatestIs(c.rounds, Preparing);
    LatestIs(c.rounds, Settled);
    if none {
      assert SaveRound(c.rounds, Round(1, Preparing, 0, CYCLE)) == [Round(1, Preparing, 0, CYCLE)];
    } else {
      assert c.(rounds := [Round(1, Preparing, 0, CYCLE)]) == c;
    }
  }

  lemma {:induction false} AllEntered(entries: seq<Entry>)
    requires forall e :: e in entries ==> e.round == 1
    ensures Size(entries, 1) == |entries|
    decreases |entries|
  {
    if entries != [] {
      AllEntered(entries[..|entries| - 1]);
    }
  }

  lemma {:induction false} CastGathers(k: nat)
    requires k <= |CAST|
    ensures Gathered(After(Empty(PURSE), OPENING[..k]), k)
  {
    hide Gathered, Happen, Entering;
    if k == 0 {
      NobodyGathered();
    } else {
      CastGathers(k - 1);
      assert OPENING[..k][..k - 1] == OPENING[..k - 1];
      OneMoreEnters(After(Empty(PURSE), OPENING[..k - 1]), k - 1);
    }
  }

  lemma NobodyGathered()
    ensures Gathered(Empty(PURSE), 0)
  {
  }

  /** Five people enter an empty contest and a cycle goes by: the first round runs, and the second waits behind it. */
  lemma FirstRoundRuns()
    ensures var c := After(Empty(PURSE), OPENING).contest;
      && c.rounds == [Round(1, Active, CYCLE, CYCLE + CYCLE), Round(2, Preparing, CYCLE + CYCLE, CYCLE + CYCLE + CYCLE)]
      && Size(c.entries, 1) == 5
  {
    hide Happen, After, Entering;
    CastGathers(5);
    var s := After(Empty(PURSE), OPENING[..5]);
    AllEntered(s.contest.entries);
    WaitingStartsIff(s.contest, false, CYCLE);
    assert s.contest.rounds[..0] == [];
    LastOfOpening();
    SettlingHappens(s, CYCLE);
  }

  lemma LastOfOpening()
    ensures After(Empty(PURSE), OPENING) == Happen(After(Empty(PURSE), OPENING[..5]), Settling(false, CYCLE))
  {
    hide Happen, Entering;
  }

  lemma SettlingHappens(s: System, now: Time)
    requires Settle(s.contest, false, now).Success?
    ensures Happen(s, Settling(false, now)).contest == Settle(s.contest, false, now).value
  {
    hide Settle;
  }
}

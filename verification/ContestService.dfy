/** The contest service over its tables, proved against the rules. */
module ContestService {
  import opened Common
  import opened ContestTypes
  import opened ContestActions
  import Rules = ContestRules
  import opened ContestRules
  import ContestRanking

  class PhotoContest {
    var rounds: seq<Round>
    var entries: seq<Entry>
    var votes: seq<Vote>
    var legends: map<int, Id>
    var wallets: map<Id, Wallet>
    ghost var paid: seq<int>
    var actions: seq<Action>

    ghost function Value(): Contest
      reads this
    {
      Contest(rounds, entries, votes, legends, wallets, paid)
    }

    ghost function Whole(): System
      reads this
    {
      System(Value(), actions)
    }

    constructor (wallets: map<Id, Wallet>)
      ensures Whole() == System(Contest([], [], [], map[], wallets, []), [])
    {
      rounds, entries, votes, legends, this.wallets, paid, actions := [], [], [], map[], wallets, [], [];
    }

    // ---------- tables ----------

    method FindLatest(status: Status) returns (r: Option<Round>)
      ensures r == Latest(rounds, status)
    {
      r := None;
      for i := 0 to |rounds|
        invariant r == Latest(rounds[..i], status)
      {
        assert rounds[..i + 1][..i] == rounds[..i];
        if rounds[i].status == status && (r.None? || r.value.number < rounds[i].number) {
          r := Some(rounds[i]);
        }
      }
      assert rounds[..|rounds|] == rounds;
    }

    method SaveRound(r: Round)
      modifies this`rounds
      ensures rounds == ContestTypes.SaveRound(old(rounds), r)
    {
      var found := -1;
      for i := 0 to |rounds|
        invariant found == RoundIndex(rounds[..i], r.number)
        invariant rounds == old(rounds)
      {
        assert rounds[..i + 1][..i] == rounds[..i];
        if rounds[i].number == r.number {
          found := i;
        }
      }
      assert rounds[..|rounds|] == rounds;
      rounds := if found >= 0 then rounds[found := r] else rounds + [r];
    }

    method SaveEntry(e: Entry)
      modifies this`entries
      ensures entries == Rules.SaveEntry(old(entries), e)
    {
      var found := -1;
      for i := 0 to |entries|
        invariant found == EntryIndex(entries[..i], e.id)
        invariant entries == old(entries)
      {
        assert entries[..i + 1][..i] == entries[..i];
        if entries[i].id == e.id {
          found := i;
        }
      }
      assert entries[..|entries|] == entries;
      entries := if found >= 0 then entries[found := e] else entries + [e];
    }

    method ListEntries(round: int) returns (found: seq<Entry>)
      ensures found == EntriesOf(entries, round)
    {
      found := [];
      for i := 0 to |entries|
        invariant found == EntriesOf(entries[..i], round)
      {
        assert entries[..i + 1][..i] == entries[..i];
        if entries[i].round == round {
          found := found + [entries[i]];
        }
      }
      assert entries[..|entries|] == entries;
    }

    method ListVotes(entry: Id) returns (found: seq<Vote>)
      ensures found == VotesFor(votes, entry)
    {
      found := [];
      for i := 0 to |votes|
        invariant found == VotesFor(votes[..i], entry)
      {
        assert votes[..i + 1][..i] == votes[..i];
        if votes[i].entry == entry {
          found := found + [votes[i]];
        }
      }
      assert votes[..|votes|] == votes;
    }

    // ---------- rounds ----------

    method EnsurePreparing(now: Time) returns (p: Round)
      modifies this`rounds
      ensures (Value(), p) == Rules.EnsurePreparing(old(Value()), now)
    {
      hide Latest, ContestTypes.SaveRound;
      var waiting := FindLatest(Preparing);
      if waiting.Some? {
        return waiting.value;
      }
      var number, start := 1, now;
      var active := FindLatest(Active);
      if active.Some? {
        number, start := active.value.number + 1, active.value.end;
      } else {
        var settled := FindLatest(Settled);
        if settled.Some? {
          number := settled.value.number + 1;
        }
      }
      p := Round(number, Preparing, start, start + CYCLE);
      SaveRound(p);
    }

    method Promote(p: Round, now: Time)
      modifies this`rounds
      ensures rounds == Rules.Promote(old(rounds), p, now)
    {
      hide ContestTypes.SaveRound;
      var running := Promoted(p, now);
      SaveRound(running);
      SaveRound(Round(running.number + 1, Preparing, running.end, running.end + CYCLE));
    }

    method SettleWaiting(force: bool, now: Time) returns (error: Option<Error>)
      modifies this`rounds
      ensures error.None? ==> Rules.SettleWaiting(old(Value()), force, now) == Success(Value())
      ensures error.Some? ==> Rules.SettleWaiting(old(Value()), force, now) == Failure(error.value)
    {
      hide Rules.EnsurePreparing, EntriesOf, Rules.Promote, ContestTypes.SaveRound;
      var p := EnsurePreparing(now);
      if !force && now < p.end {
        return Some(NotReady);
      }
      var found := ListEntries(p.number);
      if |found| < QUORUM {
        SaveRound(Extended(p, now));
      } else {
        Promote(p, now);
      }
      return None;
    }

    method Postpone(a: Round, p: Option<Round>, now: Time)
      modifies this`rounds
      ensures Value() == Rules.Postpone(old(Value()), a, p, now)
    {
      hide ContestTypes.SaveRound;
      SaveRound(Extended(a, now));
      if p.Some? {
        SaveRound(Extended(p.value, now));
      }
    }

    // ---------- awards ----------

    method PayPrize(id: Id, prize: Prize)
      modifies this`wallets
      ensures wallets == Rules.PayPrize(old(wallets), id, prize)
    {
      if id in wallets {
        wallets := wallets[id := AddMedals(AddMoney(wallets[id], prize.gold), prize.medals)];
      }
    }

    /** Ranks are saved in order and the first three are paid on the way. */
    method SaveRanks(sorted: seq<Entry>) returns (ranked: seq<Entry>)
      modifies this`entries, this`wallets
      ensures |ranked| == |sorted| && forall i :: 0 <= i < |sorted| ==> ranked[i] == sorted[i].(rank := i + 1)
      ensures entries == SaveAll(old(entries), ranked) && wallets == PayPrizes(old(wallets), ranked)
    {
      hide Rules.SaveEntry, Rules.PayPrize;
      ranked := [];
      for i := 0 to |sorted|
        invariant |ranked| == i && forall j :: 0 <= j < i ==> ranked[j] == sorted[j].(rank := j + 1)
        invariant entries == SaveAll(old(entries), ranked) && wallets == PayPrizes(old(wallets), ranked)
      {
        var e := sorted[i].(rank := i + 1);
        assert (ranked + [e])[..i] == ranked;
        SaveEntry(e);
        if i < |PRIZES| {
          PayPrize(e.character, PRIZES[i]);
        }
        ranked := ranked + [e];
      }
    }

    method PayVoters(paying: seq<Vote>)
      modifies this`wallets
      ensures wallets == Rules.PayVoters(old(wallets), paying)
    {
      for i := 0 to |paying|
        invariant wallets == Rules.PayVoters(old(wallets), paying[..i])
      {
        assert paying[..i + 1][..i] == paying[..i];
        var voter := paying[i].voter;
        if voter in wallets {
          wallets := wallets[voter := AddMedals(wallets[voter], VOTER_BONUS)];
        }
      }
      assert paying[..|paying|] == paying;
    }

    method Award(a: Round, found: seq<Entry>)
      requires found == EntriesOf(entries, a.number) && |Sorted(found)| == |found|
      modifies this`entries, this`wallets, this`legends, this`paid
      ensures Value() == Rules.Award(old(Value()), a)
    {
      hide Sorted, SaveAll, PayPrizes, Rules.PayVoters, VotesFor, EntriesOf;
      if found == [] {
        return;
      }
      var ranked := SaveRanks(Sorted(found));
      assert ranked == Ranked(found);
      if |ranked| >= QUORUM {
        legends := legends[a.number := ranked[0].id];
      }
      var paying := ListVotes(ranked[0].id);
      PayVoters(paying);
      paid := paid + [a.number];
    }

    method NextRounds(a: Round, p: Option<Round>, quorate: bool, now: Time, ghost c: Contest)
      requires quorate == Quorate(c, p)
      modifies this`rounds
      ensures rounds == Rules.NextRounds(c, old(rounds), a, p, now)
    {
      hide ContestTypes.SaveRound, Quorate, Rules.Promote;
      if p.None? {
        SaveRound(Round(a.number + 1, Preparing, now, now + CYCLE));
      } else if quorate {
        Promote(p.value, now);
      } else {
        SaveRound(Extended(p.value, now));
      }
    }

    method Conclude(a: Round, found: seq<Entry>, p: Option<Round>, quorate: bool, now: Time)
      requires found == EntriesOf(entries, a.number) && |Sorted(found)| == |found| && quorate == Quorate(Value(), p)
      modifies this`rounds, this`entries, this`wallets, this`legends, this`paid
      ensures Value() == Rules.Conclude(old(Value()), a, p, now)
    {
      hide Rules.Award, Rules.NextRounds, ContestTypes.SaveRound, Quorate;
      ghost var c := Value();
      Award(a, found);
      SaveRound(a.(status := Settled));
      NextRounds(a, p, quorate, now, c);
      AwardKeepsRounds(c, a);
    }

    lemma AwardKeepsRounds(c: Contest, a: Round)
      ensures Rules.Award(c, a).rounds == c.rounds
    {
    }

    method Settle(force: bool, now: Time) returns (error: Option<Error>)
      modifies this`rounds, this`entries, this`wallets, this`legends, this`paid
      ensures error.None? ==> Rules.Settle(old(Value()), force, now) == Success(Value())
      ensures error.Some? ==> Rules.Settle(old(Value()), force, now) == Failure(error.value)
    {
      hide Rules.SettleWaiting, Latest, EntriesOf, Rules.Postpone, Rules.Promote, ContestTypes.SaveRound, Rules.Conclude, Sorted;
      var active := FindLatest(Active);
      if active.None? {
        error := SettleWaiting(force, now);
        return;
      }
      var a := active.value;
      if !force && now < a.end {
        return Some(NotReady);
      }
      var found := ListEntries(a.number);
      var p := FindLatest(Preparing);
      var quorate := false;
      if p.Some? {
        var waiting := ListEntries(p.value.number);
        quorate := |waiting| >= QUORUM;
      }
      if |found| == 0 {
        if quorate {
          SaveRound(a.(status := Settled));
          Promote(p.value, now);
        } else {
          Postpone(a, p, now);
        }
        return None;
      }
      if |found| < QUORUM && !quorate {
        Postpone(a, p, now);
        return None;
      }
      ContestRanking.SortedIs(found);
      Conclude(a, found, p, quorate, now);
      return None;
    }

    /** The database undoes a failed transaction. */
    method Rollback(before: seq<Round>)
      modifies this`rounds
      ensures rounds == before
    {
      rounds := before;
    }

    method SettleContest(force: bool, now: Time) returns (error: Option<Error>)
      modifies this`rounds, this`entries, this`wallets, this`legends, this`paid
      ensures error.None? ==> Rules.Settle(old(Value()), force, now) == Success(Value())
      ensures error.Some? ==> Rules.Settle(old(Value()), force, now) == Failure(error.value) && Value() == old(Value())
    {
      hide Rules.Settle;
      var roundsBefore, entriesBefore, walletsBefore, legendsBefore := rounds, entries, wallets, legends;
      ghost var paidBefore := paid;
      error := Settle(force, now);
      if error.Some? {
        rounds, entries, wallets, legends := roundsBefore, entriesBefore, walletsBefore, legendsBefore;
        paid := paidBefore;
      }
    }

    // ---------- entering and voting ----------

    method Enter(character: Id, title: string, id: Id, now: Time) returns (error: Option<Error>)
      modifies this`rounds, this`entries
      ensures error.None? ==> Rules.Enter(old(Value()), character, title, id, now) == Success(Value())
      ensures error.Some? ==> Rules.Enter(old(Value()), character, title, id, now) == Failure(error.value) && Value() == old(Value())
    {
      hide Latest, Rules.EnsurePreparing, Rules.SaveEntry;
      if character !in wallets {
        return Some(CharacterNotFound);
      }
      var active := FindLatest(Active);
      if active.Some? && Entered(entries, active.value.number, character) {
        return Some(ConsecutiveEntry);
      }
      var before := rounds;
      var p := EnsurePreparing(now);
      if Entered(entries, p.number, character) {
        Rollback(before);
        return Some(AlreadyEntered);
      }
      if TitleTaken(entries, p.number, title) {
        Rollback(before);
        return Some(DuplicateTitle);
      }
      SaveEntry(Entry(id, p.number, character, title, 0, 0, now));
      return None;
    }

    method IncrementVotes(id: Id)
      modifies this`entries
      ensures entries == Voted(old(entries), id)
    {
      var before := entries;
      for i := 0 to |before|
        invariant |entries| == |before|
        invariant forall j :: 0 <= j < i ==> entries[j] == Voted(before, id)[j]
        invariant forall j :: i <= j < |before| ==> entries[j] == before[j]
      {
        if entries[i].id == id {
          entries := entries[i := entries[i].(votes := entries[i].votes + 1)];
        }
      }
      assert entries == Voted(before, id);
    }

    method CastVote(voter: Id, id: Id) returns (error: Option<Error>)
      modifies this`votes, this`entries
      ensures error.None? ==> Rules.CastVote(old(Value()), voter, id) == Success(Value())
      ensures error.Some? ==> Rules.CastVote(old(Value()), voter, id) == Failure(error.value) && Value() == old(Value())
    {
      hide Latest, EntryAt, Voted;
      if voter !in wallets {
        return Some(CharacterNotFound);
      }
      var active := FindLatest(Active);
      if active.None? {
        return Some(NotActive);
      }
      if HasVoted(votes, active.value.number, voter) {
        return Some(AlreadyVoted);
      }
      var e := EntryAt(entries, id);
      if e.None? || e.value.round != active.value.number {
        return Some(EntryNotFound);
      }
      votes := votes + [Vote(active.value.number, id, voter)];
      IncrementVotes(id);
      return None;
    }

    // ---------- the schedule ----------

    method IsScheduled(target: Round) returns (found: bool)
      ensures found == exists a :: a in actions && Serves(a, target.number, target.end)
    {
      for i := 0 to |actions|
        invariant forall j :: 0 <= j < i ==> !Serves(actions[j], target.number, target.end)
      {
        if Serves(actions[i], target.number, target.end) {
          assert actions[i] in actions;
          return true;
        }
      }
      return false;
    }

    method Reconcile(now: Time, nonce: string)
      modifies this`rounds, this`actions
      ensures Whole() == Rules.Reconcile(old(Whole()), now, nonce)
    {
      hide Latest, Rules.EnsurePreparing, ParseActionId, ActionId;
      var target: Round;
      var active := FindLatest(Active);
      if active.Some? {
        target := active.value;
      } else {
        target := EnsurePreparing(now);
      }
      var scheduled := IsScheduled(target);
      if scheduled {
        return;
      }
      if target.number < 0 || target.end < 0 {
        return;
      }
      actions := actions + [Action(ActionId(target.number, target.end) + ":" + nonce, target.end, Pending)];
    }

    method IsAnswered(seen: seq<Round>, parsed: Option<(int, Time)>) returns (answered: bool)
      ensures answered == (parsed.Some? && (RoundAt(seen, parsed.value.0).None? || RoundAt(seen, parsed.value.0).value.status == Settled
        || parsed.value.1 < RoundAt(seen, parsed.value.0).value.end))
    {
      if parsed.None? {
        return false;
      }
      var (number, target) := parsed.value;
      var r: Option<Round> := None;
      for i := 0 to |seen|
        invariant r == RoundAt(seen[..i], number)
      {
        assert seen[..i + 1][..i] == seen[..i];
        if seen[i].number == number {
          r := Some(seen[i]);
        }
      }
      assert seen[..|seen|] == seen;
      return r.None? || r.value.status == Settled || target < r.value.end;
    }

    method Handle(seen: seq<Round>, ghost before: Contest, id: string, now: Time, nonce: string) returns (error: Option<Error>)
      requires before.rounds == seen
      modifies this`rounds, this`entries, this`wallets, this`legends, this`paid, this`actions
      ensures (Whole(), error) == Rules.Handle(before, old(Whole()), id, now, nonce)
    {
      hide Rules.Settle, Rules.Reconcile, ParseActionId, RoundAt;
      var parsed := ParseActionId(id);
      var answered := IsAnswered(seen, parsed);
      if answered {
        Reconcile(now, nonce);
        return None;
      }
      error := SettleContest(false, now);
      if error.None? {
        Reconcile(now, nonce);
        return;
      }
      answered := IsAnswered(rounds, parsed);
      if answered && RoundAt(rounds, parsed.value.0).Some? {
        Reconcile(now, nonce);
        return None;
      }
    }

    /** The worker's processing of one action; a stop leaves it marked as being processed. */
    method Work(k: nat, now: Time, nonce: string, stop: Stop)
      modifies this`rounds, this`entries, this`wallets, this`legends, this`paid, this`actions
      ensures Whole() == Rules.Work(old(Whole()), k, now, nonce, stop)
    {
      hide Rules.Handle, UnixSeconds;
      if k >= |actions| || actions[k].state != Pending || UnixSeconds(actions[k].at) > UnixSeconds(now) {
        return;
      }
      var id := actions[k].id;
      actions := actions[k := actions[k].(state := Processing)];
      if stop == BeforeHandler {
        return;
      }
      ghost var seen := Value();
      var error := Handle(rounds, seen, id, now, nonce);
      if stop == BeforeSaving {
        return;
      }
      if k < |actions| {
        actions := actions[k := actions[k].(state := if error.None? then Completed else Failed)];
      }
    }
  }
}

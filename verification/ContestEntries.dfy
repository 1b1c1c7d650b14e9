/** Entries, votes and paid rounds stay consistent with the line of rounds. */
module ContestEntries {
  import opened Common
  import opened ContestTypes
  import opened ContestRules
  import opened ContestRounds
  import opened ContestRanking

  ghost predicate DistinctIds(entries: seq<Entry>) {
    forall i, j :: 0 <= i < j < |entries| ==> entries[i].id != entries[j].id
  }

  predicate InStatus(rounds: seq<Round>, number: int, status: Status) {
    1 <= number <= |rounds| && rounds[number - 1].status == status
  }

  /** One entry a character and a title a round, and nobody in the running and the waiting round at once. */
  ghost predicate EntriesOk(c: Contest) {
    && DistinctIds(c.entries)
    && (forall i :: 0 <= i < |c.entries| ==> 1 <= c.entries[i].round <= |c.rounds|)
    && (forall i, j :: 0 <= i < j < |c.entries| && c.entries[i].round == c.entries[j].round ==>
          c.entries[i].character != c.entries[j].character && c.entries[i].title != c.entries[j].title)
    && NoConsecutive(c.rounds, c.entries)
  }

  predicate Apart(rounds: seq<Round>, e: Entry, f: Entry) {
    InStatus(rounds, e.round, Active) && InStatus(rounds, f.round, Preparing) ==> e.character != f.character
  }

  ghost predicate NoConsecutive(rounds: seq<Round>, entries: seq<Entry>) {
    forall i, j :: 0 <= i < |entries| && 0 <= j < |entries| ==> Apart(rounds, entries[i], entries[j])
  }

  predicate For(v: Vote, e: Entry) {
    e.id == v.entry && e.round == v.round
  }

  /** One vote a voter a round, each for an entry of its round, and counted there. */
  ghost predicate VotesOk(c: Contest) {
    && (forall i, j :: 0 <= i < j < |c.votes| ==> c.votes[i].round != c.votes[j].round || c.votes[i].voter != c.votes[j].voter)
    && (forall k :: 0 <= k < |c.votes| ==> Backed(c.entries, c.votes[k]))
    && (forall i :: 0 <= i < |c.entries| ==> c.entries[i].votes == |VotesFor(c.votes, c.entries[i].id)|)
  }

  predicate Backed(entries: seq<Entry>, v: Vote) {
    exists i :: 0 <= i < |entries| && For(v, entries[i])
  }

  ghost predicate PaidOk(c: Contest) {
    NoDuplicates(c.paid) && forall r :: r in c.paid ==> InStatus(c.rounds, r, Settled)
  }

  ghost predicate ContestOk(c: Contest) {
    RoundsOk(c.rounds) && EntriesOk(c) && VotesOk(c) && PaidOk(c)
  }

  // ---------- moving the line ----------

  lemma WasRunning(before: seq<Round>, after: seq<Round>, running: int, waiting: int)
    requires RoundsOk(before) && RoundsOk(after) && Advances(before, after)
    requires 1 <= running <= |before| && 1 <= waiting <= |before|
    requires InStatus(after, running, Active) && InStatus(after, waiting, Preparing)
    ensures InStatus(before, running, Active) && InStatus(before, waiting, Preparing)
  {
    var i, j := running - 1, waiting - 1;
    assert Rank(before[i].status) <= Rank(after[i].status) && Rank(before[j].status) <= Rank(after[j].status);
    assert i < j ==> Follows(before[i].status, before[j].status);
    assert j < i ==> Follows(before[j].status, before[i].status);
  }

  lemma NoConsecutiveOn(before: seq<Round>, after: seq<Round>, entries: seq<Entry>)
    requires RoundsOk(before) && RoundsOk(after) && Advances(before, after) && NoConsecutive(before, entries)
    requires forall i :: 0 <= i < |entries| ==> 1 <= entries[i].round <= |before|
    ensures NoConsecutive(after, entries)
  {
    forall i, j | 0 <= i < |entries| && 0 <= j < |entries| ensures Apart(after, entries[i], entries[j]) {
      assert Apart(before, entries[i], entries[j]);
      if InStatus(after, entries[i].round, Active) && InStatus(after, entries[j].round, Preparing) {
        WasRunning(before, after, entries[i].round, entries[j].round);
      }
    }
  }

  /** A transaction that only moves rounds keeps everything. */
  lemma LineKeepsOk(c: Contest, d: Contest, now: Time)
    requires ContestOk(c) && d == c.(rounds := d.rounds) && Line(c.rounds, d.rounds, now)
    ensures ContestOk(d)
  {
    NoConsecutiveOn(c.rounds, d.rounds, c.entries);
  }

  // ---------- lists of a round ----------

  lemma {:induction false} EntriesOfAre(entries: seq<Entry>, round: int, e: Entry)
    ensures e in EntriesOf(entries, round) <==> e in entries && e.round == round
    decreases |entries|
  {
    if entries != [] {
      EntriesOfAre(entries[..|entries| - 1], round, e);
      assert e in entries <==> e in entries[..|entries| - 1] || e == entries[|entries| - 1];
    }
  }

  predicate Unlike(e: Entry, f: Entry) {
    e.id != f.id && e.character != f.character
  }

  lemma EntriesOfUnlike(entries: seq<Entry>, round: int, last: Entry, k: nat)
    requires forall i :: 0 <= i < |entries| && entries[i].round == round ==> Unlike(entries[i], last)
    requires k < |EntriesOf(entries, round)|
    ensures Unlike(EntriesOf(entries, round)[k], last)
  {
    var e := EntriesOf(entries, round)[k];
    EntriesOfAre(entries, round, e);
    var i :| 0 <= i < |entries| && entries[i] == e;
  }

  lemma {:induction false} EntriesOfDistinct(entries: seq<Entry>, round: int)
    requires forall i, j :: 0 <= i < j < |entries| && entries[i].round == entries[j].round ==> Unlike(entries[i], entries[j])
    ensures forall i, j :: 0 <= i < j < |EntriesOf(entries, round)| ==> Unlike(EntriesOf(entries, round)[i], EntriesOf(entries, round)[j])
    decreases |entries|
  {
    if entries != [] {
      hide Unlike;
      var n := |entries| - 1;
      EntriesOfDistinct(entries[..n], round);
      if entries[n].round == round {
        forall k | 0 <= k < |EntriesOf(entries[..n], round)| ensures Unlike(EntriesOf(entries[..n], round)[k], entries[n]) {
          EntriesOfUnlike(entries[..n], round, entries[n], k);
        }
      }
    }
  }

  lemma RoundEntriesDistinct(c: Contest, round: int)
    requires EntriesOk(c)
    ensures DistinctIds(EntriesOf(c.entries, round)) && DistinctCharacters(EntriesOf(c.entries, round))
  {
    hide NoConsecutive;
    EntriesOfDistinct(c.entries, round);
  }

  lemma {:induction false} CountedTwice<T>(s: seq<T>, i: nat, j: nat)
    requires i < j < |s| && s[i] == s[j]
    ensures multiset(s)[s[i]] >= 2
    decreases |s|
  {
    var n := |s| - 1;
    assert s == s[..n] + [s[n]];
    if j < n {
      CountedTwice(s[..n], i, j);
    } else {
      assert s[..n][i] in multiset(s[..n]);
    }
  }

  lemma {:induction false} CountedOnce<T>(s: seq<T>, x: T)
    requires forall i, j :: 0 <= i < j < |s| ==> s[i] != s[j]
    ensures multiset(s)[x] <= 1
    decreases |s|
  {
    if s != [] {
      var n := |s| - 1;
      assert s == s[..n] + [s[n]];
      CountedOnce(s[..n], x);
      if s[n] == x {
        assert x !in s[..n];
        assert x !in multiset(s[..n]);
      }
    }
  }

  lemma RankedEntry(entries: seq<Entry>, i: nat)
    requires i < |Sorted(entries)|
    ensures Sorted(entries)[i] in entries
  {
    SortedIs(entries);
    assert Sorted(entries)[i] in multiset(Sorted(entries));
    assert Sorted(entries)[i] in multiset(entries);
  }

  /** Ranking keeps identifiers and characters apart. */
  lemma RankedDistinct(entries: seq<Entry>)
    requires DistinctIds(entries) && DistinctCharacters(entries)
    ensures DistinctIds(Ranked(entries)) && DistinctCharacters(Ranked(entries))
  {
    var sorted := Sorted(entries);
    SortedIs(entries);
    forall i, j | 0 <= i < j < |sorted|
      ensures sorted[i].id != sorted[j].id && sorted[i].character != sorted[j].character
    {
      RankedEntry(entries, i);
      RankedEntry(entries, j);
      if sorted[i] == sorted[j] {
        CountedTwice(sorted, i, j);
        CountedOnce(entries, sorted[i]);
      }
      var k :| 0 <= k < |entries| && entries[k] == sorted[i];
      var l :| 0 <= l < |entries| && entries[l] == sorted[j];
    }
  }

  // ---------- saving ranks ----------

  /** Nothing but ranks differs. */
  ghost predicate Reranked(before: seq<Entry>, after: seq<Entry>) {
    |after| == |before| && forall i :: 0 <= i < |after| ==> after[i] == before[i].(rank := after[i].rank)
  }

  lemma {:induction false} EntryIndexIs(entries: seq<Entry>, id: Id)
    ensures EntryIndex(entries, id) < 0 ==> forall i :: 0 <= i < |entries| ==> entries[i].id != id
    decreases |entries|
  {
    if entries != [] {
      EntryIndexIs(entries[..|entries| - 1], id);
    }
  }

  ghost predicate Reranks(entries: seq<Entry>, e: Entry) {
    exists i :: 0 <= i < |entries| && e == entries[i].(rank := e.rank)
  }

  lemma SaveEntryReranks(entries: seq<Entry>, now: seq<Entry>, e: Entry)
    requires DistinctIds(entries) && Reranked(entries, now) && Reranks(entries, e)
    ensures Reranked(entries, SaveEntry(now, e))
  {
    var i :| 0 <= i < |entries| && e == entries[i].(rank := e.rank);
    EntryIndexIs(now, e.id);
    assert now[i].id == e.id;
    var k := EntryIndex(now, e.id);
    assert entries[k].id == e.id;
  }

  lemma {:induction false} SaveAllReranks(entries: seq<Entry>, saved: seq<Entry>)
    requires DistinctIds(entries) && forall e :: e in saved ==> Reranks(entries, e)
    ensures Reranked(entries, SaveAll(entries, saved))
    decreases |saved|
  {
    if saved != [] {
      SaveAllReranks(entries, saved[..|saved| - 1]);
      SaveEntryReranks(entries, SaveAll(entries, saved[..|saved| - 1]), saved[|saved| - 1]);
    }
  }

  lemma SaveEntryHolds(entries: seq<Entry>, e: Entry, other: Entry)
    ensures e in SaveEntry(entries, e)
    ensures other in entries && other.id != e.id ==> other in SaveEntry(entries, e)
  {
    var i := EntryIndex(entries, e.id);
    var after := SaveEntry(entries, e);
    if i >= 0 {
      assert after[i] == e;
    }
    if other in entries && other.id != e.id {
      var j :| 0 <= j < |entries| && entries[j] == other;
      assert after[j] == other;
    }
  }

  lemma {:induction false} SaveAllHolds(entries: seq<Entry>, saved: seq<Entry>, k: nat)
    requires DistinctIds(saved) && k < |saved|
    ensures saved[k] in SaveAll(entries, saved)
    decreases |saved|
  {
    var n := |saved| - 1;
    if k < n {
      SaveAllHolds(entries, saved[..n], k);
    }
    SaveEntryHolds(SaveAll(entries, saved[..n]), saved[n], saved[k]);
  }

  lemma RankedReranks(c: Contest, round: int)
    ensures forall e :: e in Ranked(EntriesOf(c.entries, round)) ==> Reranks(c.entries, e)
  {
    var found := EntriesOf(c.entries, round);
    var ranked := Ranked(found);
    forall e | e in ranked ensures Reranks(c.entries, e) {
      var i :| 0 <= i < |ranked| && ranked[i] == e;
      RankedEntry(found, i);
      EntriesOfAre(c.entries, round, Sorted(found)[i]);
      var k :| 0 <= k < |c.entries| && c.entries[k] == Sorted(found)[i];
      assert e == c.entries[k].(rank := e.rank);
    }
  }

  /** Identity, round, character and title are the same entry by entry. */
  ghost predicate SameKeys(before: seq<Entry>, after: seq<Entry>) {
    |after| == |before| && forall i :: 0 <= i < |after| ==>
      && after[i].id == before[i].id && after[i].round == before[i].round
      && after[i].character == before[i].character && after[i].title == before[i].title
  }

  lemma SameKeysOk(c: Contest, d: Contest)
    requires EntriesOk(c) && SameKeys(c.entries, d.entries) && d.rounds == c.rounds
    ensures EntriesOk(d)
  {
  }

  lemma StillBacked(before: seq<Entry>, after: seq<Entry>, v: Vote)
    requires SameKeys(before, after) && Backed(before, v)
    ensures Backed(after, v)
  {
    var i :| 0 <= i < |before| && For(v, before[i]);
    assert For(v, after[i]);
  }

  lemma RerankedOk(c: Contest, d: Contest)
    requires EntriesOk(c) && VotesOk(c) && Reranked(c.entries, d.entries) && d.rounds == c.rounds && d.votes == c.votes
    ensures EntriesOk(d) && VotesOk(d)
  {
    hide Backed, VotesFor, NoConsecutive;
    assert SameKeys(c.entries, d.entries);
    SameKeysOk(c, d);
    forall k | 0 <= k < |d.votes| ensures Backed(d.entries, d.votes[k]) {
      StillBacked(c.entries, d.entries, d.votes[k]);
    }
  }

  // ---------- votes ----------

  lemma {:induction false} VotesForAre(votes: seq<Vote>, entry: Id, v: Vote)
    ensures v in VotesFor(votes, entry) <==> v in votes && v.entry == entry
    decreases |votes|
  {
    if votes != [] {
      VotesForAre(votes[..|votes| - 1], entry, v);
      assert v in votes <==> v in votes[..|votes| - 1] || v == votes[|votes| - 1];
    }
  }

  lemma {:induction false} VotesForDistinct(votes: seq<Vote>, entry: Id)
    requires forall i, j :: 0 <= i < j < |votes| ==> votes[i].round != votes[j].round || votes[i].voter != votes[j].voter
    requires forall v, w :: v in votes && w in votes && v.entry == w.entry ==> v.round == w.round
    ensures DistinctVoters(VotesFor(votes, entry))
    decreases |votes|
  {
    if votes != [] {
      var n := |votes| - 1;
      VotesForDistinct(votes[..n], entry);
      forall v | v in VotesFor(votes[..n], entry) ensures v in votes[..n] && v.entry == entry {
        VotesForAre(votes[..n], entry, v);
      }
    }
  }

  lemma VoteRoundsAgree(c: Contest, v: Vote, w: Vote)
    requires EntriesOk(c) && VotesOk(c) && v in c.votes && w in c.votes && v.entry == w.entry
    ensures v.round == w.round
  {
    var i :| 0 <= i < |c.entries| && For(v, c.entries[i]);
    var j :| 0 <= j < |c.entries| && For(w, c.entries[j]);
  }

  lemma {:induction false} EntryAtIs(entries: seq<Entry>, id: Id)
    ensures EntryAt(entries, id).Some? ==> EntryAt(entries, id).value in entries && EntryAt(entries, id).value.id == id
    decreases |entries|
  {
    if entries != [] {
      EntryAtIs(entries[..|entries| - 1], id);
    }
  }

  lemma VoteKeepsOk(c: Contest, voter: Id, id: Id)
    requires ContestOk(c) && CastVote(c, voter, id).Success?
    ensures ContestOk(CastVote(c, voter, id).value)
  {
    hide NoConsecutive, Backed, RoundsOk;
    var d := CastVote(c, voter, id).value;
    assert SameKeys(c.entries, d.entries);
    SameKeysOk(c, d);
    VoteIsCounted(c, d, voter, id);
  }

  lemma VotesStayBacked(c: Contest, d: Contest, voter: Id, id: Id)
    requires (forall k :: 0 <= k < |c.votes| ==> Backed(c.entries, c.votes[k])) && CastVote(c, voter, id) == Success(d) && SameKeys(c.entries, d.entries)
    ensures forall k :: 0 <= k < |d.votes| ==> Backed(d.entries, d.votes[k])
  {
    EntryAtIs(c.entries, id);
    var v := d.votes[|c.votes|];
    forall k | 0 <= k < |d.votes| ensures Backed(d.entries, d.votes[k]) {
      if k < |c.votes| {
        StillBacked(c.entries, d.entries, c.votes[k]);
      } else {
        var e := EntryAt(c.entries, id).value;
        var i :| 0 <= i < |c.entries| && c.entries[i] == e;
        assert For(v, d.entries[i]);
      }
    }
  }

  lemma VoteIsCounted(c: Contest, d: Contest, voter: Id, id: Id)
    requires EntriesOk(c) && VotesOk(c) && CastVote(c, voter, id) == Success(d) && SameKeys(c.entries, d.entries)
    ensures VotesOk(d)
  {
    hide NoConsecutive;
    VotesStayBacked(c, d, voter, id);
    hide Backed, For;
    assert d.votes[..|c.votes|] == c.votes;
    forall i | 0 <= i < |d.entries| ensures d.entries[i].votes == |VotesFor(d.votes, d.entries[i].id)| {
      assert c.entries[i].votes == |VotesFor(c.votes, c.entries[i].id)|;
    }
  }

  // ---------- entering ----------

  ghost predicate FreshId(c: Contest, id: Id) {
    forall e :: e in c.entries ==> e.id != id
  }

  lemma EnterKeepsOk(c: Contest, character: Id, title: string, id: Id, now: Time)
    requires ContestOk(c) && FreshId(c, id) && Enter(c, character, title, id, now).Success?
    ensures ContestOk(Enter(c, character, title, id, now).value)
    ensures Line(c.rounds, Enter(c, character, title, id, now).value.rounds, now)
  {
    hide EntriesOk, VotesOk, PaidOk;
    EnsureKeepsLine(c, now);
    var (d, p) := EnsurePreparing(c, now);
    LineKeepsOk(c, d, now);
    LatestIs(d.rounds, Preparing);
    var e := Entry(id, p.number, character, title, 0, 0, now);
    EntryIndexIs(d.entries, id);
    var f := Enter(c, character, title, id, now).value;
    assert EntryIndex(d.entries, id) < 0;
    assert f == d.(entries := d.entries + [e]);
    AppendedEntry(d, f, e);
  }

  lemma AppendedEntry(d: Contest, f: Contest, e: Entry)
    requires ContestOk(d) && f == d.(entries := d.entries + [e]) && FreshId(d, e.id) && e.votes == 0
    requires InStatus(d.rounds, e.round, Preparing)
    requires !Entered(d.entries, e.round, e.character) && !TitleTaken(d.entries, e.round, e.title)
    requires Latest(d.rounds, Active).Some? ==> !Entered(d.entries, Latest(d.rounds, Active).value.number, e.character)
    ensures ContestOk(f)
  {
    hide VotesFor, Latest, RoundsOk;
    AppendedKeys(d, f, e);
    AppendedVotes(d, f, e);
  }

  lemma AppendedKeys(d: Contest, f: Contest, e: Entry)
    requires RoundsOk(d.rounds) && EntriesOk(d) && f == d.(entries := d.entries + [e]) && FreshId(d, e.id)
    requires InStatus(d.rounds, e.round, Preparing)
    requires !Entered(d.entries, e.round, e.character) && !TitleTaken(d.entries, e.round, e.title)
    requires Latest(d.rounds, Active).Some? ==> !Entered(d.entries, Latest(d.rounds, Active).value.number, e.character)
    ensures EntriesOk(f)
  {
    hide Latest, RoundsOk;
    var n := |d.entries|;
    forall i | 0 <= i < n ensures f.entries[i] == d.entries[i] && f.entries[i] in d.entries {
    }
    forall i | 0 <= i < n ensures Apart(d.rounds, d.entries[i], e) {
      if InStatus(d.rounds, d.entries[i].round, Active) {
        OneActive(d.rounds, d.entries[i].round);
        assert d.entries[i] in d.entries;
      }
    }
  }

  lemma AppendedVotes(d: Contest, f: Contest, e: Entry)
    requires VotesOk(d) && f == d.(entries := d.entries + [e]) && FreshId(d, e.id) && e.votes == 0
    ensures VotesOk(f)
  {
    hide VotesFor;
    var n := |d.entries|;
    NoVotesYet(d, e.id, d.votes);
    forall k | 0 <= k < |f.votes| ensures Backed(f.entries, f.votes[k]) {
      assert Backed(d.entries, d.votes[k]);
      var i :| 0 <= i < n && For(d.votes[k], d.entries[i]);
      assert For(f.votes[k], f.entries[i]);
    }
  }

  lemma OneActive(rounds: seq<Round>, number: int)
    requires RoundsOk(rounds) && InStatus(rounds, number, Active)
    ensures Latest(rounds, Active).Some? && Latest(rounds, Active).value.number == number
  {
    LatestIs(rounds, Active);
    var i := Latest(rounds, Active).value.number - 1;
  }

  lemma {:induction false} NoVotesYet(d: Contest, id: Id, votes: seq<Vote>)
    requires FreshId(d, id) && VotesOk(d) && forall v :: v in votes ==> v in d.votes
    ensures VotesFor(votes, id) == []
    decreases |votes|
  {
    if votes != [] {
      NoVotesYet(d, id, votes[..|votes| - 1]);
      var v := votes[|votes| - 1];
      assert v in d.votes;
      var i :| 0 <= i < |d.entries| && For(v, d.entries[i]);
      assert d.entries[i] in d.entries;
    }
  }

  // ---------- settling ----------

  lemma AwardKeepsEntries(c: Contest, a: Round)
    requires EntriesOk(c) && VotesOk(c)
    ensures var d := Award(c, a);
      && EntriesOk(d) && VotesOk(d) && Reranked(c.entries, d.entries) && d.rounds == c.rounds && d.votes == c.votes
      && d.paid == (if EntriesOf(c.entries, a.number) == [] then c.paid else c.paid + [a.number])
  {
    var found := EntriesOf(c.entries, a.number);
    var ranked := Ranked(found);
    SortedIs(found);
    if ranked != [] {
      RankedReranks(c, a.number);
      SaveAllReranks(c.entries, ranked);
      RerankedOk(c, Award(c, a));
    }
  }

  lemma SettleKeepsOk(c: Contest, force: bool, now: Time)
    requires ContestOk(c) && Settle(c, force, now).Success?
    ensures ContestOk(Settle(c, force, now).value)
  {
    SettleKeepsLine(c, force, now);
    var d := Settle(c, force, now).value;
    var active, p := Latest(c.rounds, Active), Latest(c.rounds, Preparing);
    if active.Some? && d == Conclude(c, active.value, p, now) {
      ConcludeKeepsOk(c, active.value, p, now);
    } else {
      EnsureKeepsLine(c, now);
      assert d == c.(rounds := d.rounds);
      LineKeepsOk(c, d, now);
    }
  }

  lemma ConcludeKeepsOk(c: Contest, a: Round, p: Option<Round>, now: Time)
    requires ContestOk(c) && Latest(c.rounds, Active) == Some(a) && p == Latest(c.rounds, Preparing)
    ensures ContestOk(Conclude(c, a, p, now))
  {
    hide Award, NextRounds, RoundsOk, VotesOk, NoConsecutive, Reranked;
    var d := Conclude(c, a, p, now);
    var awarded := Award(c, a);
    AwardKeepsEntries(c, a);
    NextKeepsLine(c, a, p, now);
    EntriesOnLine(awarded, d, now);
    VotesStay(awarded, d);
    PaidOnce(c, d, a);
  }

  lemma EntriesOnLine(c: Contest, d: Contest, now: Time)
    requires EntriesOk(c) && RoundsOk(c.rounds) && d.entries == c.entries && Line(c.rounds, d.rounds, now)
    ensures EntriesOk(d)
  {
    NoConsecutiveOn(c.rounds, d.rounds, c.entries);
  }

  lemma VotesStay(c: Contest, d: Contest)
    requires VotesOk(c) && d.entries == c.entries && d.votes == c.votes
    ensures VotesOk(d)
  {
  }

  lemma PaidOnce(c: Contest, d: Contest, a: Round)
    requires PaidOk(c) && RoundsOk(c.rounds) && Latest(c.rounds, Active) == Some(a) && Advances(c.rounds, d.rounds)
    requires InStatus(d.rounds, a.number, Settled) && (d.paid == c.paid || d.paid == c.paid + [a.number])
    ensures PaidOk(d)
  {
    LatestIs(c.rounds, Active);
    assert InStatus(c.rounds, a.number, Active);
    assert a.number !in c.paid;
    forall r | r in d.paid ensures InStatus(d.rounds, r, Settled) {
      if r != a.number {
        assert r in c.paid;
        assert InStatus(c.rounds, r, Settled);
      }
    }
  }
}

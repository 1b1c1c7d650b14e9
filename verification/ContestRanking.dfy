/** Ranking, and exactly what the prizes and the voters' bonus add to every wallet. */
module ContestRanking {
  import opened Common
  import opened ContestTypes
  import opened ContestRules

  /** More votes come first, and among equals whoever entered earlier. */
  ghost predicate InOrder(entries: seq<Entry>) {
    forall i, j :: 0 <= i < j < |entries| ==>
      entries[i].votes > entries[j].votes || (entries[i].votes == entries[j].votes && entries[i].at <= entries[j].at)
  }

  lemma {:induction false} InsertPermutes(sorted: seq<Entry>, e: Entry)
    ensures multiset(Insert(sorted, e)) == multiset(sorted) + multiset{e}
    decreases |sorted|
  {
    if sorted != [] && Ahead(e, sorted[|sorted| - 1]) {
      var n := |sorted| - 1;
      assert sorted == sorted[..n] + [sorted[n]];
      InsertPermutes(sorted[..n], e);
    }
  }

  lemma InsertMember(sorted: seq<Entry>, e: Entry, x: Entry)
    ensures x in Insert(sorted, e) <==> x in sorted || x == e
  {
    InsertPermutes(sorted, e);
    assert x in Insert(sorted, e) <==> x in multiset(Insert(sorted, e));
  }

  lemma {:induction false} InsertIs(sorted: seq<Entry>, e: Entry)
    requires InOrder(sorted)
    ensures InOrder(Insert(sorted, e))
    decreases |sorted|
  {
    if sorted != [] && Ahead(e, sorted[|sorted| - 1]) {
      var n := |sorted| - 1;
      InsertIs(sorted[..n], e);
      var rest := Insert(sorted[..n], e);
      forall k | 0 <= k < |rest| ensures rest[k].votes > sorted[n].votes || (rest[k].votes == sorted[n].votes && rest[k].at <= sorted[n].at) {
        InsertMember(sorted[..n], e, rest[k]);
      }
    }
  }

  /** Ranking is a permutation of the entries, by votes and then by time of entry. */
  lemma {:induction false} SortedIs(entries: seq<Entry>)
    ensures InOrder(Sorted(entries)) && multiset(Sorted(entries)) == multiset(entries) && |Sorted(entries)| == |entries|
    decreases |entries|
  {
    if entries != [] {
      var n := |entries| - 1;
      SortedIs(entries[..n]);
      InsertIs(Sorted(entries[..n]), entries[n]);
      InsertPermutes(Sorted(entries[..n]), entries[n]);
      assert entries == entries[..n] + [entries[n]];
      assert |multiset(Sorted(entries))| == |multiset(entries)|;
    }
  }

  /** Entries neither of which is ahead keep the order they were listed in. */
  ghost predicate ListedBefore(entries: seq<Entry>, a: Entry, b: Entry) {
    exists i, j :: 0 <= i < j < |entries| && entries[i] == a && entries[j] == b
  }

  lemma {:induction false} InsertKeepsBefore(sorted: seq<Entry>, e: Entry, a: Entry, b: Entry)
    requires ListedBefore(sorted, a, b)
    ensures ListedBefore(Insert(sorted, e), a, b)
    decreases |sorted|
  {
    var i, j :| 0 <= i < j < |sorted| && sorted[i] == a && sorted[j] == b;
    var n := |sorted| - 1;
    if Ahead(e, sorted[n]) {
      var rest := Insert(sorted[..n], e);
      if j < n {
        assert sorted[..n][i] == a && sorted[..n][j] == b;
        InsertKeepsBefore(sorted[..n], e, a, b);
        var k, l :| 0 <= k < l < |rest| && rest[k] == a && rest[l] == b;
        assert Insert(sorted, e)[k] == a && Insert(sorted, e)[l] == b;
      } else {
        InsertContains(sorted[..n], e, i);
        var k :| 0 <= k < |rest| && rest[k] == a;
        assert Insert(sorted, e)[k] == a && Insert(sorted, e)[|rest|] == b;
      }
    } else {
      assert Insert(sorted, e)[i] == a && Insert(sorted, e)[j] == b;
    }
  }

  lemma {:induction false} InsertContains(sorted: seq<Entry>, e: Entry, i: nat)
    requires i < |sorted|
    ensures exists k :: 0 <= k < |Insert(sorted, e)| && Insert(sorted, e)[k] == sorted[i]
    decreases |sorted|
  {
    var n := |sorted| - 1;
    if Ahead(e, sorted[n]) {
      if i < n {
        InsertContains(sorted[..n], e, i);
        var k :| 0 <= k < |Insert(sorted[..n], e)| && Insert(sorted[..n], e)[k] == sorted[..n][i];
        assert Insert(sorted, e)[k] == sorted[i];
      } else {
        assert Insert(sorted, e)[|Insert(sorted[..n], e)|] == sorted[i];
      }
    } else {
      assert Insert(sorted, e)[i] == sorted[i];
    }
  }

  lemma {:induction false} InsertGoesBehind(sorted: seq<Entry>, e: Entry, a: Entry)
    requires a in sorted && !Ahead(e, a) && InOrder(sorted)
    ensures ListedBefore(Insert(sorted, e), a, e)
    decreases |sorted|
  {
    var n := |sorted| - 1;
    if Ahead(e, sorted[n]) {
      assert a != sorted[n];
      assert a in sorted[..n];
      InsertGoesBehind(sorted[..n], e, a);
      var rest := Insert(sorted[..n], e);
      var i, j :| 0 <= i < j < |rest| && rest[i] == a && rest[j] == e;
      assert Insert(sorted, e)[i] == a && Insert(sorted, e)[j] == e;
    } else {
      var i :| 0 <= i < |sorted| && sorted[i] == a;
      assert Insert(sorted, e)[i] == a && Insert(sorted, e)[|sorted|] == e;
    }
  }

  /** The sort is stable: full ties keep the listed order. */
  lemma {:induction false} SortedIsStable(entries: seq<Entry>, i: nat, j: nat)
    requires i < j < |entries|
    requires entries[i].votes > entries[j].votes || (entries[i].votes == entries[j].votes && entries[i].at <= entries[j].at)
    ensures ListedBefore(Sorted(entries), entries[i], entries[j])
    decreases |entries|
  {
    hide Insert, ListedBefore, InOrder;
    var n := |entries| - 1;
    SortedIs(entries[..n]);
    if j < n {
      SortedIsStable(entries[..n], i, j);
      InsertKeepsBefore(Sorted(entries[..n]), entries[n], entries[i], entries[j]);
    } else {
      assert entries[..n][i] in multiset(entries[..n]);
      assert entries[i] in multiset(Sorted(entries[..n]));
      InsertGoesBehind(Sorted(entries[..n]), entries[n], entries[i]);
    }
  }

  // ---------- prizes ----------

  ghost predicate DistinctCharacters(entries: seq<Entry>) {
    forall i, j :: 0 <= i < j < |entries| ==> entries[i].character != entries[j].character
  }

  predicate PrizeRank(ranked: seq<Entry>, x: Id, k: nat) {
    k < |ranked| && k < |PRIZES| && ranked[k].character == x
  }

  function WithPrize(w: Wallet, prize: Prize): Wallet {
    AddMedals(AddMoney(w, prize.gold), prize.medals)
  }

  /** The first three ranks get their own prize each, once, and nobody else gets any. */
  lemma {:induction false} PayPrizesAt(wallets: map<Id, Wallet>, ranked: seq<Entry>, x: Id)
    requires DistinctCharacters(ranked)
    ensures PayPrizes(wallets, ranked).Keys == wallets.Keys
    ensures x in wallets && (forall k: nat :: !PrizeRank(ranked, x, k)) ==> PayPrizes(wallets, ranked)[x] == wallets[x]
    ensures forall k: nat :: x in wallets && PrizeRank(ranked, x, k) ==> PayPrizes(wallets, ranked)[x] == WithPrize(wallets[x], PRIZES[k])
    decreases |ranked|
  {
    if ranked != [] {
      var n := |ranked| - 1;
      PayPrizesAt(wallets, ranked[..n], x);
      forall k: nat | PrizeRank(ranked[..n], x, k) ensures PrizeRank(ranked, x, k) {
      }
      forall k: nat | PrizeRank(ranked, x, k) && k < n ensures PrizeRank(ranked[..n], x, k) {
      }
      if n < |PRIZES| && ranked[n].character == x {
        assert PrizeRank(ranked, x, n);
        forall k: nat | PrizeRank(ranked, x, k) ensures k == n {
        }
        forall k: nat ensures !PrizeRank(ranked[..n], x, k) {
        }
      }
    }
  }

  ghost predicate DistinctVoters(votes: seq<Vote>) {
    forall i, j :: 0 <= i < j < |votes| ==> votes[i].voter != votes[j].voter
  }

  predicate VotedIn(votes: seq<Vote>, x: Id) {
    exists i :: 0 <= i < |votes| && votes[i].voter == x
  }

  /** Everybody who voted for the winner gets one medal, and nobody else. */
  lemma {:induction false} PayVotersAt(wallets: map<Id, Wallet>, votes: seq<Vote>, x: Id)
    requires DistinctVoters(votes)
    ensures PayVoters(wallets, votes).Keys == wallets.Keys
    ensures x in wallets ==>
      PayVoters(wallets, votes)[x] == if VotedIn(votes, x) then AddMedals(wallets[x], VOTER_BONUS) else wallets[x]
    decreases |votes|
  {
    if votes != [] {
      var n := |votes| - 1;
      PayVotersAt(wallets, votes[..n], x);
      if VotedIn(votes[..n], x) {
        var i :| 0 <= i < n && votes[..n][i].voter == x;
        assert votes[i].voter == x;
      }
      if VotedIn(votes, x) && votes[n].voter != x {
        var i :| 0 <= i < |votes| && votes[i].voter == x;
        assert votes[..n][i].voter == x;
      }
    }
  }
}

/** The line of rounds: no gaps, settled ones first, then at most one active, then at most one preparing. */
module ContestRounds {
  import opened Common
  import opened ContestTypes
  import opened ContestActions
  import opened ContestRules

  predicate Follows(a: Status, b: Status) {
    a == Settled || (a == Active && b == Preparing)
  }

  ghost predicate Numbered(rounds: seq<Round>) {
    forall i :: 0 <= i < |rounds| ==> rounds[i].number == i + 1
  }

  ghost predicate RoundsOk(rounds: seq<Round>) {
    && Numbered(rounds)
    && forall i, j :: 0 <= i < j < |rounds| ==> Follows(rounds[i].status, rounds[j].status)
  }

  // ---------- reading and writing the table ----------

  lemma {:induction false} LatestIs(rounds: seq<Round>, status: Status)
    requires Numbered(rounds)
    ensures Latest(rounds, status).Some? ==>
      var r := Latest(rounds, status).value;
      && 1 <= r.number <= |rounds| && rounds[r.number - 1] == r && r.status == status
      && forall i :: r.number <= i < |rounds| ==> rounds[i].status != status
    ensures Latest(rounds, status).None? ==> forall i :: 0 <= i < |rounds| ==> rounds[i].status != status
    decreases |rounds|
  {
    if rounds != [] {
      LatestIs(rounds[..|rounds| - 1], status);
    }
  }

  lemma {:induction false} RoundAtIs(rounds: seq<Round>, number: int)
    requires Numbered(rounds)
    ensures RoundAt(rounds, number) == if 1 <= number <= |rounds| then Some(rounds[number - 1]) else None
    decreases |rounds|
  {
    if rounds != [] {
      RoundAtIs(rounds[..|rounds| - 1], number);
    }
  }

  lemma {:induction false} RoundIndexIs(rounds: seq<Round>, number: int)
    requires Numbered(rounds)
    ensures RoundIndex(rounds, number) == if 1 <= number <= |rounds| then number - 1 else -1
    decreases |rounds|
  {
    if rounds != [] {
      RoundIndexIs(rounds[..|rounds| - 1], number);
    }
  }

  /** A known number is replaced in its place and the next number is appended. */
  lemma SaveRoundIs(rounds: seq<Round>, r: Round)
    requires Numbered(rounds) && 1 <= r.number <= |rounds| + 1
    ensures SaveRound(rounds, r) == if r.number <= |rounds| then rounds[r.number - 1 := r] else rounds + [r]
    ensures Numbered(SaveRound(rounds, r))
  {
    RoundIndexIs(rounds, r.number);
  }

  // ---------- what every transaction does to the line ----------

  function Rank(s: Status): nat {
    match s
    case Preparing => 0
    case Active => 1
    case Settled => 2
  }

  /** Nothing is renumbered, overwritten or reopened: statuses only advance and settled rounds never change again. */
  ghost predicate Advances(before: seq<Round>, after: seq<Round>) {
    && |before| <= |after|
    && forall i :: 0 <= i < |before| ==>
      && after[i].number == before[i].number
      && Rank(before[i].status) <= Rank(after[i].status)
      && (before[i].status == Settled ==> after[i] == before[i])
  }

  /** Rounds that are not settled and were touched now run until one cycle from now. */
  ghost predicate Renewed(before: seq<Round>, after: seq<Round>, now: Time) {
    forall i :: 0 <= i < |before| && i < |after| && after[i] != before[i] && after[i].status != Settled ==> after[i].end == now + CYCLE
  }

  ghost predicate Line(before: seq<Round>, after: seq<Round>, now: Time) {
    RoundsOk(after) && Advances(before, after) && Renewed(before, after, now)
  }

  lemma LineSelf(rounds: seq<Round>, now: Time)
    requires RoundsOk(rounds)
    ensures Line(rounds, rounds, now)
  {
  }

  lemma LineOn(a: seq<Round>, b: seq<Round>, c: seq<Round>, now: Time)
    requires Line(a, b, now) && Line(b, c, now)
    ensures Line(a, c, now)
  {
  }

  /** Where the running and the waiting round are. */
  lemma Places(rounds: seq<Round>)
    requires RoundsOk(rounds)
    ensures Latest(rounds, Preparing).Some? ==> Latest(rounds, Preparing).value == rounds[|rounds| - 1] && rounds != []
    ensures Latest(rounds, Active).Some? ==>
      var i := Latest(rounds, Active).value.number - 1;
      && 0 <= i < |rounds| && rounds[i] == Latest(rounds, Active).value
      && (if Latest(rounds, Preparing).Some? then i == |rounds| - 2 else i == |rounds| - 1)
    ensures Latest(rounds, Active).None? && Latest(rounds, Preparing).None? ==> forall i :: 0 <= i < |rounds| ==> rounds[i].status == Settled
    ensures Latest(rounds, Settled).None? ==> forall i :: 0 <= i < |rounds| ==> rounds[i].status != Settled
    ensures Latest(rounds, Settled).Some? && Latest(rounds, Active).None? && Latest(rounds, Preparing).None? ==>
      Latest(rounds, Settled).value.number == |rounds|
  {
    LatestIs(rounds, Preparing);
    LatestIs(rounds, Active);
    LatestIs(rounds, Settled);
    if Latest(rounds, Active).Some? {
      var i := Latest(rounds, Active).value.number - 1;
      forall j | i < j < |rounds| ensures rounds[j].status == Preparing {
      }
    }
  }

  /** The number a missing waiting round would get is the next one. */
  lemma NextNumber(c: Contest, now: Time)
    requires RoundsOk(c.rounds) && Latest(c.rounds, Preparing).None?
    ensures var (d, p) := EnsurePreparing(c, now);
      && p.number == |c.rounds| + 1 && d == c.(rounds := c.rounds + [p]) && p.status == Preparing
      && forall i :: 0 <= i < |c.rounds| ==> c.rounds[i].status != Preparing
  {
    Places(c.rounds);
    LatestIs(c.rounds, Active);
    LatestIs(c.rounds, Preparing);
    var (d, p) := EnsurePreparing(c, now);
    SaveRoundIs(c.rounds, p);
  }

  lemma AppendedLine(rounds: seq<Round>, p: Round, now: Time)
    requires RoundsOk(rounds) && p.number == |rounds| + 1 && p.status == Preparing
    requires forall i :: 0 <= i < |rounds| ==> rounds[i].status != Preparing
    ensures Line(rounds, rounds + [p], now)
    ensures Latest(rounds + [p], Preparing) == Some(p) && Latest(rounds + [p], Active) == Latest(rounds, Active)
  {
    var after := rounds + [p];
    assert after[..|rounds|] == rounds;
    LatestIs(after, Preparing);
  }

  lemma EnsureKeepsLine(c: Contest, now: Time)
    requires RoundsOk(c.rounds)
    ensures var (d, p) := EnsurePreparing(c, now);
      && Line(c.rounds, d.rounds, now) && Latest(d.rounds, Preparing) == Some(p) && p.number == |d.rounds|
      && Latest(d.rounds, Active) == Latest(c.rounds, Active)
      && d == c.(rounds := d.rounds)
  {
    hide Line, RoundsOk, SaveRound;
    var (d, p) := EnsurePreparing(c, now);
    if Latest(c.rounds, Preparing).None? {
      NextNumber(c, now);
      AppendedLine(c.rounds, p, now);
    } else {
      LineSelf(c.rounds, now);
      PreparingIsLast(c.rounds);
    }
  }

  lemma PreparingIsLast(rounds: seq<Round>)
    requires RoundsOk(rounds) && Latest(rounds, Preparing).Some?
    ensures Latest(rounds, Preparing).value.number == |rounds|
  {
    Places(rounds);
  }

  lemma ExtendKeepsLine(rounds: seq<Round>, r: Round, now: Time)
    requires RoundsOk(rounds) && r in rounds && r.status != Settled
    ensures Line(rounds, SaveRound(rounds, Extended(r, now)), now)
    ensures SaveRound(rounds, Extended(r, now))[r.number - 1] == Extended(r, now) && r.number >= 1
  {
    SaveRoundIs(rounds, Extended(r, now));
  }

  /** The waiting round starts behind settled ones, and a new one waits behind it. */
  lemma PromoteKeepsLine(rounds: seq<Round>, p: Round, now: Time)
    requires RoundsOk(rounds) && rounds != [] && p == rounds[|rounds| - 1] && p.status == Preparing
    requires forall i :: 0 <= i < |rounds| - 1 ==> rounds[i].status == Settled
    ensures Line(rounds, Promote(rounds, p, now), now)
    ensures |Promote(rounds, p, now)| == |rounds| + 1 && Promote(rounds, p, now)[p.number - 1] == Promoted(p, now)
  {
    var running := Promoted(p, now);
    SaveRoundIs(rounds, running);
    SaveRoundIs(SaveRound(rounds, running), Round(running.number + 1, Preparing, running.end, running.end + CYCLE));
  }

  lemma CloseKeepsLine(rounds: seq<Round>, a: Round, now: Time)
    requires RoundsOk(rounds) && a in rounds && a.status == Active
    ensures Line(rounds, CloseRound(rounds, a), now) && |CloseRound(rounds, a)| == |rounds|
    ensures forall i :: 0 <= i < |rounds| ==> CloseRound(rounds, a)[i] == if i == a.number - 1 then a.(status := Settled) else rounds[i]
  {
    SaveRoundIs(rounds, a.(status := Settled));
  }

  /** After a round was closed, the waiting one is promoted, extended or created. */
  lemma NextKeepsLine(c: Contest, a: Round, p: Option<Round>, now: Time)
    requires RoundsOk(c.rounds) && Latest(c.rounds, Active) == Some(a) && p == Latest(c.rounds, Preparing)
    ensures Line(c.rounds, NextRounds(c, CloseRound(c.rounds, a), a, p, now), now)
    ensures var next := NextRounds(c, CloseRound(c.rounds, a), a, p, now);
      1 <= a.number <= |next| && next[a.number - 1] == a.(status := Settled)
  {
    Places(c.rounds);
    LatestIs(c.rounds, Active);
    LatestIs(c.rounds, Preparing);
    CloseKeepsLine(c.rounds, a, now);
    var closed := CloseRound(c.rounds, a);
    var next := NextRounds(c, closed, a, p, now);
    forall i | 0 <= i < |closed| - 1 ensures closed[i].status == Settled {
    }
    if p.None? {
      SaveRoundIs(closed, Round(a.number + 1, Preparing, now, now + CYCLE));
      assert Line(closed, next, now);
    } else if Quorate(c, p) {
      PromoteKeepsLine(closed, p.value, now);
    } else {
      ExtendKeepsLine(closed, p.value, now);
    }
    LineOn(c.rounds, closed, next, now);
  }

  lemma PromoteEmptyKeepsLine(c: Contest, a: Round, p: Round, now: Time)
    requires RoundsOk(c.rounds) && Latest(c.rounds, Active) == Some(a) && Some(p) == Latest(c.rounds, Preparing)
    ensures Line(c.rounds, Promote(CloseRound(c.rounds, a), p, now), now)
  {
    Places(c.rounds);
    LatestIs(c.rounds, Active);
    LatestIs(c.rounds, Preparing);
    CloseKeepsLine(c.rounds, a, now);
    PromoteKeepsLine(CloseRound(c.rounds, a), p, now);
    LineOn(c.rounds, CloseRound(c.rounds, a), Promote(CloseRound(c.rounds, a), p, now), now);
  }

  lemma PostponeKeepsLine(c: Contest, a: Round, p: Option<Round>, now: Time)
    requires RoundsOk(c.rounds) && Latest(c.rounds, Active) == Some(a) && p == Latest(c.rounds, Preparing)
    ensures Line(c.rounds, Postpone(c, a, p, now).rounds, now)
  {
    Places(c.rounds);
    LatestIs(c.rounds, Active);
    LatestIs(c.rounds, Preparing);
    ExtendKeepsLine(c.rounds, a, now);
    var extended := SaveRound(c.rounds, Extended(a, now));
    SaveRoundIs(c.rounds, Extended(a, now));
    if p.Some? {
      assert extended[p.value.number - 1] == p.value;
      ExtendKeepsLine(extended, p.value, now);
      LineOn(c.rounds, extended, Postpone(c, a, p, now).rounds, now);
    }
  }

  /** Settling, forced or not, keeps the line of rounds. */
  lemma SettleKeepsLine(c: Contest, force: bool, now: Time)
    requires RoundsOk(c.rounds) && Settle(c, force, now).Success?
    ensures Line(c.rounds, Settle(c, force, now).value.rounds, now)
  {
    var active, p := Latest(c.rounds, Active), Latest(c.rounds, Preparing);
    if active.None? {
      EnsureKeepsLine(c, now);
      var (d, w) := EnsurePreparing(c, now);
      Places(d.rounds);
      LatestIs(d.rounds, Active);
      LatestIs(d.rounds, Preparing);
      if |EntriesOf(d.entries, w.number)| < QUORUM {
        ExtendKeepsLine(d.rounds, w, now);
      } else {
        PromoteKeepsLine(d.rounds, w, now);
      }
      LineOn(c.rounds, d.rounds, Settle(c, force, now).value.rounds, now);
    } else {
      var a := active.value;
      PostponeKeepsLine(c, a, p, now);
      NextKeepsLine(c, a, p, now);
      if p.Some? {
        PromoteEmptyKeepsLine(c, a, p.value, now);
      }
      ConcludedRounds(c, a, p, now);
    }
  }

  lemma ConcludedRounds(c: Contest, a: Round, p: Option<Round>, now: Time)
    ensures Conclude(c, a, p, now).rounds == NextRounds(c, CloseRound(c.rounds, a), a, p, now)
  {
  }
}

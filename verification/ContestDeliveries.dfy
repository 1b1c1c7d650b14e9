/** Deliveries over an action's whole life, from before its round exists: at most one of them settles. */
module ContestDeliveries {
  import opened Common
  import opened ContestTypes
  import opened ContestActions
  import opened ContestRules
  import opened ContestRounds
  import opened ContestEntries
  import opened ContestRuns

  // ---------- rounds that are opened ----------

  /** No running round is the last one: somebody can enter behind it. */
  ghost predicate Followed(rounds: seq<Round>) {
    rounds != [] ==> rounds[|rounds| - 1].status != Active
  }

  /** New rounds last at least a cycle from now. */
  ghost predicate Opened(before: seq<Round>, after: seq<Round>, now: Time) {
    forall i :: |before| <= i < |after| ==> after[i].status == Settled || after[i].end >= now + CYCLE
  }

  ghost predicate Opens(before: seq<Round>, after: seq<Round>, now: Time) {
    Line(before, after, now) && Followed(after) && Opened(before, after, now)
  }

  lemma OpensOn(a: seq<Round>, b: seq<Round>, c: seq<Round>, now: Time)
    requires Opens(a, b, now) && Opens(b, c, now)
    ensures Opens(a, c, now)
  {
    LineOn(a, b, c, now);
  }

  lemma OpensSelf(rounds: seq<Round>, now: Time)
    requires RoundsOk(rounds) && Followed(rounds)
    ensures Opens(rounds, rounds, now)
  {
  }

  lemma NothingRunsAlone(rounds: seq<Round>)
    requires RoundsOk(rounds) && Followed(rounds) && Latest(rounds, Preparing).None?
    ensures Latest(rounds, Active).None?
  {
    Places(rounds);
    LatestIs(rounds, Active);
  }

  lemma FreshWait(c: Contest, now: Time)
    requires Latest(c.rounds, Preparing).None? && Latest(c.rounds, Active).None?
    ensures EnsurePreparing(c, now).1.end == now + CYCLE
  {
    hide Latest, SaveRound;
  }

  lemma EnsureOpens(c: Contest, now: Time)
    requires RoundsOk(c.rounds) && Followed(c.rounds)
    ensures Opens(c.rounds, EnsurePreparing(c, now).0.rounds, now)
  {
    EnsureKeepsLine(c, now);
    if Latest(c.rounds, Preparing).None? {
      hide Latest, EnsurePreparing, Line, RoundsOk;
      NextNumber(c, now);
      NothingRunsAlone(c.rounds);
      FreshWait(c, now);
    }
  }

  lemma ExtendOpens(rounds: seq<Round>, r: Round, now: Time)
    requires RoundsOk(rounds) && Followed(rounds) && r in rounds && r.status != Settled
    ensures Opens(rounds, SaveRound(rounds, Extended(r, now)), now)
  {
    ExtendKeepsLine(rounds, r, now);
    SaveRoundIs(rounds, Extended(r, now));
  }

  lemma PromoteOpens(rounds: seq<Round>, p: Round, now: Time)
    requires RoundsOk(rounds) && rounds != [] && p == rounds[|rounds| - 1] && p.status == Preparing
    requires forall i :: 0 <= i < |rounds| - 1 ==> rounds[i].status == Settled
    ensures Opens(rounds, Promote(rounds, p, now), now)
  {
    PromoteKeepsLine(rounds, p, now);
    var running := Promoted(p, now);
    SaveRoundIs(rounds, running);
    SaveRoundIs(SaveRound(rounds, running), Round(running.number + 1, Preparing, running.end, running.end + CYCLE));
  }

  lemma CloseOpens(rounds: seq<Round>, a: Round, now: Time)
    requires RoundsOk(rounds) && a in rounds && a.status == Active && Followed(rounds)
    ensures Opens(rounds, CloseRound(rounds, a), now)
  {
    CloseKeepsLine(rounds, a, now);
  }

  /** Behind a running round there is a waiting one. */
  lemma WaitingBehind(c: Contest, a: Round)
    requires RoundsOk(c.rounds) && Followed(c.rounds) && Latest(c.rounds, Active) == Some(a)
    ensures Latest(c.rounds, Preparing).Some?
    ensures a in c.rounds && Latest(c.rounds, Preparing).value in c.rounds && a.number == |c.rounds| - 1
    ensures Latest(c.rounds, Preparing).value == c.rounds[|c.rounds| - 1] && a == c.rounds[a.number - 1]
  {
    Places(c.rounds);
    LatestIs(c.rounds, Active);
    LatestIs(c.rounds, Preparing);
  }

  lemma ClosedThenWaiting(c: Contest, a: Round, p: Round, now: Time)
    requires RoundsOk(c.rounds) && Followed(c.rounds) && Latest(c.rounds, Active) == Some(a) && Latest(c.rounds, Preparing) == Some(p)
    ensures var closed := CloseRound(c.rounds, a);
      && Opens(c.rounds, closed, now) && RoundsOk(closed) && closed != [] && p == closed[|closed| - 1] && p in closed
      && p.status == Preparing && forall i :: 0 <= i < |closed| - 1 ==> closed[i].status == Settled
  {
    WaitingBehind(c, a);
    LatestIs(c.rounds, Active);
    LatestIs(c.rounds, Preparing);
    CloseOpens(c.rounds, a, now);
    CloseKeepsLine(c.rounds, a, now);
    assert p == CloseRound(c.rounds, a)[|c.rounds| - 1];
  }

  lemma NextOpens(c: Contest, a: Round, p: Round, now: Time)
    requires RoundsOk(c.rounds) && Followed(c.rounds) && Latest(c.rounds, Active) == Some(a) && Latest(c.rounds, Preparing) == Some(p)
    ensures Opens(c.rounds, NextRounds(c, CloseRound(c.rounds, a), a, Some(p), now), now)
    ensures Opens(c.rounds, Promote(CloseRound(c.rounds, a), p, now), now)
  {
    hide Opens, RoundsOk, Latest, CloseRound, Promote, SaveRound, Followed;
    ClosedThenWaiting(c, a, p, now);
    var closed := CloseRound(c.rounds, a);
    OpenedIsFollowed(c.rounds, closed, now);
    PromoteOpens(closed, p, now);
    ExtendOpens(closed, p, now);
    OpensOn(c.rounds, closed, Promote(closed, p, now), now);
    OpensOn(c.rounds, closed, SaveRound(closed, Extended(p, now)), now);
  }

  lemma OpenedIsFollowed(before: seq<Round>, after: seq<Round>, now: Time)
    requires Opens(before, after, now)
    ensures Followed(after) && RoundsOk(after) && Line(before, after, now)
  {
  }

  lemma PostponeOpens(c: Contest, a: Round, p: Round, now: Time)
    requires RoundsOk(c.rounds) && Followed(c.rounds) && Latest(c.rounds, Active) == Some(a) && Latest(c.rounds, Preparing) == Some(p)
    ensures Opens(c.rounds, Postpone(c, a, Some(p), now).rounds, now)
  {
    WaitingBehind(c, a);
    LatestIs(c.rounds, Active);
    LatestIs(c.rounds, Preparing);
    ExtendOpens(c.rounds, a, now);
    var extended := SaveRound(c.rounds, Extended(a, now));
    SaveRoundIs(c.rounds, Extended(a, now));
    assert extended[p.number - 1] == p;
    ExtendOpens(extended, p, now);
    hide Opens, RoundsOk, Latest, SaveRound, Followed;
    OpensOn(c.rounds, extended, Postpone(c, a, Some(p), now).rounds, now);
  }

  lemma WaitingIsLast(rounds: seq<Round>, w: Round)
    requires RoundsOk(rounds) && Latest(rounds, Active).None? && Latest(rounds, Preparing) == Some(w)
    ensures w in rounds && rounds != [] && w == rounds[|rounds| - 1] && w.status == Preparing
    ensures forall i :: 0 <= i < |rounds| - 1 ==> rounds[i].status == Settled
  {
    Places(rounds);
    LatestIs(rounds, Preparing);
    LatestIs(rounds, Active);
  }

  lemma WaitingOpens(c: Contest, force: bool, now: Time)
    requires RoundsOk(c.rounds) && Followed(c.rounds) && Latest(c.rounds, Active).None? && SettleWaiting(c, force, now).Success?
    ensures Opens(c.rounds, SettleWaiting(c, force, now).value.rounds, now)
  {
    hide Opens, Latest, SaveRound, EnsurePreparing, Promote, RoundsOk, Followed, Line;
    EnsureOpens(c, now);
    EnsureKeepsLine(c, now);
    var (d, w) := EnsurePreparing(c, now);
    OpenedIsFollowed(c.rounds, d.rounds, now);
    WaitingIsLast(d.rounds, w);
    if |EntriesOf(d.entries, w.number)| < QUORUM {
      ExtendOpens(d.rounds, w, now);
    } else {
      PromoteOpens(d.rounds, w, now);
    }
    OpensOn(c.rounds, d.rounds, SettleWaiting(c, force, now).value.rounds, now);
  }

  lemma SettleOpens(c: Contest, force: bool, now: Time)
    requires RoundsOk(c.rounds) && Followed(c.rounds) && Settle(c, force, now).Success?
    ensures Opens(c.rounds, Settle(c, force, now).value.rounds, now)
  {
    hide Opens, RoundsOk, Latest, SaveRound, Followed, SettleWaiting, Postpone, Promote, CloseRound, NextRounds, Conclude;
    var active := Latest(c.rounds, Active);
    if active.None? {
      WaitingOpens(c, force, now);
    } else {
      WaitingBehind(c, active.value);
      var p := Latest(c.rounds, Preparing).value;
      PostponeOpens(c, active.value, p, now);
      NextOpens(c, active.value, p, now);
      ConcludedRounds(c, active.value, Some(p), now);
    }
  }

  lemma ReconcileOpens(s: System, now: Time, nonce: string)
    requires RoundsOk(s.contest.rounds) && Followed(s.contest.rounds)
    ensures Opens(s.contest.rounds, Reconcile(s, now, nonce).contest.rounds, now)
  {
    hide ParseActionId, ActionId, EnsurePreparing, Opens;
    EnsureOpens(s.contest, now);
    OpensSelf(s.contest.rounds, now);
  }

  lemma HandleOpens(seen: Contest, s: System, id: string, now: Time, nonce: string)
    requires RoundsOk(s.contest.rounds) && Followed(s.contest.rounds)
    ensures Opens(s.contest.rounds, Handle(seen, s, id, now, nonce).0.contest.rounds, now)
  {
    hide Opens, Reconcile, Settle, ParseActionId, Answered, RoundsOk, Followed;
    OpensSelf(s.contest.rounds, now);
    ReconcileOpens(s, now, nonce);
    var settled := Settle(s.contest, false, now);
    if settled.Success? {
      SettleOpens(s.contest, false, now);
      OpenedIsFollowed(s.contest.rounds, settled.value.rounds, now);
      ReconcileOpens(s.(contest := settled.value), now, nonce);
      OpensOn(s.contest.rounds, settled.value.rounds, Reconcile(s.(contest := settled.value), now, nonce).contest.rounds, now);
    }
  }

  lemma EnterOpens(c: Contest, character: Id, title: string, id: Id, now: Time)
    requires RoundsOk(c.rounds) && Followed(c.rounds) && Enter(c, character, title, id, now).Success?
    ensures Opens(c.rounds, Enter(c, character, title, id, now).value.rounds, now)
  {
    hide Opens, EnsurePreparing, Entered, TitleTaken, SaveEntry;
    EnsureOpens(c, now);
  }

  /** Every event opens rounds that last at least a cycle, and never leaves a running round without one behind it. */
  lemma EventOpens(s: System, e: Event)
    requires RoundsOk(s.contest.rounds) && Followed(s.contest.rounds)
    ensures Opens(s.contest.rounds, Happen(s, e).contest.rounds, When(e))
  {
    hide Opens, RoundsOk, Followed, Reconcile, Handle, Settle, CastVote, Enter, EnsurePreparing, Work, IsDue;
    OpensSelf(s.contest.rounds, When(e));
    match e
    case Submitted(character, title, id, now) =>
      if Enter(s.contest, character, title, id, now).Success? { EnterOpens(s.contest, character, title, id, now); }
    case Polled(voter, entry) => PollKeepsRounds(s, e);
    case Settling(force, now) => if Settle(s.contest, force, now).Success? { SettleOpens(s.contest, force, now); }
    case Ensuring(now) => EnsureOpens(s.contest, now);
    case Reconciling(now, nonce) => ReconcileOpens(s, now, nonce);
    case Delivered(id, now, nonce) => HandleOpens(s.contest, s, id, now, nonce);
    case Worked(index, now, nonce, stop) =>
      WorkIs(s, index, now, nonce, stop);
      if IsDue(s, index, now) {
        HandleOpens(s.contest, Marked(s, index, Processing), s.actions[index].id, now, nonce);
      }
  }

  /** In every contest that began empty the running round has a waiting one behind it. */
  lemma {:induction false} RunningIsFollowed(wallets: map<Id, Wallet>, events: seq<Event>)
    requires AllFresh(Empty(wallets), events)
    ensures var c := After(Empty(wallets), events).contest;
      ContestOk(c) && Followed(c.rounds) && (Latest(c.rounds, Active).Some? ==> Latest(c.rounds, Preparing).Some?)
    decreases |events|
  {
    hide ContestOk, Happen, Fresh, Latest;
    EmptyOk(wallets);
    ContestStaysOk(Empty(wallets), events);
    if events != [] {
      var n := |events| - 1;
      FreshPrefix(Empty(wallets), events, n);
      RunningIsFollowed(wallets, events[..n]);
      var before := After(Empty(wallets), events[..n]);
      OkLine(before.contest);
      EventOpens(before, events[n]);
    }
    var c := After(Empty(wallets), events).contest;
    OkLine(c);
    if Latest(c.rounds, Active).Some? {
      WaitingBehind(c, Latest(c.rounds, Active).value);
    } else {
      NothingRuns(Empty(wallets).contest);
    }
  }

  lemma NothingRuns(c: Contest)
    requires c.rounds == []
    ensures Latest(c.rounds, Active).None?
  {
  }

  lemma FreshPrefix(s: System, events: seq<Event>, n: nat)
    requires AllFresh(s, events) && n <= |events|
    ensures AllFresh(s, events[..n])
  {
    hide After, Fresh;
    forall i | 0 <= i < n ensures Fresh(After(s, events[..n][..i]), events[..n][i]) {
      assert events[..n][..i] == events[..i];
    }
  }

  // ---------- answers ----------

  /** Either the round exists, or every round that is still to come will last. */
  ghost predicate Settleable(c: Contest, round: int) {
    Known(c, round) || Followed(c.rounds)
  }

  /** An answer stands through a transaction, also when it creates the round. */
  lemma AnswerSurvives(c: Contest, d: Contest, round: int, target: Time, now: Time)
    requires RoundsOk(c.rounds) && Line(c.rounds, d.rounds, now) && target < now + CYCLE
    requires Followed(c.rounds) ==> Opens(c.rounds, d.rounds, now)
    requires Settleable(c, round) && Answered(c, round, target)
    ensures Settleable(d, round) && Answered(d, round, target)
  {
    RoundAtIs(c.rounds, round);
    RoundAtIs(d.rounds, round);
  }

  lemma HandledKeepsLine(s: System, id: string, now: Time, nonce: string)
    requires ContestOk(s.contest)
    ensures var t := Handle(s.contest, s, id, now, nonce).0.contest.rounds;
      Line(s.contest.rounds, t, now) && RoundsOk(s.contest.rounds) && (Followed(s.contest.rounds) ==> Opens(s.contest.rounds, t, now))
  {
    hide ContestOk, Handle, Line, Opens;
    OkLine(s.contest);
    HandleKeepsOk(s.contest, s, id, now, nonce);
    if Followed(s.contest.rounds) { HandleOpens(s.contest, s, id, now, nonce); }
  }

  /**
   A due action that was handled is answered, whether or not its round exists: the round is still to come, settled,
   or runs past the action's time.
   */
  lemma HandledIsAnswered(s: System, id: string, now: Time, nonce: string)
    requires ContestOk(s.contest) && ParseActionId(id).Some? && ParseActionId(id).value.1 < now + CYCLE
    requires Settleable(s.contest, ParseActionId(id).value.0)
    requires Handle(s.contest, s, id, now, nonce).1.None?
    ensures var c := Handle(s.contest, s, id, now, nonce).0.contest;
      Settleable(c, ParseActionId(id).value.0) && Answered(c, ParseActionId(id).value.0, ParseActionId(id).value.1)
  {
    hide ContestOk, Handle, Line, Opens, ParseActionId, Known, Followed, Answered;
    var (round, target) := ParseActionId(id).value;
    if Known(s.contest, round) {
      ContestRuns.HandledIsAnswered(s, id, now, nonce);
    } else {
      UnknownIsAnswered(s.contest, round, target);
      HandledKeepsLine(s, id, now, nonce);
      AnswerSurvives(s.contest, Handle(s.contest, s, id, now, nonce).0.contest, round, target, now);
    }
  }

  lemma UnknownIsAnswered(c: Contest, round: int, target: Time)
    requires !Known(c, round)
    ensures Answered(c, round, target)
  {
  }

  lemma {:induction false} AnswerStands(s: System, events: seq<Event>, round: int, target: Time)
    requires ContestOk(s.contest) && AllFresh(s, events) && AllAfter(events, target)
    requires Settleable(s.contest, round) && Answered(s.contest, round, target)
    ensures Settleable(After(s, events).contest, round) && Answered(After(s, events).contest, round, target)
    decreases |events|
  {
    hide ContestOk, Happen, Fresh, Answered, Settleable, Opens, Followed, Line;
    if events != [] {
      var n := |events| - 1;
      FreshPrefix(s, events, n);
      AnswerStands(s, events[..n], round, target);
      ContestStaysOk(s, events[..n]);
      var before := After(s, events[..n]);
      OkLine(before.contest);
      EventKeepsOk(before, events[n]);
      if Followed(before.contest.rounds) { EventOpens(before, events[n]); }
      if events[n].Polled? {
        PollKeepsRounds(before, events[n]);
        SameRoundsSettleable(before.contest, Happen(before, events[n]).contest, round, target);
      } else {
        AnswerSurvives(before.contest, Happen(before, events[n]).contest, round, target, When(events[n]));
      }
    }
  }

  lemma SameRoundsSettleable(c: Contest, d: Contest, round: int, target: Time)
    requires d.rounds == c.rounds && Settleable(c, round) && Answered(c, round, target)
    ensures Settleable(d, round) && Answered(d, round, target)
  {
  }

  /**
   Once a due action was handled, delivering it again, any number of times and among any other events, settles,
   promotes and postpones nothing, even if its round was created only in between: it only repairs the schedule.
   */
  lemma ReplaysNeverSettle(s: System, id: string, now: Time, nonce: string, events: seq<Event>, later: Time, again: string)
    requires ContestOk(s.contest) && ParseActionId(id).Some? && ParseActionId(id).value.1 < now + CYCLE
    requires Settleable(s.contest, ParseActionId(id).value.0)
    requires Handle(s.contest, s, id, now, nonce).1.None?
    requires var t := Handle(s.contest, s, id, now, nonce).0;
      AllFresh(t, events) && AllAfter(events, ParseActionId(id).value.1)
    ensures var t := After(Handle(s.contest, s, id, now, nonce).0, events);
      Handle(t.contest, t, id, later, again) == (Reconcile(t, later, again), None)
  {
    hide ContestOk, After, Reconcile, Settle, ParseActionId, Settleable;
    HandledIsAnswered(s, id, now, nonce);
    HandleKeepsOk(s.contest, s, id, now, nonce);
    AnswerStands(Handle(s.contest, s, id, now, nonce).0, events, ParseActionId(id).value.0, ParseActionId(id).value.1);
  }

  // ---------- at most once ----------

  /** The event hands the action to the handler, straight away or by way of the worker. */
  predicate Delivers(s: System, e: Event, id: string) {
    match e
    case Delivered(given, _, _) => given == id
    case Worked(k, now, _, stop) => IsDue(s, k, now) && stop != BeforeHandler && s.actions[k].id == id
    case _ => false
  }

  /** The tables as the handler finds them: the worker has marked its action before. */
  function Facing(s: System, e: Event): System {
    if e.Worked? then Marked(s, e.index, Processing) else s
  }

  function NonceOf(e: Event): string {
    match e
    case Delivered(_, _, nonce) => nonce
    case Worked(_, _, nonce, _) => nonce
    case _ => ""
  }

  /** The i-th event delivers the action without error. */
  predicate ServedAt(s: System, events: seq<Event>, id: string, i: nat)
    requires i < |events|
  {
    var before := After(s, events[..i]);
    && Delivers(before, events[i], id)
    && Handle(before.contest, Facing(before, events[i]), id, When(events[i]), NonceOf(events[i])).1.None?
  }

  /** The i-th event delivers the action, finds its round unanswered, and settles. */
  predicate SettlesAt(s: System, events: seq<Event>, id: string, i: nat)
    requires i < |events| && ParseActionId(id).Some?
  {
    var before := After(s, events[..i]);
    && Delivers(before, events[i], id)
    && !Answered(before.contest, ParseActionId(id).value.0, ParseActionId(id).value.1)
    && Settle(before.contest, false, When(events[i])).Success?
  }

  lemma {:induction false} AfterInTwo(s: System, first: seq<Event>, second: seq<Event>)
    ensures After(s, first + second) == After(After(s, first), second)
    decreases |second|
  {
    hide Happen;
    if second == [] {
      assert first + second == first;
    } else {
      var n := |second| - 1;
      AfterInTwo(s, first, second[..n]);
      assert (first + second)[..|first| + n] == first + second[..n];
    }
  }

  lemma FreshLater(s: System, events: seq<Event>, i: nat, j: nat)
    requires AllFresh(s, events) && i <= j <= |events|
    ensures AllFresh(After(s, events[..i]), events[i..j]) && After(After(s, events[..i]), events[i..j]) == After(s, events[..j])
  {
    hide After, Fresh;
    forall k | 0 <= k < j - i ensures Fresh(After(After(s, events[..i]), events[i..j][..k]), events[i..j][k]) {
      AfterInTwo(s, events[..i], events[i..i + k]);
      assert events[..i] + events[i..i + k] == events[..i + k] && events[i..j][..k] == events[i..i + k];
    }
    AfterInTwo(s, events[..i], events[i..j]);
    assert events[..i] + events[i..j] == events[..j];
  }

  lemma AfterLater(events: seq<Event>, i: nat, j: nat, target: Time)
    requires i < j <= |events| && AllAfter(events[i..], target)
    ensures AllAfter(events[i + 1..j], target)
  {
    var later := events[i + 1..j];
    forall k | 0 <= k < |later| && !later[k].Polled? ensures target < When(later[k]) + CYCLE {
      assert events[i..][k + 1] == later[k];
    }
  }

  lemma DeliveryIsHandled(s: System, e: Event, id: string)
    requires Delivers(s, e, id)
    ensures var f := Facing(s, e);
      f.contest == s.contest && Happen(s, e).contest == Handle(f.contest, f, id, When(e), NonceOf(e)).0.contest
    ensures !e.Polled?
  {
    hide Handle, IsDue, Work;
    if e.Worked? { WorkIs(s, e.index, e.now, e.nonce, e.stop); }
  }

  lemma NextIs(s: System, events: seq<Event>, i: nat)
    requires i < |events|
    ensures After(s, events[..i + 1]) == Happen(After(s, events[..i]), events[i])
  {
    hide Happen;
    assert events[..i + 1][..i] == events[..i];
  }

  lemma SettlingIsServed(s: System, events: seq<Event>, id: string, i: nat)
    requires i < |events| && ParseActionId(id).Some? && SettlesAt(s, events, id, i)
    ensures ServedAt(s, events, id, i)
  {
    hide After, Settle, Reconcile, ParseActionId, Answered, IsDue;
  }

  lemma AnsweredIsNotSettled(s: System, events: seq<Event>, id: string, j: nat)
    requires j < |events| && ParseActionId(id).Some?
    requires Answered(After(s, events[..j]).contest, ParseActionId(id).value.0, ParseActionId(id).value.1)
    ensures !SettlesAt(s, events, id, j)
  {
    hide After, Settle, ParseActionId, Answered;
  }

  /**
   Over any history from an empty contest, an action that names a round is settled by at most one of its deliveries,
   and by none after the first that was served, even if its round did not exist yet then.
   */
  lemma SettlesAtMostOnce(wallets: map<Id, Wallet>, events: seq<Event>, id: string, i: nat, j: nat)
    requires AllFresh(Empty(wallets), events) && ParseActionId(id).Some? && i < j < |events|
    requires AllAfter(events[i..], ParseActionId(id).value.1)
    ensures ServedAt(Empty(wallets), events, id, i) ==> !SettlesAt(Empty(wallets), events, id, j)
    ensures SettlesAt(Empty(wallets), events, id, i) ==> !SettlesAt(Empty(wallets), events, id, j)
  {
    hide ContestOk, After, Handle, Happen, ParseActionId, ServedAt, SettlesAt, Answered, Followed, AllFresh, Known, Delivers, Facing;
    var s := Empty(wallets);
    if SettlesAt(s, events, id, i) { SettlingIsServed(s, events, id, i); }
    if ServedAt(s, events, id, i) {
      var before := After(s, events[..i]);
      ServedDelivers(s, events, id, i);
      var f := Facing(before, events[i]);
      FreshPrefix(s, events, i);
      RunningIsFollowed(wallets, events[..i]);
      DeliveryIsHandled(before, events[i], id);
      assert events[i..][0] == events[i];
      HandledIsAnswered(f, id, When(events[i]), NonceOf(events[i]));
      HandleKeepsOk(f.contest, f, id, When(events[i]), NonceOf(events[i]));
      NextIs(s, events, i);
      FreshLater(s, events, i + 1, j);
      AfterLater(events, i, j, ParseActionId(id).value.1);
      AnswerStands(After(s, events[..i + 1]), events[i + 1..j], ParseActionId(id).value.0, ParseActionId(id).value.1);
      AnsweredIsNotSettled(s, events, id, j);
    }
  }

  lemma ServedDelivers(s: System, events: seq<Event>, id: string, i: nat)
    requires i < |events| && ServedAt(s, events, id, i)
    ensures var before := After(s, events[..i]);
      && Delivers(before, events[i], id)
      && Handle(before.contest, Facing(before, events[i]), id, When(events[i]), NonceOf(events[i])).1.None?
  {
  }
}

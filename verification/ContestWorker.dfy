/** The life of a scheduled action: worked on at most once, and what its worker leaves of the schedule. */
module ContestWorker {
  import opened Common
  import opened ContestTypes
  import opened ContestActions
  import opened ContestRules
  import opened ContestRounds
  import opened ContestEntries
  import opened ContestRuns
  import ContestDeliveries

  // ---------- states only advance ----------

  function Stage(state: ActionState): nat {
    match state
    case Pending => 0
    case Processing => 1
    case Completed => 2
    case Failed => 2
  }

  /** The same action later: under its name and time, at a stage at least as far, and for good where it ended. */
  predicate Later(a: Action, b: Action) {
    && b.id == a.id && b.at == a.at && Stage(a.state) <= Stage(b.state)
    && (Stage(a.state) == 2 ==> b.state == a.state)
  }

  ghost predicate ActionsAdvance(before: seq<Action>, after: seq<Action>) {
    |before| <= |after| && forall k :: 0 <= k < |before| ==> Later(before[k], after[k])
  }

  lemma AdvanceThrough(a: seq<Action>, b: seq<Action>, c: seq<Action>)
    requires ActionsAdvance(a, b) && ActionsAdvance(b, c)
    ensures ActionsAdvance(a, c)
  {
    forall k | 0 <= k < |a| ensures Later(a[k], c[k]) {
      assert Later(a[k], b[k]) && Later(b[k], c[k]);
    }
  }

  lemma ReconcileAppends(s: System, now: Time, nonce: string)
    ensures s.actions <= Reconcile(s, now, nonce).actions
  {
    hide ParseActionId, ActionId, EnsurePreparing, Latest;
  }

  lemma HandleAppends(seen: Contest, s: System, id: string, now: Time, nonce: string)
    ensures s.actions <= Handle(seen, s, id, now, nonce).0.actions
  {
    hide Reconcile, Settle, ParseActionId, Answered;
    ReconcileAppends(s, now, nonce);
    if Settle(s.contest, false, now).Success? {
      ReconcileAppends(s.(contest := Settle(s.contest, false, now).value), now, nonce);
    }
  }

  lemma AppendedAdvance(before: seq<Action>, after: seq<Action>)
    requires before <= after
    ensures ActionsAdvance(before, after)
  {
  }

  lemma WorkAdvances(s: System, k: nat, now: Time, nonce: string, stop: Stop)
    ensures ActionsAdvance(s.actions, Work(s, k, now, nonce, stop).actions)
    ensures IsDue(s, k, now) ==> k < |Work(s, k, now, nonce, stop).actions| && Work(s, k, now, nonce, stop).actions[k].state != Pending
  {
    hide Handle, UnixSeconds;
    if IsDue(s, k, now) {
      var taken := Marked(s, k, Processing);
      HandleAppends(taken.contest, taken, s.actions[k].id, now, nonce);
      var t := Handle(taken.contest, taken, s.actions[k].id, now, nonce).0;
      assert t.actions[k] == taken.actions[k];
    }
  }

  lemma EventAdvancesActions(s: System, e: Event)
    ensures ActionsAdvance(s.actions, Happen(s, e).actions)
  {
    hide Reconcile, Handle, Work, Settle, CastVote, Enter, EnsurePreparing, ActionsAdvance;
    AppendedAdvance(s.actions, s.actions);
    match e
    case Submitted(_, _, _, _) =>
    case Polled(_, _) =>
    case Settling(_, _) =>
    case Ensuring(_) =>
    case Reconciling(now, nonce) =>
      ReconcileAppends(s, now, nonce);
      AppendedAdvance(s.actions, Reconcile(s, now, nonce).actions);
    case Delivered(id, now, nonce) =>
      HandleAppends(s.contest, s, id, now, nonce);
      AppendedAdvance(s.actions, Handle(s.contest, s, id, now, nonce).0.actions);
    case Worked(k, now, nonce, stop) => WorkAdvances(s, k, now, nonce, stop);
  }

  /** Over any history no action is renamed, moved or dropped, and none goes back to an earlier state. */
  lemma {:induction false} ActionsOnlyAdvance(s: System, events: seq<Event>, n: nat)
    requires n <= |events|
    ensures ActionsAdvance(After(s, events[..n]).actions, After(s, events).actions)
    decreases |events|
  {
    hide Happen, ActionsAdvance;
    if n == |events| {
      assert events[..n] == events;
      AppendedAdvance(After(s, events).actions, After(s, events).actions);
    } else {
      var m := |events| - 1;
      assert events[..m][..n] == events[..n];
      ActionsOnlyAdvance(s, events[..m], n);
      EventAdvancesActions(After(s, events[..m]), events[m]);
      AdvanceThrough(After(s, events[..n]).actions, After(s, events[..m]).actions, After(s, events).actions);
    }
  }

  /** The i-th event is the worker taking up the k-th action. */
  predicate TakenUpAt(s: System, events: seq<Event>, k: nat, i: nat)
    requires i < |events|
  {
    events[i].Worked? && events[i].index == k && IsDue(After(s, events[..i]), k, events[i].now)
  }

  /** Over any history an action is taken up at most once, wherever the worker stopped with it. */
  lemma WorkedAtMostOnce(s: System, events: seq<Event>, k: nat, i: nat, j: nat)
    requires i < j < |events| && TakenUpAt(s, events, k, i)
    ensures !TakenUpAt(s, events, k, j)
  {
    hide After, Happen, Work, UnixSeconds;
    ContestDeliveries.NextIs(s, events, i);
    WorkedIs(After(s, events[..i]), events[i]);
    WorkAdvances(After(s, events[..i]), k, events[i].now, events[i].nonce, events[i].stop);
    ActionsOnlyAdvance(s, events[..j], i + 1);
    assert events[..j][..i + 1] == events[..i + 1];
    assert Later(After(s, events[..i + 1]).actions[k], After(s, events[..j]).actions[k]);
  }

  lemma WorkedIs(s: System, e: Event)
    requires e.Worked?
    ensures Happen(s, e) == Work(s, e.index, e.now, e.nonce, e.stop)
  {
    hide Work;
  }

  // ---------- what is left of the schedule ----------

  /** Some action that can still be taken up serves the round. */
  predicate Waits(actions: seq<Action>, r: Round) {
    exists a :: a in actions && a.state == Pending && Serves(a, r.number, r.end)
  }

  /** Some action that was taken up and never ended serves the round. */
  predicate Hangs(actions: seq<Action>, r: Round) {
    exists a :: a in actions && a.state == Processing && Serves(a, r.number, r.end)
  }

  /** The deadline can be written into an identifier and read back. */
  predicate Writable(r: Round) {
    0 < r.number <= MAX_INT64 && 0 <= r.end && 0 < UnixSeconds(r.end) <= MAX_INT64 && r.end % SECOND == 0
  }

  lemma ReconcileIs(s: System, now: Time, nonce: string)
    requires var r := Target(s.contest, now); Writable(r)
    ensures var r := Target(s.contest, now);
      Reconcile(s, now, nonce).actions ==
        if Waits(s.actions, r) || Hangs(s.actions, r) then s.actions
        else s.actions + [Action(ActionId(r.number, r.end) + ":" + nonce, r.end, Pending)]
  {
    hide ParseActionId, ActionId, EnsurePreparing, Latest, UnixSeconds;
  }

  /**
   After a repair an action waits for the open round's deadline if and only if one waited before, or none that was
   taken up and never ended holds its place.
   */
  lemma RepairWaitsIff(s: System, now: Time, nonce: string)
    requires Writable(Target(s.contest, now))
    ensures var r := Target(s.contest, now);
      Waits(Reconcile(s, now, nonce).actions, r) <==> Waits(s.actions, r) || !Hangs(s.actions, r)
  {
    hide ParseActionId, ActionId, EnsurePreparing, Latest;
    var r := Target(s.contest, now);
    ReconcileIs(s, now, nonce);
    if !Waits(s.actions, r) && !Hangs(s.actions, r) {
      assert ActionId(r.number, r.end) + ":" + nonce == ActionId(r.number, r.end) + (":" + nonce);
      ActionIdReadsBack(r.number, r.end, ":" + nonce);
      var t := Reconcile(s, now, nonce);
      assert t.actions[|s.actions|] in t.actions;
    }
  }

  /** The open round, once there is one, is in the table and not settled. */
  lemma TargetIsThere(c: Contest, now: Time)
    requires RoundsOk(c.rounds) && (Latest(c.rounds, Active).Some? || Latest(c.rounds, Preparing).Some?)
    ensures var r := Target(c, now); RoundAt(c.rounds, r.number) == Some(r) && r.status != Settled
  {
    LatestIs(c.rounds, Active);
    LatestIs(c.rounds, Preparing);
    RoundAtIs(c.rounds, Target(c, now).number);
  }

  /** A repair leaves the open round in the table and its deadline served. */
  lemma RepairServes(x: System, now: Time, nonce: string)
    requires RoundsOk(x.contest.rounds)
    ensures var c := Reconcile(x, now, nonce).contest;
      && RoundsOk(c.rounds) && (Latest(c.rounds, Active).Some? || Latest(c.rounds, Preparing).Some?) && Target(c, now) == Target(x.contest, now)
    ensures var t := Reconcile(x, now, nonce);
      var r := Target(t.contest, now);
      Writable(r) ==> Waits(t.actions, r) || Hangs(t.actions, r)
  {
    hide ParseActionId, ActionId, Latest, UnixSeconds;
    EnsureKeepsLine(x.contest, now);
    if Writable(Target(x.contest, now)) {
      RepairWaitsIff(x, now, nonce);
      ReconcileIs(x, now, nonce);
    }
  }

  lemma HandledIsRepaired(s: System, id: string, now: Time, nonce: string) returns (x: System)
    requires RoundsOk(s.contest.rounds) && Handle(s.contest, s, id, now, nonce).1.None?
    ensures Handle(s.contest, s, id, now, nonce).0 == Reconcile(x, now, nonce) && RoundsOk(x.contest.rounds)
  {
    hide Reconcile, Settle, ParseActionId, Answered, RoundsOk;
    var settled := Settle(s.contest, false, now);
    if Handle(s.contest, s, id, now, nonce).0 == Reconcile(s, now, nonce) {
      x := s;
    } else {
      x := s.(contest := settled.value);
      SettleKeepsLine(s.contest, false, now);
      LineIsOk(s.contest.rounds, settled.value.rounds, now);
    }
  }

  lemma LineIsOk(before: seq<Round>, after: seq<Round>, now: Time)
    requires Line(before, after, now)
    ensures RoundsOk(after)
  {
  }

  /** A served action never names the deadline that is open afterwards. */
  lemma OwnDeadlineIsPast(s: System, id: string, now: Time, nonce: string)
    requires ContestOk(s.contest) && ContestDeliveries.Followed(s.contest.rounds)
    requires ParseActionId(id).Some? ==> ParseActionId(id).value.1 < now + CYCLE
    requires Handle(s.contest, s, id, now, nonce).1.None?
    ensures var r := Target(Handle(s.contest, s, id, now, nonce).0.contest, now);
      ParseActionId(id) != Some((r.number, r.end))
  {
    hide ContestOk, Handle, Reconcile, ParseActionId, ContestDeliveries.Followed, Target, RoundsOk, Latest;
    OkLine(s.contest);
    var x := HandledIsRepaired(s, id, now, nonce);
    RepairServes(x, now, nonce);
    var c := Handle(s.contest, s, id, now, nonce).0.contest;
    TargetIsThere(c, now);
    if ParseActionId(id).Some? {
      ContestDeliveries.HandledIsAnswered(s, id, now, nonce);
    }
  }

  /**
   A worker that served an action and saved its outcome leaves the open round's deadline served by another action
   that is waiting or being worked on.
   */
  lemma ServedRoundIsScheduled(s: System, k: nat, now: Time, nonce: string)
    requires ContestOk(s.contest) && ContestDeliveries.Followed(s.contest.rounds) && IsDue(s, k, now)
    requires var taken := Marked(s, k, Processing);
      Handle(taken.contest, taken, s.actions[k].id, now, nonce).1.None?
    requires ParseActionId(s.actions[k].id).Some? ==> ParseActionId(s.actions[k].id).value.1 < now + CYCLE
    requires Writable(Target(Work(s, k, now, nonce, Nowhere).contest, now))
    ensures var t := Work(s, k, now, nonce, Nowhere);
      var r := Target(t.contest, now);
      t.actions[k].state == Completed && (Waits(t.actions, r) || Hangs(t.actions, r))
  {
    hide ContestOk, Handle, Reconcile, ParseActionId, UnixSeconds, ContestDeliveries.Followed, Target, Writable, RoundsOk, Latest;
    var taken := Marked(s, k, Processing);
    var id := s.actions[k].id;
    OkLine(s.contest);
    HandleAppends(taken.contest, taken, id, now, nonce);
    var x := HandledIsRepaired(taken, id, now, nonce);
    RepairServes(x, now, nonce);
    OwnDeadlineIsPast(taken, id, now, nonce);
    var t := Handle(taken.contest, taken, id, now, nonce).0;
    OtherStillServes(t, Work(s, k, now, nonce, Nowhere), k, Target(t.contest, now), id);
  }

  lemma ServesNames(a: Action, round: int, end: Time)
    requires Serves(a, round, end)
    ensures ParseActionId(a.id) == Some((round, end))
  {
    hide ParseActionId;
  }

  lemma OtherStillServes(t: System, u: System, k: nat, r: Round, id: string)
    requires k < |t.actions| && t.actions[k].id == id && ParseActionId(id) != Some((r.number, r.end))
    requires u == Marked(t, k, Completed) && (Waits(t.actions, r) || Hangs(t.actions, r))
    ensures u.actions[k].state == Completed && (Waits(u.actions, r) || Hangs(u.actions, r))
  {
    hide Split, ParseInt;
    var i :| 0 <= i < |t.actions| && Serves(t.actions[i], r.number, r.end);
    ServesNames(t.actions[i], r.number, r.end);
    assert u.actions[i] == t.actions[i] && u.actions[i] in u.actions;
  }

  // ---------- a worker that stops ----------

  /** The first round opens, is scheduled, and at its deadline the worker stops before the handler. */
  const STOPPED: seq<Event> := [Reconciling(0, "n"), Worked(0, CYCLE, "m", BeforeHandler)]

  function Opening(): Round {
    Round(1, Preparing, 0, CYCLE)
  }

  function OwnAction(state: ActionState): Action {
    Action(ActionId(1, CYCLE) + ":n", CYCLE, state)
  }

  lemma OwnActionServes(state: ActionState)
    ensures Writable(Opening()) && (state in {Pending, Processing} ==> Serves(OwnAction(state), 1, CYCLE))
  {
    hide ParseActionId, ActionId;
    assert ActionId(1, CYCLE) + ":n" == ActionId(1, CYCLE) + (":" + "n");
    ActionIdReadsBack(1, CYCLE, ":" + "n");
  }

  lemma FirstRoundOpens(wallets: map<Id, Wallet>)
    ensures Happen(Empty(wallets), STOPPED[0]) == System(Empty(wallets).contest.(rounds := [Opening()]), [OwnAction(Pending)])
  {
    hide ParseActionId, ActionId;
    var s := Empty(wallets);
    assert s.contest.rounds + [Opening()] == [Opening()];
    assert ActionId(1, CYCLE) + ":" + "n" == ActionId(1, CYCLE) + ":n";
    assert SaveRound(s.contest.rounds, Opening()) == [Opening()];
    assert EnsurePreparing(s.contest, 0) == (s.contest.(rounds := [Opening()]), Opening());
  }

  /**
   The action stays marked as being worked on, no repair at any later time adds another, and nothing is left that a
   worker would take up.
   */
  lemma StoppedWorkerHoldsTheSchedule(wallets: map<Id, Wallet>, later: Time, again: string)
    ensures var t := After(Empty(wallets), STOPPED);
      && t.contest.rounds == [Opening()] && t.actions == [OwnAction(Processing)]
      && Reconcile(t, later, again) == t && forall k, now :: !IsDue(t, k, now)
  {
    hide ParseActionId, ActionId, Handle, Happen;
    var s := Empty(wallets);
    assert STOPPED[..1] == [STOPPED[0]] && STOPPED[..1][..0] == [];
    FirstRoundOpens(wallets);
    var begun := System(s.contest.(rounds := [Opening()]), [OwnAction(Pending)]);
    assert After(s, STOPPED[..1]) == begun;
    WorkStops(begun);
    var t := System(begun.contest, [OwnAction(Processing)]);
    assert After(s, STOPPED) == t;
    OwnActionServes(Processing);
    StillOpen(t, later, again);
  }

  lemma WorkStops(s: System)
    requires s.actions == [OwnAction(Pending)]
    ensures Happen(s, STOPPED[1]) == s.(actions := [OwnAction(Processing)])
  {
    hide ParseActionId, ActionId, Handle;
  }

  lemma StillOpen(t: System, later: Time, again: string)
    requires t.contest.rounds == [Opening()] && t.actions == [OwnAction(Processing)] && Serves(OwnAction(Processing), 1, CYCLE)
    ensures Reconcile(t, later, again) == t
  {
    hide ParseActionId, ActionId;
    assert Latest(t.contest.rounds, Active).None? && Latest(t.contest.rounds, Preparing) == Some(Opening());
    assert t.actions[0] in t.actions;
  }
}

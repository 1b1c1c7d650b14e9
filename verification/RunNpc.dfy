/** Enemy turns: who answers next, and the rotation that keeps every enemy's wait bounded. */
module RunNpc {
  import opened Common
  import opened RunTypes

  predicate Eligible(r: Run, id: Id, now: Time) {
    var a := ActorAt(r.actors, id);
    a.Some? && a.value.npc && a.value.hp > 0 && now - LastAction(r, id) >= r.admission.speed * SECOND
  }

  function FirstEligible(r: Run, enemies: seq<Id>, now: Time): Id {
    if enemies == [] then NOBODY
    else if Eligible(r, enemies[0], now) then enemies[0]
    else FirstEligible(r, enemies[1..], now)
  }

  function NextNPC(r: Run, now: Time): Id {
    FirstEligible(r, r.enemies, now)
  }

  function Rotate(enemies: seq<Id>): seq<Id> {
    if |enemies| > 1 then enemies[1..] + [enemies[0]] else enemies
  }

  /** The head goes to the tail, whoever acted. */
  function RecordResponse(r: Run, id: Id, now: Time): Result<Run, Error> {
    var a := ActorAt(r.actors, id);
    if id == NOBODY || id !in r.enemies || a.None? || !a.value.npc then Failure(RunConflict)
    else Success(r.(lastActions := r.lastActions[id := now], enemies := Rotate(r.enemies)))
  }

  /** A response loses and duplicates nobody. */
  lemma RotationIsPermutation(enemies: seq<Id>)
    ensures multiset(Rotate(enemies)) == multiset(enemies)
  {
    if |enemies| > 1 {
      assert enemies == [enemies[0]] + enemies[1..];
    }
  }

  ghost predicate FirstAt(r: Run, enemies: seq<Id>, now: Time, j: nat) {
    && j < |enemies| && Eligible(r, enemies[j], now)
    && forall i :: 0 <= i < j ==> !Eligible(r, enemies[i], now)
  }

  /** The scan returns the first eligible enemy in list order, and nobody only when none is eligible. */
  lemma {:induction false} FirstEligibleIsFirst(r: Run, enemies: seq<Id>, now: Time, k: nat)
    requires k < |enemies| && Eligible(r, enemies[k], now)
    ensures exists j: nat :: j <= k && FirstAt(r, enemies, now, j) && enemies[j] == FirstEligible(r, enemies, now)
  {
    if Eligible(r, enemies[0], now) {
      assert FirstAt(r, enemies, now, 0);
    } else {
      FirstEligibleIsFirst(r, enemies[1..], now, k - 1);
      var j: nat :| j <= k - 1 && FirstAt(r, enemies[1..], now, j) && enemies[1..][j] == FirstEligible(r, enemies[1..], now);
      forall i | 0 <= i < j + 1 ensures !Eligible(r, enemies[i], now) {
        if i > 0 { assert enemies[1..][i - 1] == enemies[i]; }
      }
      assert FirstAt(r, enemies, now, j + 1);
    }
  }

  /**
   Turns of one encounter: between two responses fighting may change everything about the run
   except the order of the enemy list, which only the response rotates.
   */
  ghost predicate Turns(runs: seq<Run>, times: seq<Time>) {
    && |times| == |runs|
    && forall j :: 0 <= j < |runs| - 1 ==> TurnLeads(runs[j], times[j], runs[j + 1])
  }

  predicate TurnLeads(r: Run, now: Time, next: Run) {
    var done := RecordResponse(r, NextNPC(r, now), now);
    done.Success? && next.enemies == done.value.enemies
  }

  /** An enemy waiting at position k that stays eligible answers within k + 1 responses, whatever the others do. */
  lemma {:induction false} BoundedWaiting(runs: seq<Run>, times: seq<Time>, id: Id, k: nat)
    requires Turns(runs, times) && k < |runs| && k < |runs[0].enemies| && runs[0].enemies[k] == id
    requires forall j :: 0 <= j <= k ==> Eligible(runs[j], id, times[j])
    ensures exists j :: 0 <= j <= k && NextNPC(runs[j], times[j]) == id
    decreases k
  {
    FirstEligibleIsFirst(runs[0], runs[0].enemies, times[0], k);
    if k > 0 && NextNPC(runs[0], times[0]) != id {
      var rest, later := runs[1..], times[1..];
      assert rest[0].enemies == Rotate(runs[0].enemies);
      forall j | 0 <= j < |rest| - 1 ensures TurnLeads(rest[j], later[j], rest[j + 1]) {
        assert TurnLeads(runs[j + 1], times[j + 1], runs[j + 2]);
      }
      BoundedWaiting(rest, later, id, k - 1);
      var j :| 0 <= j <= k - 1 && NextNPC(rest[j], later[j]) == id;
      assert NextNPC(runs[j + 1], times[j + 1]) == id;
    }
  }
}

# Five stateful services, modelled and proved

This project models the parts of the game server in which several operations share state that must not go wrong,
and proves what every run of them keeps. `dafny verify dfyconfig.toml` checks all of it.

Each component has the same build. The entities are datatypes; what one operation or transaction does is a function
of the whole state (the *specification*); theorems are proved about that function, first for one step, then by
induction for every sequence of steps; and classes whose fields are the tables and records that the Go code updates
in place carry methods, with the loops of the original, each proved to compute its specification. A theorem about
the specification is therefore a theorem about the mutating code. Whatever the server cannot control (clocks, random
draws, the battle engine, lost replies, rollbacks, failing timers) is an unconstrained argument of the step.

## Components

**Challenge runs** (`Challenge*.dfy`). A durable coordinator commits a transition, a live store that no transaction
rolls back is published to, and the publication is acknowledged. `ChallengeProtocol` states each critical section
under a fault plan: replies lost after a commit or after a publication, an unreachable live store, a missing
acknowledgement, an outer transaction undone after an inner delivery. `ChallengeInvariants` relates both stores to a
log of accepted commands, one sequence per run; `ChallengeSteps` shows that every section keeps that relation and
appends at most one command; `ChallengeRuns` draws the consequences for every interleaving of sections, a crash
between two sections of one call being the prefix that did run. `ChallengeExpiry` follows a run past its deadline.
`ChallengeRewards` follows experience, gold, health and treasure through a whole run, `ChallengeRounds` says who wins
a round and what that costs or pays each member, and `ChallengeGates` which calls are accepted and what they write.

**Normal adventure runs** (`Run*.dfy`). A versioned command processor with idempotent receipts. `RunEarnings` is the
three-bucket ledger; `RunProgress` and `RunTravel` are floors, encounters and travel; `RunNpc` is the enemy
rotation; `RunWorld` and `RunCommands` are the tables and the transactions on them; `RunInvariants` to `RunRuns`
show that every transaction keeps every table consistent; `RunTheorems` states what holds after any history of
admissions, commands, cleanups and recoveries; `RunClears` says exactly how a run comes to be cleared, step by step
and over histories, with `RunSkippedBoss` as its concrete history; `RunHistories` compares two points of one history,
and a history with and without its retries. `RunStock` follows earnings from one action into the buckets and on to the
settler, `RunGates` says which actions are admitted and what they do to clocks, order and floors, `RunEncounters` when
encounters and replacements are possible, who is in them and who answers, and `RunRecords` what each call writes. Three kinds of history variable, which no operation reads, make the
statements possible: what was recorded, added and forfeited per ledger row; per run a trail of the floors on which
encounters were created, the encounters credited as defeated and the treasure rooms entered; and what the settler
has ever credited to an actor.

**Casino tables** (`Casino*.dfy`). Indian poker, high-low and doppelganger in a room with joins, departures and
kicks: where every coin goes, why card games end, what distinct cards make of a winner, who leads afterwards. `CasinoGames`
carries this through whole dealt games, `CasinoBooks` balances the coins of whole room histories, and `CasinoCases`
holds concrete rooms, from their creation on. `CasinoShowdowns` says who is paid what at a showdown, in terms of the
hands alone, and `CasinoGates` which moves and memberships a room accepts.

**Contest rounds** (`Contest*.dfy`). The preparing, active, settled line of rounds with quorum, postponement,
ranking, prizes and scheduled settlement actions that may be delivered any number of times. `ContestDeliveries` follows
an action's deliveries from before its round exists, `ContestWorker` its states under a worker that may stop anywhere. `ContestSettlements` says exactly which round a
settlement starts, postpones or closes and what that pays, and `ContestGates` which entries and votes are accepted.

**Consumption over stacks** (`Items*.dfy`). Taking items from several stacks that shrink while they are walked, with
equipment pointing into them, and the synthesis state machine on top. `ItemsNamed` is about requests that
name stacks, `ItemsMixed` about lists of both kinds.

## Properties the code does not have

Each of these is proved as an exact condition and, where the state can be reached in a few steps, shown by a
concrete one.

- A high-low pot disappears when nobody wins. `CasinoCoins.HighLowPotVanishes` says exactly when that is, and
  `CasinoCoins.CallersLoseThePot` gives two players who lose thirty coins to nobody.
- An Indian poker pot disappears exactly when no unfolded hand holds a card (`CasinoCoins.IndianPotVanishes`,
  `CasinoCoins.IndianConserves`), which takes somebody who sat down after the deal:
  `CasinoCases.LatecomerCostsThePot`. A game with the roster it was dealt to loses nothing:
  `CasinoGames.DealtGameLosesNothing`.
- A casino leader who is ruined in a game that nobody wins is ejected and not replaced: `CasinoRooms.LeaderAfterGame`
  is the exact condition, before the action, under which the room still has a playing leader, and
  `CasinoCases.RuinedLeaderStays` a room that has none.
- Leaving in the middle of a card game can leave it with nobody able to act: `CasinoRooms.LeavingCanWedge` says
  exactly when, and `CasinoCases.LastToActLeaves` gives a room; whoever sits down then may act
  (`CasinoRooms.NewcomerMayAct`). Ending within five actions a head is therefore
  stated for the roster that was dealt to, in `CasinoDealing.GamesEnd`.
- The pot of a game disappears with its room when the last participant leaves: `CasinoCases.ClosingTakesThePot`. Over
  whole room histories this, a showdown without a winner and the rest of a division are all that is ever lost, and
  `CasinoBooks.Cost` tells the loss from the table before the event: `CasinoBooks.BooksBalance`.
- A challenge run whose live entry has expired strands its party. At rest, a command that the run waits for is accepted
  if and only if the clock has not reached the expiry (`ChallengeExpiry.CommandIsTakenIff`); from then on nothing that
  happens changes the run, its members keep their claims, which only an acknowledged departure deletes, and none of
  them can be in another party that starts: `ChallengeExpiry.ExpiredPartyIsStranded`, with
  `ChallengeExpiry.HeroIsStranded` as a history.
- A contest action identifier holds whole seconds while a deadline may have a fraction. An action then reads back
  as earlier than its own deadline, is taken for already answered and settles nothing, and every repair of the
  schedule adds one more action: `ContestRuns.OwnActionCountsIffWholeSecond` and
  `ContestRuns.ScheduleSettlesIffWholeSecond` hold if and only if the deadline is a whole second. The SQL column
  keeps whole seconds, so there it concerns a round that was just created and not read back yet.
- A worker that stops between marking a settlement action and saving its outcome holds the action's place in the
  schedule: after a repair an action waits for the open deadline exactly when one waited before or no stopped one
  serves it (`ContestWorker.RepairWaitsIff`), and `ContestWorker.StoppedWorkerHoldsTheSchedule` is such a history.
- A cleared normal run does not prove a defeated boss: the pending mark survives the replacement of a living boss.
  A run is cleared exactly when a floor-10 encounter of it was credited or its treasure room was entered with the
  clear pending (`RunClears.EventMoves` for one event, `RunClears.ClearHappened` over histories), so without a
  credited boss exactly when only the second happened (`RunClears.ClearedWithoutBossIff`), as in
  `RunSkippedBoss.BossIsSkipped`.
- The Try stock of a run that is cleaned up is neither paid nor forfeited: it stays conditional for good, since nothing
  writes the ledger of an ended participation but the payment of what was pending (`RunTheorems.TryStockStandsStill`).
  The comment there intends this (internal/adventure/normal_retained.go:24).
- The stacks of a bag may cover a list of requests that is still refused, since a request for any stack may use up
  the one that a later request names: `ItemsNamed.MixedListsDependOnOrder`. Exactly which lists are met is arithmetic
  on the stacks and the list (`ItemsMixed.ListIsMetIff`), and a list that names stacks first is met exactly when the
  stacks cover it (`ItemsMixed.NamedFirstIsMetIff`). Normal runs refuse unnamed entries
  (internal/adventure/normal_command.go:153-163); unnamed ones come from revivals
  (internal/core/battle/automatic_revival.go:113, internal/core/battle/defeat.go:85) and from the chests of a crawl
  (internal/adventure/crawl.go:423). The two herbs are an input of the consumption, not shown to come from a caller.
- The postponement of an active contest round is dead code as long as no entry is deleted:
  `ContestQuorum.RunningRoundIsSettledAndPaid`.

## Model

| member | source | states |
|---|---|---|
| `ChallengeRules.DepartureShrinksRoster` | internal/challenge/exit.go:14-50 | a departure settles exactly the leaving member, keeps every survivor verbatim, leaves the roster one smaller and distinct, ends the run exactly when nobody is left, and otherwise leaves a leader who is a member |
| `ChallengeRules.RoundKeepsEnrolment` | internal/challenge/session.go:99-270 | a round never changes who is enrolled, in which order, or who leads; it settles everybody when it ends the run and nobody when it does not |
| `ChallengeRules.RoundKeepsRewardsCovered` | internal/challenge/session.go:198-214 | no member's buffered reward exceeds the run's total after a round, and none of those a defeat settles does either |
| `ChallengeRules.DepartureKeepsRewardsCovered` | internal/challenge/exit.go:14-50 | the same bound survives a departure and holds for what the departing member is settled with |
| `ChallengeRules.ExitMembers` | internal/challenge/exit.go:16-48 | the loops over members and awards compute the departure that the theorems are about |
| `ChallengeRules.FightRound` | internal/challenge/session.go:192-206 | the loop over members computes everybody's state after the battle and the leader's reported health |
| `ChallengeRules.ComputeRound` | internal/challenge/session.go:99-270 | the win, treasure and defeat branches compute the round that the theorems are about |
| `ChallengeRounds.TreasureIsFoundIff` | internal/challenge/session.go:116-142 | a treasure is found if and only if the run has none, the pool holds some, the threshold round is reached and luck agrees; it comes from the pool, is owed to the leader and costs and earns nobody anything |
| `ChallengeRounds.RoundIsWonIff` | internal/challenge/session.go:192-270 | without a treasure a round is won if and only if the engine says so and somebody stood, and the run goes on if and only if it is won; what a won and a lost round do to the round number, the treasures and the roster |
| `ChallengeRounds.BattleLeaves` | internal/challenge/round_battle.go:86-108 | reported health and magic are taken over within their limits; whoever is not reported keeps its health on a win and has none on a loss |
| `ChallengeRounds.MonstersPay` | internal/challenge/session.go:185-227 | a lost round earns nothing; a won one earns nothing without monsters, and each further monster adds exactly its own experience and gold |
| `ChallengeRounds.DepartureHandsOver` | internal/challenge/exit.go:14-50 | the run is claimed if and only if nobody stays; a leader who goes is followed by the first who stays, with that member's health; exactly the leaver's treasures are handed out |
| `ChallengeRounds.StayersKeepOrder` | internal/challenge/exit.go:14-50 | those who stay keep their order |
| `ChallengeRewards.RoundAccounts` | internal/challenge/session.go:116-227 | the run's totals grow by exactly what the round reports; whoever stands afterwards earns all of it and the fallen nothing; a found treasure costs nobody anything; health stays in range; the report says the run ended exactly when it was lost |
| `ChallengeRewards.TurnKeepsBooks` | internal/challenge/exit.go:36-47 | every accepted command keeps the leader's health equal to the leading member's, every undelivered award with somebody who still plays, and moves treasure only from owed to handed out |
| `ChallengeRewards.TreasuresAreHandedOutOnce` | internal/database/challenge_participant_settlement.go:50-56 | over any sequence of accepted rounds and departures from a fresh run, the treasures found are those handed out plus those still owed, and once the run is over they are exactly those handed out |
| `ChallengeStores.RedeliveryChangesNothing` | internal/challenge/memory_run_store.go:26-74 | delivering a publication again, at any later time, succeeds and leaves the live store as it was |
| `ChallengeStores.DelayedCleanupSparesReplacement` | internal/challenge/memory_run_store.go:57-61 | publishing a run late never unbinds or rebinds an actor whose live index entry names another run, even when the publication stops half way |
| `ChallengeStores.PayRecords` | internal/database/challenge_participant_settlement.go:59-75 | a settlement writes every listed member's own snapshot and touches no other participant row |
| `ChallengeStores.TransitionRepository.EnrollRun` | internal/challenge/memory_transition.go:88-100 | all members are bound and enrolled, or one is taken and nothing changes |
| `ChallengeStores.TransitionRepository.Save` | internal/challenge/memory_transition.go:101-135 | the transition and its receipt are stored together, or a pending or out-of-order one is refused and nothing changes |
| `ChallengeStores.TransitionRepository.AcknowledgePublication` | internal/challenge/memory_transition.go:136-152 | the acknowledged row is no longer pending and only departed actors' claims on this run go |
| `ChallengeStores.TransitionRepository.FinalizeSession` | internal/database/challenge_participant_settlement.go:14-77 | every listed participant is paid, or one is unknown, repeated or already paid and nobody is |
| `ChallengeStores.TransitionRepository.Restore` | internal/challenge/memory_transition.go:28-52 | a failed transaction leaves the coordinator exactly as its snapshot |
| `ChallengeStores.SessionStore.PublishRun` | internal/challenge/memory_run_store.go:26-74 | the store after a publication attempt, including the half-written one a foreign index entry would leave, and the error |
| `ChallengeGates.PublishedIff` | internal/challenge/memory_run_store.go:26-74 | a publication succeeds if and only if its body is the run's, newer than the live one or the very same, no old session contradicts it and nobody it binds is indexed elsewhere; and exactly what it writes |
| `ChallengeGates.RefusedPublication` | internal/challenge/memory_run_store.go:29-56 | a refused publication leaves the live store alone unless it met a member indexed under another run; then the body is there and exactly the members before that one are indexed |
| `ChallengeGates.FinalizedIff` | internal/database/challenge_participant_settlement.go:14-77 | a settlement is accepted if and only if the run rests at the revision meant, nobody is listed twice and everybody listed is enrolled and unpaid; it pays exactly them |
| `ChallengeInvariants.ClaimedRosterIsFree` | internal/challenge/memory_run_store.go:47-52 | when the live index agrees with the claims, the walk over a claimed roster meets no foreign entry and binds all of it |
| `ChallengeInvariants.PendingPublicationSucceeds` | internal/challenge/memory_run_store.go:26-74 | in a consistent state a pending publication carries the last accepted body, always succeeds and is applied whole; no foreign old session, later body or foreign index entry can stop it |
| `ChallengeInvariants.RedeliverKeepsInv` | internal/challenge/transition.go:81-92 | whatever fails during a delivery, the state is consistent both with and without its durable half, so an outer rollback that undoes the acknowledgement but not the live write is harmless |
| `ChallengeInvariants.AcknowledgementKeepsInv` | internal/challenge/memory_transition.go:136-152 | once the live store holds the committed body, acknowledging it succeeds and keeps everything consistent |
| `ChallengeSteps.SettlementNeverRefused` | internal/database/challenge_participant_settlement.go:17-30 | whoever still plays a run at rest is unpaid, so settling any distinct ones of them succeeds |
| `ChallengeSteps.OutcomeFollows` | internal/challenge/exit.go:14-50 | every accepted command leaves a playable roster or ends the run, and settles exactly those who left it |
| `ChallengeSteps.AcceptKeepsInv` | internal/challenge/transition.go:136-165 | an accepted command appends exactly one entry to its run's history and keeps every table consistent |
| `ChallengeSteps.StartKeepsInv` | internal/challenge/party.go:49-218 | a started run enters the protocol with a history of one command, nobody settled and everybody claimed |
| `ChallengeSteps.MigrateKeepsInv` | internal/challenge/run_start.go:33-71 | migration of an old session does the same, once, and does nothing to a run already in the protocol |
| `ChallengeGates.AcceptedIff` | internal/challenge/transition.go:104-166 | a command without a receipt on a run at rest is accepted if and only if the run plays and has not expired, its actor plays it, the revision fits and a first round is the leader's; it writes exactly the computed body, one receipt and the rows of those it settles, or nothing |
| `ChallengeGates.StartedIff` | internal/challenge/party.go:49-218 | a start under a new identity is accepted if and only if the party is well formed and all of it is free and fit; the first body holds the admitted members in order, the leader's health and nothing earned |
| `ChallengeGates.MigratedIff` | internal/challenge/run_start.go:33-71 | an old session enters the protocol if and only if an admitted member asks and it is unexpired, active and has the admitted party; it enters unchanged but for awards for treasures that had none |
| `ChallengeGates.RedeliveredHow` | internal/challenge/transition.go:81-92 | a delivery is through if and only if its publication was answered and acknowledged; every other one leaves the durable side to be delivered again and, once the live store was reached, the last committed body live |
| `ChallengeGates.AnsweredIff` | internal/challenge/transition.go:104-186 | a call whose transaction commits on a run at rest is answered with a result if and only if it names actor, run and revision and its receipt is of that command or, without one, the command is accepted |
| `ChallengeGates.StartIsAnswered` | internal/challenge/run_start.go:9-29 | a start's receipt is stored if and only if the party was let in and nothing was rolled back, and the reply carries it if and only if it is stored and known |
| `ChallengeGates.MigrationIsAnswered` | internal/challenge/run_start.go:33-84 | an old session is in the protocol if and only if it may migrate and nothing was rolled back, and it is published at once if and only if that is known |
| `ChallengeGates.MigratingAgain` | internal/challenge/run_start.go:46-84 | a run in the protocol is only delivered, with its rows as they were |
| `ChallengeRuns.MutateBodyKeepsInv` | internal/challenge/transition.go:113-166 | the whole transaction of a command keeps the invariant if it commits and, if it does not, with its live writes alone |
| `ChallengeRuns.SectionKeepsInv` | internal/challenge/memory_transition.go:28-52 | every critical section, under any fault plan, takes a consistent state to a consistent state |
| `ChallengeRuns.ExecutionKeepsInv` | internal/challenge/transition.go:81-186 | so does every interleaving of sections from any initial state |
| `ChallengeRuns.ReachableInv` | internal/challenge/transition.go:81-186 | hence every reachable state is consistent, whatever crashed, was rolled back or lost its reply |
| `ChallengeRuns.LiveRunIsCommitted` | internal/challenge/transition.go:81-186 | in every reachable state the live run at revision r is the body committed at r, and it is the last one or, only while pending, the one before |
| `ChallengeRuns.ClaimsFollowTheRoster` | internal/challenge/memory_transition.go:88-152 | a claim names a run exactly while the actor is in its last committed active roster or was removed by a transition not yet acknowledged; every live index entry equals the claim |
| `ChallengeRuns.PublicationIsAllOrNothing` | internal/challenge/memory_run_store.go:26-74 | in every reachable state a pending publication is delivered completely: every refusal of the live store, the half-applied one included, is unreachable |
| `ChallengeRuns.FaultlessDeliveryClears` | internal/challenge/transition.go:81-92 | in every reachable state one delivery that meets no fault ends the pending state: no error, the last committed body live, the revision unmoved |
| `ChallengeRuns.OneCommandPerRevision` | internal/challenge/memory_transition.go:101-135 | every revision below the committed one has an accepted command, of exactly one actor |
| `ChallengeRuns.ChainPartitionsRoster` | internal/challenge/exit.go:14-50 | those settled so far and those still playing partition the first roster, and no two commands settle the same person |
| `ChallengeRuns.SettlementsPartitionTheRoster` | internal/challenge/session.go:229-270 | over a whole run settlements are pairwise disjoint; once it is claimed or defeated they are the enrolled roster; while it is active its leader is a member |
| `ChallengeRuns.PaidExactlyWhenSettled` | internal/database/challenge_participant_settlement.go:59-75 | a participant row is enrolled exactly while the actor plays and paid exactly when some accepted command settled the actor, with that command's snapshot |
| `ChallengeRuns.ReachableSettlementAccepted` | internal/database/challenge_participant_settlement.go:17-30 | in every reachable state at rest a settlement of people who still play is accepted |
| `ChallengeRuns.RetryReturnsTheReceipt` | internal/challenge/transition.go:122-135 | a retry at a stored key returns the stored receipt, or refuses another action there, and neither recomputes, pays nor moves the revision |
| `ChallengeRuns.ReplyTellsTheTruth` | internal/challenge/transition.go:167-185 | a reply with a result shows the durable receipt of that very command, and one without means the command is not in the history unless the receipt could not be read |
| `ChallengeExpiry.CommandIsTakenIff` | internal/challenge/transition.go:136-142 | a command that a run at rest waits for is accepted if and only if the run has not expired; later it is answered with the need for recovery and changes nothing |
| `ChallengeExpiry.ClaimedCannotStart` | internal/challenge/memory_transition.go:88-100 | no party with somebody who is claimed by a run can start, and trying changes nothing |
| `ChallengeExpiry.LateChangesNothing` | internal/challenge/transition.go:122-142 | no command on an expired run at rest changes anything, and only a stored one is answered with a result |
| `ChallengeExpiry.ExpiredStays` | internal/challenge/memory_run_store.go:16-24 | through every execution in which its commands come too late, a run at rest keeps its row, its live body, its expiry and the claims on it |
| `ChallengeExpiry.ExpiredPartyIsStranded` | internal/challenge/memory_transition.go:136-152 | from any reachable state on, every member of such a roster stays claimed by a run that accepts nothing new, and can be in no party that starts |
| `ChallengeExpiry.HeroIsStranded` | internal/challenge/memory_run_store.go:16-24 | a concrete start and publication after which nothing that happens past the deadline frees the one member |
| `ChallengeService.Service.Redeliver` | internal/challenge/transition.go:81-92 | delivery inside an open transaction, step by step over the two stores, is the protocol's |
| `ChallengeService.Service.PublishPending` | internal/challenge/transition.go:81-92 | delivery in its own transaction, undone on failure except for the live write |
| `ChallengeService.Service.Accept` | internal/challenge/transition.go:136-165 | reading the live run, computing and saving the transition is the protocol's accept step |
| `ChallengeService.Service.Mutate` | internal/challenge/transition.go:104-186 | transaction, reconciliation of a lost reply and final publication give exactly the protocol's world and reply |
| `ChallengeService.Service.StartRun` | internal/challenge/run_start.go:9-29 | starting, reconciling and publishing give exactly the protocol's world and reply |
| `ChallengeService.Service.Admit` | internal/challenge/party.go:89-175 | the admission loop stops at the first refusal and otherwise lists fresh members in request order |
| `ChallengeService.Service.MigrateSession` | internal/challenge/run_start.go:33-84 | migrating, reconciling and publishing give exactly the protocol's world and error |
| `RunEarnings.ScaleTryIsFloorOfThreeHalves` | internal/adventure/normal_earnings.go:26-29 | Try stock becomes exactly the integer part of one and a half times itself, component by component |
| `RunEarnings.ScaleTryFailsOnlyOnOverflow` | internal/adventure/normal_earnings.go:9-29 | for non-negative stock the conversion succeeds if and only if the scaled amounts fit 64 bits |
| `RunEarnings.RecordBalances` | internal/adventure/normal_earnings.go:31-49 | recording adds the amount to what is unpaid, in one bucket, and leaves what is paid alone |
| `RunStock.RecordFillsBucket` | internal/adventure/normal_earnings.go:31-49 | an earning is added to the conditional stock in Try mode and to the pending stock in every other, and the other bucket stays |
| `RunStock.RecordAllFills` | internal/adventure/normal_earnings.go:31-49 | every member's row takes exactly the sum of its own gains, in the mode's bucket |
| `RunEarnings.ConvertBalances` | internal/adventure/normal_progress.go:175-190 | conversion empties the conditional bucket into pending at floor of three halves and keeps the ledger balanced |
| `RunStock.TreasureRoomConverts` | internal/adventure/normal_progress.go:165-196 | the first treasure room of a Try run turns everybody's conditional stock into pending at floor of three halves and ends the mode; in any other mode it moves no stock |
| `RunStock.ActMovesStock` | internal/adventure/normal_command.go:72-135 | of all that an action other than leaving does, only that treasure room moves stock, whatever is fought, travelled or recreated in it |
| `RunStock.CommandPays` | internal/adventure/normal_command.go:136-184 | outside Try an accepted releasing combat, advance or chest credits its actor exactly what was pending, its own gains and its retained balances; in Try or without a release nothing; nobody else anything |
| `RunStock.DeparturePays` | internal/adventure/normal_exit.go:13-49 | a departure credits exactly what was pending, the bonus and the retained balances, in every mode |
| `RunStock.ExitBonusIs` | internal/adventure/normal_exit.go:22-36 | twenty experience a floor with the experience charm worn and carried, the draw with the gold charm, otherwise nothing; it fails only when that does not fit |
| `RunStock.OnlyTryIsConditional` | internal/adventure/normal_earnings.go:31-49 | over any history a run that was not admitted in Try mode is never in it and no row of it ever holds conditional stock |
| `RunEarnings.ReleaseBalances` | internal/adventure/normal_command.go:173-180 | a release moves exactly the pending stock to applied |
| `RunEarnings.LeaveBalances` | internal/adventure/normal_exit.go:22-43 | a departure pays everything pending plus the bonus and forfeits exactly the conditional stock |
| `RunProgress.CreateKeepsProvenance` | internal/adventure/normal_ex.go:29-37 | clear credit becomes pending only when a floor-10 encounter is created and actual only in the treasure room; creation never moves the floor |
| `RunProgress.AdvanceKeepsProvenance` | internal/adventure/normal_progress.go:11-57 | an advance climbs exactly one floor, stays within 0 to 12, reaches 12 only with EX unlocked, needs no living enemy or unopened box before, and keeps clear credit honest |
| `RunProgress.ConvertAllBalances` | internal/adventure/normal_progress.go:175-190 | every member's conditional stock is emptied into pending and nobody else's ledger is touched |
| `RunNpc.RotationIsPermutation` | internal/adventure/normal_npc.go:22-35 | a response loses and duplicates no enemy |
| `RunNpc.FirstEligibleIsFirst` | internal/adventure/normal_npc.go:10-18 | the scan returns the first eligible enemy in list order |
| `RunNpc.BoundedWaiting` | internal/adventure/normal_npc.go:10-35 | an enemy at position k that stays eligible is selected within k+1 responses, whatever the fights between them do to everybody else |
| `RunOrder.SortedIdsAre` | internal/adventure/normal_exit.go:66-67 | the order in which a roster is locked, timed out and handed over is sorted and a permutation of the roster |
| `RunTravel.TravelStaysHonest` | internal/adventure/combat_travel.go:184-222 | no travel tool creates clear credit without a created boss, moves the floor out of range, or takes back a mark |
| `RunTravel.RoomStaysHonest` | internal/adventure/job_encounter.go:43-92 | the same holds when a job recreates the room, here or one floor deeper |
| `RunTravel.ResponseStaysHonest` | internal/adventure/combat_travel.go:58-90 | bringing the replaced side back for its response keeps it too, and moves neither floor nor stage |
| `RunTravel.ResponseKeepsCoordinatesApart` | internal/adventure/combat_travel.go:58-90 | the response after a floor change plays against the encounter that was left, by name and provenance, on the floor that was reached; without a responder the new encounter stands |
| `RunGates.ToolLeads` | internal/adventure/combat_travel.go:181-222 | where every tool leads: a stage of its own, floor 10, one floor up, or the floor asked for within 1 to 10; and which of them take an input |
| `RunGates.AdvanceOpenIff` | internal/adventure/normal_progress.go:11-40 | an advance is open if and only if the actor stands, leads when the run starts, nothing hostile stands and no box is unopened, and there is a way up |
| `RunGates.FloorIsFurnished` | internal/adventure/normal_progress.go:40-122 | what stands on a floor just reached, its provenance, and exactly when the EX boss is unlocked on the way |
| `RunGates.ChestOpensIff` | internal/adventure/normal_progress.go:124-162 | a box is given if and only if a standing actor asks in the treasure room for one that nobody has, with a pocket for every further one; no other box changes |
| `RunInvariants.TotalPaid` | internal/adventure/normal_retained.go:25-39 | paying one ledger row raises its actor's total over all runs by exactly that payment |
| `RunPayments.FoundSnapshot` | internal/database/adventure_run_repository.go:244-267 | the retained-balance query answers every released, timed-out row with something pending, once |
| `RunPayments.DueIsSum` | internal/adventure/normal_retained.go:8-20 | what is due is the run's own pending stock plus all retained balances |
| `RunPayments.SettleRetainedSettles` | internal/adventure/normal_retained.go:25-39 | exactly the retained rows are paid off and nothing else changes |
| `RunPayments.SettledTotal` | internal/adventure/normal_retained.go:25-39 | paying them off raises the actor's applied total by exactly their sum |
| `RunPayments.PayActorBalances` | internal/adventure/normal_command.go:141-184 | the settler's credit and the actor's ledgers move by the same amount and nobody else is credited |
| `RunSteps.PlayCarries` | internal/adventure/combat_travel.go:181-222 | any sequence of fighting, travel, room changes and responses carries party, ledgers and marks forward honestly |
| `RunSteps.BattleCarries` | internal/adventure/normal_command.go:106-135 | so does a whole combat command with its defeats, rejoining members and encounter credit |
| `RunSteps.ChestIsTakenOnce` | internal/adventure/normal_progress.go:124-162 | a claimed box is that actor's for good, the first look is free, every further one needs a pocket, and no later claim of the box succeeds |
| `RunSteps.RecordAllCarries` | internal/adventure/normal_earnings.go:31-49 | recording an action's earnings touches only present members' unpaid stock |
| `RunSteps.ActCarries` | internal/adventure/normal_command.go:74-135 | every action except leaving and cleanup carries the run forward |
| `RunCommits.WithoutIs` | internal/adventure/normal_command.go:195 | taking a member off the roster removes exactly that member |
| `RunGates.LeadPassesOn` | internal/adventure/normal_command.go:195-202 | the leaver goes from roster and field and nobody else does; the first who stays inherits the lead of a leader |
| `RunGates.StayInOrder` | internal/adventure/normal_command.go:195 | those who stay keep their order |
| `RunGates.AdmissibleIff` | internal/adventure/normal_command.go:48-68 | a command is admitted if and only if a present member's owner sends it at the run's version, nobody of the roster changed hands and the run has not timed out |
| `RunGates.QuietActionsWait` | internal/adventure/normal_command.go:72-76 | advances, chests and departures wait for the actor's own clock |
| `RunGates.ClocksFollow` | internal/adventure/normal_command.go:205-211 | the idle clock moves if and only if the command counts as activity in the room, and the actor's clock when it counts as the actor's |
| `RunGates.CleanedUpIff` | internal/adventure/normal_command.go:99-105 | a cleanup is accepted if and only if nothing has happened in the room for more than half an hour; everybody on the roster is then timed out for an hour from that moment and nobody is paid |
| `RunCommits.SaveStores` | internal/adventure/normal_command.go:211-226 | saving a command's run stores exactly the successor, one version later, and one receipt that was not there before |
| `RunCommits.PaidCredits` | internal/adventure/normal_command.go:164-184 | credit and applied totals agree after the command if they did before it |
| `RunRuns.ContinueKeepsInv` | internal/adventure/normal_command.go:38-226 | an accepted advance, chest or combat command keeps every table consistent and moves only its own run, forwards |
| `RunRuns.LeaveKeepsInv` | internal/adventure/normal_command.go:185-203 | so does an accepted exit, which settles the leaver, hands over the lead and writes one record |
| `RunEntries.CleanUpKeepsInv` | internal/adventure/normal_exit.go:65-86 | so does a cleanup, which times the whole roster out with one record each |
| `RunEntries.ProjectionKeepsInv` | internal/adventure/normal_exit.go:118-131 | handing over deadlines is consistent however far it gets |
| `RunEntries.RecoverKeepsInv` | internal/adventure/normal_exit.go:91-137 | so is recovery under any timer failure and commit outcome |
| `RunAdmission.NewRunIsSound` | internal/adventure/normal_admission.go:114-237 | an admitted party is a sound run: distinct members, led by one of them, everybody playing with an empty ledger |
| `RunGates.PartyAdmissibleIff` | internal/adventure/normal_admission.go:114-126 | a party is admissible if and only if it is one to four distinct named characters, led by the one who asks, at one of the three speeds |
| `RunEncounters.EncounterCreatedIff` | internal/adventure/normal_progress.go:59-122 | an encounter is created if and only if one was drawn and, on an ordinary stage, the floor is 1 to 10 or has an EX boss |
| `RunEncounters.EncounterJoins` | internal/adventure/normal_progress.go:72-78 | everybody stays, the drawn members join as the last enemies, and only an EX boss restores exactly the actor's team on the field to full health |
| `RunEncounters.ToolOpenIff` | internal/adventure/combat_travel.go:94-157 | a travel tool is open if and only if a standing member gives it just the input it takes and what that tool needs is there: its stage, a costume, a choice, or a possible replacement |
| `RunEncounters.ReplacementOpenIff` | internal/adventure/combat_travel.go:118-147 | a replacement is open if and only if the floor is 1 to 10 on an ordinary stage, the reset is this actor's and these enemies', nobody is detached and every enemy comes from the catalog |
| `RunEncounters.RoomOpenIff` | internal/adventure/job_encounter.go:43-54 | a job's room is open one floor deeper if and only if a replacement there is, in place if and only if on an ordinary stage up to the treasure room |
| `RunEncounters.RoomIsMade` | internal/adventure/job_encounter.go:73-84 | the room is a replacement on that floor and unseals on the treasure floor of one stage |
| `RunEncounters.OldSideIsKept` | internal/adventure/combat_travel.go:259-288 | a replacement keeps every old enemy aside in order, with its clock and the encounter's provenance |
| `RunEncounters.NewMembersAre` | internal/adventure/combat_travel.go:259-288 | a new member takes over the identifier of the first old one made from the same entry, and nothing else |
| `RunEncounters.ResponseIs` | internal/adventure/combat_travel.go:58-90 | nobody answers once the treasure room was left; otherwise the first that may, in order, and only then does the replaced side come back, as it was but for members that took over an identifier |
| `RunEncounters.AnswerRecordedIff` | internal/adventure/normal_npc.go:22-35 | an answer is recorded if and only if the enemy is one and an NPC; its clock is set and the first enemy goes last |
| `RunEncounters.RejoinedAre` | internal/adventure/normal_command.go:117-125 | combatants kept aside may rejoin if and only if each is there, of another team and not an enemy yet; those who stand come back last, in order |
| `RunEncounters.TrimmedIs` | internal/adventure/normal_ex.go:49-50 | an identity loses exactly its trailing letters A to H |
| `RunEncounters.BeeUnlocks` | internal/adventure/normal_ex.go:44-54 | the EX boss of one stage is unlocked if and only if a royal bee fell there with the lucky draw, and nothing else about the run changes |
| `RunRecords.TakenUpIff` | internal/adventure/normal_command.go:16-21 | a command is taken up if and only if the actor's owner sends it, for a named run, under an identifier that is neither blank nor too long, and it is not an admission |
| `RunRecords.ReceiptTells` | internal/adventure/normal_command.go:203-222 | an accepted command stores one receipt, which tells the stored version, place, box and row; history grows by the leaver's entry, by one for everybody timed out, or not at all |
| `RunRecords.SettlementNeeds` | internal/adventure/normal_command.go:138-163 | gains go to members alone, and what is used up is named, some, and a member's or the actor's |
| `RunRecords.SpendingIff` | internal/adventure/normal_command.go:154-163 | an action that earns and releases nothing is settled if and only if what it used up may be used |
| `RunRecords.OwedAreFound` | internal/adventure/normal_retained.go:8-23 | the query answers exactly the runs that still owe the actor something: timed out, given back, with something pending |
| `RunRecords.PaidOffIff` | internal/database/adventure_run_repository.go:274-305 | a retained balance is paid off if and only if its row is still timed out, given back and owes what was found; no other row moves |
| `RunRecords.RecoveryIs` | internal/adventure/normal_exit.go:91-137 | recovery is for the owner of a participant of a timed-out run; it hands over deadlines in order as far as the timer answers, and then sets exactly the roster free, or leaves the tables to be recovered again |
| `RunRecords.ProjectedIff` | internal/adventure/normal_exit.go:118-131 | a deadline is handed over if and only if it is still to be served and its character comes before the timer's failure, or at it when that took effect |
| `RunRecords.EnteredIff` | internal/adventure/normal_admission.go:128-253 | a party is admitted if and only if all of it exists and is in no run, the actor is the player's, nothing else refuses and the stage is known; the run then stands at the entrance, unrewarded, with everybody enrolled |
| `RunAdmission.EnterKeepsInv` | internal/adventure/normal_admission.go:107-253 | admission keeps every table consistent under any commit outcome |
| `RunTheorems.EventKeepsInv` | internal/adventure/normal_command.go:15-233 | every call by anybody keeps every table consistent, moves only its own run, forwards, and rewrites no ended participation |
| `RunTheorems.ReachableInv` | internal/adventure/normal_command.go:15-233 | hence every history of admissions, commands, cleanups and recoveries ends in consistent tables |
| `RunTheorems.CreditedIsApplied` | internal/adventure/normal_command.go:136-184 | everything ever credited to an actor equals the applied stock of all its runs, timed-out ones included, and every recorded earning and bonus is in exactly one of pending, conditional, applied or forfeited |
| `RunTheorems.ReleasePaysEverything` | internal/adventure/normal_retained.go:8-39 | after a release the actor has nothing pending in the run and nothing retained anywhere |
| `RunTheorems.AcceptedOnce` | internal/adventure/normal_command.go:51-226 | an accepted command raises its run's version by exactly one, adds exactly its own receipt and touches no other run's header |
| `RunTheorems.LostReplyIsNoLoss` | internal/adventure/normal_admission.go:255-275 | when the receipt can be read, a commit whose reply was lost leaves the same tables and gives the same answer as one whose reply arrived |
| `RunTheorems.SuccessIsCommitted` | internal/adventure/normal_admission.go:255-275 | every success shown to a caller is a stored receipt of that very command |
| `RunTheorems.OneCommandPerVersion` | internal/adventure/normal_command.go:211-226 | in every reachable state no version of a run was reached by two commands |
| `RunTheorems.ClearNeedsCreatedBoss` | internal/adventure/normal_progress.go:191-194 | in every reachable state a run, and every history record, is cleared exactly when its trail has a credited floor-10 encounter or a treasure room entered with the clear pending, and either way a floor-10 encounter was created; the floor is in 0 to 12 |
| `RunTheorems.FloorsFollowCredit` | internal/adventure/normal_command.go:126-134 | over any history, in live runs and records, cleared floors are zero without a credited encounter and otherwise the highest floor of one that was created and credited, wherever the party stood |
| `RunTheorems.OneRunAtATime` | internal/adventure/normal_admission.go:166-173 | enrolment is exactly membership of a live roster, so nobody is in two |
| `RunTheorems.ParticipationIsAccounted` | internal/adventure/normal_exit.go:51-86 | each participation is playing, exited or timed out; it is playing exactly while enrolled in a run that has not timed out; an ended one has exactly one record, with its disposition; the leader is on the roster |
| `RunTheorems.ReleaseFollowsProjection` | internal/adventure/normal_exit.go:118-135 | a timed-out member is released only after its deadline was handed to the timer |
| `RunTheorems.EndsAreFinal` | internal/adventure/normal_exit.go:65-137 | from any point of a history on, an ended participation keeps its row: disposition, deadline and conditional stock stay for good; only the pending stock may still be paid, all at once, and the timer be served |
| `RunTheorems.TryStockStandsStill` | internal/adventure/normal_retained.go:25-39 | from the end of a participation on its conditional stock is neither paid nor converted nor forfeited, and paid and pending stock together stay what they were |
| `RunClears.CreditClearsIff` | internal/adventure/normal_command.go:126-134 | a credited encounter clears the run exactly with floor-10 provenance |
| `RunClears.CreditRaisesFloors` | internal/adventure/normal_command.go:130 | crediting an encounter makes cleared floors the larger of what they were and the encounter's own floor |
| `RunClears.CreditedIff` | internal/adventure/normal_command.go:126-129 | an encounter is credited if and only if nothing guards the floor any more and its floor is one of 1 to 10 or 12 |
| `RunClears.RoomClearsIff` | internal/adventure/job_encounter.go:43-92 | a recreated room clears exactly when it is the treasure room and the clear is pending |
| `RunClears.TravelClearsNothing` | internal/adventure/combat_travel.go:184-222 | no travel tool clears, wherever it leads, and only the floor-changing one creates an encounter |
| `RunClears.PlayClearsIff` | internal/adventure/combat_travel.go:181-222 | a whole script of fights, travel, rooms and responses clears exactly when somewhere in it the treasure room is recreated with the clear pending, and credits nothing |
| `RunClears.EventMoves` | internal/adventure/normal_progress.go:191-194 | whatever happens, a run turns cleared exactly with a command that credits a floor-10 encounter or enters the treasure room with the clear pending |
| `RunClears.ClearHappened` | internal/adventure/normal_command.go:126-134 | over any history a live run is cleared exactly when one of the two happened to it, and its trail tells which |
| `RunSkippedBoss.BossIsSkipped` | internal/adventure/combat_travel.go:206-216 | a concrete history of one admission and two commands ends with a run cleared past a boss that was created, left alive with all its health and never credited |
| `RunHistories.MarksNeverGoBack` | internal/adventure/normal_ex.go:14-54 | between any two points of a history at which a run lives, its clear, EX mark and cleared floors never go back and its trail only grows |
| `RunHistories.ReplayIsForever` | internal/adventure/normal_command.go:24-37 | a command accepted at one point of a history and delivered again at any later one gets its first receipt and changes nothing; any other command under its identifier fails |
| `RunHistories.RetriesMayBeStruck` | internal/adventure/normal_admission.go:255-275 | rolled-back attempts at commands and admissions, and later deliveries of a stored one, may be struck from a history anywhere: every table at every later point is what it would have been without them |
| `RunActive.ActiveRun.Discard` | internal/adventure/combat_travel.go:250-257 | the old side, its clocks and the boxes go, and nothing else |
| `RunActive.ActiveRun.CreateEncounter` | internal/adventure/normal_progress.go:59-122 | the new side joins, EX allies are restored, provenance and boss marks are set as specified |
| `RunActive.ActiveRun.ConvertTryStock` | internal/adventure/normal_progress.go:175-188 | the loop converts the roster's ledgers or stops with the first overflow |
| `RunActive.ActiveRun.CreateTreasure` | internal/adventure/normal_progress.go:165-196 | boxes, ledgers, mode and clear mark end up as the treasure room specifies |
| `RunActive.ActiveRun.Advance` | internal/adventure/normal_progress.go:11-57 | the guarded climb is the specified one, with its refusals in order |
| `RunActive.ActiveRun.ClaimChest` | internal/adventure/normal_progress.go:124-162 | the claim changes exactly the box and the ledger row specified |
| `RunActive.ActiveRun.Replace` | internal/adventure/combat_travel.go:259-288 | the old side is copied aside, the new one takes over identifiers and the destination floor |
| `RunActive.ActiveRun.Travel` | internal/adventure/combat_travel.go:184-222 | every tool's effect and refusal is the specified one |
| `RunActive.ActiveRun.Room` | internal/adventure/job_encounter.go:43-92 | a job-driven room is recreated as specified, here or one floor deeper |
| `RunActive.ActiveRun.BeginResponse` | internal/adventure/combat_travel.go:58-90 | the responder and the restored side are the specified ones |
| `RunActive.ActiveRun.RecordResponse` | internal/adventure/normal_npc.go:22-35 | the responder's clock is set and the list rotates, or an unknown one is refused |
| `RunActive.ActiveRun.RecordEarnings` | internal/adventure/normal_earnings.go:31-49 | the loop books every earning in its bucket or stops with the first refusal |
| `RunActive.ActiveRun.CreditEncounter` | internal/adventure/normal_command.go:126-134 | a finished encounter raises cleared floors and sets the clear mark exactly for floor-10 provenance |
| `RunActive.ActiveRun.PrepareExit` | internal/adventure/normal_exit.go:13-49 | the leaver's row is closed with its bonus and without its conditional stock |
| `RunActive.ActiveRun.TimeOut` | internal/adventure/normal_exit.go:65-86 | every member on the roster, in sorted order, is timed out with one and the same deadline |
| `RunService.NormalRunService.SaveRecipients` | internal/database/adventure_run_repository.go:142-178 | the loop writes every recipient's row and releases exactly the finished ones, or refuses a run with a missing row |
| `RunService.NormalRunService.SettleRetained` | internal/adventure/normal_retained.go:25-39 | the loop pays off the retained rows one by one, or stops with the first that changed |
| `RunService.NormalRunService.PayActor` | internal/adventure/normal_command.go:141-184 | due, credit, release and retained rows together are the specified payment |
| `RunService.NormalRunService.PlayAction` | internal/adventure/normal_command.go:69-226 | one action with its settlement, departure and saves is the specified transaction |
| `RunService.NormalRunService.Command` | internal/adventure/normal_command.go:15-233 | authorization, receipt check, version check, action and reconciliation give exactly the specified tables and answer, for every commit outcome |
| `RunService.NormalRunService.Recover` | internal/adventure/normal_exit.go:91-137 | deadlines go to the timer one by one in sorted order up to the first failure, and the roster is released only after the last |
| `RunService.NormalRunService.Execute` | internal/adventure/normal_command.go:228-232 | a cleanup goes on to recovery as soon as its receipt is known |
| `RunService.NormalRunService.Enter` | internal/adventure/normal_admission.go:107-275 | admission with its receipt, enrolment and reconciliation gives exactly the specified tables and answer |
| `CasinoCoins.BestUnfoldedIsBest` | internal/casino/indian_poker.go:262-275 | the winning hand is unfolded and beaten by no unfolded hand; there is none only if nobody unfolded holds a card |
| `CasinoCoins.BestHighIsBest` | internal/casino/highlow.go:292-298 | the high winner declared high and nobody who did holds more |
| `CasinoCoins.BestLowIsBest` | internal/casino/highlow.go:298-303 | the low winner declared low and nobody who did holds less |
| `CasinoCoins.IndianConserves` | internal/casino/indian_poker.go:176-304 | members' coins plus pot never change, except that the whole pot disappears exactly when the game ends with no card among the unfolded hands, which can be told from the table and the move |
| `CasinoCoins.IndianPotVanishes` | internal/casino/indian_poker.go:262-304 | nobody wins if and only if every unfolded hand belongs to somebody without a card |
| `CasinoCoins.IndianPays` | internal/casino/indian_poker.go:176-303 | every account's change: the actor pays its stake and the best unfolded hand gets the whole pot |
| `CasinoCoins.HighLowConserves` | internal/casino/highlow.go:207-367 | members' coins plus pot change only at a showdown, by the pot modulo the winners, or by the whole pot when nobody wins |
| `CasinoCoins.HighLowPays` | internal/casino/highlow.go:207-349 | every account's change: the actor pays its stake and each winner gets exactly its share |
| `CasinoCoins.HighLowPotVanishes` | internal/casino/highlow.go:306-349 | nobody wins if and only if nobody declared high with a card, nobody declared low, and not exactly one hand is unfolded |
| `CasinoCoins.CallersLoseThePot` | internal/casino/highlow.go:346-367 | two players who only call end the fifth round with the whole pot destroyed |
| `CasinoShowdowns.HighLowPaysHands` | internal/casino/highlow.go:270-349 | among distinct hands a finished game of high-low pays exactly the best high hand, the best low one unless it gives way at a table of two, or the only hand held when nobody declared: the pot to one, half of it to each of two |
| `CasinoShowdowns.HighLowSparesOthers` | internal/casino/highlow.go:207-349 | whoever is not at the table is neither charged nor paid |
| `CasinoShowdowns.HighLowEndsIff` | internal/casino/highlow.go:238-268 | high-low ends if and only if everybody has acted and somebody who holds on is out of coins, the bet is at its limit, at least half declared, or one hand is held; and what an action leaves of a game that goes on |
| `CasinoShowdowns.IndianEndsIff` | internal/casino/indian_poker.go:227-260 | Indian poker ends if and only if at most one hand is held, or everybody has acted and somebody is out of coins, the bet is at its limit or at least half ask for the showdown; and what an action leaves of a game that goes on |
| `CasinoShowdowns.IndianPaysHands` | internal/casino/indian_poker.go:262-295 | among distinct hands the whole pot goes to the highest hand held and nothing to anybody else |
| `CasinoCoins.DoppelConserves` | internal/casino/doppel.go:194-294 | coins plus pot change only by the rest of dividing the pot among the matching children, and somebody always wins |
| `CasinoShowdowns.DoppelPays` | internal/casino/doppel.go:194-290 | a mark is charged once; the game ends with the last mark and pays equal whole parts of the pot to those who doubled the leader's mark, one of whom leads then, or all of it to the leader |
| `CasinoBetting.ActedTable` | internal/casino/highlow.go:207-218 | an action takes one participant out of those who may still act and keeps the pot within its bound |
| `CasinoBetting.ActionGetsCloser` | internal/casino/highlow.go:253-283 | every accepted action ends the game or leaves strictly fewer possible actions |
| `CasinoBetting.RoundGetsCloser` | internal/casino/indian_poker.go:249-259 | a new round bets one rate more, reopens the unfolded hands and still needs no more actions than were left |
| `CasinoBetting.CeilingIsFifteen` | internal/casino/highlow.go:118-124 | five full rounds of n players add up to 15 times n times the rate |
| `CasinoBetting.PlayStaysBounded` | internal/casino/highlow.go:146-426 | after any accepted actions bets, pot and remaining actions are within their bounds |
| `CasinoDealing.DealDeals` | internal/casino/highlow.go:94-116 | every participant gets a card of the deck, no two the same, and nothing else about a member changes |
| `CasinoDealing.DealSucceeds` | internal/casino/highlow.go:94-116 | with enough cards and draws inside the shrinking deck dealing never fails |
| `CasinoDealing.StartDealsDistinctHands` | internal/casino/indian_poker.go:76-106 | a started game deals distinct cards in 0 to 12 |
| `CasinoDealing.ActionsKeepHands` | internal/casino/indian_poker.go:189-259 | until the showdown no action touches a card |
| `CasinoDealing.IndianWinnerIgnoresOrder` | internal/casino/indian_poker.go:262-275 | among dealt hands the winner does not depend on the order members are listed in |
| `CasinoDealing.HighLowWinnersIgnoreOrder` | internal/casino/highlow.go:285-349 | neither do highest, lowest and sole surviving hand |
| `CasinoDealing.StartIsBetting` | internal/casino/highlow.go:118-124 | a freshly dealt game of n has at most 5n actions left |
| `CasinoDealing.SomebodyMayFold` | internal/casino/highlow.go:169-178 | while a game with its dealt roster runs, somebody can act whatever anybody owns |
| `CasinoDealing.GamesEnd` | internal/casino/highlow.go:253-283 | from the deal on, with the roster dealt to, a game is over after at most 5n accepted actions; meanwhile the bet is round times rate, the round at most 5 and the pot at most 15 times n times rate |
| `CasinoGames.DealtHandsLast` | internal/casino/indian_poker.go:189-259 | from the deal to the showdown everybody keeps the card that was dealt and no two hold the same |
| `CasinoGames.DealtWinnersIgnoreOrder` | internal/casino/highlow.go:285-349 | the action that ends a dealt game finds the same winners in whatever order the members are listed |
| `CasinoGames.DealtGameLosesNothing` | internal/casino/indian_poker.go:176-304 | in a dealt game of Indian poker with its own roster no action changes what members own together with the pot, whatever happens to their accounts in between, and when it ends somebody has won and no pot is left |
| `CasinoGames.DealtGameRedistributes` | internal/casino/indian_poker.go:262-304 | played to its end without outside payments, such a game leaves its members together with exactly what they came with |
| `CasinoRooms.EventKeepsOk` | internal/casino/room_member.go:10-250 | joining, spectating, leaving, kicking, starting and playing keep the roster bound, distinct members and bets that follow rounds |
| `CasinoRooms.RoomsStayOk` | internal/casino/room_member.go:10-250 | so does every sequence of them |
| `CasinoRooms.DeckNeverRunsDry` | internal/casino/room_member.go:48-60 | in no room, whatever happened in it and whatever the random source answers, is a permitted start refused for want of cards, since there are at most eight participants |
| `CasinoRooms.BetsFollowRounds` | internal/casino/highlow.go:270-276 | in every room the bet is round times rate, at most five rounds, there is no pot outside a game and no winner is shown inside one |
| `CasinoRooms.LeaderAfterGame` | internal/casino/highlow.go:369-390 | whichever action of either card game ends it, the room is led by somebody who plays if and only if the old leader has coins left after stake and share, or somebody won and the first winner has |
| `CasinoRooms.LeavingCanWedge` | internal/casino/room_member.go:147-213 | a departure during a game leaves nobody able to act if and only if everybody who stays has already acted |
| `CasinoRooms.NewcomerMayAct` | internal/casino/room_member.go:48-70 | a wedged game is one for those who stay: whoever sits down may act |
| `CasinoGates.CreatedIff` | internal/casino/room.go:224-320 | who may open which room, and the room as it opens |
| `CasinoGates.JoinedIff` | internal/casino/room_member.go:10-79 | a character with a bet in hand takes a free seat of an open room, last in line and without a card, and only such a character |
| `CasinoGates.SpectatedIff` | internal/casino/room_member.go:90-137 | anybody who is not in an open room that allows it may watch, and nobody else |
| `CasinoGates.LeftIff` | internal/casino/room_member.go:147-170 | leaving is accepted if and only if whoever leaves is named and in the room |
| `CasinoGates.LeftHow` | internal/casino/room_member.go:147-215 | exactly the leaver goes and the order stays; a spectator changes nothing else; the room closes with the last at the table, otherwise the first who stays succeeds a leader |
| `CasinoGates.KickedIff` | internal/casino/room_member.go:218-250 | only the leader, only between games, only another member; and exactly that member goes |
| `CasinoGates.CardsStartWith` | internal/casino/highlow.go:56-140 | a game of cards starts for the leader of two or more with distinct hands, the first bet at the rate and the limit at five times it |
| `CasinoGates.DoppelStartsIff` | internal/casino/doppel.go:60-117 | doppelganger starts if and only if the leader of two or more asks between games, with nobody's mark down |
| `CasinoGates.IndianPlayedIff` | internal/casino/indian_poker.go:150-163 | in Indian poker an action is accepted if and only if it is a call, a showdown or a fold of somebody at the table who has not acted |
| `CasinoGates.HighLowPlayedIff` | internal/casino/highlow.go:160-206 | the same for high-low, where low takes a table of more than two |
| `CasinoGates.DoppelPlayedIff` | internal/casino/doppel.go:150-185 | anybody at the table may put down or change a mark, of as many as there are people and one more, up to eight |
| `CasinoGates.GamesClear` | internal/casino/indian_poker.go:297-324 | a card game that ends leaves an empty pot, everybody with coins waiting for the next game at the rate, and nobody without |
| `CasinoGates.DoppelClears` | internal/casino/doppel.go:290-330 | and so does doppelganger |
| `CasinoCases.LatecomerCostsThePot` | internal/casino/room_member.go:62-70 | from the creation of a room on: two are dealt cards, a third sits down, the two fold, nobody wins and the pot is gone |
| `CasinoCases.RuinedLeaderStays` | internal/casino/highlow.go:369-390 | from the creation of a room on: a leader who calls until all in is ejected and still leads the room of the player who is left |
| `CasinoCases.LastToActLeaves` | internal/casino/room_member.go:147-213 | from the creation of a room on: the last of three to act leaves instead, and no action of those who stay is accepted any more |
| `CasinoCases.ClosingTakesThePot` | internal/casino/room_member.go:192-202 | when those two leave as well the room closes with the pot still in it |
| `CasinoBooks.EventCosts` | internal/casino/room_member.go:10-250 | whatever happens in a room, what everybody owns together with the pot changes by exactly what the event costs: nothing, but for a showdown without a winner, the rest of a division, and the pot of a room its last participant leaves |
| `CasinoBooks.BooksBalance` | internal/casino/room_member.go:10-250 | over any room history with joins, departures, games and payments elsewhere, final coins and pot are the initial ones plus what was paid in elsewhere less what the events cost |
| `CasinoBooks.RoomsOnlyLose` | internal/casino/room_member.go:10-250 | from its creation on a room never makes a coin appear, and what disappeared is what its events cost |
| `CasinoService.DealHands` | internal/casino/highlow.go:94-116 | the loop over members and the shrinking deck is the dealing the theorems are about |
| `CasinoService.CasinoRoom.Tally` | internal/casino/highlow.go:223-268 | one pass counts folded, showdown and declared hands and finds out whether all have acted and whether a player is out of coins |
| `CasinoService.CasinoRoom.Eject` | internal/casino/highlow.go:369-390 | coinless participants go, the others wait, and an ejected leader is succeeded by the first winner if there is one |
| `CasinoService.CasinoRoom.StartCards` | internal/casino/indian_poker.go:38-122 | a start is refused as specified, or deals and opens round one |
| `CasinoService.CasinoRoom.PlayIndian` | internal/casino/indian_poker.go:128-355 | stake, move, showdown or next round, or a refusal that changes nothing |
| `CasinoService.CasinoRoom.PlayHighLow` | internal/casino/highlow.go:146-426 | the same for high-low, with its split showdown |
| `CasinoService.CasinoRoom.PlayDoppel` | internal/casino/doppel.go:135-352 | one mark, its single stake, and the showdown with its new leader |
| `CasinoService.CasinoRoom.Join` | internal/casino/room_member.go:10-87 | a character is seated without a card, or refused as specified |
| `CasinoService.CasinoRoom.Leave` | internal/casino/room_member.go:147-215 | the member goes, the next participant leads, and the last one closes the room |
| `CasinoService.CasinoRoom.Kick` | internal/casino/room_member.go:218-250 | the leader removes another member between games and nothing else changes |
| `ContestActions.DecimalReads` | internal/contest/handler.go:26-46 | writing a number in decimal and reading it back gives the number, in digits only |
| `ContestActions.DigitsParse` | internal/contest/handler.go:30-46 | digits are read as their number, with a minus sign as its negation, if and only if it fits 64 bits |
| `ContestActions.OnlyDigitsParse` | internal/contest/handler.go:30-46 | nothing is read that is not a sign, if any, and digits |
| `ContestActions.ActionIdReadsBack` | internal/contest/handler.go:26-46 | parsing an action identifier, with any nonce or none, gives its round and its target's second |
| `ContestActions.TargetComesBackIffWholeSecond` | internal/contest/handler.go:26-28 | the target itself comes back if and only if it is a whole second; otherwise an earlier time does |
| `ContestRounds.NextNumber` | internal/contest/settlement.go:405-445 | a missing preparing round is created with the next free number |
| `ContestRounds.PromoteKeepsLine` | internal/contest/settlement.go:65-84 | promotion starts the last round and opens the next behind it, leaving the line in order |
| `ContestRounds.SettleKeepsLine` | internal/contest/settlement.go:15-374 | settling, forced or not, keeps numbers, order and settled rounds and renews what it postpones |
| `ContestRanking.SortedIs` | internal/contest/settlement.go:210-216 | ranking is a permutation of the entries ordered by votes, then time of entry |
| `ContestRanking.SortedIsStable` | internal/contest/settlement.go:210-216 | full ties keep the listed order |
| `ContestRanking.PayPrizesAt` | internal/contest/settlement.go:218-258 | each of the first three gets its own prize once and nobody else any |
| `ContestRanking.PayVotersAt` | internal/contest/settlement.go:281-306 | everybody who voted for the winner gets one medal and nobody else |
| `ContestEntries.EnterKeepsOk` | internal/contest/service.go:163-236 | an accepted entry keeps one entry per character and title a round and nobody in both the active and the preparing round |
| `ContestEntries.VoteKeepsOk` | internal/contest/service.go:273-325 | an accepted vote is the voter's only one in the round and is counted at its entry |
| `ContestEntries.AwardKeepsEntries` | internal/contest/settlement.go:210-226 | saving ranks changes nothing but ranks and marks the round paid exactly when it has entries |
| `ContestEntries.SettleKeepsOk` | internal/contest/settlement.go:15-374 | settling keeps entries, votes and paid rounds consistent |
| `ContestRuns.EventKeepsOk` | internal/contest/service.go:141-331 | every entry, vote, settlement, repair and delivery keeps the contest consistent and its line advancing |
| `ContestRuns.ContestStaysOk` | internal/contest/settlement.go:15-445 | so does every sequence of them, and since any earlier point no round was overwritten or reopened |
| `ContestRuns.OneRunningOneWaiting` | internal/contest/settlement.go:15-445 | from an empty contest rounds are numbered 1 to k and read settled, then at most one active, then at most one preparing |
| `ContestRuns.EntriesAndVotesAreHonest` | internal/contest/service.go:180-324 | in every reachable contest nobody is in both open rounds, nobody voted twice in a round, an entry's votes equal its recorded votes, and every paid round is settled and paid once |
| `ContestRuns.RanksAreStored` | internal/contest/settlement.go:210-226 | a concluded round's entries are stored with ranks 1 to n in that order |
| `ContestRuns.ConclusionPays` | internal/contest/settlement.go:218-306 | what a conclusion adds to each wallet: its rank's prize, and a medal for having voted for the winner |
| `ContestRuns.SettleRenewsAll` | internal/contest/settlement.go:40-374 | after a success every earlier round is settled or runs a whole cycle from now |
| `ContestDeliveries.HandledIsAnswered` | internal/contest/handler.go:89-124 | a handled action's round is still to come, settled, or runs past the action's time |
| `ContestDeliveries.AnswerStands` | internal/contest/handler.go:89-106 | an answered action stays answered through every later history, also when its round is created in it |
| `ContestDeliveries.RunningIsFollowed` | internal/contest/settlement.go:65-84 | in every contest that began empty the running round has a waiting one behind it |
| `ContestDeliveries.ReplaysNeverSettle` | internal/contest/handler.go:86-124 | delivering a handled action again, any number of times among any other events and even if its round is created only in between, only repairs the schedule |
| `ContestDeliveries.SettlesAtMostOnce` | internal/contest/handler.go:86-124 | over any history from an empty contest an action that names a round settles in at most one of its deliveries, by the worker or otherwise, and in none after the first that was served, even if its round did not exist then |
| `ContestWorker.ActionsOnlyAdvance` | internal/core/scheduling/scheduled_action.go:100-131 | over any history no action is renamed, moved or dropped, and none goes back to an earlier state |
| `ContestWorker.WorkedAtMostOnce` | internal/scheduling/worker.go:70-140 | over any history an action is taken up at most once, wherever its worker stopped |
| `ContestWorker.ServedRoundIsScheduled` | internal/contest/service.go:401-466 | a worker that served an action and saved its outcome leaves the open round's deadline served by another open action |
| `ContestWorker.RepairWaitsIff` | internal/contest/service.go:445-463 | after a repair an action waits for the open deadline if and only if one waited before or none that was taken up and never ended holds its place |
| `ContestWorker.StoppedWorkerHoldsTheSchedule` | internal/scheduling/worker.go:87-92 | a concrete history: the worker stops with the first round's action, and no repair at any later time adds another |
| `ContestRuns.OwnActionCountsIffWholeSecond` | internal/contest/handler.go:101-106 | a round's own action can settle it if and only if its deadline is a whole second |
| `ContestRuns.ScheduleSettlesIffWholeSecond` | internal/contest/service.go:401-466 | repairing the schedule twice adds no second action if and only if the deadline is a whole second |
| `ContestQuorum.SettleStartsQuorate` | internal/contest/settlement.go:50-84 | a round that starts to run has at least five entries at that moment |
| `ContestQuorum.RunningRoundIsSettledAndPaid` | internal/contest/settlement.go:178-313 | after any history from an empty contest the running round has a quorum, settling it succeeds exactly when due or forced, and then closes and pays it |
| `ContestSettlements.WaitingStartsIff` | internal/contest/settlement.go:30-84 | without a running round a settlement is due by force or at the waiting round's deadline; that round then starts for a whole cycle with the next one behind it if and only if it has five entries, and waits a cycle longer otherwise |
| `ContestSettlements.RunningClosesIff` | internal/contest/settlement.go:86-370 | with a running round it closes if and only if it or the one behind it has five entries, pays if and only if it closes with an entry, and the one behind starts if and only if it has five; otherwise both are put off |
| `ContestSettlements.ClosingPays` | internal/contest/settlement.go:210-306 | a round that closes has its entries ranked by votes and time, the ranks stored, a quorate winner made a legend, and every wallet paid its place's gold and medals and one medal for a vote for the winner, up to the limits |
| `ContestSettlements.FirstRoundRuns` | internal/contest/settlement.go:50-84 | a concrete history from an empty contest after which the first round runs and the second waits |
| `ContestGates.EnteredIff` | internal/contest/service.go:141-236 | an entry is accepted if and only if the character is known, in neither open round, and the title is free in the waiting one; it then stands there without votes, and each refusal says why |
| `ContestGates.VotedIff` | internal/contest/service.go:252-325 | a vote is accepted if and only if the voter is known, has not voted in the running round, and the entry is in it; it is kept and counted there alone, and each refusal says why |
| `ContestGates.RepairedHow` | internal/contest/service.go:401-466 | a repair schedules one waiting action for the open deadline if and only if none serves it, and opens a missing waiting round |
| `ContestGates.DeliveredHow` | internal/contest/handler.go:89-124 | exactly when a delivery settles, only repairs, or fails and changes nothing |
| `ContestGates.WorkedHow` | internal/scheduling/worker.go:70-140 | the worker takes up exactly a waiting action whose second has come, delivers it once and marks it by its outcome |
| `ContestService.PhotoContest.SaveRanks` | internal/contest/settlement.go:218-258 | the loop stores ranks in order and pays the first three on the way |
| `ContestService.PhotoContest.SettleContest` | internal/contest/settlement.go:15-386 | the settlement is the specified one, or fails and changes nothing |
| `ContestService.PhotoContest.Enter` | internal/contest/service.go:163-236 | the entry is the specified one, or is refused and changes nothing |
| `ContestService.PhotoContest.CastVote` | internal/contest/service.go:273-325 | vote and count are the specified ones, or the vote is refused and changes nothing |
| `ContestService.PhotoContest.Reconcile` | internal/contest/service.go:401-466 | the schedule serves the open round's deadline as specified |
| `ContestService.PhotoContest.Handle` | internal/contest/handler.go:89-124 | a delivered action settles, repairs or fails as specified |
| `ContestService.PhotoContest.Work` | internal/scheduling/worker.go:70-140 | a due action is marked, handed to the handler once and marked with its outcome, or left where the worker stopped |
| `ItemsStock.ConsumeTakes` | internal/core/inventory/inventory.go:109-132 | taking from a stack takes exactly that much of its definition, removes it exactly when emptied, and touches no other stack |
| `ItemsStock.ConsumedIff` | internal/core/inventory/inventory.go:109-132 | a stack gives a quantity if and only if it is there, the quantity is positive and it holds as much; each refusal says which |
| `ItemsStock.WalkTakes` | internal/battle/buffered_participant.go:39-62 | a walk over the shrinking stacks takes the smaller of what is wanted and what there is, from candidates only |
| `ItemsStock.RequestIsMetIff` | internal/battle/buffered_participant.go:35-65 | a request is met if and only if it is positive and its candidates suffice, and each failure says which |
| `ItemsStock.ConsumptionIsExact` | internal/battle/buffered_participant.go:29-68 | any list removes exactly the requested quantity per definition, leaves stacks of other definitions as they were, and empties exactly the slots whose stack was used up |
| `ItemsStock.WornIsOwned` | internal/battle/buffered_participant.go:49-57 | equipment still worn that pointed at an owned stack still does |
| `ItemsStock.PlainListIsMetIff` | internal/battle/buffered_participant.go:29-68 | a list that names no stacks is met if and only if every definition covers its total request |
| `ItemsNamed.NamedRequestTakes` | internal/battle/buffered_participant.go:35-65 | a request that names a stack is met if and only if the stack is there with the requested definition and holds as much, and takes exactly that from it |
| `ItemsNamed.NamedListIsMetIff` | internal/adventure/normal_command.go:153-163 | a list in which every request names a stack is met if and only if each named stack has the requested definition and covers all that is asked of it; afterwards every stack has exactly that sum less, used-up ones are gone and the others are as they were |
| `ItemsMixed.ListIsMetIff` | internal/battle/buffered_participant.go:29-68 | any list is met if and only if each request is positive and covered by what the requests before it leave, of all stacks of its definition or of the stack it names; what they leave is arithmetic on the first stacks and the list |
| `ItemsMixed.HeldIsRest` | internal/battle/buffered_participant.go:39-62 | what a list has left of the first stacks of a definition is the arithmetic over its requests: one for any stack takes what there is from the front, a named one only from its own |
| `ItemsMixed.ListLeaves` | internal/battle/buffered_participant.go:39-62 | after any list every stack is there with exactly what that arithmetic leaves of it, or was used up, and nothing else is there |
| `ItemsMixed.NamedFirstIsMetIff` | internal/battle/buffered_participant.go:29-68 | a list that asks for named stacks first is met if and only if every request is positive, every named stack covers what is asked of it, and every definition asked for without a name covers all that the list wants of it |
| `ItemsNamed.MixedListsDependOnOrder` | internal/battle/buffered_participant.go:39-62 | two herbs cover a request for any herb and one for the first of them only if the named one comes first |
| `ItemsAlchemy.SynthesisStartsIff` | internal/alchemy/alchemy.go:230-293 | synthesis starts if and only if nothing is brewing, the recipe is learned and the depot covers it, and then costs exactly it; each refusal says why |
| `ItemsAlchemy.AddItemAdds` | internal/depot/depot.go:155-176 | claiming adds exactly the result to the depot |
| `ItemsAlchemy.AddedWhere` | internal/depot/depot.go:155-176 | goods join the first plain stack of their kind when they may and otherwise need a free slot of their own; and only without either they are refused |
| `ItemsAlchemy.ClaimedIff` | internal/alchemy/alchemy.go:336-446 | a result is handed out if and only if it is done and has a place; the laboratory is then free, with one craft more; each refusal says why |
| `ItemsAlchemy.ReadyAfterBattle` | internal/alchemy/alchemy.go:326-334 | what brews is done as soon as a battle has passed and not before, whatever is begun or asked for in vain meanwhile |
| `ItemsAlchemy.StockIsAccounted` | internal/alchemy/alchemy.go:192-446 | over any run each synthesis begun is claimed at most once and in order, and every stock is what it was, less what was begun, plus what was claimed |
| `ItemsService.Storage.Consume` | internal/core/inventory/inventory.go:109-132 | one stack shrinks or goes as specified, or nothing changes |
| `ItemsService.Storage.ConsumeBuffered` | internal/battle/buffered_participant.go:29-68 | the nested loops over requests, stacks and slots are the specified consumption |
| `ItemsService.Storage.TakeAll` | internal/alchemy/alchemy.go:257-280 | the nested loops over ingredients and stacks take the recipe or fail |
| `ItemsService.Laboratory.Synthesize` | internal/alchemy/alchemy.go:208-311 | synthesis starts as specified, or fails and changes nothing |
| `ItemsService.Laboratory.Claim` | internal/alchemy/alchemy.go:343-441 | the result is handed out as specified, or nothing changes |

## Left out

Whole code base

- HTTP, configuration, main programs, option setters, news, hooks, medals and other notifications; bank, chapel,
  costume, collection, black market and auction services: single-step updates that would only add easy members.
- SQL, Valkey and Lua adapters: the in-memory stores and the repository contracts stand for them; where the SQL
  participant, enrolment and contest tables add a rule (paid once, released rows, one row per key) it is modelled.
- Leases of the distributed room lock: a critical section is one atomic step.
- Deleting a character: it removes contest votes without lowering the counts of their entries, and entries without
  regard to quorum, so the contest theorems are about histories without deletions.
- A storage read that fails inside a transaction is modelled as the transaction rolling back.

Challenge runs

- The battle engine, monster scaling and treasure pools: arbitrary outcomes, draws and non-empty or empty pools. The
  engine's own rewards are only assumed non-negative where a theorem about reward totals says so.
- Exit bonus, fatigue, fullness, the hall of fame, names, icons and colours; the order in which a settlement sorts its members.
- Branches of the round for sessions without a member list or without recorded MP: starting and migrating both demand them.
- Overflow of a run's experience and gold totals at 64 bits: challenge totals are unbounded integers here.
- The lobby side of a party start, and the session methods that were in use before the protocol, except as the input of a migration.
- ChallengeSteps.StartKeepsInv: assumes a run identity that no row has used yet, as the identifier generator promises.

Normal runs

- The battle engine: `Step` scripts may change actors, enemies and clocks at will and move the run only through travel, rooms and responses.
- Delivery of drops, consumption of inventory, fatigue and HP write-back by the settler; only its credit is modelled.
- Item and treasure catalogs, season selection, `PrepareBossField`, EX battle fields, blessings, unsealing news.
- The daily entry lock of stage-26 and solo admission checks: one arbitrary refusal among the entry's inputs.
- The run identifier's hash: an admission's generation stands for the identifier; the JSON form of an enrolment
  stands as the admission value itself.
- Unicode blanks and byte lengths in command identifiers: blank means ASCII white space and length counts characters.
- RunService.NormalRunService.Enter: of several refusals that different characters of a party would cause, the model
  answers the first kind, not the first character's.
- RunOrder.SortedIdsAre: identifiers are compared by characters where Go compares bytes.
- A nil dereference on a missing enemy during a replacement is a storage failure here.
- RunHistories.MarksNeverGoBack: about runs that live at both points, since a run's state is gone with its last member.
- RunClears.ClearHappened: about live runs; what a history record keeps of its run is in RunTheorems.ClearNeedsCreatedBoss.
- RunTheorems.LostReplyIsNoLoss: requires that the receipt can be read back; otherwise the caller is told to recover.
- RunNpc.BoundedWaiting: fights between two responses may change everything but the order of the enemy list.

Casino

- Passwords, names, speed, idle purging, win counters, fatigue on leaving, slot machines and other solo games.
- Parsing of action and mark names, and the publication of room details to the live store.
- CasinoBetting.PlayStaysBounded: for the roster that was dealt to; somebody who joins a running game adds a hand without a card.
- CasinoGames.DealtGameLosesNothing: likewise; what a latecomer changes is in CasinoCoins.IndianConserves.

Contest

- Photos, captions, comments, title validation, guild points, result messages and the legend's text.
- The database's order among full ties: entries are listed in the order in which they were stored.
- Failures of the scheduler's storage, and actions that were scheduled for the previous scheduler identity.
- ContestDeliveries.ReplaysNeverSettle: about deliveries after the action was handled once, at times no earlier than a
  cycle before its target. An action whose round does not exist yet needs a waiting round behind every running one,
  which every contest that began empty has (ContestDeliveries.RunningIsFollowed).
- ContestDeliveries.SettlesAtMostOnce: about identifiers that name a round; any other asks for a settlement each time.
- The worker's lock, its queue and the retention of ended actions: taking up a due action is one atomic step.

Items

- Item and recipe catalogs, the compendium title and its record, the list of learned recipes (`learned` stands for
  the lookup), depot expansion, and rebuilding a participant after consumption.
- A character without a depot row, which cannot synthesize and whose depot is created on the first claim.
- ItemsAlchemy.SynthesisStartsIff: for recipes with positive quantities that name no single stack, which is all that internal/alchemy/recipe.go:34-60 lets into the catalog.

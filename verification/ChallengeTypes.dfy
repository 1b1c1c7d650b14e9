/** Entities of a challenge run and of the two stores that hold it. */
module ChallengeTypes {
  import opened Common

  type Time = int

  datatype Status = Active | Claimed | Defeated

  datatype Member = Member(id: Id, hp: int, mp: Option<int>, exp: int, gold: int, maxHp: int, maxMp: int)

  datatype Award = Award(item: Id, recipient: Id, delivered: bool)

  datatype Session = Session(
    id: Id,
    revision: int,
    leader: Id,
    members: seq<Member>,
    round: int,
    leaderHp: int,
    exp: int,
    gold: int,
    items: seq<Id>,
    awards: seq<Award>,
    status: Status)

  /** The receipt of one round. */
  datatype RoundReport = RoundReport(round: int, won: bool, exp: int, gold: int, item: Id, ended: bool)

  datatype Action = Start | Migrate | Advance | Exit

  /** One accepted command; `session` is the body that its transition publishes. */
  datatype CommandResult = CommandResult(
    actor: Id,
    action: Action,
    expectedRevision: int,
    session: Session,
    report: Option<RoundReport>,
    settled: seq<Member>)

  datatype Transition = Transition(
    runId: Id,
    revision: int,
    pending: bool,
    publication: Option<Session>,
    removed: seq<Id>,
    legacyOwner: Id,
    deadline: Time)

  datatype ResultKey = ResultKey(run: Id, actor: Id, revision: int)

  datatype ParticipantKey = ParticipantKey(run: Id, actor: Id)

  /** A participant row: enrolled and unpaid, or paid once with this snapshot. */
  datatype Participation = Enrolled | Settled(snapshot: Member)

  /** Everything a database transaction commits or rolls back together. */
  datatype Durable = Durable(
    states: map<Id, Transition>,
    claims: map<Id, Id>,
    results: map<ResultKey, CommandResult>,
    admissions: map<Id, Session>,
    participants: map<ParticipantKey, Participation>)

  /** The live store. It is never rolled back. */
  datatype Live = Live(
    runs: map<Id, Session>,
    expiry: map<Id, Time>,
    actorRuns: map<Id, Id>,
    sessions: map<Id, Session>,
    expirations: map<Id, Time>,
    owners: map<Id, Id>)

  datatype World = World(durable: Durable, live: Live)

  datatype Error =
    | RevisionConflict
    | RecoveryRequired(cause: Error)
    | RecoveryNeeded
    | OutcomeUnknown
    | SessionNotFound
    | SessionNotActive
    | SessionIdMismatch
    | ActiveSessionExists
    | Forbidden
    | CharacterNotFound
    | PartyEmpty
    | TooManyPartyMembers
    | StorageFailure

  function Ids(members: seq<Member>): (ids: seq<Id>)
    ensures |ids| == |members|
    ensures forall i :: 0 <= i < |ids| ==> ids[i] == members[i].id
  {
    seq(|members|, i requires 0 <= i < |members| => members[i].id)
  }

  function IdSet(members: seq<Member>): set<Id> {
    set m | m in members :: m.id
  }

  ghost predicate DistinctMembers(members: seq<Member>) {
    forall i, j :: 0 <= i < j < |members| ==> members[i].id != members[j].id
  }

  predicate Contains(run: Session, actor: Id) {
    run.leader == actor || exists m :: m in run.members && m.id == actor
  }

  /** The actors that a committed body still binds: nobody once the run is over. */
  function Roster(run: Session): set<Id> {
    if run.status == Active then IdSet(run.members) else {}
  }

  const EMPTY_TRANSITION := Transition(NOBODY, 0, false, None, [], NOBODY, 0)

  function StateOf(d: Durable, run: Id): Transition {
    if run in d.states then d.states[run] else EMPTY_TRANSITION
  }

  function ClaimOf(d: Durable, actor: Id): Id {
    if actor in d.claims then d.claims[actor] else NOBODY
  }

  function LiveRevision(live: Live, run: Id): int {
    if run in live.runs then live.runs[run].revision else 0
  }
}

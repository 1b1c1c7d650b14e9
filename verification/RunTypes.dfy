/** Entities of a normal adventure run, its ledgers and the tables that hold them. */
module RunTypes {
  import opened Common

  /** Nanoseconds, with zero for Go's zero time. */
  type Time = int

  const SECOND: Time := 1_000_000_000

  const BOSS_FLOOR := 10
  const TREASURE_FLOOR := 11
  const EX_FLOOR := 12

  const MAX_INT := 0x7FFF_FFFF_FFFF_FFFF

  datatype Error =
    | RunConflict
    | RunForbidden
    | RunBusy
    | RunUnavailable
    | RunCooldown
    | RunRecovery
    | NotFound
    | LeaderOnly
    | Unconscious
    | NotParticipant
    | InvalidFloorAction
    | UnsupportedEffect
    | NoUnopenedTreasure
    | TreasureLimitReached
    | StageNotFound
    | InvalidAmount
    | Overflow
    | NoParticipants
    | StorageFailure

  datatype Earnings = Earnings(exp: int, gold: int, crystals: int)

  const NOTHING := Earnings(0, 0, 0)

  function Plus(a: Earnings, b: Earnings): Earnings {
    Earnings(a.exp + b.exp, a.gold + b.gold, a.crystals + b.crystals)
  }

  predicate NonNegative(e: Earnings) {
    0 <= e.exp && 0 <= e.gold && 0 <= e.crystals
  }

  predicate Fits(e: Earnings) {
    e.exp <= MAX_INT && e.gold <= MAX_INT && e.crystals <= MAX_INT
  }

  datatype Disposition = Playing | Exited | TimedOut

  /**
   A participant's ledger. `recorded`, `tryBonus`, `exitBonus` and `forfeited` are history
   variables: they log what entered and left the three buckets, and no operation reads them.
   */
  datatype Recipient = Recipient(
    player: Id,
    pending: Earnings,
    conditional: Earnings,
    applied: Earnings,
    inspected: int,
    disposition: Disposition,
    penaltyUntil: Time,
    timerPending: bool,
    recorded: Earnings,
    tryBonus: Earnings,
    exitBonus: Earnings,
    forfeited: Earnings)

  datatype Mode = Normal | Calm | Try | Hard

  /** `ordinary` says that the stage has an encounter table, `exRoster` that the table has an EX boss. */
  datatype Stage = Stage(id: Id, ordinary: bool, exRoster: bool)

  datatype Gear = NoGear | Gear(weapon: Id, armor: Id, accessory: Id)

  /** `identity` is the catalog entry an encounter member was made from. */
  datatype Actor = Actor(id: Id, hp: int, maxHp: int, npc: bool, team: Id, detached: bool, banished: bool,
    identity: Id, gear: Gear, items: seq<Id>)

  datatype Box = Box(id: Id, openedBy: Id, item: Id)

  datatype Admission = Admission(generation: Id, partyId: Id, actor: Id, characters: seq<Id>, stage: Id, mode: Mode, speed: int)

  /**
   A history variable, in order: the floors on which an encounter was created, the provenance floors of the
   encounters credited as defeated, and for every treasure room entered whether a clear was pending then.
   */
  datatype Trail = Trail(created: seq<int>, credited: seq<int>, rooms: seq<bool>)

  const NO_TRAIL := Trail([], [], [])

  /** The two ways to a clear: a credited floor-10 encounter, or a treasure room entered with the clear pending. */
  predicate ClearedBy(t: Trail) {
    BOSS_FLOOR in t.credited || true in t.rooms
  }

  /** Cleared floors are the highest floor credited, each of which had an encounter created. */
  ghost predicate FloorsFollow(floors: int, t: Trail) {
    && (t.credited == [] ==> floors == 0)
    && (t.credited != [] ==> floors in t.credited)
    && forall f :: f in t.credited ==> f <= floors && f in t.created
  }

  predicate Extends(t: Trail, u: Trail) {
    t.created <= u.created && t.credited <= u.credited && t.rooms <= u.rooms
  }

  datatype Run = Run(
    id: Id,
    version: int,
    admission: Admission,
    stage: Stage,
    mode: Mode,
    leader: Id,
    roster: seq<Id>,
    floor: int,
    floorsCleared: int,
    stageCleared: bool,
    clearPending: bool,
    exUnlocked: bool,
    encounterFloor: int,
    encounterStage: Id,
    enemies: seq<Id>,
    actors: seq<Actor>,
    lastActions: map<Id, Time>,
    recipients: map<Id, Recipient>,
    boxes: seq<Box>,
    lastActivity: Time,
    timedOut: bool,
    trail: Trail)

  function ActorAt(actors: seq<Actor>, id: Id): Option<Actor> {
    if actors == [] then None
    else if actors[0].id == id then Some(actors[0])
    else ActorAt(actors[1..], id)
  }

  predicate Stands(r: Run, id: Id) {
    var a := ActorAt(r.actors, id);
    a.Some? && a.value.hp > 0
  }

  predicate HasUnopenedBox(r: Run) {
    exists b :: b in r.boxes && b.openedBy == NOBODY
  }

  /** An unopened box guards the floor like a living enemy. */
  predicate LivingEnemies(r: Run) {
    HasUnopenedBox(r) || exists id :: id in r.enemies && Stands(r, id)
  }

  predicate HasEX(r: Run) {
    r.exUnlocked && r.stage.id in {"stage-22", "stage-23", "stage-24", "stage-25", "stage-26"}
  }

  function LastAction(r: Run, id: Id): Time {
    if id in r.lastActions then r.lastActions[id] else 0
  }
}

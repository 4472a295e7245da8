/** The enumerations and records shared by the prediction engine (types.ts). */
module Types {

  datatype Option<T> = None | Some(value: T)

  /** The five birds, declared in the canonical order of the engine. */
  datatype Bird = Vulture | Owl | Crow | Cock | Peacock

  /** The five activities a bird can be in. */
  datatype Activity = Rule | Eat | Walk | Sleep | Die

  /** Waxing (Valar Pirai, Shukla Paksha) or waning (Thei Pirai, Krishna Paksha). */
  datatype MoonPhase = Waxing | Waning

  datatype DayTime = Day | Night

  datatype MatchFormat = T20 | ODI

  /** How a subject bird stands towards the ruling bird. */
  datatype BirdRelation = Self | Friend | Enemy | Neutral

  /** A captain as entered in the form: a name, a birth date (unused by the
      engine) and a star name, empty when unknown. */
  datatype PlayerDetails = PlayerDetails(name: string, dob: string, star: string)

  /** One sample of the match flow. `time` is the sampled instant in minutes
      rather than its display label. */
  datatype FlowPoint = FlowPoint(
    time: int,
    teamAPower: int,
    teamBPower: int,
    dominantTeam: string,
    activityA: Activity,
    activityB: Activity)

  /** The state of one bird at one instant. */
  datatype Snapshot = Snapshot(
    activity: Activity,
    power: int,
    yama: int,
    dayTime: DayTime,
    rulingBird: Bird,
    relation: BirdRelation)

  /** The prediction computed for a match (without the display colours). */
  datatype Prediction = Prediction(
    teamA: string,
    teamB: string,
    captainA: PlayerDetails,
    captainB: PlayerDetails,
    birdA: Bird,
    birdB: Bird,
    activityA: Activity,
    activityB: Activity,
    winner: string,
    winProbability: real,
    timeSlot: int,
    dayTime: DayTime,
    moonPhase: MoonPhase,
    dayOfWeek: string,
    rulingBird: Bird,
    tossWinner: string,
    tossActivityA: Activity,
    tossActivityB: Activity,
    matchFlow: seq<FlowPoint>,
    matchFormat: MatchFormat,
    relationA: BirdRelation,
    relationB: BirdRelation,
    tossRelationA: BirdRelation,
    tossRelationB: BirdRelation)
}

/**
 * The records the upstream schedule API delivers (server/src/api/api_types.ts).
 * Only the fields the service reads are modelled.
 */
module ApiTypes {
  import opened Wrappers

  /** The lifecycle phase of a game; each constructor carries a short upstream code. */
  datatype GameState = Future | Pregame | Live | Critical | Complete | Final | Postponed {

    /** The code string the upstream API and the JSON payload use for this state. */
    function Code(): string {
      match this
      case Future => "FUT"
      case Pregame => "PRE"
      case Live => "LIVE"
      case Critical => "CRIT"
      case Complete => "OFF"
      case Final => "FINAL"
      case Postponed => "PPD"
    }
  }

  /** Reads an upstream code back into a state; an unknown code has none. */
  function StateFromCode(code: string): (s: Option<GameState>)
    ensures s.Some? ==> s.value.Code() == code
  {
    match code
    case "FUT" => Some(Future)
    case "PRE" => Some(Pregame)
    case "LIVE" => Some(Live)
    case "CRIT" => Some(Critical)
    case "OFF" => Some(Complete)
    case "FINAL" => Some(Final)
    case "PPD" => Some(Postponed)
    case _ => None
  }

  /** Every state is recovered from its code, so no two states share a code. */
  lemma CodeRoundTrip(s: GameState)
    ensures StateFromCode(s.Code()) == Some(s)
  {
  }

  /** One side of a game; a missing score is None and is distinct from Some(0). */
  datatype GameTeamData = GameTeamData(id: int, abbrev: string, score: Option<int>)

  /**
   * A game on a team's schedule. `startTimeUTC` holds the start instant already
   * parsed to milliseconds since the epoch.
   */
  datatype ScheduledGame = ScheduledGame(
    id: int,
    season: int,
    gameDate: string,
    startTimeUTC: int,
    gameState: GameState,
    awayTeam: GameTeamData,
    homeTeam: GameTeamData)
}

/**
 * What a handler writes back (server/src/api/handler.ts and
 * server/src/handler/handler.ts): a status code and a JSON body, with the
 * payload shapes of both generations of the "is the team playing" handler.
 */
module Responses {
  import opened Wrappers
  import opened ApiTypes

  /** The score from the perspective team's side; None serialises as null. */
  datatype Score = Score(teamScore: Option<int>, opponentScore: Option<int>)

  datatype Body =
    | Empty
      /** Payload of server/src/handler/team_playing.ts. */
    | Playing(teamPlaying: bool, gameState: GameState, score: Score)
      /** Payload of server/src/api/team_playing.ts; a None state leaves the key out. */
    | LegacyPlaying(teamPlaying: bool, state: Option<GameState>)
    | Error(code: string, message: string)

  datatype Response = Response(status: int, body: Body)

  /**
   * What awaiting the live-game lookup gave the handler: a value, or an
   * exception that its `catch` turns into an error payload.
   */
  datatype Lookup = Returned(game: Option<ScheduledGame>) | Threw

  const FetchErrorCode: string := "FETCH_ERROR"
  const FetchErrorMessage: string := "Error fetching current team schedule"

  function WriteSuccess(body: Body): Response {
    Response(200, body)
  }

  function WriteError(body: Body): Response {
    Response(500, body)
  }

  function WriteNotFound(): Response {
    Response(404, Empty)
  }
}

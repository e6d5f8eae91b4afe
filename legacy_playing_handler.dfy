/**
 * The older "is the team playing" handler (server/src/api/team_playing.ts), the
 * one the server registers: it is routed by a fixed path and reports only
 * whether the team is playing and, if so, the game's state.
 */
module LegacyPlayingHandler {
  import opened Wrappers
  import opened ApiTypes
  import opened Schedule
  import opened Responses
  import PlayingHandler

  /** The handler object; it only holds its team code. */
  datatype TeamPlaying = TeamPlaying(team: string)

  /** Construction with an absent team code falls back to 'SEA'. */
  function NewTeamPlaying(team: Option<string>): (h: TeamPlaying)
    ensures team.None? ==> h.team == "SEA"
    ensures team.Some? ==> h.team == team.value
  {
    TeamPlaying(team.GetOr("SEA"))
  }

  /** The route of every TeamPlaying handler, whatever its team. */
  function GetPath(handler: TeamPlaying): (path: string)
    ensures path == "/playing"
    ensures PlayingHandler.ShouldHandle(path)
  {
    "/playing"
  }

  /**
   * The payload for one request: the state is present exactly when a game was
   * found, and there is no score; a lookup that threw gives FETCH_ERROR.
   */
  function Handle(lookup: Lookup): (r: Response)
    ensures lookup.Threw? ==> r == Response(500, Error("FETCH_ERROR", "Error fetching current team schedule"))
    ensures lookup.Returned? ==> r.status == 200 && r.body.LegacyPlaying?
    ensures lookup.Returned? ==> (r.body.teamPlaying <==> lookup.game.Some?)
    ensures lookup.Returned? ==> (r.body.state.Some? <==> lookup.game.Some?)
    ensures lookup.Returned? && lookup.game.Some? ==> r.body.state == Some(lookup.game.value.gameState)
  {
    match lookup
    case Threw => WriteError(Error(FetchErrorCode, FetchErrorMessage))
    case Returned(game) =>
      WriteSuccess(LegacyPlaying(game.Some?, if game.Some? then Some(game.value.gameState) else None))
  }

  /**
   * The two handler generations agree on the outcome: the same status, the
   * same error payload, the same teamPlaying, and the newer one's state is the
   * older one's with Future filled in where the older one leaves it out.
   */
  lemma GenerationsAgree(team: string, lookup: Lookup)
    ensures Handle(lookup).status == PlayingHandler.Handle(team, lookup).status
    ensures lookup.Threw? ==> Handle(lookup) == PlayingHandler.Handle(team, lookup)
    ensures lookup.Returned? ==>
      && Handle(lookup).body.teamPlaying == PlayingHandler.Handle(team, lookup).body.teamPlaying
      && Handle(lookup).body.state.GetOr(Future) == PlayingHandler.Handle(team, lookup).body.gameState
  {
  }

  /**
   * A request to `handler`, with the upstream schedule given as `fetched`: the
   * team is playing exactly when a fetched game is being played, and then the
   * reported state is that of the earliest fetched game being played.
   */
  method HandleRequest(handler: TeamPlaying, fetched: Option<seq<ScheduledGame>>) returns (r: Response)
    ensures r.status == 200 && r.body.LegacyPlaying?
    ensures r.body.teamPlaying <==> fetched.Some? && exists g :: g in fetched.value && IsGameBeingPlayed(g)
    ensures r.body.state.Some? <==> r.body.teamPlaying
    ensures r.body.state.Some? ==> exists g :: IsEarliestPlaying(g, fetched.value) && r.body.state.value == g.gameState
  {
    var teamData := new TeamData(Some(handler.team));
    var game := teamData.GetLiveScheduledGame(fetched);
    r := Handle(Returned(game));
    if game.Some? {
      assert IsEarliestPlaying(game.value, fetched.value);
    }
  }
}

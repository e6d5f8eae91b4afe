/**
 * The newer "is the team playing" handler (server/src/handler/team_playing.ts):
 * it matches on the URL pathname and reports the live game's state and score
 * from the perspective of its team.
 */
module PlayingHandler {
  import opened Wrappers
  import opened ApiTypes
  import opened Schedule
  import opened Responses

  /** The handler claims exactly the pathname "/playing". */
  predicate ShouldHandle(pathname: string)
    ensures ShouldHandle(pathname) <==> pathname == "/playing"
  {
    pathname == "/playing"
  }

  /** JavaScript's `!score` on a `number | undefined`. */
  predicate IsFalsy(score: Option<int>) {
    score.None? || score.value == 0
  }

  /** The side's score as reported: a reported 0 stays 0 and only a missing score becomes null. */
  function GetScoreFromTeamData(side: GameTeamData): (r: Option<int>)
    ensures r == side.score
    ensures side.score == Some(0) ==> r == Some(0)
  {
    if IsFalsy(side.score) && side.score != Some(0) then None else side.score
  }

  /**
   * The perspective team is the home side exactly when the home abbreviation
   * equals its code; in every other case it is read as the away side.
   */
  function GetScore(team: string, game: Option<ScheduledGame>): (s: Score)
    ensures game.None? ==> s == Score(None, None)
    ensures game.Some? && game.value.homeTeam.abbrev == team ==>
      s == Score(game.value.homeTeam.score, game.value.awayTeam.score)
    ensures game.Some? && game.value.homeTeam.abbrev != team ==>
      s == Score(game.value.awayTeam.score, game.value.homeTeam.score)
  {
    match game
    case None => Score(None, None)
    case Some(g) =>
      var teamIsHomeTeam := g.homeTeam.abbrev == team;
      var teamData := if teamIsHomeTeam then g.homeTeam else g.awayTeam;
      var opponentData := if teamIsHomeTeam then g.awayTeam else g.homeTeam;
      Score(GetScoreFromTeamData(teamData), GetScoreFromTeamData(opponentData))
  }

  /** Reading the same game from the home team's and from the away team's code gives mirrored scores. */
  lemma PerspectivesMirror(g: ScheduledGame)
    requires g.homeTeam.abbrev != g.awayTeam.abbrev
    ensures GetScore(g.homeTeam.abbrev, Some(g)).teamScore == GetScore(g.awayTeam.abbrev, Some(g)).opponentScore
    ensures GetScore(g.homeTeam.abbrev, Some(g)).opponentScore == GetScore(g.awayTeam.abbrev, Some(g)).teamScore
  {
  }

  /** A team that plays on neither side of the game is scored as if it were the away team. */
  lemma OutsiderReadAsAway(team: string, g: ScheduledGame)
    requires g.homeTeam.abbrev != g.awayTeam.abbrev
    requires team != g.homeTeam.abbrev && team != g.awayTeam.abbrev
    ensures GetScore(team, Some(g)) == GetScore(g.awayTeam.abbrev, Some(g))
  {
  }

  /** The payload for one request, or the FETCH_ERROR error when the lookup threw. */
  function Handle(team: string, lookup: Lookup): (r: Response)
    ensures lookup.Threw? ==> r == Response(500, Error("FETCH_ERROR", "Error fetching current team schedule"))
    ensures lookup.Returned? ==> r.status == 200 && r.body.Playing?
    ensures lookup.Returned? ==> (r.body.teamPlaying <==> lookup.game.Some?)
    ensures lookup.Returned? && lookup.game.Some? ==>
      r.body.gameState == lookup.game.value.gameState && r.body.score == GetScore(team, lookup.game)
    ensures lookup.Returned? && lookup.game.None? ==>
      r.body.gameState == Future && r.body.score == Score(None, None)
  {
    match lookup
    case Threw => WriteError(Error(FetchErrorCode, FetchErrorMessage))
    case Returned(game) =>
      WriteSuccess(Playing(
        game.Some?,
        if game.Some? then game.value.gameState else Future,
        GetScore(team, game)))
  }

  /**
   * A request to the handler of `team`, with the upstream schedule given as
   * `fetched`: the team is playing exactly when a fetched game is being played,
   * and the reported state is a "being played" state exactly when it is. When
   * it is playing, state and score are those of the earliest fetched game that
   * is being played.
   */
  method HandleRequest(team: string, fetched: Option<seq<ScheduledGame>>) returns (r: Response)
    ensures r.status == 200 && r.body.Playing?
    ensures r.body.teamPlaying <==> fetched.Some? && exists g :: g in fetched.value && IsGameBeingPlayed(g)
    ensures r.body.teamPlaying <==> r.body.gameState in {Pregame, Live, Critical}
    ensures !r.body.teamPlaying ==> r.body.gameState == Future && r.body.score == Score(None, None)
    ensures r.body.teamPlaying ==>
      exists g :: (IsEarliestPlaying(g, fetched.value)
        && r.body.gameState == g.gameState && r.body.score == GetScore(team, Some(g)))
  {
    var teamData := new TeamData(Some(team));
    var game := teamData.GetLiveScheduledGame(fetched);
    r := Handle(team, Returned(game));
    if game.Some? {
      assert IsEarliestPlaying(game.value, fetched.value);
    }
  }
}

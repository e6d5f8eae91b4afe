/**
 * Whole requests on concrete schedules, derived from the contracts alone.
 */
module Scenarios {
  import opened Wrappers
  import opened ApiTypes
  import opened Responses
  import opened Text
  import Schedule
  import PlayingHandler
  import Server

  function SeaDetGame(state: GameState, home: Option<int>, away: Option<int>): ScheduledGame {
    ScheduledGame(2025020123, 20252026, "2025-11-02", 1762117200000, state,
      GameTeamData(17, "DET", away), GameTeamData(55, "SEA", home))
  }

  /** A live game with SEA at home, 3 to 2, seen from SEA. */
  method LiveHomeGame() returns (r: Response)
    ensures r == Response(200, Playing(true, Live, Score(Some(3), Some(2))))
    ensures r.body.gameState.Code() == "LIVE"
  {
    var game := SeaDetGame(Live, Some(3), Some(2));
    r := PlayingHandler.HandleRequest("SEA", Some([game]));
    assert game in [game] && Schedule.IsGameBeingPlayed(game);
    assert forall g :: g in [game] ==> g == game;
  }

  /** Only a finished game: not playing, state Future, both scores null. */
  method OnlyFinalGame() returns (r: Response)
    ensures r == Response(200, Playing(false, Future, Score(None, None)))
    ensures r.body.gameState.Code() == "FUT"
  {
    var game := SeaDetGame(Final, Some(4), Some(1));
    r := PlayingHandler.HandleRequest("SEA", Some([game]));
    assert forall g :: g in [game] ==> g == game;
  }

  /**
   * A failed upstream fetch is absorbed as "no schedule": the reply is the
   * ordinary not-playing payload, not an error.
   */
  method FetchFailure() returns (r: Response)
    ensures r == Response(200, Playing(false, Future, Score(None, None)))
  {
    r := PlayingHandler.HandleRequest("SEA", None);
  }

  /** A request for an unknown path is answered 404 with no body. */
  method UnknownPath(fetched: Option<seq<ScheduledGame>>) returns (r: Response)
    ensures r == Response(404, Empty)
  {
    TrimFixedPoint("/unknown");
    assert Server.RequestPath("/unknown", Identity) == "/unknown";
    r := Server.Serve(Server.Env(None, None), Some("/unknown"), Identity, fetched);
  }

  /** The request target taken as its own pathname. */
  function Identity(url: string): string {
    url
  }

  /**
   * Two live games listed out of order: the reply is about the one that starts
   * first, whatever order the upstream list had.
   */
  method TwoLiveGames() returns (r: Response)
    ensures r == Response(200, Playing(true, Live, Score(Some(1), Some(0))))
  {
    var late := ScheduledGame(2, 20252026, "2025-11-03", 2, Live,
      GameTeamData(17, "DET", Some(5)), GameTeamData(55, "SEA", Some(9)));
    var early := ScheduledGame(1, 20252026, "2025-11-02", 1, Live,
      GameTeamData(17, "DET", Some(0)), GameTeamData(55, "SEA", Some(1)));
    r := PlayingHandler.HandleRequest("SEA", Some([late, early]));
    assert forall g :: g in [late, early] ==> g == late || g == early;
    assert !Schedule.IsEarliestPlaying(late, [late, early]) by {
      assert early in [late, early] && Schedule.IsGameBeingPlayed(early);
    }
  }
}

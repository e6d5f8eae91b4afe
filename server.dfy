/**
 * The process entry point (server/src/index.ts): configuration from the
 * environment, the registered handlers, and the dispatch of each request to
 * the first handler whose path equals the request's trimmed pathname.
 */
module Server {
  import opened Wrappers
  import opened ApiTypes
  import opened Schedule
  import opened Responses
  import opened Text
  import opened LegacyPlayingHandler

  /** The environment variables the process reads; None when unset. */
  datatype Env = Env(port: Option<string>, team: Option<string>)

  /** The value handed to `listen`: the variable's text when set, else the number 55555. */
  datatype Port = PortText(text: string) | PortNumber(number: int)

  /** `PORT || 55555`: an unset or empty variable falls back to the default. */
  function PortSetting(env: Env): (p: Port)
    ensures env.port.Some? && env.port.value != "" ==> p == PortText(env.port.value)
    ensures env.port.None? || env.port.value == "" ==> p == PortNumber(55555)
  {
    if env.port.Some? && env.port.value != "" then PortText(env.port.value) else PortNumber(55555)
  }

  /** `TEAM || 'SEA'`: the configured team code is never empty. */
  function TeamSetting(env: Env): (team: string)
    ensures team != ""
    ensures env.team.Some? && env.team.value != "" ==> team == env.team.value
    ensures env.team.None? || env.team.value == "" ==> team == "SEA"
  {
    if env.team.Some? && env.team.value != "" then env.team.value else "SEA"
  }

  /** The registered handlers, in registration order: one TeamPlaying for the configured team. */
  function Handlers(env: Env): (handlers: seq<TeamPlaying>)
    ensures |handlers| == 1 && handlers[0] == NewTeamPlaying(Some(TeamSetting(env)))
    ensures forall k :: 0 <= k < |handlers| ==> GetPath(handlers[k]) == "/playing"
  {
    [NewTeamPlaying(Some(TeamSetting(env)))]
  }

  /** `req.url` is truthy: present and not empty. */
  predicate HasUrl(reqUrl: Option<string>) {
    reqUrl.Some? && reqUrl.value != ""
  }

  /**
   * The path a request is routed by: the pathname of the URL the request target
   * denotes (`pathnameOf` stands for the WHATWG URL parser), trimmed.
   */
  function RequestPath(url: string, pathnameOf: string -> string): string {
    Trim(pathnameOf(url))
  }

  /**
   * A pathname the URL parser produces holds no white space or line terminator:
   * it strips or removes them from the input, or percent-encodes them. On such
   * a pathname the trim changes nothing, so the request is routed by the
   * pathname itself.
   */
  lemma ParsedPathnameUntrimmed(url: string, pathnameOf: string -> string)
    requires forall k :: 0 <= k < |pathnameOf(url)| ==> !IsTrimmable(pathnameOf(url)[k])
    ensures RequestPath(url, pathnameOf) == pathnameOf(url)
  {
    var p := pathnameOf(url);
    if p != [] {
      assert !IsTrimmable(p[0]) && !IsTrimmable(p[|p| - 1]);
    }
    TrimFixedPoint(p);
  }

  /** Which handler a request goes to. */
  datatype Route = NoMatch | Matched(index: nat)

  /**
   * The dispatch loop: no URL means no handler; otherwise the first handler in
   * registration order whose path equals the request path, or none.
   */
  method Dispatch(reqUrl: Option<string>, pathnameOf: string -> string, handlers: seq<TeamPlaying>)
    returns (route: Route)
    ensures !HasUrl(reqUrl) ==> route == NoMatch
    ensures route.Matched? ==>
      && HasUrl(reqUrl) && route.index < |handlers|
      && GetPath(handlers[route.index]) == RequestPath(reqUrl.value, pathnameOf)
    ensures route.Matched? ==>
      forall k :: 0 <= k < route.index ==> GetPath(handlers[k]) != RequestPath(reqUrl.value, pathnameOf)
    ensures route.NoMatch? && HasUrl(reqUrl) ==>
      forall k :: 0 <= k < |handlers| ==> GetPath(handlers[k]) != RequestPath(reqUrl.value, pathnameOf)
  {
    if !HasUrl(reqUrl) {
      return NoMatch;
    }
    var path := Trim(pathnameOf(reqUrl.value));
    for i := 0 to |handlers|
      invariant forall k :: 0 <= k < i ==> GetPath(handlers[k]) != path
    {
      if GetPath(handlers[i]) == path {
        return Matched(i);
      }
    }
    return NoMatch;
  }

  /**
   * One request end to end, with the upstream schedule given as `fetched`: 404
   * unless the trimmed pathname is "/playing", and otherwise the older handler's
   * payload: the team is playing exactly when a fetched game is being played,
   * and then, and only then, the state is present and is that of the earliest
   * fetched game being played.
   */
  method Serve(env: Env, reqUrl: Option<string>, pathnameOf: string -> string, fetched: Option<seq<ScheduledGame>>)
    returns (resp: Response)
    ensures !HasUrl(reqUrl) ==> resp == WriteNotFound()
    ensures HasUrl(reqUrl) && RequestPath(reqUrl.value, pathnameOf) != "/playing" ==> resp == WriteNotFound()
    ensures HasUrl(reqUrl) && RequestPath(reqUrl.value, pathnameOf) == "/playing" ==>
      && resp.status == 200 && resp.body.LegacyPlaying?
      && (resp.body.teamPlaying <==> fetched.Some? && exists g :: g in fetched.value && IsGameBeingPlayed(g))
      && (resp.body.state.Some? <==> resp.body.teamPlaying)
      && (resp.body.state.Some? ==> resp.body.state.value in {Pregame, Live, Critical})
      && (resp.body.state.Some? ==>
            exists g :: IsEarliestPlaying(g, fetched.value) && resp.body.state.value == g.gameState)
  {
    var handlers := Handlers(env);
    var route := Dispatch(reqUrl, pathnameOf, handlers);
    match route
    case NoMatch =>
      resp := WriteNotFound();
    case Matched(i) =>
      resp := LegacyPlayingHandler.HandleRequest(handlers[i], fetched);
  }
}

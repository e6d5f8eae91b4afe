# pico-nhl server core, modelled in Dafny

The server answers one question: is the configured NHL team playing right now?
For each request it fetches the team's month schedule from the NHL web API,
sorts the games by start time, and takes the first game whose state counts as
"being played" (Pregame, Live or Critical). It then answers with a JSON
payload. This project models that logic:

- `api_types.dfy` (module `ApiTypes`): the seven `GameState` codes and the
  `ScheduledGame` / `GameTeamData` records.
- `team_data.dfy` (module `Schedule`): the state classification; the
  chronological sort as an in-place insertion sort on an `array`; the linear
  search for the first game being played; and the `TeamData` class, whose
  team code is fixed at construction.
- `playing_handler.dfy` (module `PlayingHandler`): the newer `shouldHandle`
  handler, which reports state and score from the perspective team's side.
- `legacy_playing_handler.dfy` (module `LegacyPlayingHandler`): the older
  `getPath` handler. This is the one the server actually registers. Its
  payload has no score and no `Future` fallback.
- `server.dfy` (module `Server`): the `PORT`/`TEAM` defaults, the dispatch
  loop over the registered handlers, and one request end to end.
- `text.dfy` (module `Text`): ECMAScript `String.prototype.trim`, which the
  router applies to the path.
- `responses.dfy` (module `Responses`): status code and body of a reply.
- `scenarios.dfy` (module `Scenarios`): whole requests on concrete schedules,
  derived from the contracts.
- `wrappers.dfy` (module `Wrappers`): `Option`, which stands for `null` and
  `undefined`.

Inputs the code obtains from outside are parameters:

- The upstream month-schedule fetch is `fetched: Option<seq<ScheduledGame>>`.
  None means `getTeamMonthSchedule` returned null.
- A start time is an integer already parsed from `startTimeUTC`.
- `new URL(...).pathname` is a function parameter `pathnameOf`.
- An exception thrown inside a handler's `try` is the `Threw` case of
  `Responses.Lookup`.

Behaviour of the code worth stating:

- `NhlApi` catches a failed upstream fetch and returns null. The reply is
  then the ordinary 200 "not playing" payload (`Scenarios.FetchFailure`).
  FETCH_ERROR appears only when something throws after the fetch.
- The server registers the older `getPath` handler. The newer handler, which
  reports a score, is registered nowhere.
- The sort puts games in non-decreasing start order, so games that start
  together may stay side by side. It sorts the fetched array in place and
  returns that same array.

## Model

| member | source | states |
|---|---|---|
| `ApiTypes.StateFromCode` | server/src/api/api_types.ts:5-13 | a code maps back only to the state that carries it; unknown codes map to nothing |
| `ApiTypes.CodeRoundTrip` | server/src/api/api_types.ts:5-13 | every state is recovered from its code, so the seven codes are distinct |
| `Schedule.IsGameBeingPlayed` | server/src/api/team_data.ts:45-57 | true exactly for Pregame, Live and Critical; false exactly for Future, Final, Complete and Postponed |
| `Schedule.IsCodeBeingPlayed` | server/src/api/team_data.ts:45-57 | on a raw upstream code: true exactly for "PRE", "LIVE" and "CRIT"; any other code, including one naming no state, takes the `default` branch and is false |
| `Schedule.CodeClassificationAgrees` | server/src/api/team_data.ts:45-57 | classifying a game and classifying the code of its state give the same answer |
| `Schedule.EarliestPlayingUnique` | server/src/api/team_data.ts:26-28 | when no two games start together there is only one earliest game being played, so the reported game is determined |
| `Schedule.SortByStartTime` | server/src/api/team_data.ts:39-41 | after the in-place sort the array is in non-decreasing start-time order and is a permutation of what it held |
| `Schedule.FindFirstBeingPlayed` | server/src/api/team_data.ts:26-28 | returns the game at the first position that is being played, with nothing being played before it; returns None exactly when no game is being played |
| `Schedule.FirstPlayingIsEarliest` | server/src/api/team_data.ts:21-28 | in a chronologically sorted schedule, the first game being played starts no later than any other game being played |
| `Schedule.SortedPermutationUnique` | server/src/api/team_data.ts:39-41 | when no two games start together, two sorted orders of the same games are equal: the order is determined and sorting a sorted schedule changes nothing |
| `Schedule.TeamData.constructor` | server/src/api/team_data.ts:15 | the team code is 'SEA' when none is given; a given code is kept |
| `Schedule.TeamData.FetchSchedule` | server/src/api/team_data.ts:35-42 | the result is absent exactly when the fetch was; otherwise it is sorted by start time and holds exactly the fetched games, so an empty list stays empty |
| `Schedule.TeamData.GetLiveScheduledGame` | server/src/api/team_data.ts:23-29 | absent when the fetch was absent or no fetched game is being played; otherwise a fetched game that is being played and starts no later than any other such game |
| `Text.TrimStart` | server/src/index.ts:22 | the result is the suffix left after removing only white space, and does not start with white space |
| `Text.TrimEnd` | server/src/index.ts:22 | the result is the prefix left after removing only white space, and does not end with white space |
| `Text.Trim` | server/src/index.ts:22 | the trimmed path neither starts nor ends with white space |
| `Text.TrimIgnoresPadding` | server/src/index.ts:22 | white space around a path does not change its trim |
| `Text.TrimFixedPoint` | server/src/index.ts:22 | a path without surrounding white space is its own trim (trim is idempotent) |
| `PlayingHandler.ShouldHandle` | server/src/handler/team_playing.ts:17-19 | true exactly when the pathname is "/playing" |
| `PlayingHandler.GetScoreFromTeamData` | server/src/handler/team_playing.ts:63-69 | a reported score, including 0, is returned unchanged; a missing score gives null |
| `PlayingHandler.GetScore` | server/src/handler/team_playing.ts:41-61 | no game gives two nulls; home abbreviation equal to the team reads home then away; any other case reads away then home |
| `PlayingHandler.PerspectivesMirror` | server/src/handler/team_playing.ts:52-60 | the home team's and the away team's views of one game are mirror images |
| `PlayingHandler.OutsiderReadAsAway` | server/src/handler/team_playing.ts:52-55 | a team on neither side is scored as the away team, because only the home abbreviation is compared |
| `PlayingHandler.Handle` | server/src/handler/team_playing.ts:21-38 | a throw gives 500 FETCH_ERROR with the fixed message; otherwise 200, teamPlaying iff a game was found, its state or else Future, and its score |
| `PlayingHandler.HandleRequest` | server/src/handler/team_playing.ts:21-31 | 200; teamPlaying iff a fetched game is being played, iff the reported state is Pregame, Live or Critical; when not playing the state is Future and both scores are null; when playing, state and score are those of the earliest fetched game being played |
| `LegacyPlayingHandler.NewTeamPlaying` | server/src/api/team_playing.ts:11-14 | the handler's team is 'SEA' when none is given |
| `LegacyPlayingHandler.GetPath` | server/src/api/team_playing.ts:16-18 | the path is always "/playing" |
| `LegacyPlayingHandler.Handle` | server/src/api/team_playing.ts:20-33 | a throw gives 500 FETCH_ERROR; otherwise 200 with teamPlaying iff a game was found, a state present exactly then, and no score field |
| `LegacyPlayingHandler.GenerationsAgree` | server/src/api/team_playing.ts:23-26 | the two handler generations give the same status, the same error, and the same teamPlaying; the newer state is the older one with Future for a missing state |
| `LegacyPlayingHandler.HandleRequest` | server/src/api/team_playing.ts:20-26 | 200; teamPlaying iff a fetched game is being played; a state is present exactly then and is the state of the earliest fetched game being played |
| `Server.PortSetting` | server/src/index.ts:5 | PORT when set and non-empty, else the number 55555 |
| `Server.TeamSetting` | server/src/index.ts:6 | TEAM when set and non-empty, else 'SEA'; never empty |
| `Server.Handlers` | server/src/index.ts:9-11 | exactly one handler is registered, built as `new TeamPlaying(TEAM)`, and its path is "/playing" |
| `Server.ParsedPathnameUntrimmed` | server/src/index.ts:21-22 | a pathname without white space or line terminators, as the URL parser produces, is routed unchanged by the trim |
| `Server.Dispatch` | server/src/index.ts:16-31 | no URL (or an empty one) matches nothing; otherwise the first handler, in registration order, whose path equals the trimmed pathname; no match when none does |
| `Server.Serve` | server/src/index.ts:13-32 | 404 unless the URL is present and its trimmed pathname is "/playing"; then the older handler's 200 payload: playing iff a fetched game is being played, a state present exactly then, and that state the earliest such game's |
| `Scenarios.LiveHomeGame` | server/src/handler/team_playing.ts:21-31 | SEA at home, live, 3 to 2: 200 with teamPlaying true, state LIVE, score 3 to 2 |
| `Scenarios.OnlyFinalGame` | server/src/handler/team_playing.ts:21-31 | only a final game: 200 with teamPlaying false, state FUT, two null scores |
| `Scenarios.FetchFailure` | server/src/api/nhl_api.ts:44-51 | a failed fetch yields the 200 not-playing payload, not an error |
| `Scenarios.UnknownPath` | server/src/index.ts:24-31 | a request for /unknown gets 404 with no body |
| `Scenarios.TwoLiveGames` | server/src/api/team_data.ts:23-41 | two live games listed late-first: the reply reports the score of the one that starts first |

## Left out

- Upstream client (`server/src/api/nhl_api.ts`): the HTTP fetches, JSON parsing, URL templating and logging are I/O. The schedule fetch is the `fetched` parameter. The box-score fetch is used by no route.
- Date parsing of `startTimeUTC`, and the NaN an invalid date gives the comparator: these are a host-library call. Start times are given integers.
- Game-state codes outside the seven: a `ScheduledGame` carries a closed `GameState`, so the schedule and handlers never see an unknown code. The `default:` branch of the classification is modelled only on raw codes, by `Schedule.IsCodeBeingPlayed`.
- Schedule.SortByStartTime: does not claim stability, although the JavaScript engine's sort is stable. Games that start together may come out in any order. `Schedule.SortedPermutationUnique` shows the order is determined when start times are distinct.
- Schedule.SortByStartTime: the engine's own sort algorithm is replaced by an insertion sort. Only the result is specified.
- Schedule.FindFirstBeingPlayed: the position of the found game is a ghost out-parameter. It is not returned to callers.
- The `Threw` lookup outcome: the model's fetch never produces it. In the code it comes from a thrown exception, for example a `games` field that is not an array, which makes `sort` throw.
- `new URL(...)`: the URL parser is the uninterpreted `pathnameOf` parameter. A URL it rejects throws outside any `catch`, and that is not modelled.
- Server.Serve: `pathnameOf` is not constrained to the parser's output. The real parser strips, removes or percent-encodes white space, so the trim never changes a real pathname (`Server.ParsedPathnameUntrimmed`). A padded pathname, which the model would still route to the handler, never occurs in the program.
- Response writing (`writeSuccess`, `writeError`, `writeNotFound` in both `handler.ts` files): only the status and the body are modelled. Headers and `JSON.stringify` are left out. `writeBadRequest` is called nowhere and is left out.
- The newer handler is registered nowhere. It is modelled on its own and compared with the older one in `LegacyPlayingHandler.GenerationsAgree`.
- Async suspension, the un-awaited `handler.handle` call, `http.createServer`, `server.listen` and console logging are event-loop plumbing.
- `pico/pico_nhl.py`: the microcontroller client is network I/O.
- The commented-out `isGameInThePast` and `isGameInTheFuture` are dead code.

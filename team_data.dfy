/**
 * Schedule selection (server/src/api/team_data.ts): which game states count as
 * "being played", the chronological sort of a fetched schedule, and the search
 * for the first game in that order that is being played.
 */
module Schedule {
  import opened Wrappers
  import opened ApiTypes

  /** The "being played" classification of a state: Pregame, Live and Critical only. */
  predicate IsStateBeingPlayed(state: GameState) {
    match state
    case Pregame => true
    case Live => true
    case Critical => true
    case Future => false
    case Final => false
    case Complete => false
    case Postponed => false
  }

  /** A game is being played when its state is Pregame, Live or Critical. */
  predicate IsGameBeingPlayed(game: ScheduledGame)
    ensures IsGameBeingPlayed(game) <==> game.gameState in {Pregame, Live, Critical}
    ensures !IsGameBeingPlayed(game) <==> game.gameState in {Future, Final, Complete, Postponed}
  {
    IsStateBeingPlayed(game.gameState)
  }

  /**
   * The classification applied to the raw code the upstream API sends: a code
   * that names none of the seven states falls to the `default` branch and is
   * not being played.
   */
  predicate IsCodeBeingPlayed(code: string)
    ensures IsCodeBeingPlayed(code) <==> code == "PRE" || code == "LIVE" || code == "CRIT"
  {
    match StateFromCode(code)
    case None => false
    case Some(state) => IsStateBeingPlayed(state)
  }

  /** Classifying a game and classifying the code of its state agree. */
  lemma CodeClassificationAgrees(game: ScheduledGame)
    ensures IsGameBeingPlayed(game) <==> IsCodeBeingPlayed(game.gameState.Code())
  {
  }

  /** Chronological order: start times never decrease along the sequence. */
  ghost predicate SortedByStart(s: seq<ScheduledGame>) {
    forall i, j :: 0 <= i < j < |s| ==> s[i].startTimeUTC <= s[j].startTimeUTC
  }

  /** No two games of the sequence start at the same instant. */
  ghost predicate DistinctStarts(s: seq<ScheduledGame>) {
    forall i, j :: 0 <= i < j < |s| ==> s[i].startTimeUTC != s[j].startTimeUTC
  }

  /** `g` is a game of `games` that is being played and starts no later than any other such game. */
  ghost predicate IsEarliestPlaying(g: ScheduledGame, games: seq<ScheduledGame>) {
    && g in games && IsGameBeingPlayed(g)
    && forall h :: h in games && IsGameBeingPlayed(h) ==> g.startTimeUTC <= h.startTimeUTC
  }

  /** When no two games start together, the earliest game being played is a single game. */
  lemma EarliestPlayingUnique(g1: ScheduledGame, g2: ScheduledGame, games: seq<ScheduledGame>)
    requires DistinctStarts(games)
    requires IsEarliestPlaying(g1, games) && IsEarliestPlaying(g2, games)
    ensures g1 == g2
  {
    var i :| 0 <= i < |games| && games[i] == g1;
    var j :| 0 <= j < |games| && games[j] == g2;
    assert games[i].startTimeUTC == games[j].startTimeUTC;
  }

  method Swap(a: array<ScheduledGame>, i: nat, j: nat)
    requires i < a.Length && j < a.Length
    modifies a
    ensures a[..] == old(a[..])[i := old(a[j])][j := old(a[i])]
    ensures multiset(a[..]) == multiset(old(a[..]))
  {
    a[i], a[j] := a[j], a[i];
  }

  /**
   * Sorts the games in place, ascending by start time, by insertion: each new
   * game is swapped towards the front past every game that starts later.
   */
  method SortByStartTime(a: array<ScheduledGame>)
    modifies a
    ensures SortedByStart(a[..])
    ensures multiset(a[..]) == multiset(old(a[..]))
  {
    var i := 0;
    while i < a.Length
      invariant 0 <= i <= a.Length
      invariant SortedByStart(a[..i])
      invariant multiset(a[..]) == multiset(old(a[..]))
    {
      var j := i;
      while 0 < j && a[j].startTimeUTC < a[j - 1].startTimeUTC
        invariant 0 <= j <= i
        invariant forall p, q :: 0 <= p < q <= i && p != j && q != j ==> a[p].startTimeUTC <= a[q].startTimeUTC
        invariant forall q :: j < q <= i ==> a[j].startTimeUTC < a[q].startTimeUTC
        invariant multiset(a[..]) == multiset(old(a[..]))
      {
        Swap(a, j - 1, j);
        j := j - 1;
      }
      i := i + 1;
    }
    assert a[..a.Length] == a[..];
  }

  /**
   * The linear `find`: the first game of the schedule that is being played, or
   * None when no game of it is.
   */
  method FindFirstBeingPlayed(schedule: seq<ScheduledGame>) returns (game: Option<ScheduledGame>, ghost at: nat)
    ensures game.None? <==> forall k :: 0 <= k < |schedule| ==> !IsGameBeingPlayed(schedule[k])
    ensures game.Some? ==> at < |schedule| && schedule[at] == game.value && IsGameBeingPlayed(game.value)
    ensures game.Some? ==> forall k :: 0 <= k < at ==> !IsGameBeingPlayed(schedule[k])
  {
    at := 0;
    var i := 0;
    while i < |schedule|
      invariant 0 <= i <= |schedule|
      invariant forall k :: 0 <= k < i ==> !IsGameBeingPlayed(schedule[k])
    {
      if IsGameBeingPlayed(schedule[i]) {
        return Some(schedule[i]), i;
      }
      i := i + 1;
    }
    return None, 0;
  }

  /**
   * In a chronologically sorted schedule, the first game being played starts no
   * later than any other game being played.
   */
  lemma FirstPlayingIsEarliest(s: seq<ScheduledGame>, at: nat, g: ScheduledGame)
    requires SortedByStart(s)
    requires at < |s| && IsGameBeingPlayed(s[at])
    requires forall k :: 0 <= k < at ==> !IsGameBeingPlayed(s[k])
    requires g in s && IsGameBeingPlayed(g)
    ensures s[at].startTimeUTC <= g.startTimeUTC
  {
  }

  /** Two chronological orderings of the same non-empty games begin with the same game when no two start together. */
  lemma SameFirstGame(s: seq<ScheduledGame>, t: seq<ScheduledGame>)
    requires SortedByStart(s) && SortedByStart(t)
    requires multiset(s) == multiset(t) && s != []
    requires DistinctStarts(s)
    ensures t != [] && t[0] == s[0]
  {
    assert s[0] in multiset(t);
    var j :| 0 <= j < |t| && t[j] == s[0];
    assert t[0] in multiset(s);
    var i :| 0 <= i < |s| && s[i] == t[0];
    assert s[0].startTimeUTC <= s[i].startTimeUTC;
    assert t[0].startTimeUTC <= t[j].startTimeUTC;
  }

  /**
   * Two chronological orderings of the same games are the same sequence when no
   * two games start together: the sorted schedule, and therefore the game found
   * in it, does not depend on how the sort broke ties, and sorting a sorted
   * schedule leaves it as it is.
   */
  lemma {:induction false} SortedPermutationUnique(s: seq<ScheduledGame>, t: seq<ScheduledGame>)
    requires SortedByStart(s) && SortedByStart(t)
    requires multiset(s) == multiset(t)
    requires DistinctStarts(s)
    ensures s == t
    decreases |s|
  {
    if s == [] {
      assert |t| == |multiset(t)| == 0;
    } else {
      SameFirstGame(s, t);
      assert s == [s[0]] + s[1..];
      assert t == [t[0]] + t[1..];
      assert multiset(s) == multiset{s[0]} + multiset(s[1..]);
      assert multiset(t) == multiset{s[0]} + multiset(t[1..]);
      assert multiset(s[1..]) == multiset(s) - multiset{s[0]};
      assert multiset(t[1..]) == multiset(t) - multiset{s[0]};
      SortedPermutationUnique(s[1..], t[1..]);
    }
  }

  /**
   * The service object of one perspective team. The team code is fixed at
   * construction; the upstream month schedule it would fetch for that team is
   * passed to its methods as `fetched` (None: the fetch failed or the body had no
   * game list).
   */
  class TeamData {
    const team: string

    /** An absent team code falls back to 'SEA'; a given one, even empty, is kept. */
    constructor (team: Option<string>)
      ensures team.None? ==> this.team == "SEA"
      ensures team.Some? ==> this.team == team.value
    {
      this.team := team.GetOr("SEA");
    }

    /**
     * The fetched games in chronological order. An absent fetch stays absent; an
     * empty game list comes back empty, not absent.
     */
    method FetchSchedule(fetched: Option<seq<ScheduledGame>>) returns (schedule: Option<seq<ScheduledGame>>)
      ensures schedule.None? <==> fetched.None?
      ensures schedule.Some? ==> SortedByStart(schedule.value)
      ensures schedule.Some? ==> multiset(schedule.value) == multiset(fetched.value)
    {
      match fetched
      case None =>
        schedule := None;
      case Some(games) =>
        var a := new ScheduledGame[|games|](k requires 0 <= k < |games| => games[k]);
        assert a[..] == games;
        SortByStartTime(a);
        schedule := Some(a[..]);
    }

    /**
     * The live game: among the fetched games, the earliest one being played, or
     * None when the fetch failed or no fetched game is being played.
     */
    method GetLiveScheduledGame(fetched: Option<seq<ScheduledGame>>) returns (game: Option<ScheduledGame>)
      ensures fetched.None? ==> game.None?
      ensures game.None? <==> fetched.None? || forall g :: g in fetched.value ==> !IsGameBeingPlayed(g)
      ensures game.Some? ==> fetched.Some? && game.value in fetched.value && IsGameBeingPlayed(game.value)
      ensures game.Some? ==> forall g :: g in fetched.value && IsGameBeingPlayed(g) ==> game.value.startTimeUTC <= g.startTimeUTC
      ensures game.Some? ==> IsEarliestPlaying(game.value, fetched.value)
    {
      var schedule := FetchSchedule(fetched);
      if schedule.None? {
        return None;
      }
      var sorted := schedule.value;
      ghost var at;
      game, at := FindFirstBeingPlayed(sorted);
      forall g | g in fetched.value
        ensures g in sorted
      {
        assert g in multiset(fetched.value);
      }
      if game.Some? {
        assert game.value in multiset(sorted);
        forall g | g in fetched.value && IsGameBeingPlayed(g)
          ensures game.value.startTimeUTC <= g.startTimeUTC
        {
          FirstPlayingIsEarliest(sorted, at, g);
        }
      }
    }
  }
}

/**
 * Fixture look-ups of a club: the upcoming fixtures (from the current gameweek on, not yet
 * played) in `getAllFixtures` order, the first of them, or at most five of them; and the map
 * from the fixture feed's club names to the names the FPL data uses.
 */
module FixtureService {
  import opened Wrappers
  import opened Teams

  /** `TEAM_NAME_MAPPING`: the seven feed names that differ from the FPL names. */
  const TeamNameMapping: map<string, string> := map[
    "Wolverhampton" := "Wolves",
    "Tottenham" := "Spurs",
    "Brighton Hove" := "Brighton",
    "Nottingham" := "Nott'm Forest",
    "Man United" := "Man Utd",
    "Ipswich Town" := "Ipswich",
    "Leicester City" := "Leicester"
  ]

  /** `mapTeamName`: `getOrDefault(teamName, teamName)`. */
  function MapTeamName(teamName: string): (r: string)
    ensures teamName in TeamNameMapping ==> r == TeamNameMapping[teamName]
    ensures teamName !in TeamNameMapping ==> r == teamName
  {
    if teamName in TeamNameMapping then TeamNameMapping[teamName] else teamName
  }

  /** Mapping twice is mapping once: no FPL name is itself a feed name that gets mapped. */
  lemma MapTeamNameIdempotent(teamName: string)
    ensures MapTeamName(MapTeamName(teamName)) == MapTeamName(teamName)
  {
  }

  /** No two of the seven feed names map to one FPL name, and each is renamed. */
  lemma MapTeamNameInjective(a: string, b: string)
    requires a in TeamNameMapping && b in TeamNameMapping && a != b
    ensures MapTeamName(a) != MapTeamName(b)
    ensures MapTeamName(a) != a
  {
  }

  /** A fixture still to come: from the current gameweek on and not yet played. */
  predicate IsUpcoming(f: Fixture, currentGw: int) {
    f.gw >= currentGw && !f.isDone
  }

  /** The upcoming fixtures of a list, in list order. */
  function Upcoming(fixtures: seq<Fixture>, currentGw: int): seq<Fixture> {
    if fixtures == [] then []
    else Upcoming(fixtures[..|fixtures| - 1], currentGw)
         + (if IsUpcoming(fixtures[|fixtures| - 1], currentGw) then [fixtures[|fixtures| - 1]] else [])
  }

  /** Upcoming keeps exactly the upcoming fixtures, each as often as it occurs. */
  lemma {:induction false} UpcomingFilter(fixtures: seq<Fixture>, currentGw: int)
    ensures var u := Upcoming(fixtures, currentGw);
      forall f :: multiset(u)[f] == if IsUpcoming(f, currentGw) then multiset(fixtures)[f] else 0
    ensures var u := Upcoming(fixtures, currentGw);
      forall i :: 0 <= i < |u| ==> IsUpcoming(u[i], currentGw)
  {
    if fixtures != [] {
      var init := fixtures[..|fixtures| - 1];
      UpcomingFilter(init, currentGw);
      assert fixtures == init + [fixtures[|fixtures| - 1]];
    }
  }

  /** The upcoming fixtures of a longer list extend those of a prefix. */
  lemma {:induction false} UpcomingPrefix(fixtures: seq<Fixture>, i: nat, currentGw: int)
    requires i <= |fixtures|
    ensures Upcoming(fixtures[..i], currentGw) <= Upcoming(fixtures, currentGw)
    decreases |fixtures| - i
  {
    if i < |fixtures| {
      UpcomingPrefix(fixtures, i + 1, currentGw);
      assert fixtures[..i + 1][..i] == fixtures[..i];
    } else {
      assert fixtures[..i] == fixtures;
    }
  }

  function Min(a: nat, b: nat): nat {
    if a <= b then a else b
  }

  /** The first five upcoming fixtures of a club, or all of them when there are fewer. */
  function NextFixtures(team: PlayerTeam, currentGw: int): seq<Fixture>
    reads team
  {
    var u := Upcoming(team.AllFixtures(), currentGw);
    u[..Min(5, |u|)]
  }

  /** The next fixtures are at most five upcoming fixtures of the club, the earliest in list
   *  order; fewer than five only when there are no more. */
  lemma NextFixturesSpec(team: PlayerTeam, currentGw: int)
    ensures var r := NextFixtures(team, currentGw);
      |r| <= 5 && forall i :: 0 <= i < |r| ==> IsUpcoming(r[i], currentGw) && r[i] in team.AllFixtures()
    ensures NextFixtures(team, currentGw) <= Upcoming(team.AllFixtures(), currentGw)
    ensures |NextFixtures(team, currentGw)| < 5 ==>
      NextFixtures(team, currentGw) == Upcoming(team.AllFixtures(), currentGw)
  {
    var all := team.AllFixtures();
    var u := Upcoming(all, currentGw);
    var r := NextFixtures(team, currentGw);
    UpcomingFilter(all, currentGw);
    forall i | 0 <= i < |r|
      ensures IsUpcoming(r[i], currentGw) && r[i] in all
    {
      assert r[i] == u[i];
      assert IsUpcoming(u[i], currentGw);
      assert multiset(u)[u[i]] > 0;
      assert multiset(all)[u[i]] > 0;
    }
  }

  /** `getNextFixtures(team, currentGw)`: the loop stops as soon as five are collected. */
  method GetNextFixtures(team: PlayerTeam, currentGw: int) returns (nextFixtures: seq<Fixture>)
    ensures nextFixtures == NextFixtures(team, currentGw)
  {
    nextFixtures := [];
    var fixtures := team.AllFixtures();
    var i := 0;
    while i < |fixtures|
      invariant 0 <= i <= |fixtures|
      invariant nextFixtures == Upcoming(fixtures[..i], currentGw)
      invariant |nextFixtures| < 5
    {
      var fixture := fixtures[i];
      assert fixtures[..i + 1][..i] == fixtures[..i];
      if fixture.gw >= currentGw && !fixture.isDone {
        nextFixtures := nextFixtures + [fixture];
        if |nextFixtures| == 5 {
          UpcomingPrefix(fixtures, i + 1, currentGw);
          return;
        }
      }
      i := i + 1;
    }
    assert fixtures[..i] == fixtures;
  }

  /** `findNextFixture(team)`, with the current gameweek passed in; None stands for null. */
  method FindNextFixture(team: PlayerTeam, currentGameweek: int) returns (next: Option<Fixture>)
    ensures var u := Upcoming(team.AllFixtures(), currentGameweek);
      next == if u == [] then None else Some(u[0])
  {
    var fixtures := team.AllFixtures();
    var i := 0;
    while i < |fixtures|
      invariant 0 <= i <= |fixtures|
      invariant Upcoming(fixtures[..i], currentGameweek) == []
    {
      var fixture := fixtures[i];
      assert fixtures[..i + 1][..i] == fixtures[..i];
      if fixture.gw >= currentGameweek && !fixture.isDone {
        UpcomingPrefix(fixtures, i + 1, currentGameweek);
        return Some(fixture);
      }
      i := i + 1;
    }
    assert fixtures[..i] == fixtures;
    return None;
  }

  /** The next fixture is the first of the next fixtures, and there is one exactly when the
   *  list of next fixtures is not empty. */
  method NextIsFirstOfNext(team: PlayerTeam, currentGw: int)
    returns (next: Option<Fixture>, nextFixtures: seq<Fixture>)
    ensures next.None? <==> nextFixtures == []
    ensures next.Some? ==> next.value == nextFixtures[0]
    ensures |nextFixtures| <= 5
  {
    next := FindNextFixture(team, currentGw);
    nextFixtures := GetNextFixtures(team, currentGw);
    NextFixturesSpec(team, currentGw);
  }

  /** A fixture is upcoming somewhere in the list exactly when the list of upcoming fixtures
   *  is not empty. */
  lemma UpcomingEmpty(fixtures: seq<Fixture>, currentGw: int)
    ensures Upcoming(fixtures, currentGw) == []
        <==> forall i :: 0 <= i < |fixtures| ==> !IsUpcoming(fixtures[i], currentGw)
  {
    UpcomingFilter(fixtures, currentGw);
    var u := Upcoming(fixtures, currentGw);
    if u == [] {
      forall i | 0 <= i < |fixtures|
        ensures !IsUpcoming(fixtures[i], currentGw)
      {
        assert multiset(fixtures)[fixtures[i]] > 0;
      }
    } else {
      assert multiset(u)[u[0]] > 0;
    }
  }
}

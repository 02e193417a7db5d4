/**
 * Per-club look-ups over a club's fixtures (`getAllFixtures`, home then away): the strength tier
 * and the home flag for a gameweek, read off the first fixture of that gameweek, and the form,
 * the mean of a sliding window of the last results before a gameweek.
 * Where the source dereferences a null home club, the result is None.
 */
module PlayerTeamService {
  import opened Wrappers
  import opened Teams

  /** The index of the first fixture of gameweek gw, or |fixtures| when there is none. */
  function FirstAt(fixtures: seq<Fixture>, gw: int): (k: nat)
    ensures k <= |fixtures|
    ensures k < |fixtures| ==> fixtures[k].gw == gw
    ensures forall i :: 0 <= i < k ==> fixtures[i].gw != gw
  {
    if fixtures == [] then 0
    else if fixtures[0].gw == gw then 0
    else 1 + FirstAt(fixtures[1..], gw)
  }

  /** The strength tier: 3 from 1270, 2 from 1160, 1 below. */
  function Tier(strength: int): (t: int)
    ensures 1 <= t <= 3
    ensures t == 3 <==> strength >= 1270
    ensures t == 1 <==> strength < 1160
  {
    if strength >= 1270 then 3
    else if strength >= 1160 then 2
    else 1
  }

  /** A stronger club never gets a lower tier. */
  lemma TierMonotone(a: int, b: int)
    requires a <= b
    ensures Tier(a) <= Tier(b)
  {
  }

  /** The strength the club plays with in a fixture: home strength when it is the home club. */
  function SideStrength(team: PlayerTeam, f: Fixture): int
    requires f.hometeam != null
  {
    if f.hometeam.Equals(team) then team.homeStrength else team.awayStrength
  }

  /** The loop of `calculateTeamStrength` over a fixture list: None where it throws. */
  function StrengthIn(team: PlayerTeam, fixtures: seq<Fixture>, gw: int): (r: Option<int>)
    ensures r.Some? ==> 0 <= r.value <= 3
  {
    if fixtures == [] then Some(0)
    else if fixtures[0].gw == gw then
      (if fixtures[0].hometeam == null then None else Some(Tier(SideStrength(team, fixtures[0]))))
    else StrengthIn(team, fixtures[1..], gw)
  }

  /** `calculateTeamStrength(team, gw)`. */
  function CalculateTeamStrength(team: PlayerTeam, gw: int): (r: Option<int>)
    reads team
    ensures r.Some? ==> 0 <= r.value <= 3
  {
    StrengthIn(team, team.AllFixtures(), gw)
  }

  /**
   * The strength is decided by the first fixture of the gameweek alone: 0 when there is none,
   * a failure when its home club is null, otherwise the tier of the home strength if the club
   * is that fixture's home club and of the away strength if not.
   */
  lemma {:induction false} StrengthAtFirst(team: PlayerTeam, fixtures: seq<Fixture>, gw: int)
    ensures var k := FirstAt(fixtures, gw);
      StrengthIn(team, fixtures, gw)
      == if k == |fixtures| then Some(0)
         else if fixtures[k].hometeam == null then None
         else if fixtures[k].hometeam.code == team.code then Some(Tier(team.homeStrength))
         else Some(Tier(team.awayStrength))
  {
    if fixtures != [] && fixtures[0].gw != gw {
      StrengthAtFirst(team, fixtures[1..], gw);
    }
  }

  /** The loop of `isHomeGame` over a fixture list: None where it throws. */
  function HomeIn(team: PlayerTeam, fixtures: seq<Fixture>, gw: int): Option<bool> {
    if fixtures == [] then Some(false)
    else if fixtures[0].gw == gw then
      (if fixtures[0].hometeam == null then None else Some(fixtures[0].hometeam.Equals(team)))
    else HomeIn(team, fixtures[1..], gw)
  }

  /** `isHomeGame(team, gw)`: decided by the first fixture of the gameweek, home then away. */
  function IsHomeGame(team: PlayerTeam, gw: int): (r: Option<bool>)
    reads team
    ensures var fs := team.AllFixtures(); var k := FirstAt(fs, gw);
      r == if k == |fs| then Some(false)
           else if fs[k].hometeam == null then None
           else Some(fs[k].hometeam.code == team.code)
  {
    HomeAtFirst(team, team.AllFixtures(), gw);
    HomeIn(team, team.AllFixtures(), gw)
  }

  /**
   * A home game exactly when the first fixture of the gameweek has this club (by code) as home
   * club; false when there is no fixture that gameweek.
   */
  lemma {:induction false} HomeAtFirst(team: PlayerTeam, fixtures: seq<Fixture>, gw: int)
    ensures var k := FirstAt(fixtures, gw);
      HomeIn(team, fixtures, gw)
      == if k == |fixtures| then Some(false)
         else if fixtures[k].hometeam == null then None
         else Some(fixtures[k].hometeam.code == team.code)
  {
    if fixtures != [] && fixtures[0].gw != gw {
      HomeAtFirst(team, fixtures[1..], gw);
    }
  }

  /** The two look-ups agree: both fail together, and the strength is the home tier exactly on
   *  a home game (when there is a fixture that gameweek). */
  lemma StrengthMatchesHome(team: PlayerTeam, gw: int)
    ensures CalculateTeamStrength(team, gw).None? <==> IsHomeGame(team, gw).None?
    ensures IsHomeGame(team, gw) == Some(true) ==>
      CalculateTeamStrength(team, gw) == Some(Tier(team.homeStrength))
    ensures IsHomeGame(team, gw) == Some(false) ==>
      CalculateTeamStrength(team, gw) == Some(0)
      || CalculateTeamStrength(team, gw) == Some(Tier(team.awayStrength))
  {
    StrengthAtFirst(team, team.AllFixtures(), gw);
    HomeAtFirst(team, team.AllFixtures(), gw);
  }

  /** The points of a result: W 3, D 2, L 1; any other string counts nothing. */
  function ResultPoints(result: string): (r: Option<int>)
    ensures r.Some? ==> 1 <= r.value <= 3
    ensures r.Some? <==> result == "W" || result == "D" || result == "L"
  {
    if result == "W" then Some(3)
    else if result == "D" then Some(2)
    else if result == "L" then Some(1)
    else None
  }

  /** The window after one more fixture before gw: evict the oldest entry when the window is
   *  full, then add the fixture's points if its result is recognised. */
  function Slide(window: seq<int>, f: Fixture, gw: int): seq<int> {
    if f.gw < gw then
      var kept := if |window| >= 5 then window[1..] else window;
      match ResultPoints(f.result)
      case Some(p) => kept + [p]
      case None => kept
    else window
  }

  /** The window after the whole fixture list, in list order. */
  function Window(fixtures: seq<Fixture>, gw: int): seq<int> {
    if fixtures == [] then []
    else Slide(Window(fixtures[..|fixtures| - 1], gw), fixtures[|fixtures| - 1], gw)
  }

  /** The points of every recognised result before gw, in list order. */
  function Points(fixtures: seq<Fixture>, gw: int): seq<int> {
    if fixtures == [] then []
    else
      var f := fixtures[|fixtures| - 1];
      Points(fixtures[..|fixtures| - 1], gw)
        + (if f.gw < gw && ResultPoints(f.result).Some? then [ResultPoints(f.result).value] else [])
  }

  function Sum(s: seq<int>): int {
    if s == [] then 0 else Sum(s[..|s| - 1]) + s[|s| - 1]
  }

  /** The value returned: 0 for an empty window, otherwise the mean of its entries. */
  function Mean(s: seq<int>): real {
    if s == [] then 0.0 else Sum(s) as real / |s| as real
  }

  /** `calculateTeamForm(team, gw)`: the loop keeps the window in an ArrayList. */
  method CalculateTeamForm(team: PlayerTeam, gw: int) returns (form: real)
    ensures form == Mean(Window(team.AllFixtures(), gw))
  {
    var fixtures := team.AllFixtures();
    var results: seq<int> := [];
    var i := 0;
    while i < |fixtures|
      invariant 0 <= i <= |fixtures|
      invariant results == Window(fixtures[..i], gw)
    {
      var fixture := fixtures[i];
      assert fixtures[..i + 1][..i] == fixtures[..i];
      if fixture.gw < gw {
        if |results| >= 5 {
          results := results[1..];
        }
        if fixture.result == "W" {
          results := results + [3];
        } else if fixture.result == "D" {
          results := results + [2];
        } else if fixture.result == "L" {
          results := results + [1];
        }
      }
      i := i + 1;
    }
    assert fixtures[..i] == fixtures;
    if |results| == 0 {
      return 0.0;
    }
    form := Sum(results) as real / |results| as real;
  }

  /** The window never holds more than 5 entries, each 1, 2 or 3, and it is a suffix of the
   *  recognised results. */
  lemma WindowBounds(fixtures: seq<Fixture>, gw: int)
    ensures var w := Window(fixtures, gw);
      |w| <= 5 && (forall i :: 0 <= i < |w| ==> 1 <= w[i] <= 3)
    ensures var w := Window(fixtures, gw); var p := Points(fixtures, gw);
      |w| <= |p| && w == p[|p| - |w|..]
  {
    WindowRange(fixtures, gw);
    WindowSuffix(fixtures, gw);
  }

  lemma {:induction false} WindowRange(fixtures: seq<Fixture>, gw: int)
    ensures var w := Window(fixtures, gw);
      |w| <= 5 && (forall i :: 0 <= i < |w| ==> 1 <= w[i] <= 3)
  {
    if fixtures != [] {
      WindowRange(fixtures[..|fixtures| - 1], gw);
    }
  }

  lemma {:induction false} WindowSuffix(fixtures: seq<Fixture>, gw: int)
    ensures var w := Window(fixtures, gw); var p := Points(fixtures, gw);
      |w| <= |p| && w == p[|p| - |w|..]
  {
    if fixtures != [] {
      var init := fixtures[..|fixtures| - 1];
      var f := fixtures[|fixtures| - 1];
      WindowSuffix(init, gw);
      var w, p := Window(init, gw), Points(init, gw);
      var added := if f.gw < gw && ResultPoints(f.result).Some? then [ResultPoints(f.result).value] else [];
      assert Points(fixtures, gw) == p + added;
      if f.gw < gw {
        var evict := |w| >= 5;
        assert Window(fixtures, gw) == (if evict then w[1..] else w) + added;
        SuffixStep(w, p, evict, added);
      } else {
        assert Window(fixtures, gw) == w + added;
        SuffixStep(w, p, false, added);
      }
    }
  }

  /** A suffix stays a suffix when both grow by the same tail, after dropping its first entry
   *  or not. */
  lemma SuffixStep(w: seq<int>, p: seq<int>, evict: bool, added: seq<int>)
    requires |w| <= |p| && w == p[|p| - |w|..] && (evict ==> w != [])
    ensures var v := (if evict then w[1..] else w) + added; var q := p + added;
      |v| <= |q| && v == q[|q| - |v|..]
  {
    var kept := if evict then w[1..] else w;
    assert kept == p[|p| - |kept|..];
    var v, q := kept + added, p + added;
    assert forall i :: 0 <= i < |v| ==> v[i] == q[|q| - |v| + i];
  }

  /** When every result before gw is recognised, the window is exactly the last five of them
   *  (or all, when fewer). */
  lemma {:induction false} WindowIsLastFive(fixtures: seq<Fixture>, gw: int)
    requires forall i :: 0 <= i < |fixtures| && fixtures[i].gw < gw ==>
      ResultPoints(fixtures[i].result).Some?
    ensures var w := Window(fixtures, gw); var p := Points(fixtures, gw);
      |w| == (if |p| < 5 then |p| else 5) && w == p[|p| - |w|..]
  {
    WindowSuffix(fixtures, gw);
    if fixtures != [] {
      var init := fixtures[..|fixtures| - 1];
      assert forall i :: 0 <= i < |init| ==> init[i] == fixtures[i];
      WindowIsLastFive(init, gw);
    }
  }

  lemma {:induction false} SumBounds(s: seq<int>)
    requires forall i :: 0 <= i < |s| ==> 1 <= s[i] <= 3
    ensures |s| <= Sum(s) <= 3 * |s|
  {
    if s != [] {
      var init := s[..|s| - 1];
      assert forall i :: 0 <= i < |init| ==> init[i] == s[i];
      SumBounds(init);
    }
  }

  /** The form is 0 when there are no past results, and otherwise between 1 and 3. */
  lemma FormBounds(fixtures: seq<Fixture>, gw: int)
    ensures var form := Mean(Window(fixtures, gw));
      form == 0.0 <==> Window(fixtures, gw) == []
    ensures var form := Mean(Window(fixtures, gw));
      Window(fixtures, gw) != [] ==> 1.0 <= form <= 3.0
  {
    var w := Window(fixtures, gw);
    WindowBounds(fixtures, gw);
    if w != [] {
      SumBounds(w);
      MeanBounds(Sum(w) as real, |w| as real);
    }
  }

  lemma MeanBounds(sum: real, n: real)
    requires n > 0.0 && n <= sum <= 3.0 * n
    ensures 1.0 <= sum / n <= 3.0
  {
    var m := sum / n;
    assert m * n == sum;
    assert (3.0 - m) * n == 3.0 * n - sum;
    assert (m - 1.0) * n == sum - n;
  }

  /** The window after one more fixture. */
  lemma WindowSnoc(fixtures: seq<Fixture>, f: Fixture, gw: int)
    ensures Window(fixtures + [f], gw) == Slide(Window(fixtures, gw), f, gw)
  {
    assert (fixtures + [f])[..|fixtures|] == fixtures;
  }

  /** A fixture with the given gameweek and result, and no clubs. */
  function Played(gw: int, result: string): Fixture {
    Fixture("", gw, null, null, true, result)
  }

  /** A win, a draw and a loss give a form of 2. */
  lemma FormOfWinDrawLoss()
    ensures Mean(Window([Played(1, "W"), Played(2, "D"), Played(3, "L")], 4)) == 2.0
  {
    WindowSnoc([], Played(1, "W"), 4);
    assert Window([Played(1, "W")], 4) == [3];
    WindowSnoc([Played(1, "W")], Played(2, "D"), 4);
    assert Window([Played(1, "W"), Played(2, "D")], 4) == [3, 2];
    WindowSnoc([Played(1, "W"), Played(2, "D")], Played(3, "L"), 4);
    assert Window([Played(1, "W"), Played(2, "D"), Played(3, "L")], 4) == [3, 2, 1];
    assert Sum([3, 2, 1]) == 6 by {
      assert [3, 2, 1][..2] == [3, 2];
      assert [3, 2][..1] == [3];
    }
  }

  /** The eviction comes first: a full window loses its oldest entry even when the next
   *  result is not recognised, so the window can shrink. */
  lemma UnrecognisedResultShrinksWindow(fixtures: seq<Fixture>, f: Fixture, gw: int)
    requires |Window(fixtures, gw)| == 5 && f.gw < gw && ResultPoints(f.result).None?
    ensures Window(fixtures + [f], gw) == Window(fixtures, gw)[1..]
    ensures |Window(fixtures + [f], gw)| == 4
  {
    WindowSnoc(fixtures, f, gw);
  }
}

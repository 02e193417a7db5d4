/**
 * The prediction run: each player becomes a feature map (`convertToPlayerData`), one copy per
 * upcoming fixture extended with four fixture features (`createPredictionInputs`); an external
 * prediction service scores the copies; each player's saved prediction is the mean of its
 * scores, or 0 when the player is unlikely to play (`updatePlayersWithPredictions`). Any failure
 * stops the run before anything is saved (`generateAndSavePlayerPredictions`).
 *
 * Feature values are kept symbolic: the model records which quantity a key holds, not the
 * floating-point number the source computes from it. "Is numeric" (a call into
 * `Double.parseDouble`) and the prediction service are parameters.
 */
module PredictionService {
  import opened Wrappers
  import opened Teams
  import opened Players
  import opened PlayerTeamService
  import opened FixtureService

  /** The current event: its gameweek and the number of FPL managers. */
  datatype Event = Event(gameweek: int, totalPlayers: int)

  /** What a feature holds. */
  datatype Feature =
    | PerGameweek(total: int, gameweek: int)          // total / (double) gameweek
    | Parsed(text: string)                            // parseDoubleOrDefault(text)
    | SelectedShare(text: string, totalPlayers: int)  // parseDoubleOrDefault(text) * 0.01 * totalPlayers
    | Whole(n: int)
    | Fractional(x: real)

  /** `PlayerData`: the id, the position name, the features and the prediction (0 at first). */
  datatype PlayerData = PlayerData(id: int, position: string, features: map<string, Feature>,
                                   prediction: real)

  /** `convertElementTypeToPosition`; the failure carries the invalid code. */
  function PositionName(elementType: int): (r: Result<string, int>)
    ensures r.Success? <==> 1 <= elementType <= 4
    ensures r.Failure? ==> r.error == elementType
  {
    if elementType == 1 then Success("GK")
    else if elementType == 2 then Success("DEF")
    else if elementType == 3 then Success("MID")
    else if elementType == 4 then Success("FWD")
    else Failure(elementType)
  }

  /** Different positions get different names, so the name determines the position. */
  lemma PositionNameInjective(a: int, b: int)
    requires PositionName(a).Success? && PositionName(b).Success?
    ensures PositionName(a).value == PositionName(b).value <==> a == b
  {
  }

  /** The features only goalkeepers get. */
  function GoalkeeperFeatures(p: Player, gw: int, f: map<string, Feature>): (r: map<string, Feature>)
    ensures r.Keys == f.Keys + {"avg_saves", "avg_goals_conceded", "avg_penalties_saved", "avg_clean_sheets"}
  {
    f["avg_saves" := PerGameweek(p.saves, gw)]
     ["avg_goals_conceded" := PerGameweek(p.goalsConceded, gw)]
     ["avg_penalties_saved" := PerGameweek(p.penaltiesSaved, gw)]
     ["avg_clean_sheets" := PerGameweek(p.cleanSheets, gw)]
  }

  /** The features only defenders get. */
  function DefenderFeatures(p: Player, gw: int, f: map<string, Feature>): (r: map<string, Feature>)
    ensures r.Keys == f.Keys + {"avg_clean_sheets", "avg_goals_conceded"}
  {
    f["avg_clean_sheets" := PerGameweek(p.cleanSheets, gw)]
     ["avg_goals_conceded" := PerGameweek(p.goalsConceded, gw)]
  }

  /** The features only midfielders and forwards get; the three indices only when numeric. */
  function AttackerFeatures(p: Player, gw: int, isNumeric: string -> bool, f: map<string, Feature>)
    : (r: map<string, Feature>)
    ensures r.Keys == f.Keys + {"avg_goals_scored", "avg_assists"}
                     + (if isNumeric(p.creativity) then {"creativity"} else {})
                     + (if isNumeric(p.ictIndex) then {"ict_index"} else {})
                     + (if isNumeric(p.threat) then {"threat"} else {})
  {
    var f1 := f["avg_goals_scored" := PerGameweek(p.goalsScored, gw)]
               ["avg_assists" := PerGameweek(p.assists, gw)];
    var f2 := if isNumeric(p.creativity) then f1["creativity" := Parsed(p.creativity)] else f1;
    var f3 := if isNumeric(p.ictIndex) then f2["ict_index" := Parsed(p.ictIndex)] else f2;
    if isNumeric(p.threat) then f3["threat" := Parsed(p.threat)] else f3
  }

  /** `convertToPlayerData(player, currentEvent)`: fails on an invalid element type. */
  function ConvertToPlayerData(p: Player, event: Event, isNumeric: string -> bool)
    : (r: Result<PlayerData, int>)
    ensures r.Success? <==> 1 <= p.elementType <= 4
    ensures r.Success? ==> r.value.id == p.id && r.value.prediction == 0.0
                           && PositionName(p.elementType) == Success(r.value.position)
  {
    match PositionName(p.elementType)
    case Failure(e) => Failure(e)
    case Success(position) =>
      var gw := event.gameweek;
      var f0: map<string, Feature> := map[];
      var f1 := f0["avg_points" := PerGameweek(p.totalPoints, gw)]
                  ["avg_bonus" := PerGameweek(p.bonus, gw)]
                  ["avg_minutes_played" := PerGameweek(p.minutes, gw)]
                  ["avg_bps" := PerGameweek(p.bps, gw)];
      var f2 := if position == "GK" then GoalkeeperFeatures(p, gw, f1)
                else if position == "DEF" then DefenderFeatures(p, gw, f1)
                else AttackerFeatures(p, gw, isNumeric, f1);
      var f3 := if isNumeric(p.influence) then f2["influence" := Parsed(p.influence)] else f2;
      var f4 := f3["selected" := SelectedShare(p.selectedByPercent, event.totalPlayers)]
                  ["transfers_balance" := Whole(p.transfersIn - p.transfersOut)]
                  ["transfers_in" := Whole(p.transfersIn)]
                  ["transfers_out" := Whole(p.transfersOut)]
                  ["value" := Whole(p.nowCost)];
      Success(PlayerData(p.id, position, f4, 0.0))
  }

  /** The keys a player's base features hold, by position. */
  function BaseKeys(p: Player, isNumeric: string -> bool): set<string> {
    {"avg_points", "avg_bonus", "avg_minutes_played", "avg_bps", "selected", "transfers_balance",
     "transfers_in", "transfers_out", "value"}
    + (if isNumeric(p.influence) then {"influence"} else {})
    + (if p.elementType == 1 then
         {"avg_saves", "avg_goals_conceded", "avg_penalties_saved", "avg_clean_sheets"}
       else if p.elementType == 2 then {"avg_clean_sheets", "avg_goals_conceded"}
       else {"avg_goals_scored", "avg_assists"}
            + (if isNumeric(p.creativity) then {"creativity"} else {})
            + (if isNumeric(p.ictIndex) then {"ict_index"} else {})
            + (if isNumeric(p.threat) then {"threat"} else {}))
  }

  /**
   * The keys of a player's base features: the nine common ones always, `influence` when
   * numeric, and the goalkeeper, defender or attacker keys by position (the three attacker
   * indices when numeric).
   */
  lemma ConvertKeys(p: Player, event: Event, isNumeric: string -> bool)
    requires 1 <= p.elementType <= 4
    ensures ConvertToPlayerData(p, event, isNumeric).value.features.Keys == BaseKeys(p, isNumeric)
  {
  }

  /** The integer features: the transfer balance is transfers in minus transfers out, and the
   *  value is the current cost. */
  lemma ConvertValues(p: Player, event: Event, isNumeric: string -> bool)
    requires 1 <= p.elementType <= 4
    ensures var f := ConvertToPlayerData(p, event, isNumeric).value.features;
      "transfers_balance" in f && f["transfers_balance"] == Whole(p.transfersIn - p.transfersOut)
      && "value" in f && f["value"] == Whole(p.nowCost)
  {
  }

  /** The four keys each fixture adds. */
  const FixtureKeys: set<string> := {"opponent_difficulty", "team_ranking", "was_home", "form_last_5"}

  /** The club the player's club meets: the home club when the player's club is the away club
   *  (by code), otherwise the away club. */
  function Opponent(f: Fixture, playerTeam: PlayerTeam?): PlayerTeam
    requires f.hometeam != null && f.awayteam != null
  {
    if f.awayteam.Equals(playerTeam) then f.hometeam else f.awayteam
  }

  /** The player's input for one fixture, or None where the source skips the fixture: a null
   *  club, or a look-up that throws. */
  function FixtureInput(base: PlayerData, playerTeam: PlayerTeam?, f: Fixture): Option<PlayerData>
    reads f.hometeam, f.awayteam, playerTeam
  {
    if f.hometeam == null || f.awayteam == null then None
    else
      var opponentDifficulty := CalculateTeamStrength(Opponent(f, playerTeam), f.gw);
      if opponentDifficulty.None? || playerTeam == null then None
      else
        var teamRanking := CalculateTeamStrength(playerTeam, f.gw);
        var wasHome := IsHomeGame(playerTeam, f.gw);
        if teamRanking.None? || wasHome.None? then None
        else
          var form := Mean(Window(playerTeam.AllFixtures(), f.gw));
          Some(base.(features := base.features
            ["opponent_difficulty" := Whole(opponentDifficulty.value)]
            ["team_ranking" := Whole(teamRanking.value)]
            ["was_home" := Whole(if wasHome.value then 1 else 0)]
            ["form_last_5" := Fractional(form)]))
  }

  /** The clubs named by a list of fixtures. */
  function Clubs(fixtures: seq<Fixture>): set<PlayerTeam> {
    (set i | 0 <= i < |fixtures| && fixtures[i].hometeam != null :: fixtures[i].hometeam)
    + (set i | 0 <= i < |fixtures| && fixtures[i].awayteam != null :: fixtures[i].awayteam)
  }

  /** The inputs of all fixtures, in fixture order. */
  function Inputs(base: PlayerData, playerTeam: PlayerTeam?, fixtures: seq<Fixture>): seq<PlayerData>
    reads playerTeam, Clubs(fixtures)
  {
    if fixtures == [] then []
    else
      Inputs(base, playerTeam, fixtures[..|fixtures| - 1])
      + match FixtureInput(base, playerTeam, fixtures[|fixtures| - 1])
        case Some(d) => [d]
        case None => []
  }

  /** The inputs of one more fixture are those of the fixtures before it and that fixture's. */
  lemma InputsSnoc(base: PlayerData, playerTeam: PlayerTeam?, fixtures: seq<Fixture>, i: nat)
    requires i < |fixtures|
    ensures Inputs(base, playerTeam, fixtures[..i + 1])
         == Inputs(base, playerTeam, fixtures[..i])
            + match FixtureInput(base, playerTeam, fixtures[i])
              case Some(d) => [d]
              case None => []
  {
    assert fixtures[..i + 1][..i] == fixtures[..i];
  }

  /** What `createPredictionInputs` returns, or the invalid element type it throws on. */
  function PredictionInputs(p: Player, fixtures: seq<Fixture>, event: Event, isNumeric: string -> bool)
    : Result<seq<PlayerData>, int>
    reads p.team, Clubs(fixtures)
  {
    match ConvertToPlayerData(p, event, isNumeric)
    case Failure(e) => Failure(e)
    case Success(base) => Success(Inputs(base, p.team, fixtures))
  }

  /** `createPredictionInputs(player, fixtures, currentEvent)`. */
  method CreatePredictionInputs(p: Player, fixtures: seq<Fixture>, ghost clubs: set<PlayerTeam>,
                                event: Event, isNumeric: string -> bool)
    returns (r: Result<seq<PlayerData>, int>)
    requires Clubs(fixtures) <= clubs
    ensures r == PredictionInputs(p, fixtures, event, isNumeric)
  {
    var base := ConvertToPlayerData(p, event, isNumeric);
    if base.Failure? {
      return Failure(base.error);
    }
    var predictionInputs := InputsForFixtures(base.value, p.team, fixtures, clubs);
    return Success(predictionInputs);
  }

  /** The loop of `createPredictionInputs`: one input per fixture that is not skipped, in
   *  fixture order. */
  method InputsForFixtures(base: PlayerData, playerTeam: PlayerTeam?, fixtures: seq<Fixture>,
                           ghost clubs: set<PlayerTeam>)
    returns (predictionInputs: seq<PlayerData>)
    requires Clubs(fixtures) <= clubs
    ensures predictionInputs == Inputs(base, playerTeam, fixtures)
  {
    predictionInputs := [];
    var i := 0;
    while i < |fixtures|
      invariant 0 <= i <= |fixtures|
      invariant predictionInputs == Inputs(base, playerTeam, fixtures[..i])
    {
      var fixture := fixtures[i];
      label BeforeFixture:
      var input := InputForFixture(base, playerTeam, fixture);
      ClubsPrefix(fixtures, i);
      assert unchanged@BeforeFixture(clubs);
      assert playerTeam != null ==> unchanged@BeforeFixture(playerTeam);
      InputsSnoc(base, playerTeam, fixtures, i);
      if input.Some? {
        predictionInputs := predictionInputs + [input.value];
      }
      i := i + 1;
    }
    assert fixtures[..i] == fixtures;
  }

  /** The body of the loop of `createPredictionInputs` for one fixture; None where the
   *  fixture is skipped, by the null check or by the exception handler. */
  method InputForFixture(base: PlayerData, playerTeam: PlayerTeam?, fixture: Fixture)
    returns (input: Option<PlayerData>)
    ensures input == FixtureInput(base, playerTeam, fixture)
  {
    var awayTeam := fixture.awayteam;
    var homeTeam := fixture.hometeam;
    if awayTeam == null || homeTeam == null {
      return None;
    }
    var opponentTeam := if awayTeam.Equals(playerTeam) then homeTeam else awayTeam;
    var opponentDifficulty := CalculateTeamStrength(opponentTeam, fixture.gw);
    if opponentDifficulty.None? || playerTeam == null {
      return None;
    }
    var teamRanking := CalculateTeamStrength(playerTeam, fixture.gw);
    var wasHome := IsHomeGame(playerTeam, fixture.gw);
    if teamRanking.None? || wasHome.None? {
      return None;
    }
    var form := CalculateTeamForm(playerTeam, fixture.gw);
    var features := base.features
      ["opponent_difficulty" := Whole(opponentDifficulty.value)]
      ["team_ranking" := Whole(teamRanking.value)]
      ["was_home" := Whole(if wasHome.value then 1 else 0)]
      ["form_last_5" := Fractional(form)];
    return Some(PlayerData(base.id, base.position, features, base.prediction));
  }

  /** The base data with exactly the four fixture keys added, with their values in range and
   *  the base features unchanged. */
  predicate ExtendsBase(d: PlayerData, base: PlayerData) {
    d.id == base.id && d.position == base.position && d.prediction == base.prediction
    && d.features.Keys == base.features.Keys + FixtureKeys
    && (forall k :: k in base.features && k !in FixtureKeys ==> d.features[k] == base.features[k])
    && WellFormedFixtureFeatures(d.features)
  }

  /** The input of one fixture extends the base data: opponent difficulty and team ranking
   *  tiers in 0..3, a 0/1 home flag, and a form of 0 or between 1 and 3. */
  lemma FixtureInputShape(base: PlayerData, playerTeam: PlayerTeam?, f: Fixture)
    ensures FixtureInput(base, playerTeam, f).Some? ==>
      ExtendsBase(FixtureInput(base, playerTeam, f).value, base)
  {
    if f.hometeam != null && f.awayteam != null && playerTeam != null {
      var opponentDifficulty := CalculateTeamStrength(Opponent(f, playerTeam), f.gw);
      var teamRanking := CalculateTeamStrength(playerTeam, f.gw);
      var wasHome := IsHomeGame(playerTeam, f.gw);
      if opponentDifficulty.Some? && teamRanking.Some? && wasHome.Some? {
        var form := Mean(Window(playerTeam.AllFixtures(), f.gw));
        FormBounds(playerTeam.AllFixtures(), f.gw);
        assert form == 0.0 || 1.0 <= form <= 3.0;
        assert FixtureInput(base, playerTeam, f) == Some(base.(features := base.features
          ["opponent_difficulty" := Whole(opponentDifficulty.value)]
          ["team_ranking" := Whole(teamRanking.value)]
          ["was_home" := Whole(if wasHome.value then 1 else 0)]
          ["form_last_5" := Fractional(form)]));
      }
    }
  }

  /** Every input extends the base data, and there is at most one input per fixture. */
  lemma {:induction false} InputsShape(base: PlayerData, playerTeam: PlayerTeam?, fixtures: seq<Fixture>)
    ensures |Inputs(base, playerTeam, fixtures)| <= |fixtures|
    ensures var r := Inputs(base, playerTeam, fixtures);
      forall i :: 0 <= i < |r| ==> ExtendsBase(r[i], base)
  {
    if fixtures != [] {
      InputsShape(base, playerTeam, fixtures[..|fixtures| - 1]);
      FixtureInputShape(base, playerTeam, fixtures[|fixtures| - 1]);
    }
  }

  /** The values of the four fixture features. */
  predicate WellFormedFixtureFeatures(f: map<string, Feature>) {
    "opponent_difficulty" in f && f["opponent_difficulty"].Whole?
    && 0 <= f["opponent_difficulty"].n <= 3
    && "team_ranking" in f && f["team_ranking"].Whole? && 0 <= f["team_ranking"].n <= 3
    && "was_home" in f && f["was_home"].Whole? && 0 <= f["was_home"].n <= 1
    && "form_last_5" in f && f["form_last_5"].Fractional?
    && (f["form_last_5"].x == 0.0 || 1.0 <= f["form_last_5"].x <= 3.0)
  }

  /** A fixture with a null club gives no input; one whose clubs are both set gives one
   *  exactly when the three look-ups succeed. */
  lemma FixtureInputSkips(base: PlayerData, playerTeam: PlayerTeam?, f: Fixture)
    ensures f.hometeam == null || f.awayteam == null || playerTeam == null ==>
      FixtureInput(base, playerTeam, f).None?
    ensures f.hometeam != null && f.awayteam != null && playerTeam != null ==>
      (FixtureInput(base, playerTeam, f).Some?
       <==> CalculateTeamStrength(Opponent(f, playerTeam), f.gw).Some?
            && CalculateTeamStrength(playerTeam, f.gw).Some? && IsHomeGame(playerTeam, f.gw).Some?)
  {
  }

  /** The opponent is the other club of the fixture, seen from the player's club. */
  lemma OpponentIsOtherClub(f: Fixture, playerTeam: PlayerTeam)
    requires f.hometeam != null && f.awayteam != null
    ensures f.awayteam.code == playerTeam.code ==> Opponent(f, playerTeam) == f.hometeam
    ensures f.awayteam.code != playerTeam.code ==> Opponent(f, playerTeam) == f.awayteam
    ensures f.hometeam.code == playerTeam.code && f.awayteam.code != playerTeam.code ==>
      Opponent(f, playerTeam).code != playerTeam.code
  {
  }

  /** The scores the prediction service returned for a player's inputs, in input order. */
  function WithPredictions(inputs: seq<PlayerData>, predictions: seq<real>): (r: seq<PlayerData>)
    requires |predictions| >= |inputs|
    ensures |r| == |inputs|
    ensures forall i :: 0 <= i < |r| ==> r[i] == inputs[i].(prediction := predictions[i])
  {
    if inputs == [] then []
    else WithPredictions(inputs[..|inputs| - 1], predictions)
         + [inputs[|inputs| - 1].(prediction := predictions[|inputs| - 1])]
  }

  /** The loop that stores the scores: `playerData.get(i).setPrediction(predictions.get(i))`. */
  method SetPredictions(inputs: seq<PlayerData>, predictions: seq<real>) returns (r: seq<PlayerData>)
    requires |predictions| >= |inputs|
    ensures r == WithPredictions(inputs, predictions)
  {
    r := inputs;
    var i := 0;
    while i < |inputs|
      invariant 0 <= i <= |inputs| && |r| == |inputs|
      invariant forall j :: 0 <= j < i ==> r[j] == inputs[j].(prediction := predictions[j])
      invariant forall j :: i <= j < |inputs| ==> r[j] == inputs[j]
    {
      r := r[i := r[i].(prediction := predictions[i])];
      i := i + 1;
    }
  }

  /** The scores of one player id, in list order. */
  function PredictionsOf(data: seq<PlayerData>, id: int): seq<real> {
    if data == [] then []
    else PredictionsOf(data[..|data| - 1], id)
         + (if data[|data| - 1].id == id then [data[|data| - 1].prediction] else [])
  }

  function RealSum(s: seq<real>): real {
    if s == [] then 0.0 else RealSum(s[..|s| - 1]) + s[|s| - 1]
  }

  /** `average().orElse(0.0)`. */
  function Average(s: seq<real>): real {
    if s == [] then 0.0 else RealSum(s) / |s| as real
  }

  /** A known chance of playing this or next round below 75. */
  predicate Unlikely(p: Player) {
    (p.chanceOfPlayingThisRound.Some? && p.chanceOfPlayingThisRound.value < 75)
    || (p.chanceOfPlayingNextRound.Some? && p.chanceOfPlayingNextRound.value < 75)
  }

  /** The prediction saved for a player whose scores average to `average`. */
  function SavedPrediction(p: Player, average: real): real {
    if Unlikely(p) then 0.0 else average
  }

  /**
   * `updatePlayersWithPredictions(data)` on the player repository, keyed by id: each stored
   * player with at least one score gets its saved prediction; ids without a stored player are
   * skipped; stored players without a score are untouched.
   */
  function UpdatePlayersWithPredictions(data: seq<PlayerData>, repository: map<int, Player>)
    : (r: map<int, Player>)
    ensures r.Keys == repository.Keys
  {
    map id | id in repository ::
      if PredictionsOf(data, id) == [] then repository[id]
      else repository[id].(prediction := SavedPrediction(repository[id], Average(PredictionsOf(data, id))))
  }

  /** A player has scores exactly when some input carries its id. */
  lemma {:induction false} PredictionsOfPresent(data: seq<PlayerData>, id: int)
    ensures PredictionsOf(data, id) != [] <==> exists i :: 0 <= i < |data| && data[i].id == id
    ensures |PredictionsOf(data, id)| <= |data|
  {
    if data != [] {
      var init := data[..|data| - 1];
      PredictionsOfPresent(init, id);
      if exists i :: 0 <= i < |data| && data[i].id == id {
        var i :| 0 <= i < |data| && data[i].id == id;
        if i < |init| {
          assert init[i] == data[i];
        }
      }
      if exists i :: 0 <= i < |init| && init[i].id == id {
        var i :| 0 <= i < |init| && init[i].id == id;
        assert data[i] == init[i];
      }
    }
  }

  lemma {:induction false} RealSumBounds(s: seq<real>, lo: real, hi: real)
    requires forall i :: 0 <= i < |s| ==> lo <= s[i] <= hi
    ensures |s| as real * lo <= RealSum(s) <= |s| as real * hi
  {
    if s != [] {
      var init := s[..|s| - 1];
      var last := s[|s| - 1];
      assert forall i :: 0 <= i < |init| ==> init[i] == s[i];
      RealSumBounds(init, lo, hi);
      assert RealSum(s) == RealSum(init) + last;
      assert lo <= last <= hi;
      var n := |init| as real;
      assert |s| as real == n + 1.0;
      RealMulStep(n, lo);
      RealMulStep(n, hi);
    }
  }

  lemma RealMulStep(n: real, a: real)
    ensures (n + 1.0) * a == n * a + a
  {
  }

  /** The mean of scores lies between their least and greatest. */
  lemma AverageBounds(s: seq<real>, lo: real, hi: real)
    requires s != [] && forall i :: 0 <= i < |s| ==> lo <= s[i] <= hi
    ensures lo <= Average(s) <= hi
  {
    RealSumBounds(s, lo, hi);
    var n := |s| as real;
    var m := RealSum(s) / n;
    assert m * n == RealSum(s);
    assert (hi - m) * n == n * hi - RealSum(s);
    assert (m - lo) * n == RealSum(s) - n * lo;
  }

  /**
   * After the update a stored player differs at most in its prediction: it is 0 when the
   * player is unlikely to play and has scores, the mean of its scores when it is not, and
   * unchanged when it has none.
   */
  lemma UpdateSpec(data: seq<PlayerData>, repository: map<int, Player>, id: int)
    requires id in repository
    ensures var r := UpdatePlayersWithPredictions(data, repository);
      r[id].(prediction := repository[id].prediction) == repository[id]
    ensures var r := UpdatePlayersWithPredictions(data, repository);
      (exists i :: 0 <= i < |data| && data[i].id == id) && Unlikely(repository[id]) ==>
        r[id].prediction == 0.0
    ensures var r := UpdatePlayersWithPredictions(data, repository);
      (exists i :: 0 <= i < |data| && data[i].id == id) && !Unlikely(repository[id]) ==>
        r[id].prediction == Average(PredictionsOf(data, id))
    ensures var r := UpdatePlayersWithPredictions(data, repository);
      !(exists i :: 0 <= i < |data| && data[i].id == id) ==> r[id] == repository[id]
  {
    PredictionsOfPresent(data, id);
  }

  /** The objects a player's run looks at: its club and every club of that club's fixtures. */
  function Footprint(p: Player): set<object>
    reads p.team
  {
    if p.team == null then {} else {p.team} + Clubs(p.team.AllFixtures())
  }

  /** Every club of a prefix is a club of the list. */
  lemma ClubsPrefix(fixtures: seq<Fixture>, i: nat)
    requires i <= |fixtures|
    ensures Clubs(fixtures[..i]) <= Clubs(fixtures)
  {
    forall c | c in Clubs(fixtures[..i])
      ensures c in Clubs(fixtures)
    {
      var j :| 0 <= j < i && (fixtures[..i][j].hometeam == c || fixtures[..i][j].awayteam == c);
      assert fixtures[..i][j] == fixtures[j];
    }
  }

  /** Every club of a sub-list is a club of the list. */
  lemma ClubsWithin(a: seq<Fixture>, b: seq<Fixture>)
    requires forall i :: 0 <= i < |a| ==> a[i] in b
    ensures Clubs(a) <= Clubs(b)
  {
    forall c | c in Clubs(a)
      ensures c in Clubs(b)
    {
      if exists i :: 0 <= i < |a| && a[i].hometeam == c {
        var i :| 0 <= i < |a| && a[i].hometeam == c;
        var j :| 0 <= j < |b| && b[j] == a[i];
        assert b[j].hometeam == c;
      } else {
        var i :| 0 <= i < |a| && a[i].awayteam == c;
        var j :| 0 <= j < |b| && b[j] == a[i];
        assert b[j].awayteam == c;
      }
    }
  }

  /** The next fixtures are fixtures of the club. */
  lemma NextFixturesWithin(team: PlayerTeam, currentGw: int)
    ensures Clubs(NextFixtures(team, currentGw)) <= Clubs(team.AllFixtures())
  {
    NextFixturesSpec(team, currentGw);
    var next, all := NextFixtures(team, currentGw), team.AllFixtures();
    ClubsWithin(next, all);
  }

  /** One player's scored inputs, or None where the source stops the run: a player without a
   *  club, an invalid element type, a failed or short answer from the prediction service. */
  function PlayerBatch(p: Player, event: Event, isNumeric: string -> bool,
                       oracle: seq<PlayerData> -> Option<seq<real>>): Option<seq<PlayerData>>
    reads Footprint(p)
  {
    if p.team == null then None
    else
      NextFixturesWithin(p.team, event.gameweek);
      Scored(PredictionInputs(p, NextFixtures(p.team, event.gameweek), event, isNumeric), oracle)
  }

  /** The inputs of one player with the model's predictions set, or None when the inputs could
   *  not be built or the model gave no prediction for some input. */
  function Scored(inputs: Result<seq<PlayerData>, int>,
                  oracle: seq<PlayerData> -> Option<seq<real>>): Option<seq<PlayerData>>
  {
    match inputs
    case Failure(_) => None
    case Success(data) =>
      match oracle(data)
      case None => None
      case Some(predictions) =>
        if |predictions| < |data| then None else Some(WithPredictions(data, predictions))
  }

  /** Every player's club, and every club its run looks at, is one of `clubs` (the clubs the
   *  repository holds). */
  predicate Covers(players: seq<Player>, clubs: set<PlayerTeam>)
    reads clubs
  {
    forall i :: 0 <= i < |players| ==>
      (players[i].team != null ==> players[i].team in clubs) && Footprint(players[i]) <= clubs
  }

  /** The scored inputs of all players, in player order, or None when any player stops the run. */
  function Collect(players: seq<Player>, clubs: set<PlayerTeam>, event: Event,
                   isNumeric: string -> bool,
                   oracle: seq<PlayerData> -> Option<seq<real>>): Option<seq<PlayerData>>
    requires Covers(players, clubs)
    reads clubs
  {
    if players == [] then Some([])
    else
      var init := players[..|players| - 1];
      var last := players[|players| - 1];
      assert Covers(init, clubs) by {
        forall i | 0 <= i < |init|
          ensures init[i] == players[i]
        {
        }
      }
      match Collect(init, clubs, event, isNumeric, oracle)
      case None => None
      case Some(acc) =>
        match PlayerBatch(last, event, isNumeric, oracle)
        case None => None
        case Some(batch) => Some(acc + batch)
  }

  /** A prefix of covered players is covered. */
  lemma CoversPrefix(players: seq<Player>, clubs: set<PlayerTeam>, n: nat)
    requires n <= |players| && Covers(players, clubs)
    ensures Covers(players[..n], clubs)
  {
    forall i | 0 <= i < n
      ensures players[..n][i] == players[i]
    {
    }
  }

  /** Each covered player alone is covered. */
  lemma CoversOne(players: seq<Player>, clubs: set<PlayerTeam>, i: nat)
    requires i < |players| && Covers(players, clubs)
    ensures Covers([players[i]], clubs)
  {
    assert [players[i]][0] == players[i];
  }

  /** The run over one more player is the run over the players before it and that player's batch. */
  lemma CollectSnoc(players: seq<Player>, clubs: set<PlayerTeam>, i: nat, event: Event,
                    isNumeric: string -> bool, oracle: seq<PlayerData> -> Option<seq<real>>)
    requires i < |players| && Covers(players, clubs)
    ensures Covers(players[..i], clubs) && Covers(players[..i + 1], clubs)
    ensures Collect(players[..i + 1], clubs, event, isNumeric, oracle)
         == match Collect(players[..i], clubs, event, isNumeric, oracle)
            case None => None
            case Some(acc) =>
              match PlayerBatch(players[i], event, isNumeric, oracle)
              case None => None
              case Some(batch) => Some(acc + batch)
  {
    CoversPrefix(players, clubs, i);
    CoversPrefix(players, clubs, i + 1);
    assert players[..i + 1][..i] == players[..i];
  }

  /**
   * `generateAndSavePlayerPredictions`, on the players `findAll` returns and the repository
   * keyed by id; the result is the repository afterwards. Any failure leaves it as it was.
   */
  method GenerateAndSavePlayerPredictions(players: seq<Player>, ghost clubs: set<PlayerTeam>,
                                          repository: map<int, Player>, event: Event,
                                          isNumeric: string -> bool,
                                          oracle: seq<PlayerData> -> Option<seq<real>>)
    returns (saved: map<int, Player>)
    requires Covers(players, clubs)
    ensures saved == match Collect(players, clubs, event, isNumeric, oracle)
                     case None => repository
                     case Some(all) => UpdatePlayersWithPredictions(all, repository)
  {
    var allPlayerData: seq<PlayerData> := [];
    var i := 0;
    CoversPrefix(players, clubs, 0);
    while i < |players|
      invariant 0 <= i <= |players|
      invariant Covers(players[..i], clubs)
      invariant Collect(players[..i], clubs, event, isNumeric, oracle) == Some(allPlayerData)
    {
      var p := players[i];
      label Before:
      CoversOne(players, clubs, i);
      var batch := RunPlayer(p, clubs, event, isNumeric, oracle);
      assert unchanged@Before(clubs);
      CollectSnoc(players, clubs, i, event, isNumeric, oracle);
      if batch.None? {
        CollectStops(players, clubs, i + 1, event, isNumeric, oracle);
        return repository;
      }
      allPlayerData := allPlayerData + batch.value;
      i := i + 1;
    }
    assert players[..i] == players;
    saved := UpdatePlayersWithPredictions(allPlayerData, repository);
  }

  /** The body of the loop of `generateAndSavePlayerPredictions` for one player; None where
   *  the source stops the run. */
  method RunPlayer(p: Player, ghost clubs: set<PlayerTeam>, event: Event, isNumeric: string -> bool,
                   oracle: seq<PlayerData> -> Option<seq<real>>)
    returns (batch: Option<seq<PlayerData>>)
    requires Covers([p], clubs)
    ensures batch == PlayerBatch(p, event, isNumeric, oracle)
  {
    if p.team == null {
      return None;
    }
    assert [p][0] == p;
    var nextFixtures := GetNextFixtures(p.team, event.gameweek);
    label Fetched:
    NextFixturesWithin(p.team, event.gameweek);
    var playerData := CreatePredictionInputs(p, nextFixtures, clubs, event, isNumeric);
    assert unchanged@Fetched(clubs);
    assert PlayerBatch(p, event, isNumeric, oracle) == Scored(playerData, oracle);
    label Built:
    batch := Score(playerData, oracle);
    assert unchanged@Built(clubs);
  }

  /** Runs the model on a player's inputs and sets the predictions. */
  method Score(playerData: Result<seq<PlayerData>, int>,
               oracle: seq<PlayerData> -> Option<seq<real>>)
    returns (batch: Option<seq<PlayerData>>)
    ensures batch == Scored(playerData, oracle)
  {
    if playerData.Failure? {
      return None;
    }
    var predictions := oracle(playerData.value);
    if predictions.None? || |predictions.value| < |playerData.value| {
      return None;
    }
    var scored := SetPredictions(playerData.value, predictions.value);
    return Some(scored);
  }

  /** Once a prefix stops the run, the whole run stops. */
  lemma {:induction false} CollectStops(players: seq<Player>, clubs: set<PlayerTeam>, n: nat,
                                        event: Event, isNumeric: string -> bool,
                                        oracle: seq<PlayerData> -> Option<seq<real>>)
    requires n <= |players| && Covers(players, clubs)
    requires Covers(players[..n], clubs) && Collect(players[..n], clubs, event, isNumeric, oracle).None?
    ensures Collect(players, clubs, event, isNumeric, oracle).None?
    decreases |players| - n
  {
    if n < |players| {
      CollectSnoc(players, clubs, n, event, isNumeric, oracle);
      CollectStops(players, clubs, n + 1, event, isNumeric, oracle);
    } else {
      assert players[..n] == players;
    }
  }

  /** A run that stops has a player whose batch fails. */
  lemma {:induction false} CollectStopsAt(players: seq<Player>, clubs: set<PlayerTeam>, event: Event,
                                          isNumeric: string -> bool,
                                          oracle: seq<PlayerData> -> Option<seq<real>>)
    requires Covers(players, clubs) && Collect(players, clubs, event, isNumeric, oracle).None?
    ensures exists i :: 0 <= i < |players| && PlayerBatch(players[i], event, isNumeric, oracle).None?
  {
    var init := players[..|players| - 1];
    CoversPrefix(players, clubs, |players| - 1);
    if Collect(init, clubs, event, isNumeric, oracle).None? {
      CollectStopsAt(init, clubs, event, isNumeric, oracle);
      var i :| 0 <= i < |init| && PlayerBatch(init[i], event, isNumeric, oracle).None?;
      assert players[i] == init[i];
    } else {
      assert PlayerBatch(players[|players| - 1], event, isNumeric, oracle).None?;
    }
  }

  /** The run stops, and nothing is saved, exactly when some player's batch fails. */
  lemma CollectFails(players: seq<Player>, clubs: set<PlayerTeam>, event: Event,
                     isNumeric: string -> bool, oracle: seq<PlayerData> -> Option<seq<real>>)
    requires Covers(players, clubs)
    ensures Collect(players, clubs, event, isNumeric, oracle).None?
        <==> exists i :: 0 <= i < |players| && PlayerBatch(players[i], event, isNumeric, oracle).None?
  {
    if Collect(players, clubs, event, isNumeric, oracle).None? {
      CollectStopsAt(players, clubs, event, isNumeric, oracle);
    }
    if exists i :: 0 <= i < |players| && PlayerBatch(players[i], event, isNumeric, oracle).None? {
      var i :| 0 <= i < |players| && PlayerBatch(players[i], event, isNumeric, oracle).None?;
      CollectSnoc(players, clubs, i, event, isNumeric, oracle);
      CollectStops(players, clubs, i + 1, event, isNumeric, oracle);
    }
  }
}

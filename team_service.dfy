/**
 * `optimizeTeam`: the three stages in fixed order on one team instance. Generate the
 * candidates from the squad, select and rank them against the budget and transfer count as
 * they stand before anything is applied, then apply them in place. Any exception on the way
 * becomes the single error "Failed to optimize the team."; otherwise the same instance comes
 * back.
 */
module TeamService {
  import opened Wrappers
  import opened Players
  import opened Transfers
  import opened ClubCounts
  import opened Squads
  import opened Normalisation
  import opened CandidateGeneration
  import opened TransferSelection
  import opened TransferApplication

  const OptimizeError := "Failed to optimize the team."

  /** The team after `optimizeTeam`, and whether it returned normally. A failing selection
   *  throws before the team is touched; a failing apply leaves the team as far as it got. */
  function Optimize(s: SquadState, allPlayers: seq<Player>): Outcome {
    match FindBestTransfers(Generate(s.players, allPlayers), s.budget, s.transfers, s.players)
    case Failure(_) => Outcome(s, false)
    case Success(best) => Applied(s, best)
  }

  /** `optimizeTeam(team)`, with the pool of all players passed in; the success value is the
   *  instance passed in. */
  method OptimizeTeam(team: Team, allPlayers: seq<Player>) returns (r: Result<Team, string>)
    modifies team
    ensures team.State() == Optimize(old(team.State()), allPlayers).state
    ensures r.Success? <==> Optimize(old(team.State()), allPlayers).completed
    ensures r.Success? ==> r.value == team
    ensures r.Failure? ==> r.error == OptimizeError
  {
    var potentialTransfers := GeneratePotentialTransfers(team, allPlayers);
    var bestTransfers := FindBestTransfers(potentialTransfers, team.budget, team.transfers, team.players);
    if bestTransfers.Failure? {
      return Failure(OptimizeError);
    }
    var completed := ApplyTransfers(team, bestTransfers.value);
    if !completed {
      return Failure(OptimizeError);
    }
    return Success(team);
  }

  /**
   * What a normal return guarantees about the team: at most 15 players in goalkeeper,
   * defender, midfielder, forward order; transfers within 0..initial from a non-negative
   * start; the budget untouched when no transfer was used and non-negative when one was; no
   * club above max(its initial count, 3); and distinct ids stay distinct.
   */
  lemma OptimizeSpec(s: SquadState, allPlayers: seq<Player>)
    requires Optimize(s, allPlayers).completed
    ensures var o := Optimize(s, allPlayers).state;
      |o.players| <= 15
      && (forall i, j :: 0 <= i < j < |o.players| ==> o.players[i].elementType <= o.players[j].elementType)
      && (s.transfers >= 0 ==> 0 <= o.transfers <= s.transfers)
      && (o.transfers == s.transfers ==> o.budget == s.budget)
      && (o.transfers < s.transfers ==> o.budget >= 0)
      && (forall key :: CountKey(o.players, key) <= Max(CountKey(s.players, key), 3))
      && (DistinctIds(s.players) ==> DistinctIds(o.players))
  {
    var best := FindBestTransfers(Generate(s.players, allPlayers), s.budget, s.transfers, s.players);
    AppliedSpec(s, best.value);
  }

  /** The run fails exactly when the selection throws (an uncountable squad, or an affordable
   *  candidate without a club) or the apply stage throws; a failed selection leaves the team
   *  as it was. */
  lemma OptimizeFails(s: SquadState, allPlayers: seq<Player>)
    ensures var cs := Generate(s.players, allPlayers);
      !Optimize(s, allPlayers).completed
      <==> !Countable(s.players) || ThrowsOnClub(cs, s.budget, s.transfers)
           || !Applied(s, FindBestTransfers(cs, s.budget, s.transfers, s.players).value).completed
    ensures var cs := Generate(s.players, allPlayers);
      FindBestTransfers(cs, s.budget, s.transfers, s.players).Failure? ==> Optimize(s, allPlayers).state == s
  {
    FindBestFails(Generate(s.players, allPlayers), s.budget, s.transfers, s.players);
  }

  /** With no free transfers the run only normalises the squad. */
  lemma OptimizeWithoutTransfers(s: SquadState, allPlayers: seq<Player>)
    requires s.transfers <= 0 && Countable(s.players)
    ensures Optimize(s, allPlayers) == Outcome(SquadState(Normalise(s.players), s.budget, s.transfers), true)
  {
    FindBestWithoutTransfers(Generate(s.players, allPlayers), s.budget, s.transfers, s.players);
  }

  /** An empty squad comes back unchanged, with its budget and transfer count. */
  lemma OptimizeEmptySquad(budget: int, transfers: int, allPlayers: seq<Player>)
    ensures Optimize(SquadState([], budget, transfers), allPlayers)
         == Outcome(SquadState([], budget, transfers), true)
  {
    var s := SquadState([], budget, transfers);
    assert OfPosition([], 1) == [] && OfPosition([], 2) == [] && OfPosition([], 3) == []
        && OfPosition([], 4) == [];
    assert Generate([], allPlayers) == [];
    assert Countable([]);
    assert FindBestTransfers([], budget, transfers, []) == Success([]);
    NormaliseSubMultiset([]);
  }
}

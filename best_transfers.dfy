/**
 * `findBestTransfers`: keep the affordable candidates whose incoming club has fewer than 3
 * players in the squad, then sort them stably by point gain descending and cost ascending.
 * The stream's filters are lazy, so a candidate whose incoming player has no club throws only
 * if it got past the budget filter; every exception becomes one error.
 */
module TransferSelection {
  import opened Wrappers
  import opened Players
  import opened Transfers
  import opened ClubCounts
  import opened Ranking
  import opened Teams

  const FindBestError := "Failed to find the best transfers."

  /** The first filter: affordable, and a transfer left. */
  predicate Affordable(t: Transfer, budget: int, transfers: int) {
    CostDifference(t) <= budget && transfers > 0
  }

  /** Both filters, for a candidate whose incoming player has a club. */
  predicate Eligible(t: Transfer, budget: int, transfers: int, counts: map<ClubKey, int>) {
    Affordable(t, budget, transfers) && t.playerIn.team != null
    && CanAddPlayerFromTeam(t.playerIn.team.name, counts)
  }

  /** The candidates that pass both filters, in input order. */
  function Eligibles(cs: seq<Transfer>, budget: int, transfers: int, counts: map<ClubKey, int>)
    : seq<Transfer>
  {
    if cs == [] then []
    else (if Eligible(cs[0], budget, transfers, counts) then [cs[0]] else [])
         + Eligibles(cs[1..], budget, transfers, counts)
  }

  /** Some candidate passes the first filter and has an incoming player with no club. */
  predicate ThrowsOnClub(cs: seq<Transfer>, budget: int, transfers: int) {
    exists i :: 0 <= i < |cs| && Affordable(cs[i], budget, transfers) && cs[i].playerIn.team == null
  }

  /** The two filters run element by element, failing at a club lookup on null. */
  function Filtered(cs: seq<Transfer>, budget: int, transfers: int, counts: map<ClubKey, int>)
    : (r: Result<seq<Transfer>, string>)
    ensures r.Failure? <==> ThrowsOnClub(cs, budget, transfers)
    ensures r.Success? ==> r.value == Eligibles(cs, budget, transfers, counts)
  {
    if cs == [] then Success([])
    else if Affordable(cs[0], budget, transfers) && cs[0].playerIn.team == null then
      Failure(FindBestError)
    else
      var rest := Filtered(cs[1..], budget, transfers, counts);
      assert ThrowsOnClub(cs, budget, transfers) <==> ThrowsOnClub(cs[1..], budget, transfers) by {
        if ThrowsOnClub(cs, budget, transfers) {
          var i :| 0 <= i < |cs| && Affordable(cs[i], budget, transfers) && cs[i].playerIn.team == null;
          assert cs[1..][i - 1] == cs[i];
        }
        if ThrowsOnClub(cs[1..], budget, transfers) {
          var i :| 0 <= i < |cs[1..]| && Affordable(cs[1..][i], budget, transfers)
                   && cs[1..][i].playerIn.team == null;
          assert cs[i + 1] == cs[1..][i];
        }
      }
      if rest.Failure? then rest
      else Success((if Eligible(cs[0], budget, transfers, counts) then [cs[0]] else []) + rest.value)
  }

  /** The sort key: point gain descending, then cost ascending. */
  function TransferRank(t: Transfer): Rank {
    Rank(PointDifference(t), CostDifference(t))
  }

  /** `findBestTransfers(potentialTransfers, budget, transfers, team)` on the team's player list. */
  function FindBestTransfers(potentialTransfers: seq<Transfer>, budget: int, transfers: int,
                             squad: seq<Player>): Result<seq<Transfer>, string>
  {
    if !Countable(squad) then Failure(FindBestError)
    else
      match Filtered(potentialTransfers, budget, transfers, Tally(squad))
      case Failure(_) => Failure(FindBestError)
      case Success(kept) => Success(SortBy(kept, TransferRank))
  }

  /** A candidate findBestTransfers keeps, with the club count read off the squad. */
  predicate Selected(t: Transfer, budget: int, transfers: int, squad: seq<Player>) {
    Affordable(t, budget, transfers) && t.playerIn.team != null
    && CountKey(squad, t.playerIn.team.name) < 3
  }

  /** It fails exactly when the squad cannot be counted or an affordable candidate has no club. */
  lemma FindBestFails(cs: seq<Transfer>, budget: int, transfers: int, squad: seq<Player>)
    ensures FindBestTransfers(cs, budget, transfers, squad).Failure?
        <==> !Countable(squad) || ThrowsOnClub(cs, budget, transfers)
    ensures FindBestTransfers(cs, budget, transfers, squad).Failure? ==>
      FindBestTransfers(cs, budget, transfers, squad).error == FindBestError
  {
  }

  /** With no transfers left nothing is kept. */
  lemma FindBestWithoutTransfers(cs: seq<Transfer>, budget: int, transfers: int, squad: seq<Player>)
    requires transfers <= 0 && Countable(squad)
    ensures FindBestTransfers(cs, budget, transfers, squad) == Success([])
  {
    NoneEligible(cs, budget, transfers, Tally(squad));
  }

  lemma {:induction false} NoneEligible(cs: seq<Transfer>, budget: int, transfers: int,
                                        counts: map<ClubKey, int>)
    requires transfers <= 0
    ensures Eligibles(cs, budget, transfers, counts) == []
    ensures !ThrowsOnClub(cs, budget, transfers)
  {
    if cs != [] {
      NoneEligible(cs[1..], budget, transfers, counts);
    }
  }

  /** The filter keeps each eligible candidate as often as it occurs, and nothing else. */
  lemma {:induction false} EligiblesFilter(cs: seq<Transfer>, budget: int, transfers: int,
                                           counts: map<ClubKey, int>)
    ensures forall t :: multiset(Eligibles(cs, budget, transfers, counts))[t]
                        == if Eligible(t, budget, transfers, counts) then multiset(cs)[t] else 0
  {
    if cs != [] {
      EligiblesFilter(cs[1..], budget, transfers, counts);
      assert cs == [cs[0]] + cs[1..];
    }
  }

  /**
   * On success, the result holds exactly the selected candidates, each as often as in the
   * input: affordable, a transfer left, and an incoming club with fewer than 3 squad players.
   * No accounting happens among the kept candidates.
   */
  lemma FindBestSelects(cs: seq<Transfer>, budget: int, transfers: int, squad: seq<Player>)
    requires FindBestTransfers(cs, budget, transfers, squad).Success?
    ensures forall t :: multiset(FindBestTransfers(cs, budget, transfers, squad).value)[t]
                        == if Selected(t, budget, transfers, squad) then multiset(cs)[t] else 0
  {
    var kept := Eligibles(cs, budget, transfers, Tally(squad));
    SortByCorrect(kept, TransferRank);
    EligiblesFilter(cs, budget, transfers, Tally(squad));
    TallyCounts(squad);
  }

  /**
   * On success, the result is ordered by point gain descending, then cost ascending, and
   * candidates tied on both keep their input order; it is the one list with these properties.
   */
  lemma FindBestOrder(cs: seq<Transfer>, budget: int, transfers: int, squad: seq<Player>)
    requires FindBestTransfers(cs, budget, transfers, squad).Success?
    ensures var r := FindBestTransfers(cs, budget, transfers, squad).value;
      forall i, j :: 0 <= i < j < |r| ==>
        PointDifference(r[i]) > PointDifference(r[j])
        || (PointDifference(r[i]) == PointDifference(r[j]) && CostDifference(r[i]) <= CostDifference(r[j]))
    ensures var r := FindBestTransfers(cs, budget, transfers, squad).value;
      forall k :: WithRank(r, TransferRank, k)
                  == WithRank(Eligibles(cs, budget, transfers, Tally(squad)), TransferRank, k)
  {
    var kept := Eligibles(cs, budget, transfers, Tally(squad));
    SortByCorrect(kept, TransferRank);
    var r := SortBy(kept, TransferRank);
    forall i, j | 0 <= i < j < |r|
      ensures PointDifference(r[i]) > PointDifference(r[j])
        || (PointDifference(r[i]) == PointDifference(r[j]) && CostDifference(r[i]) <= CostDifference(r[j]))
    {
      assert !Ahead(TransferRank(r[j]), TransferRank(r[i]));
    }
  }

  /**
   * One affordable candidate from a club with one player in the squad is kept: 100 out, 105
   * in, predictions 6.0 and 8.0, budget 20 and one transfer give a gain of 2.0 at cost 5.
   */
  lemma FindBestSample(club: PlayerTeam)
    requires club.name.Some?
    ensures var out := Sample(1, 3, 100, 6.0, club);
      var t := Transfer(out, Sample(2, 3, 105, 8.0, club));
      FindBestTransfers([t], 20, 1, [out]) == Success([t])
      && PointDifference(t) == 2.0 && CostDifference(t) == 5
  {
    var out := Sample(1, 3, 100, 6.0, club);
    var t := Transfer(out, Sample(2, 3, 105, 8.0, club));
    assert Countable([out]);
    TallyCounts([out]);
    assert CountKey([out], club.name) == 1;
    assert Eligible(t, 20, 1, Tally([out]));
    assert [t][1..] == [];
    assert Filtered([t][1..], 20, 1, Tally([out])) == Success([]);
    assert [t] + [] == [t];
    assert Filtered([t], 20, 1, Tally([out])) == Success([t]);
    assert SortBy([t], TransferRank) == [t];
  }
}

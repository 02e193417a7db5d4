/**
 * Candidate generation: every squad player is paired with every pool player of the same element
 * type whose id differs, position by position (goalkeepers, defenders, midfielders, forwards).
 */
module CandidateGeneration {
  import opened Players
  import opened Transfers
  import opened Squads
  import opened Blocks

  /** The pairs of one outgoing player with the pool, in pool order, skipping its own id. */
  function PairsFor(playerOut: Player, available: seq<Player>): seq<Transfer> {
    if available == [] then []
    else
      var last := available[|available| - 1];
      PairsFor(playerOut, available[..|available| - 1])
        + (if playerOut.id != last.id then [Transfer(playerOut, last)] else [])
  }

  /** All pairs of one position: squad order, and within it pool order. */
  function Pairs(teamPlayers: seq<Player>, available: seq<Player>): seq<Transfer> {
    if teamPlayers == [] then []
    else
      Pairs(teamPlayers[..|teamPlayers| - 1], available)
        + PairsFor(teamPlayers[|teamPlayers| - 1], available)
  }

  /** The candidates of the whole squad: the four position blocks one after another. */
  function Generate(squad: seq<Player>, pool: seq<Player>): seq<Transfer> {
    Pairs(OfPosition(squad, 1), OfPosition(pool, 1))
      + Pairs(OfPosition(squad, 2), OfPosition(pool, 2))
      + Pairs(OfPosition(squad, 3), OfPosition(pool, 3))
      + Pairs(OfPosition(squad, 4), OfPosition(pool, 4))
  }

  /** `generateTransfersForPosition`: the nested loops over squad and pool players. */
  method GenerateTransfersForPosition(teamPlayers: seq<Player>, availablePlayers: seq<Player>)
    returns (transfers: seq<Transfer>)
    ensures transfers == Pairs(teamPlayers, availablePlayers)
  {
    transfers := [];
    var i := 0;
    while i < |teamPlayers|
      invariant 0 <= i <= |teamPlayers|
      invariant transfers == Pairs(teamPlayers[..i], availablePlayers)
    {
      var playerOut := teamPlayers[i];
      var j := 0;
      while j < |availablePlayers|
        invariant 0 <= j <= |availablePlayers|
        invariant transfers == Pairs(teamPlayers[..i], availablePlayers)
                               + PairsFor(playerOut, availablePlayers[..j])
      {
        var playerIn := availablePlayers[j];
        assert availablePlayers[..j + 1][..j] == availablePlayers[..j];
        if playerOut.id != playerIn.id {
          transfers := transfers + [Transfer(playerOut, playerIn)];
        }
        j := j + 1;
      }
      assert availablePlayers[..j] == availablePlayers;
      assert teamPlayers[..i + 1][..i] == teamPlayers[..i];
      i := i + 1;
    }
    assert teamPlayers[..i] == teamPlayers;
  }

  /** `generatePotentialTransfers`, with the pool of all players passed in. */
  method GeneratePotentialTransfers(team: Team, allPlayers: seq<Player>)
    returns (potentialTransfers: seq<Transfer>)
    ensures potentialTransfers == Generate(team.players, allPlayers)
  {
    var goalkeepers := GenerateTransfersForPosition(OfPosition(team.players, 1), OfPosition(allPlayers, 1));
    var defenders := GenerateTransfersForPosition(OfPosition(team.players, 2), OfPosition(allPlayers, 2));
    var midfielders := GenerateTransfersForPosition(OfPosition(team.players, 3), OfPosition(allPlayers, 3));
    var forwards := GenerateTransfersForPosition(OfPosition(team.players, 4), OfPosition(allPlayers, 4));
    potentialTransfers := goalkeepers + defenders + midfielders + forwards;
  }

  /** A pair is generated for one outgoing player exactly when the incoming one is in the pool
   *  and their ids differ. */
  lemma {:induction false} PairsForMembership(playerOut: Player, available: seq<Player>, t: Transfer)
    ensures t in PairsFor(playerOut, available)
        <==> t.playerOut == playerOut && t.playerIn in available && t.playerIn.id != playerOut.id
  {
    if available != [] {
      var init := available[..|available| - 1];
      PairsForMembership(playerOut, init, t);
      assert available == init + [available[|available| - 1]];
    }
  }

  /** A pair is generated exactly when its outgoing player is in the squad list, its incoming
   *  player in the pool list, and their ids differ. */
  lemma {:induction false} PairsMembership(teamPlayers: seq<Player>, available: seq<Player>, t: Transfer)
    ensures t in Pairs(teamPlayers, available)
        <==> t.playerOut in teamPlayers && t.playerIn in available && t.playerIn.id != t.playerOut.id
  {
    if teamPlayers != [] {
      var init := teamPlayers[..|teamPlayers| - 1];
      PairsMembership(init, available, t);
      PairsForMembership(teamPlayers[|teamPlayers| - 1], available, t);
      assert teamPlayers == init + [teamPlayers[|teamPlayers| - 1]];
    }
  }

  /**
   * Every candidate takes its outgoing player from the squad and its incoming player from the
   * pool, both of one element type in 1..4, with differing ids; and every such pair is a
   * candidate. (An incoming player may already be in the squad.)
   */
  lemma GenerateMembership(squad: seq<Player>, pool: seq<Player>, t: Transfer)
    ensures t in Generate(squad, pool)
        <==> t.playerOut in squad && t.playerIn in pool
             && t.playerOut.elementType == t.playerIn.elementType
             && 1 <= t.playerOut.elementType <= 4
             && t.playerOut.id != t.playerIn.id
  {
    forall k | 1 <= k <= 4
      ensures t in Pairs(OfPosition(squad, k), OfPosition(pool, k))
          <==> t.playerOut in squad && t.playerIn in pool
               && t.playerOut.elementType == k && t.playerIn.elementType == k
               && t.playerOut.id != t.playerIn.id
    {
      PairsMembership(OfPosition(squad, k), OfPosition(pool, k), t);
      OfPositionMembership(squad, k, t.playerOut);
      OfPositionMembership(pool, k, t.playerIn);
    }
  }

  lemma OfPositionMembership(s: seq<Player>, k: int, p: Player)
    ensures p in OfPosition(s, k) <==> p in s && p.elementType == k
  {
    if p in OfPosition(s, k) {
      var i :| 0 <= i < |OfPosition(s, k)| && OfPosition(s, k)[i] == p;
    }
    if p in s && p.elementType == k {
      var i :| 0 <= i < |s| && s[i] == p;
    }
  }

  /** The position of a candidate: its outgoing player's element type. */
  function OutPosition(t: Transfer): int {
    t.playerOut.elementType
  }

  lemma PositionBlock(squad: seq<Player>, pool: seq<Player>, k: int)
    ensures KeysWithin(Pairs(OfPosition(squad, k), OfPosition(pool, k)), OutPosition, k, k)
  {
    var block := Pairs(OfPosition(squad, k), OfPosition(pool, k));
    forall i | 0 <= i < |block|
      ensures OutPosition(block[i]) == k
    {
      PairsMembership(OfPosition(squad, k), OfPosition(pool, k), block[i]);
      OfPositionMembership(squad, k, block[i].playerOut);
    }
  }

  /** Candidates come in position blocks: goalkeepers, then defenders, midfielders, forwards. */
  lemma GenerateInPositionBlocks(squad: seq<Player>, pool: seq<Player>)
    ensures var r := Generate(squad, pool);
      forall i, j :: 0 <= i < j < |r| ==> r[i].playerOut.elementType <= r[j].playerOut.elementType
  {
    PositionBlock(squad, pool, 1);
    PositionBlock(squad, pool, 2);
    PositionBlock(squad, pool, 3);
    PositionBlock(squad, pool, 4);
    FourBlocksOrdered(Pairs(OfPosition(squad, 1), OfPosition(pool, 1)),
                      Pairs(OfPosition(squad, 2), OfPosition(pool, 2)),
                      Pairs(OfPosition(squad, 3), OfPosition(pool, 3)),
                      Pairs(OfPosition(squad, 4), OfPosition(pool, 4)), OutPosition);
  }

  /** The number of pool players with this id. */
  function CountId(s: seq<Player>, id: int): nat {
    if s == [] then 0
    else CountId(s[..|s| - 1], id) + (if s[|s| - 1].id == id then 1 else 0)
  }

  /** The number of (squad, pool) pairs with equal ids: the pairs that are skipped. */
  function SameIdPairs(teamPlayers: seq<Player>, available: seq<Player>): nat {
    if teamPlayers == [] then 0
    else SameIdPairs(teamPlayers[..|teamPlayers| - 1], available)
         + CountId(available, teamPlayers[|teamPlayers| - 1].id)
  }

  /** One position yields every (out, in) pair except those with equal ids. */
  lemma {:induction false} PairsCount(teamPlayers: seq<Player>, available: seq<Player>)
    ensures |Pairs(teamPlayers, available)| + SameIdPairs(teamPlayers, available)
            == |teamPlayers| * |available|
  {
    if teamPlayers != [] {
      var n := |teamPlayers|;
      PairsCount(teamPlayers[..n - 1], available);
      PairsForCount(teamPlayers[n - 1], available);
      assert |teamPlayers[..n - 1]| == n - 1;
      MulStep(n, |available|);
    }
  }

  lemma MulStep(n: int, m: int)
    ensures (n - 1) * m + m == n * m
  {
  }

  lemma {:induction false} PairsForCount(playerOut: Player, available: seq<Player>)
    ensures |PairsFor(playerOut, available)| + CountId(available, playerOut.id) == |available|
  {
    if available != [] {
      PairsForCount(playerOut, available[..|available| - 1]);
    }
  }

  /** The candidate count: same-position pairs minus those with equal ids, summed over positions. */
  lemma GenerateCount(squad: seq<Player>, pool: seq<Player>)
    ensures |Generate(squad, pool)|
        == |OfPosition(squad, 1)| * |OfPosition(pool, 1)| - SameIdPairs(OfPosition(squad, 1), OfPosition(pool, 1))
         + |OfPosition(squad, 2)| * |OfPosition(pool, 2)| - SameIdPairs(OfPosition(squad, 2), OfPosition(pool, 2))
         + |OfPosition(squad, 3)| * |OfPosition(pool, 3)| - SameIdPairs(OfPosition(squad, 3), OfPosition(pool, 3))
         + |OfPosition(squad, 4)| * |OfPosition(pool, 4)| - SameIdPairs(OfPosition(squad, 4), OfPosition(pool, 4))
  {
    PairsCount(OfPosition(squad, 1), OfPosition(pool, 1));
    PairsCount(OfPosition(squad, 2), OfPosition(pool, 2));
    PairsCount(OfPosition(squad, 3), OfPosition(pool, 3));
    PairsCount(OfPosition(squad, 4), OfPosition(pool, 4));
  }
}

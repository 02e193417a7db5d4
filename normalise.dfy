/**
 * The positional normalisation that ends `applyTransfers`: per element type 1..4, the players of
 * that type sorted stably by prediction (highest first) and cut to 2, 5, 5 and 3; the four
 * blocks are concatenated and every other element type is dropped.
 */
module Normalisation {
  import opened Players
  import opened Ranking
  import opened Blocks

  /** The sort key of a squad player: prediction, highest first. */
  function PlayerRank(p: Player): Rank {
    Rank(p.prediction, 0)
  }

  /** How many players of each element type the squad keeps: 2 GK, 5 DEF, 5 MID, 3 FWD. */
  function Quota(elementType: int): nat {
    if elementType == 1 then 2
    else if elementType == 2 then 5
    else if elementType == 3 then 5
    else if elementType == 4 then 3
    else 0
  }

  function Min(a: nat, b: nat): nat {
    if a <= b then a else b
  }

  /** `filterPlayersByPosition(team, k).stream().sorted(by prediction, reversed).limit(q)`. */
  function TopOf(players: seq<Player>, elementType: int, quota: nat): seq<Player> {
    var sorted := SortBy(OfPosition(players, elementType), PlayerRank);
    sorted[..Min(quota, |sorted|)]
  }

  function Block(players: seq<Player>, elementType: int): seq<Player> {
    TopOf(players, elementType, Quota(elementType))
  }

  /** The new player list. */
  function Normalise(players: seq<Player>): seq<Player> {
    Block(players, 1) + Block(players, 2) + Block(players, 3) + Block(players, 4)
  }

  function ElementType(p: Player): int {
    p.elementType
  }

  /** A block holds as many players of its type as the quota allows. */
  lemma BlockSize(players: seq<Player>, k: int)
    ensures |Block(players, k)| == Min(Quota(k), |OfPosition(players, k)|)
  {
    SortByCorrect(OfPosition(players, k), PlayerRank);
    assert |multiset(SortBy(OfPosition(players, k), PlayerRank))|
        == |multiset(OfPosition(players, k))|;
  }

  /** A block is a sub-multiset of the players of its type, so all of that type. */
  lemma BlockOfType(players: seq<Player>, k: int)
    ensures multiset(Block(players, k)) <= multiset(OfPosition(players, k))
    ensures KeysWithin(Block(players, k), ElementType, k, k)
  {
    var ofk := OfPosition(players, k);
    BlockWithin(players, k);
    var b := Block(players, k);
    forall i | 0 <= i < |b|
      ensures b[i].elementType == k
    {
      assert b[i] in multiset(ofk);
    }
  }

  lemma BlockWithin(players: seq<Player>, k: int)
    ensures multiset(Block(players, k)) <= multiset(OfPosition(players, k))
  {
    var ofk := OfPosition(players, k);
    var sorted := SortBy(ofk, PlayerRank);
    SortByCorrect(ofk, PlayerRank);
    var n := Min(Quota(k), |sorted|);
    assert sorted == sorted[..n] + sorted[n..];
    assert multiset(sorted) == multiset(sorted[..n]) + multiset(sorted[n..]);
  }

  /** Within a block, predictions never increase. */
  lemma BlockByPrediction(players: seq<Player>, k: int)
    ensures var b := Block(players, k);
      forall i, j :: 0 <= i < j < |b| ==> b[i].prediction >= b[j].prediction
  {
    var sorted := SortBy(OfPosition(players, k), PlayerRank);
    SortByCorrect(OfPosition(players, k), PlayerRank);
    var b := Block(players, k);
    forall i, j | 0 <= i < j < |b|
      ensures b[i].prediction >= b[j].prediction
    {
      assert b[i] == sorted[i] && b[j] == sorted[j];
      assert !Ahead(PlayerRank(sorted[j]), PlayerRank(sorted[i]));
    }
  }

  /** Every player of the type that the block leaves out predicts no more than any it keeps. */
  lemma BlockIsTop(players: seq<Player>, k: int)
    ensures var b := Block(players, k);
      forall p :: p in multiset(OfPosition(players, k)) - multiset(b) ==>
        forall i :: 0 <= i < |b| ==> b[i].prediction >= p.prediction
  {
    var ofk := OfPosition(players, k);
    var sorted := SortBy(ofk, PlayerRank);
    SortByCorrect(ofk, PlayerRank);
    var n := Min(Quota(k), |sorted|);
    var b := Block(players, k);
    assert b == sorted[..n];
    RankedPrefixIsTop(sorted, PlayerRank, n);
    forall p | p in multiset(ofk) - multiset(b)
      ensures forall i :: 0 <= i < |b| ==> b[i].prediction >= p.prediction
    {
      assert p in multiset(sorted) - multiset(sorted[..n]);
      forall i | 0 <= i < |b|
        ensures b[i].prediction >= p.prediction
      {
        assert !Ahead(PlayerRank(p), PlayerRank(sorted[i]));
      }
    }
  }

  /** Players of equal prediction keep their list order: each tie class of the block is a prefix
   *  of that tie class among the players of the type. */
  lemma BlockKeepsTies(players: seq<Player>, k: int)
    ensures forall r :: WithRank(Block(players, k), PlayerRank, r)
                        <= WithRank(OfPosition(players, k), PlayerRank, r)
  {
    var sorted := SortBy(OfPosition(players, k), PlayerRank);
    SortByCorrect(OfPosition(players, k), PlayerRank);
    WithRankOfPrefix(sorted, PlayerRank, Min(Quota(k), |sorted|));
  }

  /** The multiset of the players of type k is the multiset of players restricted to type k. */
  lemma {:induction false} OfPositionCounts(players: seq<Player>, k: int)
    ensures forall p :: multiset(OfPosition(players, k))[p]
                        == if p.elementType == k then multiset(players)[p] else 0
  {
    if players != [] {
      OfPositionCounts(players[1..], k);
      assert players == [players[0]] + players[1..];
    }
  }

  /** The players whose element type is one of the four positions, in list order. */
  function InTemplate(players: seq<Player>): seq<Player> {
    if players == [] then []
    else (if 1 <= players[0].elementType <= 4 then [players[0]] else []) + InTemplate(players[1..])
  }

  /** Splitting by element type 1..4 and putting the four lists together again gives exactly
   *  the players of those types. */
  lemma {:induction false} FourPositions(players: seq<Player>)
    ensures multiset(OfPosition(players, 1)) + multiset(OfPosition(players, 2))
            + multiset(OfPosition(players, 3)) + multiset(OfPosition(players, 4))
            == multiset(InTemplate(players))
  {
    if players != [] {
      FourPositions(players[1..]);
    }
  }

  /** Only players of other types are lost. */
  lemma {:induction false} InTemplateSubMultiset(players: seq<Player>)
    ensures multiset(InTemplate(players)) <= multiset(players)
  {
    if players != [] {
      InTemplateSubMultiset(players[1..]);
      assert players == [players[0]] + players[1..];
    }
  }

  /** When every element type is in 1..4, nothing is lost. */
  lemma {:induction false} InTemplateWhole(players: seq<Player>)
    requires forall i :: 0 <= i < |players| ==> 1 <= players[i].elementType <= 4
    ensures InTemplate(players) == players
  {
    if players != [] {
      assert forall i :: 0 <= i < |players[1..]| ==> players[1..][i] == players[i + 1];
      InTemplateWhole(players[1..]);
      assert players == [players[0]] + players[1..];
    }
  }

  /** The new list: at most 2 GK, 5 DEF, 5 MID and 3 FWD, in that block order, so at most 15. */
  lemma NormaliseShape(players: seq<Player>)
    ensures var r := Normalise(players);
      |r| <= 15
      && (forall i, j :: 0 <= i < j < |r| ==> r[i].elementType <= r[j].elementType)
      && (forall i :: 0 <= i < |r| ==> 1 <= r[i].elementType <= 4)
  {
    BlockSize(players, 1);
    BlockSize(players, 2);
    BlockSize(players, 3);
    BlockSize(players, 4);
    BlockOfType(players, 1);
    BlockOfType(players, 2);
    BlockOfType(players, 3);
    BlockOfType(players, 4);
    FourBlocksOrdered(Block(players, 1), Block(players, 2), Block(players, 3), Block(players, 4),
                      ElementType);
  }

  /** The new list is a sub-multiset of the old: nothing is added or padded. */
  lemma NormaliseSubMultiset(players: seq<Player>)
    ensures multiset(Normalise(players)) <= multiset(players)
  {
    BlockOfType(players, 1);
    BlockOfType(players, 2);
    BlockOfType(players, 3);
    BlockOfType(players, 4);
    FourPositions(players);
    InTemplateSubMultiset(players);
  }

  /** A list within the template, of element types 1..4 only, is only reordered. */
  lemma NormaliseWithinTemplate(players: seq<Player>)
    requires forall i :: 0 <= i < |players| ==> 1 <= players[i].elementType <= 4
    requires forall k :: 1 <= k <= 4 ==> |OfPosition(players, k)| <= Quota(k)
    ensures multiset(Normalise(players)) == multiset(players)
    ensures |Normalise(players)| == |players|
  {
    BlockWhole(players, 1);
    BlockWhole(players, 2);
    BlockWhole(players, 3);
    BlockWhole(players, 4);
    FourPositions(players);
    InTemplateWhole(players);
    assert |Normalise(players)| == |multiset(Normalise(players))|;
  }

  /** A block whose type fits its quota holds every player of that type. */
  lemma BlockWhole(players: seq<Player>, k: int)
    requires |OfPosition(players, k)| <= Quota(k)
    ensures multiset(Block(players, k)) == multiset(OfPosition(players, k))
  {
    var ofk := OfPosition(players, k);
    var sorted := SortBy(ofk, PlayerRank);
    SortByCorrect(ofk, PlayerRank);
    assert |sorted| == |multiset(sorted)| == |multiset(ofk)| == |ofk|;
    assert Min(Quota(k), |sorted|) == |sorted|;
    assert Block(players, k) == sorted[..|sorted|] == sorted;
  }

  /** Normalisation keeps ids distinct. */
  lemma NormaliseKeepsIdsDistinct(players: seq<Player>)
    requires DistinctIds(players)
    ensures DistinctIds(Normalise(players))
  {
    NormaliseSubMultiset(players);
    DistinctIdsSubMultiset(Normalise(players), players);
  }
}

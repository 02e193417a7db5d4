/**
 * A candidate transfer: one squad player out, one pool player in. Its cost is the price change
 * (in tenths) and its gain the change in predicted points.
 */
module Transfers {
  import opened Players

  datatype Transfer = Transfer(playerOut: Player, playerIn: Player)

  /** What the transfer costs: the incoming price minus the outgoing price. */
  function CostDifference(t: Transfer): int {
    t.playerIn.nowCost - t.playerOut.nowCost
  }

  /** What the transfer gains: the incoming prediction minus the outgoing prediction. */
  function PointDifference(t: Transfer): real {
    t.playerIn.prediction - t.playerOut.prediction
  }
}

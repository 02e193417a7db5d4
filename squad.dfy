/**
 * The user's squad as the optimiser sees it: a player list, a budget in tenths and a number of
 * free transfers. The optimiser mutates one instance in place.
 */
module Squads {
  import opened Players

  class Team {
    var players: seq<Player>
    var budget: int
    var transfers: int

    constructor (players: seq<Player>, budget: int, transfers: int)
      ensures this.players == players && this.budget == budget && this.transfers == transfers
    {
      this.players := players;
      this.budget := budget;
      this.transfers := transfers;
    }

    /** The three fields as one value. */
    function State(): SquadState
      reads this
    {
      SquadState(players, budget, transfers)
    }
  }

  datatype SquadState = SquadState(players: seq<Player>, budget: int, transfers: int)
}

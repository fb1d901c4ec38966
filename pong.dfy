/**
 * `PongRequestExecutor`: when a player answers a ping, the ping controller
 * hears of it first, and then the ponging player is sent the latest ping
 * value of every player of the collection, over the unreliable channel.
 */
module Pong {
  import opened Wrappers
  import opened Codec
  import opened Messages
  import opened Players
  import opened Server

  /** The ping result about `about` that is sent to `to`. */
  function PingResultFor(to: Player, about: Player): Call
    requires to.CanSend(Unreliable)
    reads to, about
  {
    to.SendCall(PingResultRequestMessage(about.playerId, about.mostRecentPingValue), Unreliable)
  }

  /** The sends of the executor's loop over `ps`, in index order, all to `to`. */
  function PingResults(to: Player, ps: seq<Player>): seq<Call>
    requires to.CanSend(Unreliable)
    reads to, ps
    decreases |ps|
  {
    if ps == [] then []
    else PingResults(to, ps[..|ps| - 1]) + [PingResultFor(to, ps[|ps| - 1])]
  }

  /**
   * One message per player of the collection; the i-th carries the i-th
   * player's id and ping value, and every one is an unreliable send to the
   * ponging player's channel and endpoint.
   */
  lemma {:induction false} PingResultsAreAddressedInOrder(to: Player, ps: seq<Player>)
    requires to.CanSend(Unreliable)
    ensures |PingResults(to, ps)| == |ps|
    ensures forall i :: 0 <= i < |ps| ==>
              PingResults(to, ps)[i]
              == UnreliableSend(to.unreliableChannel,
                                PingResultRequestMessage(ps[i].playerId, ps[i].mostRecentPingValue),
                                to.remoteIdentifiedEndPoint)
    decreases |ps|
  {
    if ps != [] {
      var init := ps[..|ps| - 1];
      PingResultsAreAddressedInOrder(to, init);
      assert forall i :: 0 <= i < |init| ==> init[i] == ps[i];
    }
  }

  class PongRequestExecutor {
    const server: GameServer
    const player: Player

    constructor (server: GameServer, player: Player)
      ensures this.server == server && this.player == player
    {
      this.server := server;
      this.player := player;
    }

    /**
     * `Execute`: `PongReceived` for the ponging player, then one ping result
     * per player of the collection, sent to the ponging player; the
     * collection itself is not touched.
     */
    method Execute()
      requires player.CanSend(Unreliable)
      modifies server.trace`calls
      ensures server.trace.calls
              == old(server.trace.calls) + [PongReceived(player)] + old(PingResults(player, server.players))
    {
      server.trace.Log(PongReceived(player));
      var players := server.players;
      for index := 0 to |players|
        invariant server.trace.calls
                  == old(server.trace.calls) + [PongReceived(player)] + old(PingResults(player, players[..index]))
      {
        var each := players[index];
        assert players[..index + 1][..index] == players[..index];
        assert old(PingResultFor(player, each)) == PingResultFor(player, each);
        player.Send(PingResultRequestMessage(each.playerId, each.mostRecentPingValue), Unreliable, server.trace);
      }
      assert players[..|players|] == players;
    }
  }
}

/**
 * An older revision of the client's membership rule: the generic
 * `GameClient<PlayerType>` holds the local `player` and a store of the other
 * players, and `ConnectedPlayerExecutor` handles one `ConnectedPlayerMessage`.
 * The store is an id-keyed `NetworkPlayersStorage<PlayerType>`, which is
 * abstracted here as the sequence of players added to it, in order.
 */
module Legacy {
  import opened Codec
  import opened Messages

  /** A player of this revision: an id and whether it is the local player. */
  class NetworkPlayer {
    var playerId: Int32
    var isLocalPlayer: bool

    /** `new PlayerType() { playerId = …, isLocalPlayer = … }`. */
    constructor (playerId: Int32, isLocalPlayer: bool)
      ensures this.playerId == playerId && this.isLocalPlayer == isLocalPlayer
    {
      this.playerId := playerId;
      this.isLocalPlayer := isLocalPlayer;
    }
  }

  class LegacyGameClient {
    var player: NetworkPlayer?
    var networkPlayers: seq<NetworkPlayer>

    constructor ()
      ensures player == null && networkPlayers == []
    {
      player := null;
      networkPlayers := [];
    }

    /** `AddPlayer`: the player is added to the store, modelled as appending it. */
    method AddPlayer(player: NetworkPlayer)
      modifies this`networkPlayers
      ensures networkPlayers == old(networkPlayers) + [player]
    {
      networkPlayers := networkPlayers + [player];
    }
  }

  /** The message the executor is built with. */
  type ConnectedPlayerNotice = m: TypedMessage | m.ConnectedPlayerMessage? witness ConnectedPlayerMessage(0, false)

  /** `ConnectedPlayerExecutor`: a struct holding the client and the message. */
  datatype ConnectedPlayerExecutor = ConnectedPlayerExecutor(gameClient: LegacyGameClient, message: ConnectedPlayerNotice)
  {
    /**
     * `Execute`: builds a player with the message's id and `isMe` flag; it
     * becomes the client's local player when `isMe` holds and is added to
     * the list otherwise, and exactly one of the two happens.
     */
    method Execute() returns (created: NetworkPlayer)
      modifies gameClient`player, gameClient`networkPlayers
      ensures fresh(created)
      ensures created.playerId == message.playerId && created.isLocalPlayer == message.isMe
      ensures message.isMe ==> gameClient.player == created && gameClient.networkPlayers == old(gameClient.networkPlayers)
      ensures !message.isMe ==>
                gameClient.networkPlayers == old(gameClient.networkPlayers) + [created]
                && gameClient.player == old(gameClient.player)
    {
      created := new NetworkPlayer(message.playerId, message.isMe);
      if message.isMe {
        gameClient.player := created;
      } else {
        gameClient.AddPlayer(created);
      }
    }
  }
}

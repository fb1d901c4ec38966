/**
 * The client side of a session: `GameClient` keeps the remote players it
 * has been told about and the local player, forwards `Connect`,
 * `Disconnect`, `Send` and `Update` to the network client, and reports to
 * its listener; `GameClientMessageRouter` turns the four membership and
 * ping message types into queued executors and hands every other message
 * to the listener.
 */
module Client {
  import opened Wrappers
  import opened Codec
  import opened Messages
  import opened Dispatch
  import opened Players

  /** The client's `Player`: id, local flag, latest ping and the time of the last ping request. */
  class ClientPlayer {
    var playerId: Int32
    var isLocalPlayer: bool
    var mostRecentPingValue: Float32
    var lastReceivedPingRequest: int

    /** `new Player()`: the time of creation counts as the last ping request. */
    constructor (now: int)
      ensures playerId == 0 && !isLocalPlayer && mostRecentPingValue == 0
      ensures lastReceivedPingRequest == now
    {
      playerId := 0;
      isLocalPlayer := false;
      mostRecentPingValue := 0;
      lastReceivedPingRequest := now;
    }

    /** `Configure(playerId, isLocalPlayer)`: sets these two and nothing else. */
    method Configure(playerId: Int32, isLocalPlayer: bool)
      modifies this`playerId, this`isLocalPlayer
      ensures this.playerId == playerId && this.isLocalPlayer == isLocalPlayer
    {
      this.playerId := playerId;
      this.isLocalPlayer := isLocalPlayer;
    }
  }

  /** A call from the game client into its network client. */
  datatype NetworkCall =
    | ConnectTo(host: string, port: int)
    | DisconnectNetwork
    | SendOn(message: TypedMessage, channel: Channel)
    | Flush

  /** A call into the client's listener (`IGameClientListener`). */
  datatype ClientEvent =
    | DidConnect(channel: Channel)
    | ConnectDidTimeout
    | DidDisconnect
    | DidReceiveMessage(container: MessageContainer)
    | PlayerDidConnect(player: ClientPlayer)
    | DidIdentifyLocalPlayer(identified: ClientPlayer)
    | PlayerDidDisconnect(departed: Option<ClientPlayer>)

  /**
   * `GetExternalIpWithTimeout` as written. `answer` is the outcome of the
   * HTTP lookups: the trimmed reply of the first site that answers, or
   * `None` when every site fails. The method then returns the empty string,
   * so its result is never null.
   */
  function ExternalIpAsWritten(answer: Option<string>): (r: Option<string>)
    ensures r.Some?
    ensures answer.Some? ==> r == answer
  {
    Some(answer.GetOr(""))
  }

  /** As written, a failed lookup reaches the caller as an address, the empty one. */
  lemma FailedLookupIsNotNullAsWritten()
    ensures ExternalIpAsWritten(None) == Some("")
  {
  }

  /** The listener call `e`, when a listener is set: `listener?.…`. */
  function ToListener(listening: bool, e: ClientEvent): seq<ClientEvent> {
    if listening then [e] else []
  }

  class GameClient {
    const router: GameClientMessageRouter
    var players: map<Int32, ClientPlayer>
    var localPlayer: ClientPlayer?
    var listening: bool
    var events: seq<ClientEvent>
    var networkCalls: seq<NetworkCall>

    /** A client with no players and no listener, which the router now serves. */
    constructor (router: GameClientMessageRouter)
      modifies router`game
      ensures this.router == router && router.game == this
      ensures players == map[] && localPlayer == null && !listening
      ensures events == [] && networkCalls == []
    {
      this.router := router;
      players := map[];
      localPlayer := null;
      listening := false;
      events := [];
      networkCalls := [];
      new;
      router.Configure(this);
    }

    /** `Connect(host, port)`: forwarded unchanged to the network client. */
    method Connect(host: string, port: int)
      modifies this`networkCalls
      ensures networkCalls == old(networkCalls) + [ConnectTo(host, port)]
    {
      networkCalls := networkCalls + [ConnectTo(host, port)];
    }

    /** `Disconnect()`: forwarded to the network client. */
    method Disconnect()
      modifies this`networkCalls
      ensures networkCalls == old(networkCalls) + [DisconnectNetwork]
    {
      networkCalls := networkCalls + [DisconnectNetwork];
    }

    /** `Send(message, channel)`: forwarded unchanged to the network client. */
    method Send(message: TypedMessage, channel: Channel)
      modifies this`networkCalls
      ensures networkCalls == old(networkCalls) + [SendOn(message, channel)]
    {
      networkCalls := networkCalls + [SendOn(message, channel)];
    }

    /** `Update()`: flushes the network client. */
    method Update()
      modifies this`networkCalls
      ensures networkCalls == old(networkCalls) + [Flush]
    {
      networkCalls := networkCalls + [Flush];
    }

    /**
     * `NetworkClientDidConnect(endPoint)`: the listener hears of the reliable
     * connection; then the client asks the server to identify it by its
     * external address and the endpoint's port, or disconnects when the
     * address could not be found. `answer` is the outcome of the lookup,
     * taken as its caller expects it: null exactly when no site answered.
     */
    method NetworkClientDidConnect(endPoint: EndPoint, answer: Option<string>)
      modifies this`events, this`networkCalls
      ensures events == old(events) + ToListener(listening, DidConnect(Reliable))
      ensures answer.Some? ==>
                networkCalls == old(networkCalls)
                                + [SendOn(NatIdentifierRequestMessage(answer.value, endPoint.port), Reliable)]
      ensures answer.None? ==> networkCalls == old(networkCalls) + [DisconnectNetwork]
    {
      events := events + ToListener(listening, DidConnect(Reliable));
      if answer.Some? {
        Send(NatIdentifierRequestMessage(answer.value, endPoint.port), Reliable);
      } else {
        Disconnect();
      }
    }

    /**
     * `NetworkClientDidConnect` with the lookup as written: a failed lookup
     * still sends an identification request, for the empty address, and
     * the client never disconnects.
     */
    method NetworkClientDidConnectAsWritten(endPoint: EndPoint, answer: Option<string>)
      modifies this`events, this`networkCalls
      ensures events == old(events) + ToListener(listening, DidConnect(Reliable))
      ensures networkCalls == old(networkCalls)
                + [SendOn(NatIdentifierRequestMessage(answer.GetOr(""), endPoint.port), Reliable)]
    {
      events := events + ToListener(listening, DidConnect(Reliable));
      var externalIp := ExternalIpAsWritten(answer);
      if externalIp.Some? {
        Send(NatIdentifierRequestMessage(externalIp.value, endPoint.port), Reliable);
      } else {
        // the `Disconnect()` branch: the lookup as written never reaches it
        assert false;
      }
    }

    /** `NetworkClientConnectDidTimeout`: only the listener hears of it. */
    method NetworkClientConnectDidTimeout()
      modifies this`events
      ensures events == old(events) + ToListener(listening, ConnectDidTimeout)
    {
      events := events + ToListener(listening, ConnectDidTimeout);
    }

    /** `NetworkClientDidReceiveMessage`: the router decides what happens. */
    method NetworkClientDidReceiveMessage(container: MessageContainer)
      requires router.game == this
      modifies this, router.dispatcher`queue
      ensures router.dispatcher.queue
              == old(router.dispatcher.queue) + RoutedTasks(this, container)
      ensures events == old(events) + ForwardedEvents(listening, container)
      ensures players == old(players) && localPlayer == old(localPlayer)
      ensures listening == old(listening) && networkCalls == old(networkCalls)
    {
      router.Route(container);
    }

    /**
     * `NetworkClientDidDisconnect`: the listener hears of it, every player
     * is dropped and there is no local player any more.
     */
    method NetworkClientDidDisconnect()
      modifies this`events, this`players, this`localPlayer
      ensures events == old(events) + ToListener(listening, DidDisconnect)
      ensures players == map[] && localPlayer == null
    {
      events := events + ToListener(listening, DidDisconnect);
      players := map[];
      localPlayer := null;
    }

    /**
     * `RemoteClientDidConnect(playerId, isLocalPlayer)`: a new player with
     * that id and flag is stored under its id and announced; it becomes the
     * local player, announced as such after its connection, exactly when
     * `isLocalPlayer` holds.
     */
    method RemoteClientDidConnect(playerId: Int32, isLocalPlayer: bool, now: int)
      modifies this`players, this`localPlayer, this`events
      ensures playerId in players && fresh(players[playerId])
      ensures players == old(players)[playerId := players[playerId]]
      ensures players[playerId].playerId == playerId && players[playerId].isLocalPlayer == isLocalPlayer
      ensures players[playerId].lastReceivedPingRequest == now
      ensures localPlayer == if isLocalPlayer then players[playerId] else old(localPlayer)
      ensures events == old(events) + ToListener(listening, PlayerDidConnect(players[playerId]))
                        + (if isLocalPlayer then ToListener(listening, DidIdentifyLocalPlayer(players[playerId]))
                           else [])
    {
      var player := new ClientPlayer(now);
      player.Configure(playerId, isLocalPlayer);
      players := players[playerId := player];
      events := events + ToListener(listening, PlayerDidConnect(player));
      if player.isLocalPlayer {
        localPlayer := player;
        events := events + ToListener(listening, DidIdentifyLocalPlayer(player));
      }
    }

    /**
     * `RemoteClientDidDisconnect(playerId)`: exactly that id leaves the
     * collection and the listener is told which player it was (none when
     * the id was unknown); the local player stays as it is.
     */
    method RemoteClientDidDisconnect(playerId: Int32)
      modifies this`players, this`events
      ensures players == old(players) - {playerId}
      ensures events == old(events)
                + ToListener(listening, PlayerDidDisconnect(
                    if playerId in old(players) then Some(old(players)[playerId]) else None))
    {
      var removed := if playerId in players then Some(players[playerId]) else None;
      players := players - {playerId};
      events := events + ToListener(listening, PlayerDidDisconnect(removed));
    }
  }

  /** The executors the router can enqueue, one per handled message type. */
  datatype ExecutorKind =
    | ConnectedPlayerExecutor
    | PingRequestExecutor
    | PingResultRequestExecutor
    | DisconnectedPlayerExecutor

  /** An executor queued for the main thread, with the client and the message it acts on. */
  datatype ClientTask = Execute(executor: ExecutorKind, game: GameClient?, container: MessageContainer)

  /** The message type each executor decodes. */
  function HandledType(k: ExecutorKind): MessageType {
    match k
    case ConnectedPlayerExecutor => ConnectedPlayer
    case PingRequestExecutor => Ping
    case PingResultRequestExecutor => PingResult
    case DisconnectedPlayerExecutor => DisconnectedPlayer
  }

  /** The `Route` switch: the executor for a message type, if it has one. */
  function ExecutorFor(t: MessageType): (r: Option<ExecutorKind>)
    ensures r.Some? <==> t == ConnectedPlayer || t == Ping || t == PingResult || t == DisconnectedPlayer
  {
    match t
    case ConnectedPlayer => Some(ConnectedPlayerExecutor)
    case Ping => Some(PingRequestExecutor)
    case PingResult => Some(PingResultRequestExecutor)
    case DisconnectedPlayer => Some(DisconnectedPlayerExecutor)
    case _ => None
  }

  /**
   * Each executor is chosen for exactly the type it decodes, so two
   * handled types never share an executor.
   */
  lemma ExecutorForMatchesHandledType(t: MessageType, k: ExecutorKind)
    ensures ExecutorFor(t) == Some(k) <==> t == HandledType(k)
  {
  }

  /** What `Route` appends to the dispatcher queue. */
  function RoutedTasks(game: GameClient?, container: MessageContainer): seq<ClientTask> {
    match ExecutorFor(container.messageType)
    case Some(k) => [Execute(k, game, container)]
    case None => []
  }

  /** What `Route` hands to the listener of a client with or without one. */
  function ForwardedEvents(listening: bool, container: MessageContainer): seq<ClientEvent> {
    if ExecutorFor(container.messageType).None? then ToListener(listening, DidReceiveMessage(container)) else []
  }

  /** A message is either queued as one executor or forwarded, never both. */
  lemma RouteQueuesOrForwards(game: GameClient?, listening: bool, container: MessageContainer)
    ensures |RoutedTasks(game, container)| + |ForwardedEvents(listening, container)| <= 1
    ensures |RoutedTasks(game, container)| == 1 <==> container.messageType in [ConnectedPlayer, Ping, PingResult, DisconnectedPlayer]
    ensures listening ==> |RoutedTasks(game, container)| + |ForwardedEvents(listening, container)| == 1
  {
  }

  class GameClientMessageRouter {
    var game: GameClient?
    const dispatcher: Dispatcher<ClientTask>

    constructor (dispatcher: Dispatcher<ClientTask>)
      ensures game == null && this.dispatcher == dispatcher
    {
      game := null;
      this.dispatcher := dispatcher;
    }

    /** `Configure(game)`: the client the executors and unknown messages go to. */
    method Configure(game: GameClient)
      modifies this`game
      ensures this.game == game
    {
      this.game := game;
    }

    /**
     * `Route(container)`: the four handled types each queue their executor;
     * any other type goes to the client's listener, or nowhere when there
     * is no client or no listener. Nothing is executed here.
     */
    method Route(container: MessageContainer)
      modifies dispatcher`queue, if game == null then {} else {game}
      ensures dispatcher.queue == old(dispatcher.queue) + RoutedTasks(game, container)
      ensures game != null ==>
                game.events == old(game.events) + ForwardedEvents(game.listening, container)
                && game.players == old(game.players) && game.localPlayer == old(game.localPlayer)
                && game.listening == old(game.listening) && game.networkCalls == old(game.networkCalls)
    {
      match ExecutorFor(container.messageType)
      case Some(k) =>
        dispatcher.Enqueue(Execute(k, game, container));
      case None =>
        if game != null && game.listening {
          game.events := game.events + [DidReceiveMessage(container)];
        }
    }
  }
}

/**
 * Server-side players and the channel objects they talk through.
 *
 * Everything the server core makes happen outside itself (a message written
 * to a channel, a channel closed, an endpoint unregistered, a ping-controller
 * callback) is recorded, in call order, in one `Trace`. The channels keep
 * their identity and, for the reliable one, its listener; their sockets are
 * not part of this model.
 */
module Players {
  import opened Wrappers
  import opened Codec
  import opened Messages
  import opened Dispatch

  /** A network endpoint (`NetEndPoint`). */
  datatype EndPoint = EndPoint(address: string, port: Int32)

  /** The two transports a message can be sent on. */
  datatype Channel = Reliable | Unreliable

  /** The TCP side of a connection; the player that owns it listens to it. */
  class ReliableChannel {
    var listener: Player?

    constructor ()
      ensures listener == null
    {
      listener := null;
    }
  }

  /** The UDP side of a connection, shared by address. */
  class UnreliableChannel {
    constructor () {}
  }

  /** One call from the server core into the network or the ping controller. */
  datatype Call =
    | ReliableSend(channel: ReliableChannel, message: TypedMessage)
    | UnreliableSend(unreliableChannel: UnreliableChannel, message: TypedMessage, to: Option<EndPoint>)
    | CloseChannel(closed: ReliableChannel)
    | Unregister(endPoint: EndPoint)
    | PongReceived(from: Player)
    | PingControllerUpdate

  /** The calls made so far, oldest first. */
  class Trace {
    var calls: seq<Call>

    constructor ()
      ensures calls == []
    {
      calls := [];
    }

    method Log(call: Call)
      modifies this`calls
      ensures calls == old(calls) + [call]
    {
      calls := calls + [call];
    }
  }

  /** The work the server router's dispatcher runs on the main thread. */
  datatype ServerTask =
    | NotifyPlayerDidConnect(connected: Player, channel: Channel)
    | NotifyPlayerDidDisconnect(disconnected: Player)
    | ExecuteNatIdentifierRequest(container: MessageContainer, from: EndPoint)

  /** The server's message router: it owns the dispatcher. */
  class ServerRouter {
    const dispatcher: Dispatcher<ServerTask>

    constructor (dispatcher: Dispatcher<ServerTask>)
      ensures this.dispatcher == dispatcher
    {
      this.dispatcher := dispatcher;
    }
  }

  /** A message handed to the router by a player: `PlayerDidReceiveMessage(container, from)`. */
  datatype Delivery = Delivery(router: ServerRouter, container: MessageContainer, from: Player)

  /** What a broadcast predicate can look at: the player's public properties. */
  datatype PlayerView = PlayerView(playerId: Int32, mostRecentPingValue: Float32)

  /** A connected client, as the server sees it. */
  class Player {
    var playerId: Int32
    var mostRecentPingValue: Float32
    var lastReceivedPongRequest: int
    var reliableChannel: ReliableChannel?
    var unreliableChannel: UnreliableChannel?
    var remoteIdentifiedEndPoint: Option<EndPoint>
    var listener: ServerRouter?

    /** A new player; `now` is the current time, read as the last pong. */
    constructor (now: int)
      ensures playerId == 0 && mostRecentPingValue == 0 && lastReceivedPongRequest == now
      ensures reliableChannel == null && unreliableChannel == null
      ensures remoteIdentifiedEndPoint == None && listener == null
    {
      playerId := 0;
      mostRecentPingValue := 0;
      lastReceivedPongRequest := now;
      reliableChannel := null;
      unreliableChannel := null;
      remoteIdentifiedEndPoint := None;
      listener := null;
    }

    function View(): PlayerView
      reads this
    {
      PlayerView(playerId, mostRecentPingValue)
    }

    /** `Configure(playerId)`: sets the id and nothing else. */
    method ConfigureId(playerId: Int32)
      modifies this`playerId
      ensures this.playerId == playerId
    {
      this.playerId := playerId;
    }

    /** `Configure(reliable, unreliable)`: stores both channels and listens to the reliable one. */
    method ConfigureChannels(reliable: ReliableChannel, unreliable: UnreliableChannel)
      modifies this`reliableChannel, this`unreliableChannel, reliable`listener
      ensures reliableChannel == reliable && unreliableChannel == unreliable
      ensures reliable.listener == this
    {
      reliableChannel := reliable;
      unreliableChannel := unreliable;
      reliable.listener := this;
    }

    /** The player can send on `channel`: the channel object it needs is set. */
    predicate CanSend(channel: Channel)
      reads this
    {
      match channel
      case Reliable => reliableChannel != null
      case Unreliable => unreliableChannel != null
    }

    /** The call `Send(message, channel)` makes. */
    function SendCall(message: TypedMessage, channel: Channel): (call: Call)
      requires CanSend(channel)
      reads this
      ensures channel == Reliable ==> call.ReliableSend? && call.channel == reliableChannel
      ensures channel == Unreliable ==>
                call.UnreliableSend? && call.unreliableChannel == unreliableChannel
                && call.to == remoteIdentifiedEndPoint
      ensures call.message == message
    {
      match channel
      case Reliable => ReliableSend(reliableChannel, message)
      case Unreliable => UnreliableSend(unreliableChannel, message, remoteIdentifiedEndPoint)
    }

    /** Writes `message` to the channel `channel` selects, and to no other. */
    method Send(message: TypedMessage, channel: Channel, trace: Trace)
      requires CanSend(channel)
      modifies trace`calls
      ensures trace.calls == old(trace.calls) + [SendCall(message, channel)]
    {
      match channel
      case Reliable => trace.Log(ReliableSend(reliableChannel, message));
      case Unreliable => trace.Log(UnreliableSend(unreliableChannel, message, remoteIdentifiedEndPoint));
    }

    /** Closes the reliable channel; the unreliable one is shared and stays open. */
    method Disconnect(trace: Trace)
      requires reliableChannel != null
      modifies trace`calls
      ensures trace.calls == old(trace.calls) + [CloseChannel(reliableChannel)]
    {
      trace.Log(CloseChannel(reliableChannel));
    }

    /** `IEquatable<IPlayer>.Equals`: players are the same player when their ids are. */
    predicate Equals(other: Player)
      reads this, other
    {
      playerId == other.playerId
    }

    /** `GetHashCode`: the hash of the id, which for a 32-bit int is the id itself. */
    function GetHashCode(): int
      reads this
    {
      playerId
    }

    /** A message that arrived on the reliable channel goes to the listener, from this player. */
    method ChannelDidReceiveMessage(channel: ReliableChannel, container: MessageContainer)
      returns (delivery: Option<Delivery>)
      ensures listener == null ==> delivery == None
      ensures listener != null ==> delivery == Some(Delivery(listener, container, this))
    {
      if listener != null {
        delivery := Some(Delivery(listener, container, this));
      } else {
        delivery := None;
      }
    }

    /** A datagram routed to this player by the network server takes the same path. */
    method NetworkServerDidReceiveMessage(container: MessageContainer)
      returns (delivery: Option<Delivery>)
      ensures listener == null ==> delivery == None
      ensures listener != null ==> delivery == Some(Delivery(listener, container, this))
    {
      if listener != null {
        delivery := Some(Delivery(listener, container, this));
      } else {
        delivery := None;
      }
    }
  }

  /** Equality is an equivalence on players, and equal players hash alike. */
  lemma EqualsIsConsistentWithHash(a: Player, b: Player, c: Player)
    ensures a.Equals(a)
    ensures a.Equals(b) ==> b.Equals(a)
    ensures a.Equals(b) && b.Equals(c) ==> a.Equals(c)
    ensures a.Equals(b) <==> a.GetHashCode() == b.GetHashCode()
  {
  }
}

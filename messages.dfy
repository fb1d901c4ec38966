/**
 * Typed messages of the game protocol, the containers that carry them, and
 * the `Encode`/`Decode` pairs of the three messages whose coders are part of
 * the core: `NatIdentifierRequestMessage`, `DisconnectedPlayerMessage` and
 * `UnreliableConnectResponseMessage`.
 */
module Messages {
  import opened Wrappers
  import opened Codec

  /**
   * The named values of `MessageType` that the core refers to. The numeric
   * codes are not part of this model; `Other` stands for any code that is not
   * one of these names.
   */
  datatype MessageType =
    | Connect
    | NatIdentifier
    | ConnectedPlayer
    | DisconnectedPlayer
    | Ping
    | PingResult
    | Other(code: int)

  /** A decoded frame: its type tag and the primitives of its payload. */
  datatype MessageContainer = MessageContainer(messageType: MessageType, payload: seq<Token>) {
    predicate Is(t: MessageType) { messageType == t }
  }

  /** The messages the core builds and sends (`ITypedMessage` implementations). */
  datatype TypedMessage =
    | ConnectedPlayerMessage(playerId: Int32, isMe: bool)
    | DisconnectedPlayerMessage(playerId: Int32)
    | NatIdentifierRequestMessage(remoteIp: string, port: Int32)
    | PingResultRequestMessage(playerId: Int32, pingValue: Float32)
    | UnreliableConnectMessage
    | UnreliableConnectResponseMessage
    | ApplicationMessage(messageType: MessageType, payload: seq<Token>)
  {
    /** The `type` property of each message class. */
    function Type(): MessageType {
      match this
      case ConnectedPlayerMessage(_, _) => ConnectedPlayer
      case DisconnectedPlayerMessage(_) => DisconnectedPlayer
      case NatIdentifierRequestMessage(_, _) => NatIdentifier
      case PingResultRequestMessage(_, _) => PingResult
      case UnreliableConnectMessage => Connect
      case UnreliableConnectResponseMessage => Connect
      case ApplicationMessage(t, _) => t
    }
  }

  /** A freshly constructed `NatIdentifierRequestMessage`: empty address, port 0. */
  const NewNatIdentifierRequest := NatIdentifierRequestMessage("", 0)

  // NatIdentifierRequestMessage

  function EncodeNatIdentifierRequest(m: TypedMessage, e: Encoder): Encoder
    requires m.NatIdentifierRequestMessage?
  {
    e + [StringToken(m.remoteIp), IntToken(m.port)]
  }

  /** Reads a string (the remote address) and then an int (the port). */
  function DecodeNatIdentifierRequest(d: Decoder): (r: Option<(TypedMessage, Decoder)>)
    ensures r.Some? <==> d.position + 1 < |d.tokens|
                         && d.tokens[d.position].StringToken? && d.tokens[d.position + 1].IntToken?
    ensures r.Some? ==> r.value.0.NatIdentifierRequestMessage?
                        && r.value.1 == Decoder(d.tokens, d.position + 2)
  {
    match GetString(d)
    case None => None
    case Some((remoteIp, d1)) =>
      match GetInt(d1)
      case None => None
      case Some((port, d2)) => Some((NatIdentifierRequestMessage(remoteIp, port), d2))
  }

  lemma NatIdentifierRequestRoundTrip(m: TypedMessage, e: Encoder, rest: seq<Token>)
    requires m.NatIdentifierRequestMessage?
    ensures var s := EncodeNatIdentifierRequest(m, e) + rest;
            DecodeNatIdentifierRequest(Decoder(s, |e|)) == Some((m, Decoder(s, |e| + 2)))
  {
  }

  // DisconnectedPlayerMessage

  function EncodeDisconnectedPlayer(m: TypedMessage, e: Encoder): Encoder
    requires m.DisconnectedPlayerMessage?
  {
    e + [IntToken(m.playerId)]
  }

  /** Reads exactly one int, the id of the player that left. */
  function DecodeDisconnectedPlayer(d: Decoder): (r: Option<(TypedMessage, Decoder)>)
    ensures r.Some? <==> d.position < |d.tokens| && d.tokens[d.position].IntToken?
    ensures r.Some? ==> r.value.0 == DisconnectedPlayerMessage(d.tokens[d.position].intValue)
                        && r.value.1 == Decoder(d.tokens, d.position + 1)
  {
    match GetInt(d)
    case None => None
    case Some((playerId, d1)) => Some((DisconnectedPlayerMessage(playerId), d1))
  }

  lemma DisconnectedPlayerRoundTrip(m: TypedMessage, e: Encoder, rest: seq<Token>)
    requires m.DisconnectedPlayerMessage?
    ensures var s := EncodeDisconnectedPlayer(m, e) + rest;
            DecodeDisconnectedPlayer(Decoder(s, |e|)) == Some((m, Decoder(s, |e| + 1)))
  {
  }

  // UnreliableConnectResponseMessage: empty payload

  function EncodeUnreliableConnectResponse(m: TypedMessage, e: Encoder): Encoder
    requires m.UnreliableConnectResponseMessage?
  {
    e
  }

  function DecodeUnreliableConnectResponse(d: Decoder): Option<(TypedMessage, Decoder)> {
    Some((UnreliableConnectResponseMessage, d))
  }

  /** Encoding writes no primitive, decoding consumes none and cannot fail. */
  lemma UnreliableConnectResponseRoundTrip(m: TypedMessage, e: Encoder, rest: seq<Token>)
    requires m.UnreliableConnectResponseMessage?
    ensures EncodeUnreliableConnectResponse(m, e) == e
    ensures var s := EncodeUnreliableConnectResponse(m, e) + rest;
            DecodeUnreliableConnectResponse(Decoder(s, |e|)) == Some((m, Decoder(s, |e|)))
  {
  }

  /** The three coded messages carry the type tags of their classes. */
  lemma CodedMessageTypes()
    ensures NewNatIdentifierRequest.Type() == NatIdentifier
    ensures forall id: Int32 :: DisconnectedPlayerMessage(id).Type() == DisconnectedPlayer
    ensures UnreliableConnectResponseMessage.Type() == Connect
    ensures UnreliableConnectResponseMessage.Type() == UnreliableConnectMessage.Type()
  {
  }
}

# Game networking sessions, modelled in Dafny

This project models the session and bookkeeping layer of a client/server
game-networking library written in C#. It covers:

- **Server membership** (`Acceptor`, `Server`, `Players`, `Pong`). The
  client acceptor gives each accepted connection the next player id and maps
  its reliable channel to the new player. It tells every connected player
  about the newcomer, and the newcomer about every player, with
  `ConnectedPlayerMessage`s. When a player disconnects, the acceptor removes
  it once and tells everyone else with a `DisconnectedPlayerMessage`.
  The `GameServer` owns the player collection. It does the following:
  - adds and removes players and unregisters an identified endpoint;
  - broadcasts messages, either to everyone or to the players a predicate
    accepts;
  - queues listener notifications on its dispatcher;
  - lets through only NAT-identification requests from unknown endpoints.

  The pong executor answers a pong with the ping value of every player.
- **Client membership** (`Client`, `Legacy`). The `GameClient` has these
  duties:
  - It keeps the remote players by id and tracks the local player.
  - It clears both on a disconnect.
  - It forwards `Connect`, `Disconnect`, `Send` and `Update` to its network
    client.
  - It reports to its listener.

  The message router turns the four membership and ping message types into
  one queued executor each, and hands any other message to the listener. The
  older `ConnectedPlayerExecutor` revision sets the local player or adds the
  player to the client's player store.
- **The unreliable connect controller** (`Connection`): a timed retry state
  machine over `isConnecting`, `retryCount` and `startTime`.
- **The list-backed player store** (`Storage`): append and remove with
  delegate notices, and order-preserving find, filter and convert.
- **Codecs and framing** (`Codec`, `Messages`, `Codables`, `Framing`). An
  encoder is the sequence of tagged primitives written so far, and a decoder
  is a cursor over it. Each message's `Decode` reads back what its `Encode`
  wrote. The stream reader cuts one frame per `Decode` at a fixed delimiter.

Everything the core does to the outside world is recorded in order as a
value the proofs can talk about:
- a `Trace` of channel sends, closes, unregistrations and ping-controller
  calls on the server;
- a dispatcher queue of pending actions;
- a list of listener events and network-client calls on the client;
- a list of sends and timeouts on the connect controller.

Channels are objects, compared by identity. Their sockets are not modelled.

A few behaviours of the code are easy to misread. The model does what the
code does.

- **The connect controller.** `Update` never reads `isConnecting`, and a
  timeout leaves `startTime` unchanged. So:
  - every later `Update` past the interval fires the timeout again
    (`Connection.TimeOutFiresAgain`);
  - an acknowledged connection is still retried
    (`Connection.UpdateIgnoresTheFlag`).

  The send count before the first timeout is still exactly
  `1 + maximumNumberOfRetries` (`Connection.ConnectSendsOnePlusMaxBeforeTimeOut`).
- **Player equality in the acceptor.** `Player` implements
  `IEquatable<IPlayer>.Equals` explicitly. The call `player.Equals(each)` in
  `AcceptClient` therefore binds to `object.Equals`, which is reference
  equality. The model compares ids (`Players.Player.Equals`). The two agree
  on every collection the acceptor keeps, because ids are unique there
  (`Server.UniqueIdsMakeEqualsIdentity`). The acceptor rows below rely on this.
- **The identified endpoint.** `remoteIdentifiedEndPoint` is declared as a
  plain endpoint in `Player`, but `GameServer` tests it with `HasValue`. The
  model gives it the type `Option<EndPoint>`.

## Model

| member | source | states |
|---|---|---|
| Acceptor.ClientAcceptor.NetworkServerDidAcceptPlayer | GameNetworkingLib/Sources/GameNetworking/Server/GameServerClientAcceptor.cs:59-67 | The new player is a new object whose id is the counter's old value; the counter grows by one. The player holds both channels and listens to the reliable one. The reliable channel maps to the player. The player is appended to the collection and its listener is the router. One connect notification is queued. The trace grows by the announcements to the whole new collection. The acceptor's invariant is kept: unique ids all below the counter, distinct channels, every player configured. |
| Acceptor.ClientAcceptor.Register | GameNetworkingLib/Sources/GameNetworking/Server/GameServerClientAcceptor.cs:60-64 | The bookkeeping before the announcements. The id is the old counter value, which no stored player has. The counter is incremented. The channel map gains `reliable := player`, and the reliable channel belongs to no stored player. |
| Acceptor.NewPlayer | GameNetworkingLib/Sources/GameNetworking/Server/GameServerClientAcceptor.cs:60-62 | A new player with the given id and both channels. Its reliable channel's listener is the player. It has no router listener and no identified endpoint yet. |
| Acceptor.ClientAcceptor.AcceptClient | GameNetworkingLib/Sources/GameNetworking/Server/GameServerClientAcceptor.cs:23-48 | The server stores the player before any announcement is sent: the collection becomes old + [player] and the notification is queued. Then the trace grows by `Announcements(player, collection)` over the new collection. The invariant is kept. |
| Acceptor.Announce | GameNetworkingLib/Sources/GameNetworking/Server/GameServerClientAcceptor.cs:27-45 | The loop appends exactly `Announcements(newcomer, players)`, in collection order. |
| Acceptor.AnnouncementsToOther | GameNetworkingLib/Sources/GameNetworking/Server/GameServerClientAcceptor.cs:27-35 | Every collection player whose channel is not the newcomer's receives exactly one message on its reliable channel: the newcomer's id, with `isMe` equal to whether the two players are equal. |
| Acceptor.AnnouncementsToNewcomer | GameNetworkingLib/Sources/GameNetworking/Server/GameServerClientAcceptor.cs:37-45 | The newcomer receives one message per collection entry, in collection order, on its reliable channel. Message i carries entry i's id, with `isMe` true exactly when entry i equals the newcomer. |
| Acceptor.AcceptAnnouncesBothWays | GameNetworkingLib/Sources/GameNetworking/Server/GameServerClientAcceptor.cs:23-45 | In a valid collection that ends with the newcomer, each earlier player receives exactly `[ConnectedPlayerMessage(newId, false)]`. The newcomer receives `count` messages: the earlier players' ids with `isMe` false, in order, then its own id with `isMe` true. |
| Acceptor.AnnouncementsMissOthers | GameNetworkingLib/Sources/GameNetworking/Server/GameServerClientAcceptor.cs:27-45 | A reliable channel owned neither by the newcomer nor by a collection player receives no announcement. |
| Server.UniqueIdsMakeEqualsIdentity | GameNetworkingLib/Sources/GameNetworking/Server/GameServerClientAcceptor.cs:33-37 | In a collection with unique ids, two players are equal by id exactly when they are the same object. The model's id equality therefore agrees with the reference equality the acceptor's `Equals` calls use. |
| Acceptor.ClientAcceptor.Disconnect | GameNetworkingLib/Sources/GameNetworking/Server/GameServerClientAcceptor.cs:50-57 | Disconnecting null changes no collection, queue or trace. Disconnecting a player clears its listener and removes its id. It queues one notification. The trace then gets the endpoint unregistration, if the player had an endpoint, followed by the reliable broadcast of `DisconnectedPlayerMessage(id)` to the remaining players. |
| Acceptor.ClientAcceptor.DisconnectPlayer | GameNetworkingLib/Sources/GameNetworking/Server/GameServerClientAcceptor.cs:53-56 | The listener removes the player first, and only then is the broadcast sent, to the players that remain. The acceptor invariant is kept. |
| Acceptor.ClientAcceptor.RemoveFromServer | GameNetworkingLib/Sources/GameNetworking/Server/GameServerClientAcceptor.cs:54 | The server's removal keeps the acceptor's invariant: ids stay unique and below the counter, and channels stay distinct. |
| Acceptor.DepartureReachesTheOthersOnly | GameNetworkingLib/Sources/GameNetworking/Server/GameServerClientAcceptor.cs:55 | In a valid collection, the departure broadcast writes nothing to the departed player's channel. It writes exactly `[DisconnectedPlayerMessage(id)]` to every other player's channel. |
| Acceptor.ClientAcceptor.NetworkServerPlayerDidDisconnect | GameNetworkingLib/Sources/GameNetworking/Server/GameServerClientAcceptor.cs:69-73 | The channel leaves the map. An unmapped channel changes nothing else, so a second disconnect of the same channel is a no-op. A mapped channel's player is disconnected exactly as `Disconnect` states. |
| Server.GameServer.Update | GameNetworkingLib/Sources/GameNetworking/Server/GameServer.cs:77-81 | Only the ping-controller update is logged, and the collection is unchanged. |
| Server.GameServer.SendBroadcast | GameNetworkingLib/Sources/GameNetworking/Server/GameServer.cs:83-94 | The trace grows by exactly `Broadcast(players, message, channel)`, taken over the collection before the call. |
| Server.BroadcastSendsToEachInOrder | GameNetworkingLib/Sources/GameNetworking/Server/GameServer.cs:83-94 | A broadcast has one call per player: call i is player i's send on the requested channel. |
| Server.BroadcastReachesEachPlayerOnce | GameNetworkingLib/Sources/GameNetworking/Server/GameServer.cs:83-94 | When channels are distinct, every player's reliable channel receives the message exactly once. |
| Server.BroadcastMissesOthers | GameNetworkingLib/Sources/GameNetworking/Server/GameServer.cs:83-94 | A channel no player owns receives nothing from a broadcast. |
| Server.GameServer.SendBroadcastWhere | GameNetworkingLib/Sources/GameNetworking/Server/GameServer.cs:96-107 | The trace grows by exactly `BroadcastWhere(players, accepts, message, channel)` over the collection before the call. |
| Server.BroadcastWhereIsBroadcastToFiltered | GameNetworkingLib/Sources/GameNetworking/Server/GameServer.cs:96-107 | The predicate overload is the plain broadcast to the accepted players, in collection order. |
| Server.BroadcastWhereReachesExactlyTheAccepted | GameNetworkingLib/Sources/GameNetworking/Server/GameServer.cs:96-107 | Each accepted player's reliable channel receives the message once. A rejected player's channel receives nothing. |
| Server.FilterKeepsTheAccepted | GameNetworkingLib/Sources/GameNetworking/Server/GameServer.cs:99-106 | The filtered players are collection players that the predicate accepts, and every accepted player is kept. |
| Server.FilterKeepsDistinctChannels | GameNetworkingLib/Sources/GameNetworking/Server/GameServer.cs:96-107 | Filtering keeps the reliable channels distinct. |
| Server.GameServer.ClientAcceptorPlayerDidConnect | GameNetworkingLib/Sources/GameNetworking/Server/GameServer.cs:109-115 | The player's listener becomes the router and the player is appended under its fresh id. Exactly one connect notification is queued. Ids stay unique and every player stays configured. |
| Server.GameServer.ClientAcceptorPlayerDidDisconnect | GameNetworkingLib/Sources/GameNetworking/Server/GameServer.cs:117-124 | The listener is cleared and the collection becomes `RemoveId(old, id)`. The endpoint is unregistered only when one was identified. Exactly one notification is queued. The invariant is kept. |
| Server.RemoveIdKeepsTheOthers | GameNetworkingLib/Sources/GameNetworking/Server/GameServer.cs:121 | Removing an id keeps exactly the players with other ids. |
| Server.RemoveIdKeepsInvariants | GameNetworkingLib/Sources/GameNetworking/Server/GameServer.cs:121 | Removal keeps unique ids, distinct channels and configured players. |
| Server.RemoveIdRemovesOne | GameNetworkingLib/Sources/GameNetworking/Server/GameServer.cs:121 | With unique ids, removing a present id shortens the collection by exactly one. |
| Server.RemoveIdKeepsAbsent | GameNetworkingLib/Sources/GameNetworking/Server/GameServer.cs:121 | Removing an id that no player has leaves the collection as it was. |
| Server.GameServer.NetworkServerDidReceiveUnidentifiedMessage | GameNetworkingLib/Sources/GameNetworking/Server/GameServer.cs:138-149 | One NAT-identifier task is queued exactly when the container's type is `natIdentifier`. Any other type has no effect. |
| Players.Player.constructor | GameNetworkingLib/Sources/GameNetworking/Player.cs:35 | A new player's last pong time is the creation time. It has no channels, no endpoint and no listener. |
| Players.Player.ConfigureId | GameNetworkingLib/Sources/GameNetworking/Player.cs:39 | Sets the id and nothing else. |
| Players.Player.ConfigureChannels | GameNetworkingLib/Sources/GameNetworking/Player.cs:40-45 | Stores both channels and makes the player the reliable channel's listener. |
| Players.Player.SendCall | GameNetworkingLib/Sources/GameNetworking/Player.cs:51-56 | A reliable send goes to the reliable channel only. An unreliable send goes to the unreliable channel only, addressed to `remoteIdentifiedEndPoint`. The message is unchanged. |
| Players.Player.Send | GameNetworkingLib/Sources/GameNetworking/Player.cs:51-56 | Exactly one call is logged, the one `SendCall` describes. |
| Players.Player.Disconnect | GameNetworkingLib/Sources/GameNetworking/Player.cs:58-60 | Exactly one call is logged: the close of the reliable channel. |
| Players.EqualsIsConsistentWithHash | GameNetworkingLib/Sources/GameNetworking/Player.cs:66-67 | Id equality is reflexive, symmetric and transitive. Two players are equal exactly when their hashes are equal. |
| Players.Player.ChannelDidReceiveMessage | GameNetworkingLib/Sources/GameNetworking/Player.cs:71-73 | With a listener, the container goes to it with this player as the sender. Without one, nothing happens. |
| Players.Player.NetworkServerDidReceiveMessage | GameNetworkingLib/Sources/GameNetworking/Player.cs:75-77 | The same forwarding for a datagram. |
| Pong.PongRequestExecutor.Execute | GameNetworkingLib/Sources/GameNetworking/Server/Executors/PongRequestExecutor.cs:16-25 | `PongReceived(player)` comes first. It is followed by exactly `PingResults(player, collection)`, taken over the collection before the call. The collection itself cannot change. |
| Pong.PingResultsAreAddressedInOrder | GameNetworkingLib/Sources/GameNetworking/Server/Executors/PongRequestExecutor.cs:20-24 | There are `count` results. Result i is an unreliable send to the ponging player's channel and endpoint, carrying entry i's id and ping value. |
| Client.ClientPlayer.constructor | GameNetworkingLib/Sources/GameNetworking/Player.cs:96 | The creation time counts as the last ping request. |
| Client.ClientPlayer.Configure | GameNetworkingLib/Sources/GameNetworking/Player.cs:98-101 | Sets `playerId` and `isLocalPlayer` and nothing else. |
| Client.GameClient.constructor | GameNetworkingLib/Sources/GameNetworking/Client/GameClient.cs:56-62 | The router is configured with the new client. The client has no players, no local player and no listener. |
| Client.GameClient.Connect | GameNetworkingLib/Sources/GameNetworking/Client/GameClient.cs:64 | Forwards host and port unchanged. |
| Client.GameClient.Disconnect | GameNetworkingLib/Sources/GameNetworking/Client/GameClient.cs:65 | Forwards the disconnect. |
| Client.GameClient.Send | GameNetworkingLib/Sources/GameNetworking/Client/GameClient.cs:66 | Forwards the message and the channel unchanged. |
| Client.GameClient.Update | GameNetworkingLib/Sources/GameNetworking/Client/GameClient.cs:68-70 | Flushes the network client. |
| Client.GameClient.NetworkClientDidConnect | GameNetworkingLib/Sources/GameNetworking/Client/GameClient.cs:72-83 | The listener hears `DidConnect(reliable)`. When the address lookup succeeds, the client sends the NAT request (that address, the endpoint's port) reliably. When it fails (no address, the null the caller tests for), the client disconnects. This is the corrected behaviour (see Findings). |
| Client.GameClient.NetworkClientDidConnectAsWritten | GameNetworkingLib/Sources/GameNetworking/Client/GameClient.cs:72-83 | With the lookup as written, a NAT request is always sent, for the empty address when the lookup failed, and the client never disconnects. |
| Client.ExternalIpAsWritten | GameNetworkingLib/Sources/GameNetworking/Client/GameClient.cs:112-133 | As written, the result is never null. A successful lookup returns what was found. |
| Client.FailedLookupIsNotNullAsWritten | GameNetworkingLib/Sources/GameNetworking/Client/GameClient.cs:132 | As written, a failed lookup yields the empty address, not null. |
| Client.GameClient.NetworkClientConnectDidTimeout | GameNetworkingLib/Sources/GameNetworking/Client/GameClient.cs:85 | Only the listener hears of the timeout, and only when there is one. |
| Client.GameClient.NetworkClientDidReceiveMessage | GameNetworkingLib/Sources/GameNetworking/Client/GameClient.cs:86 | The router decides the effect: exactly the routed tasks are queued and the forwarded events reported. The players, the local player and the network calls are unchanged. |
| Client.GameClient.NetworkClientDidDisconnect | GameNetworkingLib/Sources/GameNetworking/Client/GameClient.cs:88-92 | The listener hears of the disconnect. The collection becomes empty and the local player becomes null. |
| Client.GameClient.RemoteClientDidConnect | GameNetworkingLib/Sources/GameNetworking/Client/GameClient.cs:94-105 | A new player with the given id and flag is stored under that id, and no other entry changes. It becomes the local player if and only if `isLocalPlayer` holds; otherwise the local player is unchanged. `PlayerDidConnect` is reported first, then `DidIdentifyLocalPlayer`, the latter only for the local player. |
| Client.GameClient.RemoteClientDidDisconnect | GameNetworkingLib/Sources/GameNetworking/Client/GameClient.cs:107-110 | Exactly that id leaves the collection. The listener is told which player was removed, or none for an unknown id. The local player is not touched. |
| Client.ExecutorFor | GameNetworkingLib/Sources/GameNetworking/Client/GameClientMessageRouter.cs:29-33 | An executor exists exactly for `connectedPlayer`, `ping`, `pingResult` and `disconnectedPlayer`. |
| Client.ExecutorForMatchesHandledType | GameNetworkingLib/Sources/GameNetworking/Client/GameClientMessageRouter.cs:44-77 | An executor is chosen for exactly the type it decodes, so the map from type to executor is injective. |
| Client.RouteQueuesOrForwards | GameNetworkingLib/Sources/GameNetworking/Client/GameClientMessageRouter.cs:28-36 | A message is queued as one executor or forwarded, never both. Exactly the four handled types are queued. With a listener, every message does one of the two. |
| Client.GameClientMessageRouter.Configure | GameNetworkingLib/Sources/GameNetworking/Client/GameClientMessageRouter.cs:24-26 | Sets the client the router serves. |
| Client.GameClientMessageRouter.Route | GameNetworkingLib/Sources/GameNetworking/Client/GameClientMessageRouter.cs:28-36 | The queue grows by exactly the routed tasks. An unhandled type reaches the client's listener if there is one and is dropped otherwise. Nothing else of the client changes and nothing is executed. |
| Connection.UnreliableClientConnectionController.constructor | GameNetworkingLib/Sources/GameNetworking/PublicAPI/Unreliable/Client/UnreliableClientConnectionController.cs:17-24 | The initial state is not connecting, 0 retries and start time -1. The defaults are 3 seconds between retries and 3 retries. |
| Connection.ConnectStep | GameNetworkingLib/Sources/GameNetworking/PublicAPI/Unreliable/Client/UnreliableClientConnectionController.cs:31-38 | While connecting it is a no-op. Otherwise it sets connecting, resets the retries to 0, records the start time and sends exactly one connect message. |
| Connection.UnreliableClientConnectionController.Connect | GameNetworkingLib/Sources/GameNetworking/PublicAPI/Unreliable/Client/UnreliableClientConnectionController.cs:31-38 | The new state and effects are those of `ConnectStep`. The retry bound is kept. |
| Connection.ReceivedConnectedStep | GameNetworkingLib/Sources/GameNetworking/PublicAPI/Unreliable/Client/UnreliableClientConnectionController.cs:40-42 | Only the flag is cleared. |
| Connection.UnreliableClientConnectionController.ReceivedConnected | GameNetworkingLib/Sources/GameNetworking/PublicAPI/Unreliable/Client/UnreliableClientConnectionController.cs:40-42 | The new state is `ReceivedConnectedStep` of the old one. |
| Connection.UpdateCases | GameNetworkingLib/Sources/GameNetworking/PublicAPI/Unreliable/Client/UnreliableClientConnectionController.cs:44-56 | Before the interval, nothing changes and nothing is sent. After the interval with retries left, the retry count goes up by one, the timer restarts and exactly one message is sent. After the interval with no retries left, the flag is cleared, the timeout is dispatched and nothing is sent. |
| Connection.UnreliableClientConnectionController.Update | GameNetworkingLib/Sources/GameNetworking/PublicAPI/Unreliable/Client/UnreliableClientConnectionController.cs:44-56 | The new state and effects are those of `UpdateStep`. The retry bound is kept. |
| Connection.RetryCountStaysBounded | GameNetworkingLib/Sources/GameNetworking/PublicAPI/Unreliable/Client/UnreliableClientConnectionController.cs:33-55 | No step takes `retryCount` outside `0..maximumNumberOfRetries`. |
| Connection.UpdatesSendTheRemainingRetries | GameNetworkingLib/Sources/GameNetworking/PublicAPI/Unreliable/Client/UnreliableClientConnectionController.cs:44-56 | Any run of updates sends at most `max - retryCount` messages before a timeout, and exactly that many when the timeout comes. |
| Connection.ConnectSendsOnePlusMaxBeforeTimeOut | GameNetworkingLib/Sources/GameNetworking/PublicAPI/Unreliable/Client/UnreliableClientConnectionController.cs:31-56 | With no acknowledgement, a connect followed by any updates sends at most `1 + max` messages before the first timeout, and exactly `1 + max` when it fires. |
| Connection.TimeOutFiresAgain | GameNetworkingLib/Sources/GameNetworking/PublicAPI/Unreliable/Client/UnreliableClientConnectionController.cs:44-49 | Once the retries are spent, the timeout fires on the next update and again on every later one, because the timer is not reset. |
| Connection.UpdateIgnoresTheFlag | GameNetworkingLib/Sources/GameNetworking/PublicAPI/Unreliable/Client/UnreliableClientConnectionController.cs:40-49 | After `ReceivedConnected`, an update has the same effects as before it, because the flag is never read. |
| Connection.UnreliableClientConnectionController.DispatchTimeOut | GameNetworkingLib/Sources/GameNetworking/PublicAPI/Unreliable/Client/UnreliableClientConnectionController.cs:60-62 | One timeout effect. |
| Connection.UnreliableClientConnectionController.Send | GameNetworkingLib/Sources/GameNetworking/PublicAPI/Unreliable/Client/UnreliableClientConnectionController.cs:64-66 | One connect message sent. |
| Legacy.ConnectedPlayerExecutor.Execute | GameNetworkingLib/Sources/GameNetworking/PublicAPI/Client/Executors/ConnectedPlayerExecutor.cs:15-27 | The new player copies the message's id and `isMe`. With `isMe`, it becomes the client's player and the list is unchanged. Otherwise it is appended and the client's player is unchanged. Exactly one of the two happens. |
| Legacy.NetworkPlayer.constructor | GameNetworkingLib/Sources/GameNetworking/PublicAPI/Client/Executors/ConnectedPlayerExecutor.cs:18-21 | The object initialiser sets the id and the local flag. |
| Legacy.LegacyGameClient.AddPlayer | GameNetworkingLib/Sources/GameNetworking/PublicAPI/Client/Executors/ConnectedPlayerExecutor.cs:25 | The generic client's `AddPlayer` adds the player to its player store, modelled as a sequence to which the player is appended. |
| Storage.NetworkPlayersStorage.constructor | GameServerLib/Sources/GameNetworking/Models/NetworkPlayersStorage.cs:20-22 | A new store is empty. |
| Storage.NetworkPlayersStorage.Add | GameServerLib/Sources/GameNetworking/Models/NetworkPlayersStorage.cs:24-29 | The player goes at the end, and the notices grow by one add notice per delegate, in delegate order. |
| Storage.Notices | GameServerLib/Sources/GameNetworking/Models/NetworkPlayersStorage.cs:26-28 | One notice per delegate: notice i goes to delegate i and names the player. |
| Storage.NetworkPlayersStorage.Remove | GameServerLib/Sources/GameNetworking/Models/NetworkPlayersStorage.cs:31-36 | The list loses the first occurrence of the player, if any. Every delegate is notified even when the player was absent. |
| Storage.RemoveFirstCutsTheFirstOccurrence | GameServerLib/Sources/GameNetworking/Models/NetworkPlayersStorage.cs:32 | Removing a present player cuts out exactly its first occurrence and keeps the rest in order. Removing an absent one changes nothing. |
| Storage.RemoveFirstTakesOneCopy | GameServerLib/Sources/GameNetworking/Models/NetworkPlayersStorage.cs:32 | As multisets, removal takes away one copy of the player and nothing else. |
| Storage.NetworkPlayersStorage.ForEach | GameServerLib/Sources/GameNetworking/Models/NetworkPlayersStorage.cs:38-40 | The action runs on each player in list order, and the list is unchanged. |
| Storage.NetworkPlayersStorage.ForEachConverted | GameServerLib/Sources/GameNetworking/Models/NetworkPlayersStorage.cs:42-46 | The action runs on each converted player in list order. |
| Storage.MapMap | GameServerLib/Sources/GameNetworking/Models/NetworkPlayersStorage.cs:42-46 | Converting and then acting is the same as acting with the composition. |
| Storage.NetworkPlayersStorage.ConvertAll | GameServerLib/Sources/GameNetworking/Models/NetworkPlayersStorage.cs:48-50 | One converted value per player, with the same length and order. |
| Storage.NetworkPlayersStorage.Find | GameServerLib/Sources/GameNetworking/Models/NetworkPlayersStorage.cs:52-54 | The result is null exactly when no player matches. Otherwise it is the first matching player of the list: it sits at an index before which no player matches. |
| Storage.FirstMatch | GameServerLib/Sources/GameNetworking/Models/NetworkPlayersStorage.cs:52-54 | The result is the first matching element: every element before it fails the predicate. |
| Storage.NetworkPlayersStorage.FindAll | GameServerLib/Sources/GameNetworking/Models/NetworkPlayersStorage.cs:56-58 | Only matching players of the list, and every matching player. Each matching player occurs as many times as in the list, and no non-matching player occurs. The list order is kept, by `Storage.FilterAppend`. |
| Storage.FilterKeepsTheMatching | GameServerLib/Sources/GameNetworking/Models/NetworkPlayersStorage.cs:56-58 | Every kept element is an element of the list that the predicate accepts, and every accepted element is kept. |
| Storage.FilterKeepsExactlyTheMatching | GameServerLib/Sources/GameNetworking/Models/NetworkPlayersStorage.cs:56-58 | A matching element is kept exactly as often as it occurs, and a non-matching one never. |
| Storage.FilterAppend | GameServerLib/Sources/GameNetworking/Models/NetworkPlayersStorage.cs:56-58 | Filtering distributes over concatenation, so relative order is kept. |
| Storage.NetworkPlayersStorage.ConvertFindingAll | GameServerLib/Sources/GameNetworking/Models/NetworkPlayersStorage.cs:60-64 | The one-pass loop yields exactly `ConvertAll` over `FindAll`, in order. |
| Framing.MessageStreamReader.constructor | GameServerLib/Sources/Messages/Streams/MessageStreamReader.cs:10-12 | A new reader has an empty buffer. |
| Framing.MessageStreamReader.Add | GameServerLib/Sources/Messages/Streams/MessageStreamReader.cs:14-17 | Null leaves the buffer unchanged. Bytes are appended to it. |
| Framing.MessageStreamReader.Decode | GameServerLib/Sources/Messages/Streams/MessageStreamReader.cs:19-28 | With no delimiter in the buffer, the result is null and the buffer is unchanged. Otherwise the result is the one frame before the first delimiter, and the buffer keeps what follows that delimiter: old buffer == frame + delimiter + new buffer. |
| Framing.FindFrom | GameServerLib/Sources/Messages/Streams/MessageStreamReader.cs:20 | The delimiter search returns -1 or an occurrence, and there is no earlier occurrence. |
| Framing.FoundInPrefix | GameServerLib/Sources/Messages/Streams/MessageStreamReader.cs:20 | A delimiter found in a buffer stays the first one once more bytes arrive. |
| Framing.FoundAtEnd | GameServerLib/Sources/Messages/Streams/MessageStreamReader.cs:19-28 | A delimiter completed by one new byte ends at that byte. |
| Framing.SplitAtCompletedFrame | GameServerLib/Sources/Messages/Streams/MessageStreamReader.cs:19-28 | The frame cut when a byte completes a delimiter is the first frame of the whole stream, and the buffer left over is empty. |
| Framing.FeedSplits | game-server-lib-tests/Tests/IO/IOTests.cs:134-155 | Feeding a stream one byte at a time yields the same frames as splitting the whole stream. |
| Framing.FeedOne | game-server-lib-tests/Tests/IO/IOTests.cs:137-138 | One `Add` and `Decode` of the test loop yields the start of what feeding the rest yields. |
| Framing.FeedByteAtATime | game-server-lib-tests/Tests/IO/IOTests.cs:134-155 | The test loop's frames are exactly the frames of the whole data. |
| Framing.SplitJoin | game-server-lib-tests/Tests/IO/IOTests.cs:126-130 | Frames written back to back, each followed by the delimiter, split back into themselves with nothing left over. |
| Framing.StreamFrames | game-server-lib-tests/Tests/IO/IOTests.cs:126-155 | The frames written, fed one byte at a time, come back in order. |
| Messages.DecodeNatIdentifierRequest | GameNetworkingLib/Sources/GameNetworking/Client/Messages/NatIdentifierRequestMessage.cs:11-14 | Decoding succeeds exactly when a string and then an int come next. It consumes exactly those two primitives. |
| Messages.NatIdentifierRequestRoundTrip | GameNetworkingLib/Sources/GameNetworking/Client/Messages/NatIdentifierRequestMessage.cs:11-19 | Decoding the encoding reproduces `remoteIp` and `port`, after exactly two primitives, whatever follows. |
| Messages.CodedMessageTypes | GameNetworkingLib/Sources/GameNetworking/Client/Messages/NatIdentifierRequestMessage.cs:6-9 | Each message has its class's type tag, and the connect response has the connect request's tag. |
| Messages.DecodeDisconnectedPlayer | GameNetworkingLib/Sources/GameNetworking/PublicAPI/Server/Messages/DisconnectedPlayerMessage.cs:10-12 | Succeeds exactly when an int comes next. It reads that one int as `playerId`. |
| Messages.DisconnectedPlayerRoundTrip | GameNetworkingLib/Sources/GameNetworking/PublicAPI/Server/Messages/DisconnectedPlayerMessage.cs:10-16 | Decoding the encoding reproduces `playerId`, after exactly one primitive. |
| Messages.UnreliableConnectResponseRoundTrip | GameNetworkingLib/Sources/GameNetworking/PublicAPI/Unreliable/Server/Messages/UnreliableConnectResponseMessage.cs:8-10 | Encoding writes nothing. Decoding consumes nothing, never fails, and gives back the message. |
| Codables.DecodeLoginRequest | game-server-lib-tests/Tests/IO/IOTests.cs:182-185 | Succeeds exactly when two strings come next, and consumes both. |
| Codables.LoginRequestRoundTrip | game-server-lib-tests/Tests/IO/IOTests.cs:177-185 | Both strings come back, in their order. |
| Codables.MatchRequestRoundTrip | game-server-lib-tests/Tests/IO/IOTests.cs:188-192 | Nothing is written and nothing is read. |
| Codables.DecodeConnectGameInstanceResponse | game-server-lib-tests/Tests/IO/IOTests.cs:205-209 | Succeeds exactly when two strings and then a short come next, and consumes three primitives. |
| Codables.ConnectGameInstanceResponseRoundTrip | game-server-lib-tests/Tests/IO/IOTests.cs:199-209 | The token, the address and the port come back. |
| Codables.DecodeSubValue | game-server-lib-tests/Tests/IO/IOTests.cs:267-272 | A decoded `SubValue` has a fresh `subSubValue` and consumes four primitives. |
| Codables.SubValueRoundTrip | game-server-lib-tests/Tests/IO/IOTests.cs:258-272 | The four written fields come back, and `subSubValue`, which is not written, comes back fresh. |
| Codables.DecodeValue | game-server-lib-tests/Tests/IO/IOTests.cs:238-248 | A successful decode consumes twelve primitives. |
| Codables.ValueRoundTrip | game-server-lib-tests/Tests/IO/IOTests.cs:226-248 | All eight scalar fields and the nested value's written fields come back. |
| Codables.FreshNestedValueRoundTrip | game-server-lib-tests/Tests/IO/IOTests.cs:46-73 | For a value whose nested `subSubValue` is fresh, as in the encoder/decoder test, decoding the encoding succeeds and gives back an equal value. The sub-values compare equal, and `subSubValue.empty` is null on both sides. |
| Codables.FixtureValueRoundTrip | game-server-lib-tests/Tests/IO/IOTests.cs:46-73 | On the test's own fixture (the field initialisers of `Value` and `SubValue`: 1 to 6, the two Portuguese strings, the UTF-8 bytes of the second, "Meu nome", 30, 1.95f, 110f), decoding the encoding succeeds and gives back an equal value. The sub-values compare equal and the nested `empty` is null. |

## Findings

| source | as written | input that shows it | evidently intended | confidence | as-written member | corrected member |
|---|---|---|---|---|---|---|
| GameNetworkingLib/Sources/GameNetworking/Client/GameClient.cs:132 | `GetExternalIpWithTimeout` returns the empty string when every site fails. The caller's `externalIp != null` test at line 76 therefore always passes, and its `Disconnect()` branch cannot run. | Every lookup site fails or times out: the client sends a NAT-identification request for the address `""` and stays connected. | Return null on failure, so that the client disconnects, as the caller's else branch shows. | not executed; follows from lines 76 and 132 alone | Client.FailedLookupIsNotNullAsWritten | Client.GameClient.NetworkClientDidConnect |

`Client.ExternalIpAsWritten` and `Client.GameClient.NetworkClientDidConnectAsWritten`
model the code as written. The lemma `Client.FailedLookupIsNotNullAsWritten`
exhibits the failing case. The corrected behaviour,
`Client.GameClient.NetworkClientDidConnect`, takes the lookup's outcome as
null exactly when every site fails, and disconnects in that case.

## Left out

- The HTTP lookups of `GetExternalIpWithTimeout` are not modelled. Their outcome is a parameter (`answer`), and only the null-or-address result is modelled.
- Socket I/O is not modelled: `NetworkClient`, the reliable and unreliable socket wrappers, the static channel IO registry, and the test socket mocks. Channels are identity objects, and sends, closes and unregistrations are recorded calls.
- Threads are not modelled: the `ThreadChecker` assertions and the cross-thread dispatcher. The dispatcher is a FIFO queue whose actions are not run.
- Wall-clock time is not modelled. `TimeUtils.CurrentTime` and `DateTime.Now` become an integer `now` parameter in whole seconds, and `secondsBetweenRetries` is an integer.
- Floating point is not modelled. Ping values and `SubValue.height`/`weight` are carried as 32-bit patterns and never interpreted.
- The encoder's byte layout and the `MessageStreamWriter` framing are not modelled. A message is a sequence of tagged primitives, and the delimiter is any fixed non-empty byte sequence.
- `GameServer`'s forwarding of accept and disconnect to its acceptor (GameServer.cs lines 126-136) is one call each and is not modelled separately.
- The ping and disconnected-player executors that the client router queues are not run. Only the routing decision is modelled.
- `WeakDelegates` liveness is not modelled: every registered delegate is notified.
- Logging and the tests' `Measure` timing are not modelled.
- Acceptor.ClientAcceptor.NetworkServerDidAcceptPlayer: requires `playerIdCounter < Int32Max`. It does not model the wrap-around of the C# `int` counter after 2^31 - 1 accepts, where ids would repeat.
- Acceptor.ClientAcceptor.NetworkServerDidAcceptPlayer: requires that the reliable channel belongs to no stored player. The network server hands each new connection a new channel, so this holds in practice.
- Server.GameServer.ClientAcceptorPlayerDidConnect: requires that the player's id is fresh. It does not model `PlayerCollection.Add` on a duplicate key, which the counter rules out while it does not wrap.
- Client.GameClient.RemoteClientDidConnect: a repeated id replaces the stored player. `PlayerCollection.Add` is not part of this model, and what it does on a duplicate key is unknown.
- Legacy.ConnectedPlayerExecutor.Execute: the `created` out-parameter exposes the new player so that the contract can name it. The C# method returns nothing.
- Legacy.LegacyGameClient.AddPlayer: the generic `GameClient<PlayerType>` keeps its other players in an id-keyed `NetworkPlayersStorage<PlayerType>`, whose source is not part of this model. The store is abstracted as the sequence of players added, in order, so lookup by id and replacement on a repeated id are not captured.
- Framing.MessageStreamReader.Decode: `CoderHelper.PackageBytes` and `CoderHelper.SliceBuffer` are not part of this model. The model takes `PackageBytes(i, buffer)` to be the bytes before the delimiter at `i`. It takes `SliceBuffer(i, buffer)` to drop those bytes and the delimiter. The returned `MessageContainer` is modelled as its raw frame bytes. `Framing.SplitJoin` and `Framing.StreamFrames` rest on these readings.
- Codables.ValueRoundTrip: the nested codable is written inline, since the encoder's nesting layout is not part of this model.

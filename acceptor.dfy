/**
 * `GameServerClientAcceptor`: gives each accepted connection the next
 * player id, maps its reliable channel to the new player, announces the
 * newcomer to everyone and everyone to the newcomer, and on a disconnect
 * removes the player and tells the remaining players.
 */
module Acceptor {
  import opened Wrappers
  import opened Codec
  import opened Messages
  import opened Dispatch
  import opened Players
  import opened Server

  /**
   * One step of `AcceptClient`'s loop: `each` learns that `newcomer`
   * connected (`isMe` when they are the same player), and unless they are
   * the same player, the newcomer learns about `each`.
   */
  function AnnounceTo(newcomer: Player, each: Player): seq<Call>
    requires newcomer.CanSend(Reliable) && each.CanSend(Reliable)
    reads newcomer, each
  {
    [each.SendCall(ConnectedPlayerMessage(newcomer.playerId, newcomer.Equals(each)), Reliable)]
      + if each.Equals(newcomer) then []
        else [newcomer.SendCall(ConnectedPlayerMessage(each.playerId, false), Reliable)]
  }

  /** The calls `AcceptClient` makes for the collection `ps`, in collection order. */
  function Announcements(newcomer: Player, ps: seq<Player>): seq<Call>
    requires newcomer.CanSend(Reliable)
    requires forall i :: 0 <= i < |ps| ==> ps[i].CanSend(Reliable)
    reads newcomer, ps
    decreases |ps|
  {
    if ps == [] then []
    else Announcements(newcomer, ps[..|ps| - 1]) + AnnounceTo(newcomer, ps[|ps| - 1])
  }

  /** A channel that neither the newcomer nor any player of `ps` owns hears nothing. */
  lemma {:induction false} AnnouncementsMissOthers(newcomer: Player, ps: seq<Player>, ch: ReliableChannel)
    requires newcomer.CanSend(Reliable) && AllConfigured(ps)
    requires newcomer.reliableChannel != ch
    requires forall i :: 0 <= i < |ps| ==> ps[i].reliableChannel != ch
    ensures ReceivedOn(Announcements(newcomer, ps), ch) == []
    decreases |ps|
  {
    if ps != [] {
      var init := ps[..|ps| - 1];
      AnnouncementsMissOthers(newcomer, init, ch);
      ReceivedOnAppend(Announcements(newcomer, init), AnnounceTo(newcomer, ps[|ps| - 1]), ch);
      ReceivedOnOfTwo(AnnounceTo(newcomer, ps[|ps| - 1]), ch);
    }
  }

  /** `ReceivedOn` of at most two calls, spelled out. */
  lemma ReceivedOnOfTwo(calls: seq<Call>, ch: ReliableChannel)
    requires |calls| <= 2
    ensures ReceivedOn(calls, ch) ==
      (if |calls| >= 1 && calls[0].ReliableSend? && calls[0].channel == ch then [calls[0].message] else [])
      + (if |calls| == 2 && calls[1].ReliableSend? && calls[1].channel == ch then [calls[1].message] else [])
  {
    if |calls| == 2 {
      assert calls[..1][..0] == [];
    } else if |calls| == 1 {
      assert calls[..0] == [];
    }
  }

  /**
   * A player of the collection other than the newcomer receives exactly one
   * announcement: the newcomer's id, flagged as not itself.
   */
  lemma {:induction false} AnnouncementsToOther(newcomer: Player, ps: seq<Player>, k: nat)
    requires newcomer.CanSend(Reliable) && AllConfigured(ps) && DistinctChannels(ps) && k < |ps|
    requires newcomer.reliableChannel != ps[k].reliableChannel
    ensures ReceivedOn(Announcements(newcomer, ps), ps[k].reliableChannel)
            == [ConnectedPlayerMessage(newcomer.playerId, newcomer.Equals(ps[k]))]
    decreases |ps|
  {
    var init := ps[..|ps| - 1];
    var last := ps[|ps| - 1];
    var ch := ps[k].reliableChannel;
    assert forall i :: 0 <= i < |init| ==> init[i] == ps[i];
    ReceivedOnAppend(Announcements(newcomer, init), AnnounceTo(newcomer, last), ch);
    if k == |ps| - 1 {
      assert ReceivedOn(AnnounceTo(newcomer, last), ch)
             == [ConnectedPlayerMessage(newcomer.playerId, newcomer.Equals(last))] by {
        ReceivedOnOfTwo(AnnounceTo(newcomer, last), ch);
      }
      AnnouncementsMissOthers(newcomer, init, ch);
    } else {
      assert ReceivedOn(AnnounceTo(newcomer, last), ch) == [] by {
        ReceivedOnOfTwo(AnnounceTo(newcomer, last), ch);
      }
      AnnouncementsToOther(newcomer, init, k);
    }
  }

  /**
   * The newcomer receives one announcement per player of the collection, in
   * collection order: that player's id, flagged as itself only for itself.
   */
  lemma {:induction false} AnnouncementsToNewcomer(newcomer: Player, ps: seq<Player>)
    requires newcomer.CanSend(Reliable) && AllConfigured(ps)
    requires forall i :: 0 <= i < |ps| ==>
               (ps[i].reliableChannel == newcomer.reliableChannel <==> ps[i].Equals(newcomer))
    ensures var r := ReceivedOn(Announcements(newcomer, ps), newcomer.reliableChannel);
            |r| == |ps|
            && forall i :: 0 <= i < |ps| ==> r[i] == ConnectedPlayerMessage(ps[i].playerId, ps[i].Equals(newcomer))
    decreases |ps|
  {
    if ps != [] {
      var init := ps[..|ps| - 1];
      var last := ps[|ps| - 1];
      var ch := newcomer.reliableChannel;
      assert forall i :: 0 <= i < |init| ==> init[i] == ps[i];
      AnnouncementsToNewcomer(newcomer, init);
      var r0 := ReceivedOn(Announcements(newcomer, init), ch);
      var r := ReceivedOn(Announcements(newcomer, ps), ch);
      assert r == r0 + [ConnectedPlayerMessage(last.playerId, last.Equals(newcomer))] by {
        ReceivedOnAppend(Announcements(newcomer, init), AnnounceTo(newcomer, last), ch);
        AnnounceToNewcomer(newcomer, last);
      }
      forall i | 0 <= i < |ps| ensures r[i] == ConnectedPlayerMessage(ps[i].playerId, ps[i].Equals(newcomer)) {
        if i < |init| {
          assert r[i] == r0[i];
        }
      }
    }
  }

  /**
   * Accepting the last player of a valid collection: every earlier player
   * learns once that the newcomer connected (not itself), and the newcomer
   * learns every player in collection order, ending with itself.
   */
  lemma AcceptAnnouncesBothWays(ps: seq<Player>)
    requires UniqueIds(ps) && DistinctChannels(ps) && AllConfigured(ps) && |ps| > 0
    ensures var n := ps[|ps| - 1];
            forall k :: 0 <= k < |ps| - 1 ==>
              ReceivedOn(Announcements(n, ps), ps[k].reliableChannel) == [ConnectedPlayerMessage(n.playerId, false)]
    ensures var n := ps[|ps| - 1];
            var r := ReceivedOn(Announcements(n, ps), n.reliableChannel);
            |r| == |ps|
            && (forall i :: 0 <= i < |ps| - 1 ==> r[i] == ConnectedPlayerMessage(ps[i].playerId, false))
            && r[|ps| - 1] == ConnectedPlayerMessage(n.playerId, true)
  {
    var n := ps[|ps| - 1];
    forall k | 0 <= k < |ps| - 1
      ensures ReceivedOn(Announcements(n, ps), ps[k].reliableChannel) == [ConnectedPlayerMessage(n.playerId, false)]
    {
      AnnouncementsToOther(n, ps, k);
    }
    AnnouncementsToNewcomer(n, ps);
  }

  /**
   * The disconnect broadcast of a valid collection reaches every other
   * player exactly once and never the player that left.
   */
  lemma DepartureReachesTheOthersOnly(ps: seq<Player>, k: nat)
    requires UniqueIds(ps) && DistinctChannels(ps) && AllConfigured(ps) && k < |ps|
    ensures AllConfigured(RemoveId(ps, ps[k].playerId))
    ensures var m := DisconnectedPlayerMessage(ps[k].playerId);
            var calls := Broadcast(RemoveId(ps, ps[k].playerId), m, Reliable);
            ReceivedOn(calls, ps[k].reliableChannel) == []
            && forall j :: 0 <= j < |ps| && j != k ==> ReceivedOn(calls, ps[j].reliableChannel) == [m]
  {
    var id := ps[k].playerId;
    var rest := RemoveId(ps, id);
    var m := DisconnectedPlayerMessage(id);
    RemoveIdKeepsTheOthers(ps, id);
    RemoveIdKeepsInvariants(ps, id);
    forall i | 0 <= i < |rest| ensures rest[i].reliableChannel != ps[k].reliableChannel {
      var j :| 0 <= j < |ps| && ps[j] == rest[i];
    }
    BroadcastMissesOthers(rest, m, ps[k].reliableChannel);
    forall j | 0 <= j < |ps| && j != k
      ensures ReceivedOn(Broadcast(rest, m, Reliable), ps[j].reliableChannel) == [m]
    {
      assert ps[j] in rest;
      var i :| 0 <= i < |rest| && rest[i] == ps[j];
      BroadcastReachesEachPlayerOnce(rest, m, i);
    }
  }

  /** One step of the loop sends the newcomer exactly one announcement: about `each`. */
  lemma AnnounceToNewcomer(newcomer: Player, each: Player)
    requires newcomer.CanSend(Reliable) && each.CanSend(Reliable) && each.CanSend(Unreliable)
    requires each.reliableChannel == newcomer.reliableChannel <==> each.Equals(newcomer)
    ensures ReceivedOn(AnnounceTo(newcomer, each), newcomer.reliableChannel)
            == [ConnectedPlayerMessage(each.playerId, each.Equals(newcomer))]
  {
    ReceivedOnOfTwo(AnnounceTo(newcomer, each), newcomer.reliableChannel);
  }

  class ClientAcceptor {
    var playerIdCounter: Int32
    var channelCollection: map<ReliableChannel, Player>
    const listener: GameServer

    constructor (listener: GameServer)
      ensures playerIdCounter == 0 && channelCollection == map[] && this.listener == listener
    {
      playerIdCounter := 0;
      channelCollection := map[];
      this.listener := listener;
    }

    /**
     * The server's collection is valid, its players' reliable channels are
     * distinct, and every id handed out so far is below the counter.
     */
    predicate Valid()
      reads this, listener, listener.players
    {
      listener.Valid()
      && DistinctChannels(listener.players)
      && (forall i :: 0 <= i < |listener.players| ==> listener.players[i].playerId < playerIdCounter)
    }

    /**
     * `AcceptClient`: the server stores the player first; then each player
     * of the collection is told about the newcomer and the newcomer about
     * each other player, all on the reliable channel.
     */
    method AcceptClient(player: Player)
      requires Valid()
      requires player.CanSend(Reliable) && player.CanSend(Unreliable)
      requires player.playerId < playerIdCounter
      requires FreshId(listener.players, player.playerId)
      requires forall i :: 0 <= i < |listener.players| ==>
                 listener.players[i].reliableChannel != player.reliableChannel
      modifies player`listener, listener`players, listener.router.dispatcher`queue, listener.trace`calls
      ensures Valid()
      ensures player.listener == listener.router
      ensures listener.players == old(listener.players) + [player]
      ensures listener.router.dispatcher.queue
              == old(listener.router.dispatcher.queue) + [NotifyPlayerDidConnect(player, Reliable)]
      ensures listener.trace.calls == old(listener.trace.calls) + Announcements(player, listener.players)
    {
      listener.ClientAcceptorPlayerDidConnect(player);
      Announce(player, listener.players, listener.trace);
    }

    /**
     * `NetworkServerDidAcceptPlayer`: a new player gets the counter's value as
     * its id and both channels, its reliable channel is mapped to it, and it
     * is accepted.
     */
    method NetworkServerDidAcceptPlayer(reliable: ReliableChannel, unreliable: UnreliableChannel, now: int)
      requires Valid()
      requires playerIdCounter < Int32Max
      requires forall i :: 0 <= i < |listener.players| ==> listener.players[i].reliableChannel != reliable
      modifies this`playerIdCounter, this`channelCollection, reliable`listener, listener`players,
               listener.router.dispatcher`queue, listener.trace`calls
      ensures Valid()
      ensures playerIdCounter == old(playerIdCounter) + 1
      ensures |listener.players| == |old(listener.players)| + 1
      ensures listener.players[..|old(listener.players)|] == old(listener.players)
      ensures var p := listener.players[|listener.players| - 1];
              fresh(p) && p.playerId == old(playerIdCounter)
              && p.reliableChannel == reliable && p.unreliableChannel == unreliable
              && reliable.listener == p && p.listener == listener.router
              && channelCollection == old(channelCollection)[reliable := p]
              && listener.router.dispatcher.queue
                 == old(listener.router.dispatcher.queue) + [NotifyPlayerDidConnect(p, Reliable)]
              && listener.trace.calls == old(listener.trace.calls) + Announcements(p, listener.players)
    {
      var player := Register(reliable, unreliable, now);
      AcceptClient(player);
    }

    /**
     * The bookkeeping before `AcceptClient`: the new player takes the
     * counter's value, the counter moves on, and the channel is mapped.
     */
    method Register(reliable: ReliableChannel, unreliable: UnreliableChannel, now: int) returns (player: Player)
      requires Valid()
      requires playerIdCounter < Int32Max
      requires forall i :: 0 <= i < |listener.players| ==> listener.players[i].reliableChannel != reliable
      modifies this`playerIdCounter, this`channelCollection, reliable`listener
      ensures Valid()
      ensures fresh(player) && player.playerId == old(playerIdCounter) && player.listener == null
      ensures player.reliableChannel == reliable && player.unreliableChannel == unreliable
      ensures reliable.listener == player
      ensures playerIdCounter == old(playerIdCounter) + 1
      ensures channelCollection == old(channelCollection)[reliable := player]
      ensures FreshId(listener.players, player.playerId)
      ensures forall i :: 0 <= i < |listener.players| ==> listener.players[i].reliableChannel != reliable
    {
      player := NewPlayer(playerIdCounter, reliable, unreliable, now);
      playerIdCounter := playerIdCounter + 1;
      channelCollection := channelCollection[reliable := player];
    }

    /**
     * `Disconnect`: nothing for a null player; otherwise see `DisconnectPlayer`.
     */
    method Disconnect(player: Player?)
      requires Valid()
      modifies (if player == null then {} else {player})`listener, listener`players,
               listener.router.dispatcher`queue, listener.trace`calls
      ensures Valid()
      ensures player == null ==>
                listener.players == old(listener.players)
                && listener.router.dispatcher.queue == old(listener.router.dispatcher.queue)
                && listener.trace.calls == old(listener.trace.calls)
      ensures player != null ==>
                player.listener == null
                && listener.players == old(RemoveId(listener.players, player.playerId))
                && listener.router.dispatcher.queue
                   == old(listener.router.dispatcher.queue) + [NotifyPlayerDidDisconnect(player)]
                && listener.trace.calls
                   == old(listener.trace.calls) + UnregisterCalls(player.remoteIdentifiedEndPoint)
                      + Broadcast(listener.players, DisconnectedPlayerMessage(player.playerId), Reliable)
    {
      if player != null {
        DisconnectPlayer(player);
      }
    }

    /**
     * The server drops the player first (unregistering its endpoint and
     * queueing the notification), then every remaining player is told, on
     * the reliable channel, that it left.
     */
    method DisconnectPlayer(player: Player)
      requires Valid()
      modifies player`listener, listener`players, listener.router.dispatcher`queue, listener.trace`calls
      ensures Valid()
      ensures player.listener == null
      ensures listener.players == old(RemoveId(listener.players, player.playerId))
      ensures listener.router.dispatcher.queue
              == old(listener.router.dispatcher.queue) + [NotifyPlayerDidDisconnect(player)]
      ensures listener.trace.calls
              == old(listener.trace.calls) + UnregisterCalls(player.remoteIdentifiedEndPoint)
                 + Broadcast(listener.players, DisconnectedPlayerMessage(player.playerId), Reliable)
    {
      RemoveFromServer(player);
      label Removed:
      listener.SendBroadcast(DisconnectedPlayerMessage(player.playerId), Reliable);
      assert unchanged@Removed(listener.players);
    }

    /** The server's part of a disconnect, which keeps the acceptor's invariant. */
    method RemoveFromServer(player: Player)
      requires Valid()
      modifies player`listener, listener`players, listener.router.dispatcher`queue, listener.trace`calls
      ensures Valid()
      ensures player.listener == null
      ensures listener.players == old(RemoveId(listener.players, player.playerId))
      ensures listener.router.dispatcher.queue
              == old(listener.router.dispatcher.queue) + [NotifyPlayerDidDisconnect(player)]
      ensures listener.trace.calls == old(listener.trace.calls) + UnregisterCalls(player.remoteIdentifiedEndPoint)
    {
      ghost var remaining := RemoveId(listener.players, player.playerId);
      assert DistinctChannels(remaining)
             && forall i :: 0 <= i < |remaining| ==> remaining[i].playerId < playerIdCounter by {
        RemoveIdKeepsTheOthers(listener.players, player.playerId);
        RemoveIdKeepsInvariants(listener.players, player.playerId);
      }
      label Before:
      listener.ClientAcceptorPlayerDidDisconnect(player);
      assert forall i :: 0 <= i < |remaining| ==>
        remaining[i].playerId == old@Before(remaining[i].playerId)
        && remaining[i].reliableChannel == old@Before(remaining[i].reliableChannel);
    }

    /**
     * `NetworkServerPlayerDidDisconnect`: a channel that is mapped is
     * unmapped and its player disconnected; any other channel is ignored.
     */
    method NetworkServerPlayerDidDisconnect(channel: ReliableChannel)
      requires Valid()
      modifies this`channelCollection,
               (if channel in channelCollection then {channelCollection[channel]} else {})`listener,
               listener`players, listener.router.dispatcher`queue, listener.trace`calls
      ensures Valid()
      ensures channelCollection == old(channelCollection) - {channel}
      ensures channel !in old(channelCollection) ==>
                listener.players == old(listener.players)
                && listener.router.dispatcher.queue == old(listener.router.dispatcher.queue)
                && listener.trace.calls == old(listener.trace.calls)
      ensures channel in old(channelCollection) ==>
                var player := old(channelCollection)[channel];
                player.listener == null
                && listener.players == old(RemoveId(listener.players, player.playerId))
                && listener.router.dispatcher.queue
                   == old(listener.router.dispatcher.queue) + [NotifyPlayerDidDisconnect(player)]
                && listener.trace.calls
                   == old(listener.trace.calls) + UnregisterCalls(player.remoteIdentifiedEndPoint)
                      + Broadcast(listener.players, DisconnectedPlayerMessage(player.playerId), Reliable)
    {
      if channel in channelCollection {
        var player := channelCollection[channel];
        channelCollection := channelCollection - {channel};
        Disconnect(player);
      }
    }
  }

  /**
   * The player `NetworkServerDidAcceptPlayer` builds: created at `now`, given
   * `id` and both channels, and listening to the reliable one.
   */
  method NewPlayer(id: Int32, reliable: ReliableChannel, unreliable: UnreliableChannel, now: int)
    returns (player: Player)
    modifies reliable`listener
    ensures fresh(player)
    ensures player.playerId == id && player.lastReceivedPongRequest == now
    ensures player.reliableChannel == reliable && player.unreliableChannel == unreliable
    ensures player.listener == null && player.remoteIdentifiedEndPoint == None
    ensures reliable.listener == player
  {
    player := new Player(now);
    player.ConfigureId(id);
    player.ConfigureChannels(reliable, unreliable);
  }

  /**
   * The loop of `AcceptClient`: for each player of the collection, in order,
   * one `ConnectedPlayerMessage` to that player about the newcomer and, for
   * the others, one to the newcomer about that player.
   */
  method Announce(newcomer: Player, players: seq<Player>, trace: Trace)
    requires newcomer.CanSend(Reliable)
    requires forall i :: 0 <= i < |players| ==> players[i].CanSend(Reliable)
    modifies trace`calls
    ensures trace.calls == old(trace.calls) + old(Announcements(newcomer, players))
  {
    for i := 0 to |players|
      invariant trace.calls == old(trace.calls) + old(Announcements(newcomer, players[..i]))
    {
      var each := players[i];
      assert players[..i + 1][..i] == players[..i];
      assert old(AnnounceTo(newcomer, each)) == AnnounceTo(newcomer, each);
      each.Send(ConnectedPlayerMessage(newcomer.playerId, newcomer.Equals(each)), Reliable, trace);
      if each.Equals(newcomer) { continue; }
      newcomer.Send(ConnectedPlayerMessage(each.playerId, false), Reliable, trace);
    }
    assert players[..|players|] == players;
  }
}

/**
 * `GameServer`: owns the ordered collection of connected players, adds and
 * removes them on the client acceptor's behalf, broadcasts messages, and
 * hands listener notifications and NAT-identification requests to the
 * router's dispatcher instead of running them itself.
 */
module Server {
  import opened Wrappers
  import opened Codec
  import opened Messages
  import opened Dispatch
  import opened Players

  /** No two players of `ps` share an id. */
  predicate UniqueIds(ps: seq<Player>)
    reads ps
  {
    forall i, j :: 0 <= i < j < |ps| ==> ps[i].playerId != ps[j].playerId
  }

  /** `id` is not used by any player of `ps`. */
  predicate FreshId(ps: seq<Player>, id: int)
    reads ps
  {
    forall i :: 0 <= i < |ps| ==> ps[i].playerId != id
  }

  /** No two players of `ps` share a reliable channel. */
  predicate DistinctChannels(ps: seq<Player>)
    reads ps
  {
    forall i, j :: 0 <= i < j < |ps| ==> ps[i].reliableChannel != ps[j].reliableChannel
  }

  /** Every player of `ps` has both of its channels. */
  predicate AllConfigured(ps: seq<Player>)
    reads ps
  {
    forall i :: 0 <= i < |ps| ==> ps[i].CanSend(Reliable) && ps[i].CanSend(Unreliable)
  }

  /**
   * With unique ids, two players of the collection are equal by id exactly
   * when they are the same object, so id equality and reference equality
   * agree on them.
   */
  lemma {:induction false} UniqueIdsMakeEqualsIdentity(ps: seq<Player>, i: nat, j: nat)
    requires UniqueIds(ps) && i < |ps| && j < |ps|
    ensures ps[i].Equals(ps[j]) <==> ps[i] == ps[j]
  {
    if i < j {
      assert ps[i].playerId != ps[j].playerId;
    } else if j < i {
      assert ps[j].playerId != ps[i].playerId;
    }
  }

  /** `PlayerCollection.Remove(id)`: the collection without the player keyed by `id`. */
  function RemoveId(ps: seq<Player>, id: int): (r: seq<Player>)
    reads ps
    ensures |r| <= |ps|
    decreases |ps|
  {
    if ps == [] then []
    else
      var last := ps[|ps| - 1];
      RemoveId(ps[..|ps| - 1], id) + (if last.playerId == id then [] else [last])
  }

  /** `RemoveId` keeps exactly the players with another id. */
  lemma {:induction false} RemoveIdKeepsTheOthers(ps: seq<Player>, id: int)
    ensures forall i :: 0 <= i < |RemoveId(ps, id)| ==>
              RemoveId(ps, id)[i] in ps && RemoveId(ps, id)[i].playerId != id
    ensures forall i :: 0 <= i < |ps| && ps[i].playerId != id ==> ps[i] in RemoveId(ps, id)
    decreases |ps|
  {
    if ps != [] {
      var init := ps[..|ps| - 1];
      var last := ps[|ps| - 1];
      RemoveIdKeepsTheOthers(init, id);
      var ri := RemoveId(init, id);
      var r := RemoveId(ps, id);
      assert r == ri + (if last.playerId == id then [] else [last]);
      forall i | 0 <= i < |r| ensures r[i] in ps && r[i].playerId != id {
        if i < |ri| {
          assert r[i] == ri[i];
          var j :| 0 <= j < |init| && init[j] == ri[i];
          assert ps[j] == init[j];
        }
      }
      forall i | 0 <= i < |ps| && ps[i].playerId != id ensures ps[i] in r {
        if i < |init| {
          assert ps[i] == init[i];
          var j :| 0 <= j < |ri| && ri[j] == init[i];
          assert r[j] == ri[j];
        } else {
          assert r[|r| - 1] == last;
        }
      }
    }
  }

  /** `RemoveId` keeps the collection's invariants. */
  lemma {:induction false} RemoveIdKeepsInvariants(ps: seq<Player>, id: int)
    ensures UniqueIds(ps) ==> UniqueIds(RemoveId(ps, id))
    ensures DistinctChannels(ps) ==> DistinctChannels(RemoveId(ps, id))
    ensures AllConfigured(ps) ==> AllConfigured(RemoveId(ps, id))
    decreases |ps|
  {
    if ps != [] {
      var init := ps[..|ps| - 1];
      var last := ps[|ps| - 1];
      RemoveIdKeepsInvariants(init, id);
      RemoveIdKeepsTheOthers(init, id);
      var ri := RemoveId(init, id);
      assert forall i :: 0 <= i < |init| ==> init[i] == ps[i];
      if last.playerId != id {
        var r := ri + [last];
        assert forall i :: 0 <= i < |ri| ==> r[i] == ri[i];
        if UniqueIds(ps) {
          forall i | 0 <= i < |ri| ensures ri[i].playerId != last.playerId {
            var j :| 0 <= j < |init| && init[j] == ri[i];
          }
        }
        if DistinctChannels(ps) {
          forall i | 0 <= i < |ri| ensures ri[i].reliableChannel != last.reliableChannel {
            var j :| 0 <= j < |init| && init[j] == ri[i];
          }
        }
      }
    }
  }

  /** With unique ids, removing a present id removes exactly one player. */
  lemma {:induction false} RemoveIdRemovesOne(ps: seq<Player>, k: nat)
    requires UniqueIds(ps) && k < |ps|
    ensures |RemoveId(ps, ps[k].playerId)| == |ps| - 1
    decreases |ps|
  {
    var init := ps[..|ps| - 1];
    assert UniqueIds(init) by {
      assert forall i :: 0 <= i < |init| ==> init[i] == ps[i];
    }
    if k == |ps| - 1 {
      assert FreshId(init, ps[k].playerId) by {
        assert forall i :: 0 <= i < |init| ==> init[i] == ps[i];
      }
      RemoveIdKeepsAbsent(init, ps[k].playerId);
    } else {
      assert ps[k] == init[k];
      RemoveIdRemovesOne(init, k);
    }
  }

  /** Removing an id no player has changes nothing. */
  lemma {:induction false} RemoveIdKeepsAbsent(ps: seq<Player>, id: int)
    requires FreshId(ps, id)
    ensures RemoveId(ps, id) == ps
    decreases |ps|
  {
    if ps != [] {
      var init := ps[..|ps| - 1];
      assert FreshId(init, id) by {
        assert forall i :: 0 <= i < |init| ==> init[i] == ps[i];
      }
      RemoveIdKeepsAbsent(init, id);
      assert init + [ps[|ps| - 1]] == ps;
    }
  }

  /** The unregistration of a player's identified endpoint, if it has one. */
  function UnregisterCalls(endPoint: Option<EndPoint>): seq<Call> {
    match endPoint
    case Some(ep) => [Unregister(ep)]
    case None => []
  }

  /** The calls made by sending `m` on `c` to each player of `ps`, in collection order. */
  function Broadcast(ps: seq<Player>, m: TypedMessage, c: Channel): (r: seq<Call>)
    requires forall i :: 0 <= i < |ps| ==> ps[i].CanSend(c)
    reads ps
    ensures |r| == |ps|
    decreases |ps|
  {
    if ps == [] then []
    else Broadcast(ps[..|ps| - 1], m, c) + [ps[|ps| - 1].SendCall(m, c)]
  }

  /** A broadcast is one call per player, the i-th to the i-th player, on the channel asked for. */
  lemma {:induction false} BroadcastSendsToEachInOrder(ps: seq<Player>, m: TypedMessage, c: Channel)
    requires forall i :: 0 <= i < |ps| ==> ps[i].CanSend(c)
    ensures forall i :: 0 <= i < |ps| ==> Broadcast(ps, m, c)[i] == ps[i].SendCall(m, c)
    decreases |ps|
  {
    if ps != [] {
      var init := ps[..|ps| - 1];
      BroadcastSendsToEachInOrder(init, m, c);
      assert forall i :: 0 <= i < |init| ==> init[i] == ps[i];
    }
  }

  /** The players of `ps` that `predicate` accepts, in collection order. */
  function Filter(ps: seq<Player>, accepts: PlayerView -> bool): (r: seq<Player>)
    reads ps
    ensures |r| <= |ps|
    decreases |ps|
  {
    if ps == [] then []
    else
      var last := ps[|ps| - 1];
      Filter(ps[..|ps| - 1], accepts) + (if accepts(last.View()) then [last] else [])
  }

  /** `Filter` keeps exactly the accepted players. */
  lemma {:induction false} FilterKeepsTheAccepted(ps: seq<Player>, accepts: PlayerView -> bool)
    ensures forall i :: 0 <= i < |Filter(ps, accepts)| ==>
              Filter(ps, accepts)[i] in ps && accepts(Filter(ps, accepts)[i].View())
    ensures forall i :: 0 <= i < |ps| && accepts(ps[i].View()) ==> ps[i] in Filter(ps, accepts)
    decreases |ps|
  {
    if ps != [] {
      var init := ps[..|ps| - 1];
      var last := ps[|ps| - 1];
      FilterKeepsTheAccepted(init, accepts);
      var fi := Filter(init, accepts);
      var r := Filter(ps, accepts);
      assert r == fi + (if accepts(last.View()) then [last] else []);
      forall i | 0 <= i < |r| ensures r[i] in ps && accepts(r[i].View()) {
        if i < |fi| {
          assert r[i] == fi[i];
          var j :| 0 <= j < |init| && init[j] == fi[i];
          assert ps[j] == init[j];
        }
      }
      forall i | 0 <= i < |ps| && accepts(ps[i].View()) ensures ps[i] in r {
        if i < |init| {
          assert ps[i] == init[i];
          assert init[i] in fi;
          var j :| 0 <= j < |fi| && fi[j] == init[i];
          assert r[j] == fi[j];
        } else {
          assert r[|r| - 1] == last;
        }
      }
    }
  }

  /** The calls made by the predicate overload of `SendBroadcast`. */
  function BroadcastWhere(ps: seq<Player>, accepts: PlayerView -> bool, m: TypedMessage, c: Channel): (r: seq<Call>)
    requires forall i :: 0 <= i < |ps| ==> ps[i].CanSend(c)
    reads ps
    decreases |ps|
  {
    if ps == [] then []
    else
      var last := ps[|ps| - 1];
      BroadcastWhere(ps[..|ps| - 1], accepts, m, c)
        + (if accepts(last.View()) then [last.SendCall(m, c)] else [])
  }

  /** The predicate overload is a plain broadcast to the players the predicate accepts. */
  lemma {:induction false} BroadcastWhereIsBroadcastToFiltered(ps: seq<Player>, accepts: PlayerView -> bool,
                                                              m: TypedMessage, c: Channel)
    requires forall i :: 0 <= i < |ps| ==> ps[i].CanSend(c)
    ensures forall i :: 0 <= i < |Filter(ps, accepts)| ==> Filter(ps, accepts)[i].CanSend(c)
    ensures BroadcastWhere(ps, accepts, m, c) == Broadcast(Filter(ps, accepts), m, c)
    decreases |ps|
  {
    var f := Filter(ps, accepts);
    FilterKeepsTheAccepted(ps, accepts);
    forall i | 0 <= i < |f| ensures f[i].CanSend(c) {
      assert f[i] in f;
      var k :| 0 <= k < |ps| && ps[k] == f[i];
    }
    if ps != [] {
      var init := ps[..|ps| - 1];
      var last := ps[|ps| - 1];
      BroadcastWhereIsBroadcastToFiltered(init, accepts, m, c);
      var fi := Filter(init, accepts);
      if accepts(last.View()) {
        assert f == fi + [last];
        assert f[..|f| - 1] == fi;
      } else {
        assert f == fi;
      }
    }
  }

  /** The messages written to reliable channel `ch` by `calls`, in order. */
  function ReceivedOn(calls: seq<Call>, ch: ReliableChannel): seq<TypedMessage>
    decreases |calls|
  {
    if calls == [] then []
    else
      var last := calls[|calls| - 1];
      ReceivedOn(calls[..|calls| - 1], ch)
        + (if last.ReliableSend? && last.channel == ch then [last.message] else [])
  }

  /** What a channel receives from two runs of calls is what it receives from each, in order. */
  lemma {:induction false} ReceivedOnAppend(a: seq<Call>, b: seq<Call>, ch: ReliableChannel)
    ensures ReceivedOn(a + b, ch) == ReceivedOn(a, ch) + ReceivedOn(b, ch)
    decreases |b|
  {
    if b == [] {
      assert a + b == a;
    } else {
      var bi := b[..|b| - 1];
      assert (a + b)[..|a + b| - 1] == a + bi;
      assert (a + b)[|a + b| - 1] == b[|b| - 1];
      ReceivedOnAppend(a, bi, ch);
    }
  }

  /**
   * A reliable broadcast writes the message exactly once to each player's
   * reliable channel.
   */
  lemma {:induction false} BroadcastReachesEachPlayerOnce(ps: seq<Player>, m: TypedMessage, k: nat)
    requires AllConfigured(ps) && DistinctChannels(ps) && k < |ps|
    ensures ReceivedOn(Broadcast(ps, m, Reliable), ps[k].reliableChannel) == [m]
    decreases |ps|
  {
    var init := ps[..|ps| - 1];
    var b := Broadcast(ps, m, Reliable);
    assert b[..|b| - 1] == Broadcast(init, m, Reliable);
    if k == |ps| - 1 {
      BroadcastMissesOthers(init, m, ps[k].reliableChannel);
    } else {
      BroadcastReachesEachPlayerOnce(init, m, k);
    }
  }

  /** A reliable broadcast writes nothing to a channel no player of `ps` owns. */
  lemma {:induction false} BroadcastMissesOthers(ps: seq<Player>, m: TypedMessage, ch: ReliableChannel)
    requires AllConfigured(ps)
    requires forall i :: 0 <= i < |ps| ==> ps[i].reliableChannel != ch
    ensures ReceivedOn(Broadcast(ps, m, Reliable), ch) == []
    decreases |ps|
  {
    if ps != [] {
      var b := Broadcast(ps, m, Reliable);
      assert b[..|b| - 1] == Broadcast(ps[..|ps| - 1], m, Reliable);
      BroadcastMissesOthers(ps[..|ps| - 1], m, ch);
    }
  }

  /**
   * The predicate overload writes the message once to each accepted player's
   * reliable channel and nothing to a rejected player's.
   */
  lemma BroadcastWhereReachesExactlyTheAccepted(ps: seq<Player>, accepts: PlayerView -> bool,
                                                m: TypedMessage, k: nat)
    requires AllConfigured(ps) && DistinctChannels(ps) && k < |ps|
    ensures ReceivedOn(BroadcastWhere(ps, accepts, m, Reliable), ps[k].reliableChannel)
            == if accepts(ps[k].View()) then [m] else []
  {
    BroadcastWhereIsBroadcastToFiltered(ps, accepts, m, Reliable);
    FilterKeepsConfigured(ps, accepts);
    var f := Filter(ps, accepts);
    if accepts(ps[k].View()) {
      var j := AcceptedIsFiltered(ps, accepts, k);
      FilterKeepsDistinctChannels(ps, accepts);
      BroadcastReachesEachPlayerOnce(f, m, j);
    } else {
      RejectedChannelIsNotFiltered(ps, accepts, k);
      BroadcastMissesOthers(f, m, ps[k].reliableChannel);
    }
  }

  /** Filtering keeps every player configured. */
  lemma FilterKeepsConfigured(ps: seq<Player>, accepts: PlayerView -> bool)
    requires AllConfigured(ps)
    ensures AllConfigured(Filter(ps, accepts))
  {
    var f := Filter(ps, accepts);
    FilterKeepsTheAccepted(ps, accepts);
    forall i | 0 <= i < |f| ensures f[i].CanSend(Reliable) && f[i].CanSend(Unreliable) {
      var j :| 0 <= j < |ps| && ps[j] == f[i];
    }
  }

  /** An accepted player has a position in the filtered players. */
  lemma AcceptedIsFiltered(ps: seq<Player>, accepts: PlayerView -> bool, k: nat) returns (j: nat)
    requires k < |ps| && accepts(ps[k].View())
    ensures j < |Filter(ps, accepts)| && Filter(ps, accepts)[j] == ps[k]
  {
    FilterKeepsTheAccepted(ps, accepts);
    var f := Filter(ps, accepts);
    assert ps[k] in f;
    j :| 0 <= j < |f| && f[j] == ps[k];
  }

  /** With distinct channels, a rejected player's channel belongs to no filtered player. */
  lemma RejectedChannelIsNotFiltered(ps: seq<Player>, accepts: PlayerView -> bool, k: nat)
    requires DistinctChannels(ps) && k < |ps| && !accepts(ps[k].View())
    ensures forall i :: 0 <= i < |Filter(ps, accepts)| ==>
              Filter(ps, accepts)[i].reliableChannel != ps[k].reliableChannel
  {
    FilterKeepsTheAccepted(ps, accepts);
    var f := Filter(ps, accepts);
    forall i | 0 <= i < |f| ensures f[i].reliableChannel != ps[k].reliableChannel {
      var j :| 0 <= j < |ps| && ps[j] == f[i];
      assert j != k;
    }
  }

  /** Filtering keeps the players' channels distinct. */
  lemma {:induction false} FilterKeepsDistinctChannels(ps: seq<Player>, accepts: PlayerView -> bool)
    requires DistinctChannels(ps)
    ensures DistinctChannels(Filter(ps, accepts))
    decreases |ps|
  {
    if ps != [] {
      var init := ps[..|ps| - 1];
      var last := ps[|ps| - 1];
      FilterKeepsDistinctChannels(init, accepts);
      FilterKeepsTheAccepted(init, accepts);
      var fi := Filter(init, accepts);
      forall i | 0 <= i < |fi| ensures fi[i].reliableChannel != last.reliableChannel {
        var j :| 0 <= j < |init| && init[j] == fi[i];
        assert init[j] == ps[j];
      }
    }
  }

  class GameServer {
    /** The values of `playerCollection`, in insertion order. */
    var players: seq<Player>
    const router: ServerRouter
    const trace: Trace

    constructor (router: ServerRouter, trace: Trace)
      ensures players == [] && this.router == router && this.trace == trace
    {
      players := [];
      this.router := router;
      this.trace := trace;
    }

    /** Ids are unique keys, and every stored player has both channels. */
    predicate Valid()
      reads this, players
    {
      UniqueIds(players) && AllConfigured(players)
    }

    /** `Update`: only the ping controller moves; the collection is left alone. */
    method Update()
      modifies trace`calls
      ensures trace.calls == old(trace.calls) + [PingControllerUpdate]
      ensures players == old(players)
    {
      trace.Log(PingControllerUpdate);
    }

    /** `SendBroadcast(message, channel)`: one send per player, in collection order. */
    method SendBroadcast(message: TypedMessage, channel: Channel)
      requires Valid()
      modifies trace`calls
      ensures trace.calls == old(trace.calls) + old(Broadcast(players, message, channel))
    {
      var all := players;
      assert forall k :: 0 <= k < |all| ==> all[k].CanSend(channel);
      var i := 0;
      while i < |all|
        invariant 0 <= i <= |all|
        invariant trace.calls == old(trace.calls) + old(Broadcast(all[..i], message, channel))
      {
        assert all[..i + 1][..i] == all[..i];
        assert old(all[i].SendCall(message, channel)) == all[i].SendCall(message, channel);
        all[i].Send(message, channel, trace);
        i := i + 1;
      }
      assert all[..i] == all;
    }

    /** `SendBroadcast(message, accepts, channel)`: sends only to the players the predicate accepts. */
    method SendBroadcastWhere(message: TypedMessage, accepts: PlayerView -> bool, channel: Channel)
      requires Valid()
      modifies trace`calls
      ensures trace.calls == old(trace.calls) + old(BroadcastWhere(players, accepts, message, channel))
    {
      var all := players;
      assert forall k :: 0 <= k < |all| ==> all[k].CanSend(channel);
      var i := 0;
      while i < |all|
        invariant 0 <= i <= |all|
        invariant trace.calls == old(trace.calls) + old(BroadcastWhere(all[..i], accepts, message, channel))
      {
        assert all[..i + 1][..i] == all[..i];
        assert old(all[i].SendCall(message, channel)) == all[i].SendCall(message, channel);
        assert old(all[i].View()) == all[i].View();
        if accepts(all[i].View()) {
          all[i].Send(message, channel, trace);
        }
        i := i + 1;
      }
      assert all[..i] == all;
    }

    /**
     * The acceptor's connect callback: the player listens to the router, is
     * stored under its id, and the listener's notification is queued.
     */
    method ClientAcceptorPlayerDidConnect(player: Player)
      requires Valid()
      requires player.CanSend(Reliable) && player.CanSend(Unreliable)
      requires FreshId(players, player.playerId)
      modifies player`listener, this`players, router.dispatcher`queue
      ensures Valid()
      ensures player.listener == router
      ensures players == old(players) + [player]
      ensures router.dispatcher.queue == old(router.dispatcher.queue) + [NotifyPlayerDidConnect(player, Reliable)]
    {
      player.listener := router;
      players := players + [player];
      router.dispatcher.Enqueue(NotifyPlayerDidConnect(player, Reliable));
    }

    /**
     * The acceptor's disconnect callback: the player stops listening, its id
     * leaves the collection, an identified endpoint is unregistered, and the
     * listener's notification is queued.
     */
    method ClientAcceptorPlayerDidDisconnect(player: Player)
      requires Valid()
      modifies player`listener, this`players, router.dispatcher`queue, trace`calls
      ensures Valid()
      ensures player.listener == null
      ensures players == old(RemoveId(players, player.playerId))
      ensures trace.calls == old(trace.calls) + UnregisterCalls(player.remoteIdentifiedEndPoint)
      ensures router.dispatcher.queue == old(router.dispatcher.queue) + [NotifyPlayerDidDisconnect(player)]
    {
      var remaining := RemoveId(players, player.playerId);
      assert UniqueIds(remaining) && AllConfigured(remaining) by {
        RemoveIdKeepsInvariants(players, player.playerId);
      }
      player.listener := null;
      players := remaining;
      if player.remoteIdentifiedEndPoint.Some? {
        trace.Log(Unregister(player.remoteIdentifiedEndPoint.value));
      }
      router.dispatcher.Enqueue(NotifyPlayerDidDisconnect(player));
      assert forall i :: 0 <= i < |remaining| ==>
        remaining[i].playerId == old(remaining[i].playerId)
        && remaining[i].reliableChannel == old(remaining[i].reliableChannel)
        && remaining[i].unreliableChannel == old(remaining[i].unreliableChannel);
    }

    /** A datagram from an unknown endpoint is acted on only when it asks for NAT identification. */
    method NetworkServerDidReceiveUnidentifiedMessage(container: MessageContainer, from: EndPoint)
      modifies router.dispatcher`queue
      ensures router.dispatcher.queue == old(router.dispatcher.queue)
                + (if container.Is(NatIdentifier) then [ExecuteNatIdentifierRequest(container, from)] else [])
    {
      if container.Is(NatIdentifier) {
        router.dispatcher.Enqueue(ExecuteNatIdentifierRequest(container, from));
      }
    }
  }
}

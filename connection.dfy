/**
 * `UnreliableClientConnectionController`: sends the unreliable connect
 * message, resends it every `secondsBetweenRetries` until
 * `maximumNumberOfRetries` resends have been made, and then fires the
 * timeout action. Time is an integer number of seconds passed in by the
 * caller.
 */
module Connection {

  /**
   * What the controller does to the outside: a connect message sent to the
   * client, or `DispatchTimeOut` (which runs the timeout action when one
   * was given).
   */
  datatype Effect = SendConnect | TimeOut

  /** The controller's mutable fields. */
  datatype ControllerState = ControllerState(isConnecting: bool, retryCount: int, startTime: int)

  const DefaultSecondsBetweenRetries: int := 3
  const DefaultMaximumNumberOfRetries: int := 3

  /** The state of a new controller: not connecting, no retries, start time -1. */
  const Initial := ControllerState(false, 0, -1)

  /** `Connect` at time `now`: ignored while connecting, otherwise start over and send once. */
  function ConnectStep(s: ControllerState, now: int): (r: (ControllerState, seq<Effect>))
    ensures s.isConnecting ==> r == (s, [])
    ensures !s.isConnecting ==> r.0 == ControllerState(true, 0, now) && r.1 == [SendConnect]
  {
    if s.isConnecting then (s, [])
    else (ControllerState(true, 0, now), [SendConnect])
  }

  /** `ReceivedConnected`: only the flag is cleared. */
  function ReceivedConnectedStep(s: ControllerState): (r: ControllerState)
    ensures !r.isConnecting && r.retryCount == s.retryCount && r.startTime == s.startTime
  {
    s.(isConnecting := false)
  }

  /**
   * `Update` at time `now`, with the two settings. The flag is not
   * consulted, and a timeout leaves the start time as it is.
   */
  function UpdateStep(s: ControllerState, now: int, secondsBetweenRetries: int, maximumNumberOfRetries: int)
    : (ControllerState, seq<Effect>)
  {
    if now - s.startTime >= secondsBetweenRetries then
      if s.retryCount >= maximumNumberOfRetries then (s.(isConnecting := false), [TimeOut])
      else (ControllerState(s.isConnecting, s.retryCount + 1, now), [SendConnect])
    else (s, [])
  }

  /** The three cases of `Update`, each with its whole effect. */
  lemma UpdateCases(s: ControllerState, now: int, interval: int, max: int)
    ensures var (r, e) := UpdateStep(s, now, interval, max);
            (now - s.startTime < interval ==> r == s && e == [])
            && (now - s.startTime >= interval && s.retryCount < max ==>
                  r.retryCount == s.retryCount + 1 && r.startTime == now
                  && r.isConnecting == s.isConnecting && e == [SendConnect])
            && (now - s.startTime >= interval && s.retryCount >= max ==>
                  !r.isConnecting && r.retryCount == s.retryCount && r.startTime == s.startTime
                  && e == [TimeOut])
  {
  }

  /** Connecting and updating never take the retry count past the maximum. */
  lemma RetryCountStaysBounded(s: ControllerState, now: int, interval: int, max: int)
    requires 0 <= s.retryCount <= max
    ensures 0 <= ConnectStep(s, now).0.retryCount <= max
    ensures 0 <= UpdateStep(s, now, interval, max).0.retryCount <= max
    ensures 0 <= ReceivedConnectedStep(s).retryCount <= max
  {
  }

  /** The updates at the times `times`, in order, and everything they do. */
  function Updates(s: ControllerState, times: seq<int>, interval: int, max: int): (ControllerState, seq<Effect>)
    decreases |times|
  {
    if times == [] then (s, [])
    else
      var (s1, e1) := UpdateStep(s, times[0], interval, max);
      var (s2, e2) := Updates(s1, times[1..], interval, max);
      (s2, e1 + e2)
  }

  /** The number of connect messages sent before the first timeout (or in all, if none). */
  function SendsBeforeTimeOut(effects: seq<Effect>): nat
    decreases |effects|
  {
    if effects == [] || effects[0] == TimeOut then 0
    else 1 + SendsBeforeTimeOut(effects[1..])
  }

  /**
   * From a state with `retryCount` retries, updates send at most the
   * remaining `max - retryCount` messages before a timeout, and exactly
   * that many when a timeout does come.
   */
  lemma {:induction false} UpdatesSendTheRemainingRetries(s: ControllerState, times: seq<int>, interval: int, max: int)
    requires 0 <= s.retryCount <= max
    ensures var e := Updates(s, times, interval, max).1;
            SendsBeforeTimeOut(e) <= max - s.retryCount
            && (TimeOut in e ==> SendsBeforeTimeOut(e) == max - s.retryCount)
    decreases |times|
  {
    if times != [] {
      var (s1, e1) := UpdateStep(s, times[0], interval, max);
      var (s2, e2) := Updates(s1, times[1..], interval, max);
      UpdatesSendTheRemainingRetries(s1, times[1..], interval, max);
      if e1 == [SendConnect] {
        assert (e1 + e2)[1..] == e2;
      } else if e1 == [] {
        assert e1 + e2 == e2;
      }
    }
  }

  /**
   * With no acknowledgement, a `Connect` followed by any updates sends at
   * most `1 + max` messages before the first timeout, and exactly `1 + max`
   * when the timeout fires.
   */
  lemma ConnectSendsOnePlusMaxBeforeTimeOut(s: ControllerState, now: int, times: seq<int>, interval: int, max: int)
    requires !s.isConnecting && 0 <= max
    ensures var (c, e0) := ConnectStep(s, now);
            var e := e0 + Updates(c, times, interval, max).1;
            SendsBeforeTimeOut(e) <= 1 + max
            && (TimeOut in e ==> SendsBeforeTimeOut(e) == 1 + max)
  {
    var (c, e0) := ConnectStep(s, now);
    var e1 := Updates(c, times, interval, max).1;
    UpdatesSendTheRemainingRetries(c, times, interval, max);
    assert (e0 + e1)[1..] == e1;
  }

  /**
   * Once the retries are spent and the interval has passed, the timeout
   * fires again on every later update: the start time is not reset.
   */
  lemma TimeOutFiresAgain(s: ControllerState, now: int, later: int, interval: int, max: int)
    requires s.retryCount >= max && now - s.startTime >= interval && later >= now
    ensures UpdateStep(s, now, interval, max).1 == [TimeOut]
    ensures UpdateStep(UpdateStep(s, now, interval, max).0, later, interval, max).1 == [TimeOut]
  {
  }

  /**
   * An acknowledged connection is still retried: after `ReceivedConnected`
   * an update past the interval with retries left sends again, since
   * `Update` does not look at the flag.
   */
  lemma UpdateIgnoresTheFlag(s: ControllerState, now: int, interval: int, max: int)
    ensures UpdateStep(ReceivedConnectedStep(s), now, interval, max).1 == UpdateStep(s, now, interval, max).1
  {
  }

  class UnreliableClientConnectionController {
    var isConnecting: bool
    var retryCount: int
    var startTime: int
    var secondsBetweenRetries: int
    var maximumNumberOfRetries: int
    /** The connect messages sent and the timeouts dispatched, in order. */
    var effects: seq<Effect>

    function State(): ControllerState
      reads this
    {
      ControllerState(isConnecting, retryCount, startTime)
    }

    /** The retry count stays within the configured maximum. */
    predicate RetriesWithinBound()
      reads this
    {
      0 <= retryCount <= maximumNumberOfRetries
    }

    constructor ()
      ensures State() == Initial && RetriesWithinBound()
      ensures secondsBetweenRetries == DefaultSecondsBetweenRetries
      ensures maximumNumberOfRetries == DefaultMaximumNumberOfRetries
      ensures effects == []
    {
      isConnecting := false;
      retryCount := 0;
      startTime := -1;
      secondsBetweenRetries := DefaultSecondsBetweenRetries;
      maximumNumberOfRetries := DefaultMaximumNumberOfRetries;
      effects := [];
    }

    /** `Connect()` at time `now`. */
    method Connect(now: int)
      modifies this`isConnecting, this`retryCount, this`startTime, this`effects
      ensures State() == ConnectStep(old(State()), now).0
      ensures old(RetriesWithinBound()) ==> RetriesWithinBound()
      ensures effects == old(effects) + ConnectStep(old(State()), now).1
    {
      if isConnecting { return; }
      isConnecting := true;
      retryCount := 0;
      startTime := now;
      Send();
    }

    /** `ReceivedConnected()`. */
    method ReceivedConnected()
      modifies this`isConnecting
      ensures State() == ReceivedConnectedStep(old(State()))
    {
      isConnecting := false;
    }

    /** `Update()` at time `now`. */
    method Update(now: int)
      modifies this`isConnecting, this`retryCount, this`startTime, this`effects
      ensures State() == UpdateStep(old(State()), now, secondsBetweenRetries, maximumNumberOfRetries).0
      ensures old(RetriesWithinBound()) ==> RetriesWithinBound()
      ensures effects == old(effects) + UpdateStep(old(State()), now, secondsBetweenRetries, maximumNumberOfRetries).1
    {
      if now - startTime >= secondsBetweenRetries {
        if retryCount >= maximumNumberOfRetries {
          isConnecting := false;
          DispatchTimeOut();
          return;
        }
        retryCount := retryCount + 1;
        startTime := now;
        Send();
      }
    }

    method DispatchTimeOut()
      modifies this`effects
      ensures effects == old(effects) + [TimeOut]
    {
      effects := effects + [TimeOut];
    }

    method Send()
      modifies this`effects
      ensures effects == old(effects) + [SendConnect]
    {
      effects := effects + [SendConnect];
    }
  }
}

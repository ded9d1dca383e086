/**
 * The connection life cycle shared, line for line, by the three feed clients:
 * `BaccaratWebSocketClient` in monitor/lobby_monitor.py and in client_ws.py,
 * and `RoomWebSocketClient` in betting/bet_executor.py. Sockets, tasks and
 * timeouts are abstract: the outcome of a handshake, a close or a ping is a
 * parameter, the clock is passed in as microseconds, and what the socket
 * delivers is a sequence of events.
 */
module Connection {
  import opened Wrappers

  /** `max_reconnect_attempts`. */
  const MaxReconnectAttempts: nat := 3

  /** `timedelta(seconds=60)`, in microseconds. */
  const ResetWindow: int := 60_000_000

  /** Close code of a normal closure. */
  const NormalClosure: int := 1000

  /** `2 ** n`: at least one, above n, and even once n is positive. */
  function Pow2(n: nat): (r: nat)
    ensures r >= 1 && r > n
    ensures n > 0 ==> r % 2 == 0
  {
    if n == 0 then 1 else 2 * Pow2(n - 1)
  }

  datatype ConnState = ConnState(connected: bool, attempts: nat, lastAttempt: int)

  /** `connect`: already connected answers True and opens nothing; otherwise the handshake decides. */
  function ConnectStep(st: ConnState, handshakeOk: bool): (ConnState, bool) {
    if st.connected then (st, true) else (st.(connected := handshakeOk), handshakeOk)
  }

  /** `disconnect`: not connected answers True; otherwise a close that raises answers False and leaves the flag set. */
  function DisconnectStep(st: ConnState, closeOk: bool): (ConnState, bool) {
    if !st.connected then (st, true) else (st.(connected := !closeOk), closeOk)
  }

  datatype Reconnect = Reconnect(st: ConnState, ok: bool, delay: Option<nat>)

  /**
   * `_attempt_reconnect` at time `now`: refuses once the cap is reached,
   * before looking at the clock; otherwise forgets old attempts after a quiet
   * minute, counts this one, waits 2^(n-1) seconds and connects.
   */
  function ReconnectStep(st: ConnState, now: int, handshakeOk: bool): Reconnect {
    if st.attempts >= MaxReconnectAttempts then Reconnect(st, false, None)
    else
      var base := if now - st.lastAttempt > ResetWindow then 0 else st.attempts;
      var counted := st.(attempts := base + 1, lastAttempt := now);
      var c := ConnectStep(counted, handshakeOk);
      Reconnect(c.0, c.1, Some(Pow2(base)))
  }

  lemma ConnectGuards(st: ConnState, handshakeOk: bool)
    ensures st.connected ==> ConnectStep(st, handshakeOk) == (st, true)
    ensures !st.connected ==> ConnectStep(st, handshakeOk).1 == handshakeOk == ConnectStep(st, handshakeOk).0.connected
    ensures ConnectStep(st, handshakeOk).0.attempts == st.attempts
  {
  }

  lemma DisconnectGuards(st: ConnState, closeOk: bool)
    ensures !st.connected ==> DisconnectStep(st, closeOk) == (st, true)
    ensures st.connected ==> DisconnectStep(st, closeOk).1 == closeOk && DisconnectStep(st, closeOk).0.connected == !closeOk
  {
  }

  /** At the cap nothing changes and no attempt is made, however much time has passed. */
  lemma ReconnectRefusedAtCap(st: ConnState, now: int, handshakeOk: bool)
    requires st.attempts >= MaxReconnectAttempts
    ensures ReconnectStep(st, now, handshakeOk) == Reconnect(st, false, None)
  {
  }

  /**
   * Below the cap an attempt is counted (1..3), its time recorded, and the
   * delay is 2^(n-1) seconds for the new count n, so one of 1, 2 or 4; the
   * count restarts at 1 after more than 60 seconds without an attempt.
   */
  lemma ReconnectCounts(st: ConnState, now: int, handshakeOk: bool)
    requires st.attempts < MaxReconnectAttempts
    ensures var r := ReconnectStep(st, now, handshakeOk);
      && 1 <= r.st.attempts <= MaxReconnectAttempts
      && r.st.lastAttempt == now
      && r.st.attempts == (if now - st.lastAttempt > ResetWindow then 1 else st.attempts + 1)
      && r.delay == Some(Pow2(r.st.attempts - 1))
      && r.delay.value in {1, 2, 4}
      && r.ok == (st.connected || handshakeOk)
  {
  }

  /** The count never exceeds the cap. */
  lemma ReconnectKeepsCap(st: ConnState, now: int, handshakeOk: bool)
    requires st.attempts <= MaxReconnectAttempts
    ensures ReconnectStep(st, now, handshakeOk).st.attempts <= MaxReconnectAttempts
  {
  }

  /** A series of attempts at the given times with the given handshake outcomes. */
  function ReconnectSeries(st: ConnState, times: seq<int>, oks: seq<bool>): ConnState
    requires |times| == |oks|
    decreases |times|
  {
    if times == [] then st else ReconnectSeries(ReconnectStep(st, times[0], oks[0]).st, times[1..], oks[1..])
  }

  /**
   * Once three attempts are recorded the client never tries again: the cap is
   * checked before the 60-second reset, so the reset can no longer happen.
   */
  lemma {:induction false} NeverRetriesAfterCap(st: ConnState, times: seq<int>, oks: seq<bool>)
    requires |times| == |oks| && st.attempts >= MaxReconnectAttempts
    ensures ReconnectSeries(st, times, oks) == st
    decreases |times|
  {
    if times != [] {
      ReconnectRefusedAtCap(st, times[0], oks[0]);
      NeverRetriesAfterCap(st, times[1..], oks[1..]);
    }
  }

  /** Three failed attempts a second apart wait 1, 2 and 4 seconds; a fourth, even hours later, is refused. */
  lemma ThreeFailuresThenSilence(t: int, later: int)
    ensures var s0 := ConnState(false, 0, t);
      var r1 := ReconnectStep(s0, t + 1_000_000, false);
      var r2 := ReconnectStep(r1.st, t + 2_000_000, false);
      var r3 := ReconnectStep(r2.st, t + 3_000_000, false);
      && r1.delay == Some(1) && r2.delay == Some(2) && r3.delay == Some(4)
      && !r1.ok && !r2.ok && !r3.ok
      && ReconnectStep(r3.st, later, true) == Reconnect(r3.st, false, None)
  {
  }

  /** What the receive loop sees: a frame (whose processing may raise), undecodable text, a 30-second silence with the ping's outcome, a close with its code, another exception, or cancellation. */
  datatype Event = Frame(raises: bool) | InvalidJson | Timeout(pongOk: bool) | Closed(code: int) | Failure | Cancel

  /** How `_receive_messages` ends: never entered, ping lost, normal close, reconnecting, cancelled, or still running when the events run out. */
  datatype Exit = NotConnected | PingLost | ClosedNormally | Reconnecting | Cancelled | Running

  /** The events that end the loop. */
  predicate Ends(e: Event) {
    match e
    case Frame(raises) => raises
    case InvalidJson => false
    case Timeout(pongOk) => !pongOk
    case _ => true
  }

  /** The exit an ending event causes. */
  function ExitOf(e: Event): Exit
    requires Ends(e)
  {
    match e
    case Frame(_) => Reconnecting
    case Timeout(_) => PingLost
    case Closed(code) => if code == NormalClosure then ClosedNormally else Reconnecting
    case Failure => Reconnecting
    case Cancel => Cancelled
  }

  /** The loop from event i, connected: the number of events consumed and the exit. */
  function LoopFrom(events: seq<Event>, i: nat): (nat, Exit)
    requires i <= |events|
    decreases |events| - i
  {
    if i == |events| then (i, Running)
    else if Ends(events[i]) then (i + 1, ExitOf(events[i]))
    else LoopFrom(events, i + 1)
  }

  function Loop(events: seq<Event>, connected: bool): (nat, Exit) {
    if connected then LoopFrom(events, 0) else (0, NotConnected)
  }

  /** The loop stops at the first ending event and reacts to it; with none it is still running. */
  lemma {:induction false} LoopFromFirstEnd(events: seq<Event>, i: nat)
    requires i <= |events|
    ensures var r := LoopFrom(events, i);
      && i <= r.0 <= |events|
      && (forall k :: i <= k < r.0 - 1 ==> !Ends(events[k]))
      && (r.1 == Running <==> r.0 == |events| && forall k :: i <= k < |events| ==> !Ends(events[k]))
      && (r.1 != Running ==> r.0 > i && Ends(events[r.0 - 1]) && r.1 == ExitOf(events[r.0 - 1]))
    decreases |events| - i
  {
    if i < |events| && !Ends(events[i]) {
      LoopFromFirstEnd(events, i + 1);
    }
  }

  /** The state after the loop: every exit but cancellation and running clears the flag. */
  function AfterLoop(st: ConnState, exit: Exit): ConnState {
    if exit == Cancelled || exit == Running then st else st.(connected := false)
  }

  class Client {
    var isConnected: bool
    var reconnectAttempts: nat
    var lastReconnectAttempt: int

    function State(): ConnState
      reads this
    {
      ConnState(isConnected, reconnectAttempts, lastReconnectAttempt)
    }

    ghost predicate Valid()
      reads this
    {
      reconnectAttempts <= MaxReconnectAttempts
    }

    constructor (now: int)
      ensures Valid() && State() == ConnState(false, 0, now)
    {
      isConnected := false;
      reconnectAttempts := 0;
      lastReconnectAttempt := now;
    }

    method Connect(handshakeOk: bool) returns (ok: bool)
      modifies this
      ensures (State(), ok) == ConnectStep(old(State()), handshakeOk)
    {
      if isConnected {
        return true;
      }
      isConnected := handshakeOk;
      ok := handshakeOk;
    }

    method Disconnect(closeOk: bool) returns (ok: bool)
      modifies this
      ensures (State(), ok) == DisconnectStep(old(State()), closeOk)
    {
      if !isConnected {
        return true;
      }
      if !closeOk {
        return false;
      }
      isConnected := false;
      ok := true;
    }

    method AttemptReconnect(now: int, handshakeOk: bool) returns (ok: bool, delay: Option<nat>)
      requires Valid()
      modifies this
      ensures Valid()
      ensures Reconnect(State(), ok, delay) == ReconnectStep(old(State()), now, handshakeOk)
    {
      if reconnectAttempts >= MaxReconnectAttempts {
        return false, None;
      }
      if now - lastReconnectAttempt > ResetWindow {
        reconnectAttempts := 0;
      }
      reconnectAttempts := reconnectAttempts + 1;
      lastReconnectAttempt := now;
      delay := Some(Pow2(reconnectAttempts - 1));
      ok := Connect(handshakeOk);
    }

    /**
     * `_receive_messages` over the given events, then `_attempt_reconnect`
     * at `now` when the loop ends by an abnormal close or an exception.
     */
    method ReceiveMessages(events: seq<Event>, now: int, handshakeOk: bool) returns (consumed: nat, exit: Exit, reconnect: Option<Reconnect>)
      requires Valid()
      modifies this
      ensures Valid()
      ensures (consumed, exit) == Loop(events, old(isConnected))
      ensures exit != Reconnecting ==> reconnect == None && State() == AfterLoop(old(State()), exit)
      ensures exit == Reconnecting ==>
        && reconnect == Some(ReconnectStep(AfterLoop(old(State()), exit), now, handshakeOk))
        && State() == reconnect.value.st
    {
      reconnect := None;
      if !isConnected {
        return 0, NotConnected, None;
      }
      var i := 0;
      exit := Running;
      while i < |events|
        invariant 0 <= i <= |events|
        invariant isConnected && State() == old(State())
        invariant LoopFrom(events, i) == LoopFrom(events, 0)
      {
        match events[i] {
        case Frame(raises) =>
          if raises {
            exit := Reconnecting;
            break;
          }
        case InvalidJson =>
        case Timeout(pongOk) =>
          if !pongOk {
            exit := PingLost;
            break;
          }
        case Closed(code) =>
          exit := if code == NormalClosure then ClosedNormally else Reconnecting;
          break;
        case Failure =>
          exit := Reconnecting;
          break;
        case Cancel =>
          exit := Cancelled;
          break;
        }
        i := i + 1;
      }
      consumed := if exit == Running then i else i + 1;
      if exit != Cancelled && exit != Running {
        isConnected := false;
      }
      if exit == Reconnecting {
        var ok, delay := AttemptReconnect(now, handshakeOk);
        reconnect := Some(Reconnect(State(), ok, delay));
      }
    }
  }
}

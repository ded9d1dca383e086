/**
 * betting/bet_executor.py: the `BettingSignal` record with its dictionary
 * form, and the `BettingExecutor` manager, which keeps four dictionaries
 * keyed by user and then by room (sessions, configs, subscribed sockets and
 * the signals issued so far). Sockets are numbers, the outcome of a send or
 * of a handshake is a parameter, and the clock's reading is passed in.
 */
module Betting {
  import opened Wrappers
  import opened Picks
  import opened Timestamps

  /** The JSON values a signal dictionary holds. */
  datatype Value = Str(s: string) | Int(i: int) | Float(f: real)

  /** `BettingSignal`; `confidence` is an opaque number and `timestamp` the `datetime.now()` reading taken at creation. */
  datatype Signal = Signal(roomId: string, position: string, amount: int, strategy: string,
                           confidence: real, predictedBy: string, timestamp: DateTime)

  const SignalKeys: set<string> := {"room_id", "position", "amount", "strategy", "confidence", "predicted_by", "timestamp"}

  /** `to_dict`: the timestamp is written with `isoformat()`. */
  function ToDict(s: Signal): (r: map<string, Value>)
    requires ValidDateTime(s.timestamp)
    ensures r.Keys == SignalKeys
  {
    map["room_id" := Str(s.roomId), "position" := Str(s.position), "amount" := Int(s.amount),
        "strategy" := Str(s.strategy), "confidence" := Float(s.confidence),
        "predicted_by" := Str(s.predictedBy), "timestamp" := Str(IsoFormat(s.timestamp))]
  }

  /** The six fields other than `timestamp` are present with the kind the constructor expects. */
  predicate PlainFields(d: map<string, Value>) {
    && "room_id" in d && d["room_id"].Str? && "position" in d && d["position"].Str?
    && "amount" in d && d["amount"].Int? && "strategy" in d && d["strategy"].Str?
    && "confidence" in d && d["confidence"].Float? && "predicted_by" in d && d["predicted_by"].Str?
  }

  /**
   * `from_dict`: None stands for the `KeyError` of a missing field and the
   * `ValueError` of a timestamp `fromisoformat` refuses.
   */
  function FromDict(d: map<string, Value>): (r: Option<Signal>)
    ensures r.Some? ==> SignalKeys <= d.Keys && ValidDateTime(r.value.timestamp)
    ensures r.Some? ==>
      && d["room_id"] == Str(r.value.roomId) && d["position"] == Str(r.value.position)
      && d["amount"] == Int(r.value.amount) && d["strategy"] == Str(r.value.strategy)
      && d["confidence"] == Float(r.value.confidence) && d["predicted_by"] == Str(r.value.predictedBy)
      && d["timestamp"].Str? && FromIsoFormat(d["timestamp"].s) == Some(r.value.timestamp)
  {
    if !PlainFields(d) || "timestamp" !in d || !d["timestamp"].Str? then None
    else
      match FromIsoFormat(d["timestamp"].s)
      case None => None
      case Some(t) =>
        Some(Signal(d["room_id"].s, d["position"].s, d["amount"].i, d["strategy"].s,
                    d["confidence"].f, d["predicted_by"].s, t))
  }

  /** `BettingSignal.from_dict(s.to_dict())` reproduces every field of `s`. */
  lemma DictRoundTrip(s: Signal)
    requires ValidDateTime(s.timestamp)
    ensures FromDict(ToDict(s)) == Some(s)
  {
    var d := ToDict(s);
    assert d["room_id"] == Str(s.roomId) && d["position"] == Str(s.position) && d["amount"] == Int(s.amount);
    assert d["strategy"] == Str(s.strategy) && d["confidence"] == Float(s.confidence) && d["predicted_by"] == Str(s.predictedBy);
    assert PlainFields(d);
    assert d["timestamp"] == Str(IsoFormat(s.timestamp));
    IsoRoundTrip(s.timestamp);
  }

  /** The `client`, `task` and `last_update` entries of a betting session. */
  datatype Session = Session(hasClient: bool, hasTask: bool, lastUpdate: string)

  /** The entries of a betting config that the executor reads. */
  datatype BetConfig = BetConfig(amount: Option<int>, strategy: Option<string>, roomWebsocketUrl: Option<string>)

  /** `amount` when no config entry gives one. */
  const DefaultAmount: int := 1000

  /** How many of the newest signals `get_betting_data` lists. */
  const ShownSignals: nat := 10

  /** A dictionary keyed by user, then by room. */
  type Nested<V> = map<string, map<string, V>>

  predicate Has<V>(m: Nested<V>, user: string, room: string) {
    user in m && room in m[user]
  }

  /** `m.get(user, {})`. */
  function Inner<V>(m: Nested<V>, user: string): map<string, V> {
    if user in m then m[user] else map[]
  }

  /** Creates the user's dictionary when it is missing, then sets the room's entry. */
  function PutIn<V>(m: Nested<V>, user: string, room: string, v: V): (r: Nested<V>)
    ensures Has(r, user, room) && r[user][room] == v
    ensures forall u, x :: u != user || x != room ==> (Has(r, u, x) <==> Has(m, u, x))
    ensures forall u, x :: (u != user || x != room) && Has(m, u, x) ==> Has(r, u, x) && r[u][x] == m[u][x]
  {
    m[user := Inner(m, user)[room := v]]
  }

  /** A second write to the same pair overrides the first. */
  lemma PutInTwice<V>(m: Nested<V>, user: string, room: string, a: V, b: V)
    ensures PutIn(PutIn(m, user, room, a), user, room, b) == PutIn(m, user, room, b)
  {
    assert Inner(m, user)[room := a][room := b] == Inner(m, user)[room := b];
  }

  /** Writing back the stored entry changes nothing. */
  lemma PutInSame<V>(m: Nested<V>, user: string, room: string)
    requires Has(m, user, room)
    ensures PutIn(m, user, room, m[user][room]) == m
  {
    assert m[user][room := m[user][room]] == m[user];
  }

  /** `m.get(user, {}).get(room, dflt)`. */
  function EntryOr<V>(m: Nested<V>, user: string, room: string, dflt: V): V {
    if Has(m, user, room) then m[user][room] else dflt
  }

  /** The signals issued for the pair so far. */
  function SignalsOf(m: Nested<seq<Signal>>, user: string, room: string): seq<Signal> {
    EntryOr(m, user, room, [])
  }

  /** A session counts as running when its task is set. */
  predicate HasTask(sessions: Nested<Session>, user: string, room: string) {
    Has(sessions, user, room) && sessions[user][room].hasTask
  }

  /** The (user, room) pairs whose session has a task. */
  function ActivePairs(sessions: Nested<Session>): set<(string, string)> {
    set u, x | u in sessions && x in sessions[u] && sessions[u][x].hasTask :: (u, x)
  }

  /** The running pairs are exactly those `is_betting_running` answers True for. */
  lemma ActivePairsRunning(sessions: Nested<Session>, user: string, room: string)
    ensures (user, room) in ActivePairs(sessions) <==> HasTask(sessions, user, room)
  {
  }

  /** Replacing one session changes the set of running pairs at that pair only. */
  lemma ActivePairsPut(sessions: Nested<Session>, user: string, room: string, s: Session)
    ensures ActivePairs(PutIn(sessions, user, room, s))
         == (ActivePairs(sessions) - {(user, room)}) + (if s.hasTask then {(user, room)} else {})
  {
    var r := PutIn(sessions, user, room, s);
    var lhs, rhs := ActivePairs(r), (ActivePairs(sessions) - {(user, room)}) + (if s.hasTask then {(user, room)} else {});
    forall p | p in lhs
      ensures p in rhs
    {
      if p != (user, room) {
        assert HasTask(r, p.0, p.1);
      }
    }
    forall p | p in rhs
      ensures p in lhs
    {
      if p != (user, room) {
        assert HasTask(sessions, p.0, p.1);
        assert HasTask(r, p.0, p.1);
      }
    }
  }

  /** Starting a task adds one running session; clearing one removes exactly one. */
  lemma ActiveCountPut(sessions: Nested<Session>, user: string, room: string, s: Session)
    ensures !HasTask(sessions, user, room) && s.hasTask ==>
      |ActivePairs(PutIn(sessions, user, room, s))| == |ActivePairs(sessions)| + 1
    ensures HasTask(sessions, user, room) && !s.hasTask ==>
      |ActivePairs(PutIn(sessions, user, room, s))| == |ActivePairs(sessions)| - 1
    ensures HasTask(sessions, user, room) == s.hasTask ==>
      |ActivePairs(PutIn(sessions, user, room, s))| == |ActivePairs(sessions)|
  {
    ActivePairsPut(sessions, user, room, s);
    if HasTask(sessions, user, room) {
      assert (user, room) in ActivePairs(sessions);
    } else {
      assert (user, room) !in ActivePairs(sessions);
    }
  }

  /** A set that holds exactly the running pairs is the set of running pairs. */
  lemma ActivePairsByMembers(sessions: Nested<Session>, c: set<(string, string)>)
    requires forall p :: p in c <==> HasTask(sessions, p.0, p.1)
    ensures c == ActivePairs(sessions)
  {
    forall p | p in ActivePairs(sessions)
      ensures p in c
    {
      assert HasTask(sessions, p.0, p.1);
    }
  }

  /** The dictionaries of `signals`, in order: `[s.to_dict() for s in signals]`. */
  function Dicts(signals: seq<Signal>): seq<map<string, Value>>
    requires forall i :: 0 <= i < |signals| ==> ValidDateTime(signals[i].timestamp)
  {
    seq(|signals|, i requires 0 <= i < |signals| => ToDict(signals[i]))
  }

  /** Every dictionary of the list reads back as the signal it was made from. */
  lemma DictsRoundTrip(signals: seq<Signal>)
    requires forall i :: 0 <= i < |signals| ==> ValidDateTime(signals[i].timestamp)
    ensures |Dicts(signals)| == |signals|
    ensures forall i :: 0 <= i < |signals| ==> FromDict(Dicts(signals)[i]) == Some(signals[i])
  {
    forall i | 0 <= i < |signals|
      ensures FromDict(Dicts(signals)[i]) == Some(signals[i])
    {
      DictRoundTrip(signals[i]);
    }
  }

  datatype Status = Running | Stopped | NotRunning

  /** The dictionary `get_betting_data` answers with; `lastUpdate` is absent for "not_running". */
  datatype BettingData = BettingData(status: Status, bettingSignals: seq<map<string, Value>>,
                                     totalSignals: nat, lastUpdate: Option<string>)

  /** The `init_data` message sent to a socket that subscribes. */
  datatype InitData = InitData(isRunning: bool, bettingData: BettingData)

  /** Every stored signal names the room it is stored under and carries a real timestamp. */
  predicate SignalsOk(signals: seq<Signal>, room: string) {
    forall i :: 0 <= i < |signals| ==> signals[i].roomId == room && ValidDateTime(signals[i].timestamp)
  }

  class BettingExecutor {
    var bettingSessions: Nested<Session>
    var bettingConfigs: Nested<BetConfig>
    var connectedWebsockets: Nested<set<nat>>
    var bettingSignals: Nested<seq<Signal>>

    ghost predicate Valid()
      reads this
    {
      forall u, x :: u in bettingSignals && x in bettingSignals[u] ==> SignalsOk(bettingSignals[u][x], x)
    }

    constructor ()
      ensures Valid()
      ensures bettingSessions == map[] && bettingConfigs == map[] && connectedWebsockets == map[] && bettingSignals == map[]
    {
      bettingSessions, bettingConfigs, connectedWebsockets, bettingSignals := map[], map[], map[], map[];
    }

    predicate HasBettingConfig(user: string, room: string)
      reads this
    {
      Has(bettingConfigs, user, room)
    }

    predicate HasBettingData(user: string, room: string)
      reads this
    {
      Has(bettingSessions, user, room)
    }

    predicate IsBettingRunning(user: string, room: string)
      reads this
    {
      HasTask(bettingSessions, user, room)
    }

    /** `get_active_bettings_count`: the loop over every user's sessions counts those with a task. */
    method GetActiveBettingsCount() returns (count: nat)
      ensures count == |ActivePairs(bettingSessions)|
    {
      count := CountActive(bettingSessions);
    }

    /** The outer loop of `get_active_bettings_count`, over the users. */
    static method CountActive(sessions: Nested<Session>) returns (count: nat)
      ensures count == |ActivePairs(sessions)|
    {
      count := 0;
      ghost var counted: set<(string, string)> := {};
      var users: set<string>, done: set<string> := sessions.Keys, {};
      while users != {}
        invariant users !! done && users + done == sessions.Keys
        invariant count == |counted|
        invariant forall p :: p in counted <==> p.0 in done && HasTask(sessions, p.0, p.1)
        decreases users
      {
        var u :| u in users;
        count, counted := CountRooms(sessions, u, done, count, counted);
        users, done := users - {u}, done + {u};
      }
      ActivePairsByMembers(sessions, counted);
    }

    /**
     * The inner loop, over one user's sessions: `counted` grows by the pairs
     * of `user` whose task is set, and `count` follows its size.
     */
    static method CountRooms(sessions: Nested<Session>, user: string, done: set<string>,
                             count0: nat, ghost counted0: set<(string, string)>)
      returns (count: nat, ghost counted: set<(string, string)>)
      requires user in sessions && user !in done
      requires count0 == |counted0|
      requires forall p :: p in counted0 <==> p.0 in done && HasTask(sessions, p.0, p.1)
      ensures count == |counted|
      ensures forall p :: p in counted <==> (p.0 in done || p.0 == user) && HasTask(sessions, p.0, p.1)
    {
      count, counted := count0, counted0;
      var userSessions := sessions[user];
      var rooms: set<string>, seen: set<string> := userSessions.Keys, {};
      while rooms != {}
        invariant rooms !! seen && rooms + seen == userSessions.Keys
        invariant count == |counted|
        invariant forall p :: p in counted <==> (p.0 in done || (p.0 == user && p.1 in seen)) && HasTask(sessions, p.0, p.1)
        decreases rooms
      {
        var x :| x in rooms;
        if userSessions[x].hasTask {
          assert (user, x) !in counted;
          count, counted := count + 1, counted + {(user, x)};
        }
        rooms, seen := rooms - {x}, seen + {x};
      }
    }

    /** `set_betting_config`: creates the user's dictionary if needed and replaces the room's config. */
    method SetBettingConfig(user: string, room: string, config: BetConfig)
      requires Valid()
      modifies this
      ensures Valid()
      ensures bettingConfigs == PutIn(old(bettingConfigs), user, room, config)
      ensures bettingSessions == old(bettingSessions) && connectedWebsockets == old(connectedWebsockets)
      ensures bettingSignals == old(bettingSignals)
    {
      bettingConfigs := PutIn(bettingConfigs, user, room, config);
    }

    /**
     * `generate_betting_signal`: nothing without a config for the pair;
     * otherwise a signal for the room with the config's amount (1000 when it
     * has none), appended to the room's list.
     */
    method GenerateBettingSignal(user: string, room: string, position: string, strategy: string,
                                 confidence: real, predictedBy: string, now: DateTime)
      returns (signal: Option<Signal>)
      requires Valid() && ValidDateTime(now)
      modifies this
      ensures Valid()
      ensures !old(HasBettingConfig(user, room)) ==> signal.None? && bettingSignals == old(bettingSignals)
      ensures old(HasBettingConfig(user, room)) ==>
        && signal == Some(Signal(room, position, old(bettingConfigs[user][room]).amount.GetOr(DefaultAmount),
                                 strategy, confidence, predictedBy, now))
        && bettingSignals == PutIn(old(bettingSignals), user, room, SignalsOf(old(bettingSignals), user, room) + [signal.value])
      ensures bettingSessions == old(bettingSessions) && bettingConfigs == old(bettingConfigs)
      ensures connectedWebsockets == old(connectedWebsockets)
    {
      if !HasBettingConfig(user, room) {
        return None;
      }
      var config := bettingConfigs[user][room];
      var amount := config.amount.GetOr(DefaultAmount);
      var s := Signal(room, position, amount, strategy, confidence, predictedBy, now);
      var list := SignalsOf(bettingSignals, user, room);
      bettingSignals := PutIn(bettingSignals, user, room, list + [s]);
      signal := Some(s);
    }

    /**
     * `get_betting_data`: "not_running" with nothing listed when the pair has
     * no session; otherwise the status, the dictionaries of the ten newest
     * signals (each of which reads back as the stored signal) and the count of
     * all of them.
     */
    function GetBettingData(user: string, room: string): (d: BettingData)
      requires Valid()
      reads this
      ensures !HasBettingData(user, room) ==> d == BettingData(NotRunning, [], 0, None)
      ensures HasBettingData(user, room) ==>
        var signals := SignalsOf(bettingSignals, user, room);
        var shown := LastN(signals, ShownSignals);
        && d.status == (if IsBettingRunning(user, room) then Running else Stopped)
        && d.totalSignals == |signals|
        && |d.bettingSignals| == |shown| <= ShownSignals
        && (forall i :: 0 <= i < |shown| ==> FromDict(d.bettingSignals[i]) == Some(shown[i]))
        && d.lastUpdate == Some(bettingSessions[user][room].lastUpdate)
    {
      if !HasBettingData(user, room) then BettingData(NotRunning, [], 0, None)
      else
        var session := bettingSessions[user][room];
        var signals := SignalsOf(bettingSignals, user, room);
        var shown := LastN(signals, ShownSignals);
        assert forall i :: 0 <= i < |shown| ==> shown[i] == signals[|signals| - |shown| + i];
        DictsRoundTrip(shown);
        BettingData(if session.hasTask then Running else Stopped, Dicts(shown), |signals|, Some(session.lastUpdate))
    }

    /** `register_websocket`: subscribes the socket and answers with the `init_data` it is sent, if the pair has a session. */
    method RegisterWebsocket(user: string, room: string, ws: nat) returns (init: Option<InitData>)
      requires Valid()
      modifies this
      ensures Valid()
      ensures connectedWebsockets == PutIn(old(connectedWebsockets), user, room, EntryOr(old(connectedWebsockets), user, room, {}) + {ws})
      ensures init == if HasBettingData(user, room) then Some(InitData(IsBettingRunning(user, room), GetBettingData(user, room))) else None
      ensures bettingSessions == old(bettingSessions) && bettingConfigs == old(bettingConfigs)
      ensures bettingSignals == old(bettingSignals)
    {
      var sockets := EntryOr(connectedWebsockets, user, room, {});
      connectedWebsockets := PutIn(connectedWebsockets, user, room, sockets + {ws});
      init := None;
      if HasBettingData(user, room) {
        init := Some(InitData(IsBettingRunning(user, room), GetBettingData(user, room)));
      }
    }

    /** `unregister_websocket`: drops the socket from the pair's set when that set exists. */
    method UnregisterWebsocket(user: string, room: string, ws: nat)
      requires Valid()
      modifies this
      ensures Valid()
      ensures connectedWebsockets == if Has(old(connectedWebsockets), user, room)
        then PutIn(old(connectedWebsockets), user, room, old(connectedWebsockets[user][room]) - {ws})
        else old(connectedWebsockets)
      ensures bettingSessions == old(bettingSessions) && bettingConfigs == old(bettingConfigs)
      ensures bettingSignals == old(bettingSignals)
    {
      if Has(connectedWebsockets, user, room) {
        connectedWebsockets := PutIn(connectedWebsockets, user, room, connectedWebsockets[user][room] - {ws});
      }
    }

    /**
     * `broadcast_to_room`: sends to every socket of the pair, then discards
     * exactly the sockets whose send raised (`fails`); nothing happens when
     * the pair has no socket set.
     */
    method BroadcastToRoom(user: string, room: string, fails: set<nat>) returns (delivered: set<nat>)
      requires Valid()
      modifies this
      ensures Valid()
      ensures !Has(old(connectedWebsockets), user, room) ==> delivered == {} && connectedWebsockets == old(connectedWebsockets)
      ensures Has(old(connectedWebsockets), user, room) ==>
        && delivered == old(connectedWebsockets[user][room]) - fails
        && connectedWebsockets == PutIn(old(connectedWebsockets), user, room, old(connectedWebsockets[user][room]) - fails)
      ensures bettingSessions == old(bettingSessions) && bettingConfigs == old(bettingConfigs)
      ensures bettingSignals == old(bettingSignals)
    {
      delivered := {};
      if !Has(connectedWebsockets, user, room) {
        return;
      }
      var sockets := connectedWebsockets[user][room];
      var deadSockets := SendAll(sockets, fails);
      delivered := sockets - deadSockets;
      var toDrop := deadSockets;
      assert sockets - (deadSockets - toDrop) == sockets;
      PutInSame(connectedWebsockets, user, room);
      while toDrop != {}
        invariant toDrop <= deadSockets
        invariant connectedWebsockets == PutIn(old(connectedWebsockets), user, room, sockets - (deadSockets - toDrop))
        invariant bettingSessions == old(bettingSessions) && bettingConfigs == old(bettingConfigs)
        invariant bettingSignals == old(bettingSignals)
        decreases toDrop
      {
        var deadSocket :| deadSocket in toDrop;
        PutInTwice(old(connectedWebsockets), user, room, sockets - (deadSockets - toDrop), sockets - (deadSockets - (toDrop - {deadSocket})));
        assert connectedWebsockets[user][room] - {deadSocket} == sockets - (deadSockets - (toDrop - {deadSocket}));
        connectedWebsockets := PutIn(connectedWebsockets, user, room, connectedWebsockets[user][room] - {deadSocket});
        toDrop := toDrop - {deadSocket};
      }
      assert sockets - (deadSockets - toDrop) == sockets - fails;
    }

    /** The sending loop of `broadcast_to_room`: the sockets whose send raised. */
    static method SendAll(sockets: set<nat>, fails: set<nat>) returns (deadSockets: set<nat>)
      ensures deadSockets == sockets * fails
    {
      deadSockets := {};
      var todo := sockets;
      while todo != {}
        invariant todo <= sockets
        invariant deadSockets == (sockets - todo) * fails
        decreases todo
      {
        var websocket :| websocket in todo;
        if websocket in fails {
          deadSockets := deadSockets + {websocket};
        }
        todo := todo - {websocket};
      }
    }

    /**
     * `start_monitoring`: refused without a config; a running pair is left
     * alone and answers True. Otherwise a session with no client or task is
     * created if the pair has none, and that entry stays even when the start
     * then fails for want of a `room_websocket_url` or a connection. On
     * success the client and the task are set, so one more session runs.
     */
    method StartMonitoring(user: string, room: string, connectOk: bool, now: string) returns (ok: bool)
      requires Valid()
      modifies this
      ensures Valid()
      ensures !old(HasBettingConfig(user, room)) ==> !ok && bettingSessions == old(bettingSessions)
      ensures old(HasBettingConfig(user, room)) && old(IsBettingRunning(user, room)) ==> ok && bettingSessions == old(bettingSessions)
      ensures old(HasBettingConfig(user, room)) && !old(IsBettingRunning(user, room)) ==>
        var session := EntryOr(old(bettingSessions), user, room, Session(false, false, now));
        var url := old(bettingConfigs[user][room]).roomWebsocketUrl;
        && ok == (url.Some? && url.value != "" && connectOk)
        && bettingSessions == PutIn(old(bettingSessions), user, room,
                                    if ok then session.(hasClient := true, hasTask := true) else session)
      ensures ok && !old(IsBettingRunning(user, room)) ==> |ActivePairs(bettingSessions)| == |ActivePairs(old(bettingSessions))| + 1
      ensures !ok ==> |ActivePairs(bettingSessions)| == |ActivePairs(old(bettingSessions))|
      ensures bettingConfigs == old(bettingConfigs) && connectedWebsockets == old(connectedWebsockets)
      ensures bettingSignals == old(bettingSignals)
    {
      if !HasBettingConfig(user, room) {
        return false;
      }
      if IsBettingRunning(user, room) {
        return true;
      }
      var config := bettingConfigs[user][room];
      var session := EntryOr(bettingSessions, user, room, Session(false, false, now));
      ActiveCountPut(bettingSessions, user, room, session);
      bettingSessions := PutIn(bettingSessions, user, room, session);
      var url := config.roomWebsocketUrl;
      if url.None? || url.value == "" {
        return false;
      }
      if !connectOk {
        return false;
      }
      var started := session.(hasClient := true, hasTask := true);
      PutInTwice(old(bettingSessions), user, room, session, started);
      bettingSessions := PutIn(bettingSessions, user, room, started);
      ActiveCountPut(old(bettingSessions), user, room, started);
      ok := true;
    }

    /**
     * The first step of the monitoring task (`run_monitoring`): the
     * "is_running: True" status goes to the pair's sockets, and those whose
     * send raised are dropped; the session is left as it is.
     */
    method MonitoringStarted(user: string, room: string, fails: set<nat>) returns (delivered: set<nat>)
      requires Valid()
      modifies this
      ensures Valid()
      ensures delivered == if Has(old(connectedWebsockets), user, room) then old(connectedWebsockets[user][room]) - fails else {}
      ensures connectedWebsockets == if Has(old(connectedWebsockets), user, room)
        then PutIn(old(connectedWebsockets), user, room, old(connectedWebsockets[user][room]) - fails)
        else old(connectedWebsockets)
      ensures bettingSessions == old(bettingSessions) && bettingConfigs == old(bettingConfigs)
      ensures bettingSignals == old(bettingSignals)
    {
      delivered := BroadcastToRoom(user, room, fails);
    }

    /**
     * The end of the monitoring task (the `finally` of `run_monitoring`): the
     * "is_running: False" status goes to the pair's sockets and the task
     * reference is cleared if the session still exists.
     */
    method MonitoringFinished(user: string, room: string, fails: set<nat>) returns (delivered: set<nat>)
      requires Valid()
      modifies this
      ensures Valid()
      ensures bettingSessions == if Has(old(bettingSessions), user, room)
        then PutIn(old(bettingSessions), user, room, old(bettingSessions[user][room]).(hasTask := false))
        else old(bettingSessions)
      ensures delivered == if Has(old(connectedWebsockets), user, room) then old(connectedWebsockets[user][room]) - fails else {}
      ensures connectedWebsockets == if Has(old(connectedWebsockets), user, room)
        then PutIn(old(connectedWebsockets), user, room, old(connectedWebsockets[user][room]) - fails)
        else old(connectedWebsockets)
      ensures !IsBettingRunning(user, room)
      ensures bettingConfigs == old(bettingConfigs) && bettingSignals == old(bettingSignals)
    {
      delivered := BroadcastToRoom(user, room, fails);
      if Has(bettingSessions, user, room) {
        bettingSessions := PutIn(bettingSessions, user, room, bettingSessions[user][room].(hasTask := false));
      }
    }

    /**
     * `stop_monitoring`: False when the pair is not running. Otherwise the
     * task is cancelled and awaited, so its `finally` first sends the
     * "is_running: False" status to the pair's sockets and drops those whose
     * send raised (`fails`); then task and client are cleared, so one session
     * fewer runs.
     */
    method StopMonitoring(user: string, room: string, fails: set<nat>) returns (ok: bool, delivered: set<nat>)
      requires Valid()
      modifies this
      ensures Valid()
      ensures ok == old(IsBettingRunning(user, room))
      ensures !ok ==> bettingSessions == old(bettingSessions) && connectedWebsockets == old(connectedWebsockets) && delivered == {}
      ensures ok ==>
        && bettingSessions == PutIn(old(bettingSessions), user, room,
                                    old(bettingSessions[user][room]).(hasClient := false, hasTask := false))
        && |ActivePairs(bettingSessions)| == |ActivePairs(old(bettingSessions))| - 1
        && delivered == (if Has(old(connectedWebsockets), user, room) then old(connectedWebsockets[user][room]) - fails else {})
        && connectedWebsockets == if Has(old(connectedWebsockets), user, room)
             then PutIn(old(connectedWebsockets), user, room, old(connectedWebsockets[user][room]) - fails)
             else old(connectedWebsockets)
      ensures !IsBettingRunning(user, room)
      ensures bettingConfigs == old(bettingConfigs) && bettingSignals == old(bettingSignals)
    {
      delivered := {};
      if !IsBettingRunning(user, room) {
        return false, delivered;
      }
      delivered := BroadcastToRoom(user, room, fails);
      var stopped := bettingSessions[user][room].(hasClient := false, hasTask := false);
      ActiveCountPut(bettingSessions, user, room, stopped);
      bettingSessions := PutIn(bettingSessions, user, room, stopped);
      ok := true;
    }

    /** `_process_round_result`: a running pair's `last_update` becomes `now`; otherwise nothing changes. */
    method ProcessRoundResult(user: string, room: string, now: string)
      requires Valid()
      modifies this
      ensures Valid()
      ensures bettingSessions == if old(IsBettingRunning(user, room))
        then PutIn(old(bettingSessions), user, room, old(bettingSessions[user][room]).(lastUpdate := now))
        else old(bettingSessions)
      ensures |ActivePairs(bettingSessions)| == |ActivePairs(old(bettingSessions))|
      ensures bettingConfigs == old(bettingConfigs) && connectedWebsockets == old(connectedWebsockets)
      ensures bettingSignals == old(bettingSignals)
    {
      if !IsBettingRunning(user, room) {
        return;
      }
      var updated := bettingSessions[user][room].(lastUpdate := now);
      ActiveCountPut(bettingSessions, user, room, updated);
      bettingSessions := PutIn(bettingSessions, user, room, updated);
    }
  }
}

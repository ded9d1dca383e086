/**
 * `LobbyMonitor` (monitor/lobby_monitor.py): per-user client entries with
 * the room data the history callback keeps, streak settings, room names and
 * the browser websockets that receive updates. Websockets are numbered; a
 * send that raises is given as the set of sockets that fail; file loading is
 * replaced by the mappings it would have produced.
 */
module Monitor {
  import opened Wrappers
  import opened Sorting
  import opened Records
  import opened Streaks
  import opened Ingest
  import opened Urls

  /** `clients[user_id]`: whether a client object and a task are stored, and the room data. */
  datatype ClientEntry = ClientEntry(hasClient: bool, running: bool, roomData: Dict<seq<Item>>)

  /** Room data as the callback stores it: distinct room ids, every result with a two-coordinate `pos`. */
  ghost predicate RoomsOk(d: Dict<seq<Item>>) {
    UniqueKeys(d) && forall i :: 0 <= i < |d| ==> AllStrictKeys(d[i].1)
  }

  lemma {:induction false} RoomsOkPut(d: Dict<seq<Item>>, k: string, v: seq<Item>)
    requires RoomsOk(d) && AllStrictKeys(v)
    ensures RoomsOk(Put(d, k, v))
  {
    PutUnique(d, k, v);
    StrictRoomsPut(d, k, v);
  }

  lemma {:induction false} StrictRoomsPut(d: Dict<seq<Item>>, k: string, v: seq<Item>)
    requires (forall i :: 0 <= i < |d| ==> AllStrictKeys(d[i].1)) && AllStrictKeys(v)
    ensures var r := Put(d, k, v); forall i :: 0 <= i < |r| ==> AllStrictKeys(r[i].1)
  {
    if d != [] && d[0].0 != k {
      StrictRoomsPut(d[1..], k, v);
      assert Put(d, k, v) == [d[0]] + Put(d[1..], k, v);
    }
  }

  function SettingsFor(settings: map<string, StreakSettings>, user: string): StreakSettings {
    if user in settings then settings[user] else DefaultSettings
  }

  /** `get_room_mappings` caches what it loads; `loaded` stands for the file contents, or {} without a file. */
  function CachedMappings(m: map<string, map<string, string>>, user: string, loaded: map<string, string>): map<string, map<string, string>> {
    if user in m then m else m[user := loaded]
  }

  datatype CallbackOutcome = CallbackOutcome(rooms: Dict<seq<Item>>, raised: bool, updated: bool)

  /** The table loop of the history callback from table i: every table with results is overwritten, sorted; a bad `pos` raises. */
  function CallbackFrom(d: Dict<seq<Item>>, args: seq<(string, TableData)>, i: nat): CallbackOutcome
    requires i <= |args|
    decreases |args| - i
  {
    if i == |args| then CallbackOutcome(d, false, false)
    else if args[i].1.results.None? then CallbackFrom(d, args, i + 1)
    else
      match StrictSort(args[i].1.results.value)
      case None => CallbackOutcome(d, true, false)
      case Some(sorted) =>
        var r := CallbackFrom(Put(d, args[i].0, sorted), args, i + 1);
        CallbackOutcome(r.rooms, r.raised, true)
  }

  function Callback(d: Dict<seq<Item>>, msg: Message): CallbackOutcome {
    if IsHistoryUpdate(msg) then CallbackFrom(d, msg.args.value, 0) else CallbackOutcome(d, false, false)
  }

  /** Rooms the frame does not mention keep their data. */
  lemma {:induction false} CallbackUntouched(d: Dict<seq<Item>>, args: seq<(string, TableData)>, i: nat, x: string)
    requires i <= |args| && AbsentFrom(args, i, x)
    ensures Lookup(CallbackFrom(d, args, i).rooms, x) == Lookup(d, x)
    decreases |args| - i
  {
    if i < |args| && args[i].1.results.Some? {
      match StrictSort(args[i].1.results.value)
      case None =>
      case Some(sorted) =>
        PutLookup(d, args[i].0, sorted, x);
        CallbackUntouched(Put(d, args[i].0, sorted), args, i + 1, x);
    }
    else if i < |args| {
      CallbackUntouched(d, args, i + 1, x);
    }
  }

  /**
   * Unlike the client's own store, the callback overwrites: after a frame
   * that raised nothing, every table of the frame with results holds those
   * results sorted by position, whether or not they changed.
   */
  lemma {:induction false} CallbackOverwrites(d: Dict<seq<Item>>, args: seq<(string, TableData)>, i: nat, k: nat)
    requires i <= k < |args| && UniqueKeys(args) && args[k].1.results.Some?
    requires !CallbackFrom(d, args, i).raised
    ensures Lookup(CallbackFrom(d, args, i).rooms, args[k].0) == StrictSort(args[k].1.results.value)
    ensures CallbackFrom(d, args, i).updated
    decreases |args| - i
  {
    if args[i].1.results.None? {
      CallbackOverwrites(d, args, i + 1, k);
    } else {
      match StrictSort(args[i].1.results.value)
      case Some(sorted) =>
        var d' := Put(d, args[i].0, sorted);
        if i == k {
          PutLookup(d, args[i].0, sorted, args[i].0);
          CallbackUntouched(d', args, i + 1, args[i].0);
        } else {
          CallbackOverwrites(d', args, i + 1, k);
        }
    }
  }

  /** Room data stays well formed whatever the frame holds, even when it raises part-way. */
  lemma {:induction false} CallbackKeepsRoomsOk(d: Dict<seq<Item>>, args: seq<(string, TableData)>, i: nat)
    requires i <= |args| && RoomsOk(d)
    ensures RoomsOk(CallbackFrom(d, args, i).rooms)
    decreases |args| - i
  {
    if i < |args| && args[i].1.results.Some? {
      match StrictSort(args[i].1.results.value)
      case None =>
      case Some(sorted) =>
        StrictSortFacts(args[i].1.results.value);
        RoomsOkPut(d, args[i].0, sorted);
        CallbackKeepsRoomsOk(Put(d, args[i].0, sorted), args, i + 1);
    } else if i < |args| {
      CallbackKeepsRoomsOk(d, args, i + 1);
    }
  }

  class LobbyMonitor {
    var clients: map<string, ClientEntry>
    var sessionConfigs: map<string, ClientConfig>
    var streakSettings: map<string, StreakSettings>
    var roomMappings: map<string, map<string, string>>
    var connectedWebsockets: map<string, set<nat>>

    ghost predicate Valid()
      reads this
    {
      forall u :: u in clients ==> RoomsOk(clients[u].roomData)
    }

    constructor ()
      ensures Valid()
      ensures clients == map[] && sessionConfigs == map[] && streakSettings == map[]
      ensures roomMappings == map[] && connectedWebsockets == map[]
    {
      clients := map[];
      sessionConfigs := map[];
      streakSettings := map[];
      roomMappings := map[];
      connectedWebsockets := map[];
    }

    /** `get_active_monitors_count`: the users whose entry holds a task. */
    function ActiveMonitorsCount(): (r: nat)
      reads this
      ensures r <= |clients|
    {
      var running := set u | u in clients && clients[u].running;
      assert running <= clients.Keys;
      SubsetCard(running, clients.Keys);
      |running|
    }

    predicate HasSessionConfig(user: string)
      reads this
    {
      user in sessionConfigs
    }

    predicate HasUserData(user: string)
      reads this
    {
      user in clients
    }

    predicate IsClientRunning(user: string)
      reads this
    {
      user in clients && clients[user].running
    }

    /** `get_room_data`: the stored results of one room, `None` for an unknown user or room. */
    function GetRoomData(user: string, roomId: string): (r: Option<seq<Item>>)
      reads this
      ensures user !in clients ==> r == None
      ensures user in clients ==> (r.Some? <==> roomId in Keys(clients[user].roomData))
    {
      if user !in clients then None
      else
        LookupSome(clients[user].roomData, roomId);
        Lookup(clients[user].roomData, roomId)
    }

    /** `get_room_mappings`: the cached mappings, or `loaded` (what the mappings file yields), which is then cached. */
    method GetRoomMappings(user: string, loaded: map<string, string>) returns (m: map<string, string>)
      modifies this
      ensures roomMappings == CachedMappings(old(roomMappings), user, loaded)
      ensures m == roomMappings[user]
      ensures old(user in roomMappings) ==> m == old(roomMappings[user])
      ensures clients == old(clients) && sessionConfigs == old(sessionConfigs)
      ensures streakSettings == old(streakSettings) && connectedWebsockets == old(connectedWebsockets)
    {
      if user in roomMappings {
        return roomMappings[user];
      }
      roomMappings := roomMappings[user := loaded];
      m := loaded;
    }

    method SetRoomMappings(user: string, mappings: map<string, string>)
      modifies this
      ensures roomMappings == old(roomMappings)[user := mappings]
      ensures clients == old(clients) && sessionConfigs == old(sessionConfigs)
      ensures streakSettings == old(streakSettings) && connectedWebsockets == old(connectedWebsockets)
    {
      roomMappings := roomMappings[user := mappings];
    }

    method SetSessionConfig(user: string, config: ClientConfig)
      modifies this
      ensures sessionConfigs == old(sessionConfigs)[user := config]
      ensures clients == old(clients) && roomMappings == old(roomMappings)
      ensures streakSettings == old(streakSettings) && connectedWebsockets == old(connectedWebsockets)
    {
      sessionConfigs := sessionConfigs[user := config];
    }

    method SetStreakSettings(user: string, settings: StreakSettings)
      modifies this
      ensures streakSettings == old(streakSettings)[user := settings]
      ensures clients == old(clients) && roomMappings == old(roomMappings)
      ensures sessionConfigs == old(sessionConfigs) && connectedWebsockets == old(connectedWebsockets)
    {
      streakSettings := streakSettings[user := settings];
    }

    /** The counter loop of `calculate_streaks` over one room's results, newest first. */
    static method CountStreak(latest: seq<Item>, pt: int, bt: int) returns (playerStreak: int, bankerStreak: int)
      ensures (playerStreak, bankerStreak) == Scan(Codes(latest), pt, bt)
    {
      playerStreak, bankerStreak := 0, 0;
      var i := 0;
      while i < |latest|
        invariant 0 <= i <= |latest|
        invariant ScanFrom(Codes(latest), i, playerStreak, bankerStreak, pt, bt) == Scan(Codes(latest), pt, bt)
      {
        var c := Code(latest[i]);
        if c == "B" {
          playerStreak, bankerStreak := playerStreak + 1, 0;
        } else if c == "R" {
          playerStreak, bankerStreak := 0, bankerStreak + 1;
        } else {
          playerStreak, bankerStreak := 0, 0;
        }
        if playerStreak >= pt || bankerStreak >= bt {
          break;
        }
        i := i + 1;
      }
    }

    /**
     * `calculate_streaks`: missing settings become {3, 3, 10} and are stored;
     * the room names come from `get_room_mappings`. `None` stands for the
     * exception a room with enough results and a bad `pos` raises.
     */
    method CalculateStreaks(user: string, roomData: Dict<seq<Item>>, loaded: map<string, string>) returns (data: Option<StreakData>)
      modifies this
      ensures streakSettings == old(streakSettings)[user := SettingsFor(old(streakSettings), user)]
      ensures roomMappings == CachedMappings(old(roomMappings), user, loaded)
      ensures data == StreakReport(roomData, streakSettings[user], roomMappings[user])
      ensures clients == old(clients) && sessionConfigs == old(sessionConfigs) && connectedWebsockets == old(connectedWebsockets)
    {
      if user !in streakSettings {
        streakSettings := streakSettings[user := DefaultSettings];
      }
      var s := streakSettings[user];
      var names := GetRoomMappings(user, loaded);
      data := StreaksOf(roomData, s, names);
    }

    /** The room loop of `calculate_streaks` and its two final sorts. */
    static method StreaksOf(roomData: Dict<seq<Item>>, s: StreakSettings, names: map<string, string>) returns (data: Option<StreakData>)
      ensures data == StreakReport(roomData, s, names)
    {
      var playerRooms: seq<StreakRoom>, bankerRooms: seq<StreakRoom> := [], [];
      var i := 0;
      while i < |roomData|
        invariant 0 <= i <= |roomData|
        invariant Collect(roomData[..i], s, names) == Some((playerRooms, bankerRooms))
      {
        CollectNext(roomData, i, s, names);
        var here := RoomStreaks(roomData[i].0, roomData[i].1, s, names);
        if here.None? {
          CollectNoneExtends(roomData, i + 1, s, names);
          return None;
        }
        playerRooms, bankerRooms := playerRooms + here.value.0, bankerRooms + here.value.1;
        i := i + 1;
      }
      assert roomData[..i] == roomData;
      data := Some(StreakData(SortBy(playerRooms, StreakKey), SortBy(bankerRooms, StreakKey)));
    }

    /** One pass of the room loop: rooms with too few results are skipped, the others counted newest first. */
    static method RoomStreaks(id: string, results: seq<Item>, s: StreakSettings, names: map<string, string>)
      returns (entries: Option<(seq<StreakRoom>, seq<StreakRoom>)>)
      ensures entries == RoomEntries(id, results, s, names)
    {
      if |results| < s.minResults {
        return Some(([], []));
      }
      if !AllStrictKeys(results) {
        return None;
      }
      var latest := SortBy(results, NewestFirstKey);
      var playerStreak, bankerStreak := CountStreak(latest, s.playerStreak, s.bankerStreak);
      var roomName := if id in names then names[id] else id;
      var playerRooms: seq<StreakRoom>, bankerRooms: seq<StreakRoom> := [], [];
      if playerStreak >= s.playerStreak {
        playerRooms := [StreakRoom(id, roomName, playerStreak)];
      }
      if bankerStreak >= s.bankerStreak {
        bankerRooms := [StreakRoom(id, roomName, bankerStreak)];
      }
      entries := Some((playerRooms, bankerRooms));
    }

    /** `get_monitor_data`: empty lists for a user without an entry (and nothing is stored); otherwise the streaks of the stored room data. */
    method GetMonitorData(user: string, loaded: map<string, string>) returns (data: StreakData)
      requires Valid()
      modifies this
      ensures user !in clients ==> data == NoStreaks && streakSettings == old(streakSettings) && roomMappings == old(roomMappings)
      ensures user in clients ==>
        && streakSettings == old(streakSettings)[user := SettingsFor(old(streakSettings), user)]
        && roomMappings == CachedMappings(old(roomMappings), user, loaded)
        && Some(data) == StreakReport(clients[user].roomData, streakSettings[user], roomMappings[user])
      ensures clients == old(clients) && sessionConfigs == old(sessionConfigs) && connectedWebsockets == old(connectedWebsockets)
    {
      if user !in clients {
        return NoStreaks;
      }
      var roomData := clients[user].roomData;
      var r := CalculateStreaks(user, roomData, loaded);
      CollectSome(roomData, streakSettings[user], roomMappings[user]);
      data := r.value;
    }

    /**
     * `broadcast_to_user`: every registered socket is sent the message; the
     * ones whose send raises are dropped afterwards. Nothing happens for a
     * user without sockets.
     */
    method BroadcastToUser(user: string, fails: set<nat>) returns (delivered: set<nat>)
      modifies this
      ensures user !in old(connectedWebsockets) ==> delivered == {} && connectedWebsockets == old(connectedWebsockets)
      ensures user in old(connectedWebsockets) ==>
        && delivered == old(connectedWebsockets[user]) - fails
        && connectedWebsockets == old(connectedWebsockets)[user := old(connectedWebsockets[user]) - fails]
      ensures clients == old(clients) && sessionConfigs == old(sessionConfigs)
      ensures streakSettings == old(streakSettings) && roomMappings == old(roomMappings)
    {
      delivered := {};
      if user !in connectedWebsockets {
        return;
      }
      var sockets := connectedWebsockets[user];
      var deadSockets: set<nat> := {};
      var todo := sockets;
      while todo != {}
        invariant todo <= sockets
        invariant deadSockets == (sockets - todo) * fails
        invariant delivered == (sockets - todo) - fails
        invariant connectedWebsockets == old(connectedWebsockets) && clients == old(clients) && sessionConfigs == old(sessionConfigs)
        invariant streakSettings == old(streakSettings) && roomMappings == old(roomMappings)
        decreases todo
      {
        var ws :| ws in todo;
        if ws in fails {
          deadSockets := deadSockets + {ws};
        } else {
          delivered := delivered + {ws};
        }
        todo := todo - {ws};
      }
      var toDrop := deadSockets;
      assert sockets - (deadSockets - toDrop) == sockets;
      while toDrop != {}
        invariant toDrop <= deadSockets
        invariant user in connectedWebsockets
        invariant connectedWebsockets == old(connectedWebsockets)[user := sockets - (deadSockets - toDrop)]
        invariant clients == old(clients) && sessionConfigs == old(sessionConfigs)
        invariant streakSettings == old(streakSettings) && roomMappings == old(roomMappings)
        decreases toDrop
      {
        var ws :| ws in toDrop;
        assert sockets - (deadSockets - (toDrop - {ws})) == (sockets - (deadSockets - toDrop)) - {ws};
        connectedWebsockets := connectedWebsockets[user := connectedWebsockets[user] - {ws}];
        toDrop := toDrop - {ws};
      }
      assert deadSockets - toDrop == deadSockets;
      assert deadSockets == sockets * fails;
      assert sockets - deadSockets == sockets - fails;
    }

    /**
     * `register_websocket` followed by `send_init_data`: the socket joins the
     * user's set; a user with an entry is sent `is_running` and the monitor
     * data, unless that send raises.
     */
    method RegisterWebsocket(user: string, ws: nat, initSendOk: bool, loaded: map<string, string>) returns (init: Option<(bool, StreakData)>)
      requires Valid()
      modifies this
      ensures Valid()
      ensures connectedWebsockets == old(connectedWebsockets)[user := (if user in old(connectedWebsockets) then old(connectedWebsockets[user]) else {}) + {ws}]
      ensures user !in clients ==> init == None && streakSettings == old(streakSettings) && roomMappings == old(roomMappings)
      ensures user in clients ==>
        && streakSettings == old(streakSettings)[user := SettingsFor(old(streakSettings), user)]
        && roomMappings == CachedMappings(old(roomMappings), user, loaded)
        && (initSendOk <==> init.Some?)
        && (init.Some? ==>
              init.value.0 == clients[user].running
              && Some(init.value.1) == StreakReport(clients[user].roomData, streakSettings[user], roomMappings[user]))
      ensures clients == old(clients) && sessionConfigs == old(sessionConfigs)
    {
      if user !in connectedWebsockets {
        connectedWebsockets := connectedWebsockets[user := {}];
      }
      connectedWebsockets := connectedWebsockets[user := connectedWebsockets[user] + {ws}];
      init := None;
      if user in clients {
        var data := GetMonitorData(user, loaded);
        if initSendOk {
          init := Some((IsClientRunning(user), data));
        }
      }
    }

    /** `unregister_websocket`: discards the socket, if the user has a set. */
    method UnregisterWebsocket(user: string, ws: nat)
      modifies this
      ensures user in old(connectedWebsockets) ==> connectedWebsockets == old(connectedWebsockets)[user := old(connectedWebsockets[user]) - {ws}]
      ensures user !in old(connectedWebsockets) ==> connectedWebsockets == old(connectedWebsockets)
      ensures clients == old(clients) && sessionConfigs == old(sessionConfigs)
      ensures streakSettings == old(streakSettings) && roomMappings == old(roomMappings)
    {
      if user in connectedWebsockets {
        connectedWebsockets := connectedWebsockets[user := connectedWebsockets[user] - {ws}];
      }
    }

    /** The table loop of the history callback, writing into `clients[user]['room_data']`. */
    method StoreHistory(user: string, args: seq<(string, TableData)>) returns (raised: bool, updates: bool)
      requires Valid() && user in clients
      modifies this
      ensures Valid()
      ensures var o := CallbackFrom(old(clients[user].roomData), args, 0);
        && clients == old(clients)[user := old(clients[user]).(roomData := o.rooms)]
        && raised == o.raised && (!raised ==> updates == o.updated)
      ensures sessionConfigs == old(sessionConfigs) && connectedWebsockets == old(connectedWebsockets)
      ensures streakSettings == old(streakSettings) && roomMappings == old(roomMappings)
    {
      var entry := clients[user];
      var rooms;
      rooms, raised, updates := StoreTables(entry.roomData, args);
      clients := clients[user := entry.(roomData := rooms)];
    }

    /**
     * The loop itself, over the room data of one user: each table with
     * results is sorted and stored; a sort that raises ends the loop, and the
     * tables stored before it stay stored.
     */
    static method StoreTables(roomData: Dict<seq<Item>>, args: seq<(string, TableData)>)
      returns (rooms: Dict<seq<Item>>, raised: bool, updates: bool)
      requires RoomsOk(roomData)
      ensures RoomsOk(rooms)
      ensures var o := CallbackFrom(roomData, args, 0);
        rooms == o.rooms && raised == o.raised && (!raised ==> updates == o.updated)
    {
      rooms, raised, updates := roomData, false, false;
      var i := 0;
      while i < |args|
        invariant 0 <= i <= |args|
        invariant RoomsOk(rooms)
        invariant var o := CallbackFrom(rooms, args, i);
          var o0 := CallbackFrom(roomData, args, 0);
          o.rooms == o0.rooms && o.raised == o0.raised && (!o.raised ==> (updates || o.updated) == o0.updated)
      {
        var id, td := args[i].0, args[i].1;
        if td.results.Some? {
          var sorted := StrictSort(td.results.value);
          if sorted.None? {
            return rooms, true, updates;
          }
          StrictSortFacts(td.results.value);
          RoomsOkPut(rooms, id, sorted.value);
          rooms := Put(rooms, id, sorted.value);
          updates := true;
        }
        i := i + 1;
      }
    }

    /**
     * The `on_message_callback` `start_client` installs: the room data is
     * overwritten table by table, and when some table was written and nothing
     * raised, the streaks are recomputed and broadcast, once per frame.
     */
    method OnHistoryMessage(user: string, msg: Message, loaded: map<string, string>, fails: set<nat>)
      returns (raised: bool, update: Option<(StreakData, set<nat>)>)
      requires Valid() && user in clients
      modifies this
      ensures Valid()
      ensures var o := Callback(old(clients[user].roomData), msg);
        && clients == old(clients)[user := old(clients[user]).(roomData := o.rooms)]
        && raised == o.raised
        && (raised || !o.updated ==>
              update == None
              && connectedWebsockets == old(connectedWebsockets)
              && streakSettings == old(streakSettings) && roomMappings == old(roomMappings))
        && (!raised && o.updated ==>
              && streakSettings == old(streakSettings)[user := SettingsFor(old(streakSettings), user)]
              && roomMappings == CachedMappings(old(roomMappings), user, loaded)
              && update.Some?
              && Some(update.value.0) == StreakReport(o.rooms, streakSettings[user], roomMappings[user])
              && update.value.1 == (if user in old(connectedWebsockets) then old(connectedWebsockets[user]) - fails else {})
              && connectedWebsockets == (if user in old(connectedWebsockets) then old(connectedWebsockets)[user := old(connectedWebsockets[user]) - fails] else old(connectedWebsockets)))
      ensures sessionConfigs == old(sessionConfigs)
    {
      update := None;
      if !IsHistoryUpdate(msg) {
        return false, None;
      }
      var updates;
      raised, updates := StoreHistory(user, msg.args.value);
      if raised || !updates {
        return;
      }
      var roomData := clients[user].roomData;
      var data := CalculateStreaks(user, roomData, loaded);
      CollectSome(roomData, streakSettings[user], roomMappings[user]);
      var delivered := BroadcastToUser(user, fails);
      update := Some((data.value, delivered));
    }

    /**
     * `start_client`: refused without a session config; a running client is
     * left alone; otherwise the entry is created if missing, any old client
     * is disconnected and a new one connects. A failed connect keeps the
     * entry as it was and answers False.
     */
    method StartClient(user: string, connectOk: bool, loaded: map<string, string>) returns (ok: bool)
      requires Valid()
      modifies this
      ensures Valid()
      ensures user !in sessionConfigs ==> !ok && clients == old(clients) && roomMappings == old(roomMappings)
      ensures user in sessionConfigs && old(IsClientRunning(user)) ==> ok && clients == old(clients) && roomMappings == old(roomMappings)
      ensures user in sessionConfigs && !old(IsClientRunning(user)) ==>
        && roomMappings == CachedMappings(old(roomMappings), user, loaded)
        && ok == connectOk
        && var entry := if user in old(clients) then old(clients[user]) else ClientEntry(false, false, []);
           clients == old(clients)[user := if connectOk then entry.(hasClient := true, running := true) else entry]
      ensures sessionConfigs == old(sessionConfigs) && streakSettings == old(streakSettings)
      ensures connectedWebsockets == old(connectedWebsockets)
    {
      if user !in sessionConfigs {
        return false;
      }
      if user in clients && clients[user].running {
        return true;
      }
      var mappings := GetRoomMappings(user, loaded);
      if user !in clients {
        clients := clients[user := ClientEntry(false, false, [])];
      }
      if !connectOk {
        return false;
      }
      clients := clients[user := clients[user].(hasClient := true, running := true)];
      ok := true;
    }

    /**
     * The first step of `run_client`: the "is_running: True" status goes to
     * the user's sockets, and those whose send raised are dropped.
     */
    method ClientTaskStarted(user: string, fails: set<nat>) returns (delivered: set<nat>)
      modifies this
      ensures delivered == if user in old(connectedWebsockets) then old(connectedWebsockets[user]) - fails else {}
      ensures connectedWebsockets == if user in old(connectedWebsockets) then old(connectedWebsockets)[user := old(connectedWebsockets[user]) - fails] else old(connectedWebsockets)
      ensures clients == old(clients) && sessionConfigs == old(sessionConfigs)
      ensures streakSettings == old(streakSettings) && roomMappings == old(roomMappings)
    {
      delivered := BroadcastToUser(user, fails);
    }

    /**
     * `stop_client`: False when nothing runs. Otherwise the task is cancelled
     * and awaited, so its `finally` first sends the "is_running: False" status
     * to the user's sockets and drops those whose send raised (`fails`); then
     * task and client are cleared. The room data is kept.
     */
    method StopClient(user: string, fails: set<nat>) returns (ok: bool, delivered: set<nat>)
      modifies this
      ensures ok == old(IsClientRunning(user))
      ensures !ok ==> clients == old(clients) && connectedWebsockets == old(connectedWebsockets) && delivered == {}
      ensures ok ==>
        && clients == old(clients)[user := old(clients[user]).(hasClient := false, running := false)]
        && delivered == (if user in old(connectedWebsockets) then old(connectedWebsockets[user]) - fails else {})
        && connectedWebsockets == if user in old(connectedWebsockets) then old(connectedWebsockets)[user := old(connectedWebsockets[user]) - fails] else old(connectedWebsockets)
      ensures sessionConfigs == old(sessionConfigs) && streakSettings == old(streakSettings)
      ensures roomMappings == old(roomMappings)
    {
      delivered := {};
      if user !in clients || !clients[user].running {
        return false, delivered;
      }
      delivered := BroadcastToUser(user, fails);
      clients := clients[user := clients[user].(hasClient := false, running := false)];
      ok := true;
    }

    /** The `finally` of `run_client`: the stopped status is broadcast and the task reference cleared. */
    method ClientTaskFinished(user: string, fails: set<nat>) returns (delivered: set<nat>)
      modifies this
      ensures user in old(clients) ==> clients == old(clients)[user := old(clients[user]).(running := false)]
      ensures user !in old(clients) ==> clients == old(clients)
      ensures delivered == if user in old(connectedWebsockets) then old(connectedWebsockets[user]) - fails else {}
      ensures connectedWebsockets == if user in old(connectedWebsockets) then old(connectedWebsockets)[user := old(connectedWebsockets[user]) - fails] else old(connectedWebsockets)
      ensures sessionConfigs == old(sessionConfigs) && streakSettings == old(streakSettings) && roomMappings == old(roomMappings)
    {
      delivered := BroadcastToUser(user, fails);
      if user in clients {
        clients := clients[user := clients[user].(running := false)];
      }
    }
  }

  lemma {:induction false} SubsetCard<T>(a: set<T>, b: set<T>)
    requires a <= b
    ensures |a| <= |b|
    decreases |b|
  {
    if a != {} {
      var x :| x in a;
      SubsetCard(a - {x}, b - {x});
    }
  }
}

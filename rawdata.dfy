/**
 * The two pure endpoints of the HTTP server (server.py): `get_room_raw_data`,
 * which summarises one room's stored history, and `extract_config_from_url`.
 * The lobby manager's answers (`has_user_data`, `get_room_data`,
 * `get_room_mappings`) are passed in as values.
 */
module RawData {
  import opened Wrappers
  import opened Sorting
  import opened Records
  import opened Picks
  import opened Strings
  import opened Urls

  /** `winner`: "Player" for code 'B', "Banker" for 'R', "Tie/Other" for anything else. */
  function Winner(c: string): string {
    if c == "B" then "Player" else if c == "R" then "Banker" else "Tie/Other"
  }

  /** The labels of the side bets that hit, in the fixed order Natural, Tie, Player Pair, Banker Pair. */
  function ExtrasOf(it: Item): seq<string> {
    (if it.natural == Some(1) then ["Natural"] else [])
    + (if it.ties == Some(1) then ["Tie"] else [])
    + (if it.pp == Some(1) then ["Player Pair"] else [])
    + (if it.bp == Some(1) then ["Banker Pair"] else [])
  }

  /** Each label is listed exactly when its flag is 1, and there are at most four. */
  lemma ExtrasOfLabels(it: Item)
    ensures var r := ExtrasOf(it);
      && ("Natural" in r <==> it.natural == Some(1))
      && ("Tie" in r <==> it.ties == Some(1))
      && ("Player Pair" in r <==> it.pp == Some(1))
      && ("Banker Pair" in r <==> it.bp == Some(1))
      && |r| <= 4
  {
  }

  /** One element of `readable_results`. */
  datatype Readable = Readable(position: Pos, winner: string, extras: seq<string>, rawCode: string)

  /** `result.get("pos", [])`. */
  function PositionOf(it: Item): Pos {
    if it.pos.PosMissing? then PosList([]) else it.pos
  }

  function ReadableOf(it: Item): Readable {
    Readable(PositionOf(it), Winner(Code(it)), ExtrasOf(it), Code(it))
  }

  /** One character of `result_pattern`: 'P' for code 'B', 'B' for 'R', 'T' otherwise. */
  function PatternChar(c: string): char {
    if c == "B" then 'P' else if c == "R" then 'B' else 'T'
  }

  /** `result_pattern`: one character per result, oldest first. */
  function Pattern(items: seq<Item>): (r: string)
    ensures |r| == |items|
    ensures forall i :: 0 <= i < |items| ==> r[i] == PatternChar(Code(items[i]))
  {
    if items == [] then [] else [PatternChar(Code(items[0]))] + Pattern(items[1..])
  }

  /** `sum(1 for r in items if r.get('c', '') == code)`. */
  function CountCode(items: seq<Item>, code: string): nat {
    if items == [] then 0 else (if Code(items[0]) == code then 1 else 0) + CountCode(items[1..], code)
  }

  /** The results that are neither a player nor a banker win. */
  function CountOther(items: seq<Item>): nat {
    if items == [] then 0 else (if Code(items[0]) != "B" && Code(items[0]) != "R" then 1 else 0) + CountOther(items[1..])
  }

  function CountChar(s: string, ch: char): nat {
    if s == [] then 0 else (if s[0] == ch then 1 else 0) + CountChar(s[1..], ch)
  }

  /** Player wins, banker wins and the rest partition the results, so `ties` is never negative. */
  lemma {:induction false} CountsPartition(items: seq<Item>)
    ensures CountCode(items, "B") + CountCode(items, "R") + CountOther(items) == |items|
  {
    if items != [] {
      CountsPartition(items[1..]);
    }
  }

  /** The pattern string shows exactly as many 'P', 'B' and 'T' as the counts report. */
  lemma {:induction false} PatternAgreesWithCounts(items: seq<Item>)
    ensures CountChar(Pattern(items), 'P') == CountCode(items, "B")
    ensures CountChar(Pattern(items), 'B') == CountCode(items, "R")
    ensures CountChar(Pattern(items), 'T') == CountOther(items)
  {
    if items != [] {
      PatternAgreesWithCounts(items[1..]);
      assert Pattern(items)[1..] == Pattern(items[1..]);
    }
  }

  datatype Stats = Stats(playerWins: nat, bankerWins: nat, ties: int)

  /** The success payload; the two float rates are left out. */
  datatype RawReport = RawReport(
    roomId: string, roomName: string, totalGames: nat, recentCount: nat, resultPattern: string,
    stats: Stats, readableResults: seq<Readable>, rawDataSample: seq<Item>)

  datatype RawError = NoUserData | NoRoomData

  /** `sorted_results[-15:] if len(sorted_results) >= 15 else sorted_results`. */
  function Recent(sorted: seq<Item>): (r: seq<Item>)
    ensures r == LastN(sorted, Window)
    ensures |r| == if |sorted| >= Window then Window else |sorted|
  {
    if |sorted| >= Window then sorted[|sorted| - Window..] else sorted
  }

  /** The `extras` list built for one result. */
  method Extras(result: Item) returns (extras: seq<string>)
    ensures extras == ExtrasOf(result)
  {
    extras := [];
    if result.natural == Some(1) {
      extras := extras + ["Natural"];
    }
    if result.ties == Some(1) {
      extras := extras + ["Tie"];
    }
    if result.pp == Some(1) {
      extras := extras + ["Player Pair"];
    }
    if result.bp == Some(1) {
      extras := extras + ["Banker Pair"];
    }
  }

  /** The `for result in recent_results` loop. */
  method ReadableResults(recent: seq<Item>) returns (readable: seq<Readable>)
    ensures |readable| == |recent|
    ensures forall i :: 0 <= i < |recent| ==> readable[i] == ReadableOf(recent[i])
  {
    readable := [];
    var i := 0;
    while i < |recent|
      invariant 0 <= i <= |recent|
      invariant |readable| == i
      invariant forall j :: 0 <= j < i ==> readable[j] == ReadableOf(recent[j])
    {
      var result := recent[i];
      var c := Code(result);
      var winner := Winner(c);
      var extras := Extras(result);
      var entry := Readable(PositionOf(result), winner, extras, c);
      assert entry == ReadableOf(recent[i]);
      readable := readable + [entry];
      i := i + 1;
    }
  }

  /**
   * `get_room_raw_data`: an error without user data or without results for
   * the room; otherwise the report on the results sorted by `get_sort_key`,
   * whose window is the 15 newest.
   */
  method GetRoomRawData(roomId: string, hasUserData: bool, roomData: Option<seq<Item>>, names: map<string, string>)
    returns (r: Result<RawReport, RawError>)
    ensures !hasUserData ==> r == Failure(NoUserData)
    ensures hasUserData && (roomData.None? || roomData.value == []) ==> r == Failure(NoRoomData)
    ensures hasUserData && roomData.Some? && roomData.value != [] ==> r.Success?
    ensures r.Success? ==>
      var sorted := SortBy(roomData.value, SortKey);
      var recent := LastN(sorted, Window);
      var rep := r.value;
      && rep.roomId == roomId && rep.roomName == (if roomId in names then names[roomId] else roomId)
      && rep.totalGames == |roomData.value| && rep.recentCount == |recent|
      && rep.resultPattern == Pattern(recent)
      && rep.stats == Stats(CountCode(recent, "B"), CountCode(recent, "R"), CountOther(recent))
      && |rep.readableResults| == |recent|
      && (forall i :: 0 <= i < |recent| ==> rep.readableResults[i] == ReadableOf(recent[i]))
      && rep.rawDataSample == sorted[..if |sorted| < 3 then |sorted| else 3]
  {
    if !hasUserData {
      return Failure(NoUserData);
    }
    if roomData.None? || roomData.value == [] {
      return Failure(NoRoomData);
    }
    var items := roomData.value;
    var sorted := SortBy(items, SortKey);
    assert |sorted| == |items| by {
      SortedResultsFacts(items);
    }
    var roomName := if roomId in names then names[roomId] else roomId;
    var report := Summarise(roomId, roomName, sorted);
    r := Success(report);
  }

  /** The success payload built from the sorted results. */
  method Summarise(roomId: string, roomName: string, sorted: seq<Item>) returns (rep: RawReport)
    ensures var recent := LastN(sorted, Window);
      && rep.roomId == roomId && rep.roomName == roomName
      && rep.totalGames == |sorted| && rep.recentCount == |recent|
      && rep.resultPattern == Pattern(recent)
      && rep.stats == Stats(CountCode(recent, "B"), CountCode(recent, "R"), CountOther(recent))
      && |rep.readableResults| == |recent|
      && (forall i :: 0 <= i < |recent| ==> rep.readableResults[i] == ReadableOf(recent[i]))
      && rep.rawDataSample == if sorted != [] then sorted[..if |sorted| < 3 then |sorted| else 3] else []
  {
    var recent := Recent(sorted);
    var readable := ReadableResults(recent);
    var pattern := Pattern(LastN(sorted, Window));
    var recentCount := |recent|;
    var playerWins := CountCode(recent, "B");
    var bankerWins := CountCode(recent, "R");
    CountsPartition(recent);
    var ties := recentCount - playerWins - bankerWins;
    var sample := if sorted != [] then sorted[..if |sorted| < 3 then |sorted| else 3] else [];
    rep := RawReport(roomId, roomName, |sorted|, recentCount, pattern,
                     Stats(playerWins, bankerWins, ties), readable, sample);
  }

  /** The sorted results are the room's results, ordered by `x*7 + y`, equal positions in arrival order. */
  lemma SortedResultsFacts(items: seq<Item>)
    ensures var sorted := SortBy(items, SortKey);
      && SortedBy(sorted, SortKey) && multiset(sorted) == multiset(items) && |sorted| == |items|
      && forall k :: WithKey(sorted, SortKey, k) == WithKey(items, SortKey, k)
  {
    SortByFacts(items, SortKey);
    var sorted := SortBy(items, SortKey);
    assert |multiset(sorted)| == |multiset(items)|;
  }

  datatype ConfigError = UrlMissing | InvalidUrl | UrlParseError

  /**
   * `extract_config_from_url`: the field logic of `extract_baccarat_config`
   * inlined, with an error when the URL is absent or empty, when `urlparse`
   * raises, or when a value is empty.
   */
  function ExtractConfigFromUrl(websocketUrl: Option<string>): (r: Result<ClientConfig, ConfigError>)
    ensures websocketUrl.None? || websocketUrl.value == "" ==> r == Failure(UrlMissing)
    ensures r.Success? ==> Complete(r.value)
  {
    if websocketUrl.None? || websocketUrl.value == "" then Failure(UrlMissing)
    else
      match ExtractFields(websocketUrl.value)
      case None => Failure(UrlParseError)
      case Some(c) => if Complete(c) then Success(c) else Failure(InvalidUrl)
  }

  /** The endpoint and `URLExtractor` agree: success with a config exactly when the extractor returns it. */
  lemma ExtractConfigAgrees(url: string)
    requires url != ""
    ensures ExtractConfigFromUrl(Some(url)).Success? <==> ExtractBaccaratConfig(url).Some?
    ensures ExtractConfigFromUrl(Some(url)).Success? ==> ExtractConfigFromUrl(Some(url)).value == ExtractBaccaratConfig(url).value
  {
  }

  /** A lobby URL built from a safe config is accepted by the endpoint and gives that config back. */
  lemma ExtractConfigOfLobbyUrl(c: ClientConfig)
    requires UrlSafe(c)
    ensures ExtractConfigFromUrl(Some(LobbyUrl(c))) == Success(c)
  {
    var url := LobbyUrl(c);
    LobbyUrlRoundTrip(c);
    assert ValidateWsUrl(url);
    ExtractConfigAgrees(url);
  }
}

/**
 * `BaccaratWebSocketClient._process_message`, in its two variants: the
 * monitor's client (monitor/lobby_monitor.py), which hands every frame to
 * its callback first, and the stand-alone client (client_ws.py), which only
 * keeps tables named in its room mappings and logs every stored result at
 * INFO level. Both sort a table's results by position, apply the keyword
 * filter and store the results only when they differ from what is stored.
 */
module Ingest {
  import opened Wrappers
  import opened Sorting
  import opened Records
  import opened Strings

  /** `any(keyword.lower() in name.lower() for keyword in keywords)`. */
  predicate AnyKeyword(keywords: seq<string>, name: string) {
    exists k :: 0 <= k < |keywords| && Contains(Lower(name), Lower(keywords[k]))
  }

  /** The options a client is built with: room names, filter keywords, and which variant it is. */
  datatype FeedConfig = FeedConfig(mappings: map<string, string>, keywords: seq<string>, standalone: bool)

  /** `room_mappings.get(table_id, table_id)`. */
  function DisplayName(cfg: FeedConfig, id: string): string {
    if id in cfg.mappings then cfg.mappings[id] else id
  }

  /** The stand-alone client's whitelist admits the table. */
  predicate Admitted(cfg: FeedConfig, id: string) {
    !cfg.standalone || id in cfg.mappings
  }

  /** The keyword filter, inactive when there are no keywords, admits the table. */
  predicate KeywordOk(cfg: FeedConfig, id: string) {
    |cfg.keywords| == 0 || AnyKeyword(cfg.keywords, DisplayName(cfg, id))
  }

  /** `x, y = item['pos']` succeeds for every item: each `pos` has exactly two coordinates. */
  predicate AllPairs(items: seq<Item>) {
    forall i :: 0 <= i < |items| ==> items[i].pos.PosList? && |items[i].pos.coords| == 2
  }

  datatype Outcome = Outcome(tables: map<string, seq<Item>>, raised: bool)

  /** One `for table_id, table_data in args.items()` iteration. */
  function TableStep(t: map<string, seq<Item>>, id: string, td: TableData, cfg: FeedConfig): Outcome {
    if td.results.None? || !Admitted(cfg, id) then Outcome(t, false)
    else
      match StrictSort(td.results.value)
      case None => Outcome(t, true)
      case Some(sorted) =>
        if !KeywordOk(cfg, id) then Outcome(t, false)
        else if id in t && t[id] == sorted then Outcome(t, false)
        else Outcome(t[id := sorted], cfg.standalone && !AllPairs(sorted))
  }

  /** The loop from table i on; an exception ends it, keeping what was already stored. */
  function ProcessFrom(t: map<string, seq<Item>>, args: seq<(string, TableData)>, i: nat, cfg: FeedConfig): Outcome
    requires i <= |args|
    decreases |args| - i
  {
    if i == |args| then Outcome(t, false)
    else
      var o := TableStep(t, args[i].0, args[i].1, cfg);
      if o.raised then o else ProcessFrom(o.tables, args, i + 1, cfg)
  }

  /** The history part of `_process_message`: only `lobby.historyUpdated` frames with `args` are looked at. */
  function Process(t: map<string, seq<Item>>, msg: Message, cfg: FeedConfig): Outcome {
    if IsHistoryUpdate(msg) then ProcessFrom(t, msg.args.value, 0, cfg) else Outcome(t, false)
  }

  /** No table from index i on has id x. */
  ghost predicate AbsentFrom(args: seq<(string, TableData)>, i: nat, x: string) {
    forall k :: i <= k < |args| ==> args[k].0 != x
  }

  /** Tables the frame does not mention are left as they were. */
  lemma {:induction false} ProcessUntouched(t: map<string, seq<Item>>, args: seq<(string, TableData)>, i: nat, cfg: FeedConfig, x: string)
    requires i <= |args| && AbsentFrom(args, i, x)
    ensures var r := ProcessFrom(t, args, i, cfg).tables;
      (x in r <==> x in t) && (x in t ==> r[x] == t[x])
    decreases |args| - i
  {
    if i < |args| {
      var o := TableStep(t, args[i].0, args[i].1, cfg);
      if !o.raised {
        ProcessUntouched(o.tables, args, i + 1, cfg, x);
      }
    }
  }

  /**
   * Nothing is ever removed, and a table that is new or changed came from
   * the frame: its id passed the whitelist and the keyword filter, and what is
   * stored is that table's results sorted by position.
   */
  lemma {:induction false} ProcessChanges(t: map<string, seq<Item>>, args: seq<(string, TableData)>, i: nat, cfg: FeedConfig, x: string)
    requires i <= |args|
    ensures var r := ProcessFrom(t, args, i, cfg).tables;
      && (x in t ==> x in r)
      && (x in r && (x !in t || r[x] != t[x]) ==>
            && Admitted(cfg, x) && KeywordOk(cfg, x)
            && exists k :: i <= k < |args| && args[k].0 == x && args[k].1.results.Some?
                 && StrictSort(args[k].1.results.value) == Some(r[x]))
    decreases |args| - i
  {
    if i < |args| {
      var o := TableStep(t, args[i].0, args[i].1, cfg);
      if !o.raised {
        ProcessChanges(o.tables, args, i + 1, cfg, x);
      }
    }
  }

  /** Every table in `received_tables` stays sorted ascending by `x*7 + y`. */
  lemma {:induction false} ProcessKeepsSorted(t: map<string, seq<Item>>, args: seq<(string, TableData)>, i: nat, cfg: FeedConfig)
    requires i <= |args|
    requires forall x :: x in t ==> SortedBy(t[x], SortKey)
    ensures var r := ProcessFrom(t, args, i, cfg).tables;
      forall x :: x in r ==> SortedBy(r[x], SortKey)
  {
    var r := ProcessFrom(t, args, i, cfg).tables;
    forall x | x in r ensures SortedBy(r[x], SortKey) {
      ProcessChanges(t, args, i, cfg, x);
      if x !in t || r[x] != t[x] {
        var k :| i <= k < |args| && args[k].0 == x && args[k].1.results.Some?
          && StrictSort(args[k].1.results.value) == Some(r[x]);
        StrictSortFacts(args[k].1.results.value);
      }
    }
  }

  /** Every table from index i on would be skipped or found equal, so the loop changes nothing. */
  ghost predicate Settled(t: map<string, seq<Item>>, args: seq<(string, TableData)>, i: nat, cfg: FeedConfig) {
    forall k :: i <= k < |args| ==> TableStep(t, args[k].0, args[k].1, cfg) == Outcome(t, false)
  }

  lemma {:induction false} SettledIsFixed(t: map<string, seq<Item>>, args: seq<(string, TableData)>, i: nat, cfg: FeedConfig)
    requires i <= |args| && Settled(t, args, i, cfg)
    ensures ProcessFrom(t, args, i, cfg) == Outcome(t, false)
    decreases |args| - i
  {
    if i < |args| {
      SettledIsFixed(t, args, i + 1, cfg);
    }
  }

  lemma {:induction false} ProcessSettles(t: map<string, seq<Item>>, args: seq<(string, TableData)>, i: nat, cfg: FeedConfig)
    requires i <= |args| && UniqueKeys(args)
    requires !ProcessFrom(t, args, i, cfg).raised
    ensures Settled(ProcessFrom(t, args, i, cfg).tables, args, i, cfg)
    decreases |args| - i
  {
    if i < |args| {
      var o := TableStep(t, args[i].0, args[i].1, cfg);
      var r := ProcessFrom(t, args, i, cfg).tables;
      ProcessSettles(o.tables, args, i + 1, cfg);
      var id := args[i].0;
      ProcessUntouched(o.tables, args, i + 1, cfg, id);
      assert TableStep(r, id, args[i].1, cfg) == Outcome(r, false);
    }
  }

  /**
   * Re-delivering a frame that was processed without an exception leaves
   * `received_tables` as it is and raises nothing (a decoded JSON object has
   * distinct keys).
   */
  lemma ReplayChangesNothing(t: map<string, seq<Item>>, msg: Message, cfg: FeedConfig)
    requires msg.args.Some? ==> UniqueKeys(msg.args.value)
    requires !Process(t, msg, cfg).raised
    ensures var r := Process(t, msg, cfg).tables;
      Process(r, msg, cfg) == Outcome(r, false)
  {
    if IsHistoryUpdate(msg) {
      ProcessSettles(t, msg.args.value, 0, cfg);
      SettledIsFixed(Process(t, msg, cfg).tables, msg.args.value, 0, cfg);
    }
  }

  /** The stand-alone client never stores a table its room mappings do not name. */
  lemma WhitelistHolds(t: map<string, seq<Item>>, msg: Message, cfg: FeedConfig, x: string)
    requires cfg.standalone && x !in cfg.mappings
    ensures var r := Process(t, msg, cfg).tables;
      (x in r <==> x in t) && (x in t ==> r[x] == t[x])
  {
    if IsHistoryUpdate(msg) {
      ProcessChanges(t, msg.args.value, 0, cfg, x);
    }
  }

  /** With keywords set, a table is stored only when its display name contains one of them, ignoring case. */
  lemma KeywordFilterHolds(t: map<string, seq<Item>>, msg: Message, cfg: FeedConfig, x: string)
    requires |cfg.keywords| > 0 && !AnyKeyword(cfg.keywords, DisplayName(cfg, x))
    ensures var r := Process(t, msg, cfg).tables;
      (x in r <==> x in t) && (x in t ==> r[x] == t[x])
  {
    if IsHistoryUpdate(msg) {
      ProcessChanges(t, msg.args.value, 0, cfg, x);
    }
  }

  /** A keyword matches every name holding, anywhere, a piece that agrees with it up to ASCII case. */
  lemma KeywordMatchesIgnoringCase(keyword: string, prefix: string, mid: string, suffix: string)
    requires Lower(keyword) == Lower(mid)
    ensures AnyKeyword([keyword], prefix + mid + suffix)
  {
    LowerAppend(prefix + mid, suffix);
    LowerAppend(prefix, mid);
    InfixContains(Lower(prefix + mid + suffix), Lower(prefix), Lower(keyword), Lower(suffix));
    assert [keyword][0] == keyword;
  }

  /** Conversely, a keyword matches a name only at a position where the lower-cased name holds the lower-cased keyword. */
  lemma KeywordMatchIsInfix(keyword: string, name: string)
    requires AnyKeyword([keyword], name)
    ensures exists i: nat :: MatchesAt(name, keyword, i)
  {
    var k :| 0 <= k < 1 && Contains(Lower(name), Lower([keyword][k]));
    assert [keyword][k] == keyword;
    LowerContainsAt(name, keyword);
  }

  /** A keyword longer than the name never matches. */
  lemma LongKeywordNeverMatches(keyword: string, name: string)
    requires |keyword| > |name|
    ensures !AnyKeyword([keyword], name)
  {
    NoLongerNeedle(Lower(name), Lower(keyword));
  }

  class FeedClient {
    var receivedTables: map<string, seq<Item>>
    const config: FeedConfig
    /** The monitor's client carries `on_message_callback`; the stand-alone one has none. */
    const hasCallback: bool

    constructor (config: FeedConfig, hasCallback: bool)
      ensures this.config == config && this.hasCallback == hasCallback && receivedTables == map[]
    {
      this.config := config;
      this.hasCallback := hasCallback;
      receivedTables := map[];
    }

    /** The INFO loop that unpacks `x, y = item['pos']` for every stored result; it raises on a `pos` that is not a pair. */
    static method LogResults(items: seq<Item>) returns (raised: bool)
      ensures raised == !AllPairs(items)
    {
      var i := 0;
      while i < |items|
        invariant 0 <= i <= |items|
        invariant forall j :: 0 <= j < i ==> items[j].pos.PosList? && |items[j].pos.coords| == 2
      {
        if !(items[i].pos.PosList? && |items[i].pos.coords| == 2) {
          return true;
        }
        i := i + 1;
      }
      return false;
    }

    /**
     * `_process_message`. The callback, when the client has one, runs first
     * and once; when it raises, the exception leaves before any table is
     * looked at.
     */
    method ProcessMessage(msg: Message, callbackRaises: bool) returns (raised: bool)
      modifies this
      ensures hasCallback && callbackRaises ==> raised && receivedTables == old(receivedTables)
      ensures !(hasCallback && callbackRaises) ==>
        Outcome(receivedTables, raised) == Process(old(receivedTables), msg, config)
    {
      if hasCallback && callbackRaises {
        return true;
      }
      raised := false;
      if !IsHistoryUpdate(msg) {
        return;
      }
      var args := msg.args.value;
      var i := 0;
      while i < |args|
        invariant 0 <= i <= |args|
        invariant ProcessFrom(receivedTables, args, i, config) == ProcessFrom(old(receivedTables), args, 0, config)
      {
        var id, td := args[i].0, args[i].1;
        if td.results.Some? {
          if config.standalone && id !in config.mappings {
            i := i + 1;
            continue;
          }
          var sorted := StrictSort(td.results.value);
          if sorted.None? {
            return true;
          }
          var name := DisplayName(config, id);
          if |config.keywords| > 0 && !AnyKeyword(config.keywords, name) {
            i := i + 1;
            continue;
          }
          if id !in receivedTables || receivedTables[id] != sorted.value {
            receivedTables := receivedTables[id := sorted.value];
            if config.standalone {
              raised := LogResults(sorted.value);
              if raised {
                return;
              }
            }
          }
        }
        i := i + 1;
      }
    }
  }
}

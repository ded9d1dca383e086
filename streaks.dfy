/**
 * Streak detection of `LobbyMonitor.calculate_streaks`
 * (monitor/lobby_monitor.py): each room's results are scanned newest first
 * with a player counter and a banker counter, and the scan stops as soon as
 * either counter reaches its threshold.
 */
module Streaks {
  import opened Wrappers
  import opened Sorting
  import opened Records

  datatype StreakSettings = StreakSettings(playerStreak: int, bankerStreak: int, minResults: int)

  /** The settings stored for a user who has none. */
  const DefaultSettings := StreakSettings(3, 3, 10)

  datatype StreakRoom = StreakRoom(roomId: string, roomName: string, streak: int)

  /** `player_streak_rooms` and `banker_streak_rooms`; `updated_at` is a wall-clock stamp and is not modelled. */
  datatype StreakData = StreakData(playerRooms: seq<StreakRoom>, bankerRooms: seq<StreakRoom>)

  const NoStreaks := StreakData([], [])

  /** The key of `sorted(..., key=x*7+y, reverse=True)`: a stable sort on the negated position. */
  function NewestFirstKey(it: Item): int {
    -SortKey(it)
  }

  function Codes(items: seq<Item>): (r: seq<string>)
    ensures |r| == |items|
    ensures forall i :: 0 <= i < |items| ==> r[i] == Code(items[i])
  {
    if items == [] then [] else Codes(items[..|items| - 1]) + [Code(items[|items| - 1])]
  }

  /** One iteration of the counter loop: 'B' counts for the player, 'R' for the banker, anything else resets both. */
  function Bump(p: int, b: int, code: string): (int, int) {
    if code == "B" then (p + 1, 0) else if code == "R" then (0, b + 1) else (0, 0)
  }

  /** The counters left by the loop over codes[i..] from (p, b), breaking once a threshold is met. */
  function ScanFrom(codes: seq<string>, i: nat, p: int, b: int, pt: int, bt: int): (int, int)
    requires i <= |codes|
    decreases |codes| - i
  {
    if i == |codes| then (p, b)
    else
      var next := Bump(p, b, codes[i]);
      if next.0 >= pt || next.1 >= bt then next else ScanFrom(codes, i + 1, next.0, next.1, pt, bt)
  }

  function Scan(codes: seq<string>, pt: int, bt: int): (int, int) {
    ScanFrom(codes, 0, 0, 0, pt, bt)
  }

  /** Length of the run of `c` codes that ends just before index i. */
  function RunOf(codes: seq<string>, i: nat, c: string): nat
    requires i <= |codes|
  {
    if i == 0 || codes[i - 1] != c then 0 else RunOf(codes, i - 1, c) + 1
  }

  /** codes[j..j+n] are all c. */
  ghost predicate RunAt(codes: seq<string>, j: int, n: int, c: string) {
    0 <= j && j + n <= |codes| && forall m :: j <= m < j + n ==> codes[m] == c
  }

  lemma {:induction false} RunOfIsRun(codes: seq<string>, i: nat, c: string, n: nat)
    requires i <= |codes| && n <= RunOf(codes, i, c)
    ensures RunAt(codes, i - n, n, c)
    decreases n
  {
    if n > 0 {
      RunOfIsRun(codes, i - 1, c, n - 1);
    }
  }

  lemma {:induction false} RunGivesRunOf(codes: seq<string>, j: nat, n: nat, c: string)
    requires RunAt(codes, j, n, c)
    ensures RunOf(codes, j + n, c) >= n
    decreases n
  {
    if n > 0 {
      RunGivesRunOf(codes, j, n - 1, c);
    }
  }

  /** The counters always hold the lengths of the current 'B' run and 'R' run. */
  lemma BumpRuns(codes: seq<string>, i: nat)
    requires i < |codes|
    ensures Bump(RunOf(codes, i, "B"), RunOf(codes, i, "R"), codes[i]) == (RunOf(codes, i + 1, "B"), RunOf(codes, i + 1, "R"))
  {
  }

  /** With thresholds of at least 1, a scan from run-length counters below both thresholds ends at a threshold or below it, never beyond, and never at both. */
  lemma {:induction false} ScanFromFacts(codes: seq<string>, i: nat, pt: int, bt: int)
    requires i <= |codes| && pt >= 1 && bt >= 1
    requires RunOf(codes, i, "B") < pt && RunOf(codes, i, "R") < bt
    ensures var r := ScanFrom(codes, i, RunOf(codes, i, "B"), RunOf(codes, i, "R"), pt, bt);
      && 0 <= r.0 <= pt && 0 <= r.1 <= bt
      && !(r.0 >= pt && r.1 >= bt)
      && (r.0 >= pt ==> exists j :: RunAt(codes, j, pt, "B"))
      && (r.1 >= bt ==> exists j :: RunAt(codes, j, bt, "R"))
    decreases |codes| - i
  {
    if i < |codes| {
      BumpRuns(codes, i);
      var p', b' := RunOf(codes, i + 1, "B"), RunOf(codes, i + 1, "R");
      if p' >= pt {
        RunOfIsRun(codes, i + 1, "B", pt);
      } else if b' >= bt {
        RunOfIsRun(codes, i + 1, "R", bt);
      } else {
        ScanFromFacts(codes, i + 1, pt, bt);
      }
    }
  }

  /** A scan that has not yet stopped finds every threshold-long run that ends at or after its position. */
  lemma {:induction false} ScanFromComplete(codes: seq<string>, i: nat, e: nat, pt: int, bt: int)
    requires i <= e <= |codes|
    requires RunOf(codes, i, "B") < pt && RunOf(codes, i, "R") < bt
    requires RunOf(codes, e, "B") >= pt || RunOf(codes, e, "R") >= bt
    ensures var r := ScanFrom(codes, i, RunOf(codes, i, "B"), RunOf(codes, i, "R"), pt, bt);
      r.0 >= pt || r.1 >= bt
    decreases e - i
  {
    if i < e {
      BumpRuns(codes, i);
      var p', b' := RunOf(codes, i + 1, "B"), RunOf(codes, i + 1, "R");
      if !(p' >= pt || b' >= bt) {
        ScanFromComplete(codes, i + 1, e, pt, bt);
      }
    }
  }

  /**
   * With thresholds of at least 1: a reported streak equals its threshold
   * (the scan stops there, however long the run is); at most one side is
   * reported; a report means such a run exists somewhere in the scanned
   * codes, not necessarily at the newest end; and whenever such a run exists
   * some streak is reported.
   */
  lemma ScanSpec(codes: seq<string>, pt: int, bt: int)
    requires pt >= 1 && bt >= 1
    ensures var r := Scan(codes, pt, bt);
      && 0 <= r.0 <= pt && 0 <= r.1 <= bt
      && !(r.0 >= pt && r.1 >= bt)
      && (r.0 >= pt ==> r.0 == pt && exists j :: RunAt(codes, j, pt, "B"))
      && (r.1 >= bt ==> r.1 == bt && exists j :: RunAt(codes, j, bt, "R"))
    ensures (exists j :: RunAt(codes, j, pt, "B")) || (exists j :: RunAt(codes, j, bt, "R")) ==>
      Scan(codes, pt, bt).0 >= pt || Scan(codes, pt, bt).1 >= bt
  {
    ScanFromFacts(codes, 0, pt, bt);
    if exists j :: RunAt(codes, j, pt, "B") {
      var j :| RunAt(codes, j, pt, "B");
      RunGivesRunOf(codes, j, pt, "B");
      ScanFromComplete(codes, 0, j + pt, pt, bt);
    } else if exists j :: RunAt(codes, j, bt, "R") {
      var j :| RunAt(codes, j, bt, "R");
      RunGivesRunOf(codes, j, bt, "R");
      ScanFromComplete(codes, 0, j + bt, pt, bt);
    }
  }

  /** Four player wins in a row, newest first, are reported as a streak of 3 under the default threshold. */
  lemma StreakCappedAtThreshold()
    ensures Scan(["B", "B", "B", "B", "R"], 3, 3) == (3, 0)
  {
  }

  /** A run behind a newer banker win and a tie is still found. */
  lemma OlderRunIsFound()
    ensures Scan(["R", "T", "B", "B", "B"], 3, 3) == (3, 0)
  {
  }

  /** The streak-room entries of one room; `None` when sorting its results raises. */
  function RoomEntries(id: string, items: seq<Item>, s: StreakSettings, names: map<string, string>): Option<(seq<StreakRoom>, seq<StreakRoom>)> {
    if |items| < s.minResults then Some(([], []))
    else if !AllStrictKeys(items) then None
    else
      var counts := Scan(Codes(SortBy(items, NewestFirstKey)), s.playerStreak, s.bankerStreak);
      var name := if id in names then names[id] else id;
      Some((if counts.0 >= s.playerStreak then [StreakRoom(id, name, counts.0)] else [],
            if counts.1 >= s.bankerStreak then [StreakRoom(id, name, counts.1)] else []))
  }

  /** The two unsorted lists after the loop over `room_data.items()`; `None` when some room raises. */
  function Collect(rooms: Dict<seq<Item>>, s: StreakSettings, names: map<string, string>): Option<(seq<StreakRoom>, seq<StreakRoom>)>
    decreases |rooms|
  {
    if rooms == [] then Some(([], []))
    else
      var prev := Collect(rooms[..|rooms| - 1], s, names);
      var last := rooms[|rooms| - 1];
      var here := RoomEntries(last.0, last.1, s, names);
      if prev.None? || here.None? then None
      else Some((prev.value.0 + here.value.0, prev.value.1 + here.value.1))
  }

  /** Collecting one more room extends the lists with that room's entries. */
  lemma CollectNext(rooms: Dict<seq<Item>>, i: nat, s: StreakSettings, names: map<string, string>)
    requires i < |rooms|
    ensures var prev := Collect(rooms[..i], s, names);
      var here := RoomEntries(rooms[i].0, rooms[i].1, s, names);
      Collect(rooms[..i + 1], s, names)
        == if prev.None? || here.None? then None else Some((prev.value.0 + here.value.0, prev.value.1 + here.value.1))
  {
    assert rooms[..i + 1][..i] == rooms[..i];
    assert rooms[..i + 1][i] == rooms[i];
  }

  function StreakKey(r: StreakRoom): int {
    -r.streak
  }

  /** `calculate_streaks` on given settings and room names: both lists sorted by streak, descending. */
  function StreakReport(rooms: Dict<seq<Item>>, s: StreakSettings, names: map<string, string>): Option<StreakData> {
    var lists := Collect(rooms, s, names);
    if lists.None? then None
    else Some(StreakData(SortBy(lists.value.0, StreakKey), SortBy(lists.value.1, StreakKey)))
  }

  /** A room whose results all carry a two-coordinate `pos` never makes the computation raise. */
  lemma {:induction false} CollectSome(rooms: Dict<seq<Item>>, s: StreakSettings, names: map<string, string>)
    requires forall i :: 0 <= i < |rooms| ==> AllStrictKeys(rooms[i].1)
    ensures Collect(rooms, s, names).Some?
    decreases |rooms|
  {
    if rooms != [] {
      CollectSome(rooms[..|rooms| - 1], s, names);
    }
  }

  /** What an entry says about the room it came from. */
  ghost predicate RoomOk(room: (string, seq<Item>), s: StreakSettings, e: StreakRoom, player: bool) {
    room.0 == e.roomId && |room.1| >= s.minResults && AllStrictKeys(room.1)
    && var counts := Scan(Codes(SortBy(room.1, NewestFirstKey)), s.playerStreak, s.bankerStreak);
       if player then counts.0 >= s.playerStreak && e.streak == counts.0
       else counts.1 >= s.bankerStreak && e.streak == counts.1
  }

  /** What every collected entry says about its room. */
  ghost predicate EntryOk(rooms: Dict<seq<Item>>, s: StreakSettings, e: StreakRoom, player: bool) {
    exists i :: 0 <= i < |rooms| && RoomOk(rooms[i], s, e, player)
  }

  lemma EntryOkPrefix(init: Dict<seq<Item>>, rooms: Dict<seq<Item>>, s: StreakSettings, e: StreakRoom, player: bool)
    requires |init| <= |rooms| && init == rooms[..|init|]
    requires EntryOk(init, s, e, player)
    ensures EntryOk(rooms, s, e, player)
  {
    var i :| 0 <= i < |init| && RoomOk(init[i], s, e, player);
    assert rooms[i] == init[i];
  }

  /**
   * Every collected entry names a room with at least `min_results` results
   * whose scan reached that side's threshold, with that count as its streak.
   */
  lemma {:induction false} CollectEntries(rooms: Dict<seq<Item>>, s: StreakSettings, names: map<string, string>)
    requires Collect(rooms, s, names).Some?
    ensures var l := Collect(rooms, s, names).value;
      && (forall k :: 0 <= k < |l.0| ==> EntryOk(rooms, s, l.0[k], true))
      && (forall k :: 0 <= k < |l.1| ==> EntryOk(rooms, s, l.1[k], false))
    decreases |rooms|
  {
    if rooms != [] {
      var n := |rooms| - 1;
      var init := rooms[..n];
      CollectEntries(init, s, names);
      CollectNext(rooms, n, s, names);
      assert rooms[..n + 1] == rooms;
      var l := Collect(rooms, s, names).value;
      var pl := Collect(init, s, names).value;
      forall k | 0 <= k < |l.0| ensures EntryOk(rooms, s, l.0[k], true) {
        if k < |pl.0| {
          assert l.0[k] == pl.0[k];
          EntryOkPrefix(init, rooms, s, l.0[k], true);
        } else {
          assert RoomOk(rooms[n], s, l.0[k], true);
        }
      }
      forall k | 0 <= k < |l.1| ensures EntryOk(rooms, s, l.1[k], false) {
        if k < |pl.1| {
          assert l.1[k] == pl.1[k];
          EntryOkPrefix(init, rooms, s, l.1[k], false);
        } else {
          assert RoomOk(rooms[n], s, l.1[k], false);
        }
      }
    }
  }

  /** With thresholds of at least 1 and distinct room ids, no room is in both lists. */
  lemma CollectExclusive(rooms: Dict<seq<Item>>, s: StreakSettings, names: map<string, string>, k1: nat, k2: nat)
    requires UniqueKeys(rooms) && s.playerStreak >= 1 && s.bankerStreak >= 1
    requires Collect(rooms, s, names).Some?
    requires k1 < |Collect(rooms, s, names).value.0| && k2 < |Collect(rooms, s, names).value.1|
    ensures Collect(rooms, s, names).value.0[k1].roomId != Collect(rooms, s, names).value.1[k2].roomId
  {
    CollectEntries(rooms, s, names);
    var l := Collect(rooms, s, names).value;
    if l.0[k1].roomId == l.1[k2].roomId {
      assert EntryOk(rooms, s, l.0[k1], true) && EntryOk(rooms, s, l.1[k2], false);
      var i :| 0 <= i < |rooms| && rooms[i].0 == l.0[k1].roomId && Scan(Codes(SortBy(rooms[i].1, NewestFirstKey)), s.playerStreak, s.bankerStreak).0 >= s.playerStreak;
      var j :| 0 <= j < |rooms| && rooms[j].0 == l.1[k2].roomId && Scan(Codes(SortBy(rooms[j].1, NewestFirstKey)), s.playerStreak, s.bankerStreak).1 >= s.bankerStreak;
      assert i == j;
      ScanSpec(Codes(SortBy(rooms[i].1, NewestFirstKey)), s.playerStreak, s.bankerStreak);
    }
  }

  /**
   * The result of `calculate_streaks`: both lists are the collected entries
   * sorted by streak, descending, without loss, and entries of equal streak
   * keep the room iteration order. With thresholds of at least 1 every streak
   * equals its threshold, so the sort leaves the room order untouched.
   */
  lemma StreaksSorted(rooms: Dict<seq<Item>>, s: StreakSettings, names: map<string, string>)
    requires StreakReport(rooms, s, names).Some?
    ensures var l := Collect(rooms, s, names).value;
      var d := StreakReport(rooms, s, names).value;
      && SortedBy(d.playerRooms, StreakKey) && SortedBy(d.bankerRooms, StreakKey)
      && multiset(d.playerRooms) == multiset(l.0) && multiset(d.bankerRooms) == multiset(l.1)
      && (forall k :: WithKey(d.playerRooms, StreakKey, k) == WithKey(l.0, StreakKey, k))
      && (forall k :: WithKey(d.bankerRooms, StreakKey, k) == WithKey(l.1, StreakKey, k))
    ensures s.playerStreak >= 1 && s.bankerStreak >= 1 ==>
      var l := Collect(rooms, s, names).value;
      var d := StreakReport(rooms, s, names).value;
      && d.playerRooms == l.0 && d.bankerRooms == l.1
      && (forall k :: 0 <= k < |l.0| ==> l.0[k].streak == s.playerStreak)
      && (forall k :: 0 <= k < |l.1| ==> l.1[k].streak == s.bankerStreak)
  {
    var l := Collect(rooms, s, names).value;
    SortByFacts(l.0, StreakKey);
    SortByFacts(l.1, StreakKey);
    if s.playerStreak >= 1 && s.bankerStreak >= 1 {
      CollectEntries(rooms, s, names);
      forall k | 0 <= k < |l.0| ensures l.0[k].streak == s.playerStreak {
        assert EntryOk(rooms, s, l.0[k], true);
        var i :| 0 <= i < |rooms| && rooms[i].0 == l.0[k].roomId
          && var counts := Scan(Codes(SortBy(rooms[i].1, NewestFirstKey)), s.playerStreak, s.bankerStreak);
             counts.0 >= s.playerStreak && l.0[k].streak == counts.0;
        ScanSpec(Codes(SortBy(rooms[i].1, NewestFirstKey)), s.playerStreak, s.bankerStreak);
      }
      forall k | 0 <= k < |l.1| ensures l.1[k].streak == s.bankerStreak {
        assert EntryOk(rooms, s, l.1[k], false);
        var i :| 0 <= i < |rooms| && rooms[i].0 == l.1[k].roomId
          && var counts := Scan(Codes(SortBy(rooms[i].1, NewestFirstKey)), s.playerStreak, s.bankerStreak);
             counts.1 >= s.bankerStreak && l.1[k].streak == counts.1;
        ScanSpec(Codes(SortBy(rooms[i].1, NewestFirstKey)), s.playerStreak, s.bankerStreak);
      }
      SortByEqualKeys(l.0, StreakKey, -s.playerStreak);
      SortByEqualKeys(l.1, StreakKey, -s.bankerStreak);
    }
  }

  /** A room with fewer than `min_results` results contributes to neither list. */
  lemma ShortRoomIgnored(id: string, items: seq<Item>, s: StreakSettings, names: map<string, string>)
    requires |items| < s.minResults
    ensures RoomEntries(id, items, s, names) == Some(([], []))
  {
  }

  /** When some room raises, nothing is returned; prefixes that raise make every extension raise. */
  lemma {:induction false} CollectNoneExtends(rooms: Dict<seq<Item>>, n: nat, s: StreakSettings, names: map<string, string>)
    requires n <= |rooms| && Collect(rooms[..n], s, names).None?
    ensures Collect(rooms, s, names).None?
    decreases |rooms| - n
  {
    if n < |rooms| {
      assert rooms[..n + 1][..n] == rooms[..n];
      CollectNoneExtends(rooms, n + 1, s, names);
    } else {
      assert rooms[..n] == rooms;
    }
  }
}

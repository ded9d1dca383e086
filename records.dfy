/**
 * The history records the lobby feed delivers (`lobby.historyUpdated`
 * frames) and the insertion-ordered dictionaries the monitor keeps them in.
 */
module Records {
  import opened Wrappers
  import opened Sorting

  /** The `pos` entry of a result item: a JSON list of integers, absent, or some other JSON value. */
  datatype Pos = PosList(coords: seq<int>) | PosMissing | PosOther

  /** One entry of a table's `results` list; an absent key is `None`. */
  datatype Item = Item(pos: Pos, c: Option<string>, natural: Option<int>, ties: Option<int>, pp: Option<int>, bp: Option<int>)

  /** `item.get('c', '')`: 'B' is a player win, 'R' a banker win. */
  function Code(it: Item): string {
    it.c.GetOr("")
  }

  /** `item["pos"][0] * 7 + item["pos"][1]` evaluates without raising. */
  predicate HasStrictKey(it: Item) {
    it.pos.PosList? && |it.pos.coords| >= 2
  }

  /** The board position `x*7 + y` of an item whose `pos` has two coordinates, else 0 (server.py's `get_sort_key`). */
  function SortKey(it: Item): int {
    if HasStrictKey(it) then it.pos.coords[0] * 7 + it.pos.coords[1] else 0
  }

  /** The strict key the feed clients sort with: a missing or short `pos` raises, modelled as `None`. */
  function StrictKey(it: Item): Option<int> {
    if HasStrictKey(it) then Some(SortKey(it)) else None
  }

  predicate AllStrictKeys(items: seq<Item>) {
    forall i :: 0 <= i < |items| ==> HasStrictKey(items[i])
  }

  /** `sorted(results, key=lambda item: item["pos"][0] * 7 + item["pos"][1])`; `None` when some key raises. */
  function StrictSort(items: seq<Item>): Option<seq<Item>> {
    if AllStrictKeys(items) then Some(SortBy(items, SortKey)) else None
  }

  /** The strict sort fails exactly when some item lacks a two-coordinate `pos`, and otherwise orders by `x*7 + y` without losing or reordering equal positions. */
  lemma StrictSortFacts(items: seq<Item>)
    ensures StrictSort(items).None? <==> exists i :: 0 <= i < |items| && !HasStrictKey(items[i])
    ensures StrictSort(items).Some? ==>
      var r := StrictSort(items).value;
      && SortedBy(r, SortKey) && multiset(r) == multiset(items)
      && (forall k :: WithKey(r, SortKey, k) == WithKey(items, SortKey, k))
      && AllStrictKeys(r)
  {
    SortByFacts(items, SortKey);
    if AllStrictKeys(items) {
      var r := SortBy(items, SortKey);
      forall i | 0 <= i < |r| ensures HasStrictKey(r[i]) {
        assert r[i] in multiset(items);
      }
    }
  }

  /** On items with a two-coordinate `pos`, server.py's lenient key and the strict key agree. */
  lemma SortKeyAgreesWithStrict(it: Item)
    ensures StrictKey(it).Some? ==> StrictKey(it).value == SortKey(it)
    ensures StrictKey(it).None? ==> SortKey(it) == 0
  {
  }

  /** A table entry of a frame's `args`: the `results` list, when present. */
  datatype TableData = TableData(results: Option<seq<Item>>)

  /** A decoded frame: `type` and `args` when present, `args` in the order the JSON object lists them. */
  datatype Message = Message(msgType: Option<string>, args: Option<seq<(string, TableData)>>)

  /** `data.get("type", "unknown") == "lobby.historyUpdated" and "args" in data`. */
  predicate IsHistoryUpdate(msg: Message) {
    msg.msgType.GetOr("unknown") == "lobby.historyUpdated" && msg.args.Some?
  }

  /** An insertion-ordered Python dict with string keys. */
  type Dict<V> = seq<(string, V)>

  function Keys<V>(d: Dict<V>): (r: seq<string>)
    ensures |r| == |d|
    ensures forall i :: 0 <= i < |d| ==> r[i] == d[i].0
  {
    if d == [] then [] else [d[0].0] + Keys(d[1..])
  }

  predicate UniqueKeys<V>(d: Dict<V>) {
    forall i, j :: 0 <= i < j < |d| ==> d[i].0 != d[j].0
  }

  /** `d.get(k)`. */
  function Lookup<V>(d: Dict<V>, k: string): Option<V> {
    if d == [] then None else if d[0].0 == k then Some(d[0].1) else Lookup(d[1..], k)
  }

  /** `d[k] = v`: an existing key keeps its place, a new key goes to the end. */
  function Put<V>(d: Dict<V>, k: string, v: V): Dict<V> {
    if d == [] then [(k, v)]
    else if d[0].0 == k then [(k, v)] + d[1..]
    else [d[0]] + Put(d[1..], k, v)
  }

  lemma {:induction false} LookupSome<V>(d: Dict<V>, k: string)
    ensures Lookup(d, k).Some? <==> k in Keys(d)
  {
    if d != [] {
      LookupSome(d[1..], k);
      assert Keys(d) == [d[0].0] + Keys(d[1..]);
    }
  }

  /** After `d[k] = v`, `d[k]` is v and every other key reads as before. */
  lemma {:induction false} PutLookup<V>(d: Dict<V>, k: string, v: V, k': string)
    ensures Lookup(Put(d, k, v), k) == Some(v)
    ensures k' != k ==> Lookup(Put(d, k, v), k') == Lookup(d, k')
  {
    if d != [] && d[0].0 != k {
      PutLookup(d[1..], k, v, k');
      assert Put(d, k, v) == [d[0]] + Put(d[1..], k, v);
    }
  }

  /** `d[k] = v` keeps the key order, appending a new key at the end. */
  lemma {:induction false} PutKeys<V>(d: Dict<V>, k: string, v: V)
    ensures Keys(Put(d, k, v)) == if k in Keys(d) then Keys(d) else Keys(d) + [k]
  {
    if d != [] {
      assert Keys(d) == [d[0].0] + Keys(d[1..]);
      if d[0].0 != k {
        PutKeys(d[1..], k, v);
        assert Put(d, k, v) == [d[0]] + Put(d[1..], k, v);
        assert Keys(Put(d, k, v)) == [d[0].0] + Keys(Put(d[1..], k, v));
      } else {
        assert Keys(Put(d, k, v)) == [k] + Keys(d[1..]);
      }
    }
  }

  /** `d[k] = v` never duplicates a key. */
  lemma PutUnique<V>(d: Dict<V>, k: string, v: V)
    requires UniqueKeys(d)
    ensures UniqueKeys(Put(d, k, v))
  {
    PutKeys(d, k, v);
    var r := Put(d, k, v);
    var kr, kd := Keys(r), Keys(d);
    assert forall i, j :: 0 <= i < j < |kd| ==> kd[i] != kd[j];
    if k !in kd {
      forall i, j | 0 <= i < j < |r| ensures r[i].0 != r[j].0 {
        assert kr[i] == r[i].0 && kr[j] == r[j].0;
      }
    } else {
      forall i, j | 0 <= i < j < |r| ensures r[i].0 != r[j].0 {
        assert kr[i] == r[i].0 && kr[j] == r[j].0;
        assert kd[i] == d[i].0 && kd[j] == d[j].0;
      }
    }
  }
}

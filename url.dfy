/**
 * `URLExtractor` (utils/url_extractor.py), the lobby URL builder
 * `_build_websocket_url` (monitor/lobby_monitor.py, client_ws.py) and the
 * part of Python's `urllib.parse` they rely on: `urlparse` (through
 * `urlsplit`), `parse_qs` and `unquote`, with CPython 3.12's rules.
 */
module Urls {
  import opened Wrappers
  import opened Strings

  /** `ClientConfig`: the four values a lobby connection is built from. */
  datatype ClientConfig = ClientConfig(sessionId: string, bareSessionId: string, instance: string, clientVersion: string)

  // ---- urlsplit / urlparse ----

  /** `url.lstrip(_WHATWG_C0_CONTROL_OR_SPACE)`: leading characters up to and including ' ' go. */
  function LStrip(s: string): (r: string)
    ensures r == [] || r[0] > ' '
    decreases |s|
  {
    if s != [] && s[0] <= ' ' then LStrip(s[1..]) else s
  }

  predicate Unsafe(ch: char) {
    ch == '\t' || ch == '\r' || ch == '\n'
  }

  /** No tab, carriage return or line feed. */
  predicate NoUnsafe(s: string) {
    '\t' !in s && '\r' !in s && '\n' !in s
  }

  /** Removes every tab, carriage return and line feed (`_UNSAFE_URL_BYTES_TO_REMOVE`). */
  function RemoveUnsafe(s: string): (r: string)
    ensures forall ch :: ch in r ==> ch in s && !Unsafe(ch)
    ensures NoUnsafe(s) ==> r == s
  {
    if s == [] then []
    else (if Unsafe(s[0]) then [] else [s[0]]) + RemoveUnsafe(s[1..])
  }

  predicate AsciiLetter(ch: char) {
    'a' <= ch <= 'z' || 'A' <= ch <= 'Z'
  }

  /** `scheme_chars`: letters, digits, '+', '-' and '.'. */
  predicate SchemeChar(ch: char) {
    AsciiLetter(ch) || '0' <= ch <= '9' || ch == '+' || ch == '-' || ch == '.'
  }

  /** The scheme is the text before the first ':' when it is non-empty, starts with a letter and uses only scheme characters; it is lower-cased. */
  function SplitScheme(u: string): (string, string) {
    var i := IndexOf(u, ':');
    if i > 0 && AsciiLetter(u[0]) && forall k :: 0 <= k < i ==> SchemeChar(u[k]) then (Lower(u[..i]), u[i + 1..])
    else ("", u)
  }

  /** Index of the first character of s in cs, or |s|. */
  function FirstOf(s: string, cs: set<char>): (r: nat)
    ensures r <= |s|
    ensures forall k :: 0 <= k < r ==> s[k] !in cs
    ensures r < |s| ==> s[r] in cs
  {
    if s == [] || s[0] in cs then 0 else 1 + FirstOf(s[1..], cs)
  }

  /** `_splitnetloc(url, 2)`: the netloc runs from index 2 to the first '/', '?' or '#'. */
  function SplitNetloc(rest: string): (string, string)
    requires |rest| >= 2
  {
    var t := rest[2..];
    var d := FirstOf(t, {'/', '?', '#'});
    (t[..d], t[d..])
  }

  /** A netloc with only one of '[' and ']' makes `urlsplit` raise `ValueError`. */
  predicate Unbalanced(netloc: string) {
    ('[' in netloc && ']' !in netloc) || (']' in netloc && '[' !in netloc)
  }

  /** `s.split(c, 1)` when c occurs, else `(s, "")`. */
  function SplitOnce(s: string, c: char): (string, string) {
    var i := IndexOf(s, c);
    if i < 0 then (s, "") else (s[..i], s[i + 1..])
  }

  datatype SplitResult = SplitResult(scheme: string, netloc: string, path: string, query: string, fragment: string)

  /** `urlsplit(url)`; `None` stands for the `ValueError` of an unbalanced bracket. */
  function UrlSplit(url: string): Option<SplitResult> {
    var u := RemoveUnsafe(LStrip(url));
    var scheme := SplitScheme(u);
    var rest := scheme.1;
    var netloc := if |rest| >= 2 && rest[..2] == "//" then SplitNetloc(rest) else ("", rest);
    if Unbalanced(netloc.0) then None
    else
      var fragment := SplitOnce(netloc.1, '#');
      var query := SplitOnce(fragment.0, '?');
      Some(SplitResult(scheme.0, netloc.0, query.0, query.1, fragment.1))
  }

  /** `uses_params`: the schemes whose paths carry `;params`. */
  const UsesParams: set<string> := {"", "ftp", "hdl", "prospero", "http", "imap", "https", "shttp", "rtsp", "rtsps", "rtspu", "sip", "sips", "mms", "sftp", "tel"}

  function LastIndexOf(s: string, c: char): (r: int)
    ensures -1 <= r < |s|
    ensures r >= 0 ==> s[r] == c
    ensures r == -1 <==> c !in s
  {
    if s == [] then -1 else if s[|s| - 1] == c then |s| - 1 else LastIndexOf(s[..|s| - 1], c)
  }

  /** `_splitparams(path)[0]`: the path without its `;params`, which start at the first ';' after the last '/'. */
  function StripParams(path: string): string {
    if '/' in path then
      var j := LastIndexOf(path, '/');
      var k := IndexOf(path[j..], ';');
      if k < 0 then path else path[..j + k]
    else
      var i := IndexOf(path, ';');
      if i < 0 then path else path[..i]
  }

  /** `urlparse(url)`, keeping the fields the extractor reads; the path loses its `;params` only for schemes in `uses_params`. */
  function UrlParse(url: string): Option<SplitResult> {
    match UrlSplit(url)
    case None => None
    case Some(r) =>
      if r.scheme in UsesParams && ';' in r.path then Some(r.(path := StripParams(r.path))) else Some(r)
  }

  // ---- parse_qs / unquote ----

  function HexValue(ch: char): int {
    if '0' <= ch <= '9' then ch as int - '0' as int
    else if 'a' <= ch <= 'f' then ch as int - 'a' as int + 10
    else if 'A' <= ch <= 'F' then ch as int - 'A' as int + 10
    else -1
  }

  /** `unquote`: every '%' followed by two hex digits becomes the character with that code; any other '%' stays. */
  function Unquote(s: string): string
    decreases |s|
  {
    if s == [] then []
    else if s[0] == '%' && |s| >= 3 && HexValue(s[1]) >= 0 && HexValue(s[2]) >= 0 then
      [(HexValue(s[1]) * 16 + HexValue(s[2])) as char] + Unquote(s[3..])
    else [s[0]] + Unquote(s[1..])
  }

  /** `s.replace('+', ' ')`. */
  function Plus(s: string): (r: string)
    ensures |r| == |s|
    ensures forall i :: 0 <= i < |s| ==> r[i] == if s[i] == '+' then ' ' else s[i]
  {
    if s == [] then [] else [if s[0] == '+' then ' ' else s[0]] + Plus(s[1..])
  }

  /** Text without '%' is left alone by `unquote`. */
  lemma {:induction false} UnquotePlain(s: string)
    requires '%' !in s
    ensures Unquote(s) == s
    decreases |s|
  {
    if s != [] {
      UnquotePlain(s[1..]);
      assert s == [s[0]] + s[1..];
    }
  }

  lemma PlusPlain(s: string)
    requires '+' !in s
    ensures Plus(s) == s
  {
  }

  /** `unquote(s.replace('+', ' '))`, as `parse_qsl` decodes names and values. */
  function Decode(s: string): string {
    Unquote(Plus(s))
  }

  lemma DecodePlain(s: string)
    requires '%' !in s && '+' !in s
    ensures Decode(s) == s
  {
    PlusPlain(s);
    UnquotePlain(s);
  }

  /** The loop of `parse_qsl` over the '&'-separated fields: empty fields, fields without '=' and blank values are dropped. */
  function Pairs(fields: seq<string>): seq<(string, string)>
    decreases |fields|
  {
    if fields == [] then []
    else
      var f := fields[0];
      var i := IndexOf(f, '=');
      if f == "" || i < 0 || i == |f| - 1 then Pairs(fields[1..])
      else [(Decode(f[..i]), Decode(f[i + 1..]))] + Pairs(fields[1..])
  }

  function ParseQsl(qs: string): seq<(string, string)> {
    if qs == "" then [] else Pairs(Split(qs, '&'))
  }

  /** `parse_qs(qs).get(key, [''])[0]`: the first value given for key, or "". */
  function QueryFirst(pairs: seq<(string, string)>, key: string): string {
    if pairs == [] then "" else if pairs[0].0 == key then pairs[0].1 else QueryFirst(pairs[1..], key)
  }

  /** `key in parse_qs(qs)`. */
  predicate HasParam(pairs: seq<(string, string)>, key: string) {
    exists i :: 0 <= i < |pairs| && pairs[i].0 == key
  }

  lemma {:induction false} QueryFirstFound(pairs: seq<(string, string)>, key: string)
    ensures QueryFirst(pairs, key) != "" ==> HasParam(pairs, key)
  {
    if pairs != [] && pairs[0].0 != key {
      QueryFirstFound(pairs[1..], key);
      if QueryFirst(pairs, key) != "" {
        var i :| 0 <= i < |pairs[1..]| && pairs[1..][i].0 == key;
        assert pairs[i + 1].0 == key;
      }
    }
  }

  // ---- URLExtractor ----

  /** The four fields read from a URL; `None` when `urlparse` raises. */
  function ExtractFields(url: string): Option<ClientConfig> {
    match UrlParse(url)
    case None => None
    case Some(p) =>
      var q := ParseQsl(p.query);
      var bare := Last(Split(p.path, '/'));
      var sessionId := QueryFirst(q, "EVOSESSIONID");
      var instanceParam := QueryFirst(q, "instance");
      var instance := if instanceParam != "" then Split(instanceParam, '-')[0] else "";
      var clientVersion := QueryFirst(q, "client_version");
      Some(ClientConfig(sessionId, bare, instance, clientVersion))
  }

  predicate Complete(c: ClientConfig) {
    c.sessionId != "" && c.bareSessionId != "" && c.instance != "" && c.clientVersion != ""
  }

  /** `extract_baccarat_config`: `None` when parsing raises or any of the four values is empty. */
  function ExtractBaccaratConfig(url: string): (r: Option<ClientConfig>)
    ensures r.Some? ==> Complete(r.value) && Some(r.value) == ExtractFields(url)
    ensures r.None? ==> ExtractFields(url).None? || !Complete(ExtractFields(url).value)
  {
    match ExtractFields(url)
    case None => None
    case Some(c) => if Complete(c) then Some(c) else None
  }

  const Host := "skylinestart.evo-games.com"

  /** The `features` value: these names joined by "%2C" (an escaped ','). */
  const FeatureNames: seq<string> := ["opensAt", "multipleHero", "shortThumbnails", "skipInfosPublished", "smc",
                                      "uniRouletteHistory", "bacHistoryV2", "filters", "tableDecorations"]
  const EscapedComma := "%2C"

  function JoinWith(names: seq<string>, sep: string): string
    requires |names| >= 1
  {
    if |names| == 1 then names[0] else names[0] + sep + JoinWith(names[1..], sep)
  }

  const Features := JoinWith(FeatureNames, EscapedComma)

  function Param(name: string, value: string): string {
    name + "=" + value
  }

  function Params(ps: seq<(string, string)>): (r: seq<string>)
    ensures |r| == |ps|
  {
    if ps == [] then [] else [Param(ps[0].0, ps[0].1)] + Params(ps[1..])
  }

  /** `wss://skylinestart.evo-games.com{path}?{params joined by '&'}`. */
  function BuildUrl(path: string, ps: seq<(string, string)>): string
    requires |ps| >= 1
  {
    "wss" + (":" + ("//" + (Host + (path + ("?" + Join(Params(ps), '&'))))))
  }

  /** The lobby query; `features` is always `Features`, kept as a parameter so that proofs need not evaluate it. */
  function LobbyParams(c: ClientConfig, features: string): seq<(string, string)> {
    [("messageFormat", "json"), ("device", "Desktop"), ("features", features),
     ("instance", c.instance + "-" + c.bareSessionId + "-"),
     ("EVOSESSIONID", c.sessionId), ("client_version", c.clientVersion)]
  }

  /** `_build_websocket_url` of both lobby clients. */
  function LobbyUrl(c: ClientConfig): string {
    BuildUrl("/public/lobby/socket/v2/" + c.bareSessionId, LobbyParams(c, Features))
  }

  function RoomParams(c: ClientConfig): seq<(string, string)> {
    [("messageFormat", "json"), ("device", "Desktop"),
     ("instance", c.instance + "-" + c.bareSessionId + "-"),
     ("EVOSESSIONID", c.sessionId), ("client_version", c.clientVersion)]
  }

  function RoomUrl(roomId: string, c: ClientConfig): string {
    BuildUrl("/public/game/socket/" + roomId + "/" + c.bareSessionId, RoomParams(c))
  }

  /** `extract_room_websocket_url`: `None` iff the lobby URL yields no config. */
  function ExtractRoomWebsocketUrl(lobbyUrl: string, roomId: string): (r: Option<string>)
    ensures r.None? <==> ExtractBaccaratConfig(lobbyUrl).None?
  {
    match ExtractBaccaratConfig(lobbyUrl)
    case None => None
    case Some(c) => Some(RoomUrl(roomId, c))
  }

  /** `validate_ws_url`. */
  function ValidateWsUrl(url: string): (r: bool)
    ensures url == "" ==> !r
    ensures r ==> UrlParse(url).Some?
    ensures r ==> var p := UrlParse(url).value;
      && (p.scheme == "ws" || p.scheme == "wss")
      && Contains(p.netloc, "evo-games.com")
      && (Contains(p.path, "/socket/v2/") || Contains(p.path, "/game/socket/"))
      && var q := ParseQsl(p.query);
         HasParam(q, "EVOSESSIONID") && HasParam(q, "instance") && HasParam(q, "client_version")
  {
    if url == "" then false
    else
      match UrlParse(url)
      case None => false
      case Some(p) =>
        if p.scheme != "ws" && p.scheme != "wss" then false
        else if !Contains(p.netloc, "evo-games.com") then false
        else if !(Contains(p.path, "/socket/v2/") || Contains(p.path, "/game/socket/")) then false
        else
          var q := ParseQsl(p.query);
          HasParam(q, "EVOSESSIONID") && HasParam(q, "instance") && HasParam(q, "client_version")
  }
  // ---- What the builders and the extractor promise each other ----

  /** Letters, digits, '.', '-' and '_': characters with no meaning in any part of a URL. */
  predicate WordChar(ch: char) {
    'a' <= ch <= 'z' || 'A' <= ch <= 'Z' || '0' <= ch <= '9' || ch == '.' || ch == '-' || ch == '_'
  }

  predicate Plain(s: string) {
    forall k :: 0 <= k < |s| ==> WordChar(s[k])
  }

  /** Text that stays inside one query field: no '&', no '#', nothing the cleaning step removes. */
  predicate QueryText(s: string) {
    '&' !in s && '#' !in s && NoUnsafe(s)
  }

  /** A query name `parse_qsl` reads back as written. */
  predicate NameText(s: string) {
    QueryText(s) && '=' !in s && '%' !in s && '+' !in s
  }

  /** A parameter `parse_qsl` reads back: a plain name, and a non-empty value. */
  predicate GoodParam(p: (string, string)) {
    NameText(p.0) && p.1 != "" && QueryText(p.1)
  }

  lemma PlainFacts(s: string)
    requires Plain(s)
    ensures NameText(s) && '/' !in s && '?' !in s && '[' !in s && ']' !in s
    ensures forall k :: 0 <= k < |s| ==> s[k] !in {'/', '?', '#'}
  {
  }

  lemma QueryTextAppend(a: string, b: string)
    requires QueryText(a) && QueryText(b)
    ensures QueryText(a + b)
  {
  }

  lemma {:induction false} QueryTextJoinWith(names: seq<string>, sep: string)
    requires |names| >= 1 && QueryText(sep)
    requires forall i :: 0 <= i < |names| ==> Plain(names[i])
    ensures QueryText(JoinWith(names, sep))
  {
    PlainFacts(names[0]);
    if |names| > 1 {
      QueryTextJoinWith(names[1..], sep);
      QueryTextAppend(names[0], sep);
      QueryTextAppend(names[0] + sep, JoinWith(names[1..], sep));
    }
  }

  lemma FeatureNamesPlain0()
    ensures Plain("opensAt") && Plain("multipleHero") && Plain("shortThumbnails")
  {
  }

  lemma FeatureNamesPlain1()
    ensures Plain("skipInfosPublished") && Plain("smc") && Plain("uniRouletteHistory")
  {
  }

  lemma FeatureNamesPlain2()
    ensures Plain("bacHistoryV2") && Plain("filters") && Plain("tableDecorations")
  {
  }

  lemma FeaturesText()
    ensures QueryText(Features)
  {
    FeatureNamesPlain0();
    FeatureNamesPlain1();
    FeatureNamesPlain2();
    assert QueryText(EscapedComma);
    QueryTextJoinWith(FeatureNames, EscapedComma);
  }

  lemma HostPlain()
    ensures Plain(Host)
  {
  }

  lemma ParamNamesPlain()
    ensures Plain("messageFormat") && Plain("device") && Plain("features") && Plain("json")
  {
  }

  lemma ConfigNamesPlain()
    ensures Plain("instance") && Plain("EVOSESSIONID") && Plain("client_version") && Plain("Desktop")
  {
  }

  lemma {:induction false} ParamsHasNo(ps: seq<(string, string)>, x: char)
    requires x != '='
    requires forall i :: 0 <= i < |ps| ==> x !in ps[i].0 && x !in ps[i].1
    ensures forall i :: 0 <= i < |Params(ps)| ==> x !in Params(ps)[i]
  {
    if ps != [] {
      ParamsHasNo(ps[1..], x);
      assert Params(ps) == [Param(ps[0].0, ps[0].1)] + Params(ps[1..]);
    }
  }

  function DecodedPairs(ps: seq<(string, string)>): (r: seq<(string, string)>)
    ensures |r| == |ps|
    ensures forall i :: 0 <= i < |ps| ==> r[i] == (ps[i].0, Decode(ps[i].1))
  {
    if ps == [] then [] else [(ps[0].0, Decode(ps[0].1))] + DecodedPairs(ps[1..])
  }

  /** `parse_qsl` reads back every field a builder wrote, values decoded. */
  lemma {:induction false} PairsOfParams(ps: seq<(string, string)>)
    requires forall i :: 0 <= i < |ps| ==> GoodParam(ps[i])
    ensures Pairs(Params(ps)) == DecodedPairs(ps)
  {
    if ps != [] {
      var n, v := ps[0].0, ps[0].1;
      var f := Param(n, v);
      assert f == n + ("=" + v);
      IndexOfAfter(n, "=" + v, '=');
      assert f[..|n|] == n && f[|n| + 1..] == v;
      DecodePlain(n);
      PairsOfParams(ps[1..]);
      assert Params(ps)[0] == f && Params(ps)[1..] == Params(ps[1..]);
    }
  }

  lemma JoinParamsNonEmpty(ps: seq<(string, string)>)
    requires |ps| >= 1
    ensures Join(Params(ps), '&') != ""
  {
    assert Params(ps)[0] == ps[0].0 + "=" + ps[0].1;
  }

  lemma ParseQslOfParams(ps: seq<(string, string)>)
    requires |ps| >= 1
    requires forall i :: 0 <= i < |ps| ==> GoodParam(ps[i])
    ensures ParseQsl(Join(Params(ps), '&')) == DecodedPairs(ps)
  {
    ParamsHasNo(ps, '&');
    JoinParamsNonEmpty(ps);
    SplitJoin(Params(ps), '&');
    PairsOfParams(ps);
  }

  lemma {:induction false} FirstOfAfter(a: string, b: string, cs: set<char>)
    requires forall k :: 0 <= k < |a| ==> a[k] !in cs
    requires b != [] && b[0] in cs
    ensures FirstOf(a + b, cs) == |a|
  {
    if a != [] {
      FirstOfAfter(a[1..], b, cs);
      assert (a + b)[1..] == a[1..] + b;
    }
  }

  /** A path fit to be spliced into a URL: it starts the path component and ends before the query. */
  predicate PathPiece(path: string) {
    path != [] && path[0] == '/' && '?' !in path && '#' !in path && NoUnsafe(path)
  }

  /** The cleaning steps leave a built URL alone. */
  lemma CleanBuilt(rest: string)
    requires NoUnsafe(rest)
    ensures RemoveUnsafe(LStrip("wss" + (":" + rest))) == "wss" + (":" + rest)
  {
    var url := "wss" + (":" + rest);
    assert url[0] == 'w';
    assert LStrip(url) == url;
    assert NoUnsafe(url);
  }

  /** A built URL has the scheme "wss". */
  lemma SchemeOfBuilt(rest: string)
    ensures SplitScheme("wss" + (":" + rest)) == ("wss", rest)
  {
    var url := "wss" + (":" + rest);
    IndexOfAfter("wss", ":" + rest, ':');
    assert IndexOf(url, ':') == 3;
    assert url[..3] == "wss" && url[4..] == rest;
    WssScheme();
    assert forall k :: 0 <= k < 3 ==> url[k] == "wss"[k];
  }

  lemma WssScheme()
    ensures AsciiLetter("wss"[0]) && forall k :: 0 <= k < 3 ==> SchemeChar("wss"[k])
    ensures Lower("wss") == "wss"
  {
    LowerPointwise("wss");
    assert Lower("wss")[0] == 'w';
    assert Lower("wss")[1] == 's';
    assert Lower("wss")[2] == 's';
  }

  lemma NetlocOfBuilt(tail: string)
    requires tail != [] && tail[0] == '/'
    ensures |"//" + (Host + tail)| >= 2 && ("//" + (Host + tail))[..2] == "//"
    ensures SplitNetloc("//" + (Host + tail)) == (Host, tail)
  {
    var t := Host + tail;
    assert ("//" + t)[2..] == t;
    HostPlain();
    PlainFacts(Host);
    FirstOfAfter(Host, tail, {'/', '?', '#'});
    assert t[..|Host|] == Host && t[|Host|..] == tail;
  }

  lemma QueryOfBuilt(path: string, q: string)
    requires '?' !in path && '#' !in path && '#' !in q
    ensures SplitOnce(path + ("?" + q), '#') == (path + ("?" + q), "")
    ensures SplitOnce(path + ("?" + q), '?') == (path, q)
  {
    var tail := path + ("?" + q);
    IndexOfAfter(path, "?" + q, '?');
    assert tail[..|path|] == path && tail[|path| + 1..] == q;
  }

  lemma QueryClean(ps: seq<(string, string)>)
    requires |ps| >= 1 && forall i :: 0 <= i < |ps| ==> GoodParam(ps[i])
    ensures '#' !in Join(Params(ps), '&') && NoUnsafe(Join(Params(ps), '&'))
  {
    ParamsHasNo(ps, '#');
    ParamsHasNo(ps, '\t');
    ParamsHasNo(ps, '\r');
    ParamsHasNo(ps, '\n');
    JoinHasNo(Params(ps), '&', '#');
    JoinHasNo(Params(ps), '&', '\t');
    JoinHasNo(Params(ps), '&', '\r');
    JoinHasNo(Params(ps), '&', '\n');
  }

  lemma WssHasNoParams()
    ensures "wss" !in UsesParams
  {
    assert |"wss"| == 3;
    forall x | x in UsesParams && |x| == 3
      ensures x != "wss"
    {
      assert x[0] != 'w';
    }
  }

  lemma SplitBuilt(path: string, q: string)
    requires PathPiece(path) && '#' !in q && NoUnsafe(q)
    ensures UrlSplit("wss" + (":" + ("//" + (Host + (path + ("?" + q)))))) == Some(SplitResult("wss", Host, path, q, ""))
  {
    var tail := path + ("?" + q);
    var rest := "//" + (Host + tail);
    HostPlain();
    PlainFacts(Host);
    assert NoUnsafe(rest);
    CleanBuilt(rest);
    SchemeOfBuilt(rest);
    NetlocOfBuilt(tail);
    QueryOfBuilt(path, q);
  }

  /** `urlparse` splits a built URL back into exactly the pieces it was built from. */
  lemma ParseBuild(path: string, ps: seq<(string, string)>)
    requires |ps| >= 1 && forall i :: 0 <= i < |ps| ==> GoodParam(ps[i])
    requires PathPiece(path)
    ensures UrlParse(BuildUrl(path, ps)) == Some(SplitResult("wss", Host, path, Join(Params(ps), '&'), ""))
  {
    QueryClean(ps);
    SplitBuilt(path, Join(Params(ps), '&'));
    WssHasNoParams();
  }

  lemma {:induction false} QueryFirstAt(pairs: seq<(string, string)>, key: string, i: nat)
    requires i < |pairs| && pairs[i].0 == key
    requires forall j :: 0 <= j < i ==> pairs[j].0 != key
    ensures QueryFirst(pairs, key) == pairs[i].1
    ensures HasParam(pairs, key)
  {
    if i > 0 {
      QueryFirstAt(pairs[1..], key, i - 1);
    }
  }

  /** A value the extractor reads back unchanged: non-empty, and free of path, query and escape syntax. */
  predicate SafeValue(v: string) {
    && v != "" && '/' !in v && '&' !in v && '%' !in v && '+' !in v && '#' !in v && '?' !in v && NoUnsafe(v)
  }

  /** A config whose lobby URL carries it back: every value safe, and an instance without '-'. */
  predicate UrlSafe(c: ClientConfig) {
    SafeValue(c.sessionId) && SafeValue(c.bareSessionId) && SafeValue(c.instance) && SafeValue(c.clientVersion)
    && '-' !in c.instance
  }

  /** A room id that stays inside the path. */
  predicate RoomIdSafe(roomId: string) {
    '?' !in roomId && '#' !in roomId && NoUnsafe(roomId)
  }

  function InstanceValue(c: ClientConfig): string {
    c.instance + "-" + c.bareSessionId + "-"
  }

  /** Decoding leaves the three query values of a config as they are. */
  predicate DecodeFixes(c: ClientConfig) {
    Decode(c.sessionId) == c.sessionId && Decode(c.clientVersion) == c.clientVersion
    && Decode(InstanceValue(c)) == InstanceValue(c)
  }

  lemma DecodeSafe(c: ClientConfig)
    requires UrlSafe(c)
    ensures DecodeFixes(c)
    ensures QueryText(c.sessionId) && QueryText(c.clientVersion) && QueryText(InstanceValue(c))
  {
    DecodePlain(c.sessionId);
    DecodePlain(c.clientVersion);
    DecodePlain(InstanceValue(c));
  }

  /** The common end of both round trips: the path ends in the bare id and the query holds the three values. */
  lemma ExtractFromParts(url: string, path: string, c: ClientConfig, qs: string)
    requires UrlSafe(c)
    requires UrlParse(url) == Some(SplitResult("wss", Host, path, qs, ""))
    requires Last(Split(path, '/')) == c.bareSessionId
    requires QueryFirst(ParseQsl(qs), "EVOSESSIONID") == c.sessionId
    requires QueryFirst(ParseQsl(qs), "instance") == InstanceValue(c)
    requires QueryFirst(ParseQsl(qs), "client_version") == c.clientVersion
    ensures ExtractBaccaratConfig(url) == Some(c)
  {
    InstanceSplit(c);
  }

  /** `instance.split('-')[0]` of a built instance value gives the instance back. */
  lemma InstanceSplit(c: ClientConfig)
    requires '-' !in c.instance
    ensures InstanceValue(c) != "" && Split(InstanceValue(c), '-')[0] == c.instance
  {
    assert InstanceValue(c) == c.instance + ['-'] + (c.bareSessionId + "-");
    SplitAt(c.instance, '-', c.bareSessionId + "-");
  }

  lemma LobbyParamsGood(c: ClientConfig, features: string)
    requires UrlSafe(c) && features != "" && QueryText(features)
    ensures forall i :: 0 <= i < |LobbyParams(c, features)| ==> GoodParam(LobbyParams(c, features)[i])
  {
    ParamNamesPlain();
    ConfigNamesPlain();
    PlainFacts("messageFormat");
    PlainFacts("device");
    PlainFacts("features");
    PlainFacts("json");
    PlainFacts("instance");
    PlainFacts("EVOSESSIONID");
    PlainFacts("client_version");
    PlainFacts("Desktop");
    DecodeSafe(c);
  }

  lemma RoomParamsGood(c: ClientConfig)
    requires UrlSafe(c)
    ensures forall i :: 0 <= i < |RoomParams(c)| ==> GoodParam(RoomParams(c)[i])
  {
    ParamNamesPlain();
    ConfigNamesPlain();
    PlainFacts("messageFormat");
    PlainFacts("device");
    PlainFacts("json");
    PlainFacts("instance");
    PlainFacts("EVOSESSIONID");
    PlainFacts("client_version");
    PlainFacts("Desktop");
    DecodeSafe(c);
  }

  /** A built query gives back, under each name, the decoded value of that name's first field. */
  lemma QueryValue(ps: seq<(string, string)>, key: string, i: nat)
    requires |ps| >= 1 && forall j :: 0 <= j < |ps| ==> GoodParam(ps[j])
    requires i < |ps| && ps[i].0 == key
    requires forall j :: 0 <= j < i ==> ps[j].0 != key
    ensures QueryFirst(ParseQsl(Join(Params(ps), '&')), key) == Decode(ps[i].1)
    ensures HasParam(ParseQsl(Join(Params(ps), '&')), key)
  {
    ParseQslOfParams(ps);
    QueryFirstAt(DecodedPairs(ps), key, i);
  }

  /** Where a query carries the three connection values, each is found under its name. */
  lemma ConfigInQuery(ps: seq<(string, string)>, c: ClientConfig, session: nat, instance: nat, version: nat)
    requires |ps| >= 1 && forall j :: 0 <= j < |ps| ==> GoodParam(ps[j])
    requires DecodeFixes(c)
    requires session < |ps| && ps[session] == ("EVOSESSIONID", c.sessionId)
    requires forall j :: 0 <= j < session ==> ps[j].0 != "EVOSESSIONID"
    requires instance < |ps| && ps[instance] == ("instance", InstanceValue(c))
    requires forall j :: 0 <= j < instance ==> ps[j].0 != "instance"
    requires version < |ps| && ps[version] == ("client_version", c.clientVersion)
    requires forall j :: 0 <= j < version ==> ps[j].0 != "client_version"
    ensures var q := ParseQsl(Join(Params(ps), '&'));
      && QueryFirst(q, "EVOSESSIONID") == c.sessionId && QueryFirst(q, "instance") == InstanceValue(c)
      && QueryFirst(q, "client_version") == c.clientVersion
      && HasParam(q, "EVOSESSIONID") && HasParam(q, "instance") && HasParam(q, "client_version")
  {
    QueryValue(ps, "EVOSESSIONID", session);
    QueryValue(ps, "instance", instance);
    QueryValue(ps, "client_version", version);
  }

  lemma NamesDiffer()
    ensures "messageFormat" != "client_version" && "device" != "client_version" && "features" != "client_version"
    ensures "instance" != "client_version" && "EVOSESSIONID" != "client_version"
    ensures "messageFormat" != "EVOSESSIONID" && "device" != "EVOSESSIONID" && "features" != "EVOSESSIONID"
    ensures "instance" != "EVOSESSIONID"
    ensures "messageFormat" != "instance" && "device" != "instance" && "features" != "instance"
  {
  }

  /** The three connection values of a built query can be looked up by name. */
  lemma LobbyQuery(c: ClientConfig, features: string)
    requires UrlSafe(c) && features != "" && QueryText(features)
    ensures var q := ParseQsl(Join(Params(LobbyParams(c, features)), '&'));
      && QueryFirst(q, "EVOSESSIONID") == c.sessionId && QueryFirst(q, "instance") == InstanceValue(c)
      && QueryFirst(q, "client_version") == c.clientVersion
      && HasParam(q, "EVOSESSIONID") && HasParam(q, "instance") && HasParam(q, "client_version")
  {
    var ps := LobbyParams(c, features);
    LobbyParamsGood(c, features);
    DecodeSafe(c);
    LobbyKeys(c, features);
    ConfigInQuery(ps, c, 4, 3, 5);
  }

  /** Where the three connection values sit among the lobby parameters, each after no other of its name. */
  lemma LobbyKeys(c: ClientConfig, features: string)
    ensures var ps := LobbyParams(c, features);
      && |ps| == 6 && ps[3] == ("instance", InstanceValue(c))
      && ps[4] == ("EVOSESSIONID", c.sessionId) && ps[5] == ("client_version", c.clientVersion)
      && (forall j :: 0 <= j < 4 ==> ps[j].0 != "EVOSESSIONID")
      && (forall j :: 0 <= j < 3 ==> ps[j].0 != "instance")
      && (forall j :: 0 <= j < 5 ==> ps[j].0 != "client_version")
  {
    NamesDiffer();
  }

  lemma RoomQuery(c: ClientConfig)
    requires UrlSafe(c)
    ensures var q := ParseQsl(Join(Params(RoomParams(c)), '&'));
      && QueryFirst(q, "EVOSESSIONID") == c.sessionId && QueryFirst(q, "instance") == InstanceValue(c)
      && QueryFirst(q, "client_version") == c.clientVersion
      && HasParam(q, "EVOSESSIONID") && HasParam(q, "instance") && HasParam(q, "client_version")
  {
    var ps := RoomParams(c);
    RoomParamsGood(c);
    DecodeSafe(c);
    RoomKeys(c);
    ConfigInQuery(ps, c, 3, 2, 4);
  }

  /** Where the three connection values sit among the room parameters, each after no other of its name. */
  lemma RoomKeys(c: ClientConfig)
    ensures var ps := RoomParams(c);
      && |ps| == 5 && ps[2] == ("instance", InstanceValue(c))
      && ps[3] == ("EVOSESSIONID", c.sessionId) && ps[4] == ("client_version", c.clientVersion)
      && (forall j :: 0 <= j < 3 ==> ps[j].0 != "EVOSESSIONID")
      && (forall j :: 0 <= j < 2 ==> ps[j].0 != "instance")
      && (forall j :: 0 <= j < 4 ==> ps[j].0 != "client_version")
  {
    NamesDiffer();
  }

  lemma HostIsEvolution()
    ensures Contains(Host, "evo-games.com")
  {
    InfixContains(Host, "skylinestart.", "evo-games.com", "");
  }

  /** Characters of the fixed path prefixes. */
  predicate PathText(s: string) {
    forall k :: 0 <= k < |s| ==> WordChar(s[k]) || s[k] == '/'
  }

  lemma PathTextFacts(s: string)
    requires PathText(s)
    ensures '?' !in s && '#' !in s && NoUnsafe(s)
  {
  }

  lemma PrefixesText()
    ensures PathText("/public/lobby/socket/v2/") && PathText("/public/game/socket/")
  {
  }

  /** What `split('/')[-1]` returns for a prefix ending in '/' followed by a segment. */
  lemma LastAfterSlash(prefix: string, segment: string)
    requires prefix != [] && prefix[|prefix| - 1] == '/' && '/' !in segment
    ensures Last(Split(prefix + segment, '/')) == segment
  {
    var front := prefix[..|prefix| - 1];
    assert prefix == front + ['/'];
    assert prefix + segment == front + ['/'] + segment;
    SplitLast(front, '/', segment);
  }

  lemma LobbyPath(c: ClientConfig)
    requires UrlSafe(c)
    ensures var path := "/public/lobby/socket/v2/" + c.bareSessionId;
      PathPiece(path) && Last(Split(path, '/')) == c.bareSessionId && Contains(path, "/socket/v2/")
  {
    var prefix := "/public/lobby/socket/v2/";
    PrefixesText();
    PathTextFacts(prefix);
    assert prefix[0] == '/' && prefix[|prefix| - 1] == '/';
    LastAfterSlash(prefix, c.bareSessionId);
    assert prefix == "/public/lobby" + "/socket/v2/";
    InfixContains(prefix + c.bareSessionId, "/public/lobby", "/socket/v2/", c.bareSessionId);
  }

  lemma RoomPath(roomId: string, c: ClientConfig)
    requires UrlSafe(c) && RoomIdSafe(roomId)
    ensures var path := "/public/game/socket/" + roomId + "/" + c.bareSessionId;
      PathPiece(path) && Last(Split(path, '/')) == c.bareSessionId && Contains(path, "/game/socket/")
  {
    RoomPathPiece(roomId, c.bareSessionId);
    SplitLast("/public/game/socket/" + roomId, '/', c.bareSessionId);
    RoomPathContains(roomId, c.bareSessionId);
  }

  lemma RoomPathPiece(roomId: string, bare: string)
    requires RoomIdSafe(roomId) && SafeValue(bare)
    ensures PathPiece("/public/game/socket/" + roomId + "/" + bare)
  {
    PrefixesText();
    PathTextFacts("/public/game/socket/");
  }

  lemma RoomPathContains(roomId: string, bare: string)
    ensures Contains("/public/game/socket/" + roomId + "/" + bare, "/game/socket/")
  {
    var path := "/public/game/socket/" + roomId + "/" + bare;
    assert path == "/public" + "/game/socket/" + (roomId + "/" + bare);
    InfixContains(path, "/public", "/game/socket/", roomId + "/" + bare);
  }

  /** The lobby URL built from a config carries that config back out (`_build_websocket_url`, then `extract_baccarat_config`) and passes `validate_ws_url`. */
  lemma LobbyUrlRoundTrip(c: ClientConfig)
    requires UrlSafe(c)
    ensures ExtractBaccaratConfig(LobbyUrl(c)) == Some(c)
    ensures ValidateWsUrl(LobbyUrl(c))
  {
    var path := "/public/lobby/socket/v2/" + c.bareSessionId;
    FeaturesText();
    LobbyPath(c);
    LobbyParamsGood(c, Features);
    ParseBuild(path, LobbyParams(c, Features));
    LobbyQuery(c, Features);
    ExtractFromParts(LobbyUrl(c), path, c, Join(Params(LobbyParams(c, Features)), '&'));
    HostIsEvolution();
  }

  /** The room URL derived from a config carries the same config and passes validation. */
  lemma RoomUrlRoundTrip(roomId: string, c: ClientConfig)
    requires UrlSafe(c) && RoomIdSafe(roomId)
    ensures ExtractBaccaratConfig(RoomUrl(roomId, c)) == Some(c)
    ensures ValidateWsUrl(RoomUrl(roomId, c))
  {
    var path := "/public/game/socket/" + roomId + "/" + c.bareSessionId;
    RoomPath(roomId, c);
    RoomParamsGood(c);
    ParseBuild(path, RoomParams(c));
    RoomQuery(c);
    ExtractFromParts(RoomUrl(roomId, c), path, c, Join(Params(RoomParams(c)), '&'));
    HostIsEvolution();
  }

  /** Deriving a room URL from a lobby URL keeps the lobby's connection values and yields a valid URL. */
  lemma RoomUrlKeepsConfig(lobbyUrl: string, roomId: string)
    requires ExtractBaccaratConfig(lobbyUrl).Some? && UrlSafe(ExtractBaccaratConfig(lobbyUrl).value)
    requires RoomIdSafe(roomId)
    ensures ExtractRoomWebsocketUrl(lobbyUrl, roomId).Some?
    ensures ExtractBaccaratConfig(ExtractRoomWebsocketUrl(lobbyUrl, roomId).value) == ExtractBaccaratConfig(lobbyUrl)
    ensures ValidateWsUrl(ExtractRoomWebsocketUrl(lobbyUrl, roomId).value)
  {
    RoomUrlRoundTrip(roomId, ExtractBaccaratConfig(lobbyUrl).value);
  }
}

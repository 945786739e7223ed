/**
 The pure decisions of the relay's two-frame handshake: checking the shared
 secret carried by the first client frame, reading the subscription request
 carried by the second one, choosing the feed endpoint, and building the
 subscribe message that is sent upstream once the feed connection opens.

 A client frame is seen through the fields the relay reads from it after
 JSON parsing; the parser itself is not modelled (see `Fields`).
 */
module Handshake {

  datatype Option<T> = None | Some(value: T)

  /** Feed endpoints, and the Origin header the feed requires. */
  const FX_URL := "wss://api.tiingo.com/fx"
  const IEX_URL := "wss://api.tiingo.com/iex"
  const ORIGIN := "https://api.tiingo.com"

  /** WebSocket close status "policy violation", used for every handshake rejection. */
  const POLICY_VIOLATION := 1008

  const FORBIDDEN := "forbidden"
  const BAD_AUTH := "bad auth"
  const BAD_INIT := "bad init"
  const BAD_JSON := "bad json"

  const DEFAULT_THRESHOLD := 5

  /** Process configuration: the shared secret ("" when none is configured)
      and the feed credential ("" when it is missing). */
  datatype Config = Config(relaySecret: string, apiKey: string)

  /** What the relay reads from a parsed client frame.
      - secret: Some(s) when `__secret` is the string s, None when it is absent
        or not a string (only strict equality with a string is ever asked);
      - kind: Some(s) when `kind` is the string s, None otherwise;
      - tickers: Some(ts) when `tickers` is an array, None otherwise;
      - thresholdLevel: the numeric coercion of `thresholdLevel`, None for NaN. */
  datatype Fields = Fields(
    secret: Option<string>,
    kind: Option<string>,
    tickers: Option<seq<string>>,
    thresholdLevel: Option<int>)

  datatype Outcome = Pass | Fail(reason: string)

  datatype Result<T> = Ok(value: T) | Err(reason: string)

  datatype Kind = Fx | Iex

  /** The subscription a session settles on after its second frame. */
  datatype Subscription = Subscription(kind: Kind, tickers: seq<string>, thresholdLevel: int)

  /** The first message sent on the upstream connection. */
  datatype SubscribeMessage = SubscribeMessage(
    eventName: string,
    authorization: string,
    thresholdLevel: int,
    tickers: seq<string>)

  predicate HandshakeReason(reason: string) {
    reason == FORBIDDEN || reason == BAD_AUTH || reason == BAD_INIT || reason == BAD_JSON
  }

  /** The check made on the first frame. `parsed` is None when parsing threw. */
  function Authenticate(relaySecret: string, parsed: Option<Fields>): (r: Outcome)
    ensures r == Pass <==> parsed.Some? && (relaySecret == "" || parsed.value.secret == Some(relaySecret))
    ensures parsed.None? ==> r == Fail(BAD_AUTH)
    ensures parsed.Some? && r != Pass ==> r == Fail(FORBIDDEN)
  {
    match parsed
    case None => Fail(BAD_AUTH)
    case Some(frame) =>
      if relaySecret != "" && frame.secret != Some(relaySecret) then Fail(FORBIDDEN) else Pass
  }

  /** The feed kind named by the `kind` field: only the exact string "iex" selects IEX. */
  function FeedKind(kind: Option<string>): (k: Kind)
    ensures k == Iex <==> kind == Some("iex")
    ensures k == Fx <==> kind != Some("iex")
  {
    if kind == Some("iex") then Iex else Fx
  }

  /** The endpoint the upstream connection is opened to. */
  function FeedUrl(k: Kind): (url: string)
    ensures url == IEX_URL <==> k == Iex
    ensures url == FX_URL <==> k == Fx
  {
    match k
    case Iex => IEX_URL
    case Fx => FX_URL
  }

  /** A `tickers` field that is not an array counts as the empty list. */
  function TickerList(tickers: Option<seq<string>>): (ts: seq<string>)
    ensures tickers.Some? ==> ts == tickers.value
    ensures tickers.None? ==> ts == []
  {
    match tickers
    case None => []
    case Some(list) => list
  }

  /** JavaScript falsiness of a number: NaN and zero. */
  predicate Falsy(n: Option<int>) {
    n.None? || n.value == 0
  }

  /** The threshold level: the coerced number unless it is falsy, then the default.
      Negative values are kept. */
  function Threshold(level: Option<int>): (t: int)
    ensures t != 0
    ensures Falsy(level) ==> t == DEFAULT_THRESHOLD
    ensures !Falsy(level) ==> t == level.value
    ensures level.Some? && level.value < 0 ==> t < 0
  {
    if Falsy(level) then DEFAULT_THRESHOLD else level.value
  }

  /** The check made on the second frame. `parsed` is None when parsing threw. */
  function Admit(apiKey: string, parsed: Option<Fields>): (r: Result<Subscription>)
    ensures parsed.None? ==> r == Err(BAD_JSON)
    ensures parsed.Some? ==> (r.Err? <==> apiKey == "" || TickerList(parsed.value.tickers) == [])
    ensures parsed.Some? && r.Err? ==> r.reason == BAD_INIT
    ensures r.Ok? ==>
              parsed.Some? && parsed.value.tickers.Some? &&
              r.value == Subscription(FeedKind(parsed.value.kind), parsed.value.tickers.value,
                                      Threshold(parsed.value.thresholdLevel))
    ensures r.Ok? ==> apiKey != "" && |r.value.tickers| > 0
  {
    match parsed
    case None => Err(BAD_JSON)
    case Some(frame) =>
      var kind := FeedKind(frame.kind);
      var tickers := TickerList(frame.tickers);
      var thresholdLevel := Threshold(frame.thresholdLevel);
      if apiKey == "" || |tickers| == 0 then Err(BAD_INIT)
      else Ok(Subscription(kind, tickers, thresholdLevel))
  }

  predicate IsUpper(c: char) {
    'A' <= c <= 'Z'
  }

  /** ASCII lower-casing of one character. */
  function LowerChar(c: char): (d: char)
    ensures IsUpper(c) ==> d as int == c as int + 32
    ensures !IsUpper(c) ==> d == c
    ensures !IsUpper(d)
  {
    if IsUpper(c) then (c as int + 32) as char else c
  }

  /** ASCII lower-casing of a string. */
  function Lower(s: string): (r: string)
    ensures |r| == |s|
    ensures forall i :: 0 <= i < |s| ==> r[i] == LowerChar(s[i])
  {
    if s == [] then [] else [LowerChar(s[0])] + Lower(s[1..])
  }

  /** Every symbol of a list lower-cased, in the same order. */
  function LowerAll(ts: seq<string>): (r: seq<string>)
    ensures |r| == |ts|
    ensures forall i :: 0 <= i < |ts| ==> r[i] == Lower(ts[i])
  {
    if ts == [] then [] else [Lower(ts[0])] + LowerAll(ts[1..])
  }

  /** The subscribe message for a subscription, authorised with the feed credential. */
  function SubscribeFor(apiKey: string, sub: Subscription): (m: SubscribeMessage)
    ensures m.eventName == "subscribe" && m.authorization == apiKey
    ensures m.thresholdLevel == sub.thresholdLevel
    ensures |m.tickers| == |sub.tickers|
    ensures forall i :: 0 <= i < |sub.tickers| ==> m.tickers[i] == Lower(sub.tickers[i])
    ensures forall i, j :: 0 <= i < |m.tickers| && 0 <= j < |m.tickers[i]| ==> !IsUpper(m.tickers[i][j])
  {
    SubscribeMessage("subscribe", apiKey, sub.thresholdLevel, LowerAll(sub.tickers))
  }

  /** Lower-casing twice is lower-casing once. */
  lemma {:induction false} LowerIdempotent(s: string)
    ensures Lower(Lower(s)) == Lower(s)
  {
    var once := Lower(s);
    var twice := Lower(once);
    assert |twice| == |once|;
    forall i | 0 <= i < |once| ensures twice[i] == once[i] {
      assert !IsUpper(once[i]);
    }
  }

  /** The subscribe message holds only lower-case tickers, so building it again
      from its own tickers gives the same message. */
  lemma {:induction false} SubscribeTickersStable(apiKey: string, sub: Subscription)
    ensures SubscribeFor(apiKey, sub.(tickers := SubscribeFor(apiKey, sub).tickers)) == SubscribeFor(apiKey, sub)
  {
    var m := SubscribeFor(apiKey, sub);
    var m2 := SubscribeFor(apiKey, sub.(tickers := m.tickers));
    forall i | 0 <= i < |m.tickers| ensures m2.tickers[i] == m.tickers[i] {
      LowerIdempotent(sub.tickers[i]);
    }
  }

  /** The endpoint is the IEX one exactly when the `kind` field is the string "iex". */
  lemma UrlIsIexIffKindIsIex(kind: Option<string>)
    ensures FeedUrl(FeedKind(kind)) == IEX_URL <==> kind == Some("iex")
    ensures FeedUrl(FeedKind(kind)) == FX_URL <==> kind != Some("iex")
  {
  }
}

# Tiingo relay session, modelled in Dafny

The relay accepts a WebSocket client on `/ws` and runs one session per
connection. The client's first frame must carry the shared secret
(`{"__secret": …}`). Its second frame names the feed (`fx` or `iex`), the
tickers and a threshold level. The relay then opens one upstream connection
to the Tiingo feed, with the required Origin header. When that connection
opens, the relay sends one subscribe message, authorised with the Tiingo API
key, and acknowledges the client with `{"relay":"INIT_OK"}`. After that it
passes frames through in both directions. Closing either leg closes the
other.

The model has three modules:

- `Handshake` (handshake.dfy): the pure decisions. These are the secret
  check, the admission of the subscription frame, feed-kind and endpoint
  selection, threshold defaulting, ASCII lower-casing of the tickers and the
  subscribe message.
- `Relay` (relay.dfy): the session as a state machine over one sequential
  stream of events: `Step` for one event and `Run` for a sequence. Each event
  produces a `Reaction`: the next state and the effects the relay performs on
  its two sockets. `Inv` is the session invariant; `Run` keeps it for every
  event sequence. The whole-session and per-handler properties are lemmas.
- `Sessions` (session.dfy): the session as an object, in the source's
  imperative form. Its fields are the phase, the upstream handle (the
  `let upstream` of the connection handler) and the effect log.
  `Session.Dispatch` is the single entry point for events. Its contract ties
  the new fields to `Relay.Step` and keeps `Valid()`, which is `Relay.Inv`.

Phases are `AwaitingAuth`, `AwaitingSubscription`, `Connecting`,
`Forwarding` and `Closed`. The source has no phase variable. Its phase is
whichever listener is armed: the first `once("message")`, then the second,
then the upstream and forwarding listeners. `Connecting` is the stretch
between creating the upstream connection and its `open` event. The `open`
handler runs only in that phase.

Configuration is a value, `Config(relaySecret, apiKey)`. An empty string
stands for "not configured". That covers both the `|| ""` default of the
secret and a missing (undefined) API key, since both are falsy. JSON
parsing is abstract: a client frame carries its raw bytes plus `parsed`,
the fields the relay reads from it. `parsed` is `None` when `JSON.parse`
threw, or when it returned `null`: the destructuring at line 26 and the
property reads at lines 38-40 then throw inside the same `try`. The
numeric coercion of `thresholdLevel` is an `Option<int>`, where `None`
stands for NaN.

Three points of the code's behaviour that the model keeps:

- The threshold falls back to 5 only when the coerced number is 0 or NaN;
  negative numbers are kept.
- The upstream handle is never cleared: after the session ends it still
  names the connection that was opened. The model proves that the handle is
  present in `Connecting` and `Forwarding`, and absent before the handshake
  completes and on every rejection path.
- Client frames that arrive after the subscribe frame but before the
  upstream opens are handed to the upstream like any later frame (line 73).
  The acknowledgement, however, waits for the upstream `open` event.

## Model

| member | source | states |
|---|---|---|
| `Handshake.Authenticate` | server.mjs:24-32 | The first frame passes exactly when it parsed and either no secret is configured or its `__secret` is that secret. A parse failure is rejected with "bad auth"; a parsed frame with the wrong secret with "forbidden". |
| `Handshake.FeedKind` | server.mjs:38 | The kind is IEX exactly when the `kind` field is the string "iex"; anything else gives FX. |
| `Handshake.FeedUrl` | server.mjs:46 | The upstream URL is the IEX endpoint exactly for the IEX kind and the FX endpoint exactly for the FX kind. |
| `Handshake.UrlIsIexIffKindIsIex` | server.mjs:38-46 | The endpoint opened is the IEX one if and only if the frame's `kind` field is "iex"; otherwise it is the FX one. |
| `Handshake.TickerList` | server.mjs:39 | An array `tickers` field is used as it is; a missing or non-array field gives the empty list. |
| `Handshake.Threshold` | server.mjs:40 | The threshold is never 0: a falsy coercion (0 or NaN) gives 5; any other value, negative ones included, is kept. |
| `Handshake.Admit` | server.mjs:36-44 | A frame that did not parse is rejected with "bad json" (the catch at lines 77-78). A parsed frame is rejected with "bad init" exactly when the API key is missing or the ticker list is empty. Otherwise the result is the kind, the ticker array unchanged and the defaulted threshold, with a non-empty ticker list. |
| `Handshake.LowerChar` | server.mjs:55 | ASCII lower-casing of one character: 'A'..'Z' move down by 32, everything else is unchanged, and the result is never an upper-case letter. |
| `Handshake.Lower` | server.mjs:55 | `toLowerCase` on ASCII: same length, and each character is the lower-cased character at the same position. |
| `Handshake.LowerAll` | server.mjs:55 | `tickers.map(s => s.toLowerCase())`: same length, and each element is the lower-cased element at the same position. |
| `Handshake.LowerIdempotent` | server.mjs:55 | Lower-casing an already lower-cased string changes nothing. |
| `Handshake.SubscribeFor` | server.mjs:52-56 | The subscribe message has event name "subscribe", the configured key as authorisation and the session's threshold. Its tickers are the input tickers lower-cased element by element, same length and order, and contain no upper-case letter. |
| `Handshake.SubscribeTickersStable` | server.mjs:52-56 | Rebuilding the subscribe message from its own tickers gives the same message, so its tickers are already in final lower-case form. |
| `Relay.StepPreservesInv` | server.mjs:20-79 | Every event, in every phase, keeps the session invariant `Inv`. |
| `Relay.RunPreservesInv` | server.mjs:20-79 | Every sequence of events keeps `Inv`, whatever state and effect history it starts from. |
| `Relay.SessionInv` | server.mjs:20-79 | Every session, after any sequence of events from a freshly accepted connection, satisfies `Inv`. |
| `Relay.OneUpstreamPerSession` | server.mjs:42-49 | In every session at most one upstream is opened. It is the first effect, and goes to the endpoint of the session's kind with the Origin header. A session without an upstream has done nothing, or only closed the client with 1008 and one of the four handshake reasons. |
| `Relay.InitOkOnlyAfterSubscribe` | server.mjs:51-58 | In every session, `INIT_OK` is sent at most once. It is sent only after an upstream was opened, and immediately after the subscribe message for the session's subscription, which carries the configured key. |
| `Relay.TrafficNeedsUpstream` | server.mjs:62-75 | In every session, a send to either leg or a close of the upstream happens only when an upstream exists, and never as the first effect. |
| `Relay.ClosedAbsorbs` | server.mjs:28-31 | Once a session is closed, every further event is a no-op: nothing is sent, nothing is closed, nothing changes. |
| `Relay.RejectedAuthEndsSession` | server.mjs:26-31 | A first frame that fails the check closes the client with 1008 "bad auth" (it did not parse) or 1008 "forbidden" (a secret is configured and does not match). Whatever events follow, the session ends there: no upstream is opened and no second frame is read. |
| `Relay.AcceptedAuthAwaitsSubscription` | server.mjs:27-35 | A first frame that passes arms the second-frame handler and produces no effect; the session continues from `AwaitingSubscription` with no upstream. |
| `Relay.RejectedSubscriptionEndsSession` | server.mjs:37-44 | A rejected second frame closes the client with 1008 and the rejection reason ("bad init" or "bad json") and nothing else happens afterwards: no upstream is opened. |
| `Relay.AdmittedSubscriptionOpensUpstream` | server.mjs:46-49 | An admitted second frame opens the upstream for its kind with the Origin header, and that is its only effect. The frame itself is not forwarded. |
| `Relay.OpenSendsSubscribeThenAck` | server.mjs:51-59 | The upstream opening sends exactly the subscribe message upstream, then `INIT_OK` to the client, and moves the session to forwarding. |
| `Relay.UpstreamCloseMirrored` | server.mjs:67 | An upstream close with any code and reason, before or after it opened, closes the client with identical code and reason. Nothing happens afterwards. |
| `Relay.ClientGoneClosesUpstream` | server.mjs:73-75 | A client close or error closes the upstream exactly when an upstream exists. During the handshake it has no effect. Either way the session ends. |
| `Relay.UpstreamErrorReported` | server.mjs:68-70 | An upstream error sends one `UPSTREAM_ERR` notice, carrying the error's description, to the client; the session goes on unchanged. |
| `Relay.RelayIsVerbatim` | server.mjs:62-73 | While the session relays, any sequence of message events passes unchanged and in order. Client frames go upstream as their raw bytes; feed messages go to the client as text. The state does not change. |
| `Relay.IexHandshakeScenario` | server.mjs:24-59 | With the secret "s3cr3t": a matching first frame, then `{"kind":"iex","tickers":["AAPL","msft"],"thresholdLevel":3}`, then the upstream opening. The effects are exactly: open the IEX endpoint, send a subscribe with ["aapl","msft"] and threshold 3, send `INIT_OK`. |
| `Sessions.Session.constructor` | server.mjs:20-21 | A new session awaits the first frame, has no upstream and has performed no effect; it satisfies the session invariant. |
| `Sessions.Session.Dispatch` | server.mjs:20-81 | Delivering an event updates the phase and the upstream handle as `Relay.Step` does, and appends exactly `Step`'s effects to the log. It keeps the session invariant. |
| `Sessions.Session.RelayEvent` | server.mjs:51-75 | The handlers armed once the upstream exists update the session and append effects exactly as `Relay.OnRelayEvent` does. |

## Left out

- The HTTP server (health and root responses) and `server.listen` are plumbing with no relay logic.
- `PORT`, `TIINGO_API_KEY` and `RELAY_SECRET` are read from the environment. The model takes the secret and key as immutable parameters (`Config`), with "" for not set.
- `JSON.parse`, `String(buf)`, `Number(...)` and `JSON.stringify` are not modelled. A frame carries the fields the relay reads; the messages sent are datatype values rather than JSON text. A frame forwarded from the feed whose text happens to equal `{"relay":"INIT_OK"}` is therefore not conflated with the acknowledgement.
- `Number(...)` can give a fraction or an infinity; the threshold is modelled as an integer only.
- Non-string elements of `tickers` are not modelled. On such a list, `toLowerCase` throws inside the `open` handler, outside any `try`.
- `toLowerCase` is modelled on ASCII letters only; Unicode case mapping is not modelled.
- The `ws` library is represented only by the effects the relay asks of it. These effects are not modelled:
  - whether it delivers a send or a close, and binary versus text framing of forwarded client frames;
  - its refusal of a send while the upstream is still connecting (line 73 swallows that error, so such a frame is lost; the model records the attempted send);
  - its refusal of close codes that may not be sent (such as 1006, which it reports for an abnormal upstream closure). When line 67 mirrors such a code, `client.close` throws inside the upstream `close` listener, outside any `try`. `Relay.UpstreamCloseMirrored` therefore holds for any code only in the model.
- Events that `ws` delivers after a leg has closed are no-ops in the model. The source's handlers are still armed then, but each of them acts on a socket that is already closed or closing, and `ws` ignores such calls.
- A client `error` event before the subscribe frame has no listener in the source. The model ends the session silently; what Node does with an unhandled `error` event is not modelled.
- The two legs are not concurrent in the model: events from both sockets arrive as one sequential stream at a single dispatch point. The Origin header is only a constant attached to `OpenUpstream`.

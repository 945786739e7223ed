/**
 One relay session: a downstream client connection, at most one upstream
 feed connection, and the handlers that couple them. The session is a state
 machine that consumes one event at a time, in the order the two sockets
 report them, and answers each event with the effects the relay performs on
 its sockets.

 Phases:
   AwaitingAuth          the first-frame handler is armed;
   AwaitingSubscription  the second-frame handler is armed;
   Connecting            the upstream connection exists but has not opened;
   Forwarding            the subscribe message has gone up and INIT_OK down;
   Closed                the session is over: every later event is a no-op.
 */
module Relay {
  import opened Handshake

  type byte = x: int | 0 <= x < 256

  /** A frame from the client: its raw bytes, and what parsing them as JSON
      made of them (None when parsing threw or gave null). */
  datatype ClientFrame = ClientFrame(data: seq<byte>, parsed: Option<Fields>)

  datatype Event =
    | ClientMessage(frame: ClientFrame)
    | ClientClose
    | ClientError
    | UpstreamOpen
    | UpstreamMessage(text: string)
    | UpstreamClose(code: int, reason: string)
    | UpstreamError(description: string)

  /** What the relay sends to the client: the INIT_OK acknowledgement, the
      UPSTREAM_ERR notification, or a feed message passed through as text. */
  datatype Notice = InitOk | UpstreamErr(err: string) | Forwarded(text: string)

  /** What the relay sends upstream: the subscribe message, or a client frame as it came. */
  datatype Outbound = Subscribe(msg: SubscribeMessage) | Raw(data: seq<byte>)

  datatype Effect =
    | SendClient(notice: Notice)
    | CloseClient(code: int, reason: string)
    | OpenUpstream(url: string, origin: string)
    | SendUpstream(payload: Outbound)
    | CloseUpstream

  datatype Phase = AwaitingAuth | AwaitingSubscription | Connecting | Forwarding | Closed

  /** The upstream connection together with the subscription its open handler sends. */
  datatype Upstream = Upstream(url: string, origin: string, subscription: Subscription)

  datatype State = State(phase: Phase, upstream: Option<Upstream>)

  /** What a handler does with an event: the state it leaves and the effects
      it performs, in order. */
  datatype Reaction = Reaction(next: State, effects: seq<Effect>)

  function Initial(): State {
    State(AwaitingAuth, None)
  }

  predicate Relaying(p: Phase) {
    p == Connecting || p == Forwarding
  }

  /** The first-frame handler. */
  function OnAuthFrame(cfg: Config, s: State, f: ClientFrame): Reaction {
    match Authenticate(cfg.relaySecret, f.parsed)
    case Fail(reason) => Reaction(s.(phase := Closed), [CloseClient(POLICY_VIOLATION, reason)])
    case Pass => Reaction(s.(phase := AwaitingSubscription), [])
  }

  /** The second-frame handler: on success it creates the upstream connection. */
  function OnSubscribeFrame(cfg: Config, s: State, f: ClientFrame): Reaction {
    match Admit(cfg.apiKey, f.parsed)
    case Err(reason) => Reaction(s.(phase := Closed), [CloseClient(POLICY_VIOLATION, reason)])
    case Ok(sub) =>
      var url := FeedUrl(sub.kind);
      Reaction(State(Connecting, Some(Upstream(url, ORIGIN, sub))), [OpenUpstream(url, ORIGIN)])
  }

  /** The handlers armed once the upstream connection exists. */
  function OnRelayEvent(cfg: Config, s: State, e: Event): Reaction {
    match e
    case UpstreamOpen =>
      if s.phase == Connecting && s.upstream.Some? then
        var sub := SubscribeFor(cfg.apiKey, s.upstream.value.subscription);
        Reaction(s.(phase := Forwarding), [SendUpstream(Subscribe(sub)), SendClient(InitOk)])
      else Reaction(s, [])
    case UpstreamMessage(text) => Reaction(s, [SendClient(Forwarded(text))])
    case UpstreamClose(code, reason) => Reaction(s.(phase := Closed), [CloseClient(code, reason)])
    case UpstreamError(description) => Reaction(s, [SendClient(UpstreamErr(description))])
    case ClientMessage(f) => Reaction(s, if s.upstream.Some? then [SendUpstream(Raw(f.data))] else [])
    case ClientClose => Reaction(s.(phase := Closed), if s.upstream.Some? then [CloseUpstream] else [])
    case ClientError => Reaction(s.(phase := Closed), if s.upstream.Some? then [CloseUpstream] else [])
  }

  /** One event: the new state and the effects, in the order performed. */
  function Step(cfg: Config, s: State, e: Event): Reaction {
    match s.phase
    case AwaitingAuth =>
      (match e
       case ClientMessage(f) => OnAuthFrame(cfg, s, f)
       case ClientClose => Reaction(s.(phase := Closed), [])
       case ClientError => Reaction(s.(phase := Closed), [])
       case _ => Reaction(s, []))
    case AwaitingSubscription =>
      (match e
       case ClientMessage(f) => OnSubscribeFrame(cfg, s, f)
       case ClientClose => Reaction(s.(phase := Closed), [])
       case ClientError => Reaction(s.(phase := Closed), [])
       case _ => Reaction(s, []))
    case Connecting => OnRelayEvent(cfg, s, e)
    case Forwarding => OnRelayEvent(cfg, s, e)
    case Closed => Reaction(s, [])
  }

  /** A sequence of events, from state s: the final state and every effect, in order. */
  function Run(cfg: Config, s: State, evs: seq<Event>): Reaction
    decreases |evs|
  {
    if evs == [] then Reaction(s, [])
    else
      var first := Step(cfg, s, evs[0]);
      var rest := Run(cfg, first.next, evs[1..]);
      Reaction(rest.next, first.effects + rest.effects)
  }

  /** The effects that pure relaying of message events produces: each client
      frame goes upstream as it came, each feed message goes to the client. */
  function Relayed(evs: seq<Event>): seq<Effect> {
    if evs == [] then []
    else
      var head := match evs[0]
        case ClientMessage(f) => [SendUpstream(Raw(f.data))]
        case UpstreamMessage(text) => [SendClient(Forwarded(text))]
        case _ => [];
      head + Relayed(evs[1..])
  }

  /** Running a first event, then the rest. */
  lemma RunCons(cfg: Config, s: State, e: Event, rest: seq<Event>)
    ensures var Reaction(s1, out1) := Step(cfg, s, e);
      Run(cfg, s, [e] + rest) == Reaction(Run(cfg, s1, rest).next, out1 + Run(cfg, s1, rest).effects)
  {
  }

  predicate MessagesOnly(evs: seq<Event>) {
    forall k :: 0 <= k < |evs| ==> evs[k].ClientMessage? || evs[k].UpstreamMessage?
  }

  predicate IsSubscribe(e: Effect) {
    e.SendUpstream? && e.payload.Subscribe?
  }

  // ---------------------------------------------------------------------
  // The session invariant over a state and the effects performed so far.

  /** Before any upstream exists the relay has done at most one thing: closed
      the client with the policy-violation status and a handshake reason. */
  predicate RejectionOnly(log: seq<Effect>) {
    |log| <= 1 &&
    forall k :: 0 <= k < |log| ==>
      log[k].CloseClient? && log[k].code == POLICY_VIOLATION && HandshakeReason(log[k].reason)
  }

  /** The upstream was created from an admitted subscription. */
  predicate Admitted(cfg: Config, u: Upstream) {
    u.url == FeedUrl(u.subscription.kind) && u.origin == ORIGIN &&
    cfg.apiKey != "" && |u.subscription.tickers| > 0
  }

  /** The upstream was opened first, and only once. */
  predicate OpenedOnce(u: Upstream, log: seq<Effect>) {
    |log| > 0 && log[0] == OpenUpstream(u.url, u.origin) &&
    forall k :: 0 < k < |log| ==> !log[k].OpenUpstream?
  }

  /** INIT_OK follows the subscribe message immediately; both happen at most once. */
  predicate AckAfterSubscribe(cfg: Config, u: Upstream, log: seq<Effect>) {
    (forall k :: 0 <= k < |log| && log[k] == SendClient(InitOk) ==>
       0 < k && log[k - 1] == SendUpstream(Subscribe(SubscribeFor(cfg.apiKey, u.subscription)))) &&
    (forall k :: 0 <= k < |log| && IsSubscribe(log[k]) ==>
       k + 1 < |log| && log[k + 1] == SendClient(InitOk)) &&
    (forall j, k :: 0 <= j < k < |log| && IsSubscribe(log[j]) ==> !IsSubscribe(log[k])) &&
    (forall j, k :: 0 <= j < |log| && 0 <= k < |log| && log[j] == SendClient(InitOk) && log[k] == SendClient(InitOk) ==> j == k)
  }

  predicate Unacknowledged(log: seq<Effect>) {
    forall k :: 0 <= k < |log| ==> !IsSubscribe(log[k]) && log[k] != SendClient(InitOk)
  }

  predicate Inv(cfg: Config, s: State, log: seq<Effect>) {
    ((s.phase == AwaitingAuth || s.phase == AwaitingSubscription) ==> s.upstream.None? && log == []) &&
    (Relaying(s.phase) ==> s.upstream.Some?) &&
    (s.phase == Connecting ==> Unacknowledged(log)) &&
    (s.upstream.None? ==> RejectionOnly(log)) &&
    (s.upstream.Some? ==>
       Admitted(cfg, s.upstream.value) && OpenedOnce(s.upstream.value, log) &&
       AckAfterSubscribe(cfg, s.upstream.value, log))
  }

  lemma AppendPreservesOpenedOnce(u: Upstream, log: seq<Effect>, out: seq<Effect>)
    requires OpenedOnce(u, log)
    requires forall k :: 0 <= k < |out| ==> !out[k].OpenUpstream?
    ensures OpenedOnce(u, log + out)
  {
  }

  /** Appending effects that are neither subscribe nor INIT_OK keeps AckAfterSubscribe. */
  lemma AppendPreservesAck(cfg: Config, u: Upstream, log: seq<Effect>, out: seq<Effect>)
    requires AckAfterSubscribe(cfg, u, log)
    requires Unacknowledged(out)
    ensures AckAfterSubscribe(cfg, u, log + out)
  {
  }

  /** The open handler's two effects on an unacknowledged log establish AckAfterSubscribe. */
  lemma AcknowledgePreservesAck(cfg: Config, u: Upstream, log: seq<Effect>)
    requires Unacknowledged(log)
    ensures AckAfterSubscribe(cfg, u, log + [SendUpstream(Subscribe(SubscribeFor(cfg.apiKey, u.subscription))), SendClient(InitOk)])
  {
  }

  /** During the handshake the log is empty, and each handler either rejects
      (one 1008 close, no upstream) or moves on (opening at most the upstream). */
  lemma HandshakeStepPreservesInv(cfg: Config, s: State, log: seq<Effect>, e: Event)
    requires Inv(cfg, s, log)
    requires s.phase == AwaitingAuth || s.phase == AwaitingSubscription
    ensures Inv(cfg, Step(cfg, s, e).next, log + Step(cfg, s, e).effects)
  {
  }

  /** Before the upstream opens, only the open handler acknowledges. */
  lemma ConnectingStepPreservesInv(cfg: Config, s: State, log: seq<Effect>, e: Event)
    requires Inv(cfg, s, log)
    requires s.phase == Connecting
    ensures Inv(cfg, Step(cfg, s, e).next, log + Step(cfg, s, e).effects)
  {
    var r := Step(cfg, s, e);
    var u := s.upstream.value;
    assert r.next.upstream == s.upstream;
    if e == UpstreamOpen {
      assert r.effects == [SendUpstream(Subscribe(SubscribeFor(cfg.apiKey, u.subscription))), SendClient(InitOk)];
      AcknowledgePreservesAck(cfg, u, log);
      AppendPreservesOpenedOnce(u, log, r.effects);
    } else {
      assert Unacknowledged(r.effects);
      AppendPreservesAck(cfg, u, log, r.effects);
      AppendPreservesOpenedOnce(u, log, r.effects);
      if r.next.phase == Connecting {
        var all := log + r.effects;
        forall k | 0 <= k < |all| ensures !IsSubscribe(all[k]) && all[k] != SendClient(InitOk) {
          if k < |log| { assert all[k] == log[k]; } else { assert all[k] == r.effects[k - |log|]; }
        }
      }
    }
  }

  /** Once forwarding, no handler sends the subscribe message or INIT_OK again. */
  lemma ForwardingStepPreservesInv(cfg: Config, s: State, log: seq<Effect>, e: Event)
    requires Inv(cfg, s, log)
    requires s.phase == Forwarding
    ensures Inv(cfg, Step(cfg, s, e).next, log + Step(cfg, s, e).effects)
  {
    var r := Step(cfg, s, e);
    var u := s.upstream.value;
    assert r.next.upstream == s.upstream && r.next.phase != Connecting;
    assert Unacknowledged(r.effects);
    AppendPreservesAck(cfg, u, log, r.effects);
    AppendPreservesOpenedOnce(u, log, r.effects);
  }

  /** Every event keeps the session invariant. */
  lemma StepPreservesInv(cfg: Config, s: State, log: seq<Effect>, e: Event)
    requires Inv(cfg, s, log)
    ensures Inv(cfg, Step(cfg, s, e).next, log + Step(cfg, s, e).effects)
  {
    match s.phase
    case AwaitingAuth => HandshakeStepPreservesInv(cfg, s, log, e);
    case AwaitingSubscription => HandshakeStepPreservesInv(cfg, s, log, e);
    case Connecting => ConnectingStepPreservesInv(cfg, s, log, e);
    case Forwarding => ForwardingStepPreservesInv(cfg, s, log, e);
    case Closed => assert log + Step(cfg, s, e).effects == log;
  }

  /** Whatever every single event preserves, every sequence of events preserves. */
  lemma {:induction false} RunPreserves(cfg: Config, P: (State, seq<Effect>) -> bool,
                                        s: State, log: seq<Effect>, evs: seq<Event>)
    requires forall s', log', e :: P(s', log') ==> P(Step(cfg, s', e).next, log' + Step(cfg, s', e).effects)
    requires P(s, log)
    ensures P(Run(cfg, s, evs).next, log + Run(cfg, s, evs).effects)
    decreases |evs|
  {
    if evs != [] {
      var first := Step(cfg, s, evs[0]);
      assert P(first.next, log + first.effects);
      RunPreserves(cfg, P, first.next, log + first.effects, evs[1..]);
      var rest := Run(cfg, first.next, evs[1..]);
      assert Run(cfg, s, evs) == Reaction(rest.next, first.effects + rest.effects);
      assert (log + first.effects) + rest.effects == log + (first.effects + rest.effects);
    } else {
      assert log + Run(cfg, s, evs).effects == log;
    }
  }

  /** Every sequence of events keeps the session invariant. */
  lemma RunPreservesInv(cfg: Config, s: State, log: seq<Effect>, evs: seq<Event>)
    requires Inv(cfg, s, log)
    ensures Inv(cfg, Run(cfg, s, evs).next, log + Run(cfg, s, evs).effects)
  {
    var P := (s': State, log': seq<Effect>) => Inv(cfg, s', log');
    forall s': State, log': seq<Effect>, e: Event | P(s', log')
      ensures P(Step(cfg, s', e).next, log' + Step(cfg, s', e).effects)
    {
      StepPreservesInv(cfg, s', log', e);
    }
    RunPreserves(cfg, P, s, log, evs);
  }

  lemma {:induction false} SessionInv(cfg: Config, evs: seq<Event>)
    ensures Inv(cfg, Run(cfg, Initial(), evs).next, Run(cfg, Initial(), evs).effects)
  {
    RunPreservesInv(cfg, Initial(), [], evs);
    assert [] + Run(cfg, Initial(), evs).effects == Run(cfg, Initial(), evs).effects;
  }

  // ---------------------------------------------------------------------
  // Whole-session properties, for every sequence of events from the start.

  /** A session opens at most one upstream connection, as its very first effect,
      to the endpoint of its feed kind with the feed's Origin header; and a
      session that has no upstream has done nothing but possibly close the
      client with 1008 and a handshake reason. */
  lemma {:induction false} OneUpstreamPerSession(cfg: Config, evs: seq<Event>)
    ensures var Reaction(s, log) := Run(cfg, Initial(), evs);
      (forall k :: 0 <= k < |log| && log[k].OpenUpstream? ==>
         k == 0 && s.upstream.Some? && log[k] == OpenUpstream(FeedUrl(s.upstream.value.subscription.kind), ORIGIN))
    ensures var Reaction(s, log) := Run(cfg, Initial(), evs);
      s.upstream.None? ==>
        log == [] || (|log| == 1 && log[0].CloseClient? && log[0].code == POLICY_VIOLATION && HandshakeReason(log[0].reason))
  {
    SessionInv(cfg, evs);
  }

  /** INIT_OK is sent at most once, only after an upstream was opened, and
      always right after the subscribe message for the session's subscription,
      which carries the configured credential. */
  lemma {:induction false} InitOkOnlyAfterSubscribe(cfg: Config, evs: seq<Event>)
    ensures var Reaction(s, log) := Run(cfg, Initial(), evs);
      forall k :: 0 <= k < |log| && log[k] == SendClient(InitOk) ==>
        s.upstream.Some? && 1 < k &&
        log[k - 1] == SendUpstream(Subscribe(SubscribeFor(cfg.apiKey, s.upstream.value.subscription)))
    ensures var Reaction(s, log) := Run(cfg, Initial(), evs);
      forall j, k :: 0 <= j < |log| && 0 <= k < |log| && log[j] == SendClient(InitOk) && log[k] == SendClient(InitOk) ==> j == k
  {
    SessionInv(cfg, evs);
  }

  /** Only a session with an upstream sends on either leg or closes the upstream. */
  lemma {:induction false} TrafficNeedsUpstream(cfg: Config, evs: seq<Event>)
    ensures var Reaction(s, log) := Run(cfg, Initial(), evs);
      forall k :: 0 <= k < |log| && (log[k].SendClient? || log[k].SendUpstream? || log[k] == CloseUpstream) ==>
        s.upstream.Some? && 0 < k
  {
    SessionInv(cfg, evs);
  }

  // ---------------------------------------------------------------------
  // The handshake, frame by frame.

  /** Once closed, a session ignores every event. */
  lemma {:induction false} ClosedAbsorbs(cfg: Config, s: State, evs: seq<Event>)
    requires s.phase == Closed
    ensures Run(cfg, s, evs) == Reaction(s, [])
    decreases |evs|
  {
    if evs != [] {
      ClosedAbsorbs(cfg, s, evs[1..]);
      assert Step(cfg, s, evs[0]) == Reaction(s, []);
      var none: seq<Effect> := [];
      assert none + none == none;
    }
  }

  /** A first frame that fails authentication closes the client with 1008 and
      ends the session: no later frame is read, no upstream is ever opened. */
  lemma {:induction false} RejectedAuthEndsSession(cfg: Config, f: ClientFrame, rest: seq<Event>)
    requires Authenticate(cfg.relaySecret, f.parsed).Fail?
    ensures f.parsed.None? ==>
      Run(cfg, Initial(), [ClientMessage(f)] + rest) == Reaction(State(Closed, None), [CloseClient(POLICY_VIOLATION, BAD_AUTH)])
    ensures f.parsed.Some? ==>
      cfg.relaySecret != "" && f.parsed.value.secret != Some(cfg.relaySecret) &&
      Run(cfg, Initial(), [ClientMessage(f)] + rest) == Reaction(State(Closed, None), [CloseClient(POLICY_VIOLATION, FORBIDDEN)])
  {
    RunCons(cfg, Initial(), ClientMessage(f), rest);
    ClosedAbsorbs(cfg, State(Closed, None), rest);
    var out := Step(cfg, Initial(), ClientMessage(f)).effects;
    assert out + [] == out;
  }

  /** A first frame that passes arms the second-frame handler and nothing else happens. */
  lemma {:induction false} AcceptedAuthAwaitsSubscription(cfg: Config, f: ClientFrame, rest: seq<Event>)
    requires Authenticate(cfg.relaySecret, f.parsed) == Pass
    ensures Run(cfg, Initial(), [ClientMessage(f)] + rest) == Run(cfg, State(AwaitingSubscription, None), rest)
  {
    RunCons(cfg, Initial(), ClientMessage(f), rest);
    var out2 := Run(cfg, State(AwaitingSubscription, None), rest).effects;
    assert [] + out2 == out2;
  }

  /** A second frame that is rejected closes the client with 1008 and the
      rejection reason and ends the session without an upstream. */
  lemma {:induction false} RejectedSubscriptionEndsSession(cfg: Config, f: ClientFrame, rest: seq<Event>)
    requires Admit(cfg.apiKey, f.parsed).Err?
    ensures Run(cfg, State(AwaitingSubscription, None), [ClientMessage(f)] + rest) ==
      Reaction(State(Closed, None), [CloseClient(POLICY_VIOLATION, Admit(cfg.apiKey, f.parsed).reason)])
  {
    RunCons(cfg, State(AwaitingSubscription, None), ClientMessage(f), rest);
    ClosedAbsorbs(cfg, State(Closed, None), rest);
    var out := Step(cfg, State(AwaitingSubscription, None), ClientMessage(f)).effects;
    assert out + [] == out;
  }

  /** An admitted second frame opens the upstream for its feed kind, with the
      feed's Origin header, and is itself not forwarded. */
  lemma {:induction false} AdmittedSubscriptionOpensUpstream(cfg: Config, f: ClientFrame, rest: seq<Event>)
    requires Admit(cfg.apiKey, f.parsed).Ok?
    ensures var sub := Admit(cfg.apiKey, f.parsed).value;
      var connecting := State(Connecting, Some(Upstream(FeedUrl(sub.kind), ORIGIN, sub)));
      Run(cfg, State(AwaitingSubscription, None), [ClientMessage(f)] + rest) ==
        Reaction(Run(cfg, connecting, rest).next, [OpenUpstream(FeedUrl(sub.kind), ORIGIN)] + Run(cfg, connecting, rest).effects)
  {
    var evs := [ClientMessage(f)] + rest;
    assert evs[0] == ClientMessage(f) && evs[1..] == rest;
  }

  // ---------------------------------------------------------------------
  // The relaying phase: the upstream handlers and the coupled lifecycle.

  /** The upstream opening sends the subscribe message and then INIT_OK, nothing else. */
  lemma {:induction false} OpenSendsSubscribeThenAck(cfg: Config, u: Upstream, rest: seq<Event>)
    ensures var forwarding := State(Forwarding, Some(u));
      Run(cfg, State(Connecting, Some(u)), [UpstreamOpen] + rest) ==
        Reaction(Run(cfg, forwarding, rest).next,
         [SendUpstream(Subscribe(SubscribeFor(cfg.apiKey, u.subscription))), SendClient(InitOk)] + Run(cfg, forwarding, rest).effects)
  {
    var evs := [UpstreamOpen] + rest;
    assert evs[0] == UpstreamOpen && evs[1..] == rest;
  }

  /** An upstream close, before or after it opened, closes the client with the
      same code and reason and ends the session. */
  lemma {:induction false} UpstreamCloseMirrored(cfg: Config, s: State, code: int, reason: string, rest: seq<Event>)
    requires Relaying(s.phase)
    ensures Run(cfg, s, [UpstreamClose(code, reason)] + rest) == Reaction(s.(phase := Closed), [CloseClient(code, reason)])
  {
    RunCons(cfg, s, UpstreamClose(code, reason), rest);
    ClosedAbsorbs(cfg, s.(phase := Closed), rest);
    var out := Step(cfg, s, UpstreamClose(code, reason)).effects;
    assert out + [] == out;
  }

  /** The client closing or failing closes the upstream when there is one, and
      ends the session; during the handshake it ends the session silently. */
  lemma {:induction false} ClientGoneClosesUpstream(cfg: Config, s: State, e: Event, rest: seq<Event>)
    requires e == ClientClose || e == ClientError
    requires s.phase != Closed
    ensures Run(cfg, s, [e] + rest) ==
      Reaction(s.(phase := Closed), if Relaying(s.phase) && s.upstream.Some? then [CloseUpstream] else [])
  {
    RunCons(cfg, s, e, rest);
    ClosedAbsorbs(cfg, s.(phase := Closed), rest);
    var out := Step(cfg, s, e).effects;
    assert out + [] == out;
  }

  /** An upstream error is reported to the client once and the session goes on. */
  lemma {:induction false} UpstreamErrorReported(cfg: Config, s: State, description: string, rest: seq<Event>)
    requires Relaying(s.phase)
    ensures Run(cfg, s, [UpstreamError(description)] + rest) ==
      Reaction(Run(cfg, s, rest).next, [SendClient(UpstreamErr(description))] + Run(cfg, s, rest).effects)
  {
    var evs := [UpstreamError(description)] + rest;
    assert evs[0] == UpstreamError(description) && evs[1..] == rest;
  }

  /** While the session relays, messages pass in both directions unchanged and
      in order, and the state does not change. */
  lemma {:induction false} RelayIsVerbatim(cfg: Config, s: State, evs: seq<Event>)
    requires Relaying(s.phase) && s.upstream.Some?
    requires MessagesOnly(evs)
    ensures Run(cfg, s, evs) == Reaction(s, Relayed(evs))
    decreases |evs|
  {
    if evs != [] {
      assert MessagesOnly(evs[1..]) by {
        forall k | 0 <= k < |evs[1..]| ensures evs[1..][k].ClientMessage? || evs[1..][k].UpstreamMessage? {
          assert evs[1..][k] == evs[k + 1];
        }
      }
      assert evs[0].ClientMessage? || evs[0].UpstreamMessage?;
      RelayIsVerbatim(cfg, s, evs[1..]);
    }
  }

  // ---------------------------------------------------------------------
  // A complete handshake on the IEX feed.

  /** The tickers of the scenario below, lower-cased. */
  lemma ScenarioTickersLowered()
    ensures LowerAll(["AAPL", "msft"]) == ["aapl", "msft"]
  {
    assert Lower("AAPL") == "aapl" by {
      assert Lower("AAPL") == [LowerChar('A')] + Lower("APL");
      assert Lower("APL") == [LowerChar('A')] + Lower("PL");
      assert Lower("PL") == [LowerChar('P')] + Lower("L");
      assert Lower("L") == [LowerChar('L')] + Lower("");
    }
    assert Lower("msft") == "msft" by {
      assert Lower("msft") == [LowerChar('m')] + Lower("sft");
      assert Lower("sft") == [LowerChar('s')] + Lower("ft");
      assert Lower("ft") == [LowerChar('f')] + Lower("t");
      assert Lower("t") == [LowerChar('t')] + Lower("");
    }
    assert LowerAll(["AAPL", "msft"])[0] == "aapl";
  }

  /** With the secret "s3cr3t" configured, the frames {"__secret":"s3cr3t"} and
      {"kind":"iex","tickers":["AAPL","msft"],"thresholdLevel":3}, and then the
      upstream opening: the relay opens the IEX endpoint, subscribes to "aapl"
      and "msft" at threshold 3 with the configured key, then acknowledges. */
  lemma IexHandshakeScenario(apiKey: string, auth: seq<byte>, init: seq<byte>)
    requires apiKey != ""
    ensures var cfg := Config("s3cr3t", apiKey);
      var evs := [ClientMessage(ClientFrame(auth, Some(Fields(Some("s3cr3t"), None, None, None)))),
                  ClientMessage(ClientFrame(init, Some(Fields(None, Some("iex"), Some(["AAPL", "msft"]), Some(3))))),
                  UpstreamOpen];
      Run(cfg, Initial(), evs).effects ==
        [OpenUpstream(IEX_URL, ORIGIN),
         SendUpstream(Subscribe(SubscribeMessage("subscribe", apiKey, 3, ["aapl", "msft"]))),
         SendClient(InitOk)]
  {
    var cfg := Config("s3cr3t", apiKey);
    var f1 := ClientFrame(auth, Some(Fields(Some("s3cr3t"), None, None, None)));
    var f2 := ClientFrame(init, Some(Fields(None, Some("iex"), Some(["AAPL", "msft"]), Some(3))));
    var sub := Subscription(Iex, ["AAPL", "msft"], 3);
    var u := Upstream(IEX_URL, ORIGIN, sub);
    assert Admit(apiKey, f2.parsed) == Ok(sub);
    AcceptedAuthAwaitsSubscription(cfg, f1, [ClientMessage(f2), UpstreamOpen]);
    assert [ClientMessage(f2), UpstreamOpen] == [ClientMessage(f2)] + [UpstreamOpen];
    AdmittedSubscriptionOpensUpstream(cfg, f2, [UpstreamOpen]);
    assert [UpstreamOpen] == [UpstreamOpen] + [];
    OpenSendsSubscribeThenAck(cfg, u, []);
    ScenarioTickersLowered();
    assert SubscribeFor(apiKey, sub).tickers == ["aapl", "msft"];
  }
}

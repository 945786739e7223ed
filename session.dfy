/**
 The relay session as an object: the handshake phase, the upstream
 connection once it exists, and the effects performed so far. Events reach
 the session through a single dispatch point, and each one appends the
 effects of the handler it reaches to the log.
 */
module Sessions {
  import opened Handshake
  import opened Relay

  class Session {
    const config: Config
    var phase: Phase
    var upstream: Option<Upstream>
    var log: seq<Effect>

    function Snapshot(): State
      reads this
    {
      State(phase, upstream)
    }

    ghost predicate Valid()
      reads this
    {
      Inv(config, Snapshot(), log)
    }

    /** A session for a freshly accepted client connection. */
    constructor (relaySecret: string, apiKey: string)
      ensures config == Config(relaySecret, apiKey)
      ensures phase == AwaitingAuth && upstream == None && log == []
      ensures Valid()
    {
      config := Config(relaySecret, apiKey);
      phase := AwaitingAuth;
      upstream := None;
      log := [];
    }

    /** Delivers one event to the handler armed for it in the current phase. */
    method Dispatch(e: Event)
      requires Valid()
      modifies this
      ensures Valid()
      ensures Snapshot() == Step(config, old(Snapshot()), e).next
      ensures log == old(log) + Step(config, old(Snapshot()), e).effects
    {
      StepPreservesInv(config, Snapshot(), log, e);
      match phase
      case AwaitingAuth =>
        match e {
          case ClientMessage(f) =>
            var verdict := Authenticate(config.relaySecret, f.parsed);
            if verdict.Fail? {
              log := log + [CloseClient(POLICY_VIOLATION, verdict.reason)];
              phase := Closed;
            } else {
              phase := AwaitingSubscription;
            }
          case ClientClose => phase := Closed;
          case ClientError => phase := Closed;
          case _ =>
        }
      case AwaitingSubscription =>
        match e {
          case ClientMessage(f) =>
            var admitted := Admit(config.apiKey, f.parsed);
            if admitted.Err? {
              log := log + [CloseClient(POLICY_VIOLATION, admitted.reason)];
              phase := Closed;
            } else {
              var sub := admitted.value;
              var url := FeedUrl(sub.kind);
              upstream := Some(Upstream(url, ORIGIN, sub));
              log := log + [OpenUpstream(url, ORIGIN)];
              phase := Connecting;
            }
          case ClientClose => phase := Closed;
          case ClientError => phase := Closed;
          case _ =>
        }
      case Connecting => RelayEvent(e);
      case Forwarding => RelayEvent(e);
      case Closed =>
    }

    /** The handlers armed on both connections once the upstream exists. */
    method RelayEvent(e: Event)
      requires Relaying(phase)
      modifies this
      ensures Snapshot() == OnRelayEvent(config, old(Snapshot()), e).next
      ensures log == old(log) + OnRelayEvent(config, old(Snapshot()), e).effects
    {
      match e
      case UpstreamOpen =>
        if phase == Connecting && upstream.Some? {
          var sub := SubscribeFor(config.apiKey, upstream.value.subscription);
          log := log + [SendUpstream(Subscribe(sub))];
          log := log + [SendClient(InitOk)];
          phase := Forwarding;
        }
      case UpstreamMessage(text) =>
        log := log + [SendClient(Forwarded(text))];
      case UpstreamClose(code, reason) =>
        log := log + [CloseClient(code, reason)];
        phase := Closed;
      case UpstreamError(description) =>
        log := log + [SendClient(UpstreamErr(description))];
      case ClientMessage(f) =>
        if upstream.Some? {
          log := log + [SendUpstream(Raw(f.data))];
        }
      case ClientClose =>
        if upstream.Some? {
          log := log + [CloseUpstream];
        }
        phase := Closed;
      case ClientError =>
        if upstream.Some? {
          log := log + [CloseUpstream];
        }
        phase := Closed;
    }
  }
}

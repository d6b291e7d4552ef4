/** Runs of the view model: a sequence of delegate callbacks (and of the
    transport's own connected-peer bookkeeping) applied one after another from
    the state init leaves. What holds of every state such a run reaches is
    stated as Inv and proved by induction over the run. */
module Traces {
  import opened Frameworks
  import opened Transitions

  /** One callback into the view model, or one update the transport makes of
      its connected peers. */
  datatype Event =
    | Invalidated
    | Removed(session: nat)
    | Updated(nearbyObjects: seq<NearbyObject>)
    | SuspensionEnded
    | TransportChanged(peer: PeerId, state: SessionState)
    | PeerChanged(peer: PeerId, state: SessionState)
    | DataReceived(data: Payload, peer: PeerId)
    | InvitationReceived(peer: PeerId)
    | PeerLost(peer: PeerId)
    | PeerFound(peer: PeerId, info: Option<map<string, string>>)

  /** The event reaches a fatalError: the process ends there. */
  predicate Fatal(e: Event)
  {
    e.PeerChanged? && e.state.Unrecognised?
  }

  /** The state after one non-fatal event. */
  function Step(s: State, e: Event): (t: State)
    requires Ready(s)
    requires !Fatal(e)
    ensures Ready(t)
    ensures s.effects <= t.effects
    ensures t.nearbySession.value >= s.nearbySession.value
    ensures s.peer.Some? ==> t.peer.Some?
    ensures s.peerToken.Some? ==> t.peerToken.Some?
    ensures t.serviceIdentity == s.serviceIdentity && t.deviceId == s.deviceId
  {
    match e
    case Invalidated => SessionDidInvalidate(s)
    case Removed(session) => SessionDidRemove(s, session)
    case Updated(objects) => SessionDidUpdate(s, objects)
    case SuspensionEnded => SessionSuspensionEnded(s)
    case TransportChanged(p, state) => TransportPeerStateChanged(s, p, state)
    case PeerChanged(p, state) => SessionPeerDidChange(s, p, state)
    case DataReceived(data, p) => SessionDidReceiveData(s, data, p)
    case InvitationReceived(p) => AdvertiserDidReceiveInvitation(s, p)
    case PeerLost(p) => BrowserLostPeer(s, p)
    case PeerFound(p, info) => BrowserFoundPeer(s, p, info)
  }

  /** The state after the events, stopping at the first fatal one. */
  function RunAll(s: State, events: seq<Event>): (t: State)
    requires Ready(s)
    ensures Ready(t)
    ensures s.effects <= t.effects
    ensures t.nearbySession.value >= s.nearbySession.value
    ensures s.peer.Some? ==> t.peer.Some?
    ensures s.peerToken.Some? ==> t.peerToken.Some?
    ensures t.serviceIdentity == s.serviceIdentity && t.deviceId == s.deviceId
    decreases |events|
  {
    if events == [] then s
    else if Fatal(events[0]) then s
    else RunAll(Step(s, events[0]), events[1..])
  }

  /** Some call in the log sends the given token. */
  predicate TokenSent(log: seq<Effect>, token: DiscoveryToken)
  {
    exists i | 0 <= i < |log| :: log[i].SendToken? && log[i].token == token
  }

  /** Some call in the log runs the ranging engine with the given peer token. */
  predicate TokenRun(log: seq<Effect>, token: DiscoveryToken)
  {
    exists i | 0 <= i < |log| :: log[i].Run? && log[i].peerToken == token
  }

  /** What every state reached from init satisfies:
      - both framework sessions exist (the fatalError guards of
        InteractionViewModel.swift:99-104 and 116-120 always pass) and the transport advertises and browses;
      - the published angle is 0 (never set), 90 or -90;
      - when the token counts as shared, the current ranging session's local
        token has been handed to the transport;
      - a stored peer token has been run on some ranging session. */
  ghost predicate Inv(s: State)
  {
    Ready(s) && Listening(s) &&
    (s.directionAngle == 0.0 || s.directionAngle == 90.0 || s.directionAngle == -90.0) &&
    (s.sharedTokenWithPeer ==> TokenSent(s.effects, LocalToken(s.nearbySession.value))) &&
    (s.peerToken.Some? ==> TokenRun(s.effects, s.peerToken.value))
  }

  lemma TokenSentGrows(log: seq<Effect>, longer: seq<Effect>, token: DiscoveryToken)
    requires log <= longer
    requires TokenSent(log, token)
    ensures TokenSent(longer, token)
  {
    var i :| 0 <= i < |log| && log[i].SendToken? && log[i].token == token;
    assert longer[i] == log[i];
  }

  lemma TokenRunGrows(log: seq<Effect>, longer: seq<Effect>, token: DiscoveryToken)
    requires log <= longer
    requires TokenRun(log, token)
    ensures TokenRun(longer, token)
  {
    var i :| 0 <= i < |log| && log[i].Run? && log[i].peerToken == token;
    assert longer[i] == log[i];
  }

  lemma LastSent(log: seq<Effect>, e: Effect)
    requires e.SendToken?
    ensures TokenSent(log + [e], e.token)
  {
    assert (log + [e])[|log|] == e;
  }

  lemma LastRun(log: seq<Effect>, e: Effect)
    requires e.Run?
    ensures TokenRun(log + [e], e.peerToken)
  {
    assert (log + [e])[|log|] == e;
  }

  lemma InitSatisfiesInv(simulator: bool, deviceId: string)
    ensures Inv(Init(simulator, deviceId))
  {
  }

  /** Appending calls to the log keeps Inv. */
  lemma LogGrowthKeepsInv(s: State, t: State)
    requires Inv(s)
    requires s.effects <= t.effects
    requires t.(effects := s.effects) == s
    ensures Inv(t)
  {
    if s.sharedTokenWithPeer {
      TokenSentGrows(s.effects, t.effects, LocalToken(s.nearbySession.value));
    }
    if s.peerToken.Some? {
      TokenRunGrows(s.effects, t.effects, s.peerToken.value);
    }
  }

  /** Restarting the ranging session keeps Inv: when the token counts as
      shared again, the new local token is the call just logged. */
  lemma StartNearbySessionKeepsInv(s: State)
    requires Inv(s)
    ensures Inv(StartNearbySession(s))
  {
    var t := StartNearbySession(s);
    if s.peerToken.Some? {
      TokenRunGrows(s.effects, t.effects, s.peerToken.value);
    }
    if Bound(s) {
      LastSent(s.effects, SendToken(LocalToken(t.nearbySession.value), ConnectedPeers(s)));
    }
  }

  lemma SuspensionEndedKeepsInv(s: State)
    requires Inv(s)
    ensures Inv(SessionSuspensionEnded(s))
  {
    if s.peerToken.Some? {
      var t := SessionSuspensionEnded(s);
      var ran := s.effects + [Run(s.nearbySession.value, s.peerToken.value)];
      TokenRunGrows(s.effects, t.effects, s.peerToken.value);
      assert t.effects == ran + [SendToken(LocalToken(s.nearbySession.value), ConnectedPeers(s))];
      LastSent(ran, SendToken(LocalToken(s.nearbySession.value), ConnectedPeers(s)));
    }
  }

  lemma PeerDidChangeKeepsInv(s: State, p: PeerId, state: SessionState)
    requires Inv(s)
    requires !state.Unrecognised?
    ensures Inv(SessionPeerDidChange(s, p, state))
  {
    if state.Connected? {
      var t := SessionPeerDidChange(s, p, state);
      var token := LocalToken(s.nearbySession.value);
      var sent := s.effects + [SendToken(token, ConnectedPeers(s))];
      LastSent(s.effects, SendToken(token, ConnectedPeers(s)));
      assert sent <= t.effects;
      TokenSentGrows(sent, t.effects, token);
      if s.peerToken.Some? {
        TokenRunGrows(s.effects, t.effects, s.peerToken.value);
      }
    }
  }

  lemma ReceiveDataKeepsInv(s: State, data: Payload, p: PeerId)
    requires Inv(s)
    ensures Inv(SessionDidReceiveData(s, data, p))
  {
    var t := SessionDidReceiveData(s, data, p);
    if p.displayName == s.peerName && data.TokenMsg? {
      LastRun(s.effects, Run(s.nearbySession.value, data.token));
      if s.sharedTokenWithPeer {
        TokenSentGrows(s.effects, t.effects, LocalToken(s.nearbySession.value));
      }
    }
  }

  /** Every non-fatal event keeps Inv. */
  lemma StepKeepsInv(s: State, e: Event)
    requires Inv(s)
    requires !Fatal(e)
    ensures Inv(Step(s, e))
  {
    match e
    case Invalidated =>
      StartNearbySessionKeepsInv(s);
    case Removed(session) =>
      LogGrowthKeepsInv(s, s.(effects := s.effects + [Invalidate(session)]));
      StartNearbySessionKeepsInv(s.(effects := s.effects + [Invalidate(session)]));
    case Updated(objects) =>
    case SuspensionEnded =>
      SuspensionEndedKeepsInv(s);
    case TransportChanged(p, state) =>
    case PeerChanged(p, state) =>
      PeerDidChangeKeepsInv(s, p, state);
    case DataReceived(data, p) =>
      ReceiveDataKeepsInv(s, data, p);
    case InvitationReceived(p) =>
      LogGrowthKeepsInv(s, AdvertiserDidReceiveInvitation(s, p));
    case PeerLost(p) =>
    case PeerFound(p, info) =>
      LogGrowthKeepsInv(s, BrowserFoundPeer(s, p, info));
  }

  /** Inv holds after any run from a state satisfying it. */
  lemma {:induction false} RunAllKeepsInv(s: State, events: seq<Event>)
    requires Inv(s)
    ensures Inv(RunAll(s, events))
    decreases |events|
  {
    if events != [] && !Fatal(events[0]) {
      StepKeepsInv(s, events[0]);
      RunAllKeepsInv(Step(s, events[0]), events[1..]);
    }
  }

  /** Every state reachable from init satisfies Inv: in particular neither
      fatalError guard of the token and device-id senders is ever reached. */
  lemma ReachableSatisfiesInv(simulator: bool, deviceId: string, events: seq<Event>)
    ensures Inv(RunAll(Init(simulator, deviceId), events))
  {
    InitSatisfiesInv(simulator, deviceId);
    RunAllKeepsInv(Init(simulator, deviceId), events);
  }
}

/** The state of InteractionViewModel as one value, and one function per method
    and delegate callback of the class giving the state after it runs. The
    class in module Interaction is proved to follow these functions; what the
    source promises is stated in their contracts and in the lemmas of modules
    Traces and Properties. */
module Transitions {
  import opened Frameworks

  /** The fields of InteractionViewModel that its code reads or writes. The
      ranging session is its generation number, the transport is reduced to
      what Transport keeps, and `effects` logs the calls made into both. */
  datatype State = State(
    serviceIdentity: string,
    deviceId: string,
    nearbySession: Option<nat>,
    multipeerSession: Option<Transport>,
    peer: Option<PeerId>,
    peerToken: Option<DiscoveryToken>,
    sharedTokenWithPeer: bool,
    peerName: string,
    distanceToPeer: Option<real>,
    isDirectionAvailable: bool,
    directionAngle: real,
    isConnectionLost: bool,
    effects: seq<Effect>)

  /** Both framework sessions exist, so the guards in shareTokenWithAllPeers
      and sendDeviceIdToPeers pass instead of reaching fatalError. */
  predicate Ready(s: State)
  {
    s.nearbySession.Some? && s.multipeerSession.Some?
  }

  /** The transport exists and is both advertising and browsing. */
  predicate Listening(s: State)
  {
    s.multipeerSession.Some? && s.multipeerSession.value.advertising && s.multipeerSession.value.browsing
  }

  /** A peer is bound and the transport exists: restarting the ranging session
      re-shares the token instead of restarting the transport. */
  predicate Bound(s: State)
  {
    s.peer.Some? && s.multipeerSession.Some?
  }

  /** The transport has room for another peer (connectedPeers.count < maxPeersInSession). */
  predicate HasRoom(s: State)
  {
    s.multipeerSession.Some? && |s.multipeerSession.value.connectedPeers| < MaxPeersInSession
  }

  function ConnectedPeers(s: State): (r: set<PeerId>)
    requires s.multipeerSession.Some?
  {
    s.multipeerSession.value.connectedPeers
  }

  /** The generation of the ranging session that startNearbySession creates. */
  function NextGeneration(current: Option<nat>): (g: nat)
    ensures current.Some? ==> g > current.value
  {
    match current
    case None => 0
    case Some(n) => n + 1
  }

  /** The coarse direction published for a direction vector: right or left. */
  function DirectionAngle(d: Direction): (a: real)
    ensures a == 90.0 || a == -90.0
    ensures a == 90.0 <==> d.x > 0.0
  {
    if d.x > 0.0 then 90.0 else -90.0
  }

  /** The fields before init's body runs: their declared initial values. */
  function Blank(simulator: bool): (s: State)
    ensures s.serviceIdentity == (if simulator then SimulatorIdentity else DeviceIdentity)
    ensures s.nearbySession.None? && s.multipeerSession.None? && s.effects == []
  {
    State(if simulator then SimulatorIdentity else DeviceIdentity, "",
          None, None, None, None, false, "", None, false, 0.0, false, [])
  }

  /** init: start the ranging session, start the transport, pick a device id. */
  function Init(simulator: bool, deviceId: string): (s: State)
    ensures Ready(s) && Listening(s)
    ensures s.nearbySession == Some(0) && ConnectedPeers(s) == {}
    ensures s.serviceIdentity == (if simulator then SimulatorIdentity else DeviceIdentity)
    ensures s.deviceId == deviceId
    ensures s.peer.None? && s.peerToken.None? && !s.sharedTokenWithPeer
    ensures s.peerName == "" && s.distanceToPeer.None? && !s.isDirectionAvailable
    ensures s.directionAngle == 0.0 && !s.isConnectionLost
    ensures s.effects == []
  {
    CurrentDevice(StartMultipeerSession(StartNearbySession(Blank(simulator))), deviceId)
  }

  /** currentDevice, with the fresh UUID string as a parameter. */
  function CurrentDevice(s: State, id: string): (t: State)
    ensures t.deviceId == id
    ensures t.(deviceId := s.deviceId) == s
  {
    s.(deviceId := id)
  }

  /** startNearbySession: a new ranging session (a new generation, hence a new
      local token) whose token counts as not shared; then the token is shared
      if a peer is bound, and otherwise the transport is (re)started. */
  function StartNearbySession(s: State): (t: State)
    ensures t.nearbySession == Some(NextGeneration(s.nearbySession))
    ensures t.sharedTokenWithPeer <==> Bound(s)
    ensures Bound(s) ==> t.multipeerSession == s.multipeerSession
    ensures Bound(s) ==> t.effects == s.effects + [SendToken(LocalToken(NextGeneration(s.nearbySession)), ConnectedPeers(s))]
    ensures !Bound(s) ==> t.effects == s.effects && Listening(t)
    ensures !Bound(s) && s.multipeerSession.Some? ==> ConnectedPeers(t) == ConnectedPeers(s)
    ensures !Bound(s) && s.multipeerSession.None? ==> ConnectedPeers(t) == {}
    ensures t.(nearbySession := s.nearbySession, sharedTokenWithPeer := s.sharedTokenWithPeer,
               multipeerSession := s.multipeerSession, effects := s.effects) == s
  {
    var started := s.(nearbySession := Some(NextGeneration(s.nearbySession)), sharedTokenWithPeer := false);
    if started.peer.Some? && started.multipeerSession.Some? then
      if !started.sharedTokenWithPeer then ShareTokenWithAllPeers(started) else started
    else
      StartMultipeerSession(started)
  }

  /** startMultipeerSession: create the session, advertiser and browser when
      absent, then stop and restart advertising and browsing. */
  function StartMultipeerSession(s: State): (t: State)
    ensures Listening(t)
    ensures s.multipeerSession.Some? ==> ConnectedPeers(t) == ConnectedPeers(s)
    ensures s.multipeerSession.None? ==> ConnectedPeers(t) == {}
    ensures t.(multipeerSession := s.multipeerSession) == s
  {
    var created := if s.multipeerSession.None? then s.(multipeerSession := Some(Transport({}, false, false))) else s;
    StartBrowsing(StartAdvertising(StopMultipeerSession(created)))
  }

  /** stopMultipeerSession: stop advertising and browsing, if the transport exists. */
  function StopMultipeerSession(s: State): (t: State)
    ensures t.multipeerSession.Some? <==> s.multipeerSession.Some?
    ensures t.multipeerSession.Some? ==>
              !t.multipeerSession.value.advertising && !t.multipeerSession.value.browsing &&
              ConnectedPeers(t) == ConnectedPeers(s)
    ensures s.multipeerSession.None? ==> t == s
    ensures t.(multipeerSession := s.multipeerSession) == s
  {
    match s.multipeerSession
    case None => s
    case Some(m) => s.(multipeerSession := Some(m.(advertising := false, browsing := false)))
  }

  function StartAdvertising(s: State): (t: State)
    ensures t.multipeerSession.Some? <==> s.multipeerSession.Some?
    ensures t.multipeerSession.Some? ==>
              t.multipeerSession.value == s.multipeerSession.value.(advertising := true)
    ensures s.multipeerSession.None? ==> t == s
    ensures t.(multipeerSession := s.multipeerSession) == s
  {
    match s.multipeerSession
    case None => s
    case Some(m) => s.(multipeerSession := Some(m.(advertising := true)))
  }

  function StartBrowsing(s: State): (t: State)
    ensures t.multipeerSession.Some? <==> s.multipeerSession.Some?
    ensures t.multipeerSession.Some? ==>
              t.multipeerSession.value == s.multipeerSession.value.(browsing := true)
    ensures s.multipeerSession.None? ==> t == s
    ensures t.(multipeerSession := s.multipeerSession) == s
  {
    match s.multipeerSession
    case None => s
    case Some(m) => s.(multipeerSession := Some(m.(browsing := true)))
  }

  /** shareTokenWithAllPeers: send the local token to every connected peer and
      mark it shared, whether or not the send throws. */
  function ShareTokenWithAllPeers(s: State): (t: State)
    requires Ready(s)
    ensures t.sharedTokenWithPeer
    ensures t.effects == s.effects + [SendToken(LocalToken(s.nearbySession.value), ConnectedPeers(s))]
    ensures t.(sharedTokenWithPeer := s.sharedTokenWithPeer, effects := s.effects) == s
  {
    var token := LocalToken(s.nearbySession.value);
    s.(effects := s.effects + [SendToken(token, ConnectedPeers(s))], sharedTokenWithPeer := true)
  }

  /** sendDeviceIdToPeers: send the device id to every connected peer. */
  function SendDeviceIdToPeers(s: State): (t: State)
    requires s.multipeerSession.Some?
    ensures t.effects == s.effects + [SendDeviceId(s.deviceId, ConnectedPeers(s))]
    ensures t.(effects := s.effects) == s
  {
    s.(effects := s.effects + [SendDeviceId(s.deviceId, ConnectedPeers(s))])
  }

  // ---- NISessionDelegate ----

  /** session(_:didInvalidateWith:): restart the ranging session. */
  function SessionDidInvalidate(s: State): (t: State)
    ensures t.nearbySession == Some(NextGeneration(s.nearbySession))
    ensures t.peer == s.peer && t.peerToken == s.peerToken
    ensures t.sharedTokenWithPeer <==> Bound(s)
    ensures Bound(s) ==> t.effects == s.effects + [SendToken(LocalToken(NextGeneration(s.nearbySession)), ConnectedPeers(s))]
    ensures !Bound(s) ==> t.effects == s.effects && Listening(t)
    ensures Bound(s) ==> t.multipeerSession == s.multipeerSession
    ensures !Bound(s) && s.multipeerSession.Some? ==> ConnectedPeers(t) == ConnectedPeers(s)
    ensures !Bound(s) && s.multipeerSession.None? ==> ConnectedPeers(t) == {}
    ensures t.(nearbySession := s.nearbySession, sharedTokenWithPeer := s.sharedTokenWithPeer,
               multipeerSession := s.multipeerSession, effects := s.effects) == s
  {
    StartNearbySession(s)
  }

  /** session(_:didRemove:reason:): invalidate the reporting session, then
      restart the ranging session. */
  function SessionDidRemove(s: State, session: nat): (t: State)
    ensures t.nearbySession == Some(NextGeneration(s.nearbySession))
    ensures t.peer == s.peer && t.peerToken == s.peerToken
    ensures t.sharedTokenWithPeer <==> Bound(s)
    ensures Bound(s) ==> t.effects == s.effects + [Invalidate(session), SendToken(LocalToken(NextGeneration(s.nearbySession)), ConnectedPeers(s))]
    ensures !Bound(s) ==> t.effects == s.effects + [Invalidate(session)] && Listening(t)
    ensures Bound(s) ==> t.multipeerSession == s.multipeerSession
    ensures !Bound(s) && s.multipeerSession.Some? ==> ConnectedPeers(t) == ConnectedPeers(s)
    ensures !Bound(s) && s.multipeerSession.None? ==> ConnectedPeers(t) == {}
    ensures t.(nearbySession := s.nearbySession, sharedTokenWithPeer := s.sharedTokenWithPeer,
               multipeerSession := s.multipeerSession, effects := s.effects) == s
  {
    StartNearbySession(s.(effects := s.effects + [Invalidate(session)]))
  }

  /** session(_:didUpdate:): publish the first object's distance and coarse
      direction; an empty list changes nothing, and a missing direction clears
      the flag but keeps the previous angle. */
  function SessionDidUpdate(s: State, nearbyObjects: seq<NearbyObject>): (t: State)
    ensures nearbyObjects == [] ==> t == s
    ensures nearbyObjects != [] ==> t.distanceToPeer == nearbyObjects[0].distance
    ensures nearbyObjects != [] ==> (t.isDirectionAvailable <==> nearbyObjects[0].direction.Some?)
    ensures nearbyObjects != [] && nearbyObjects[0].direction.Some? ==>
              t.directionAngle == (if nearbyObjects[0].direction.value.x > 0.0 then 90.0 else -90.0)
    ensures nearbyObjects != [] && nearbyObjects[0].direction.None? ==> t.directionAngle == s.directionAngle
    ensures t.(distanceToPeer := s.distanceToPeer, isDirectionAvailable := s.isDirectionAvailable,
               directionAngle := s.directionAngle) == s
  {
    if |nearbyObjects| == 0 then s
    else
      var nearbyObject := nearbyObjects[0];
      var withDistance := s.(distanceToPeer := nearbyObject.distance);
      match nearbyObject.direction
      case Some(direction) => withDistance.(isDirectionAvailable := true, directionAngle := DirectionAngle(direction))
      case None => withDistance.(isDirectionAvailable := false)
  }

  /** sessionSuspensionEnded: with a stored peer token, run the ranging session
      with it again and re-share the local token; without one, nothing. */
  function SessionSuspensionEnded(s: State): (t: State)
    requires s.peerToken.Some? ==> Ready(s)
    ensures s.peerToken.None? ==> t == s
    ensures s.peerToken.Some? ==>
              t.effects == s.effects + [Run(s.nearbySession.value, s.peerToken.value),
                                        SendToken(LocalToken(s.nearbySession.value), ConnectedPeers(s))]
    ensures s.peerToken.Some? ==> t.sharedTokenWithPeer
    ensures t.(sharedTokenWithPeer := s.sharedTokenWithPeer, effects := s.effects) == s
  {
    match s.peerToken
    case None => s
    case Some(token) =>
      var ran := if s.nearbySession.Some? then s.(effects := s.effects + [Run(s.nearbySession.value, token)]) else s;
      ShareTokenWithAllPeers(ran)
  }

  // ---- MCSessionDelegate ----

  /** session(_:peer:didChange:) for the three known states. Connected binds the
      peer and sends it the local token and the device id; NotConnected only
      raises the connection-lost flag; Connecting only shows the placeholder. */
  function SessionPeerDidChange(s: State, p: PeerId, state: SessionState): (t: State)
    requires !state.Unrecognised?
    requires state.Connected? ==> Ready(s)
    ensures state.Connected? ==>
              t.peerName == p.displayName && t.peer == Some(p) && t.sharedTokenWithPeer && !t.isConnectionLost &&
              t.effects == s.effects + [SendToken(LocalToken(s.nearbySession.value), ConnectedPeers(s)),
                                        SendDeviceId(s.deviceId, ConnectedPeers(s))]
    ensures state.Connected? ==>
              t.(peerName := s.peerName, peer := s.peer, sharedTokenWithPeer := s.sharedTokenWithPeer,
                 isConnectionLost := s.isConnectionLost, effects := s.effects) == s
    ensures state.NotConnected? ==> t.isConnectionLost && t.(isConnectionLost := s.isConnectionLost) == s
    ensures state.Connecting? ==> t.peerName == ConnectingPlaceholder && t.(peerName := s.peerName) == s
  {
    if state.Connected? then
      var bound := s.(peerName := p.displayName, peer := Some(p));
      var shared := ShareTokenWithAllPeers(bound);
      SendDeviceIdToPeers(shared.(isConnectionLost := false))
    else if state.NotConnected? then
      s.(isConnectionLost := true)
    else
      s.(peerName := ConnectingPlaceholder)
  }

  /** session(_:didReceive:fromPeer:): data from a sender whose display name is
      the published peer name, decoded as a discovery token, is run on the
      ranging session and stored; anything else changes nothing. */
  function SessionDidReceiveData(s: State, data: Payload, p: PeerId): (t: State)
    ensures p.displayName != s.peerName || data.Undecodable? ==> t == s
    ensures p.displayName == s.peerName && data.TokenMsg? ==>
              t.peerToken == Some(data.token) && !t.isConnectionLost &&
              t.effects == s.effects + (if s.nearbySession.Some? then [Run(s.nearbySession.value, data.token)] else []) &&
              t.(peerToken := s.peerToken, isConnectionLost := s.isConnectionLost, effects := s.effects) == s
  {
    if p.displayName != s.peerName then s
    else
      match data
      case Undecodable => s
      case TokenMsg(token) =>
        var ran := if s.nearbySession.Some? then s.(effects := s.effects + [Run(s.nearbySession.value, token)]) else s;
        ran.(peerToken := Some(token), isConnectionLost := false)
  }

  // ---- MCNearbyServiceAdvertiserDelegate ----

  /** advertiser(_:didReceiveInvitationFromPeer:...): accept while the
      transport has room; otherwise the handler is never called. */
  function AdvertiserDidReceiveInvitation(s: State, p: PeerId): (t: State)
    ensures HasRoom(s) ==> t.effects == s.effects + [AcceptInvitation(p)]
    ensures !HasRoom(s) ==> t == s
    ensures t.(effects := s.effects) == s
  {
    if s.multipeerSession.None? then s
    else if |s.multipeerSession.value.connectedPeers| < MaxPeersInSession then
      s.(effects := s.effects + [AcceptInvitation(p)])
    else s
  }

  // ---- MCNearbyServiceBrowserDelegate ----

  /** browser(_:lostPeer:): raise the connection-lost flag if the lost peer's
      display name is the published peer name. */
  function BrowserLostPeer(s: State, p: PeerId): (t: State)
    ensures s.peerName == p.displayName ==> t.isConnectionLost
    ensures s.peerName != p.displayName ==> t == s
    ensures t.(isConnectionLost := s.isConnectionLost) == s
  {
    if s.peerName == p.displayName then s.(isConnectionLost := true) else s
  }

  /** The discovery info carries this app's service identity. */
  predicate AdvertisesIdentity(info: Option<map<string, string>>, identity: string)
  {
    info.Some? && IdentityKey in info.value && info.value[IdentityKey] == identity
  }

  /** browser(_:foundPeer:withDiscoveryInfo:): invite the peer, with a
      10-second timeout, when it advertises the same service identity and the
      transport has room; otherwise nothing. */
  function BrowserFoundPeer(s: State, p: PeerId, info: Option<map<string, string>>): (t: State)
    ensures AdvertisesIdentity(info, s.serviceIdentity) && HasRoom(s) ==>
              t.effects == s.effects + [Invite(p, InviteTimeout)]
    ensures !(AdvertisesIdentity(info, s.serviceIdentity) && HasRoom(s)) ==> t == s
    ensures t.(effects := s.effects) == s
  {
    if info.None? || IdentityKey !in info.value || s.multipeerSession.None? then s
    else if info.value[IdentityKey] == s.serviceIdentity && |s.multipeerSession.value.connectedPeers| < MaxPeersInSession then
      s.(effects := s.effects + [Invite(p, InviteTimeout)])
    else s
  }

  // ---- the transport's own bookkeeping ----

  /** Not code of the view model: MultipeerConnectivity's update of
      connectedPeers when a peer changes state. */
  function TransportPeerStateChanged(s: State, p: PeerId, state: SessionState): (t: State)
    ensures s.multipeerSession.Some? ==>
              t.multipeerSession.Some? &&
              t.multipeerSession.value == s.multipeerSession.value.(connectedPeers := ConnectedPeersAfter(ConnectedPeers(s), p, state))
    ensures s.multipeerSession.None? ==> t == s
    ensures t.(multipeerSession := s.multipeerSession) == s
  {
    match s.multipeerSession
    case None => s
    case Some(m) => s.(multipeerSession := Some(m.(connectedPeers := ConnectedPeersAfter(m.connectedPeers, p, state))))
  }
}

/** Properties of InteractionViewModel that relate several callbacks, or that
    show what the code does where a reader might expect otherwise. */
module Properties {
  import opened Frameworks
  import opened Transitions
  import opened Traces

  /** Invalidation restarts ranging: a new generation with a different local
      token, not yet shared unless a peer is bound (then re-shared at once,
      whether or not the send succeeds); the peer binding and the peer's token
      are kept, and the kept token is not run on the new session. */
  lemma InvalidationRestartsRanging(s: State)
    requires Inv(s)
    ensures var t := SessionDidInvalidate(s);
      t.nearbySession == Some(s.nearbySession.value + 1) &&
      LocalToken(t.nearbySession.value) != LocalToken(s.nearbySession.value) &&
      t.peer == s.peer && t.peerToken == s.peerToken &&
      (t.sharedTokenWithPeer <==> s.peer.Some?) &&
      forall i | |s.effects| <= i < |t.effects| :: !t.effects[i].Run?
  {
    LocalTokensDiffer(s.nearbySession.value + 1, s.nearbySession.value);
  }

  /** Once the bound peer's token has arrived, the end of a suspension runs the
      ranging session with that same token again and re-shares the local
      token. */
  lemma SuspensionResumesWithStoredToken(s: State, token: DiscoveryToken, p: PeerId)
    requires Inv(s)
    requires p.displayName == s.peerName
    ensures var t := SessionSuspensionEnded(SessionDidReceiveData(s, TokenMsg(token), p));
      var g := s.nearbySession.value;
      t.peerToken == Some(token) && t.sharedTokenWithPeer &&
      t.effects == s.effects + [Run(g, token), Run(g, token), SendToken(LocalToken(g), ConnectedPeers(s))]
  {
  }

  /** Receiving the same token twice from the bound peer leaves the same state
      as receiving it once, except that the ranging session is run once more
      with it. */
  lemma RepeatedTokenOnlyRerunsSession(s: State, token: DiscoveryToken, p: PeerId)
    requires Inv(s)
    requires p.displayName == s.peerName
    ensures var once := SessionDidReceiveData(s, TokenMsg(token), p);
      var twice := SessionDidReceiveData(once, TokenMsg(token), p);
      twice == once.(effects := once.effects + [Run(s.nearbySession.value, token)])
  {
  }

  /** The sender check compares display names only: a different peer object
      that shows the bound peer's name has its token stored and run. */
  lemma SenderCheckedByNameOnly(s: State, token: DiscoveryToken, impostor: PeerId)
    requires Inv(s)
    requires s.peer.Some? && s.peerName == s.peer.value.displayName
    requires impostor != s.peer.value && impostor.displayName == s.peer.value.displayName
    ensures SessionDidReceiveData(s, TokenMsg(token), impostor).peerToken == Some(token)
  {
  }

  /** A lost connection does not stop ranging: the end of a suspension still
      runs the session with the stored token and sends the local token, while
      connection-lost stays raised. */
  lemma SuspensionRunsWhileDisconnected(s: State, p: PeerId)
    requires Inv(s)
    requires s.peerToken.Some?
    ensures var t := SessionSuspensionEnded(SessionPeerDidChange(s, p, NotConnected));
      var g := s.nearbySession.value;
      t.isConnectionLost &&
      t.effects == s.effects + [Run(g, s.peerToken.value), SendToken(LocalToken(g), ConnectedPeers(s))]
  {
  }

  /** A local token already shared is sent again on every Connected: sharing is
      not limited to once per ranging session. */
  lemma TokenSharedAgainOnConnect(s: State, p: PeerId)
    requires Inv(s)
    requires s.sharedTokenWithPeer
    ensures var token := LocalToken(s.nearbySession.value);
      var t := SessionPeerDidChange(s, p, Connected);
      TokenSent(s.effects, token) &&
      |t.effects| > |s.effects| && t.effects[|s.effects|] == SendToken(token, ConnectedPeers(s))
  {
  }

  /** A peer going to Connecting replaces the published name with the
      placeholder while the bound peer is kept, so a token from the bound peer
      is then ignored until it connects again. */
  lemma ConnectingMutesBoundPeer(s: State, q: PeerId, token: DiscoveryToken)
    requires s.peer.Some? && s.peer.value.displayName != ConnectingPlaceholder
    ensures var t := SessionPeerDidChange(s, q, Connecting);
      t.peer == s.peer &&
      SessionDidReceiveData(t, TokenMsg(token), s.peer.value) == t
  {
  }

  /** Losing the connection keeps the binding and the peer's token; connecting
      again clears the flag and re-sends the local token and the device id. */
  lemma DisconnectThenReconnect(s: State, p: PeerId)
    requires Inv(s)
    ensures var lost := SessionPeerDidChange(s, p, NotConnected);
      var back := SessionPeerDidChange(lost, p, Connected);
      lost.isConnectionLost && lost.peer == s.peer && lost.peerToken == s.peerToken &&
      !back.isConnectionLost && back.peer == Some(p) && back.peerToken == s.peerToken &&
      back.effects == s.effects + [SendToken(LocalToken(s.nearbySession.value), ConnectedPeers(s)),
                                   SendDeviceId(s.deviceId, ConnectedPeers(s))]
  {
  }

  /** An update without a direction clears the flag but keeps the last angle:
      the published angle is only meaningful while the flag is set. */
  lemma AngleOutlivesDirection(s: State, distance: Option<real>, d: Direction, later: Option<real>)
    ensures var t := SessionDidUpdate(SessionDidUpdate(s, [NearbyObject(distance, Some(d))]), [NearbyObject(later, None)]);
      !t.isDirectionAvailable && t.directionAngle == DirectionAngle(d) && t.distanceToPeer == later
  {
  }

  /** The admission check reads only the connected-peer count, so two peers
      found before either connects are both invited. */
  lemma TwoPeersFoundBothInvited(a: PeerId, b: PeerId, deviceId: string)
    ensures var info := Some(map[IdentityKey := DeviceIdentity]);
      RunAll(Init(false, deviceId), [PeerFound(a, info), PeerFound(b, info)]).effects ==
        [Invite(a, InviteTimeout), Invite(b, InviteTimeout)]
  {
    var info := Some(map[IdentityKey := DeviceIdentity]);
    var s0 := Init(false, deviceId);
    var s1 := BrowserFoundPeer(s0, a, info);
    assert [PeerFound(a, info), PeerFound(b, info)][1..] == [PeerFound(b, info)];
    assert RunAll(s0, [PeerFound(a, info), PeerFound(b, info)]) == RunAll(s1, [PeerFound(b, info)]);
  }

  /** Invitations are accepted on the same count, so two peers that invite
      before either connects both end up connected. */
  lemma TwoInvitationsBothConnect(a: PeerId, b: PeerId, deviceId: string)
    requires a != b
    ensures var t := RunAll(Init(false, deviceId),
                            [InvitationReceived(a), InvitationReceived(b),
                             TransportChanged(a, Connected), TransportChanged(b, Connected)]);
      ConnectedPeers(t) == {a, b} && |ConnectedPeers(t)| == 2 &&
      t.effects == [AcceptInvitation(a), AcceptInvitation(b)]
  {
    var events := [InvitationReceived(a), InvitationReceived(b),
                   TransportChanged(a, Connected), TransportChanged(b, Connected)];
    var s := Init(false, deviceId);
    var s1 := Step(s, events[0]);
    var s2 := Step(s1, events[1]);
    var s3 := Step(s2, events[2]);
    var s4 := Step(s3, events[3]);
    assert RunAll(s3, events[3..]) == s4 by { assert events[3..][1..] == []; }
    assert RunAll(s2, events[2..]) == RunAll(s3, events[3..]) by { assert events[2..][1..] == events[3..]; }
    assert RunAll(s1, events[1..]) == RunAll(s2, events[2..]) by { assert events[1..][1..] == events[2..]; }
    assert RunAll(s, events) == RunAll(s1, events[1..]);
  }

  /** A second peer that connects is bound in place of the first, but the first
      peer's token is kept: the next suspension end runs the ranging session
      with that stale token. */
  lemma RebindingKeepsStaleToken(s: State, p: PeerId, q: PeerId, token: DiscoveryToken)
    requires Inv(s)
    requires s.peer == Some(p) && p.displayName == s.peerName && q != p
    ensures var received := SessionDidReceiveData(s, TokenMsg(token), p);
      var rebound := SessionPeerDidChange(received, q, Connected);
      var t := SessionSuspensionEnded(rebound);
      var g := s.nearbySession.value;
      var peers := ConnectedPeers(s);
      rebound.peer == Some(q) && rebound.peerToken == Some(token) &&
      t.peer == Some(q) && t.peerToken == Some(token) &&
      t.effects == s.effects + [Run(g, token), SendToken(LocalToken(g), peers), SendDeviceId(s.deviceId, peers),
                                Run(g, token), SendToken(LocalToken(g), peers)]
  {
  }

  /** A pairing from start to first distance: the peer is found and invited,
      connects, receives the local token and the device id, sends its token
      back, and the first update publishes its distance without a direction. */
  lemma FirstDistanceIsPublished(a: PeerId, token: DiscoveryToken, deviceId: string, distance: real)
    ensures var info := Some(map[IdentityKey := DeviceIdentity]);
      var t := RunAll(Init(false, deviceId),
                      [PeerFound(a, info), TransportChanged(a, Connected), PeerChanged(a, Connected),
                       DataReceived(TokenMsg(token), a), Updated([NearbyObject(Some(distance), None)])]);
      t.distanceToPeer == Some(distance) && !t.isDirectionAvailable && !t.isConnectionLost &&
      t.peer == Some(a) && t.peerName == a.displayName && t.peerToken == Some(token) && t.sharedTokenWithPeer &&
      t.effects == [Invite(a, InviteTimeout), SendToken(LocalToken(0), {a}), SendDeviceId(deviceId, {a}), Run(0, token)]
  {
    var info := Some(map[IdentityKey := DeviceIdentity]);
    var events := [PeerFound(a, info), TransportChanged(a, Connected), PeerChanged(a, Connected),
                   DataReceived(TokenMsg(token), a), Updated([NearbyObject(Some(distance), None)])];
    var s := Init(false, deviceId);
    var s1 := Step(s, events[0]);
    var s2 := Step(s1, events[1]);
    var s3 := Step(s2, events[2]);
    var s4 := Step(s3, events[3]);
    var s5 := Step(s4, events[4]);
    assert RunAll(s4, events[4..]) == s5 by { assert events[4..][1..] == []; }
    assert RunAll(s3, events[3..]) == RunAll(s4, events[4..]) by { assert events[3..][1..] == events[4..]; }
    assert RunAll(s2, events[2..]) == RunAll(s3, events[3..]) by { assert events[2..][1..] == events[3..]; }
    assert RunAll(s1, events[1..]) == RunAll(s2, events[2..]) by { assert events[1..][1..] == events[2..]; }
    assert RunAll(s, events) == RunAll(s1, events[1..]);
  }
}

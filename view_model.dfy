/** InteractionViewModel as a class over its own fields. Every method does what
    the Swift method of the same name does, statement by statement, and is
    proved to leave the object in the state the function of the same name in
    module Transitions gives. Delegate callbacks run one at a time, as they do
    once the hops onto the main queue are collapsed. */
module Interaction {
  import opened Frameworks
  import Transitions

  class InteractionViewModel {
    // Published to the user interface.
    var peerName: string
    var distanceToPeer: Option<real>
    var isDirectionAvailable: bool
    var directionAngle: real
    var isConnectionLost: bool
    var deviceId: string

    // Private state: the ranging session (its generation), the transport, the
    // bound peer and its token, and whether the local token has been shared.
    var nearbySession: Option<nat>
    const serviceIdentity: string
    var multipeerSession: Option<Transport>
    var peer: Option<PeerId>
    var peerToken: Option<DiscoveryToken>
    var sharedTokenWithPeer: bool

    // The calls made into the ranging engine and the transport, oldest first.
    var effects: seq<Effect>

    /** The object's state as a value. */
    function Model(): (m: Transitions.State)
      reads this
    {
      Transitions.State(serviceIdentity, deviceId, nearbySession, multipeerSession, peer, peerToken,
                        sharedTokenWithPeer, peerName, distanceToPeer, isDirectionAvailable,
                        directionAngle, isConnectionLost, effects)
    }

    /** Both framework sessions exist; init establishes this and nothing undoes it. */
    predicate Valid()
      reads this
    {
      Transitions.Ready(Model())
    }

    /** init: the service identity depends on whether this is a simulator build;
        `newDeviceId` is the UUID string that currentDevice stores. */
    constructor (simulator: bool, newDeviceId: string)
      ensures Model() == Transitions.Init(simulator, newDeviceId)
      ensures Valid()
    {
      serviceIdentity := if simulator then SimulatorIdentity else DeviceIdentity;
      peerName, distanceToPeer, isDirectionAvailable, directionAngle, isConnectionLost := "", None, false, 0.0, false;
      deviceId := "";
      nearbySession, multipeerSession, peer, peerToken, sharedTokenWithPeer := None, None, None, None, false;
      effects := [];
      new;
      StartNearbySession();
      StartMultipeerSession();
      CurrentDevice(newDeviceId);
    }

    method CurrentDevice(id: string)
      modifies this
      ensures Model() == Transitions.CurrentDevice(old(Model()), id)
      ensures old(Valid()) ==> Valid()
    {
      deviceId := id;
    }

    method StartNearbySession()
      modifies this
      ensures Model() == Transitions.StartNearbySession(old(Model()))
      ensures Valid()
    {
      nearbySession := Some(Transitions.NextGeneration(nearbySession));
      sharedTokenWithPeer := false;
      if peer.Some? && multipeerSession.Some? {
        if !sharedTokenWithPeer {
          ShareTokenWithAllPeers();
        }
      } else {
        StartMultipeerSession();
      }
    }

    method StartMultipeerSession()
      modifies this
      ensures Model() == Transitions.StartMultipeerSession(old(Model()))
      ensures old(Valid()) ==> Valid()
    {
      if multipeerSession.None? {
        multipeerSession := Some(Transport({}, false, false));
      }
      StopMultipeerSession();
      if multipeerSession.Some? {
        multipeerSession := Some(multipeerSession.value.(advertising := true));
      }
      if multipeerSession.Some? {
        multipeerSession := Some(multipeerSession.value.(browsing := true));
      }
    }

    method StopMultipeerSession()
      modifies this
      ensures Model() == Transitions.StopMultipeerSession(old(Model()))
      ensures old(Valid()) ==> Valid()
    {
      if multipeerSession.Some? {
        multipeerSession := Some(multipeerSession.value.(advertising := false, browsing := false));
      }
    }

    method ShareTokenWithAllPeers()
      requires Valid()
      modifies this
      ensures Model() == Transitions.ShareTokenWithAllPeers(old(Model()))
      ensures Valid()
    {
      var token := LocalToken(nearbySession.value);
      var session := multipeerSession.value;
      effects := effects + [SendToken(token, session.connectedPeers)];
      sharedTokenWithPeer := true;
    }

    method SendDeviceIdToPeers()
      requires multipeerSession.Some?
      modifies this
      ensures Model() == Transitions.SendDeviceIdToPeers(old(Model()))
      ensures old(Valid()) ==> Valid()
    {
      var session := multipeerSession.value;
      effects := effects + [SendDeviceId(deviceId, session.connectedPeers)];
    }

    // ---- NISessionDelegate ----

    method SessionDidInvalidate()
      modifies this
      ensures Model() == Transitions.SessionDidInvalidate(old(Model()))
      ensures Valid()
    {
      StartNearbySession();
    }

    /** `session` is the generation of the ranging session reporting the removal. */
    method SessionDidRemove(session: nat)
      modifies this
      ensures Model() == Transitions.SessionDidRemove(old(Model()), session)
      ensures Valid()
    {
      effects := effects + [Invalidate(session)];
      StartNearbySession();
    }

    method SessionDidUpdate(nearbyObjects: seq<NearbyObject>)
      modifies this
      ensures Model() == Transitions.SessionDidUpdate(old(Model()), nearbyObjects)
      ensures old(Valid()) ==> Valid()
    {
      if |nearbyObjects| == 0 {
        return;
      }
      var nearbyObject := nearbyObjects[0];
      distanceToPeer := nearbyObject.distance;
      match nearbyObject.direction {
        case Some(direction) =>
          isDirectionAvailable := true;
          directionAngle := Transitions.DirectionAngle(direction);
        case None =>
          isDirectionAvailable := false;
      }
    }

    method SessionSuspensionEnded()
      requires peerToken.Some? ==> Valid()
      modifies this
      ensures Model() == Transitions.SessionSuspensionEnded(old(Model()))
      ensures old(Valid()) ==> Valid()
    {
      if peerToken.None? {
        return;
      }
      var token := peerToken.value;
      if nearbySession.Some? {
        effects := effects + [Run(nearbySession.value, token)];
      }
      ShareTokenWithAllPeers();
    }

    // ---- MCSessionDelegate ----

    /** Returns true where the Swift code calls fatalError: a state this code
        does not know. The object is then left as it was. */
    method SessionPeerDidChange(p: PeerId, state: SessionState) returns (fatal: bool)
      requires state.Connected? ==> Valid()
      modifies this
      ensures fatal <==> state.Unrecognised?
      ensures fatal ==> Model() == old(Model())
      ensures !fatal ==> Model() == Transitions.SessionPeerDidChange(old(Model()), p, state)
      ensures old(Valid()) ==> Valid()
    {
      fatal := false;
      match state {
        case Connected =>
          peerName := p.displayName;
          peer := Some(p);
          ShareTokenWithAllPeers();
          isConnectionLost := false;
          SendDeviceIdToPeers();
        case NotConnected =>
          isConnectionLost := true;
        case Connecting =>
          peerName := ConnectingPlaceholder;
        case Unrecognised(_) =>
          fatal := true;
      }
    }

    method SessionDidReceiveData(data: Payload, p: PeerId)
      modifies this
      ensures Model() == Transitions.SessionDidReceiveData(old(Model()), data, p)
      ensures old(Valid()) ==> Valid()
    {
      if p.displayName != peerName {
        return;
      }
      match data {
        case Undecodable =>
          return;
        case TokenMsg(discoveryToken) =>
          if nearbySession.Some? {
            effects := effects + [Run(nearbySession.value, discoveryToken)];
          }
          peerToken := Some(discoveryToken);
          isConnectionLost := false;
      }
    }

    // ---- MCNearbyServiceAdvertiserDelegate ----

    method AdvertiserDidReceiveInvitation(p: PeerId)
      modifies this
      ensures Model() == Transitions.AdvertiserDidReceiveInvitation(old(Model()), p)
      ensures old(Valid()) ==> Valid()
    {
      if multipeerSession.None? {
        return;
      }
      var session := multipeerSession.value;
      if |session.connectedPeers| < MaxPeersInSession {
        effects := effects + [AcceptInvitation(p)];
      }
    }

    // ---- MCNearbyServiceBrowserDelegate ----

    method BrowserLostPeer(p: PeerId)
      modifies this
      ensures Model() == Transitions.BrowserLostPeer(old(Model()), p)
      ensures old(Valid()) ==> Valid()
    {
      if peerName == p.displayName {
        isConnectionLost := true;
      }
    }

    method BrowserFoundPeer(p: PeerId, info: Option<map<string, string>>)
      modifies this
      ensures Model() == Transitions.BrowserFoundPeer(old(Model()), p, info)
      ensures old(Valid()) ==> Valid()
    {
      if info.None? || IdentityKey !in info.value || multipeerSession.None? {
        return;
      }
      var identity := info.value[IdentityKey];
      var session := multipeerSession.value;
      if !(identity == serviceIdentity && |session.connectedPeers| < MaxPeersInSession) {
        return;
      }
      effects := effects + [Invite(p, InviteTimeout)];
    }

    // ---- the transport's own bookkeeping ----

    /** Not code of the view model: MultipeerConnectivity updating the session's
        connected peers when a peer changes state, before it calls
        SessionPeerDidChange. */
    method TransportPeerStateChanged(p: PeerId, state: SessionState)
      modifies this
      ensures Model() == Transitions.TransportPeerStateChanged(old(Model()), p, state)
      ensures old(Valid()) ==> Valid()
    {
      if multipeerSession.Some? {
        var session := multipeerSession.value;
        multipeerSession := Some(session.(connectedPeers := ConnectedPeersAfter(session.connectedPeers, p, state)));
      }
    }
  }
}

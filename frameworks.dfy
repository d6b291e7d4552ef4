/** Value-level stand-ins for what the view model holds of, receives from and
    calls into NearbyInteraction (the ranging engine) and MultipeerConnectivity
    (the transport). Both frameworks are foreign code: only the part the view
    model observes or changes is kept. */
module Frameworks {

  datatype Option<+T> = None | Some(value: T)

  /** An MCPeerID. Two distinct peer objects may carry the same display name. */
  datatype PeerId = PeerId(displayName: string, instance: nat)

  /** An NIDiscoveryToken, opaque to the view model. */
  datatype DiscoveryToken = DiscoveryToken(endpoint: nat)

  /** The discovery token of the local ranging session of the given generation:
      every restart of the ranging session yields a new one. */
  function LocalToken(generation: nat): (t: DiscoveryToken)
  {
    DiscoveryToken(generation)
  }

  lemma LocalTokensDiffer(g: nat, h: nat)
    requires g != h
    ensures LocalToken(g) != LocalToken(h)
  {
  }

  /** The direction vector of an NINearbyObject. */
  datatype Direction = Direction(x: real, y: real, z: real)

  /** An NINearbyObject as the view model reads it: an optional distance and an
      optional direction. */
  datatype NearbyObject = NearbyObject(distance: Option<real>, direction: Option<Direction>)

  /** MCSessionState; `Unrecognised` stands for a case added by a later SDK,
      which the `@unknown default` branch of the peer-state handler meets. */
  datatype SessionState = Connected | NotConnected | Connecting | Unrecognised(raw: int)

  /** What decoding received data as an NIDiscoveryToken yields: a token, or a
      failure (unarchiving returned nil or threw). */
  datatype Payload = TokenMsg(token: DiscoveryToken) | Undecodable

  /** Calls the view model makes into the two frameworks, in order. */
  datatype Effect =
    | Invite(peer: PeerId, timeout: nat)                 // browser.invitePeer
    | AcceptInvitation(peer: PeerId)                     // invitationHandler(true, session)
    | SendToken(token: DiscoveryToken, to: set<PeerId>)  // session.send of the archived local token
    | SendDeviceId(id: string, to: set<PeerId>)          // session.send of the archived device id
    | Run(session: nat, peerToken: DiscoveryToken)       // nearbySession.run(NINearbyPeerConfiguration)
    | Invalidate(session: nat)                           // session.invalidate()

  /** The MCSession together with its advertiser and browser, which the view
      model always creates together: the connected peers and whether
      advertising and browsing are on. */
  datatype Transport = Transport(connectedPeers: set<PeerId>, advertising: bool, browsing: bool)

  /** How MultipeerConnectivity updates `connectedPeers` when a peer changes
      state, before the delegate is told. */
  function ConnectedPeersAfter(peers: set<PeerId>, p: PeerId, state: SessionState): (r: set<PeerId>)
    ensures state.Connected? ==> p in r
    ensures state.NotConnected? || state.Connecting? ==> p !in r
    ensures r - {p} == peers - {p}
  {
    match state
    case Connected => peers + {p}
    case NotConnected => peers - {p}
    case Connecting => peers - {p}
    case Unrecognised(_) => peers
  }

  /** maxPeersInSession, never changed after initialisation. */
  const MaxPeersInSession: nat := 1

  /** The invitation timeout, in seconds, passed to invitePeer. */
  const InviteTimeout: nat := 10

  /** The service identity advertised in the discovery info under "identity". */
  const SimulatorIdentity: string := "xyz.eliat.Interaction./simulator_ni"
  const DeviceIdentity: string := "xyz.eliat.Interaction./device_ni"
  const IdentityKey: string := "identity"

  /** The peer name shown while a peer is connecting. */
  const ConnectingPlaceholder: string := "Hello, who are you? \U{1F44B}"
}

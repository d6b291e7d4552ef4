# Interaction: the session coordinator, modelled in Dafny

The Interaction app pairs two nearby iPhones and shows the distance and the
coarse direction between them. It uses two Apple frameworks. NearbyInteraction
is the ranging engine. MultipeerConnectivity is the transport that discovers
the other device and carries messages. `InteractionViewModel` sits between
them. It advertises and browses for the other device, invites or accepts a
peer only while none is connected (pending invitations are not counted), swaps
NearbyInteraction discovery tokens with the connected peer, runs
the ranging session with the peer's token, and restarts the session when it is
invalidated. This project models that class and proves what each of its
callbacks does.

How the model is built:

- `frameworks.dfy` (module `Frameworks`) holds value stand-ins for what the view
  model sees of the two frameworks. These are peer ids, discovery tokens,
  nearby objects, session states and decoded payloads. It also holds the log
  entries for the calls the view model makes (`Effect`) and the transport
  record (`Transport`).
- `transitions.dfy` (module `Transitions`) gives the view model's fields as one
  value, `State`. For every method and delegate callback it has a function
  giving the state afterwards. Each function's contract says which fields
  change, how, and which calls are logged. Each contract also states that
  every other field is unchanged.
- `view_model.dfy` (module `Interaction`) is the class `InteractionViewModel`.
  Its fields are the Swift fields. Each method follows the Swift body
  statement by statement and is proved to reach the state that the matching
  `Transitions` function gives. Each method also keeps the object invariant `Valid()`, that both
  framework sessions exist; restarting the ranging session establishes it.
- `traces.dfy` (module `Traces`) runs event sequences from the state `init`
  leaves. It proves by induction that every reachable state satisfies `Inv`.
- `properties.dfy` (module `Properties`) holds lemmas that relate several
  callbacks: restart, suspension, repeated tokens, reconnection, admission,
  rebinding, and a full pairing from discovery to the first distance.

The abstractions used:

- The ranging session (`nearbySession`) is a generation number. `init` and
  every restart create the next one. The local discovery token is a function
  of the generation (`LocalToken`), so each restart yields a new token.
- The transport (`multipeerSession` with its advertiser and browser, which
  the code always creates together) keeps three things: the connected peers,
  whether advertising is on, and whether browsing is on.
- MultipeerConnectivity updates `connectedPeers` itself when a peer changes
  state. The model gives this its own step, `TransportPeerStateChanged`, which
  is not code of the view model. Run-level lemmas interleave it with the
  callbacks.
- Outgoing calls are appended to `effects`: `Invite`, `AcceptInvitation`,
  `SendToken`, `SendDeviceId`, `Run`, `Invalidate`.
- A `send` that throws is only logged in the source. The flag
  `sharedTokenWithPeer` becomes true either way. So the log records the
  attempt, and the send's outcome is not an input.
- Received data is only ever decoded as a discovery token. The input is
  `TokenMsg(token)` or `Undecodable`. The second covers decoding that returns
  nil, decoding that throws, and the peer's device-id message, which fails
  that decoding.
- The `fatalError` in `shareTokenWithAllPeers` and `sendDeviceIdToPeers` fires
  when a framework session is absent. Here that is a precondition, `Ready`.
  `Traces.ReachableSatisfiesInv` proves it holds in every state reachable from
  `init`.
- The `@unknown default` `fatalError` of the peer-state callback is the state
  `Unrecognised`. The class method returns `fatal == true` for it, and a run
  stops there.

## Model

| member | source | states |
|---|---|---|
| `Frameworks.LocalTokensDiffer` | Interaction/InteractionViewModel.swift:63-65 | ranging sessions of different generations have different local tokens |
| `Transitions.NextGeneration` | Interaction/InteractionViewModel.swift:63-64 | a newly created ranging session is later than the one it replaces |
| `Transitions.DirectionAngle` | Interaction/InteractionViewModel.swift:149 | the published angle is 90 or -90, and it is 90 exactly when the direction's x is positive |
| `Transitions.Blank` | Interaction/InteractionViewModel.swift:16-34 | before init runs, there is no ranging session, no transport and no logged call, and the identity is the simulator or device one |
| `Transitions.Init` | Interaction/InteractionViewModel.swift:45-56 | after init, ranging session 0 and the transport exist, advertising and browsing are on, and no peer is connected or bound; there is no peer token, the token is not shared, the UI fields have their initial values, the device id is the given one and no call has been made |
| `Transitions.CurrentDevice` | Interaction/InteractionViewModel.swift:40-43 | only the device id changes, to the given one |
| `Transitions.StartNearbySession` | Interaction/InteractionViewModel.swift:63-75 | there is a new generation; the token counts as shared exactly when a peer and the transport exist, in which case the new local token is sent to the connected peers; otherwise nothing is sent and the transport listens, keeping its connected peers; the peer, its token and the UI fields are unchanged |
| `Transitions.StartMultipeerSession` | Interaction/InteractionViewModel.swift:77-91 | afterwards the transport exists with advertising and browsing on; existing connected peers are kept, and a new transport has none; nothing else changes |
| `Transitions.StopMultipeerSession` | Interaction/InteractionViewModel.swift:93-96 | advertising and browsing are off if the transport exists; its peers and all else are unchanged |
| `Transitions.StartAdvertising` | Interaction/InteractionViewModel.swift:89 | advertising is on if the transport exists; nothing else changes |
| `Transitions.StartBrowsing` | Interaction/InteractionViewModel.swift:90 | browsing is on if the transport exists; nothing else changes |
| `Transitions.ShareTokenWithAllPeers` | Interaction/InteractionViewModel.swift:98-113 | one send of the current local token to all connected peers is logged, and the token counts as shared even if the send fails; nothing else changes |
| `Transitions.SendDeviceIdToPeers` | Interaction/InteractionViewModel.swift:115-127 | one send of the device id to all connected peers is logged; nothing else changes |
| `Transitions.SessionDidInvalidate` | Interaction/InteractionViewModel.swift:131-133 | a new generation; peer and peer token are kept; the token is re-shared, with a send of the new local token as the only call, exactly when a peer and the transport exist, the transport then being unchanged; otherwise nothing is logged and the transport listens, created only if absent and keeping its connected peers; no other field changes |
| `Transitions.SessionDidRemove` | Interaction/InteractionViewModel.swift:135-138 | the reporting session is invalidated first; then there is a new generation, peer and peer token are kept, and the token counts as shared exactly when a peer and the transport exist, the send of the new local token then being the only other call and the transport unchanged; otherwise the transport listens, created only if absent and keeping its connected peers; no other field changes |
| `Transitions.SessionDidUpdate` | Interaction/InteractionViewModel.swift:140-153 | an empty list changes nothing; otherwise the distance is the first object's, the direction flag says whether it has a direction, and the angle is the right/left value for it or, without a direction, unchanged; no other field changes |
| `Transitions.SessionSuspensionEnded` | Interaction/InteractionViewModel.swift:155-163 | without a stored peer token nothing changes; with one, the current session is run with it, the local token is sent, and the token counts as shared; nothing else changes |
| `Transitions.SessionPeerDidChange` | Interaction/InteractionViewModel.swift:183-200 | Connected binds the peer and publishes its name, sends the local token then the device id, marks the token shared and clears connection-lost; NotConnected only sets connection-lost; Connecting only shows the placeholder name |
| `Transitions.SessionDidReceiveData` | Interaction/InteractionViewModel.swift:202-223 | data from a sender not named like the published peer, or data that is not a token, changes nothing; a token is run on the current session, stored, and clears connection-lost; nothing else changes |
| `Transitions.AdvertiserDidReceiveInvitation` | Interaction/InteractionViewModel.swift:227-235 | the invitation is accepted, the only change, exactly when the transport exists and has fewer connected peers than the maximum; otherwise nothing changes |
| `Transitions.BrowserLostPeer` | Interaction/InteractionViewModel.swift:239-243 | connection-lost is raised when the lost peer has the published name; otherwise nothing changes, and nothing else ever does |
| `Transitions.BrowserFoundPeer` | Interaction/InteractionViewModel.swift:245-252 | the found peer is invited with a 10-second timeout, the only change, exactly when its discovery info has this app's identity and the transport has room; otherwise nothing changes |
| `Interaction.InteractionViewModel.constructor` | Interaction/InteractionViewModel.swift:45-56 | the new object is in the state `Transitions.Init` gives, so both framework sessions exist |
| `Interaction.InteractionViewModel.CurrentDevice` | Interaction/InteractionViewModel.swift:40-43 | the object's new state is `Transitions.CurrentDevice` of its old state |
| `Interaction.InteractionViewModel.StartNearbySession` | Interaction/InteractionViewModel.swift:63-75 | the object's new state is `Transitions.StartNearbySession` of its old state |
| `Interaction.InteractionViewModel.StartMultipeerSession` | Interaction/InteractionViewModel.swift:77-91 | the object's new state is `Transitions.StartMultipeerSession` of its old state |
| `Interaction.InteractionViewModel.StopMultipeerSession` | Interaction/InteractionViewModel.swift:93-96 | the object's new state is `Transitions.StopMultipeerSession` of its old state |
| `Interaction.InteractionViewModel.ShareTokenWithAllPeers` | Interaction/InteractionViewModel.swift:98-113 | the object's new state is `Transitions.ShareTokenWithAllPeers` of its old state, given that both sessions exist |
| `Interaction.InteractionViewModel.SendDeviceIdToPeers` | Interaction/InteractionViewModel.swift:115-127 | the object's new state is `Transitions.SendDeviceIdToPeers` of its old state, given that the transport exists |
| `Interaction.InteractionViewModel.SessionDidInvalidate` | Interaction/InteractionViewModel.swift:131-133 | the object's new state is `Transitions.SessionDidInvalidate` of its old state |
| `Interaction.InteractionViewModel.SessionDidRemove` | Interaction/InteractionViewModel.swift:135-138 | the object's new state is `Transitions.SessionDidRemove` of its old state and the reporting session |
| `Interaction.InteractionViewModel.SessionDidUpdate` | Interaction/InteractionViewModel.swift:140-153 | the object's new state is `Transitions.SessionDidUpdate` of its old state and the objects |
| `Interaction.InteractionViewModel.SessionSuspensionEnded` | Interaction/InteractionViewModel.swift:155-163 | the object's new state is `Transitions.SessionSuspensionEnded` of its old state |
| `Interaction.InteractionViewModel.SessionPeerDidChange` | Interaction/InteractionViewModel.swift:183-200 | an unrecognised state is fatal and changes nothing; a known one moves the object to `Transitions.SessionPeerDidChange` of its old state |
| `Interaction.InteractionViewModel.SessionDidReceiveData` | Interaction/InteractionViewModel.swift:202-223 | the object's new state is `Transitions.SessionDidReceiveData` of its old state, the payload and the sender |
| `Interaction.InteractionViewModel.AdvertiserDidReceiveInvitation` | Interaction/InteractionViewModel.swift:227-235 | the object's new state is `Transitions.AdvertiserDidReceiveInvitation` of its old state and the inviter |
| `Interaction.InteractionViewModel.BrowserLostPeer` | Interaction/InteractionViewModel.swift:239-243 | the object's new state is `Transitions.BrowserLostPeer` of its old state and the lost peer |
| `Interaction.InteractionViewModel.BrowserFoundPeer` | Interaction/InteractionViewModel.swift:245-252 | the object's new state is `Transitions.BrowserFoundPeer` of its old state, the peer and its discovery info |
| `Traces.Step` | Interaction/InteractionViewModel.swift:130-253 | every non-fatal callback keeps both sessions, only appends to the call log, never moves to an older ranging session, never clears the bound peer or the peer token, and keeps the identity and device id |
| `Traces.RunAll` | Interaction/InteractionViewModel.swift:130-253 | the same five facts hold across any sequence of callbacks |
| `Traces.InitSatisfiesInv` | Interaction/InteractionViewModel.swift:45-56 | the state after init satisfies the invariant `Inv` |
| `Traces.StartNearbySessionKeepsInv` | Interaction/InteractionViewModel.swift:63-75 | restarting the ranging session keeps `Inv`: if the token counts as shared again, the new local token is the call just logged |
| `Traces.SuspensionEndedKeepsInv` | Interaction/InteractionViewModel.swift:155-163 | the end of a suspension keeps `Inv` |
| `Traces.PeerDidChangeKeepsInv` | Interaction/InteractionViewModel.swift:183-200 | a change to a known peer state keeps `Inv` |
| `Traces.ReceiveDataKeepsInv` | Interaction/InteractionViewModel.swift:202-223 | received data keeps `Inv`: a stored token is one just run |
| `Traces.StepKeepsInv` | Interaction/InteractionViewModel.swift:130-253 | every callback keeps `Inv`: both sessions exist, the transport listens, the angle is 0, 90 or -90, a token counted as shared means the current local token was sent, and a stored peer token has been run |
| `Traces.RunAllKeepsInv` | Interaction/InteractionViewModel.swift:130-253 | `Inv` holds after any sequence of callbacks from a state satisfying it |
| `Traces.ReachableSatisfiesInv` | Interaction/InteractionViewModel.swift:99-120 | in every state reachable from init, `Inv` holds, so the `fatalError` guards of both senders, `shareTokenWithAllPeers` (lines 99-104) and `sendDeviceIdToPeers` (lines 116-120), always pass |
| `Properties.InvalidationRestartsRanging` | Interaction/InteractionViewModel.swift:63-75 | invalidation gives a new generation with a different local token; peer and peer token are kept; the token is re-shared exactly when a peer is bound; and the kept peer token is not run on the new session |
| `Properties.SuspensionResumesWithStoredToken` | Interaction/InteractionViewModel.swift:155-163 | after the bound peer's token arrives, the end of a suspension runs the session with that same token again and re-sends the local token |
| `Properties.RepeatedTokenOnlyRerunsSession` | Interaction/InteractionViewModel.swift:207-219 | receiving the same token twice leaves the state of receiving it once, plus one more run of the session with it |
| `Properties.SenderCheckedByNameOnly` | Interaction/InteractionViewModel.swift:203 | a different peer object with the bound peer's display name has its token accepted |
| `Properties.SuspensionRunsWhileDisconnected` | Interaction/InteractionViewModel.swift:155-163 | after the peer goes NotConnected, the end of a suspension still runs the session with the stored token and sends the local token, while connection-lost stays raised |
| `Properties.TokenSharedAgainOnConnect` | Interaction/InteractionViewModel.swift:186-191 | a local token already sent is sent again, as the first new call, when a peer goes Connected |
| `Properties.ConnectingMutesBoundPeer` | Interaction/InteractionViewModel.swift:194-195 | after any peer goes to Connecting, the bound peer is kept but its tokens are ignored |
| `Properties.DisconnectThenReconnect` | Interaction/InteractionViewModel.swift:186-193 | NotConnected keeps peer and peer token; Connected again clears connection-lost and re-sends the local token and device id |
| `Properties.AngleOutlivesDirection` | Interaction/InteractionViewModel.swift:147-152 | an update without direction after one with direction clears the flag but keeps the earlier angle |
| `Properties.TwoPeersFoundBothInvited` | Interaction/InteractionViewModel.swift:245-252 | two peers found before either connects are both invited |
| `Properties.TwoInvitationsBothConnect` | Interaction/InteractionViewModel.swift:227-235 | two invitations received before either peer connects are both accepted, and both peers end up connected at once |
| `Properties.RebindingKeepsStaleToken` | Interaction/InteractionViewModel.swift:186-191 | a second peer going Connected is bound in place of the first while the first peer's token stays stored, and the next suspension end runs the session with that stale token |
| `Properties.FirstDistanceIsPublished` | Interaction/InteractionViewModel.swift:183-223 | the whole pairing works: found, connected, token and device id sent, peer token run, and the first distance published without a direction |

## Where the code does what a reader might not expect

The model follows the code in each case.

- One might expect a failed token send to leave `sharedTokenWithPeer` false.
  The code sets it to true whatever the send does
  (`Transitions.ShareTokenWithAllPeers`).
- One might expect invalidation to clear the peer's token. The code keeps
  `peerToken`, and it keeps `peer` for good: no callback ever clears either of
  them (`Traces.Step`). The kept token is not run on the restarted session.
  Ranging resumes only when the peer sends a token again or a suspension ends
  (`Properties.InvalidationRestartsRanging`).
- One might expect no direction angle while the direction flag is false. The
  code keeps the last angle (`Properties.AngleOutlivesDirection`).
- One might expect admission to require that no peer is bound. The code
  checks only the connected-peer count. That count says nothing about pending
  invitations (`Properties.TwoPeersFoundBothInvited`).
- One might expect at most one peer ever to be connected. Two invitations
  accepted before either peer connects leave two connected peers
  (`Properties.TwoInvitationsBothConnect`).
- One might expect a new peer binding to retire the previous one first. The
  code rebinds `peer` on Connected but keeps the previous peer's token, and
  the next suspension end runs the ranging session with it
  (`Properties.RebindingKeepsStaleToken`).
- One might expect ranging to run only while the peer is connected. After
  NotConnected, the end of a suspension still runs the session with the stored
  token and sends the local token (`Properties.SuspensionRunsWhileDisconnected`).
- One might expect a local token to be shared at most once per ranging
  session. The code sends it again on every Connected and every suspension end
  (`Properties.TokenSharedAgainOnConnect`,
  `Properties.SuspensionResumesWithStoredToken`).
- One might expect the device identifier to be exchanged. The code sends the
  device id but never reads one. The receiver decodes it as a discovery token,
  which fails, so the message is dropped (`Transitions.SessionDidReceiveData`).
- One might expect encoding failures to be recoverable. The code ends the
  process with `fatalError`. This model leaves archiving failures out (see
  below).

## Left out

- Transitions.ShareTokenWithAllPeers: archiving the token with
  NSKeyedArchiver is foreign code and treated as total. The `fatalError` taken
  when archiving fails is not modelled. The one taken when a session is absent
  is the precondition `Ready`, which holds in every reachable state.
- Transitions.SendDeviceIdToPeers: the same holds for archiving the device
  id.
- The byte encodings of NSKeyedArchiver and NSKeyedUnarchiver are foreign. The
  model has no bytes and no round-trip. Received data arrives already decoded
  as a `Payload`.
- `NISession.discoveryToken` is optional in the framework. The model treats it
  as present for every existing session.
- `DispatchQueue.main.async` (lines 184 and 217) is concurrency. Each callback
  is one atomic step. So the connection-lost reset of the data callback
  happens together with the rest of that callback.
- Floating-point values are not modelled as floats. The `Float` distance is a
  `real`. Only the sign of the direction's x component is used, as in the code.
- Some values come from the platform and are parameters: the device name for
  the local peer id, the `UUID` string in `currentDevice`, and the simulator
  build flag.
- Not modelled: `@AppStorage` persistence, `print` logging, and `deinit`
  teardown.
- The published fields `invitationClosed`, `userID` and `otherId` are never
  written by the code, so the model omits them.
- `sessionWasSuspended` and the stream and resource callbacks of
  MCSessionDelegate only print. They change no state.
- String comparisons (the display-name checks at lines 203 and 240, and the
  `identity` lookup and comparison at lines 246-247) are modelled as equality
  of character sequences. Swift's `String` equality also treats canonically
  equivalent Unicode forms as equal, which the model does not capture.
- Not modelled: assigning `self` as delegate, the local peer id, and the
  service type string "interaction". They are the same in every state.
- The other device is not modelled. Its behaviour reaches this one only as
  callback inputs.
- Interaction/ErrorView.swift is not part of this model. It is layout only.
- Interaction/InteractionApp.swift is not part of this model. It is app start-up
  plus the `NISession.isSupported` check.

# Meeting-App signalling client, modelled in Dafny

Meeting-App is a browser video meeting. Every participant keeps one
`RTCPeerConnection` per remote participant (a mesh). A WebSocket relays the
connection-setup messages (`init`, `offer`, `answer`, `ice`, `logout`). The
client logic is in `src/main/resources/static/js/main.js`. This project
models its sequential core:

- **the connection registry** (`connections`, `getRTCPeerConnectionObject`,
  the `delete` in `handleLogout`), in module `Connections`;
- **the focus selector** (`uuidInBig`, `remoteView.srcObject`, the
  remote-videos container, `setBigVideo`, the rendering half of `ontrack`,
  the screen half of `handleLogout`), in module `Focus`;
- **the signalling dispatcher** (`processWsMessage` with its five
  handlers, and the `onicecandidate` and `ontrack` callbacks), as functions
  over one `State` value, in module `Signaling`;
- **whole runs** of messages, callbacks and clicks, the invariants they
  keep and the offer/answer handshake between two clients, in module
  `Lifecycle`;
- **the page itself**, in module `Client`. Class `Page` holds the
  page's global variables as fields. Its methods update those fields in
  place, as `main.js` does. Each method is proved to leave the page in the
  state that the matching `Signaling` function computes.

How things are represented:

- A connection object is a `Conn` value. Its `serial` stands for object
  identity, because every `new RTCPeerConnection` is a distinct object. It
  also records the tracks given to `addTrack`, the committed local and
  remote descriptions, and the accepted remote ICE candidates.
- The browser decides whether each step of an asynchronous promise chain
  succeeds. That decision is an `Outcomes` parameter, and each chain runs
  as one atomic step.
- `sendMessage` appends to an outbox sequence.
- The remote-videos container is a sequence of `View`s in document order,
  not a set. The DOM allows two `<video>` elements with the same id, for
  example when `ontrack` fires twice for a peer. `getElementById` returns
  the first such element (`Focus.FirstView`), and `handleLogout` removes
  only that one.

Things the code does that a reader may not expect, all modelled as
written:

- `answer` and `ice` messages create a registry entry for an unknown peer.
- `ice` without data does not even create one.
- A handler's entry exists even when its promise chain fails.
- Logout blanks the big view when the leaving peer is focused, but leaves
  `uuidInBig` pointing at that peer.
- Logout deletes the entry but never closes the connection. Its
  `onicecandidate` and `ontrack` callbacks can still fire, so a late track
  re-renders a view for a peer that has left.
- Two logouts for the same peer act like one only when the peer had at
  most one element (`Lifecycle.LogoutTwice`).
- `getElementById("")` is always null, since an empty id attribute gives
  an element no ID. For a peer id `""`, `ontrack` appends the element and
  then `setBigVideo("")` throws at its first line before changing
  anything; a click on that element throws the same way; and
  `handleLogout` removes no element. `uuidInBig` therefore never becomes
  `""`.
- Remote ICE candidates that arrive before the remote description are not
  buffered by the client: `addIceCandidate` is called at once and its
  rejection is only logged.

## Model

| member | source | states |
|---|---|---|
| `Connections.GetOrCreate` | src/main/resources/static/js/main.js:130-170 | afterwards the peer is a key and the returned connection is its entry; an existing entry is returned with the registry untouched; otherwise a new connection object (next serial) carrying every local track once, in order, with nothing negotiated; every other key and its value unchanged; the one-object-per-peer invariant is kept |
| `Connections.AttachTracks` | src/main/resources/static/js/main.js:135-137 | the forEach over localStream.getTracks() leaves the new connection with exactly the local tracks, each once, in order, and nothing negotiated |
| `Connections.AddTrack` | src/main/resources/static/js/main.js:137 | addTrack appends one track and changes nothing else of the connection |
| `Connections.Empty` | src/main/resources/static/js/main.js:14 | the page starts with no entry, and the invariant holds |
| `Connections.Put` | src/main/resources/static/js/main.js:67 | committing a description on the stored connection changes only that peer's entry and keeps the invariant |
| `Connections.Remove` | src/main/resources/static/js/main.js:85 | delete removes exactly the peer's key, leaves every other entry and the counter alone, keeps the invariant |
| `Connections.RemoveIdempotent` | src/main/resources/static/js/main.js:85 | deleting an absent key is a no-op, so deleting twice equals deleting once |
| `Connections.RecreatedIsNew` | src/main/resources/static/js/main.js:85 | after a peer's entry is deleted, the next lookup creates a connection distinct from every connection the registry held, with nothing negotiated |
| `Focus.Blank` | src/main/resources/static/js/main.js:15-19 | nothing focused, big view blank, no element rendered |
| `Focus.FirstView` | src/main/resources/static/js/main.js:86 | getElementById: the position of an element with the id such that no earlier element has it, or None exactly when no element has it; always None for the empty id, which no element has |
| `Focus.FirstViewAt` | src/main/resources/static/js/main.js:173 | the first element with the id determines getElementById's answer uniquely |
| `Focus.ViewCount` | src/main/resources/static/js/main.js:153-154 | the number of elements with an id is zero exactly when getElementById finds none |
| `Focus.RemoveFirst` | src/main/resources/static/js/main.js:86-89 | the element getElementById finds leaves the container, all others stay in order; nothing changes when none is found |
| `Focus.RemoveFirstCount` | src/main/resources/static/js/main.js:86-89 | removing lowers that id's element count by one, unless it was zero |
| `Focus.FirstViewIgnoresClasses` | src/main/resources/static/js/main.js:175-177 | changing class lists does not change what getElementById finds |
| `Focus.Mark` | src/main/resources/static/js/main.js:175-177 | classList add/remove changes only the one element's "active" flag |
| `Focus.PreviousMarked` | src/main/resources/static/js/main.js:174-175 | the element that loses "active" is getElementById(uuidInBig), and only when uuidInBig is truthy |
| `Focus.SetBigVideo` | src/main/resources/static/js/main.js:172-179 | uuidInBig becomes the peer; the big view shows the stream of the peer's first element; that element is active; every other element is active exactly when it was before and is not the previously focused peer's first element; ids and streams unchanged |
| `Focus.ShowTrack` | src/main/resources/static/js/main.js:150-166 | one element for the peer with the stream is appended; with a non-blank big view, or for the empty id (where setBigVideo throws), the result is exactly the screen with that element appended; with a blank big view and a non-empty id it is setBigVideo applied to that screen, so the peer becomes focused, showing the new stream when the peer had no element before |
| `Focus.Leave` | src/main/resources/static/js/main.js:82-89 | the big view is blanked exactly when the leaving peer is uuidInBig; uuidInBig itself unchanged; the container becomes exactly RemoveFirst of it, so the removed element is the one getElementById finds and nothing changes when none is found; the peer's element count drops by one, unless it was zero |
| `Focus.LeaveTwice` | src/main/resources/static/js/main.js:80-90 | leaving twice equals leaving once if and only if the peer had at most one element |
| `Focus.AtMostOneActive` | src/main/resources/static/js/main.js:174-177 | under the focus invariant no two elements carry "active" |
| `Focus.BlankFocusInv` | src/main/resources/static/js/main.js:15-19 | the blank page satisfies the focus invariant |
| `Focus.SetBigVideoKeepsInv` | src/main/resources/static/js/main.js:172-179 | setBigVideo keeps the focus invariant: only the focused peer's first element is active, and a non-blank big view shows it |
| `Focus.FirstViewAppend` | src/main/resources/static/js/main.js:153 | appending an element changes getElementById only for an id that had none |
| `Focus.ShowTrackKeepsInv` | src/main/resources/static/js/main.js:150-166 | the ontrack callback keeps the focus invariant |
| `Focus.FirstViewAfterRemove` | src/main/resources/static/js/main.js:88 | removing one element keeps every other first element first, shifted by one if it came after |
| `Focus.MarkSurvivesRemoval` | src/main/resources/static/js/main.js:88 | an element still active after a removal is still the focused peer's first element |
| `Focus.LeaveKeepsMarks` | src/main/resources/static/js/main.js:82-89 | after logout every active element is still the focused peer's first element |
| `Focus.LeaveKeepsInv` | src/main/resources/static/js/main.js:82-89 | logout keeps the focus invariant although uuidInBig is left stale |
| `Signaling.Route` | src/main/resources/static/js/main.js:43-59 | the switch selects the kind whose name is the type string, and no kind when no name matches |
| `Signaling.RouteKindName` | src/main/resources/static/js/main.js:43-59 | each of the five kinds reaches exactly its own handler |
| `Signaling.Initial` | src/main/resources/static/js/main.js:12-19 | the bootstrapped page: the empty registry, the blank screen, nothing sent, and the given local tracks; both invariants hold |
| `Signaling.Lookup` | src/main/resources/static/js/main.js:64 | the handler's lookup-or-create touches only the sender's entry, sends nothing, and leaves the entry stored |
| `Signaling.HandleInit` | src/main/resources/static/js/main.js:62-78 | the sender's entry exists even on failure; one offer envelope to the sender is sent if and only if createOffer and setLocalDescription both succeed, and it carries the connection's committed local description; nothing else changes |
| `Signaling.HandleOffer` | src/main/resources/static/js/main.js:92-109 | the sender's entry exists; the remote description is committed only with data and a successful setRemoteDescription; one answer envelope to the sender is sent if and only if all three steps succeed, and it carries the local description of a connection that is then stable |
| `Signaling.HandleAnswer` | src/main/resources/static/js/main.js:111-118 | nothing is ever sent; an unknown sender gets a fresh entry; the remote description is committed only on success |
| `Signaling.HandleIce` | src/main/resources/static/js/main.js:120-128 | without data nothing changes, not even the registry; with data the sender's entry exists and the candidate is appended exactly when addIceCandidate succeeds; nothing is sent |
| `Signaling.HandleLogout` | src/main/resources/static/js/main.js:80-90 | exactly the sender's key is removed and other entries are unchanged; the big view goes blank exactly when the sender is uuidInBig; uuidInBig and the outbox are unchanged |
| `Signaling.Process` | src/main/resources/static/js/main.js:40-60 | an unknown type changes nothing; the outbox only grows, by at most one envelope, addressed to the sender, and only an offer for init or an answer for offer; only logout touches the screen; the registry invariant is kept |
| `Signaling.OnIceCandidate` | src/main/resources/static/js/main.js:139-148 | one ice envelope to the peer for a non-null candidate, nothing for end-of-candidates, nothing else changed |
| `Signaling.OnTrack` | src/main/resources/static/js/main.js:150-166 | the screen changes as ShowTrack says; registry and outbox untouched |
| `Signaling.Click` | src/main/resources/static/js/main.js:160-162 | a click on a peer's element runs setBigVideo and changes nothing else |
| `Lifecycle.Step` | src/main/resources/static/js/main.js:40-60 | every event only appends to the outbox, at most one envelope |
| `Lifecycle.InitialInv` | src/main/resources/static/js/main.js:12-19 | the bootstrapped page satisfies the client invariant |
| `Lifecycle.StepKeepsInv` | src/main/resources/static/js/main.js:40-179 | every message, callback and click keeps the client invariant |
| `Lifecycle.RunKeepsInv` | src/main/resources/static/js/main.js:40-179 | any run keeps one distinct connection per peer, at most one active element, and a non-blank big view showing the focused peer |
| `Lifecycle.StepAddressee` | src/main/resources/static/js/main.js:70-73 | an envelope an event sends goes to the peer that event names |
| `Lifecycle.RunOnlyAppends` | src/main/resources/static/js/main.js:181-183 | over a run nothing sent is retracted, at most one envelope is sent per event, and each goes to a peer some event named |
| `Lifecycle.LogoutTwice` | src/main/resources/static/js/main.js:80-90 | two logouts for a peer equal one if and only if the peer had at most one rendered element |
| `Lifecycle.Relay` | src/main/resources/static/js/main.js:70-74 | an envelope a client sends arrives at the other client as a signal routed to the kind it was sent as, carrying the same data |
| `Lifecycle.Handshake` | src/main/resources/static/js/main.js:62-118 | init, offer, answer between two fresh clients: each side holds one new connection for the other, with the offer and the answer committed on the matching sides; the answer step sends nothing |
| `Client.Page.constructor` | src/main/resources/static/js/main.js:12-19 | the page starts in the initial state, which satisfies the client invariant |
| `Client.Page.SendMessage` | src/main/resources/static/js/main.js:181-183 | the envelope is appended to what was sent; nothing else changes |
| `Client.Page.GetRTCPeerConnectionObject` | src/main/resources/static/js/main.js:130-170 | in-place registry update and result agree with Signaling.Lookup |
| `Client.Page.HandleInit` | src/main/resources/static/js/main.js:62-78 | the new page state is that of Signaling.HandleInit |
| `Client.Page.HandleLogout` | src/main/resources/static/js/main.js:80-90 | the new page state is that of Signaling.HandleLogout |
| `Client.Page.HandleOffer` | src/main/resources/static/js/main.js:92-109 | the new page state is that of Signaling.HandleOffer |
| `Client.Page.HandleAnswer` | src/main/resources/static/js/main.js:111-118 | the new page state is that of Signaling.HandleAnswer |
| `Client.Page.HandleIce` | src/main/resources/static/js/main.js:120-128 | the new page state is that of Signaling.HandleIce |
| `Client.Page.ProcessWsMessage` | src/main/resources/static/js/main.js:40-60 | the new page state is that of Signaling.Process, and the client invariant is kept |
| `Client.Page.OnIceCandidate` | src/main/resources/static/js/main.js:139-148 | the new page state is that of Signaling.OnIceCandidate |
| `Client.Page.SetBigVideo` | src/main/resources/static/js/main.js:172-179 | the new screen is that of Focus.SetBigVideo, and the client invariant is kept |
| `Client.Page.OnTrack` | src/main/resources/static/js/main.js:150-166 | the new page state is that of Signaling.OnTrack, and the client invariant is kept |

## Left out

- Bootstrap is not modelled: `init`, `getUserMedia`, building the WebSocket and its callbacks, and `disconnect` (main.js:24-38, 189-197). This is I/O. The local stream is the given sequence `localTracks`.
- Transport and logging are not modelled: `JSON.parse`, `JSON.stringify`, `ws.send`, `logMessage` and `console.log`. `sendMessage` appends to the outbox.
- The internals of `RTCPeerConnection` are not modelled. This covers the STUN configuration (main.js:3-10), SDP generation, ICE gathering, and what committing a description or a candidate does to the media path. This is a foreign browser API. Each promise's settlement is an `Outcomes` parameter. A resolved `setLocalDescription(sdp)` makes `connection.localDescription` equal to `sdp`.
- A synchronous throw inside a handler counts as a failed step. Examples are `new RTCSessionDescription` without `data` and `new RTCIceCandidate` with malformed data. Either way the registry entry has already been created, and nothing further happens.
- JavaScript truthiness of `signal.data` and `event.candidate` is reduced to `None` (absent or falsy) versus `Some`.
- Promise interleaving is not modelled, for example a logout arriving while an offer is in flight. That is concurrency, so each handler's chain is one atomic step.
- DOM details are not modelled: element creation, width, height, class name, autoplay and the listener registration (main.js:152-162). An element is reduced to its id, its stream and its "active" flag. A click is `Client.Page.SetBigVideo` on an existing element.
- A click is modelled by peer id. `Lifecycle.Step` does nothing for a click whose id getElementById cannot find (the empty id, or a peer whose element is gone), because `setBigVideo` then throws before changing anything.
- A remote track without a stream (`event.streams[0]` undefined) is not modelled. Every track arrives with a stream.
- Peer ids are assumed to be the server's UUIDs. Two cases of arbitrary strings are not modelled. One is a name every plain object inherits (`"toString"`, `"constructor"`, `"__proto__"`): there `connections[uuid]` would be truthy before any entry exists, and `delete` would do nothing. The other is an id of the page's own elements (`"selfView"`, `"remoteView"`, `"remoteVideosContainer"`): there `getElementById` would find that element instead of the peer's video. The registry is a map from peer id to connection, and the container holds only peer videos.
- Focus.SetBigVideo: requires that the peer has an element, because the source dereferences `getElementById(uuid)` unguarded and its callers (the click listener and `ontrack`) only call it then.

/** The signalling dispatcher of main.js: processWsMessage, its five
    handlers and the two connection callbacks, over the whole client state.
    Every asynchronous promise chain is one atomic step whose browser
    outcomes are given as an `Outcomes` value. */
module Signaling {
  import opened Types
  import opened Connections
  import opened Focus

  /** The five message kinds the switch of processWsMessage knows. */
  datatype Kind = Init | Logout | Offer | Answer | Ice

  /** The `type` string of each kind on the wire. */
  function KindName(k: Kind): string {
    match k
    case Init => "init"
    case Logout => "logout"
    case Offer => "offer"
    case Answer => "answer"
    case Ice => "ice"
  }

  /** The switch of processWsMessage: the handler a `type` string selects;
      None for a string no case matches. */
  function Route(kind: string): (r: Option<Kind>)
    ensures r.Some? ==> KindName(r.value) == kind
    ensures r.None? ==> forall k: Kind :: KindName(k) != kind
  {
    if kind == "init" then Some(Init)
    else if kind == "logout" then Some(Logout)
    else if kind == "offer" then Some(Offer)
    else if kind == "answer" then Some(Answer)
    else if kind == "ice" then Some(Ice)
    else None
  }

  /** Each kind's own name is routed to that kind's handler and no other. */
  lemma RouteKindName(k: Kind)
    ensures Route(KindName(k)) == Some(k)
  {
  }

  /** An inbound signal after JSON.parse: `data` is None when absent, null
      or otherwise falsy. */
  datatype Signal = Signal(kind: string, sender: PeerId, data: Option<Payload>)

  /** An outbound envelope {type, receiver, data} handed to sendMessage. */
  datatype Envelope = Envelope(kind: Kind, receiver: PeerId, data: Payload)

  /** How the browser settles the promises of one handler: `created` is the
      description createOffer or createAnswer resolves with (None when it
      rejects); the flags say whether setLocalDescription,
      setRemoteDescription and addIceCandidate resolve. */
  datatype Outcomes = Outcomes(created: Option<Payload>, setLocalOk: bool, setRemoteOk: bool, addIceOk: bool)

  /** The page's global state: `connections` (with a counter standing for
      object identity), the focus state, every envelope sent so far, and
      the local stream's tracks. */
  datatype State = State(registry: Registry, screen: Screen, outbox: seq<Envelope>, localTracks: seq<TrackId>)

  /** The state right after bootstrap. */
  function Initial(localTracks: seq<TrackId>): (s: State)
    ensures s.registry == Empty() && s.screen == Blank() && s.outbox == [] && s.localTracks == localTracks
    ensures Valid(s.registry) && FocusInv(s.screen)
  {
    BlankFocusInv();
    State(Empty(), Blank(), [], localTracks)
  }

  /** Nothing but the registry entry of `sender` may differ. */
  ghost predicate OnlyEntryOf(s: State, r: State, sender: PeerId) {
    (forall p :: p != sender ==> Get(r.registry, p) == Get(s.registry, p)) &&
    r.screen == s.screen && r.localTracks == s.localTracks
  }

  /** The connection a handler works on: looked up or created first, before
      any asynchronous step. */
  function Lookup(s: State, sender: PeerId): (r: (State, Conn))
    ensures r.0.outbox == s.outbox && OnlyEntryOf(s, r.0, sender)
    ensures Get(r.0.registry, sender) == Some(r.1)
    ensures Valid(s.registry) ==> Valid(r.0.registry)
  {
    var (reg, c) := GetOrCreate(s.registry, sender, s.localTracks);
    (s.(registry := reg), c)
  }

  /** handleInit: create an offer, commit it as local description, then
      send it to the sender. Nothing is sent unless both steps succeed, but
      the sender's entry exists either way. */
  function HandleInit(s: State, sender: PeerId, o: Outcomes): (r: State)
    ensures OnlyEntryOf(s, r, sender)
    ensures sender in r.registry.conns
    ensures var c := Lookup(s, sender).1; var d := r.registry.conns[sender];
      SameObject(c, d) && d.remote == c.remote && d.candidates == c.candidates &&
      d.local == (if o.created.Some? && o.setLocalOk then o.created else c.local)
    ensures r.outbox == s.outbox + (if o.created.Some? && o.setLocalOk then [Envelope(Offer, sender, o.created.value)] else [])
    ensures |r.outbox| > |s.outbox| ==> Some(r.outbox[|s.outbox|].data) == r.registry.conns[sender].local
    ensures Valid(s.registry) ==> Valid(r.registry)
  {
    var (s1, c) := Lookup(s, sender);
    match o.created
    case None => s1
    case Some(sdp) =>
      if !o.setLocalOk then s1
      else
        var c1 := c.(local := Some(sdp));
        s1.(registry := Put(s1.registry, sender, c1), outbox := s1.outbox + [Envelope(Offer, sender, sdp)])
  }

  /** handleOffer: commit the received description as remote description,
      create an answer, commit it as local description, then send it to the
      sender. An absent description makes `new RTCSessionDescription` throw
      before anything is committed. */
  function HandleOffer(s: State, sender: PeerId, data: Option<Payload>, o: Outcomes): (r: State)
    ensures OnlyEntryOf(s, r, sender)
    ensures sender in r.registry.conns
    ensures var c := Lookup(s, sender).1; var d := r.registry.conns[sender];
      var remoteOk := data.Some? && o.setRemoteOk;
      SameObject(c, d) && d.candidates == c.candidates &&
      d.remote == (if remoteOk then data else c.remote) &&
      d.local == (if remoteOk && o.created.Some? && o.setLocalOk then o.created else c.local)
    ensures r.outbox == s.outbox +
      (if data.Some? && o.setRemoteOk && o.created.Some? && o.setLocalOk
       then [Envelope(Answer, sender, o.created.value)] else [])
    ensures |r.outbox| > |s.outbox| ==>
      Some(r.outbox[|s.outbox|].data) == r.registry.conns[sender].local && r.registry.conns[sender].Stable()
    ensures Valid(s.registry) ==> Valid(r.registry)
  {
    var (s1, c) := Lookup(s, sender);
    if data.None? || !o.setRemoteOk then s1
    else
      var c1 := c.(remote := data);
      var s2 := s1.(registry := Put(s1.registry, sender, c1));
      match o.created
      case None => s2
      case Some(sdp) =>
        if !o.setLocalOk then s2
        else
          var c2 := c1.(local := Some(sdp));
          s2.(registry := Put(s2.registry, sender, c2), outbox := s2.outbox + [Envelope(Answer, sender, sdp)])
  }

  /** handleAnswer: commit the received description as remote description.
      Nothing is ever sent; an unknown sender gets a fresh entry. */
  function HandleAnswer(s: State, sender: PeerId, data: Option<Payload>, o: Outcomes): (r: State)
    ensures OnlyEntryOf(s, r, sender) && r.outbox == s.outbox
    ensures sender in r.registry.conns
    ensures var c := Lookup(s, sender).1; var d := r.registry.conns[sender];
      SameObject(c, d) && d.local == c.local && d.candidates == c.candidates &&
      d.remote == (if data.Some? && o.setRemoteOk then data else c.remote)
    ensures Valid(s.registry) ==> Valid(r.registry)
  {
    var (s1, c) := Lookup(s, sender);
    if data.None? || !o.setRemoteOk then s1
    else s1.(registry := Put(s1.registry, sender, c.(remote := data)))
  }

  /** handleIce: without data nothing at all happens, not even a registry
      entry; with data the candidate is given to the sender's connection,
      created if missing. Nothing is sent. */
  function HandleIce(s: State, sender: PeerId, data: Option<Payload>, o: Outcomes): (r: State)
    ensures data.None? ==> r == s
    ensures OnlyEntryOf(s, r, sender) && r.outbox == s.outbox
    ensures data.Some? ==> sender in r.registry.conns
    ensures data.Some? ==>
      (var c := Lookup(s, sender).1; var d := r.registry.conns[sender];
       SameObject(c, d) && d.local == c.local && d.remote == c.remote &&
       d.candidates == c.candidates + (if o.addIceOk then [data.value] else []))
    ensures Valid(s.registry) ==> Valid(r.registry)
  {
    match data
    case None => s
    case Some(cand) =>
      var (s1, c) := Lookup(s, sender);
      if !o.addIceOk then s1
      else s1.(registry := Put(s1.registry, sender, c.(candidates := c.candidates + [cand])))
  }

  /** handleLogout: blank the big view if the sender is focused, delete the
      sender's entry, remove its element. Other entries, uuidInBig and the
      outbox stay as they were. */
  function HandleLogout(s: State, sender: PeerId): (r: State)
    ensures r.registry.conns.Keys == s.registry.conns.Keys - {sender}
    ensures forall p :: p != sender ==> Get(r.registry, p) == Get(s.registry, p)
    ensures r.screen == Leave(s.screen, sender)
    ensures r.screen.focused == s.screen.focused
    ensures (s.screen.primary.Some? && r.screen.primary.None?) <==> (s.screen.primary.Some? && s.screen.focused == Some(sender))
    ensures r.outbox == s.outbox && r.localTracks == s.localTracks
    ensures Valid(s.registry) ==> Valid(r.registry)
  {
    s.(registry := Remove(s.registry, sender), screen := Leave(s.screen, sender))
  }

  /** processWsMessage: route on `type`. A type no case matches changes
      nothing; at most one envelope is sent, always to the sender, and only
      an offer in reply to init or an answer in reply to offer. */
  function Process(s: State, sig: Signal, o: Outcomes): (r: State)
    ensures Route(sig.kind).None? ==> r == s
    ensures r.localTracks == s.localTracks
    ensures s.outbox <= r.outbox && |r.outbox| <= |s.outbox| + 1
    ensures |r.outbox| == |s.outbox| + 1 ==>
      var e := r.outbox[|s.outbox|];
      e.receiver == sig.sender &&
      ((e.kind == Offer && sig.kind == "init") || (e.kind == Answer && sig.kind == "offer"))
    ensures Route(sig.kind) != Some(Logout) ==> r.screen == s.screen
    ensures Valid(s.registry) ==> Valid(r.registry)
  {
    match Route(sig.kind)
    case None => s
    case Some(Init) => HandleInit(s, sig.sender, o)
    case Some(Logout) => HandleLogout(s, sig.sender)
    case Some(Offer) => HandleOffer(s, sig.sender, sig.data, o)
    case Some(Answer) => HandleAnswer(s, sig.sender, sig.data, o)
    case Some(Ice) => HandleIce(s, sig.sender, sig.data, o)
  }

  /** The onicecandidate callback of the connection created for `uuid`: a
      non-null candidate is sent to `uuid`; the end-of-candidates event
      sends nothing. It still fires after the entry is deleted, since the
      connection is never closed. */
  function OnIceCandidate(s: State, uuid: PeerId, candidate: Option<Payload>): (r: State)
    ensures r.registry == s.registry && r.screen == s.screen && r.localTracks == s.localTracks
    ensures candidate.None? ==> r.outbox == s.outbox
    ensures candidate.Some? ==> r.outbox == s.outbox + [Envelope(Ice, uuid, candidate.value)]
  {
    match candidate
    case None => s
    case Some(c) => s.(outbox := s.outbox + [Envelope(Ice, uuid, c)])
  }

  /** The ontrack callback of the connection created for `uuid`. */
  function OnTrack(s: State, uuid: PeerId, stream: StreamId): (r: State)
    ensures r.registry == s.registry && r.outbox == s.outbox && r.localTracks == s.localTracks
    ensures r.screen == ShowTrack(s.screen, uuid, stream)
  {
    s.(screen := ShowTrack(s.screen, uuid, stream))
  }

  /** The click listener on a peer's element: setBigVideo(uuid). A click
      needs an element to click on. */
  function Click(s: State, uuid: PeerId): (r: State)
    requires FirstView(s.screen.views, uuid).Some?
    ensures r.registry == s.registry && r.outbox == s.outbox && r.localTracks == s.localTracks
    ensures r.screen == SetBigVideo(s.screen, uuid)
  {
    s.(screen := SetBigVideo(s.screen, uuid))
  }
}

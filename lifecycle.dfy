/** Properties of whole runs of the signalling client: what every sequence
    of inbound messages, connection callbacks and clicks preserves, and the
    offer/answer handshake between two clients. */
module Lifecycle {
  import opened Types
  import opened Connections
  import opened Focus
  import opened Signaling

  /** One thing that can happen to the page: a signalling message (with the
      way the browser settles its promises), a local ICE candidate or a
      remote track on the connection created for a peer, or a click on a
      peer's element. */
  datatype Event =
    | Message(sig: Signal, o: Outcomes)
    | IceFound(peer: PeerId, candidate: Option<Payload>)
    | TrackArrived(peer: PeerId, stream: StreamId)
    | Clicked(peer: PeerId)

  /** Applies one event. A click on an element whose id getElementById
      cannot find (the empty id, or an element no longer in the page)
      makes setBigVideo throw before it changes anything. */
  function Step(s: State, e: Event): (r: State)
    ensures r.localTracks == s.localTracks
    ensures s.outbox <= r.outbox && |r.outbox| <= |s.outbox| + 1
  {
    match e
    case Message(sig, o) => Process(s, sig, o)
    case IceFound(p, c) => OnIceCandidate(s, p, c)
    case TrackArrived(p, st) => OnTrack(s, p, st)
    case Clicked(p) => if FirstView(s.screen.views, p).Some? then Click(s, p) else s
  }

  /** Applies the events in order. */
  function Run(s: State, es: seq<Event>): State
    decreases |es|
  {
    if es == [] then s else Run(Step(s, es[0]), es[1..])
  }

  /** The client invariant: one distinct connection object per peer id, and
      the focus invariant of the screen. */
  ghost predicate Inv(s: State) {
    Valid(s.registry) && FocusInv(s.screen)
  }

  lemma InitialInv(localTracks: seq<TrackId>)
    ensures Inv(Initial(localTracks))
  {
  }

  /** Every event keeps the client invariant. */
  lemma StepKeepsInv(s: State, e: Event)
    requires Inv(s)
    ensures Inv(Step(s, e))
  {
    match e
    case Message(sig, o) =>
      if Route(sig.kind) == Some(Logout) { LeaveKeepsInv(s.screen, sig.sender); }
    case IceFound(p, c) =>
    case TrackArrived(p, st) => ShowTrackKeepsInv(s.screen, p, st);
    case Clicked(p) =>
      if FirstView(s.screen.views, p).Some? { SetBigVideoKeepsInv(s.screen, p); }
  }

  /** Every run keeps the client invariant: at most one connection per peer,
      at most one active element, and a non-blank big view shows the
      focused peer's element. */
  lemma {:induction false} RunKeepsInv(s: State, es: seq<Event>)
    requires Inv(s)
    ensures Inv(Run(s, es))
    decreases |es|
  {
    if es != [] {
      StepKeepsInv(s, es[0]);
      RunKeepsInv(Step(s, es[0]), es[1..]);
    }
  }

  /** Peers an event names. */
  function PeerOf(e: Event): PeerId {
    match e
    case Message(sig, _) => sig.sender
    case IceFound(p, _) => p
    case TrackArrived(p, _) => p
    case Clicked(p) => p
  }

  /** Sending only appends: a run never retracts an envelope, sends at most
      one per event, and addresses each to the peer its event names. */
  lemma {:induction false} RunOnlyAppends(s: State, es: seq<Event>)
    ensures s.outbox <= Run(s, es).outbox
    ensures |Run(s, es).outbox| <= |s.outbox| + |es|
    ensures forall i :: |s.outbox| <= i < |Run(s, es).outbox| ==>
      exists k :: 0 <= k < |es| && PeerOf(es[k]) == Run(s, es).outbox[i].receiver
    decreases |es|
  {
    if es != [] {
      var s1 := Step(s, es[0]);
      RunOnlyAppends(s1, es[1..]);
      var r := Run(s, es);
      assert r == Run(s1, es[1..]);
      forall i | |s.outbox| <= i < |r.outbox|
        ensures exists k :: 0 <= k < |es| && PeerOf(es[k]) == r.outbox[i].receiver
      {
        if i < |s1.outbox| {
          assert i == |s.outbox|;
          StepAddressee(s, es[0]);
          assert PeerOf(es[0]) == r.outbox[i].receiver;
        } else {
          var k :| 0 <= k < |es| - 1 && PeerOf(es[1..][k]) == r.outbox[i].receiver;
          assert PeerOf(es[k + 1]) == r.outbox[i].receiver;
        }
      }
    }
  }

  /** The envelope an event sends, if any, goes to the peer it names. */
  lemma StepAddressee(s: State, e: Event)
    ensures |Step(s, e).outbox| == |s.outbox| + 1 ==> Step(s, e).outbox[|s.outbox|].receiver == PeerOf(e)
  {
  }

  /** Two logout messages for the same peer in a row equal one, except that
      a second element carrying the same id is removed by the second. */
  lemma LogoutTwice(s: State, p: PeerId)
    ensures HandleLogout(HandleLogout(s, p), p) == HandleLogout(s, p) <==> ViewCount(s.screen.views, p) <= 1
  {
  }

  /** The signal the (transparent) server delivers for an envelope sent by
      `from`. */
  function Relay(from: PeerId, e: Envelope): (sig: Signal)
    ensures Route(sig.kind) == Some(e.kind) && sig.sender == from && sig.data == Some(e.data)
  {
    Signal(KindName(e.kind), from, Some(e.data))
  }

  /** Outcomes of a promise chain in which every step resolves. */
  function Resolving(created: Option<Payload>): Outcomes {
    Outcomes(created, true, true, true)
  }

  /** The handshake between client `a` (state sa) and client `b` (state sb),
      neither knowing the other: b receives init from a and sends an offer;
      a applies it and sends an answer; b applies the answer. Each side then
      holds one connection for the other, with both descriptions committed,
      the offer as b's local and a's remote description and the answer the
      other way round, and the answer step sends nothing. */
  lemma Handshake(a: PeerId, b: PeerId, sa: State, sb: State, offer: Payload, answer: Payload)
    requires b !in sa.registry.conns && a !in sb.registry.conns
    ensures
      var sb1 := Process(sb, Signal("init", a, None), Resolving(Some(offer)));
      |sb1.outbox| == |sb.outbox| + 1 &&
      sb1.outbox[|sb.outbox|] == Envelope(Offer, a, offer) &&
      var sa1 := Process(sa, Relay(b, sb1.outbox[|sb.outbox|]), Resolving(Some(answer)));
      |sa1.outbox| == |sa.outbox| + 1 &&
      sa1.outbox[|sa.outbox|] == Envelope(Answer, b, answer) &&
      var sb2 := Process(sb1, Relay(a, sa1.outbox[|sa.outbox|]), Resolving(None));
      sb2.outbox == sb1.outbox &&
      sa1.registry.conns.Keys == sa.registry.conns.Keys + {b} &&
      sb2.registry.conns.Keys == sb.registry.conns.Keys + {a} &&
      sa1.registry.conns[b].local == Some(answer) && sa1.registry.conns[b].remote == Some(offer) &&
      sb2.registry.conns[a].local == Some(offer) && sb2.registry.conns[a].remote == Some(answer)
  {
  }
}

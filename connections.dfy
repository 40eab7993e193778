/** The `connections` registry of main.js: one RTCPeerConnection per peer id,
    created on first reference and deleted on logout. */
module Connections {
  import opened Types

  /** An RTCPeerConnection reduced to what the client observes of it.
      `serial` stands for the object's identity (every `new RTCPeerConnection`
      is a distinct object); `tracks` are the local tracks given to addTrack,
      in call order; `local` and `remote` are the committed descriptions;
      `candidates` the remote ICE candidates accepted by addIceCandidate. */
  datatype Conn = Conn(
    serial: nat,
    tracks: seq<TrackId>,
    local: Option<Payload>,
    remote: Option<Payload>,
    candidates: seq<Payload>)
  {
    /** Both descriptions are committed: the negotiation is stable. */
    predicate Stable() {
      local.Some? && remote.Some?
    }
  }

  /** The registry: the `connections` object and a counter that numbers the
      connection objects the page has created so far. */
  datatype Registry = Registry(conns: map<PeerId, Conn>, nextSerial: nat)

  /** The registry's entry for `p`, if any. */
  function Get(reg: Registry, p: PeerId): Option<Conn> {
    if p in reg.conns then Some(reg.conns[p]) else None
  }

  /** Every stored connection was created earlier than the counter says, and
      no connection object is stored under two peer ids. */
  ghost predicate Valid(reg: Registry) {
    (forall p :: p in reg.conns ==> reg.conns[p].serial < reg.nextSerial) &&
    (forall p, q :: p in reg.conns && q in reg.conns && p != q ==>
       reg.conns[p].serial != reg.conns[q].serial)
  }

  /** The empty registry the page starts with. */
  function Empty(): (reg: Registry)
    ensures Valid(reg) && forall p :: Get(reg, p) == None
  {
    Registry(map[], 0)
  }

  /** The same connection object with its negotiation state possibly advanced:
      identity and attached tracks do not change after creation. */
  predicate SameObject(c: Conn, d: Conn) {
    c.serial == d.serial && c.tracks == d.tracks
  }

  /** `connection.addTrack(track, localStream)`. */
  function AddTrack(c: Conn, t: TrackId): (d: Conn)
    ensures d.tracks == c.tracks + [t] && d.serial == c.serial
    ensures d.local == c.local && d.remote == c.remote && d.candidates == c.candidates
  {
    c.(tracks := c.tracks + [t])
  }

  /** A new RTCPeerConnection numbered `serial`, with `localStream.getTracks()`
      added one by one by the forEach loop. */
  method AttachTracks(serial: nat, localTracks: seq<TrackId>) returns (c: Conn)
    ensures c.serial == serial && c.tracks == localTracks
    ensures c.local == None && c.remote == None && c.candidates == []
  {
    c := Conn(serial, [], None, None, []);
    for i := 0 to |localTracks|
      invariant c == Conn(serial, localTracks[..i], None, None, [])
    {
      c := AddTrack(c, localTracks[i]);
    }
  }

  /** getRTCPeerConnectionObject(uuid): the stored connection if there is one,
      otherwise a new connection carrying every local track once, in order,
      which is stored under `uuid`. */
  function GetOrCreate(reg: Registry, uuid: PeerId, localTracks: seq<TrackId>): (r: (Registry, Conn))
    ensures uuid in r.0.conns && r.0.conns[uuid] == r.1
    ensures uuid in reg.conns ==> r.0 == reg && r.1 == reg.conns[uuid]
    ensures uuid !in reg.conns ==>
      r.1.serial == reg.nextSerial && r.0.nextSerial == reg.nextSerial + 1 &&
      r.1.tracks == localTracks && r.1.local == None && r.1.remote == None && r.1.candidates == []
    ensures forall p :: p != uuid ==> Get(r.0, p) == Get(reg, p)
    ensures Valid(reg) ==> Valid(r.0)
  {
    if uuid in reg.conns then
      (reg, reg.conns[uuid])
    else
      var c := Conn(reg.nextSerial, localTracks, None, None, []);
      (Registry(reg.conns[uuid := c], reg.nextSerial + 1), c)
  }

  /** Stores an advanced state of the connection already registered for `uuid`. */
  function Put(reg: Registry, uuid: PeerId, c: Conn): (r: Registry)
    requires uuid in reg.conns && SameObject(reg.conns[uuid], c)
    ensures Get(r, uuid) == Some(c)
    ensures forall p :: p != uuid ==> Get(r, p) == Get(reg, p)
    ensures Valid(reg) ==> Valid(r)
  {
    Registry(reg.conns[uuid := c], reg.nextSerial)
  }

  /** `delete connections[uuid]`: removes the entry, if any, and nothing else. */
  function Remove(reg: Registry, uuid: PeerId): (r: Registry)
    ensures r.conns.Keys == reg.conns.Keys - {uuid}
    ensures forall p :: p != uuid ==> Get(r, p) == Get(reg, p)
    ensures r.nextSerial == reg.nextSerial
    ensures Valid(reg) ==> Valid(r)
  {
    Registry(reg.conns - {uuid}, reg.nextSerial)
  }

  /** Deleting an absent entry changes nothing, so a second delete is a no-op. */
  lemma RemoveIdempotent(reg: Registry, uuid: PeerId)
    ensures Remove(Remove(reg, uuid), uuid) == Remove(reg, uuid)
    ensures uuid !in reg.conns ==> Remove(reg, uuid) == reg
  {
    assert Remove(reg, uuid).conns - {uuid} == reg.conns - {uuid};
    if uuid !in reg.conns {
      assert reg.conns - {uuid} == reg.conns;
    }
  }

  /** After a peer's entry is deleted, looking the peer up again yields a
      brand-new connection: a different object from every connection the
      registry held before, with nothing negotiated yet. */
  lemma RecreatedIsNew(reg: Registry, uuid: PeerId, localTracks: seq<TrackId>)
    requires Valid(reg) && uuid in reg.conns
    ensures var c := GetOrCreate(Remove(reg, uuid), uuid, localTracks).1;
      (forall p :: p in reg.conns ==> c.serial != reg.conns[p].serial) &&
      c.tracks == localTracks && c.local == None && c.remote == None && c.candidates == []
  {
  }
}

/** Values shared by every part of the signalling client. Peer ids, payloads,
    tracks and streams are opaque handles: the model never looks inside them. */
module Types {

  datatype Option<+T> = None | Some(value: T)

  /** Identifier of a remote participant, as the signalling server sends it. */
  type PeerId = string

  /** A session description or an ICE candidate, passed through verbatim. */
  type Payload = string

  /** One track of the local media stream (localStream.getTracks()). */
  type TrackId = nat

  /** A remote media stream (event.streams[0] of an ontrack event). */
  type StreamId = nat
}

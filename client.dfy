/** The page itself: the global variables of main.js as the fields of one
    object, and its functions as methods that update them in place. Each
    method is proved to move the page exactly as the corresponding function
    of Signaling moves a State. */
module Client {
  import opened Types
  import opened Connections
  import opened Focus
  import opened Signaling
  import opened Lifecycle

  class Page {
    /** `connections` */
    var connections: map<PeerId, Conn>
    /** How many RTCPeerConnection objects the page has created. */
    var created: nat
    /** `uuidInBig` */
    var uuidInBig: Option<PeerId>
    /** `remoteView.srcObject` */
    var remoteView: Option<StreamId>
    /** The children of `remoteVideosContainer`. */
    var container: seq<View>
    /** Every envelope passed to sendMessage, in order. */
    var sent: seq<Envelope>
    /** `localStream.getTracks()` */
    const localTracks: seq<TrackId>

    /** The page as a State value. */
    function Snapshot(): State
      reads this
    {
      State(Registry(connections, created), Screen(uuidInBig, remoteView, container), sent, localTracks)
    }

    constructor (tracks: seq<TrackId>)
      ensures Snapshot() == Initial(tracks) && Inv(Snapshot())
    {
      connections, created := map[], 0;
      uuidInBig, remoteView, container := None, None, [];
      sent := [];
      localTracks := tracks;
      new;
      InitialInv(tracks);
    }

    /** sendMessage: the envelope is appended to what has been sent. */
    method SendMessage(e: Envelope)
      modifies this
      ensures Snapshot() == old(Snapshot()).(outbox := old(sent) + [e])
    {
      sent := sent + [e];
    }

    /** getRTCPeerConnectionObject */
    method GetRTCPeerConnectionObject(uuid: PeerId) returns (connection: Conn)
      modifies this
      ensures (Snapshot(), connection) == Lookup(old(Snapshot()), uuid)
    {
      if uuid in connections {
        return connections[uuid];
      }
      connection := AttachTracks(created, localTracks);
      created := created + 1;
      connections := connections[uuid := connection];
    }

    /** handleInit */
    method HandleInit(signal: Signal, o: Outcomes)
      modifies this
      ensures Snapshot() == Signaling.HandleInit(old(Snapshot()), signal.sender, o)
    {
      var peerId := signal.sender;
      var connection := GetRTCPeerConnectionObject(peerId);
      if o.created.Some? && o.setLocalOk {
        connection := connection.(local := o.created);
        connections := connections[peerId := connection];
        SendMessage(Envelope(Offer, peerId, connection.local.value));
      }
    }

    /** handleLogout */
    method HandleLogout(signal: Signal)
      modifies this
      ensures Snapshot() == Signaling.HandleLogout(old(Snapshot()), signal.sender)
    {
      var peerId := signal.sender;
      if uuidInBig == Some(peerId) {
        remoteView := None;
      }
      connections := connections - {peerId};
      var videoElement := FirstView(container, peerId);
      if videoElement.Some? {
        container := container[..videoElement.value] + container[videoElement.value + 1..];
      }
    }

    /** handleOffer */
    method HandleOffer(signal: Signal, o: Outcomes)
      modifies this
      ensures Snapshot() == Signaling.HandleOffer(old(Snapshot()), signal.sender, signal.data, o)
    {
      var peerId := signal.sender;
      var connection := GetRTCPeerConnectionObject(peerId);
      if signal.data.Some? && o.setRemoteOk {
        connection := connection.(remote := signal.data);
        connections := connections[peerId := connection];
        if o.created.Some? && o.setLocalOk {
          connection := connection.(local := o.created);
          connections := connections[peerId := connection];
          SendMessage(Envelope(Answer, peerId, connection.local.value));
        }
      }
    }

    /** handleAnswer */
    method HandleAnswer(signal: Signal, o: Outcomes)
      modifies this
      ensures Snapshot() == Signaling.HandleAnswer(old(Snapshot()), signal.sender, signal.data, o)
    {
      var connection := GetRTCPeerConnectionObject(signal.sender);
      if signal.data.Some? && o.setRemoteOk {
        connections := connections[signal.sender := connection.(remote := signal.data)];
      }
    }

    /** handleIce */
    method HandleIce(signal: Signal, o: Outcomes)
      modifies this
      ensures Snapshot() == Signaling.HandleIce(old(Snapshot()), signal.sender, signal.data, o)
    {
      if signal.data.Some? {
        var connection := GetRTCPeerConnectionObject(signal.sender);
        if o.addIceOk {
          connections := connections[signal.sender := connection.(candidates := connection.candidates + [signal.data.value])];
        }
      }
    }

    /** processWsMessage */
    method ProcessWsMessage(signal: Signal, o: Outcomes)
      modifies this
      ensures Snapshot() == Process(old(Snapshot()), signal, o)
      ensures Inv(old(Snapshot())) ==> Inv(Snapshot())
    {
      ghost var before := Snapshot();
      if Inv(before) {
        StepKeepsInv(before, Message(signal, o));
      }
      if signal.kind == "init" {
        HandleInit(signal, o);
      } else if signal.kind == "logout" {
        HandleLogout(signal);
      } else if signal.kind == "offer" {
        HandleOffer(signal, o);
      } else if signal.kind == "answer" {
        HandleAnswer(signal, o);
      } else if signal.kind == "ice" {
        HandleIce(signal, o);
      }
    }

    /** connection.onicecandidate for the connection created for `uuid` */
    method OnIceCandidate(uuid: PeerId, candidate: Option<Payload>)
      modifies this
      ensures Snapshot() == Signaling.OnIceCandidate(old(Snapshot()), uuid, candidate)
    {
      if candidate.Some? {
        SendMessage(Envelope(Ice, uuid, candidate.value));
      }
    }

    /** setBigVideo */
    method SetBigVideo(uuid: PeerId)
      requires FirstView(container, uuid).Some?
      modifies this
      ensures Snapshot() == old(Snapshot()).(screen := Focus.SetBigVideo(old(Snapshot()).screen, uuid))
      ensures Inv(old(Snapshot())) ==> Inv(Snapshot())
    {
      ghost var before := Snapshot();
      if Inv(before) {
        SetBigVideoKeepsInv(before.screen, uuid);
      }
      var element := FirstView(container, uuid).value;
      remoteView := Some(container[element].stream);
      if uuidInBig.Some? && uuidInBig.value != "" {
        var previous := FirstView(container, uuidInBig.value);
        if previous.Some? {
          container := container[previous.value := container[previous.value].(active := false)];
        }
      }
      container := container[element := container[element].(active := true)];
      uuidInBig := Some(uuid);
    }

    /** connection.ontrack for the connection created for `uuid` */
    method OnTrack(uuid: PeerId, stream: StreamId)
      modifies this
      ensures Snapshot() == Signaling.OnTrack(old(Snapshot()), uuid, stream)
      ensures Inv(old(Snapshot())) ==> Inv(Snapshot())
    {
      ghost var before := Snapshot();
      if Inv(before) {
        StepKeepsInv(before, TrackArrived(uuid, stream));
      }
      container := container + [View(uuid, stream, false)];
      // setBigVideo("") throws at getElementById(""), after the append
      if remoteView.None? && uuid != "" {
        FirstViewAppend(before.screen.views, View(uuid, stream, false), uuid);
        SetBigVideo(uuid);
      }
    }
  }
}

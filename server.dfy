/**
 * The signalling server's coordination state (src/server.ts, `listen`).
 *
 * Two dictionaries are shared by every connection's handlers: `peers` maps
 * a peer's uuid to its socket and `channels` maps a channel's uuid to the
 * ordered pair of participant uuids. A connection that sends `register`
 * receives a uuid and, from then on, has handlers for `create_channel`,
 * `send_message` and `disconnect` that close over that uuid and socket; in
 * this model the captured uuid and socket are the handlers' first two
 * parameters. Each handler runs to completion and returns the events it
 * emits, in order, instead of writing to sockets.
 */
module Server {
  import opened Shared
  import opened FreshIds

  /** A socket.io connection, known only by identity. */
  type Socket(==)

  /** `interface Peer` of src/server.ts. */
  datatype Peer = Peer(socket: Socket)

  /** `interface Channel` of src/server.ts: (inducer uuid, target uuid). */
  datatype Channel = Channel(participants: (string, string))

  /** What an emitted event carries. */
  datatype Payload =
    | Uuid(uuid: string)                  // { uuid } of registered / channel_created / new_channel
    | Text(text: string)                  // a bare string
    | Error(error: SignalError)           // createError(kind, message)
    | Message(channelUuid: string, event: JsValue, payload: JsValue)

  /** `socket.emit(event, payload)`: one outbound event. */
  datatype Emission = Emission(to: Socket, event: string, payload: Payload)

  /** The destructured argument of `send_message`. */
  datatype SendRequest = SendRequest(channelUuid: string, event: JsValue, payload: JsValue)

  function CreateNoSuchPeerText(targetUuid: string): string
  {
    "no such peer with uuid '" + targetUuid + "'"
  }

  function NoSuchChannelText(channelUuid: string): string
  {
    "no such channel with uuid '" + channelUuid + "'"
  }

  const InvalidMessageText: string := "message must have 'event' and 'payload'"

  /** In `send_message` the uuid is not quoted. */
  function SendNoSuchPeerText(targetUuid: string): string
  {
    "no such peer with uuid " + targetUuid
  }

  /**
   * The peer a message is routed to: the second participant when the sender
   * is the first one, and the first participant otherwise -- also when the
   * sender is not a participant at all.
   */
  function Recipient(participants: (string, string), sender: string): (r: string)
    ensures r == participants.0 || r == participants.1
    ensures sender == participants.0 ==> r == participants.1
    ensures sender == participants.1 && participants.0 != participants.1 ==> r == participants.0
    ensures sender != participants.0 && sender != participants.1 ==> r == participants.0
    ensures participants.0 != participants.1 && (sender == participants.0 || sender == participants.1)
            ==> r != sender
  {
    if participants.0 == sender then participants.1 else participants.0
  }

  class SignalServer {
    var peers: map<string, Peer>
    var channels: map<string, Channel>

    constructor ()
      ensures peers == map[] && channels == map[]
    {
      peers := map[];
      channels := map[];
    }

    /**
     * `register`: draw uuids until one is not a live peer's, bind it to the
     * socket and tell the socket its uuid. Nothing stops a socket that has
     * registered before from registering again under a second uuid.
     */
    method Register(socket: Socket, draws: seq<string>) returns (inducerUuid: string, out: seq<Emission>)
      requires HasFresh(draws, peers.Keys)
      modifies this`peers
      ensures inducerUuid !in old(peers)
      ensures inducerUuid == draws[FirstFreshIndex(draws, old(peers).Keys)]
      ensures peers == old(peers)[inducerUuid := Peer(socket)]
      ensures channels == old(channels)
      ensures out == [Emission(socket, "registered", Uuid(inducerUuid))]
    {
      inducerUuid := DrawFresh(draws, peers.Keys);
      peers := peers[inducerUuid := Peer(socket)];
      out := [Emission(socket, "registered", Uuid(inducerUuid))];
    }

    /**
     * `create_channel`: when the target uuid is unknown, `no_such_peer` is
     * emitted (a bare string, not an `error` event) and, because the handler
     * does not return, destructuring the missing peer throws a TypeError
     * before anything changes. Otherwise a channel under a fresh uuid is
     * added with participants (inducer, target) -- the same pair may already
     * have channels -- and both sides are told its uuid.
     */
    method CreateChannel(inducerUuid: string, inducerSocket: Socket, targetUuid: string, draws: seq<string>)
      returns (out: seq<Emission>, outcome: Outcome)
      requires targetUuid in peers ==> HasFresh(draws, channels.Keys)
      modifies this`channels
      ensures peers == old(peers)
      ensures targetUuid !in old(peers) ==>
        && channels == old(channels)
        && outcome == Threw(TypeError)
        && out == [Emission(inducerSocket, "no_such_peer", Text(CreateNoSuchPeerText(targetUuid)))]
      ensures targetUuid in old(peers) ==>
        var channelUuid := draws[FirstFreshIndex(draws, old(channels).Keys)];
        && channelUuid !in old(channels)
        && channels == old(channels)[channelUuid := Channel((inducerUuid, targetUuid))]
        && outcome == Returned
        && out == [Emission(inducerSocket, "channel_created", Uuid(channelUuid)),
                   Emission(peers[targetUuid].socket, "new_channel", Uuid(channelUuid))]
    {
      out := [];
      if targetUuid !in peers {
        out := out + [Emission(inducerSocket, "no_such_peer", Text(CreateNoSuchPeerText(targetUuid)))];
        // `const { socket: targetSocket } = peers[targetUuid]` on undefined
        outcome := Threw(TypeError);
        return;
      }
      var targetSocket := peers[targetUuid].socket;
      var channelUuid := DrawFresh(draws, channels.Keys);
      channels := channels[channelUuid := Channel((inducerUuid, targetUuid))];
      out := out + [Emission(inducerSocket, "channel_created", Uuid(channelUuid))];
      out := out + [Emission(targetSocket, "new_channel", Uuid(channelUuid))];
      outcome := Returned;
    }

    /**
     * `send_message`: the channel must exist, then `event` and `payload`
     * must both be truthy, then the recipient (see `Recipient`) must still be
     * registered; the first check that fails is reported to the sender and
     * nothing is delivered. Otherwise the message goes, unchanged, to the
     * recipient. Neither dictionary changes. The sender is not required to
     * be a participant.
     */
    method SendMessage(inducerUuid: string, inducerSocket: Socket, request: SendRequest)
      returns (out: seq<Emission>)
      ensures |out| == 1
      ensures request.channelUuid !in channels ==>
        out == [Emission(inducerSocket, "error",
                         Error(SignalError(NoSuchChannel, NoSuchChannelText(request.channelUuid))))]
      ensures request.channelUuid in channels && !(Truthy(request.event) && Truthy(request.payload)) ==>
        out == [Emission(inducerSocket, "error", Error(SignalError(InvalidMessage, InvalidMessageText)))]
      ensures request.channelUuid in channels && Truthy(request.event) && Truthy(request.payload) ==>
        var targetUuid := Recipient(channels[request.channelUuid].participants, inducerUuid);
        && (targetUuid !in peers ==>
              out == [Emission(inducerSocket, "error",
                               Error(SignalError(NoSuchPeer, SendNoSuchPeerText(targetUuid))))])
        && (targetUuid in peers ==>
              out == [Emission(peers[targetUuid].socket, "get_message",
                               Message(request.channelUuid, request.event, request.payload))])
      ensures out[0].event == "get_message" <==>
        && request.channelUuid in channels
        && Truthy(request.event) && Truthy(request.payload)
        && Recipient(channels[request.channelUuid].participants, inducerUuid) in peers
      ensures out[0].event != "get_message" ==> out[0].to == inducerSocket && out[0].payload.Error?
    {
      if request.channelUuid !in channels {
        out := [Emission(inducerSocket, "error",
                         Error(SignalError(NoSuchChannel, NoSuchChannelText(request.channelUuid))))];
        return;
      }
      var channel := channels[request.channelUuid];
      if !Truthy(request.event) || !Truthy(request.payload) {
        out := [Emission(inducerSocket, "error", Error(SignalError(InvalidMessage, InvalidMessageText)))];
        return;
      }
      var participants := channel.participants;
      var targetUuid := if participants.0 == inducerUuid then participants.1 else participants.0;
      if targetUuid !in peers {
        out := [Emission(inducerSocket, "error",
                         Error(SignalError(NoSuchPeer, SendNoSuchPeerText(targetUuid))))];
        return;
      }
      var targetSocket := peers[targetUuid].socket;
      out := [Emission(targetSocket, "get_message",
                       Message(request.channelUuid, request.event, request.payload))];
    }

    /**
     * `disconnect`: forget the peer's binding. Channels that name it stay,
     * so repeating the call changes nothing.
     */
    method Disconnect(inducerUuid: string)
      modifies this`peers
      ensures peers == old(peers) - {inducerUuid}
      ensures inducerUuid !in peers
      ensures forall id :: id in old(peers) && id != inducerUuid ==> id in peers && peers[id] == old(peers)[id]
      ensures inducerUuid !in old(peers) ==> peers == old(peers)
      ensures channels == old(channels)
    {
      peers := peers - {inducerUuid};
    }
  }
}

/**
 * Call sequences on a new server, with their outcomes proved, that show
 * what the handlers of src/server.ts do when they are combined: a socket
 * can hold two uuids, a pair can have two channels, a message can be sent
 * by a peer outside the channel, and a channel outlives a participant who
 * disconnected. The random uuids are given as draws.
 */
module Scenarios {
  import opened Shared
  import opened FreshIds
  import opened Server

  /** A socket that registers twice is bound under two different uuids. */
  method ReRegistration(socket: Socket, draws1: seq<string>, draws2: seq<string>)
    returns (first: string, second: string, bound: map<string, Peer>)
    requires |draws1| > 0
    requires |draws2| >= 2 && draws2[0] != draws2[1]
    ensures first != second
    ensures bound == map[first := Peer(socket), second := Peer(socket)]
  {
    var server := new SignalServer();
    var out;
    HasFreshAt(draws1, server.peers.Keys, 0);
    first, out := server.Register(socket, draws1);
    assert HasFresh(draws2, server.peers.Keys) by {
      if draws2[0] in server.peers.Keys {
        assert draws2[1] !in server.peers.Keys;
      }
    }
    second, out := server.Register(socket, draws2);
    bound := server.peers;
  }

  /** Two `create_channel` calls for the same pair give two channels. */
  method DuplicateChannels(inducer: Socket, target: Socket)
    returns (channels: map<string, Channel>)
    ensures channels == map["c1" := Channel(("a", "b")), "c2" := Channel(("a", "b"))]
  {
    var server := new SignalServer();
    var a, b, out, outcome;
    HasFreshAt(["a"], server.peers.Keys, 0);
    a, out := server.Register(inducer, ["a"]);
    HasFreshAt(["a", "b"], server.peers.Keys, 1);
    b, out := server.Register(target, ["a", "b"]);
    HasFreshAt(["c1"], server.channels.Keys, 0);
    out, outcome := server.CreateChannel(a, inducer, b, ["c1"]);
    HasFreshAt(["c1", "c2"], server.channels.Keys, 1);
    out, outcome := server.CreateChannel(a, inducer, b, ["c1", "c2"]);
    channels := server.channels;
  }

  /**
   * A peer that is not in a channel can still send on it; the message goes
   * to the channel's first participant.
   */
  method OutsiderSends(inducer: Socket, target: Socket, outsider: Socket, event: JsValue, payload: JsValue)
    returns (out: seq<Emission>)
    requires Truthy(event) && Truthy(payload)
    ensures out == [Emission(inducer, "get_message", Message("c1", event, payload))]
  {
    var server := new SignalServer();
    var a, b, c, registered, outcome;
    HasFreshAt(["a"], server.peers.Keys, 0);
    a, registered := server.Register(inducer, ["a"]);
    HasFreshAt(["b"], server.peers.Keys, 0);
    b, registered := server.Register(target, ["b"]);
    HasFreshAt(["c"], server.peers.Keys, 0);
    c, registered := server.Register(outsider, ["c"]);
    HasFreshAt(["c1"], server.channels.Keys, 0);
    registered, outcome := server.CreateChannel(a, inducer, b, ["c1"]);
    out := server.SendMessage(c, outsider, SendRequest("c1", event, payload));
  }

  /**
   * After the target disconnects its channel is still there, so a message
   * on it reaches the recipient check and the sender gets `no_such_peer`.
   */
  method OrphanedChannel(inducer: Socket, target: Socket, event: JsValue, payload: JsValue)
    returns (out: seq<Emission>, channels: map<string, Channel>)
    requires Truthy(event) && Truthy(payload)
    ensures channels == map["c1" := Channel(("a", "b"))]
    ensures out == [Emission(inducer, "error", Error(SignalError(NoSuchPeer, SendNoSuchPeerText("b"))))]
  {
    var server := new SignalServer();
    var a, b, registered, outcome;
    HasFreshAt(["a"], server.peers.Keys, 0);
    a, registered := server.Register(inducer, ["a"]);
    HasFreshAt(["b"], server.peers.Keys, 0);
    b, registered := server.Register(target, ["b"]);
    HasFreshAt(["c1"], server.channels.Keys, 0);
    registered, outcome := server.CreateChannel(a, inducer, b, ["c1"]);
    server.Disconnect(b);
    out := server.SendMessage(a, inducer, SendRequest("c1", event, payload));
    channels := server.channels;
  }
}

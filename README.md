# wesync-signal: signalling server and peer listener registry in Dafny

This project models the in-memory coordination of the wesync-signal
signalling server (`src/server.ts`). It also models the listener registry
and the port formatting of its client (`src/peer.ts`).

The server keeps two dictionaries that every connection's handlers share:

- `peers` maps a peer uuid to its socket.
- `channels` maps a channel uuid to the ordered pair (inducer uuid, target uuid).

A socket that sends `register` gets a fresh uuid. From then on it has
handlers for `create_channel`, `send_message` and `disconnect`, and each of
them closes over that uuid and socket. In the model, `Server.SignalServer`
holds the two dictionaries as `map` fields. Each handler is a method that
takes the captured uuid and socket as its first parameters, updates the
fields in place, and returns the list of `(socket, event, payload)` emissions
instead of writing to sockets. Random uuids come from `uuid/v4`. Here they
are an input sequence `draws`, and the handlers' do-while loops
(`FreshIds.DrawFresh`) walk that sequence until they reach a candidate that
is not yet a key.

On the client, `Peer.prototype.on` and `removeListener` overwrite
`_peerListeners[event]` with `R.append` or `R.without` of the old list. The
model is the class `PeerClient.Peer` with a `map<string, seq<L>>` field,
where `L` is the listener type, compared by identity as Ramda compares
functions. `stringifyMaybePort` is a pure function.

Files:

- `shared.dfy`: error kinds, the error record, JavaScript values and their truthiness.
- `fresh_id.dfy`: the fresh-id draw loop.
- `server.dfy`: the server class and its four handlers.
- `peer.dfy`: the listener registry and `stringifyMaybePort`.
- `scenarios.dfy`: call sequences on a new server, with their outcomes proved, that show how the handlers behave together.

The model follows the code, including these behaviours:

- Channel uuids are random. They are not derived from the participant pair, and one pair can have several channels.
- There is no pending/accepted/rejected/ready negotiation and no buffering. A valid message is forwarded at once.
- `disconnect` removes only the peer. Its channels stay, so a channel can name a peer that is gone.
- A second `register` from the same socket is not rejected. The socket gets a second uuid.
- The events are named `create_channel`, `channel_created`, `new_channel` and `get_message`. A missing target in `create_channel` is reported as a `no_such_peer` event with a string payload, not as an `error` event.
- `send_message` does not check that the sender is a participant.
- `send_message` requires `payload` to be truthy, not only `event`.

## Model

| member | source | states |
|---|---|---|
| Shared.ErrorTypeName | src/types/shared.ts:4-12 | each of the eight error kinds has its non-empty snake_case literal as wire name; the round-trip lemmas below show the names are distinct |
| Shared.Truthy | src/server.ts:88 | a request value fails the `!event \|\| !payload` test exactly when it is undefined, null, false, 0, NaN or the empty string |
| Shared.ParseErrorType | src/types/shared.ts:4-12 | a string is read as an error kind only if it is exactly that kind's wire name |
| Shared.ErrorTypeNameRoundTrip | src/types/shared.ts:4-12 | every error kind's wire name reads back as that same kind |
| Shared.ErrorTypeNameInjective | src/types/shared.ts:4-12 | two error kinds share a wire name only if they are the same kind |
| FreshIds.FirstFreshIndex | src/server.ts:54-56 | when some candidate is free, the first free candidate is at a valid position, is not taken, and every earlier candidate is taken |
| FreshIds.DrawFresh | src/server.ts:54-56 | the do-while draw loop returns an id that is not taken, namely the first free candidate |
| Server.Recipient | src/server.ts:91-92 | the recipient is one of the two participants: the second if the sender is the first, otherwise the first, even for a sender outside the channel; with two distinct participants, a participant never receives its own message |
| Server.SignalServer.constructor | src/server.ts:44-45 | a new server starts with no peers and no channels |
| Server.SignalServer.Register | src/server.ts:53-57 | the new uuid was no live peer's; it is the first free draw; `peers` gains exactly that binding to the socket; `channels` is unchanged; exactly one `registered` event carrying that uuid goes to the socket (line 109) |
| Server.SignalServer.CreateChannel | src/server.ts:62-78 | an unknown target yields one `no_such_peer` string event to the inducer and a TypeError, and both dictionaries stay unchanged; a known target adds exactly one channel under a previously unused uuid with participants (inducer, target), other channels and `peers` are unchanged, and `channel_created` goes to the inducer and `new_channel` to the target, both carrying the channel uuid |
| Server.SignalServer.SendMessage | src/server.ts:83-99 | the dictionaries are never changed; exactly one event is emitted; an unknown channel gives `no_such_channel`, checked before the message fields; then a falsy `event` or `payload` gives `invalid_message`; then an unregistered recipient gives `no_such_peer`; every error goes to the sender; otherwise `get_message` goes to the recipient with channel uuid, event and payload unchanged; delivery happens exactly when all three checks pass |
| Server.SignalServer.Disconnect | src/server.ts:104-106 | removes only the caller's binding, keeps every other binding and every channel, and is a no-op when the uuid is already gone |
| PeerClient.IsPeerEvent | src/peer.ts:39 | `on` and `removeListener` accept an event name exactly when it is the name of a member of the `PeerEvent` union (`error`, `channel`); every other string is rejected |
| PeerClient.Append | src/peer.ts:43 | the new list is the old list followed by exactly the new listener |
| PeerClient.Without | src/peer.ts:51 | the listener no longer occurs, and every other listener occurs as many times as before |
| PeerClient.WithoutKeepsOrder | src/peer.ts:51 | the surviving listeners keep their relative order |
| PeerClient.WithoutAbsent | src/peer.ts:51 | removing a listener that is not present leaves the list unchanged |
| PeerClient.WithoutIdempotent | src/peer.ts:51 | removing a listener twice gives the same list as removing it once |
| PeerClient.WithoutConcat | src/peer.ts:51 | removal from a concatenation is the concatenation of the removals |
| PeerClient.WithoutUndoesAppend | src/peer.ts:43-51 | removing a listener after adding it removes every copy, and gives back the original list when the listener was not there before |
| PeerClient.Peer.On | src/peer.ts:38-44 | an event other than `error` or `channel` throws `no such event` and leaves the map unchanged; otherwise the listener is appended to that event's list and the other event's list is unchanged |
| PeerClient.Peer.RemoveListener | src/peer.ts:46-52 | an invalid event throws and leaves the map unchanged; otherwise every occurrence of the listener is removed from that event's list and the other event's list is unchanged |
| PeerClient.DecimalString | src/peer.ts:70 | the decimal rendering of a port is a non-empty string of digits that starts with `0` only for zero |
| PeerClient.DecimalRoundTrip | src/peer.ts:70 | reading the decimal rendering back gives the number |
| PeerClient.StringifyMaybePort | src/peer.ts:68-72 | an absent port gives the empty string; a port gives `:` followed by digits that denote the port, with no leading zero |
| PeerClient.StringifyMaybePortInjective | src/peer.ts:68-72 | two optional ports give the same string exactly when they are equal |
| Scenarios.ReRegistration | src/server.ts:52-57 | a socket that registers twice is bound under two different uuids |
| Scenarios.DuplicateChannels | src/server.ts:67-73 | two `create_channel` calls for the same pair leave two channels with the same participants |
| Scenarios.OutsiderSends | src/server.ts:91-98 | a registered peer outside a channel can send on it, and the message reaches the channel's first participant |
| Scenarios.OrphanedChannel | src/server.ts:93-106 | after the target disconnects, its channel remains, and a message on it gets `no_such_peer` back with nothing delivered |

## Left out

- HTTP server creation, the socket.io wiring, `httpServer.listen` and the log line (`src/server.ts:43`, `:47`, `:113-115`). These are transport I/O. Sockets are opaque handles and emits are returned records.
- `uuid/v4` is a foreign random generator. Its outputs are the `draws` parameter. `HasFresh` assumes that some draw is free, because the real loop terminates only with probability one.
- socket.io calls every handler that a socket registered. A socket that registered twice therefore runs each handler once per uuid. The model has one method call per handler invocation and does not model that fan-out.
- Server.SignalServer.SendMessage: `createError` is imported from `./utils`, but `src/utils.ts` does not define it. As written, each of the three error paths would then throw a TypeError (`createError is not a function`) and emit nothing. The model gives the evidently intended `error` emission, building the `{ type, message }` record of `src/types/shared.ts`.
- Server.SignalServer.CreateChannel: the TypeError thrown for an unknown target is an outcome value. What socket.io or Node then do with an uncaught exception is not modelled.
- Plain objects used as dictionaries also see inherited keys such as `toString`. The model's maps contain only the keys that were inserted.
- Server.SignalServer.CreateChannel and Server.SignalServer.SendMessage: both handlers destructure their argument (`src/server.ts:62`, `:83`). A request sent with no argument or with `null` throws a TypeError before any check and emits nothing; the model's typed parameters (`targetUuid: string`, `SendRequest`) do not include such requests.
- Server.SignalServer.CreateChannel: a `uuid` that is not a string is looked up as a converted key but stored unconverted as a participant (`src/server.ts:72`). The model takes a string.
- Server.SignalServer.SendMessage: a `channelUuid` that is not a string would be converted to a string key. The model takes a string.
- JavaScript numbers are reals, with NaN as a separate case.
- PeerClient.StringifyMaybePort: ports are natural numbers. `typeof port === 'number'` also holds for fractional and negative numbers, `Infinity` and `NaN` (rendered as `:Infinity` and `:NaN`), and integers from 10^21 up render in exponent notation (`:1e+21`). The model's decimal rendering matches the source only for integers below 10^21.
- The pending/accepted/rejected/ready negotiation and the message buffer exist only as a type (`src/types/server.ts:11-12`). No handler implements them.
- The `Peer` constructor, its connection promise and `openChannel` are socket I/O, and `openChannel` is a stub. `PeerClient.Peer.constructor` only installs a given listener map, because the real constructor never initialises `_peerListeners`. `Valid` requires both event lists to be present.
- `bind` in `src/utils.ts`, `fuse.js`, the tests and the type-only files are not part of this model.

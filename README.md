# Battle.net client protocol codec, modelled in Dafny

This project models the client side of the Battle.net binary chat protocol as
declared in `CBNETProtocol` and its incoming record classes: the packet header
(the marker byte 255, a one-byte message id, a 16-bit little-endian length that
counts the whole packet), the length writer and checker, the catalog of
outbound builders, the closed code tables (message ids, CD-key check results,
chat event ids), the session fields that the logon handshake fills in one
receiver at a time, and the process-wide counter that gives each advertised
game host its unique id.

Modules, one file each:

- `Bytes` (`bytes.dfy`): byte, 16- and 32-bit unsigned types, little-endian encodings.
- `Codes` (`codes.dfy`): `Sid`, `KeyResult`, `ChatEventKind`, each with its wire code and a total decoder.
- `Framing` (`framing.dfy`): `AssignLength` (in place, on an `array<byte>`) specified by `WithLength`; `ValidateLength`; `Frame` and `Unframe`.
- `Builders` (`builders.dfy`): one `Request` variant per SEND_* builder and `Build`.
- `Parsers` (`parsers.dfy`): the receivers that do not touch the session, and the chat event, friend and clan records.
- `GameHosts` (`game_hosts.dfy`): the game host record, the id counter class and the id lemmas.
- `Session` (`session.dfy`): class `BnetProtocol` with the eleven session fields and the receivers that write them.

The model covers the declarations of `CBNETProtocol` and its record classes
in `bnetprotocol.h`; the function bodies in `bnetprotocol.cpp` are outside it.
What the declarations fix is modelled, and the rest is taken as parameters:

- How the arguments of a builder are laid out in its payload is the parameter `serialize` of `Builders.Build`.
- How a receiver reads fields out of a payload is its `decode` (or `accept`) parameter.
- How a stat string is decoded into map fields is the parameter `decodeStat`.
- The client token, which the constructor creates, is a constructor parameter.

In this model every receiver first checks the packet with `ValidateLength`,
the private length check declared beside `AssignLength`. A packet that fails it
gives the empty answer and changes no state.

In this model `ValidateLength` checks only the length field: a packet is
accepted when it is at least 4 bytes long and its third and fourth bytes hold
its own size. The marker and id bytes are left to the caller that dispatches
on them, and that caller is not part of this model. The SEND_* builders return
a packet in every case, so `Build` always returns one. When the payload is too
large for the 16-bit field, the length field is left unassigned (zero), as a
refused `AssignLength` leaves it.

## Model

| member | source | states |
|---|---|---|
| `Codes.DecodeSid` | branches/GProxyQt/libgproxy/bnetprotocol.h:38-62 | an id byte decodes to a message kind exactly when it is that kind's code; bytes outside the catalog are the code of no kind |
| `Codes.SidByte` | branches/GProxyQt/libgproxy/bnetprotocol.h:38-62 | every message id lies below 128, so no id is ever the marker byte 255 |
| `Codes.SidByteDecodes` | branches/GProxyQt/libgproxy/bnetprotocol.h:38-62 | decoding the id byte of every message kind gives that kind back (the 23 ids are one-byte values, pairwise distinct) |
| `Codes.SidByteInjective` | branches/GProxyQt/libgproxy/bnetprotocol.h:38-62 | two message kinds with the same id byte are the same kind |
| `Codes.DecodeKeyResult` | branches/GProxyQt/libgproxy/bnetprotocol.h:64-70 | a code is named exactly when it is 0, 256, 257, 513 or 529; the name's code is the input; `Good` comes from 0 and only from 0 |
| `Codes.KeyResultCode` | branches/GProxyQt/libgproxy/bnetprotocol.h:64-70 | every key result's code is one of 0, 256, 257, 513, 529, and the code is 0 exactly for `Good` |
| `Codes.KeyResultDecodes` | branches/GProxyQt/libgproxy/bnetprotocol.h:64-70 | every key result's code decodes back to that key result |
| `Codes.DecodeChatEvent` | branches/GProxyQt/libgproxy/bnetprotocol.h:72-88 | exactly the 15 listed ids (1-7, 9, 10, 13-15, 18, 19, 23) decode, each to the kind whose code it is; gap values such as 8, 11 and 16 decode to nothing |
| `Codes.ChatEventCode` | branches/GProxyQt/libgproxy/bnetprotocol.h:72-88 | every chat event kind's id is one of the fifteen listed ids, all between 1 and 23 |
| `Codes.ChatEventDecodes` | branches/GProxyQt/libgproxy/bnetprotocol.h:72-88 | every chat event kind's id decodes back to that kind |
| `Framing.WithLength` | branches/GProxyQt/libgproxy/bnetprotocol.h:166 | writing the length keeps the size, the marker, the id and the payload, and puts the packet's own size in the length field; a size outside 4..65535 leaves the packet unchanged |
| `Framing.AssignLength` | branches/GProxyQt/libgproxy/bnetprotocol.h:166 | succeeds exactly when the buffer's size fits the field, and leaves the buffer equal to `WithLength` of its old contents |
| `Framing.ValidateLength` | branches/GProxyQt/libgproxy/bnetprotocol.h:167 | a packet passes exactly when it is 4 to 65535 bytes long and its third and fourth bytes are the little-endian encoding of its size |
| `Framing.ValidIffLengthAssigned` | branches/GProxyQt/libgproxy/bnetprotocol.h:166-167 | a packet passes `ValidateLength` exactly when writing its length changes nothing; a packet whose length was written passes |
| `Framing.AssignLengthIdempotent` | branches/GProxyQt/libgproxy/bnetprotocol.h:166 | writing the length a second time changes nothing |
| `Framing.Frame` | branches/GProxyQt/libgproxy/bnetprotocol.h:28 | a framed packet starts with the header constant 255, then the id byte, is 4 bytes longer than its payload, ends with the payload, and passes the length check exactly when the payload is at most 65531 bytes; a larger payload leaves the length field zero |
| `Framing.Unframe` | branches/GProxyQt/libgproxy/bnetprotocol.h:167 | a payload is returned exactly for packets that pass the length check, and it is the packet minus its 4 header bytes |
| `Framing.FrameRoundTrip` | branches/GProxyQt/libgproxy/bnetprotocol.h:166-167 | unframing a framed payload gives the payload back when it fits, and nothing otherwise |
| `Framing.UnframeThenFrame` | branches/GProxyQt/libgproxy/bnetprotocol.h:166-167 | a packet that starts with 255 and passes the length check is exactly the frame of its id byte and its payload |
| `Framing.FramesOfDistinctKinds` | branches/GProxyQt/libgproxy/bnetprotocol.h:38-62 | frames of two different message kinds differ in their id byte |
| `Builders.SidOf` | branches/GProxyQt/libgproxy/bnetprotocol.h:142-161 | every builder produces a message kind the client sends: chat events, display ads, friend updates and clan member status changes have no builder |
| `Builders.Build` | branches/GProxyQt/libgproxy/bnetprotocol.h:142-161 | every SEND_* packet starts with 255, its id byte decodes to the builder's own message kind, and it unframes to the serialized arguments whenever they fit the length field; otherwise its length field is zero |
| `Parsers.ReceiveAck` | branches/GProxyQt/libgproxy/bnetprotocol.h:127-128 | RECEIVE_SID_CHECKAD and RECEIVE_SID_STARTADVEX3, and likewise RECEIVE_SID_NULL, RECEIVE_SID_LOGONRESPONSE and RECEIVE_SID_AUTH_ACCOUNTLOGONPROOF (lines 123, 130, 134): true exactly for a packet that passes the length check and whose payload the message's check accepts |
| `Parsers.ReceivePayload` | branches/GProxyQt/libgproxy/bnetprotocol.h:129 | RECEIVE_SID_PING, and RECEIVE_SID_WARDEN (line 135): a well-framed packet yields its payload, anything else no bytes |
| `Parsers.ReceiversOfFrame` | branches/GProxyQt/libgproxy/bnetprotocol.h:123-138 | every receiver applied to a framed payload that fits gives exactly what that payload says |
| `Parsers.ReceiveChatEvent` | branches/GProxyQt/libgproxy/bnetprotocol.h:126 | an event exists exactly when the packet is well framed, decodes, and its event id is one of the listed kinds; the event's kind has that id, and ping, user and message are the decoded ones |
| `Parsers.ReceiveList` | branches/GProxyQt/libgproxy/bnetprotocol.h:136-137 | RECEIVE_SID_FRIENDSLIST and RECEIVE_SID_CLANMEMBERLIST: a non-empty list comes only from a well-framed packet, and is then the decoded list |
| `Parsers.Parse` | branches/GProxyQt/libgproxy/bnetprotocol.h:138 | RECEIVE_SID_CLANMEMBERSTATUSCHANGE, and the decoding step of every receiver: a record comes only from a well-framed packet, and for such a packet it is exactly what the payload decodes to |
| `GameHosts.MakeHost` | branches/GProxyQt/libgproxy/bnetprotocol.h:204-226 | a host's getters give back its constructor arguments (the raw stat string unchanged) and its unique id; its map fields are the decoded ones, or the defaults when the stat string does not decode |
| `GameHosts.HostsFrom` | branches/GProxyQt/libgproxy/bnetprotocol.h:177 | a batch has one host per advertisement, in order, the i-th built from the i-th advertisement with the i-th id after the first, counted modulo 2^32 |
| `GameHosts.BatchIdsDistinct` | branches/GProxyQt/libgproxy/bnetprotocol.h:177-191 | within a batch of at most 2^32 hosts no two hosts share a unique id |
| `GameHosts.BatchIdsIncrease` | branches/GProxyQt/libgproxy/bnetprotocol.h:177-191 | when the counter does not wrap, later hosts of a batch get larger ids |
| `GameHosts.SuccessiveBatchesIncrease` | branches/GProxyQt/libgproxy/bnetprotocol.h:177-191 | when the counter does not wrap, every id of a later batch is larger than every id of an earlier one |
| `GameHosts.GameIdCounter.constructor` | branches/GProxyQt/libgproxy/bnetprotocol.h:177 | the counter starts at 1 |
| `GameHosts.GameIdCounter.NewGameHost` | branches/GProxyQt/libgproxy/bnetprotocol.h:204 | a new host takes the counter's current value as its unique id and the counter advances by one, modulo 2^32; below 2^32 - 1 it strictly increases |
| `GameHosts.GameIdCounter.NewGameHosts` | branches/GProxyQt/libgproxy/bnetprotocol.h:124 | the hosts of one advertisement list, built in a loop: exactly the batch `HostsFrom` describes from the counter's value, with the counter advanced once per host |
| `Session.KeyResultOf` | branches/GProxyQt/libgproxy/bnetprotocol.h:97 | a raw key state names a key result only when it is 4 bytes whose little-endian value is that result's code, and every listed code is named |
| `Session.BnetProtocol.constructor` | branches/GProxyQt/libgproxy/bnetprotocol.h:104 | a new session holds the given client token and every other field empty, with nothing captured |
| `Session.BnetProtocol.ReceiveAuthInfo` | branches/GProxyQt/libgproxy/bnetprotocol.h:131 | may write only logon type, server token, MPQ file time, version file name and formula; on a good reply stores exactly the decoded five, on a bad one changes nothing; succeeds exactly for a well-framed reply that decodes |
| `Session.BnetProtocol.ReceiveAuthCheck` | branches/GProxyQt/libgproxy/bnetprotocol.h:132 | may write only the key state and its description; stores the decoded pair for any well-framed reply, changes nothing for a bad one; answers true exactly when the key state is the code of `Good` |
| `Session.BnetProtocol.ReceiveAuthAccountLogon` | branches/GProxyQt/libgproxy/bnetprotocol.h:133 | may write only the salt and the server public key; stores the decoded pair exactly when the reply accepts the logon, otherwise changes nothing |
| `Session.BnetProtocol.ReceiveEnterChat` | branches/GProxyQt/libgproxy/bnetprotocol.h:125 | may write only the unique name; stores the decoded name for a good reply, changes nothing for a bad one |
| `Session.Handshake` | branches/GProxyQt/libgproxy/bnetprotocol.h:91-101 | a handshake on a fresh session (authentication info, key check, account logon, password proof, chat entry; lines 131-134 and 125) succeeds exactly when all five replies succeed in order; the client token survives every step; a failed handshake leaves no unique name, and one whose first reply fails leaves the initial state; after success each field holds exactly what its own receiver decoded |
| `Session.BnetProtocol.ReceiveGetAdvListEx` | branches/GProxyQt/libgproxy/bnetprotocol.h:124 | returns `HostsFrom` the decoded advertisements starting at the counter's value, and advances the counter once per host; a bad packet yields no hosts; the session fields are untouched |

Every receiver of `BnetProtocol` requires and keeps `Valid`: a field whose
receiver has not yet stored a value still holds its initial, empty value. It is
the class invariant of the session object, stated so that a caller holding a
session between receivers (rather than through `Handshake`, whose full-state
postconditions already imply it) can rely on it. No receiver changes the client
token.

## Left out

- SEND_PROTOCOL_INITIALIZE_SELECTOR: in this model it is read as the one-byte protocol selector sent before any framed message, not a framed message; its byte is in `bnetprotocol.cpp`, which is not part of this model.
- Payload layouts of the individual messages: they live in `bnetprotocol.cpp`, which is not part of this model, so they are the `serialize`, `decode`, `accept` and `decodeStat` parameters, never invented.
- The getters of the session and record classes: in the model the fields are read directly. A Dafny read cannot change state, so "a getter returns the stored field and modifies nothing" holds by construction.
- GetIX86VerFileNameQString, GetValueQStringFormulaQString, GetKeyStateDescription, GetIPQString, the GetDescription members, and the clan GetRank and GetStatus labels: these are text formatting and Qt string conversion, defined in `bnetprotocol.cpp`, which is not part of this model.
- The friend-list ExtractStatus, ExtractArea and ExtractLocation helpers: their label sets are defined in `bnetprotocol.cpp`, which is not part of this model. The raw status, area and location are kept.
- The received time of a game host: it reads the local clock.
- Warden payloads: they are passed through as opaque bytes and not interpreted.
- Destructors and pointer ownership: records are returned as values, and a null result is `None`.
- Reading individual fields out of a payload (fixed-width integers, zero-terminated strings): that reader is not in this file, and it sits inside the `decode` parameters.
- Splitting a byte stream into packets, and the socket transport: neither is in this file.
- Handshake ordering: the source does not enforce it. The model records which receivers have stored values (ghost `captured`) but does not forbid calling them out of order. Builders take the session values as explicit arguments.
- Parsers.ReceiveChatEvent: an event id outside the table yields no event. The declarations give such ids no enumerator, so the model does not invent an event for them.
- Session.BnetProtocol.ReceiveAuthCheck: the true/false answer reading (true only for `Good`) and storing the key state whatever its value are the model's reading of the declaration and the field comments.
- GameHosts.GameIdCounter.NewGameHost: the counter is a 32-bit unsigned value and wraps after 2^32 - 1. So "strictly increases" is proved only below that value, and the batch lemmas assume no wrap.
- GameHosts.GameIdCounter.constructor: the model's own choice is that the id counter starts at 1; the counter's definition is in `bnetprotocol.cpp`, which is not part of this model.
- QString fields are Dafny strings, and QByteArray fields are byte sequences. The conversion between them, as in GetUniqueName, is not modelled.
- Marker byte: the receivers do not check that a packet starts with 255 (for example `ReceiveAck([0, 15, 4, 0], _ => true)` is true). In this model that check belongs to the caller that dispatches on the id byte, which is not part of this model.
- Framing errors are not told apart: a wrong marker is not detected, and a packet shorter than the header and a packet whose length field disagrees with its size both make `Unframe` return `None`. The receivers give the same empty answer for either.

/** The inbound messages that leave the session state alone, and the immutable
    records they produce. Every receiver first checks the length field of the
    whole packet; a packet that fails the check yields the empty answer (false,
    no bytes, no record, an empty list). How the fields sit inside a payload is
    a parameter (`decode`, `accept`): that layout is not part of this model. */
module Parsers {
  import opened Bytes
  import opened Codes
  import opened Framing

  /** The fields of a chat event as they arrive, before the event id is looked up. */
  datatype ChatEventFields = ChatEventFields(eventId: uint32, ping: uint32, user: string, message: string)

  /** An incoming chat event: immutable, read through its fields. */
  datatype ChatEvent = ChatEvent(event: ChatEventKind, ping: uint32, user: string, message: string)

  /** One entry of the friends list, with its raw status and area bytes. */
  datatype FriendEntry = FriendEntry(account: string, status: byte, area: byte, location: string)

  /** One clan member, with its raw rank and status bytes. */
  datatype ClanEntry = ClanEntry(name: string, rank: byte, status: byte)

  /** The decoded payload of a packet that passes the length check. This is
      also the receiver of a clan member status change, which reports one
      member or none. */
  function Parse<T>(data: seq<byte>, decode: seq<byte> -> Option<T>): (r: Option<T>)
    ensures r.Some? ==> ValidateLength(data)
    ensures ValidateLength(data) ==> r == decode(data[HeaderSize..])
  {
    match Unframe(data)
    case None => None
    case Some(payload) => decode(payload)
  }

  /** A receiver that answers true or false: the null message, the ad check,
      the game-advertisement reply, the old-style logon reply and the logon
      proof reply. True only for a well-framed packet whose payload the
      message's own check accepts. */
  function ReceiveAck(data: seq<byte>, accept: seq<byte> -> bool): (ok: bool)
    ensures ok <==> ValidateLength(data) && accept(data[HeaderSize..])
  {
    match Unframe(data)
    case None => false
    case Some(payload) => accept(payload)
  }

  /** The opaque block a ping or Warden packet carries: its payload, or no
      bytes for a packet whose length field is wrong. */
  function ReceivePayload(data: seq<byte>): (block: seq<byte>)
    ensures ValidateLength(data) ==> data == data[..HeaderSize] + block
    ensures !ValidateLength(data) ==> block == []
  {
    Unframe(data).GetOr([])
  }

  /** What every receiver makes of a packet built by `Frame`: exactly what its
      payload says, as long as the payload fits the length field. */
  lemma ReceiversOfFrame<T>(id: byte, payload: seq<byte>, decode: seq<byte> -> Option<T>, accept: seq<byte> -> bool)
    requires |payload| <= 0xFFFF - HeaderSize
    ensures Parse(Frame(id, payload), decode) == decode(payload)
    ensures ReceiveAck(Frame(id, payload), accept) == accept(payload)
    ensures ReceivePayload(Frame(id, payload)) == payload
  {
    FrameRoundTrip(id, payload);
  }

  /** A chat event, built only when its event id is one of the listed kinds. */
  function ReceiveChatEvent(data: seq<byte>, decode: seq<byte> -> Option<ChatEventFields>): (e: Option<ChatEvent>)
    ensures e.Some? <==> Parse(data, decode).Some? && DecodeChatEvent(Parse(data, decode).value.eventId).Some?
    ensures e.Some? ==>
      var f := Parse(data, decode).value;
      ChatEventCode(e.value.event) == f.eventId && e.value.ping == f.ping
      && e.value.user == f.user && e.value.message == f.message
  {
    match Parse(data, decode)
    case None => None
    case Some(f) =>
      match DecodeChatEvent(f.eventId)
      case None => None
      case Some(kind) => Some(ChatEvent(kind, f.ping, f.user, f.message))
  }

  /** The records of a list reply (the friends list, the clan member list):
      empty unless the packet is well framed and decodes. */
  function ReceiveList<T>(data: seq<byte>, decode: seq<byte> -> Option<seq<T>>): (entries: seq<T>)
    ensures entries != [] ==> ValidateLength(data)
    ensures ValidateLength(data) ==> entries == decode(data[HeaderSize..]).GetOr([])
  {
    Parse(data, decode).GetOr([])
  }
}

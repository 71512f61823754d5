/** The header shared by every message: the marker byte 255, the message id,
    and a 16-bit little-endian length that counts the whole message, header
    included. `AssignLength` writes that length into a packet in place and
    `ValidateLength` checks it. */
module Framing {
  import opened Bytes
  import opened Codes

  /** Bytes before the payload: marker, id, two length bytes. */
  const HeaderSize := 4

  /** A packet length the 16-bit length field can describe and that leaves room
      for the header. */
  predicate LengthFits(n: int) {
    HeaderSize <= n <= 0xFFFF
  }

  /** The packet with its length field set to its own size, or the packet as
      it was when its size does not fit the field. */
  function WithLength(content: seq<byte>): (r: seq<byte>)
    ensures |r| == |content|
    ensures LengthFits(|content|) ==>
      r[..2] == content[..2] && r[HeaderSize..] == content[HeaderSize..] && U16Of(r[2], r[3]) == |content|
    ensures !LengthFits(|content|) ==> r == content
  {
    if LengthFits(|content|) then content[..2] + U16Bytes(|content|) + content[HeaderSize..]
    else content
  }

  /** Whether the length field of `content` equals its size: the packet is
      large enough for the header, and its third and fourth bytes are the
      little-endian encoding of its size. The marker and id bytes are not
      looked at. */
  predicate ValidateLength(content: seq<byte>): (ok: bool)
    ensures ok <==> LengthFits(|content|) && content[2..HeaderSize] == U16Bytes(|content|)
  {
    if LengthFits(|content|) then
      U16BytesOf(content[2], content[3]);
      U16RoundTrip(|content|);
      U16Of(content[2], content[3]) == |content|
    else false
  }

  /** A packet passes the check exactly when writing its length changes nothing:
      writing the length makes a packet pass, and leaves a passing packet as it is. */
  lemma ValidIffLengthAssigned(content: seq<byte>)
    ensures ValidateLength(content) <==> LengthFits(|content|) && WithLength(content) == content
    ensures LengthFits(|content|) ==> ValidateLength(WithLength(content))
  {
    if LengthFits(|content|) {
      var n := |content|;
      U16RoundTrip(n);
      if ValidateLength(content) {
        U16BytesOf(content[2], content[3]);
        assert content == content[..2] + [content[2], content[3]] + content[HeaderSize..];
      }
    }
  }

  /** Writing the length twice is the same as writing it once. */
  lemma AssignLengthIdempotent(content: seq<byte>)
    ensures WithLength(WithLength(content)) == WithLength(content)
  {
    ValidIffLengthAssigned(content);
    ValidIffLengthAssigned(WithLength(content));
  }

  /** Writes the size of `content` into its length field, in place; refuses,
      changing nothing, when the size does not fit. */
  method AssignLength(content: array<byte>) returns (ok: bool)
    modifies content
    ensures ok <==> LengthFits(content.Length)
    ensures content[..] == WithLength(old(content[..]))
  {
    ok := LengthFits(content.Length);
    if ok {
      var b := U16Bytes(content.Length);
      content[2] := b[0];
      content[3] := b[1];
      assert content[..] == old(content[..])[..2] + b + old(content[..])[HeaderSize..];
    }
  }

  /** The message with id `id` and payload `payload`, its length field assigned. */
  function Frame(id: byte, payload: seq<byte>): (packet: seq<byte>)
    ensures |packet| == HeaderSize + |payload|
    ensures packet[0] == HeaderConstant && packet[1] == id && packet[HeaderSize..] == payload
    ensures ValidateLength(packet) <==> |payload| <= 0xFFFF - HeaderSize
    ensures |payload| > 0xFFFF - HeaderSize ==> packet[2] == 0 && packet[3] == 0
  {
    var blank := [HeaderConstant, id, 0, 0] + payload;
    ValidIffLengthAssigned(blank);
    WithLength(blank)
  }

  /** The payload of a packet whose length field is right; nothing otherwise. */
  function Unframe(data: seq<byte>): (r: Option<seq<byte>>)
    ensures r.Some? <==> ValidateLength(data)
    ensures r.Some? ==> |data| == HeaderSize + |r.value| && r.value == data[HeaderSize..]
  {
    if ValidateLength(data) then Some(data[HeaderSize..]) else None
  }

  /** Unframing a framed payload gives the payload back, whenever it fits. */
  lemma FrameRoundTrip(id: byte, payload: seq<byte>)
    ensures Unframe(Frame(id, payload)) == if |payload| <= 0xFFFF - HeaderSize then Some(payload) else None
  {
  }

  /** A packet that passes the length check and starts with the marker is
      exactly the frame of its id byte and its payload. */
  lemma UnframeThenFrame(data: seq<byte>)
    requires Unframe(data).Some? && data[0] == HeaderConstant
    ensures Frame(data[1], Unframe(data).value) == data
  {
    var payload := Unframe(data).value;
    var blank := [HeaderConstant, data[1], 0, 0] + payload;
    ValidIffLengthAssigned(data);
    assert WithLength(blank) == blank[..2] + U16Bytes(|data|) + payload;
    assert data == data[..2] + U16Bytes(|data|) + payload;
  }

  /** Frames of different message kinds differ in their id byte. */
  lemma FramesOfDistinctKinds(a: Sid, b: Sid, p: seq<byte>, q: seq<byte>)
    requires a != b
    ensures Frame(SidByte(a), p)[1] != Frame(SidByte(b), q)[1]
  {
    if SidByte(a) == SidByte(b) {
      SidByteInjective(a, b);
    }
  }
}

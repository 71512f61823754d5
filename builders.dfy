/** The outbound messages. Each SEND_* builder of the client is one variant of
    `Request`, carrying exactly that builder's arguments; `Build` frames the
    request's payload under the request's own message id. How the arguments are
    laid out inside the payload is a parameter (`serialize`): that layout is not
    part of this model. Cryptographic values (client public key, password proof,
    password hash) and the Warden response are opaque bytes here. */
module Builders {
  import opened Bytes
  import opened Codes
  import opened Framing

  datatype Request =
    | SendNull
    | SendStopAdv
    | SendGetAdvListEx(gameName: string, numGames: uint32)
    | SendEnterChat
    | SendJoinChannel(channel: string)
    | SendChatCommand(command: string)
    | SendCheckAd
    | SendStartAdvEx3(state: byte, mapGameType: seq<byte>, mapFlags: seq<byte>,
                      mapWidth: seq<byte>, mapHeight: seq<byte>, gameName: string,
                      hostName: string, upTime: uint32, mapPath: string,
                      mapCRC: seq<byte>, mapSHA1: seq<byte>, hostCounter: uint32)
    | SendNotifyJoin(gameName: string)
    | SendPing(pingValue: seq<byte>)
    | SendLogonResponse(clientToken: seq<byte>, serverToken: seq<byte>,
                        passwordHash: seq<byte>, accountName: string)
    | SendNetGamePort(serverPort: uint16)
    | SendAuthInfo(ver: byte, tft: bool, countryAbbrev: string, country: string)
    | SendAuthCheck(tft: bool, clientToken: seq<byte>, exeVersion: seq<byte>,
                    exeVersionHash: seq<byte>, keyInfoRoc: seq<byte>,
                    keyInfoTft: seq<byte>, exeInfo: string, keyOwnerName: string)
    | SendAuthAccountLogon(clientPublicKey: seq<byte>, accountName: string)
    | SendAuthAccountLogonProof(clientPasswordProof: seq<byte>)
    | SendWarden(wardenResponse: seq<byte>)
    | SendFriendsList
    | SendClanMemberList

  /** The message kind each builder produces. The four kinds only the server
      sends (chat events, display ads, friend updates and clan member status
      changes) have no builder. */
  function SidOf(r: Request): (s: Sid)
    ensures s !in {SidChatEvent, SidDisplayAd, SidFriendsUpdate, SidClanMemberStatusChange}
  {
    match r
    case SendNull => SidNull
    case SendStopAdv => SidStopAdv
    case SendGetAdvListEx(_, _) => SidGetAdvListEx
    case SendEnterChat => SidEnterChat
    case SendJoinChannel(_) => SidJoinChannel
    case SendChatCommand(_) => SidChatCommand
    case SendCheckAd => SidCheckAd
    case SendStartAdvEx3(_, _, _, _, _, _, _, _, _, _, _, _) => SidStartAdvEx3
    case SendNotifyJoin(_) => SidNotifyJoin
    case SendPing(_) => SidPing
    case SendLogonResponse(_, _, _, _) => SidLogonResponse
    case SendNetGamePort(_) => SidNetGamePort
    case SendAuthInfo(_, _, _, _) => SidAuthInfo
    case SendAuthCheck(_, _, _, _, _, _, _, _) => SidAuthCheck
    case SendAuthAccountLogon(_, _) => SidAuthAccountLogon
    case SendAuthAccountLogonProof(_) => SidAuthAccountLogonProof
    case SendWarden(_) => SidWarden
    case SendFriendsList => SidFriendsList
    case SendClanMemberList => SidClanMemberList
  }

  /** The framed message for `r`: marker, the request's id byte, the length
      field, then the serialized arguments. The length is assigned as
      `AssignLength` does; in this model a payload too large for the 16-bit
      field leaves it at zero. */
  function Build(r: Request, serialize: Request -> seq<byte>): (packet: seq<byte>)
    ensures |packet| == HeaderSize + |serialize(r)|
    ensures packet[0] == HeaderConstant
    ensures DecodeSid(packet[1]) == Some(SidOf(r))
    ensures Unframe(packet) == if |serialize(r)| <= 0xFFFF - HeaderSize then Some(serialize(r)) else None
    ensures |serialize(r)| > 0xFFFF - HeaderSize ==> packet[2] == 0 && packet[3] == 0
  {
    SidByteDecodes(SidOf(r));
    FrameRoundTrip(SidByte(SidOf(r)), serialize(r));
    Frame(SidByte(SidOf(r)), serialize(r))
  }
}

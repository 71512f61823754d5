/** The three closed code tables of the protocol: message ids, CD-key check
    results and chat event ids. Each table is a datatype with an encoder to
    its wire code and a total decoder that recognises exactly the listed codes. */
module Codes {
  import opened Bytes

  /** The marker byte that starts every message. */
  const HeaderConstant: byte := 255

  /** One message kind per message id of the catalog. */
  datatype Sid =
    | SidNull | SidStopAdv | SidGetAdvListEx | SidEnterChat | SidJoinChannel
    | SidChatCommand | SidChatEvent | SidCheckAd | SidStartAdvEx3 | SidDisplayAd
    | SidNotifyJoin | SidPing | SidLogonResponse | SidNetGamePort | SidAuthInfo
    | SidAuthCheck | SidAuthAccountLogon | SidAuthAccountLogonProof | SidWarden
    | SidFriendsList | SidFriendsUpdate | SidClanMemberList | SidClanMemberStatusChange

  /** The id byte carried in the second byte of a message: every id lies
      below 128, so no id is ever the marker byte. */
  function SidByte(s: Sid): (b: byte)
    ensures b < 0x80 && b != HeaderConstant
  {
    match s
    case SidNull => 0
    case SidStopAdv => 2
    case SidGetAdvListEx => 9
    case SidEnterChat => 10
    case SidJoinChannel => 12
    case SidChatCommand => 14
    case SidChatEvent => 15
    case SidCheckAd => 21
    case SidStartAdvEx3 => 28
    case SidDisplayAd => 33
    case SidNotifyJoin => 34
    case SidPing => 37
    case SidLogonResponse => 41
    case SidNetGamePort => 69
    case SidAuthInfo => 80
    case SidAuthCheck => 81
    case SidAuthAccountLogon => 83
    case SidAuthAccountLogonProof => 84
    case SidWarden => 94
    case SidFriendsList => 101
    case SidFriendsUpdate => 102
    case SidClanMemberList => 125
    case SidClanMemberStatusChange => 127
  }

  /** The message kind an id byte names, if any. */
  function DecodeSid(b: byte): (r: Option<Sid>)
    ensures r.Some? ==> SidByte(r.value) == b
    ensures r.None? ==> forall s :: SidByte(s) != b
  {
    match b
    case 0 => Some(SidNull)
    case 2 => Some(SidStopAdv)
    case 9 => Some(SidGetAdvListEx)
    case 10 => Some(SidEnterChat)
    case 12 => Some(SidJoinChannel)
    case 14 => Some(SidChatCommand)
    case 15 => Some(SidChatEvent)
    case 21 => Some(SidCheckAd)
    case 28 => Some(SidStartAdvEx3)
    case 33 => Some(SidDisplayAd)
    case 34 => Some(SidNotifyJoin)
    case 37 => Some(SidPing)
    case 41 => Some(SidLogonResponse)
    case 69 => Some(SidNetGamePort)
    case 80 => Some(SidAuthInfo)
    case 81 => Some(SidAuthCheck)
    case 83 => Some(SidAuthAccountLogon)
    case 84 => Some(SidAuthAccountLogonProof)
    case 94 => Some(SidWarden)
    case 101 => Some(SidFriendsList)
    case 102 => Some(SidFriendsUpdate)
    case 125 => Some(SidClanMemberList)
    case 127 => Some(SidClanMemberStatusChange)
    case _ => None
  }

  /** Decoding the id byte of a message kind gives that kind back, so two
      distinct message kinds never share an id byte. */
  lemma SidByteDecodes(s: Sid)
    ensures DecodeSid(SidByte(s)) == Some(s)
  {
  }

  lemma SidByteInjective(a: Sid, b: Sid)
    requires SidByte(a) == SidByte(b)
    ensures a == b
  {
    SidByteDecodes(a);
    SidByteDecodes(b);
  }

  /** Outcome of the server's CD-key check. */
  datatype KeyResult = Good | OldGameVersion | InvalidVersion | RocKeyInUse | TftKeyInUse

  /** The 32-bit code of a key result: one of the five table values, and 0
      exactly for `Good`. */
  function KeyResultCode(k: KeyResult): (c: uint32)
    ensures c in {0, 256, 257, 513, 529}
    ensures c == 0 <==> k == Good
  {
    match k
    case Good => 0
    case OldGameVersion => 256
    case InvalidVersion => 257
    case RocKeyInUse => 513
    case TftKeyInUse => 529
  }

  /** The named key result of a 32-bit code; codes outside the table stay unnamed. */
  function DecodeKeyResult(code: uint32): (r: Option<KeyResult>)
    ensures r.Some? <==> code in {0, 256, 257, 513, 529}
    ensures r.Some? ==> KeyResultCode(r.value) == code
    ensures r == Some(Good) <==> code == 0
  {
    match code
    case 0 => Some(Good)
    case 256 => Some(OldGameVersion)
    case 257 => Some(InvalidVersion)
    case 513 => Some(RocKeyInUse)
    case 529 => Some(TftKeyInUse)
    case _ => None
  }

  lemma KeyResultDecodes(k: KeyResult)
    ensures DecodeKeyResult(KeyResultCode(k)) == Some(k)
  {
  }

  /** The kinds of chat event the server reports. */
  datatype ChatEventKind =
    | ShowUser | Join | Leave | Whisper | Talk | Broadcast | Channel | UserFlags
    | WhisperSent | ChannelFull | ChannelDoesNotExist | ChannelRestricted
    | Info | Error | Emote

  /** The event id of a chat event kind: one of the fifteen listed ids, all
      between 1 and 23. */
  function ChatEventCode(e: ChatEventKind): (c: uint32)
    ensures 1 <= c <= 23
    ensures c in {1, 2, 3, 4, 5, 6, 7, 9, 10, 13, 14, 15, 18, 19, 23}
  {
    match e
    case ShowUser => 1
    case Join => 2
    case Leave => 3
    case Whisper => 4
    case Talk => 5
    case Broadcast => 6
    case Channel => 7
    case UserFlags => 9
    case WhisperSent => 10
    case ChannelFull => 13
    case ChannelDoesNotExist => 14
    case ChannelRestricted => 15
    case Info => 18
    case Error => 19
    case Emote => 23
  }

  /** The chat event kind of a 32-bit event id; the gaps in the table decode to nothing. */
  function DecodeChatEvent(code: uint32): (r: Option<ChatEventKind>)
    ensures r.Some? <==> code in {1, 2, 3, 4, 5, 6, 7, 9, 10, 13, 14, 15, 18, 19, 23}
    ensures r.Some? ==> ChatEventCode(r.value) == code
  {
    match code
    case 1 => Some(ShowUser)
    case 2 => Some(Join)
    case 3 => Some(Leave)
    case 4 => Some(Whisper)
    case 5 => Some(Talk)
    case 6 => Some(Broadcast)
    case 7 => Some(Channel)
    case 9 => Some(UserFlags)
    case 10 => Some(WhisperSent)
    case 13 => Some(ChannelFull)
    case 14 => Some(ChannelDoesNotExist)
    case 15 => Some(ChannelRestricted)
    case 18 => Some(Info)
    case 19 => Some(Error)
    case 23 => Some(Emote)
    case _ => None
  }

  lemma ChatEventDecodes(e: ChatEventKind)
    ensures DecodeChatEvent(ChatEventCode(e)) == Some(e)
  {
  }
}

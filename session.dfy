/** The protocol object of one logon session. It keeps the values the logon
    handshake carries from one step to the next; each field is written by
    exactly one operation (the constructor or one receiver), and each receiver's
    `modifies` clause names only the fields it writes. A ghost set `captured`
    records which receivers have stored their values, and `Valid` states that a
    field nobody has written yet still holds its initial, empty value. */
module Session {
  import opened Bytes
  import opened Codes
  import opened Framing
  import opened Parsers
  import opened GameHosts

  /** The fields of an authentication-info reply. */
  datatype AuthInfoReply = AuthInfoReply(
    logonType: seq<byte>, serverToken: seq<byte>, mpqFileTime: seq<byte>,
    ix86VerFileName: seq<byte>, valueStringFormula: seq<byte>)

  /** The fields of a CD-key check reply: the raw 32-bit key state and its text. */
  datatype KeyCheckReply = KeyCheckReply(keyState: seq<byte>, description: seq<byte>)

  /** An account logon reply: accepted with the server's salt and public key, or refused. */
  datatype LogonReply = LogonAccepted(salt: seq<byte>, serverPublicKey: seq<byte>) | LogonRefused

  /** Which receivers have stored their values. */
  datatype Capture = AuthInfoCaptured | KeyStateCaptured | AccountLogonCaptured | UniqueNameCaptured

  /** A snapshot of the eleven session fields. */
  datatype AuthState = AuthState(
    clientToken: seq<byte>, logonType: seq<byte>, serverToken: seq<byte>,
    mpqFileTime: seq<byte>, ix86VerFileName: seq<byte>, valueStringFormula: seq<byte>,
    keyState: seq<byte>, keyStateDescription: seq<byte>, salt: seq<byte>,
    serverPublicKey: seq<byte>, uniqueName: string)

  /** The state of a fresh session: only the client token is set. */
  function InitialState(clientToken: seq<byte>): AuthState {
    AuthState(clientToken, [], [], [], [], [], [], [], [], [], "")
  }

  /** The key result named by a raw key state, read as a 32-bit little-endian code. */
  function KeyResultOf(keyState: seq<byte>): (r: Option<KeyResult>)
    ensures r.Some? ==> |keyState| == 4 && KeyResultCode(r.value) == U32Of(keyState)
    ensures |keyState| == 4 && U32Of(keyState) in {0, 256, 257, 513, 529} ==> r.Some?
  {
    if |keyState| == 4 then DecodeKeyResult(U32Of(keyState)) else None
  }

  class BnetProtocol {
    var clientToken: seq<byte>
    var logonType: seq<byte>
    var serverToken: seq<byte>
    var mpqFileTime: seq<byte>
    var ix86VerFileName: seq<byte>
    var valueStringFormula: seq<byte>
    var keyState: seq<byte>
    var keyStateDescription: seq<byte>
    var salt: seq<byte>
    var serverPublicKey: seq<byte>
    var uniqueName: string
    ghost var captured: set<Capture>

    ghost predicate Valid()
      reads this
    {
      && (AuthInfoCaptured !in captured ==>
            logonType == [] && serverToken == [] && mpqFileTime == []
            && ix86VerFileName == [] && valueStringFormula == [])
      && (KeyStateCaptured !in captured ==> keyState == [] && keyStateDescription == [])
      && (AccountLogonCaptured !in captured ==> salt == [] && serverPublicKey == [])
      && (UniqueNameCaptured !in captured ==> uniqueName == "")
    }

    function State(): AuthState
      reads this
    {
      AuthState(clientToken, logonType, serverToken, mpqFileTime, ix86VerFileName,
                valueStringFormula, keyState, keyStateDescription, salt,
                serverPublicKey, uniqueName)
    }

    /** A new session with the given client token and nothing else captured. */
    constructor (token: seq<byte>)
      ensures Valid() && captured == {}
      ensures State() == InitialState(token)
    {
      clientToken := token;
      logonType, serverToken, mpqFileTime := [], [], [];
      ix86VerFileName, valueStringFormula := [], [];
      keyState, keyStateDescription := [], [];
      salt, serverPublicKey := [], [];
      uniqueName := "";
      captured := {};
    }

    /** Stores the logon type, server token, MPQ file time, version file name
        and formula of a well-framed reply that decodes; otherwise changes nothing. */
    method ReceiveAuthInfo(data: seq<byte>, decode: seq<byte> -> Option<AuthInfoReply>) returns (ok: bool)
      requires Valid()
      modifies this`logonType, this`serverToken, this`mpqFileTime, this`ix86VerFileName,
               this`valueStringFormula, this`captured
      ensures Valid()
      ensures ok <==> Parse(data, decode).Some?
      ensures ok ==>
        var r := Parse(data, decode).value;
        && State() == old(State()).(logonType := r.logonType, serverToken := r.serverToken,
                                    mpqFileTime := r.mpqFileTime, ix86VerFileName := r.ix86VerFileName,
                                    valueStringFormula := r.valueStringFormula)
        && captured == old(captured) + {AuthInfoCaptured}
      ensures !ok ==> State() == old(State()) && captured == old(captured)
    {
      var reply := Parse(data, decode);
      ok := reply.Some?;
      if ok {
        var r := reply.value;
        logonType, serverToken, mpqFileTime := r.logonType, r.serverToken, r.mpqFileTime;
        ix86VerFileName, valueStringFormula := r.ix86VerFileName, r.valueStringFormula;
        captured := captured + {AuthInfoCaptured};
      }
    }

    /** Stores the key state and its description of a well-framed reply that
        decodes, whatever the key state; answers true only when the key state
        is the code of `Good`. */
    method ReceiveAuthCheck(data: seq<byte>, decode: seq<byte> -> Option<KeyCheckReply>) returns (ok: bool)
      requires Valid()
      modifies this`keyState, this`keyStateDescription, this`captured
      ensures Valid()
      ensures ok <==> Parse(data, decode).Some? && KeyResultOf(Parse(data, decode).value.keyState) == Some(Good)
      ensures Parse(data, decode).Some? ==>
        var r := Parse(data, decode).value;
        && State() == old(State()).(keyState := r.keyState, keyStateDescription := r.description)
        && captured == old(captured) + {KeyStateCaptured}
      ensures Parse(data, decode).None? ==> State() == old(State()) && captured == old(captured)
    {
      match Parse(data, decode)
      case None =>
        ok := false;
      case Some(r) =>
        keyState, keyStateDescription := r.keyState, r.description;
        captured := captured + {KeyStateCaptured};
        ok := KeyResultOf(r.keyState) == Some(Good);
    }

    /** Stores the salt and server public key of a well-framed reply that
        accepts the logon; a refusal or a bad packet changes nothing. */
    method ReceiveAuthAccountLogon(data: seq<byte>, decode: seq<byte> -> Option<LogonReply>) returns (ok: bool)
      requires Valid()
      modifies this`salt, this`serverPublicKey, this`captured
      ensures Valid()
      ensures ok <==> Parse(data, decode).Some? && Parse(data, decode).value.LogonAccepted?
      ensures ok ==>
        var r := Parse(data, decode).value;
        && State() == old(State()).(salt := r.salt, serverPublicKey := r.serverPublicKey)
        && captured == old(captured) + {AccountLogonCaptured}
      ensures !ok ==> State() == old(State()) && captured == old(captured)
    {
      var reply := Parse(data, decode);
      ok := reply.Some? && reply.value.LogonAccepted?;
      if ok {
        salt, serverPublicKey := reply.value.salt, reply.value.serverPublicKey;
        captured := captured + {AccountLogonCaptured};
      }
    }

    /** Stores the unique chat name of a well-framed reply that decodes;
        otherwise changes nothing. */
    method ReceiveEnterChat(data: seq<byte>, decode: seq<byte> -> Option<string>) returns (ok: bool)
      requires Valid()
      modifies this`uniqueName, this`captured
      ensures Valid()
      ensures ok <==> Parse(data, decode).Some?
      ensures ok ==>
        && State() == old(State()).(uniqueName := Parse(data, decode).value)
        && captured == old(captured) + {UniqueNameCaptured}
      ensures !ok ==> State() == old(State()) && captured == old(captured)
    {
      match Parse(data, decode)
      case None =>
        ok := false;
      case Some(name) =>
        uniqueName := name;
        captured := captured + {UniqueNameCaptured};
        ok := true;
    }

    /** The game hosts of an advertisement list, in order, each taking the
        counter's next unique id; a bad packet yields no hosts and leaves the
        counter alone. The session fields are not touched. */
    method ReceiveGetAdvListEx(data: seq<byte>, decode: seq<byte> -> Option<seq<Advert>>,
                               decodeStat: seq<byte> -> Option<MapInfo>, counter: GameIdCounter)
      returns (hosts: seq<GameHost>)
      modifies counter
      ensures var adverts := ReceiveList(data, decode);
        && hosts == HostsFrom(adverts, old(counter.nextUniqueGameId), decodeStat)
        && counter.nextUniqueGameId == IdAt(old(counter.nextUniqueGameId), |adverts|)
    {
      hosts := counter.NewGameHosts(ReceiveList(data, decode), decodeStat);
    }
  }

  /** Whether each of the five handshake replies is well framed, decodes and
      succeeds: the key state is `Good`, the account logon is accepted and the
      password proof is accepted. */
  predicate HandshakeSucceeds(
    info: seq<byte>, decodeInfo: seq<byte> -> Option<AuthInfoReply>,
    check: seq<byte>, decodeCheck: seq<byte> -> Option<KeyCheckReply>,
    logon: seq<byte>, decodeLogon: seq<byte> -> Option<LogonReply>,
    proof: seq<byte>, acceptProof: seq<byte> -> bool,
    chat: seq<byte>, decodeChat: seq<byte> -> Option<string>)
  {
    && Parse(info, decodeInfo).Some?
    && Parse(check, decodeCheck).Some? && KeyResultOf(Parse(check, decodeCheck).value.keyState) == Some(Good)
    && Parse(logon, decodeLogon).Some? && Parse(logon, decodeLogon).value.LogonAccepted?
    && ReceiveAck(proof, acceptProof)
    && Parse(chat, decodeChat).Some?
  }

  /** A logon handshake on a fresh session, in the order the server answers:
      authentication info, key check, account logon, password proof, chat
      entry, stopping at the first reply that fails. The client token survives
      every step; a handshake that fails leaves no unique name and, when the
      very first reply fails, no session value at all; after a complete
      handshake each field holds exactly what its own receiver decoded: no
      receiver overwrote another's fields. */
  method Handshake(
    token: seq<byte>,
    info: seq<byte>, decodeInfo: seq<byte> -> Option<AuthInfoReply>,
    check: seq<byte>, decodeCheck: seq<byte> -> Option<KeyCheckReply>,
    logon: seq<byte>, decodeLogon: seq<byte> -> Option<LogonReply>,
    proof: seq<byte>, acceptProof: seq<byte> -> bool,
    chat: seq<byte>, decodeChat: seq<byte> -> Option<string>)
    returns (ok: bool, state: AuthState)
    ensures state.clientToken == token
    ensures ok <==> HandshakeSucceeds(info, decodeInfo, check, decodeCheck, logon, decodeLogon,
                                      proof, acceptProof, chat, decodeChat)
    ensures !ok ==> state.uniqueName == ""
    ensures Parse(info, decodeInfo).None? ==> state == InitialState(token)
    ensures ok ==>
      var i, k, l := Parse(info, decodeInfo).value, Parse(check, decodeCheck).value, Parse(logon, decodeLogon).value;
      state == AuthState(token, i.logonType, i.serverToken, i.mpqFileTime, i.ix86VerFileName,
                         i.valueStringFormula, k.keyState, k.description, l.salt, l.serverPublicKey,
                         Parse(chat, decodeChat).value)
  {
    var session := new BnetProtocol(token);
    ok := session.ReceiveAuthInfo(info, decodeInfo);
    if ok {
      ok := session.ReceiveAuthCheck(check, decodeCheck);
    }
    if ok {
      ok := session.ReceiveAuthAccountLogon(logon, decodeLogon);
    }
    if ok {
      ok := ReceiveAck(proof, acceptProof);
    }
    if ok {
      ok := session.ReceiveEnterChat(chat, decodeChat);
    }
    state := session.State();
  }
}

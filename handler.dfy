/** The registration handshake (RtspRegisterChannelHandler.channelRead0). An
    unknown unit is provisioned and refused. A known unregistered unit is
    registered when its nonce matches the expected double digest, and closed
    otherwise. A registered unit is acknowledged. Every answer goes back to
    the sender's host at the listen port named in the request. */
module Handler {
  import opened Wrappers
  import opened Protocol
  import opened Netty
  import opened Resources
  import opened Units
  import opened Registry

  /** The four ways a well-formed registration request is answered. */
  datatype Outcome =
    | NotAuthorized  // unknown id: a unit is provisioned, the request refused
    | Registered     // known, not yet registered, nonce matches
    | WrongNonce     // known, not yet registered, nonce differs: the unit is closed
    | KeepAlive      // known and already registered

  /** The primitives the nonce is built from: MD5 (RFC 1321), the UTF-8
      encoding of a string, and `new String(bytes)` in the platform charset. */
  datatype Crypto = Crypto(utf8: string -> seq<bv8>, md5: seq<bv8> -> seq<bv8>, newString: seq<bv8> -> string)

  /** The nonce a unit must present: the digest of the digest of realm ‖ hashKey. */
  function ExpectedNonce(crypto: Crypto, realm: string, hashKey: string): (r: string)
  {
    crypto.newString(crypto.md5(crypto.md5(crypto.utf8(realm) + crypto.utf8(hashKey))))
  }

  /** The handler's MessageDigest sequence: update with realm, update with
      hashKey, digest; reset, update with that digest, digest; read the bytes
      back as a string. `pending` is the digest's buffered input; `digest()`
      and `reset()` empty it. */
  method ComputeNonce(crypto: Crypto, realm: string, hashKey: string) returns (nonce: string)
    ensures nonce == ExpectedNonce(crypto, realm, hashKey)
  {
    var pending: seq<bv8> := [];
    pending := pending + crypto.utf8(realm);
    pending := pending + crypto.utf8(hashKey);
    assert pending == crypto.utf8(realm) + crypto.utf8(hashKey);
    var a1 := crypto.md5(pending);
    pending := [];
    pending := [];
    pending := pending + a1;
    assert pending == a1;
    var digest := crypto.md5(pending);
    pending := [];
    nonce := crypto.newString(digest);
  }

  /** The handler's three-way decision on the registry entry for the request's
      id: absent (None) or present with its registered flag. */
  function Classify(found: Option<bool>, nonce: string, expected: string): (o: Outcome)
    ensures o == NotAuthorized <==> found.None?
    ensures o == Registered <==> found == Some(false) && nonce == expected
    ensures o == WrongNonce <==> found == Some(false) && nonce != expected
    ensures o == KeepAlive <==> found == Some(true)
  {
    match found
    case None => NotAuthorized
    case Some(registered) =>
      if registered then KeepAlive
      else if nonce == expected then Registered
      else WrongNonce
  }

  /** The response for an outcome: the configured cookie and realm, the
      request's message type, sequence number and timestamp, and the status
      with its reason. */
  function ResponseFor(config: ConfigManager, req: RegisterRtspUnitReq, o: Outcome): (res: RegisterRtspUnitRes)
    ensures res.header.magicCookie == config.magicCookie && res.realm == config.realm
    ensures res.header.messageType == req.header.messageType
    ensures res.header.seqNumber == req.header.seqNumber
    ensures res.header.timeStamp == req.header.timeStamp
    ensures res.status == Success <==> o == Registered || o == KeepAlive
    ensures res.reason == Some(NotAuthorizedReason) <==> o == NotAuthorized
    ensures res.reason == Some(WrongNonceReason) <==> o == WrongNonce
    ensures res.reason.None? <==> res.status == Success
  {
    var header := URtspHeader(config.magicCookie, req.header.messageType, req.header.seqNumber, req.header.timeStamp);
    match o
    case NotAuthorized => RegisterRtspUnitRes(header, config.realm, NotAccepted, Some(NotAuthorizedReason))
    case Registered => RegisterRtspUnitRes(header, config.realm, Success, None)
    case WrongNonce => RegisterRtspUnitRes(header, config.realm, NotAccepted, Some(WrongNonceReason))
    case KeepAlive => RegisterRtspUnitRes(header, config.realm, Success, None)
  }

  /** An inbound datagram: the sender's host address and the content buffer
      (None for a null buffer). */
  datatype DatagramPacket = DatagramPacket(senderHost: string, content: Option<seq<bv8>>)

  /** The registration state of the unit registered under `id`, if any. */
  ghost function Found(m: map<string, RtspUnit>, id: string): (r: Option<bool>)
    reads m.Values
  {
    if id in m then Some(m[id].registered) else None
  }

  class RtspRegisterChannelHandler {
    const ip: string
    const port: int
    const manager: RtspManager
    const config: ConfigManager
    const crypto: Crypto
    /** Decodes a RegisterRtspUnitReq; None where the decoder throws. */
    const decode: seq<bv8> -> Option<RegisterRtspUnitReq>

    constructor (ip: string, port: int, manager: RtspManager, config: ConfigManager, crypto: Crypto,
                 decode: seq<bv8> -> Option<RegisterRtspUnitReq>)
      ensures this.ip == ip && this.port == port
      ensures this.manager == manager && this.config == config && this.crypto == crypto && this.decode == decode
    {
      this.ip, this.port := ip, port;
      this.manager, this.config, this.crypto, this.decode := manager, config, crypto, decode;
    }

    /** The request the handler acts on, or None when it drops the packet:
        no register channel, a null or empty buffer, or content that does not
        decode. */
    function Accepted(packet: DatagramPacket, registerChannel: RtspRegisterNettyChannel?): (r: Option<RegisterRtspUnitReq>)
      ensures r.Some? <==> registerChannel != null && packet.content.Some? && |packet.content.value| > 0
                            && decode(packet.content.value).Some?
      ensures r.Some? ==> r == decode(packet.content.value)
    {
      if registerChannel == null || packet.content.None? || |packet.content.value| == 0 then None
      else decode(packet.content.value)
    }

    /** The outcome of `req` against the registry `m`. The expected nonce
        depends on the configured realm and hash key only. */
    ghost function Decide(m: map<string, RtspUnit>, req: RegisterRtspUnitReq): (o: Outcome)
      reads m.Values
      ensures o == NotAuthorized <==> req.id !in m
      ensures o == Registered <==>
                req.id in m && !m[req.id].registered && req.nonce == ExpectedNonce(crypto, config.realm, config.hashKey)
      ensures o == WrongNonce <==>
                req.id in m && !m[req.id].registered && req.nonce != ExpectedNonce(crypto, config.realm, config.hashKey)
      ensures o == KeepAlive <==> req.id in m && m[req.id].registered
    {
      Classify(Found(m, req.id), req.nonce, ExpectedNonce(crypto, config.realm, config.hashKey))
    }

    /** The unit a packet may touch: the one registered under the request's id. */
    function Target(packet: DatagramPacket, registerChannel: RtspRegisterNettyChannel?): (r: set<RtspUnit>)
      reads manager
    {
      match Accepted(packet, registerChannel)
      case Some(req) => if req.id in manager.rtspUnitMap then {manager.rtspUnitMap[req.id]} else {}
      case None => {}
    }

    method ChannelRead0(packet: DatagramPacket, registerChannel: RtspRegisterNettyChannel?)
      requires manager.Valid()
      modifies manager, manager.resources, registerChannel, Target(packet, registerChannel)`registered
      modifies manager.channels`openedChannels, manager.channels`deletedRtspChannels, manager.channels`deletedRtcpChannels
      ensures manager.Valid()
      // a dropped packet: nothing changes, nothing is sent
      ensures Accepted(packet, registerChannel).None? ==>
                && manager.rtspUnitMap == old(manager.rtspUnitMap)
                && unchanged(manager.channels, manager.resources)
                && (registerChannel != null ==> unchanged(registerChannel))
      // exactly one response, to the sender's host and the declared listen port
      ensures Accepted(packet, registerChannel).Some? ==>
                var req := Accepted(packet, registerChannel).value;
                registerChannel.outbox == old(registerChannel.outbox) +
                  [Sent(packet.senderHost, req.listenPort, ResponseFor(config, req, old(Decide(manager.rtspUnitMap, req))))]
      // unknown id: a fresh, unregistered unit is added; nothing else changes
      ensures Accepted(packet, registerChannel).Some? ==>
                var req := Accepted(packet, registerChannel).value;
                old(Decide(manager.rtspUnitMap, req)) == NotAuthorized ==>
                  && req.id in manager.rtspUnitMap
                  && manager.rtspUnitMap == old(manager.rtspUnitMap)[req.id := manager.rtspUnitMap[req.id]]
                  && fresh(manager.rtspUnitMap[req.id])
                  && !manager.rtspUnitMap[req.id].registered
                  && manager.rtspUnitMap[req.id].serverPort == config.localRtspListenPort
                  && manager.channels.openedChannels == old(manager.channels.openedChannels) +
                       [NettyChannel(config.localListenIp, config.localRtspListenPort, Rtsp),
                        NettyChannel(config.localListenIp, RtcpListenPort, Rtcp)]
                  && manager.channels.deletedRtspChannels == old(manager.channels.deletedRtspChannels)
                  && manager.channels.deletedRtcpChannels == old(manager.channels.deletedRtcpChannels)
                  && unchanged(manager.resources)
      // matching nonce: the unit becomes registered; nothing else changes
      ensures Accepted(packet, registerChannel).Some? ==>
                var req := Accepted(packet, registerChannel).value;
                old(Decide(manager.rtspUnitMap, req)) == Registered ==>
                  && manager.rtspUnitMap == old(manager.rtspUnitMap)
                  && manager.rtspUnitMap[req.id].registered
                  && unchanged(manager.channels, manager.resources)
      // wrong nonce: the unit is closed and left unregistered
      ensures Accepted(packet, registerChannel).Some? ==>
                var req := Accepted(packet, registerChannel).value;
                old(Decide(manager.rtspUnitMap, req)) == WrongNonce ==>
                  && manager.rtspUnitMap == old(manager.rtspUnitMap) - {req.id}
                  && !old(manager.rtspUnitMap)[req.id].registered
                  && manager.channels.openedChannels == old(manager.channels.openedChannels)
                  && manager.channels.deletedRtspChannels == old(manager.channels.deletedRtspChannels) + [req.id]
                  && manager.channels.deletedRtcpChannels == old(manager.channels.deletedRtcpChannels) + [req.id]
                  && manager.resources.restoredPorts == old(manager.resources.restoredPorts) +
                       PortToRestore(old(manager.rtspUnitMap)[req.id].serverPort)
      // already registered: acknowledged without any change
      ensures Accepted(packet, registerChannel).Some? ==>
                var req := Accepted(packet, registerChannel).value;
                old(Decide(manager.rtspUnitMap, req)) == KeepAlive ==>
                  && manager.rtspUnitMap == old(manager.rtspUnitMap)
                  && manager.rtspUnitMap[req.id].registered
                  && unchanged(manager.channels, manager.resources)
    {
      if registerChannel == null {
        return;
      }
      if packet.content.None? {
        return;
      }
      var data := packet.content.value;
      if |data| <= 0 {
        return;
      }
      var decoded := decode(data);
      if decoded.None? {
        return;  // the request constructor throws; the exception is caught
      }
      var req := decoded.value;
      var id, nonce := req.id, req.nonce;
      var unit := manager.GetRtspUnit(id);
      if unit == null {
        var res := ResponseFor(config, req, NotAuthorized);
        manager.OpenRtspUnit(id, config.localListenIp, config.localRtspListenPort);
        registerChannel.SendResponse(packet.senderHost, req.listenPort, res);
      } else {
        var res;
        if !unit.registered {
          var curNonce := ComputeNonce(crypto, config.realm, config.hashKey);
          if curNonce == nonce {
            res := ResponseFor(config, req, Registered);
            unit.SetRegistered(true);
          } else {
            res := ResponseFor(config, req, WrongNonce);
            manager.CloseRtspUnit(id);
            unit.SetRegistered(false);
          }
        } else {
          res := ResponseFor(config, req, KeepAlive);
        }
        registerChannel.SendResponse(packet.senderHost, req.listenPort, res);
      }
    }
  }

  /** A handler over an empty registry with realm "streaming" and hash key
      "secret123", decoding the one-byte packets [1] and [2] as `first` and
      `second`, and an empty register channel. */
  method ScenarioHandler(crypto: Crypto, first: RegisterRtspUnitReq, second: RegisterRtspUnitReq)
    returns (handler: RtspRegisterChannelHandler, registerChannel: RtspRegisterNettyChannel)
    ensures fresh(handler.manager) && fresh(handler.manager.channels) && fresh(handler.manager.resources)
    ensures fresh(registerChannel) && registerChannel.outbox == []
    ensures handler.manager.Valid() && handler.manager.rtspUnitMap == map[]
    ensures handler.config == ConfigManager(0x5254, "streaming", "secret123", "127.0.0.1", 8554)
    ensures handler.crypto == crypto
    ensures handler.decode([1]) == Some(first) && handler.decode([2]) == Some(second)
  {
    var config := ConfigManager(0x5254, "streaming", "secret123", "127.0.0.1", 8554);
    var decode := (d: seq<bv8>) => if d == [1] then Some(first) else if d == [2] then Some(second) else None;
    var channels := new NettyChannelManager();
    var resources := new ResourceManager();
    var manager := new RtspManager(channels, resources);
    registerChannel := new RtspRegisterNettyChannel();
    handler := new RtspRegisterChannelHandler("127.0.0.1", 5100, manager, config, crypto, decode);
  }

  /** A first request from unknown unit "cam-01" is refused and provisions the
      unit; a second request carrying the expected nonce registers it. */
  method RegistrationAccepted(crypto: Crypto) returns (outbox: seq<Sent>, registry: map<string, RtspUnit>)
    ensures |outbox| == 2
    ensures outbox[0].res.status == NotAccepted && outbox[0].res.reason == Some(NotAuthorizedReason)
    ensures outbox[1].res.status == Success && outbox[1].res.reason == None
    ensures registry.Keys == {"cam-01"} && registry["cam-01"].registered
  {
    var header := URtspHeader(0x5254, 1, 0, 0);
    var first := RegisterRtspUnitReq(header, "cam-01", "", 5000);
    var second := RegisterRtspUnitReq(header, "cam-01", ExpectedNonce(crypto, "streaming", "secret123"), 5000);
    var handler, registerChannel := ScenarioHandler(crypto, first, second);
    var p1, p2 := DatagramPacket("10.0.0.7", Some([1])), DatagramPacket("10.0.0.7", Some([2]));
    assert handler.Accepted(p1, registerChannel) == Some(first);
    handler.ChannelRead0(p1, registerChannel);
    assert handler.Accepted(p2, registerChannel) == Some(second);
    handler.ChannelRead0(p2, registerChannel);
    outbox, registry := registerChannel.outbox, handler.manager.rtspUnitMap;
  }

  /** A first request from unknown unit "cam-02" is refused and provisions the
      unit; a second request carrying a nonce other than the expected one
      closes it. */
  method RegistrationRejected(crypto: Crypto) returns (outbox: seq<Sent>, registry: map<string, RtspUnit>)
    requires ExpectedNonce(crypto, "streaming", "secret123") != "garbage"
    ensures |outbox| == 2
    ensures outbox[0].res.status == NotAccepted && outbox[0].res.reason == Some(NotAuthorizedReason)
    ensures outbox[1].res.status == NotAccepted && outbox[1].res.reason == Some(WrongNonceReason)
    ensures registry == map[]
  {
    var header := URtspHeader(0x5254, 1, 0, 0);
    var first := RegisterRtspUnitReq(header, "cam-02", "", 5002);
    var second := RegisterRtspUnitReq(header, "cam-02", "garbage", 5002);
    var handler, registerChannel := ScenarioHandler(crypto, first, second);
    var p1, p2 := DatagramPacket("10.0.0.7", Some([1])), DatagramPacket("10.0.0.7", Some([2]));
    assert handler.Accepted(p1, registerChannel) == Some(first);
    handler.ChannelRead0(p1, registerChannel);
    assert handler.Accepted(p2, registerChannel) == Some(second);
    handler.ChannelRead0(p2, registerChannel);
    outbox, registry := registerChannel.outbox, handler.manager.rtspUnitMap;
  }
}

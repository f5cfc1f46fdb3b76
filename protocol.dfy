/** The registration messages exchanged on the register channel and the
    read-only configuration snapshot they draw on. Byte-level framing is not
    modelled: a message is its decoded fields. */
module Protocol {
  import opened Wrappers

  /** The common uRTSP header: magic cookie, message type, sequence number,
      timestamp. */
  datatype URtspHeader = URtspHeader(magicCookie: int, messageType: int, seqNumber: int, timeStamp: int)

  /** A decoded RegisterRtspUnitReq. */
  datatype RegisterRtspUnitReq = RegisterRtspUnitReq(header: URtspHeader, id: string, nonce: string, listenPort: int)

  /** RegisterRtspUnitRes.SUCCESS and RegisterRtspUnitRes.NOT_ACCEPTED */
  datatype Status = Success | NotAccepted

  /** A RegisterRtspUnitRes; `reason` is present only once setReason was called. */
  datatype RegisterRtspUnitRes = RegisterRtspUnitRes(header: URtspHeader, realm: string, status: Status, reason: Option<string>)

  const NotAuthorizedReason: string := "NOT_AUTHORIZED"
  const WrongNonceReason: string := "WRONG_NONCE"

  /** The ConfigManager values the registration core reads. */
  datatype ConfigManager = ConfigManager(
    magicCookie: int,
    realm: string,
    hashKey: string,
    localListenIp: string,
    localRtspListenPort: int)
}

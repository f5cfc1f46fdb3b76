# RTSP relay registration core

This project models the control-plane registration core of the JRTSP relay
server in Dafny and proves properties of that model. The core has three
cooperating parts.

- **Registration handshake** (`RtspRegisterChannelHandler.channelRead0`):
  - A datagram is dropped when there is no register channel, when the buffer
    is null or empty, or when the request does not decode.
  - Otherwise the handler looks the unit id up in the registry.
    - An unknown id is provisioned (a new unit is opened) and refused with
      `NOT_ACCEPTED` / `"NOT_AUTHORIZED"`.
    - A known, unregistered unit whose nonce equals MD5(MD5(realm ‖ hashKey))
      becomes registered and gets `SUCCESS`.
    - A known, unregistered unit with any other nonce is closed and gets
      `NOT_ACCEPTED` / `"WRONG_NONCE"`.
    - A registered unit gets `SUCCESS` and nothing changes.
  - Every response carries the configured magic cookie and realm and echoes
    the request's message type, sequence number and timestamp.
  - The response goes to the sender's host, at the listen port named in the
    request.
- **Session registry** (`RtspManager`): a map from unit id to unit.
  - `openRtspUnit` has put-if-absent semantics.
  - `closeRtspUnit` deletes the unit's RTSP and RTCP channels, gives a
    positive server port back to the port pool, and removes the entry.
  - `closeAllRtspUnits` does the same while iterating over the map.
  - `getRtspUnit` is a lookup.
- **Session entity** (`RtspUnit`):
  - its initial field values;
  - the field setters, including the guarded `setClientPort`;
  - the static string function `getPureFileName`, which extracts the path
    part of an `rtsp://` URI.

Modules, one per component:

| module | file | holds |
|---|---|---|
| `Wrappers` | wrappers.dfy | `Option`, the error path where Java throws |
| `JavaString` | java_string.dfy | `startsWith`, `indexOf(char)` and `lastIndexOf(String)` |
| `Protocol` | protocol.dfy | request, response, header and configuration records |
| `Netty` | netty.dfy | `NettyChannelManager` and the register channel |
| `Resources` | resources.dfy | `ResourceManager` |
| `Units` | units.dfy | class `RtspUnit` |
| `Registry` | registry.dfy | class `RtspManager` |
| `Handler` | handler.dfy | class `RtspRegisterChannelHandler` |

In `Netty` and `Resources` each collaborator call is appended, in order, to a
log field: opened channels, deleted RTSP and RTCP channel ids, restored ports,
and the sent responses (the outbox).

The objects that Java updates in place are Dafny classes whose methods carry
`modifies` frames:

- `RtspUnit` updates its `registered`, `clientPort`, `congestionLevel` and
  `streamer` fields in place.
- `RtspManager` updates its `rtspUnitMap` field.
- The handler mutates both through their methods.

Response construction, the nonce decision and `getPureFileName` are pure
functions.

MD5 (RFC 1321), `String.getBytes(UTF_8)` and `new String(byte[])` are the
three function values of the `Crypto` record. The expected nonce is built from
them exactly as the handler composes them, and it depends only on the
configured realm and hash key. Wire decoding of `RegisterRtspUnitReq` is the
handler's `decode` function value. It returns `None` where the request
constructor throws.

The shown `RtspUnit.java` has a two-argument constructor. It has no
`rtspUnitId`, `registered` or `serverPort` members. `RtspManager.java` and the
handler, however, use a three-argument constructor and those members. The
model follows the callers:

- `rtspUnitId` is the id given to the constructor.
- `serverPort` is the port given to the constructor; its RTSP channel is
  opened on that port.
- `registered` starts false.

Two behaviours of the code are worth stating, since a reader may expect
otherwise. The model follows the code in both:

- On a changed client port, `setClientPort` stores the new port and hands that
  same new port to `restorePort`, rather than releasing the previous port.
  See Findings.
- `closeRtspUnit` on an id that is absent still deletes both channels. Then
  the null unit throws, and the exception is caught. So a second close of
  the same id is a no-op for the map and the port pool, but not for the
  channel manager. `closeRtspUnit` restores the server port only, never the
  client port.

## Model

| member | source | states |
|---|---|---|
| `Units.RtspUnit.constructor` | src/java/com/rtsp/module/base/RtspUnit.java:23-39 | a new unit opens its RTSP channel on listenIp:listenPort and its RTCP channel on listenIp:19001 (both appended to the channel log); it starts unregistered with clientPort 0, congestionLevel 0 and no streamer |
| `Units.RtspUnit.SetStreamer` | src/java/com/rtsp/module/base/RtspUnit.java:47-49 | stores exactly the given streamer; the frame admits no other field |
| `Units.RtspUnit.SetCongestionLevel` | src/java/com/rtsp/module/base/RtspUnit.java:59-61 | stores exactly the given level; the frame admits no other field |
| `Units.RtspUnit.SetRegistered` | src/java/com/rtsp/module/netty/handler/RtspRegisterChannelHandler.java:114 | stores exactly the given flag; the frame admits no other field |
| `Units.ClientPortUpdate` | src/java/com/rtsp/module/base/RtspUnit.java:75-86 | a non-positive or unchanged port leaves clientPort as it is and restores nothing; any other port becomes clientPort, and exactly that new port is restored |
| `Units.RtspUnit.SetClientPort` | src/java/com/rtsp/module/base/RtspUnit.java:75-86 | the new clientPort and the ports appended to the pool's restore log are those of ClientPortUpdate |
| `Units.ClientPortUpdateRestoresHeldPort` | src/java/com/rtsp/module/base/RtspUnit.java:81-84 | from clientPort 0, setClientPort(5000) leaves the unit holding 5000 and hands 5000 back to the pool |
| `Units.ClientPortReplace` | src/java/com/rtsp/module/base/RtspUnit.java:81-84 | corrected update: the same new clientPort, and the pool gets back the previously held port exactly when that port was positive and is replaced; the port kept is never the one released |
| `Units.RtspUnit.ReplaceClientPort` | src/java/com/rtsp/module/base/RtspUnit.java:75-86 | the corrected setter; its new state and restore log are those of ClientPortReplace |
| `JavaString.StartsWith` | src/java/com/rtsp/module/base/RtspUnit.java:91 | true exactly when the pattern is no longer than the string and matches it character by character from index 0 |
| `Units.HostStart` | src/java/com/rtsp/module/base/RtspUnit.java:93-95 | 7 exactly when "rtsp:" occurs nowhere; otherwise "rtsp:" occurs 8 characters before it and nowhere after that |
| `JavaString.IndexOf` | src/java/com/rtsp/module/base/RtspUnit.java:97-99 | -1 exactly when the character is absent; otherwise the index of its first occurrence |
| `JavaString.LastIndexOf` | src/java/com/rtsp/module/base/RtspUnit.java:93-95 | -1 or an index where the pattern occurs, with no occurrence after it |
| `Units.RtspUnit.GetPureFileName` | src/java/com/rtsp/module/base/RtspUnit.java:90-112 | a URI not starting with "rtsp" comes back unchanged; for an rtsp URI the result is missing (Java throws) exactly when the search start lies past the end or no '/' follows it |
| `Units.PathPartAt` | src/java/com/rtsp/module/base/RtspUnit.java:97-106 | searched from any index holding a later '/', the tail from the first '/' with one trailing '/' dropped is the contiguous substring PathBoundsFrom describes |
| `Units.PureFileNameIsPathPart` | src/java/com/rtsp/module/base/RtspUnit.java:91-108 | for an rtsp URI the result is the contiguous substring from the first '/' at or after 8 characters past the last "rtsp:" to the end, less one trailing '/' |
| `Units.PureFileNameExample` | src/java/com/rtsp/module/base/RtspUnit.java:90-112 | "rtsp://host:8554/live/cam/" yields "/live/cam" |
| `Registry.RtspManager.constructor` | src/java/com/rtsp/module/RtspManager.java:26-33 | the registry starts empty |
| `Registry.RtspManager.GetRtspUnit` | src/java/com/rtsp/module/RtspManager.java:116-118 | null exactly when the id is absent, otherwise the mapped unit; it reads and changes nothing else |
| `Registry.RtspManager.OpenRtspUnit` | src/java/com/rtsp/module/RtspManager.java:43-61 | two channels are always opened; a present id leaves the map unchanged; an absent id gains a fresh unit with that id, the given server port and initial field values, and every other entry is unchanged |
| `Registry.RtspManager.CloseRtspUnit` | src/java/com/rtsp/module/RtspManager.java:64-83 | the id is gone and every other entry is unchanged; both channel deletions are logged even for an absent id; the unit's server port is restored exactly when the id was present and the port is positive |
| `Registry.RtspManager.CloseAllRtspUnits` | src/java/com/rtsp/module/RtspManager.java:85-114 | as written: with no entries nothing changes; otherwise only the first entry in iteration order is closed (its channels deleted, its positive port restored, its entry removed) before the iterator throws |
| `Registry.CloseAllLeavesSecondUnit` | src/java/com/rtsp/module/RtspManager.java:89-108 | with units "cam-01" and "cam-02" registered, closeAllRtspUnits leaves "cam-02" in the registry |
| `Registry.RtspManager.CloseAllRtspUnitsFromSnapshot` | src/java/com/rtsp/module/RtspManager.java:85-114 | corrected: every entry is closed in iteration order; the map ends empty, both deletion logs gain every id, and the restored ports are RestoredPorts of the original map |
| `Registry.RestoredPortsAreServerPorts` | src/java/com/rtsp/module/RtspManager.java:99-105 | closing a sequence of units restores at most one port per unit, only positive ports, each the server port of a closed unit, and the positive server port of every closed unit |
| `Handler.Classify` | src/java/com/rtsp/module/netty/handler/RtspRegisterChannelHandler.java:69-139 | not authorized iff the id is absent; registered iff present, unregistered and nonce equal; wrong nonce iff present, unregistered and nonce different; keep-alive iff present and registered |
| `Handler.ComputeNonce` | src/java/com/rtsp/module/netty/handler/RtspRegisterChannelHandler.java:96-103 | the update / update / digest / reset / update / digest sequence yields ExpectedNonce: the digest of the digest of UTF-8(realm) ‖ UTF-8(hashKey), read back as a string; no unit id enters it |
| `Handler.RtspRegisterChannelHandler.Decide` | src/java/com/rtsp/module/netty/handler/RtspRegisterChannelHandler.java:69-104 | the same four-way decision on the registry itself; the nonce compared against depends only on the configured realm and hash key, never on the unit id |
| `Handler.ResponseFor` | src/java/com/rtsp/module/netty/handler/RtspRegisterChannelHandler.java:71-138 | the configured cookie and realm; the request's message type, sequence number and timestamp unchanged; SUCCESS iff registered or keep-alive; reason NOT_AUTHORIZED iff not authorized, WRONG_NONCE iff wrong nonce, and no reason iff SUCCESS |
| `Handler.RtspRegisterChannelHandler.Accepted` | src/java/com/rtsp/module/netty/handler/RtspRegisterChannelHandler.java:40-63 | a request is handled only when the register channel exists, the buffer is present and non-empty, and the content decodes |
| `Handler.RtspRegisterChannelHandler.ChannelRead0` | src/java/com/rtsp/module/netty/handler/RtspRegisterChannelHandler.java:37-150 | a dropped packet changes nothing and sends nothing; otherwise exactly one response (that of ResponseFor for the decided outcome) goes to the sender's host and the declared listen port; unknown id: a fresh unregistered unit on the configured listen address; matching nonce: registered, nothing else changes; wrong nonce: the unit is closed (channels deleted, positive server port restored, entry removed) and stays unregistered; already registered: nothing changes |
| `Handler.RegistrationAccepted` | src/java/com/rtsp/module/netty/handler/RtspRegisterChannelHandler.java:69-114 | unit "cam-01": first request NOT_ACCEPTED/NOT_AUTHORIZED, second request with the expected nonce SUCCESS, and the unit is registered |
| `Handler.RegistrationRejected` | src/java/com/rtsp/module/netty/handler/RtspRegisterChannelHandler.java:69-128 | unit "cam-02": first request NOT_ACCEPTED/NOT_AUTHORIZED, second request with nonce "garbage" NOT_ACCEPTED/WRONG_NONCE, and the registry is empty again |

## Left out

- The Netty plumbing is not modelled: `ChannelHandlerContext`, the `ByteBuf`
  copy and the socket send. A datagram is its sender host and an optional
  byte sequence. A send is an entry appended to the register channel's
  outbox.
- The internals of `NettyChannelManager` and `ResourceManager` are not part
  of this model. Their calls are recorded in logs. So is the singleton lookup
  `getRegisterChannel`, which becomes the nullable `registerChannel`
  parameter.
- MD5, UTF-8 encoding and the platform-charset `new String(byte[])` are
  function values. No property of MD5 is assumed. The lookup of the "MD5"
  algorithm cannot fail.
- The byte layout of `RegisterRtspUnitReq` / `RegisterRtspUnitRes` is not
  modelled: a message is its fields, and decoding is a function value.
- The `ReentrantLock` and the unsynchronised `getInstance` singletons are
  not modelled. Calls are single-threaded. Each object is reached through a
  field instead of a global.
- The `RtspState.IDLE` state-unit registration in `openRtspUnit` is not
  modelled. Neither are the random UUID `rtspId`, the logging,
  `channelInactive`, `exceptionCaught` and the getters `getIp` / `getPort`.
- An exception from a collaborator is not modelled: a channel open, channel
  delete, port restore or send that throws. The only exceptions modelled are
  the null unit in `closeRtspUnit`, a request that fails to decode, the
  `ConcurrentModificationException` in `closeAllRtspUnits`, and the
  `StringIndexOutOfBoundsException` of `substring` in `getPureFileName`
  (the `None` result).
- `closeAllRtspUnits` returns early on a null map entry or a null unit. The
  model's map holds no null units, so that path cannot occur.
- Units.RtspUnit.GetPureFileName: indices count characters (Unicode code
  points), while Java's `lastIndexOf`, `substring` and `indexOf` count UTF-16
  code units. The two agree on URIs made only of Basic Multilingual Plane
  characters, in particular on ASCII URIs, but differ on a URI holding a
  character outside it (a surrogate pair in Java).
- The iteration order of `HashMap` is not computed. `closeAllRtspUnits` takes
  it as a parameter: a sequence listing every key exactly once.
- `FfmpegManager` (external ffmpeg/ffprobe processes and directories) is not
  part of this model.

## Findings

| source | as written | input that shows it | evidently intended | confidence | as-written member | corrected member |
|---|---|---|---|---|---|---|
| src/java/com/rtsp/module/RtspManager.java:89-107 | `closeAllRtspUnits` removes each entry from the `HashMap` while iterating its entry set. The fail-fast iterator then throws `ConcurrentModificationException` on the next step. The catch at line 109 swallows it, so only the first unit is closed. | two units "cam-01" and "cam-02": after the call "cam-02" is still registered, its channels are open and its port is held | every unit closed, its channels deleted, its positive server port restored, and the map empty | high (not executed) | `Registry.CloseAllLeavesSecondUnit` | `Registry.RtspManager.CloseAllRtspUnitsFromSnapshot` |
| src/java/com/rtsp/module/base/RtspUnit.java:81-84 | `setClientPort` stores the new port and passes that same new port to `restorePort` | clientPort 0, setClientPort(5000): the unit holds 5000 while 5000 is back in the free pool, so it can be handed out twice | release the previously held port (when positive) and keep the new one | medium (not executed) | `Units.ClientPortUpdateRestoresHeldPort` | `Units.ClientPortReplace` |

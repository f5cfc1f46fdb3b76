/** The session entity (RtspUnit): one remote unit's identity, registration
    flag, channels, ports, congestion hint and streamer, plus the static
    helper getPureFileName. */
module Units {
  import opened Wrappers
  import opened JavaString
  import opened Netty
  import opened Resources

  /** RtspUnit.rtcpListenPort: every unit's RTCP channel listens here. */
  const RtcpListenPort: int := 19001

  /** The media-streaming association a unit may point to; opaque to this core. */
  class Streamer { }

  /** The effect of one client-port update: the unit's clientPort afterwards and
      the ports handed to ResourceManager.restorePort, in order. */
  datatype PortUpdate = PortUpdate(clientPort: int, restored: seq<int>)

  /** setClientPort as the source writes it: a non-positive or unchanged port is
      ignored; any other port is stored and that same port is restored to the pool. */
  function ClientPortUpdate(current: int, requested: int): (u: PortUpdate)
    ensures u.clientPort == if requested > 0 then requested else current
    ensures u.restored == [] <==> requested <= 0 || requested == current
    ensures u.restored != [] ==> u.restored == [u.clientPort]
  {
    if requested <= 0 || requested == current then PortUpdate(current, [])
    else PortUpdate(requested, [requested])
  }

  /** The port the unit ends up holding is the port handed back to the pool:
      from clientPort 0, setClientPort(5000) restores 5000 while the unit keeps it. */
  lemma ClientPortUpdateRestoresHeldPort()
    ensures ClientPortUpdate(0, 5000) == PortUpdate(5000, [5000])
  {
  }

  /** Replace-and-release: the new port is stored and the previously held
      port, if there was one, goes back to the pool. */
  function ClientPortReplace(current: int, requested: int): (u: PortUpdate)
    ensures u.clientPort == if requested > 0 then requested else current
    ensures forall q :: q in u.restored ==> q == current && q > 0
    ensures u.restored == [current] <==> current > 0 && u.clientPort != current
    ensures u.clientPort !in u.restored
  {
    if requested <= 0 || requested == current then PortUpdate(current, [])
    else PortUpdate(requested, if current > 0 then [current] else [])
  }

  /** Where getPureFileName starts looking for the path: 8 characters past the
      last "rtsp:", or index 7 when the URI holds no "rtsp:". */
  function HostStart(uri: string): (h: int)
    ensures h >= 7
    ensures h == 7 <==> forall j :: !OccursAt(uri, "rtsp:", j)
    ensures h > 7 ==> OccursAt(uri, "rtsp:", h - 8) && forall j :: h - 8 < j ==> !OccursAt(uri, "rtsp:", j)
  {
    LastIndexOf(uri, "rtsp:") + 8
  }

  /** `uri[b..e]` is the path part of `uri` searched from index `h`: it starts
      at the first '/' at or after `h` and ends at the end of `uri`, less one
      trailing '/'. */
  ghost predicate PathBoundsFrom(uri: string, h: int, b: int, e: int)
  {
    && 0 <= h <= b <= e <= |uri|
    && b < |uri| && uri[b] == '/'
    && '/' !in uri[h..b]
    && ((e == |uri| && uri[|uri| - 1] != '/') || (e == |uri| - 1 && uri[e] == '/'))
  }

  /** The path part of an rtsp URI: searched from HostStart(uri). */
  ghost predicate PathBounds(uri: string, b: int, e: int)
  {
    PathBoundsFrom(uri, HostStart(uri), b, e)
  }

  class RtspUnit {
    const rtspUnitId: string
    const serverPort: int
    const rtspChannel: NettyChannel
    const rtcpChannel: NettyChannel
    var registered: bool
    var congestionLevel: int
    var clientPort: int
    var streamer: Streamer?

    /** A fresh unit: opens its RTSP channel on listenIp:listenPort and its
        RTCP channel on listenIp:RtcpListenPort; not registered, no client
        port, no congestion, no streamer. */
    constructor (id: string, listenIp: string, listenPort: int, channels: NettyChannelManager)
      modifies channels`openedChannels
      ensures rtspUnitId == id && serverPort == listenPort
      ensures rtspChannel == NettyChannel(listenIp, listenPort, Rtsp)
      ensures rtcpChannel == NettyChannel(listenIp, RtcpListenPort, Rtcp)
      ensures channels.openedChannels == old(channels.openedChannels) + [rtspChannel, rtcpChannel]
      ensures !registered && congestionLevel == 0 && clientPort == 0 && streamer == null
    {
      rtspUnitId := id;
      serverPort := listenPort;
      var rtsp := channels.OpenChannel(listenIp, listenPort, Rtsp);
      var rtcp := channels.OpenChannel(listenIp, RtcpListenPort, Rtcp);
      rtspChannel, rtcpChannel := rtsp, rtcp;
      registered, congestionLevel, clientPort, streamer := false, 0, 0, null;
    }

    method SetStreamer(s: Streamer?)
      modifies this`streamer
      ensures streamer == s
    {
      streamer := s;
    }

    method SetCongestionLevel(level: int)
      modifies this`congestionLevel
      ensures congestionLevel == level
    {
      congestionLevel := level;
    }

    method SetRegistered(b: bool)
      modifies this`registered
      ensures registered == b
    {
      registered := b;
    }

    /** setClientPort as written: see ClientPortUpdate. */
    method SetClientPort(port: int, resources: ResourceManager)
      modifies this`clientPort, resources
      ensures clientPort == ClientPortUpdate(old(clientPort), port).clientPort
      ensures resources.restoredPorts == old(resources.restoredPorts) + ClientPortUpdate(old(clientPort), port).restored
    {
      if port <= 0 {
        return;
      }
      if clientPort != port {
        clientPort := port;
        resources.RestorePort(port);
      }
    }

    /** setClientPort with replace-and-release: see ClientPortReplace. */
    method ReplaceClientPort(port: int, resources: ResourceManager)
      modifies this`clientPort, resources
      ensures clientPort == ClientPortReplace(old(clientPort), port).clientPort
      ensures resources.restoredPorts == old(resources.restoredPorts) + ClientPortReplace(old(clientPort), port).restored
    {
      if port <= 0 {
        return;
      }
      if clientPort != port {
        var previous := clientPort;
        clientPort := port;
        if previous > 0 {
          resources.RestorePort(previous);
        }
      }
    }

    /** getPureFileName: the path part of an rtsp URI, any other string as it
        is; None where Java's substring throws StringIndexOutOfBoundsException. */
    static function GetPureFileName(uri: string): (r: Option<string>)
      ensures !StartsWith(uri, "rtsp") ==> r == Some(uri)
      ensures StartsWith(uri, "rtsp") ==>
                (r.None? <==> HostStart(uri) > |uri| || '/' !in uri[HostStart(uri)..])
    {
      if !StartsWith(uri, "rtsp") then Some(uri)
      else
        var start := HostStart(uri);
        if start > |uri| then None
        else
          var rtspStr := uri[start..];
          var slash := IndexOf(rtspStr, '/');
          if slash < 0 then None
          else
            var cur := rtspStr[slash..];
            if cur[|cur| - 1] == '/' then Some(cur[..|cur| - 1]) else Some(cur)
    }
  }

  /** The tail of getPureFileName, from the first '/' at or after `h` with
      one trailing '/' dropped, is the substring that PathBoundsFrom describes. */
  lemma PathPartAt(uri: string, h: int)
    requires 0 <= h <= |uri| && IndexOf(uri[h..], '/') >= 0
    ensures var rtspStr := uri[h..];
            var cur := rtspStr[IndexOf(rtspStr, '/')..];
            exists b, e :: PathBoundsFrom(uri, h, b, e) && (if cur[|cur| - 1] == '/' then cur[..|cur| - 1] else cur) == uri[b..e]
  {
    var rtspStr := uri[h..];
    var slash := IndexOf(rtspStr, '/');
    var b := h + slash;
    assert uri[h..b] == rtspStr[..slash];
    var e := if uri[|uri| - 1] == '/' then |uri| - 1 else |uri|;
    assert rtspStr[slash..] == uri[b..];
    assert PathBoundsFrom(uri, h, b, e);
  }

  /** For an rtsp URI the result is the contiguous path part described by PathBounds. */
  lemma PureFileNameIsPathPart(uri: string)
    requires StartsWith(uri, "rtsp") && RtspUnit.GetPureFileName(uri).Some?
    ensures exists b, e :: PathBounds(uri, b, e) && RtspUnit.GetPureFileName(uri).value == uri[b..e]
  {
    var h := HostStart(uri);
    var rtspStr := uri[h..];
    var cur := rtspStr[IndexOf(rtspStr, '/')..];
    assert RtspUnit.GetPureFileName(uri) == Some(if cur[|cur| - 1] == '/' then cur[..|cur| - 1] else cur);
    PathPartAt(uri, h);
  }

  /** The last "rtsp:" of the example URI is its prefix, so the search starts at index 8. */
  lemma ExampleHostStart()
    ensures HostStart("rtsp://host:8554/live/cam/") == 8
  {
    var uri := "rtsp://host:8554/live/cam/";
    assert uri[..5] == "rtsp:";
    assert uri[1..] == "tsp://ho" + "st:8554/" + "live/cam/";
    assert 'r' !in "tsp://ho" && 'r' !in "st:8554/" && 'r' !in "live/cam/";
    LastIndexOfUniquePrefix(uri, "rtsp:");
  }

  /** From index 8 of the example URI, the first '/' is 8 characters further on. */
  lemma ExampleFirstSlash()
    ensures IndexOf("rtsp://host:8554/live/cam/"[8..], '/') == 8
  {
    var t := "rtsp://host:8554/live/cam/"[8..];
    assert t[8] == '/';
    assert '/' !in t[..8];
    assert t[8] in t;
  }

  /** getPureFileName("rtsp://host:8554/live/cam/") is "/live/cam". */
  lemma PureFileNameExample()
    ensures RtspUnit.GetPureFileName("rtsp://host:8554/live/cam/") == Some("/live/cam")
  {
    ExampleHostStart();
    ExampleFirstSlash();
    assert StartsWith("rtsp://host:8554/live/cam/", "rtsp");
    assert "rtsp://host:8554/live/cam/"[8..][8..] == "/live/cam/";
    assert "/live/cam/"[..9] == "/live/cam";
  }
}

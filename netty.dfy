/** The transport collaborators the core calls: NettyChannelManager (open and
    delete channels) and the register channel (send a response). Their socket
    work is not modelled; each call is recorded, in order, in a log field. */
module Netty {
  import opened Protocol

  datatype NettyChannelType = Rtsp | Rtcp

  /** A channel bound to ip:port for a role. */
  datatype NettyChannel = NettyChannel(ip: string, port: int, kind: NettyChannelType)

  class NettyChannelManager {
    var openedChannels: seq<NettyChannel>
    var deletedRtspChannels: seq<string>
    var deletedRtcpChannels: seq<string>

    constructor ()
      ensures openedChannels == [] && deletedRtspChannels == [] && deletedRtcpChannels == []
    {
      openedChannels, deletedRtspChannels, deletedRtcpChannels := [], [], [];
    }

    method OpenChannel(ip: string, port: int, kind: NettyChannelType) returns (ch: NettyChannel)
      modifies this`openedChannels
      ensures ch == NettyChannel(ip, port, kind)
      ensures openedChannels == old(openedChannels) + [ch]
    {
      ch := NettyChannel(ip, port, kind);
      openedChannels := openedChannels + [ch];
    }

    method DeleteRtspChannel(id: string)
      modifies this`deletedRtspChannels
      ensures deletedRtspChannels == old(deletedRtspChannels) + [id]
    {
      deletedRtspChannels := deletedRtspChannels + [id];
    }

    method DeleteRtcpChannel(id: string)
      modifies this`deletedRtcpChannels
      ensures deletedRtcpChannels == old(deletedRtcpChannels) + [id]
    {
      deletedRtcpChannels := deletedRtcpChannels + [id];
    }
  }

  /** One datagram handed to the transport: destination host, port and message. */
  datatype Sent = Sent(host: string, port: int, res: RegisterRtspUnitRes)

  /** The register channel; `outbox` is every response sent through it, in order. */
  class RtspRegisterNettyChannel {
    var outbox: seq<Sent>

    constructor ()
      ensures outbox == []
    {
      outbox := [];
    }

    method SendResponse(host: string, port: int, res: RegisterRtspUnitRes)
      modifies this
      ensures outbox == old(outbox) + [Sent(host, port, res)]
    {
      outbox := outbox + [Sent(host, port, res)];
    }
  }
}

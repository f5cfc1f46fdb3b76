/** The session registry (RtspManager): the map from unit id to RtspUnit, with
    put-if-absent creation, single close and close-all. Closing a unit deletes
    its RTSP and RTCP channels and gives a positive server port back to the
    port pool. */
module Registry {
  import opened Netty
  import opened Resources
  import opened Units

  /** The ports that closing a unit with this server port restores. */
  function PortToRestore(serverPort: int): (r: seq<int>)
  {
    if serverPort > 0 then [serverPort] else []
  }

  /** The ports restored, in order, by closing the units `ids` of `units` one after another. */
  function RestoredPorts(units: map<string, RtspUnit>, ids: seq<string>): (r: seq<int>)
    requires forall i :: 0 <= i < |ids| ==> ids[i] in units
    decreases |ids|
  {
    if ids == [] then []
    else RestoredPorts(units, ids[..|ids| - 1]) + PortToRestore(units[ids[|ids| - 1]].serverPort)
  }

  /** Closing one more unit appends its restored port, if any. */
  lemma RestoredPortsAppend(units: map<string, RtspUnit>, ids: seq<string>, id: string)
    requires forall i :: 0 <= i < |ids| ==> ids[i] in units
    requires id in units
    ensures RestoredPorts(units, ids + [id]) == RestoredPorts(units, ids) + PortToRestore(units[id].serverPort)
  {
    assert (ids + [id])[..|ids|] == ids;
  }

  /** Appending the next key of `order` to a log of the first `i` keys. */
  lemma LogExtend(log: seq<string>, order: seq<string>, i: nat)
    requires i < |order|
    ensures (log + order[..i]) + [order[i]] == log + order[..i + 1]
  {
    assert order[..i + 1] == order[..i] + [order[i]];
  }

  /** Closing the next unit of `order` extends the restored-port log. */
  lemma RestoredExtend(ports: seq<int>, units: map<string, RtspUnit>, order: seq<string>, i: nat)
    requires i < |order|
    requires forall j :: 0 <= j < |order| ==> order[j] in units
    ensures (ports + RestoredPorts(units, order[..i])) + PortToRestore(units[order[i]].serverPort)
            == ports + RestoredPorts(units, order[..i + 1])
  {
    assert order[..i + 1] == order[..i] + [order[i]];
    RestoredPortsAppend(units, order[..i], order[i]);
  }

  lemma MapMinusTwice(m: map<string, RtspUnit>, a: set<string>, b: set<string>)
    ensures (m - a) - b == m - (a + b)
  {
  }

  /** Closing units restores only positive ports, each the server port of a
      closed unit, and restores the positive server port of every closed unit. */
  lemma {:induction false} RestoredPortsAreServerPorts(units: map<string, RtspUnit>, ids: seq<string>)
    requires forall i :: 0 <= i < |ids| ==> ids[i] in units
    ensures var ports := RestoredPorts(units, ids);
      && |ports| <= |ids|
      && (forall j :: 0 <= j < |ports| ==> ports[j] > 0)
      && (forall j :: 0 <= j < |ports| ==> exists i :: 0 <= i < |ids| && units[ids[i]].serverPort == ports[j])
      && (forall i :: 0 <= i < |ids| && units[ids[i]].serverPort > 0 ==> units[ids[i]].serverPort in ports)
    decreases |ids|
  {
    if ids != [] {
      var front := ids[..|ids| - 1];
      RestoredPortsAreServerPorts(units, front);
      var ports := RestoredPorts(units, ids);
      var last := units[ids[|ids| - 1]].serverPort;
      assert ports == RestoredPorts(units, front) + PortToRestore(last);
      forall j | 0 <= j < |ports|
        ensures exists i :: 0 <= i < |ids| && units[ids[i]].serverPort == ports[j]
      {
        if j < |RestoredPorts(units, front)| {
          var i :| 0 <= i < |front| && units[front[i]].serverPort == ports[j];
          assert ids[i] == front[i];
        } else {
          assert units[ids[|ids| - 1]].serverPort == ports[j];
        }
      }
      forall i | 0 <= i < |ids| && units[ids[i]].serverPort > 0
        ensures units[ids[i]].serverPort in ports
      {
        if i < |front| {
          assert ids[i] == front[i];
        }
      }
    }
  }

  /** `order` is an iteration order of `m`'s entry set: every key exactly once. */
  predicate IsIterationOrder(order: seq<string>, m: map<string, RtspUnit>)
  {
    && (forall k :: k in m ==> k in order)
    && (forall i :: 0 <= i < |order| ==> order[i] in m)
    && (forall i, j :: 0 <= i < j < |order| ==> order[i] != order[j])
  }

  class RtspManager {
    var rtspUnitMap: map<string, RtspUnit>
    const channels: NettyChannelManager
    const resources: ResourceManager

    /** Every entry is keyed by its own unit's id. */
    ghost predicate Valid()
      reads this
    {
      forall id :: id in rtspUnitMap ==> rtspUnitMap[id].rtspUnitId == id
    }

    constructor (channels: NettyChannelManager, resources: ResourceManager)
      ensures Valid() && rtspUnitMap == map[]
      ensures this.channels == channels && this.resources == resources
    {
      rtspUnitMap := map[];
      this.channels := channels;
      this.resources := resources;
    }

    /** getRtspUnit: the unit registered under `id`, or null. */
    function GetRtspUnit(id: string): (u: RtspUnit?)
      reads this
      ensures u == null <==> id !in rtspUnitMap
      ensures u != null ==> u == rtspUnitMap[id]
    {
      if id in rtspUnitMap then rtspUnitMap[id] else null
    }

    /** openRtspUnit: builds a unit (opening its two channels) and adds it only
        when `id` is absent; an existing entry is kept. */
    method OpenRtspUnit(id: string, ip: string, port: int)
      requires Valid()
      modifies this, channels`openedChannels
      ensures Valid()
      ensures channels.openedChannels == old(channels.openedChannels) + [NettyChannel(ip, port, Rtsp), NettyChannel(ip, RtcpListenPort, Rtcp)]
      ensures id in old(rtspUnitMap) ==> rtspUnitMap == old(rtspUnitMap)
      ensures id !in old(rtspUnitMap) ==>
                && id in rtspUnitMap
                && rtspUnitMap == old(rtspUnitMap)[id := rtspUnitMap[id]]
                && fresh(rtspUnitMap[id])
      ensures id !in old(rtspUnitMap) ==>
                var u := rtspUnitMap[id];
                && u.rtspUnitId == id && u.serverPort == port
                && !u.registered && u.clientPort == 0 && u.congestionLevel == 0 && u.streamer == null
    {
      var unit := new RtspUnit(id, ip, port, channels);
      if id !in rtspUnitMap {
        rtspUnitMap := rtspUnitMap[id := unit];
      }
    }

    /** closeRtspUnit: deletes the unit's channels, restores its positive
        server port and removes the entry. For an absent id the channel
        deletions still happen, then the null unit throws and nothing else
        changes. */
    method CloseRtspUnit(id: string)
      requires Valid()
      modifies this, channels`deletedRtspChannels, channels`deletedRtcpChannels, resources
      ensures Valid()
      ensures rtspUnitMap == old(rtspUnitMap) - {id}
      ensures channels.deletedRtspChannels == old(channels.deletedRtspChannels) + [id]
      ensures channels.deletedRtcpChannels == old(channels.deletedRtcpChannels) + [id]
      ensures resources.restoredPorts == old(resources.restoredPorts) +
                (if id in old(rtspUnitMap) then PortToRestore(old(rtspUnitMap)[id].serverPort) else [])
    {
      var unit := GetRtspUnit(id);
      channels.DeleteRtspChannel(id);
      channels.DeleteRtcpChannel(id);
      if unit == null {
        return;
      }
      var port := unit.serverPort;
      if port > 0 {
        resources.RestorePort(port);
      }
      rtspUnitMap := rtspUnitMap - {id};
    }

    /** closeAllRtspUnits as written: it removes entries from the map while
        iterating over it, so the iterator's next() after the first removal
        throws ConcurrentModificationException, which is caught. Only the
        first entry in iteration order is closed. */
    method CloseAllRtspUnits(order: seq<string>)
      requires Valid() && IsIterationOrder(order, rtspUnitMap)
      modifies this, channels`deletedRtspChannels, channels`deletedRtcpChannels, resources
      ensures Valid()
      ensures order == [] ==>
                && rtspUnitMap == old(rtspUnitMap)
                && channels.deletedRtspChannels == old(channels.deletedRtspChannels)
                && channels.deletedRtcpChannels == old(channels.deletedRtcpChannels)
                && resources.restoredPorts == old(resources.restoredPorts)
      ensures order != [] ==>
                && rtspUnitMap == old(rtspUnitMap) - {order[0]}
                && channels.deletedRtspChannels == old(channels.deletedRtspChannels) + [order[0]]
                && channels.deletedRtcpChannels == old(channels.deletedRtcpChannels) + [order[0]]
                && resources.restoredPorts == old(resources.restoredPorts) + PortToRestore(old(rtspUnitMap)[order[0]].serverPort)
    {
      var i := 0;
      var modified := false;  // the map's modCount no longer matches the iterator's
      while i < |order|
        invariant 0 <= i <= |order|
        invariant Valid()
        invariant modified <==> i > 0
        invariant i <= 1
        invariant rtspUnitMap == old(rtspUnitMap) - (if i == 0 then {} else {order[0]})
        invariant channels.deletedRtspChannels == old(channels.deletedRtspChannels) + order[..i]
        invariant channels.deletedRtcpChannels == old(channels.deletedRtcpChannels) + order[..i]
        invariant resources.restoredPorts == old(resources.restoredPorts) +
                    (if i == 0 then [] else PortToRestore(old(rtspUnitMap)[order[0]].serverPort))
      {
        if modified {
          break;  // next() throws ConcurrentModificationException
        }
        var unit := rtspUnitMap[order[i]];
        channels.DeleteRtspChannel(unit.rtspUnitId);
        channels.DeleteRtcpChannel(unit.rtspUnitId);
        var port := unit.serverPort;
        if port > 0 {
          resources.RestorePort(port);
        }
        rtspUnitMap := rtspUnitMap - {unit.rtspUnitId};
        modified := true;
        i := i + 1;
      }
    }

    /** closeAllRtspUnits over a snapshot of the live entries: every unit is
        closed, in iteration order, and the map ends empty. */
    method CloseAllRtspUnitsFromSnapshot(order: seq<string>)
      requires Valid() && IsIterationOrder(order, rtspUnitMap)
      modifies this, channels`deletedRtspChannels, channels`deletedRtcpChannels, resources
      ensures Valid() && rtspUnitMap == map[]
      ensures channels.deletedRtspChannels == old(channels.deletedRtspChannels) + order
      ensures channels.deletedRtcpChannels == old(channels.deletedRtcpChannels) + order
      ensures resources.restoredPorts == old(resources.restoredPorts) + RestoredPorts(old(rtspUnitMap), order)
    {
      var live := rtspUnitMap;
      ghost var closed: set<string> := {};
      var i := 0;
      while i < |order|
        invariant 0 <= i <= |order|
        invariant rtspUnitMap == live - closed
        invariant forall j :: 0 <= j < i ==> order[j] in closed
        invariant forall j :: i <= j < |order| ==> order[j] !in closed
        invariant channels.deletedRtspChannels == old(channels.deletedRtspChannels) + order[..i]
        invariant channels.deletedRtcpChannels == old(channels.deletedRtcpChannels) + order[..i]
        invariant resources.restoredPorts == old(resources.restoredPorts) + RestoredPorts(live, order[..i])
      {
        CloseRtspUnit(order[i]);
        LogExtend(old(channels.deletedRtspChannels), order, i);
        LogExtend(old(channels.deletedRtcpChannels), order, i);
        RestoredExtend(old(resources.restoredPorts), live, order, i);
        MapMinusTwice(live, closed, {order[i]});
        closed := closed + {order[i]};
        i := i + 1;
      }
      assert order[..|order|] == order;
      assert live.Keys <= closed;
    }
  }

  /** Two registered units and one closeAllRtspUnits: one unit is left behind. */
  method CloseAllLeavesSecondUnit() returns (remaining: set<string>)
    ensures remaining == {"cam-02"}
  {
    var channels := new NettyChannelManager();
    var resources := new ResourceManager();
    var manager := new RtspManager(channels, resources);
    manager.OpenRtspUnit("cam-01", "127.0.0.1", 0);
    manager.OpenRtspUnit("cam-02", "127.0.0.1", 0);
    manager.CloseAllRtspUnits(["cam-01", "cam-02"]);
    remaining := manager.rtspUnitMap.Keys;
  }
}

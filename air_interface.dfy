/**
 * The gateway's shared channel. It keeps an append-only registry of every
 * packet put on the air, a per-node measurement log and two counters. It
 * writes each packet's received power and SNR when the packet is registered,
 * and decides when the packet has been received whether it collided.
 *
 * The propagation model, the SNR model and the distance between locations
 * are external: they are functions the air interface is built with. The
 * simulation clock is external too: the current time is passed in.
 */
module Channel {
  import opened LoRa
  import opened Collision
  import opened MeasurementLog

  /** `log` holds one well-formed record per node with a packet in `ps`, and
      that record has one sample per such packet. */
  ghost predicate LogMatches(log: map<NodeId, Measurements>, ps: seq<Packet>)
  {
    && (forall id :: id in log ==>
          && log[id].WellFormed()
          && 0 < SentBy(ps, id)
          && log[id].Size() == SentBy(ps, id))
    && (forall k :: 0 <= k < |ps| ==> ps[k].node.id in log)
  }

  lemma SentByAppend(ps: seq<Packet>, p: Packet, id: NodeId)
    ensures SentBy(ps + [p], id) == SentBy(ps, id) + (if p.node.id == id then 1 else 0)
  {
    assert (ps + [p])[..|ps + [p]| - 1] == ps;
  }

  /** Registering `p` and logging its sample keeps the log matched with the registry. */
  lemma RegisterKeepsLogMatching(log: map<NodeId, Measurements>, ps: seq<Packet>, p: Packet,
                                 t: real, r: real, s: real)
    requires LogMatches(log, ps)
    ensures LogMatches(AppendSample(log, p.node.id, t, r, s), ps + [p])
  {
    var id0 := p.node.id;
    var log' := AppendSample(log, id0, t, r, s);
    forall id | id in log'
      ensures log'[id].WellFormed() && 0 < SentBy(ps + [p], id) && log'[id].Size() == SentBy(ps + [p], id)
    {
      SentByAppend(ps, p, id);
      if id == id0 {
        if id !in log {
          NoPacketNoSamples(log, ps, id);
        }
      } else {
        assert log'[id] == log[id];
      }
    }
    forall k | 0 <= k < |ps + [p]|
      ensures (ps + [p])[k].node.id in log'
    {
      if k < |ps| {
        assert (ps + [p])[k] == ps[k];
      }
    }
  }

  /** A node without a record has no packet in the registry. */
  lemma NoPacketNoSamples(log: map<NodeId, Measurements>, ps: seq<Packet>, id: NodeId)
    requires LogMatches(log, ps) && id !in log
    ensures SentBy(ps, id) == 0
  {
    SentByPositive(ps, id);
  }

  class AirInterface {
    var numOfPacketsCollided: nat
    var numOfPacketsSend: nat
    /** The 'time', 'rss' and 'snr' lists of every node that has transmitted. */
    var propMeasurements: map<NodeId, Measurements>
    /** Every packet ever registered, in registration order; never pruned. */
    var packagesInAir: seq<Packet>

    const gateway: Gateway
    /** Propagation model: (indoor, transmit power, distance) to received power. */
    const tpToRss: (bool, real, real) -> real
    /** SNR model: received power to signal-to-noise ratio. */
    const rssToSnr: real -> real
    /** Geometric distance between two locations. */
    const distance: (Location, Location) -> real

    /** The object invariant: one registry entry per packet sent, and one
        well-formed record per node that sent something, holding exactly one
        sample per packet of that node. */
    ghost predicate Valid()
      reads this
    {
      numOfPacketsSend == |packagesInAir| && LogMatches(propMeasurements, packagesInAir)
    }

    /** What the collision tests see of the registry. */
    function Registry(): seq<Uplink>
      reads this, packagesInAir
    {
      Views(packagesInAir)
    }

    /** The received power the propagation model gives for `packet`. */
    function RssFor(packet: Packet): real
      reads this
    {
      tpToRss(packet.node.location.indoor, packet.param.tp, distance(gateway.location, packet.node.location))
    }

    constructor (gateway: Gateway, tpToRss: (bool, real, real) -> real, rssToSnr: real -> real,
                 distance: (Location, Location) -> real)
      ensures Valid() && AllOrdered(propMeasurements)
      ensures numOfPacketsCollided == 0 && numOfPacketsSend == 0
      ensures packagesInAir == [] && propMeasurements == map[]
      ensures this.gateway == gateway && this.tpToRss == tpToRss
      ensures this.rssToSnr == rssToSnr && this.distance == distance
    {
      numOfPacketsCollided := 0;
      propMeasurements := map[];
      numOfPacketsSend := 0;
      this.gateway := gateway;
      packagesInAir := [];
      this.tpToRss := tpToRss;
      this.rssToSnr := rssToSnr;
      this.distance := distance;
    }

    /** Reception check: `packet` collided if it was already marked, or if
        some registry entry from another node passes all four tests with
        `packet` as the candidate. Only `packet`'s flag may change, and only
        from false to true. */
    method Collision(packet: Packet) returns (r: bool)
      modifies packet`collided
      ensures r == packet.collided
      ensures r <==> old(packet.collided) || HasCollider(old(Registry()), old(packet.View()))
    {
      if packet.collided {
        return true;
      }
      ghost var reg := Registry();
      ghost var me := packet.View();
      for i := 0 to |packagesInAir|
        invariant packet.View() == me
        invariant forall k :: 0 <= k < |reg| ==> reg[k] == packagesInAir[k].View()
        invariant packet.collided <==> exists k :: 0 <= k < i && Interferes(me, reg[k])
      {
        var other := packagesInAir[i];
        if other.node.id != packet.node.id {
          if FrequencyCollision(packet.View(), other.View()) {
            if SfCollision(packet.View(), other.View()) {
              if TimingCollision(packet.View(), other.View()) {
                if PowerCollision(packet.View(), other.View()) {
                  packet.collided := true;
                }
              }
            }
          }
        }
      }
      r := packet.collided;
    }

    /** Registers a packet that starts its transmission at time `now`. */
    method PacketInAir(packet: Packet, now: real)
      requires Valid()
      modifies this, packet`rss, packet`snr
      ensures Valid()
      ensures numOfPacketsSend == old(numOfPacketsSend) + 1
      ensures numOfPacketsCollided == old(numOfPacketsCollided)
      ensures packagesInAir == old(packagesInAir) + [packet]
      ensures packet.rss == RssFor(packet) && packet.snr == rssToSnr(packet.rss)
      ensures propMeasurements == AppendSample(old(propMeasurements), packet.node.id, now, packet.rss, packet.snr)
    {
      var nodeId := packet.node.id;
      var rss := RssFor(packet);
      var snr := rssToSnr(rss);
      RegisterKeepsLogMatching(propMeasurements, packagesInAir, packet, now, rss, snr);
      numOfPacketsSend := numOfPacketsSend + 1;
      var log := propMeasurements;
      if nodeId !in log {
        log := log[nodeId := Empty];
      }
      packet.rss := rss;
      packet.snr := snr;
      log := log[nodeId := log[nodeId].Append(now, rss, snr)];
      assert log == AppendSample(propMeasurements, nodeId, now, rss, snr);
      propMeasurements := log;
      packagesInAir := packagesInAir + [packet];
    }

    /** The packet has been fully received: reports whether it collided and
        counts it if so. The registry keeps every packet. */
    method PacketReceived(packet: Packet) returns (collided: bool)
      modifies this`numOfPacketsCollided, packet`collided
      ensures collided == packet.collided
      ensures collided <==> old(packet.collided) || HasCollider(old(Registry()), old(packet.View()))
      ensures numOfPacketsCollided == old(numOfPacketsCollided) + (if collided then 1 else 0)
      ensures packagesInAir == old(packagesInAir) && numOfPacketsSend == old(numOfPacketsSend)
    {
      collided := Collision(packet);
      if collided {
        numOfPacketsCollided := numOfPacketsCollided + 1;
      }
    }

    /** The measurement record of node `id`; not found if it never transmitted. */
    function GetPropMeasurements(id: NodeId): (r: Lookup)
      reads this
      requires Valid()
      ensures r.Found? <==> 0 < SentBy(packagesInAir, id)
      ensures r.Found? ==> r.record.WellFormed() && r.record.Size() == SentBy(packagesInAir, id)
    {
      if id in propMeasurements then Found(propMeasurements[id])
      else
        NoPacketNoSamples(propMeasurements, packagesInAir, id);
        NotFound(id)
    }
  }
}

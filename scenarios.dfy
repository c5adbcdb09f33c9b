/**
 * Client code that uses only the contracts of the air interface: what a
 * simulation driver can rely on when it registers packets and checks their
 * reception.
 */
module Scenarios {
  import opened LoRa
  import opened Collision
  import opened MeasurementLog
  import opened Channel

  /** A channel at a gateway in the origin; the received power is the
      transmit power minus the distance, and the SNR equals it. */
  method NewChannel() returns (air: AirInterface)
    ensures fresh(air) && air.Valid() && air.packagesInAir == [] && air.propMeasurements == map[]
    ensures air.numOfPacketsSend == 0 && air.numOfPacketsCollided == 0
  {
    var gw := Gateway(Location(0.0, 0.0, false));
    air := new AirInterface(gw, (indoor: bool, tp: real, d: real) => tp - d, (r: real) => r,
                            (a: Location, b: Location) => 0.0);
  }

  /** At SF7 and 125 kHz the critical section starts 3 * 128 / 125 after the start. */
  lemma CriticalStartSf7(u: Uplink)
    requires u.param.sf == 7 && u.param.bw == 125
    ensures CriticalStart(u) == u.start + 3.072
  {
    assert Pow2(7) == 128;
  }

  /** Two packets that interfere with each other both find a collider in a
      registry holding just the two of them. */
  lemma PairHasColliders(x: Uplink, y: Uplink)
    requires Interferes(x, y) && Interferes(y, x)
    ensures HasCollider([x, y], x) && HasCollider([x, y], y)
  {
    assert [x, y][1] == y && [x, y][0] == x;
  }

  /** Registers two packets of different nodes that overlap completely on
      the same channel; sent from the same place with the same power, they
      arrive with the same received power. */
  method TwoOverlappingPackets() returns (air: AirInterface, a: Packet, b: Packet)
    ensures fresh(air) && fresh(a) && fresh(b)
    ensures air.packagesInAir == [a, b] && air.numOfPacketsSend == 2 && air.numOfPacketsCollided == 0
    ensures !a.collided && !b.collided && a.rss == b.rss
    ensures a.node.id == 1 && b.node.id == 2 && a.param == b.param == LoRaParam(868.1, 7, 125, 14.0)
    ensures a.start == b.start == 0.0 && a.toa == b.toa == 10.0
  {
    air := NewChannel();
    var loc := Location(1.0, 1.0, false);
    var param := LoRaParam(868.1, 7, 125, 14.0);
    a := new Packet(Node(1, loc), param, 0.0, 10.0);
    b := new Packet(Node(2, loc), param, 0.0, 10.0);
    air.PacketInAir(a, 0.0);
    air.PacketInAir(b, 0.0);
  }

  /** The two packets of `TwoOverlappingPackets` destroy each other. */
  lemma OverlappingPairCollides(x: Uplink, y: Uplink)
    requires x.node.id == 1 && y.node.id == 2 && x.param == y.param == LoRaParam(868.1, 7, 125, 14.0)
    requires x.start == y.start == 0.0 && x.toa == y.toa == 10.0 && x.rss == y.rss
    ensures HasCollider([x, y], x) && HasCollider([x, y], y)
  {
    CriticalStartSf7(x);
    FullOverlapCollides(x, y);
    PairHasColliders(x, y);
  }

  /** Receiving A marks A as collided and counts it; B's flag is not touched
      until B itself is received. Receiving A again answers true again and
      counts it again; the registry keeps both packets throughout. */
  method OneSidedMarking() returns (first: bool, otherMarked: bool, again: bool, collidedCount: nat, registered: nat)
    ensures first && !otherMarked
    ensures again && collidedCount == 2 && registered == 2
  {
    var air, a, b := TwoOverlappingPackets();
    OverlappingPairCollides(a.View(), b.View());
    assert air.Registry() == [a.View(), b.View()];
    first := air.PacketReceived(a);
    otherMarked := b.collided;
    again := air.PacketReceived(a);
    collidedCount := air.numOfPacketsCollided;
    registered := |air.packagesInAir|;
  }

  /** Node `node` puts a new packet on the air at time `t`. */
  method SendAt(air: AirInterface, node: Node, t: real)
    requires air.Valid()
    modifies air
    ensures air.Valid() && air.numOfPacketsSend == old(air.numOfPacketsSend) + 1
    ensures air.propMeasurements.Keys == old(air.propMeasurements.Keys) + {node.id}
    ensures air.propMeasurements[node.id].time == RecordOf(old(air.propMeasurements), node.id).time + [t]
  {
    var p := new Packet(node, LoRaParam(868.3, 9, 250, 10.0), t, 1.0);
    air.PacketInAir(p, t);
  }

  /** A lone node transmitting at times 0, 5 and 9 finds its three samples
      in that order, and a node that never transmitted is not found. */
  method MeasurementOrder() returns (times: seq<real>, unknownFound: bool, registered: nat)
    ensures times == [0.0, 5.0, 9.0] && !unknownFound && registered == 3
  {
    var air := NewChannel();
    var node := Node(7, Location(3.0, 4.0, true));
    SendAt(air, node, 0.0);
    SendAt(air, node, 5.0);
    SendAt(air, node, 9.0);
    var found := air.GetPropMeasurements(7);
    times := if found.Found? then found.record.time else [];
    unknownFound := air.GetPropMeasurements(8).Found?;
    registered := air.numOfPacketsSend;
  }
}

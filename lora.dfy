/**
 * Value objects the air interface consumes: node identity and location, the
 * LoRa radio parameters of an uplink, and the uplink packet itself.
 *
 * The packet is an object: its radio and timing parameters are fixed when it
 * is built, while the air interface writes its received power, its SNR and
 * its collision flag in place.
 */
module LoRa {

  type NodeId = int

  /** A duration that cannot be negative (the time on air of a packet). */
  type NonNegReal = r: real | 0.0 <= r witness 0.0

  /** A channel bandwidth; the timing test divides by it, so it is positive. */
  type Bandwidth = b: int | 0 < b witness 125

  /** Position of a node or gateway; `indoor` selects the propagation variant. */
  datatype Location = Location(x: real, y: real, indoor: bool)

  datatype Node = Node(id: NodeId, location: Location)

  datatype Gateway = Gateway(location: Location)

  /** Radio parameters of one uplink: centre frequency, spreading factor,
      bandwidth and transmit power. */
  datatype LoRaParam = LoRaParam(freq: real, sf: nat, bw: Bandwidth, tp: real)

  /** A snapshot of everything the collision tests read from a packet. */
  datatype Uplink = Uplink(node: Node, param: LoRaParam, start: real, toa: NonNegReal, rss: real)

  /** 2 raised to `n`. */
  function Pow2(n: nat): nat
  {
    if n == 0 then 1 else 2 * Pow2(n - 1)
  }

  /** An uplink message in flight. */
  class Packet {
    const node: Node
    const param: LoRaParam
    const start: real
    /** Time on air, as computed by the packet itself from its payload and
        radio parameters (that computation is not part of this model). */
    const toa: NonNegReal
    var rss: real
    var snr: real
    var collided: bool

    constructor (node: Node, param: LoRaParam, start: real, toa: NonNegReal)
      ensures this.node == node && this.param == param
      ensures this.start == start && this.toa == toa
      ensures !collided
    {
      this.node := node;
      this.param := param;
      this.start := start;
      this.toa := toa;
      rss := 0.0;
      snr := 0.0;
      collided := false;
    }

    /** The values the collision tests see. Only `rss` is mutable among them. */
    function View(): Uplink
      reads this`rss
    {
      Uplink(node, param, start, toa, rss)
    }
  }

  /** The snapshots of a sequence of packets, position by position. */
  function Views(ps: seq<Packet>): (vs: seq<Uplink>)
    reads ps
    ensures |vs| == |ps|
    ensures forall k :: 0 <= k < |ps| ==> vs[k] == ps[k].View()
  {
    if ps == [] then [] else [ps[0].View()] + Views(ps[1..])
  }

  /** How many packets in `ps` were sent by node `id`. */
  function SentBy(ps: seq<Packet>, id: NodeId): nat
  {
    if ps == [] then 0
    else SentBy(ps[..|ps| - 1], id) + (if ps[|ps| - 1].node.id == id then 1 else 0)
  }

  /** A node has sent something exactly when one of the packets is its own. */
  lemma {:induction false} SentByPositive(ps: seq<Packet>, id: NodeId)
    ensures 0 < SentBy(ps, id) <==> exists k :: 0 <= k < |ps| && ps[k].node.id == id
  {
    if ps != [] {
      var init := ps[..|ps| - 1];
      SentByPositive(init, id);
      if 0 < SentBy(init, id) {
        var k :| 0 <= k < |init| && init[k].node.id == id;
        assert ps[k] == init[k];
      }
      if ps[|ps| - 1].node.id != id {
        forall k | 0 <= k < |ps| && ps[k].node.id == id
          ensures 0 < SentBy(init, id)
        {
          assert init[k] == ps[k];
        }
      }
    }
  }
}

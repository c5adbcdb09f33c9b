/**
 * The pairwise collision evaluator of the gateway's channel: four tests
 * (frequency, spreading factor, timing, power) that must all hold for a
 * packet `me` to be lost because of a packet `other`, and the scan of the
 * in-air registry that the reception check performs, as a specification.
 */
module Collision {
  import opened LoRa

  /** Preamble symbols per packet; the critical section starts after 8 - 5 of them. */
  const NumPreamble: nat := 8

  /** Capture threshold in dB: a signal this much stronger is received cleanly. */
  const PowerThreshold: real := 6.0

  function Abs(x: real): real
  {
    if x < 0.0 then -x else x
  }

  function Max(a: real, b: real): real
  {
    if a < b then b else a
  }

  /*------------------------------------------------------------------------
   * Frequency test
   *------------------------------------------------------------------------*/

  /** The frequency distance within which a channel of bandwidth `bw` is
      disturbed; -1 for a bandwidth outside the three supported classes, so
      that no distance is close enough. */
  function Guard(bw: int): real
  {
    if bw == 500 then 120.0
    else if bw == 250 then 60.0
    else if bw == 125 then 30.0
    else -1.0
  }

  /** The two centre frequencies are within the guard of either packet's
      bandwidth class: the wider channel's guard decides. */
  function FrequencyCollision(p1: Uplink, p2: Uplink): (r: bool)
    ensures r <==> Abs(p1.param.freq - p2.param.freq) <= Max(Guard(p1.param.bw), Guard(p2.param.bw))
  {
    var df := Abs(p1.param.freq - p2.param.freq);
    if df <= 120.0 && (p1.param.bw == 500 || p2.param.bw == 500) then true
    else if df <= 60.0 && (p1.param.bw == 250 || p2.param.bw == 250) then true
    else if df <= 30.0 && (p1.param.bw == 125 || p2.param.bw == 125) then true
    else false
  }

  lemma FrequencyCollisionSymmetric(p1: Uplink, p2: Uplink)
    ensures FrequencyCollision(p1, p2) == FrequencyCollision(p2, p1)
  {
  }

  /** Closed world: when neither bandwidth is 125, 250 or 500, the frequency
      test never reports a collision, however close the frequencies. */
  lemma UnsupportedBandwidthNeverCollides(p1: Uplink, p2: Uplink)
    requires p1.param.bw !in {125, 250, 500} && p2.param.bw !in {125, 250, 500}
    ensures !FrequencyCollision(p1, p2)
  {
  }

  /** Moving two packets' frequencies closer together never removes a
      frequency collision. */
  lemma FrequencyCollisionCloserStillCollides(p1: Uplink, p2: Uplink, q1: Uplink, q2: Uplink)
    requires q1.param.bw == p1.param.bw && q2.param.bw == p2.param.bw
    requires Abs(q1.param.freq - q2.param.freq) <= Abs(p1.param.freq - p2.param.freq)
    requires FrequencyCollision(p1, p2)
    ensures FrequencyCollision(q1, q2)
  {
  }

  /** Each bandwidth class's threshold is inclusive: at exactly the guard
      distance the packets collide, one unit further they do not (when the
      other packet is of the same class). */
  lemma FrequencyThresholdsInclusive(p1: Uplink, p2: Uplink)
    requires p1.param.bw == p2.param.bw && p1.param.bw in {125, 250, 500}
    ensures Abs(p1.param.freq - p2.param.freq) == Guard(p1.param.bw) ==> FrequencyCollision(p1, p2)
    ensures Abs(p1.param.freq - p2.param.freq) == Guard(p1.param.bw) + 1.0 ==> !FrequencyCollision(p1, p2)
  {
  }

  /*------------------------------------------------------------------------
   * Spreading-factor test
   *------------------------------------------------------------------------*/

  /** Different spreading factors are orthogonal. */
  function SfCollision(p1: Uplink, p2: Uplink): bool
  {
    p1.param.sf == p2.param.sf
  }

  lemma SfCollisionSymmetric(p1: Uplink, p2: Uplink)
    ensures SfCollision(p1, p2) == SfCollision(p2, p1)
  {
  }

  /*------------------------------------------------------------------------
   * Timing test
   *------------------------------------------------------------------------*/

  /** Duration of one symbol: 2^sf / bw. */
  function SymbolDuration(p: LoRaParam): real
  {
    Pow2(p.sf) as real / p.bw as real
  }

  /** Start of the critical section: after the first 8 - 5 preamble symbols. */
  function CriticalStart(me: Uplink): real
  {
    me.start + SymbolDuration(me.param) * (NumPreamble - 5) as real
  }

  /** End of the critical section: the end of the packet. */
  function CriticalEnd(me: Uplink): real
  {
    me.start + me.toa
  }

  function End(p: Uplink): real
  {
    p.start + p.toa
  }

  /** `other` is on air during some part of `me`'s critical section. Only
      packets that are on air at the same time can collide on timing. */
  function TimingCollision(me: Uplink, other: Uplink): (r: bool)
    ensures r ==> other.start <= End(me) && me.start <= End(other)
  {
    if End(other) < CriticalStart(me) || other.start > CriticalEnd(me) then false
    else true
  }

  predicate InWindow(t: real, lo: real, hi: real)
  {
    lo <= t <= hi
  }

  /** Whenever `me`'s critical section is not empty, the timing test holds
      exactly when some instant lies both in that section and in `other`'s
      time on air (both closed intervals). */
  lemma TimingCollisionIsOverlap(me: Uplink, other: Uplink)
    requires CriticalStart(me) <= CriticalEnd(me)
    ensures TimingCollision(me, other) <==>
      exists t :: InWindow(t, CriticalStart(me), CriticalEnd(me)) && InWindow(t, other.start, End(other))
  {
    if TimingCollision(me, other) {
      var t := Max(CriticalStart(me), other.start);
      assert InWindow(t, CriticalStart(me), CriticalEnd(me)) && InWindow(t, other.start, End(other));
    }
  }

  /** A packet that starts after `me` has left the air, or ends before `me`'s
      critical section starts, never collides on timing. */
  lemma DisjointPacketsDoNotCollide(me: Uplink, other: Uplink)
    requires other.start > me.start + me.toa || End(other) < CriticalStart(me)
    ensures !TimingCollision(me, other)
  {
  }

  /** The bounds are inclusive: a packet starting exactly when `me` ends, or
      ending exactly when `me`'s critical section starts, collides. */
  lemma TouchingEndpointsCollide(me: Uplink, other: Uplink)
    requires CriticalStart(me) <= CriticalEnd(me)
    requires other.start == CriticalEnd(me) || End(other) == CriticalStart(me)
    ensures TimingCollision(me, other)
  {
  }

  /*------------------------------------------------------------------------
   * Power (capture) test
   *------------------------------------------------------------------------*/

  /** The receiver captures `stronger` cleanly over `weaker`. */
  predicate Captures(stronger: real, weaker: real)
  {
    stronger >= weaker + PowerThreshold
  }

  /** The two signals are too close in strength: neither captures the
      receiver over the other. (The source's fall-through returns nothing,
      which its callers read as false.) */
  function PowerCollision(me: Uplink, other: Uplink): (r: bool)
    ensures r <==> !Captures(me.rss, other.rss) && !Captures(other.rss, me.rss)
  {
    Abs(me.rss - other.rss) < PowerThreshold
  }

  lemma PowerCollisionSymmetric(me: Uplink, other: Uplink)
    ensures PowerCollision(me, other) == PowerCollision(other, me)
  {
  }

  /** The capture boundary is exclusive: a difference of exactly 6 dB is not
      a collision, a difference of 5 dB is. */
  lemma PowerCaptureBoundary(me: Uplink, other: Uplink)
    ensures Abs(me.rss - other.rss) == 6.0 ==> !PowerCollision(me, other)
    ensures Abs(me.rss - other.rss) == 5.0 ==> PowerCollision(me, other)
  {
  }

  /*------------------------------------------------------------------------
   * Composite test and the registry scan
   *------------------------------------------------------------------------*/

  /** `other` destroys `me`: all four tests hold, with `me` as the candidate.
      Such packets share the spreading factor, overlap in time and lie within
      the widest guard band (120) of each other. */
  predicate Collides(me: Uplink, other: Uplink)
    ensures Collides(me, other) ==>
      && me.param.sf == other.param.sf
      && other.start <= End(me) && me.start <= End(other)
      && Abs(me.param.freq - other.param.freq) <= 120.0
  {
    FrequencyCollision(me, other) && SfCollision(me, other) &&
    TimingCollision(me, other) && PowerCollision(me, other)
  }

  /** The comparison the reception check makes against one registry entry:
      entries from `me`'s own node, `me` included, are skipped, so a packet
      never destroys itself. */
  predicate Interferes(me: Uplink, other: Uplink)
    ensures Interferes(me, other) ==> other != me
  {
    other.node.id != me.node.id && Collides(me, other)
  }

  /** Some registry entry interferes with `me`. */
  function HasCollider(reg: seq<Uplink>, me: Uplink): (r: bool)
    ensures r <==> exists k :: 0 <= k < |reg| && Interferes(me, reg[k])
  {
    if reg == [] then false
    else HasCollider(reg[..|reg| - 1], me) || Interferes(me, reg[|reg| - 1])
  }

  /** Different spreading factors never collide, whatever the frequencies,
      timing and power. */
  lemma DifferentSfNeverCollide(me: Uplink, other: Uplink)
    requires me.param.sf != other.param.sf
    ensures !Collides(me, other)
  {
  }

  /** Two packets of different nodes with the same radio parameters on a
      supported bandwidth, on air over the same interval (long enough to
      hold a critical section) and within the capture threshold of each
      other destroy each other. */
  lemma FullOverlapCollides(me: Uplink, other: Uplink)
    requires me.node.id != other.node.id && me.param == other.param && me.param.bw in {125, 250, 500}
    requires me.start == other.start && me.toa == other.toa && CriticalStart(me) <= CriticalEnd(me)
    requires Abs(me.rss - other.rss) < PowerThreshold
    ensures Interferes(me, other) && Interferes(other, me)
  {
  }

  /** The composite test is not symmetric: the timing test looks at the
      candidate's critical section only. Packet `b` (SF7, 125 kHz, on air
      from -5 to 1) is destroyed by `a` (on air from 0 to 10), but `a`,
      whose critical section starts at 3.072, is not destroyed by `b`. */
  lemma CollidesIsAsymmetric()
    ensures
      var loc := Location(0.0, 0.0, false);
      var param := LoRaParam(868.1, 7, 125, 14.0);
      var a := Uplink(Node(1, loc), param, 0.0, 10.0, -100.0);
      var b := Uplink(Node(2, loc), param, -5.0, 6.0, -101.0);
      Collides(b, a) && !Collides(a, b)
  {
    assert Pow2(7) == 128;
  }

  /** Packets registered later never take away a collider already present:
      the registry only grows. */
  lemma {:induction false} HasColliderGrows(reg: seq<Uplink>, more: seq<Uplink>, me: Uplink)
    requires HasCollider(reg, me)
    ensures HasCollider(reg + more, me)
  {
    var k :| 0 <= k < |reg| && Interferes(me, reg[k]);
    assert (reg + more)[k] == reg[k];
  }

  /** Entries from the candidate's own node, the candidate itself among them,
      do not change the verdict. */
  lemma {:induction false} OwnNodeIgnored(reg: seq<Uplink>, x: Uplink, me: Uplink)
    requires x.node.id == me.node.id
    ensures HasCollider(reg + [x], me) == HasCollider(reg, me)
  {
    assert (reg + [x])[..|reg + [x]| - 1] == reg;
  }
}

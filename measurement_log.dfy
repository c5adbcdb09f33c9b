/**
 * The per-node measurement record: three parallel lists of simulated time,
 * received signal strength and SNR, one entry per transmission of the node.
 */
module MeasurementLog {
  import opened LoRa

  /** One record of `prop_measurements`: the 'time', 'rss' and 'snr' lists. */
  datatype Measurements = Measurements(time: seq<real>, rss: seq<real>, snr: seq<real>)
  {
    /** The three lists are parallel. */
    predicate WellFormed()
    {
      |time| == |rss| == |snr|
    }

    /** Number of samples in a well-formed record. */
    function Size(): nat
      requires WellFormed()
    {
      |time|
    }

    /** The `k`-th (time, rss, snr) sample. */
    function Sample(k: nat): (real, real, real)
      requires WellFormed() && k < Size()
    {
      (time[k], rss[k], snr[k])
    }

    /** Times never go backwards. */
    predicate Ordered()
    {
      forall i, j :: 0 <= i < j < |time| ==> time[i] <= time[j]
    }

    /** No recorded time is later than `now`. */
    predicate NotAfter(now: real)
    {
      forall i :: 0 <= i < |time| ==> time[i] <= now
    }

    /** Record one more sample at the end of each list. */
    function Append(t: real, r: real, s: real): (m: Measurements)
      ensures WellFormed() ==> m.WellFormed() && m.Size() == Size() + 1
      ensures WellFormed() ==> m.Sample(Size()) == (t, r, s)
      ensures WellFormed() ==> forall k :: 0 <= k < Size() ==> m.Sample(k) == Sample(k)
    {
      Measurements(time + [t], rss + [r], snr + [s])
    }
  }

  /** The record of a node that has not transmitted yet. */
  const Empty := Measurements([], [], [])

  /** The record `id` currently has in `log`, or an empty one (the air
      interface creates it on the node's first transmission). */
  function RecordOf(log: map<NodeId, Measurements>, id: NodeId): Measurements
  {
    if id in log then log[id] else Empty
  }

  /** The log after node `id` transmitted once more: its record, created
      empty if missing, gains the sample (t, r, s) at its end and keeps its
      earlier samples; every other record stays. */
  function AppendSample(log: map<NodeId, Measurements>, id: NodeId, t: real, r: real, s: real)
    : (log': map<NodeId, Measurements>)
    ensures log'.Keys == log.Keys + {id}
    ensures forall other :: other in log && other != id ==> log'[other] == log[other]
    ensures RecordOf(log, id).WellFormed() ==>
      log'[id].WellFormed() && log'[id].Size() == RecordOf(log, id).Size() + 1 &&
      log'[id].Sample(RecordOf(log, id).Size()) == (t, r, s)
    ensures RecordOf(log, id).WellFormed() ==>
      forall k :: 0 <= k < RecordOf(log, id).Size() ==> log'[id].Sample(k) == RecordOf(log, id).Sample(k)
  {
    log[id := RecordOf(log, id).Append(t, r, s)]
  }

  /** Every record of the log is in time order. */
  ghost predicate AllOrdered(log: map<NodeId, Measurements>)
  {
    forall id :: id in log ==> log[id].Ordered()
  }

  /** No record of the log holds a time later than `now`. */
  ghost predicate AllNotAfter(log: map<NodeId, Measurements>, now: real)
  {
    forall id :: id in log ==> log[id].NotAfter(now)
  }

  /** Appending a sample taken no earlier than every recorded one keeps the
      record in time order. */
  lemma AppendKeepsOrder(m: Measurements, t: real, r: real, s: real)
    requires m.Ordered() && m.NotAfter(t)
    ensures m.Append(t, r, s).Ordered() && m.Append(t, r, s).NotAfter(t)
  {
  }

  /** Samples logged at a non-decreasing clock keep every record in time order. */
  lemma AppendSampleKeepsOrder(log: map<NodeId, Measurements>, id: NodeId, t: real, r: real, s: real)
    requires AllOrdered(log) && AllNotAfter(log, t)
    ensures AllOrdered(AppendSample(log, id, t, r, s)) && AllNotAfter(AppendSample(log, id, t, r, s), t)
  {
    AppendKeepsOrder(RecordOf(log, id), t, r, s);
  }

  /** Result of looking a node up in the measurement log. */
  datatype Lookup = Found(record: Measurements) | NotFound(id: NodeId)
}

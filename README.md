# AirInterface: the shared LoRa channel at a gateway

This project models the `AirInterface` class of the LoRaEnergySim discrete-event
LoRa simulator. It is the channel one gateway observes, and it does three things:

- **Collision evaluator.** Four pairwise tests decide whether a candidate packet
  `me` is destroyed by another packet `other`:
  - frequency: bandwidth-class guard bands of 120, 60 and 30 for 500, 250 and 125;
  - spreading factor: the two factors are equal;
  - timing: `other` is on air during `me`'s critical section, which runs from
    3 symbols after `me`'s start to `me`'s end;
  - power: the two received strengths are less than 6 dB apart (capture effect).
- **Registry and measurement log.** `packet_in_air` counts the packet and asks
  the propagation and SNR models for its received power and SNR. It writes both
  into the packet and appends a (time, rss, snr) sample to the node's record.
  Then it appends the packet to the in-air registry, which is never pruned.
- **Reception check.** `collision` / `packet_received` scan the registry for a
  packet from another node that destroys the candidate. They set only the
  candidate's `collided` flag, which is never cleared. `packet_received` counts
  every call that answers true.

Modules:

- `LoRa` (`lora.dfy`): node, location, gateway, radio parameters and the
  `Packet` class. Its radio and timing fields are constants. `rss`, `snr` and
  `collided` are mutable. `View()` is the `Uplink` snapshot the tests read.
- `Collision` (`collision.dfy`): the four tests as functions over `Uplink`
  values, their composite `Collides`, and `HasCollider`, the specification of
  the registry scan. The lemmas state the thresholds, boundaries, symmetry,
  asymmetry and self-exclusion.
- `MeasurementLog` (`measurement_log.dfy`): the per-node record of three
  parallel lists, and the log-level append.
- `Channel` (`air_interface.dfy`): the `AirInterface` class. It holds two `nat`
  counters, a `map` of records and a `seq<Packet>` registry. Its object
  invariant `Valid()` states two things. The registry holds one entry per packet
  sent. Each node's record holds one sample per registered packet of that node.
- `Scenarios` (`scenarios.dfy`): client methods proved from the class contracts
  alone. They cover one-sided marking, repeated reception and measurement order.

The external collaborators are the propagation model (`tp_to_rss`), the SNR
model (`rss_to_snr`) and `Location.distance`. They are arrow-typed constants the
`AirInterface` is built with, and nothing is assumed about them. The simulation
clock `env.now` is the `now` parameter of `PacketInAir`. A packet's time on air
(`my_time_on_air()`) is an abstract non-negative constant of each packet.

## Model

| member | source | states |
|---|---|---|
| `Collision.FrequencyCollision` | AirInterface.py:26-54 | collides exactly when the frequency distance is within the larger guard of the two bandwidth classes (500: 120, 250: 60, 125: 30; none for other bandwidths) |
| `Collision.FrequencyCollisionSymmetric` | AirInterface.py:39-50 | the frequency test does not depend on the order of the two packets |
| `Collision.UnsupportedBandwidthNeverCollides` | AirInterface.py:39-54 | if neither bandwidth is 125, 250 or 500, there is no frequency collision at any distance |
| `Collision.FrequencyCollisionCloserStillCollides` | AirInterface.py:39-50 | with the same bandwidths, moving frequencies closer never removes a frequency collision |
| `Collision.FrequencyThresholdsInclusive` | AirInterface.py:39-50 | for two packets of one supported class, a distance of exactly the guard collides and one unit more does not |
| `Collision.SfCollision` | AirInterface.py:57-69 | no contract of its own: true exactly when the two spreading factors are equal; its consequences are `SfCollisionSymmetric` and `DifferentSfNeverCollide` |
| `Collision.SfCollisionSymmetric` | AirInterface.py:57-69 | the spreading-factor test does not depend on the order of the two packets |
| `Collision.DifferentSfNeverCollide` | AirInterface.py:118-121 | packets with different spreading factors never collide, whatever their frequency, timing and power |
| `Collision.TimingCollision` | AirInterface.py:72-87 | a timing collision needs the two packets to be on air at the same time: `other` starts no later than `me` ends and ends no earlier than `me` starts |
| `Collision.TimingCollisionIsOverlap` | AirInterface.py:72-87 | when the critical section is not empty, the timing test holds exactly when some instant lies both in `me`'s critical section (3 symbols after start to end) and in `other`'s closed time on air |
| `Collision.DisjointPacketsDoNotCollide` | AirInterface.py:80-84 | a packet starting after `me` ends, or ending before `me`'s critical section starts, does not collide on timing |
| `Collision.TouchingEndpointsCollide` | AirInterface.py:82-87 | the bounds are strict: starting exactly at `me`'s end, or ending exactly at the critical-section start, is a collision |
| `Collision.PowerCollision` | AirInterface.py:89-103 | collides exactly when neither signal captures the receiver, i.e. neither is at least 6 dB stronger than the other |
| `Collision.PowerCollisionSymmetric` | AirInterface.py:99 | the power test does not depend on the order of the two packets |
| `Collision.PowerCaptureBoundary` | AirInterface.py:91-103 | a 6 dB difference is not a collision (the fall-through is falsy), a 5 dB difference is |
| `Collision.FullOverlapCollides` | AirInterface.py:112-122 | two packets of different nodes on one supported channel, on air over the same interval, within 6 dB of each other, each destroy the other |
| `Collision.CollidesIsAsymmetric` | AirInterface.py:72-87 | the composite test is not symmetric: there are packets a, b where b is destroyed by a but a is not destroyed by b |
| `Collision.Collides` | AirInterface.py:118-121 | `other` destroys `me` only if they share the spreading factor, overlap in time, and their frequencies lie within the widest guard band (120) |
| `Collision.Interferes` | AirInterface.py:113-121 | the per-entry comparison of the scan skips the candidate's own node, so a packet never destroys itself |
| `Collision.HasCollider` | AirInterface.py:112-122 | the scan finds a collider exactly when some registry entry from another node passes all four tests with the candidate as `me` |
| `Collision.HasColliderGrows` | AirInterface.py:150-162 | registering more packets never removes a collider, since the registry only grows |
| `Collision.OwnNodeIgnored` | AirInterface.py:113 | entries from the candidate's own node, the candidate itself included, do not change the verdict |
| `MeasurementLog.Measurements.Append` | AirInterface.py:146-148 | the three lists stay parallel, grow by one sample at the end, and keep every earlier sample |
| `MeasurementLog.AppendSample` | AirInterface.py:140-148 | the node's record (created empty on first use) gains the new sample at its end and keeps every earlier sample; other nodes' records are unchanged; the key set gains the node |
| `MeasurementLog.AppendKeepsOrder` | AirInterface.py:146 | a sample taken no earlier than all recorded ones keeps the record in time order |
| `MeasurementLog.AppendSampleKeepsOrder` | AirInterface.py:140-148 | with a non-decreasing clock, every node's record stays in time order |
| `Channel.RegisterKeepsLogMatching` | AirInterface.py:127-150 | registering a packet and logging its sample keeps one sample per registered packet of each node, and a record for every node in the registry |
| `Channel.AirInterface.RssFor` | AirInterface.py:138-139 | no contract of its own: the propagation model applied to the node's indoor flag, the packet's transmit power and the gateway-to-node distance; `PacketInAir` states that this is the packet's new `rss` |
| `Channel.AirInterface.constructor` | AirInterface.py:14-23 | both counters are zero, the registry and the measurement log are empty, and the invariant holds |
| `Channel.AirInterface.Collision` | AirInterface.py:105-123 | result is `old(collided)` or the scan over the registry (`HasCollider`); only the candidate's flag may change, and it is never cleared |
| `Channel.AirInterface.PacketInAir` | AirInterface.py:127-150 | send counter +1; the packet is appended at the end of the registry; `rss` and `snr` come from the propagation and SNR models; the node's record gains (now, rss, snr); collided counter, flag and all other packets are unchanged; invariant kept |
| `Channel.AirInterface.PacketReceived` | AirInterface.py:152-163 | returns the collision verdict; the collided counter grows by 1 exactly when it is true; the registry and the send counter are unchanged |
| `Channel.AirInterface.GetPropMeasurements` | AirInterface.py:182-183 | found exactly when the node has a registered packet; the record is well formed and holds one sample per such packet; otherwise not found |
| `Scenarios.TwoOverlappingPackets` | AirInterface.py:127-150 | registering two packets sent from one place with one power leaves them in the registry in order, with equal received power, unflagged, and two packets counted |
| `Scenarios.OverlappingPairCollides` | AirInterface.py:112-122 | those two packets, fully overlapping on one SF7 / 125 kHz channel, each find the other as a collider in the registry |
| `Scenarios.SendAt` | AirInterface.py:140-150 | one transmission appends exactly its time at the end of its node's record and adds only that node to the log |
| `Scenarios.OneSidedMarking` | AirInterface.py:110-123 | receiving A marks A but leaves B's flag false; receiving A again answers true again and counts it a second time; the registry keeps both |
| `Scenarios.MeasurementOrder` | AirInterface.py:140-148 | a node sending at times 0, 5, 9 finds exactly those times in that order; a node that never sent is not found; three packets are registered |

## Left out

- `plot_packets_in_air` (matplotlib) and the random per-node colour (`color_per_node`, `color_values`) are cosmetic and not modelled.
- The debug prints guarded by `Global.Config.PRINT_ENABLED` and `log()` are textual output only. `log()` divides by `num_of_packets_send` and fails when no packet was sent. That percentage is not modelled.
- `PropagationModel.tp_to_rss`, `SNRModel.rss_to_snr` and `Location.distance` are parameters with no properties. `UplinkMessage.my_time_on_air()` is a per-packet non-negative constant. LoRaPacket.py, Location.py, Gateway.py, PropagationModel.py and SNRModel.py are not part of this model.
- Floating point is not modelled. Frequencies, times and powers are exact reals, so `2 ** sf / bw` and the RSS difference carry no IEEE rounding.
- The bandwidth is a positive integer by type, because the timing test divides by it. With a zero bandwidth the source would raise a division error; the model does not represent that case.
- `power_collision` returns `None` rather than `False` when there is no power collision. Its callers only test truthiness, so the model returns `false`.
- `Channel.AirInterface.PacketInAir`: time order of the records is not in its postcondition. It follows from its `AppendSample` postcondition and `MeasurementLog.AppendSampleKeepsOrder`, provided the caller's clock does not go backwards.
- `Channel.AirInterface.GetPropMeasurements` returns the node's record as a value. In the source it is the shared mutable dictionary: a caller holding it sees samples appended later, and a caller that appends to its lists could break the parallel-list shape. That aliasing is not modelled.

`packet_received` increments the collided counter on every call that answers true, so a packet that is already marked is counted again on each further call (`Scenarios.OneSidedMarking`).

/**
 * The Snowflake identifier generator: 41 bits of milliseconds since a fixed
 * epoch, 10 bits of node id and 12 bits of per-millisecond sequence, packed
 * into a non-negative 63-bit integer.
 *
 * The generator is modelled sequentially: the two atomics become plain fields
 * and the system clock becomes a `Clock` object whose future readings are
 * given up front.
 */
module Snowflake {
  import opened Wrappers

  const EPOCH: int := 1735689600000  // 2025-01-01 00:00:00 UTC, in milliseconds
  const NODE_ID_BITS: nat := 10
  const SEQUENCE_BITS: nat := 12
  const MAX_NODE_ID: int := 1023     // (1 << NODE_ID_BITS) - 1
  const MAX_SEQUENCE: int := 4095    // (1 << SEQUENCE_BITS) - 1
  const TIMESTAMP_SHIFT: nat := 22   // NODE_ID_BITS + SEQUENCE_BITS
  const NODE_ID_SHIFT: nat := 12     // SEQUENCE_BITS

  const TWO_12: int := 0x1000
  const TWO_22: int := 0x40_0000
  const TWO_41: int := 0x200_0000_0000
  const TWO_63: int := 0x8000_0000_0000_0000
  const TWO_64: int := 0x1_0000_0000_0000_0000

  const CLOCK_BACKWARDS: string := "Clock moved backwards, refusing to generate ID"

  predicate IsI64(x: int) {
    -TWO_63 <= x < TWO_63
  }

  /** Two's-complement wrap-around of an `i64` result (what `fetch_add` does on overflow). */
  function WrapI64(x: int): (r: int)
    ensures IsI64(r)
    ensures IsI64(x) ==> r == x
    ensures (x - r) % TWO_64 == 0
  {
    (x + TWO_63) % TWO_64 - TWO_63
  }

  /** Wrapping at 64 bits does not change the low 12 bits. */
  lemma WrapKeepsSequenceBits(x: int)
    ensures WrapI64(x) % TWO_12 == x % TWO_12
  {
    var q := (x + TWO_63) / TWO_64;
    assert WrapI64(x) == x - q * TWO_64;
    assert q * TWO_64 == (q * 0x10_0000_0000_0000) * TWO_12;
  }

  /**
   * The identifier built from a timestamp, a node id and a sequence value.
   * On two's-complement `i64`, `x & (2^k - 1)` is the Euclidean remainder
   * `x % 2^k`, `<< k` on the masked values is multiplication by `2^k`, and the
   * three `|`-ed fields occupy disjoint bit ranges, so `|` is `+`.
   */
  function ComposeId(timestamp: int, nodeId: int, sequence: int): (id: int)
    ensures 0 <= id < TWO_63
  {
    ((timestamp - EPOCH) % TWO_41) * TWO_22 + (nodeId % 1024) * TWO_12 + sequence % TWO_12
  }

  /** `id >> 22`: the millisecond field. */
  function TimestampField(id: int): int { id / TWO_22 }

  /** `(id >> 12) & 1023`: the node field. */
  function NodeField(id: int): int { (id / TWO_12) % 1024 }

  /** `id & 4095`: the sequence field. */
  function SequenceField(id: int): int { id % TWO_12 }

  /** Each field of a composed identifier reads back what was put in. */
  lemma ComposeIdFields(timestamp: int, nodeId: int, sequence: int)
    ensures TimestampField(ComposeId(timestamp, nodeId, sequence)) == (timestamp - EPOCH) % TWO_41
    ensures NodeField(ComposeId(timestamp, nodeId, sequence)) == nodeId % 1024
    ensures SequenceField(ComposeId(timestamp, nodeId, sequence)) == sequence % TWO_12
  {
    var t, n, s := (timestamp - EPOCH) % TWO_41, nodeId % 1024, sequence % TWO_12;
    var id := ComposeId(timestamp, nodeId, sequence);
    assert id == (t * 1024 + n) * TWO_12 + s;
    assert id / TWO_12 == t * 1024 + n;
    assert (t * 1024 + n) % 1024 == n;
    assert id == t * TWO_22 + (n * TWO_12 + s);
    assert 0 <= n * TWO_12 + s < TWO_22;
  }

  /** Within the 41-bit window after the epoch, identifiers of one node are ordered by time, then by sequence. */
  lemma ComposeIdMonotone(ts1: int, seq1: int, ts2: int, seq2: int, nodeId: int)
    requires EPOCH <= ts1 <= ts2 < EPOCH + TWO_41
    requires 0 <= seq1 < TWO_12 && 0 <= seq2 < TWO_12
    requires ts1 < ts2 || seq1 < seq2
    ensures ComposeId(ts1, nodeId, seq1) < ComposeId(ts2, nodeId, seq2)
  {
    assert (ts1 - EPOCH) % TWO_41 == ts1 - EPOCH;
    assert (ts2 - EPOCH) % TWO_41 == ts2 - EPOCH;
    var n := (nodeId % 1024) * TWO_12;
    assert 0 <= n + seq1 < TWO_22 && 0 <= n + seq2 < TWO_22;
    if ts1 < ts2 {
      assert (ts1 - EPOCH) * TWO_22 + TWO_22 <= (ts2 - EPOCH) * TWO_22;
    }
  }

  /** The expression of the source on 64-bit words, with `&`, `<<` and `|`. */
  function PackBits(timestampDelta: bv64, nodeId: bv64, sequence: bv64): bv64 {
    ((timestampDelta & 0x1FF_FFFF_FFFF) << 22) | ((nodeId & 0x3FF) << 12) | (sequence & 0xFFF)
  }

  /** The bit layout: the sign bit is clear and each field sits in its own bits. */
  lemma PackBitsLayout(timestampDelta: bv64, nodeId: bv64, sequence: bv64)
    ensures PackBits(timestampDelta, nodeId, sequence) < 0x8000_0000_0000_0000
    ensures PackBits(timestampDelta, nodeId, sequence) >> 22 == timestampDelta & 0x1FF_FFFF_FFFF
    ensures (PackBits(timestampDelta, nodeId, sequence) >> 12) & 0x3FF == nodeId & 0x3FF
    ensures PackBits(timestampDelta, nodeId, sequence) & 0xFFF == sequence & 0xFFF
  {
  }

  /** Some reading in `readings` is past `t`. */
  ghost predicate Exceeds(readings: seq<int>, t: int) {
    exists i :: 0 <= i < |readings| && readings[i] > t
  }

  /** The system clock, reduced to the readings it will give, in order. */
  class Clock {
    var readings: seq<int>

    /** Readings are milliseconds since the Unix epoch that fit an `i64`. */
    ghost predicate Valid()
      reads this
    {
      forall i :: 0 <= i < |readings| ==> 0 <= readings[i] < TWO_63
    }

    constructor (readings: seq<int>)
      requires forall i :: 0 <= i < |readings| ==> 0 <= readings[i] < TWO_63
      ensures Valid() && this.readings == readings
    {
      this.readings := readings;
    }

    /** `SnowflakeGenerator::timestamp`: takes the next reading. */
    method Now() returns (t: int)
      requires Valid() && |readings| > 0
      modifies this
      ensures Valid()
      ensures t == old(readings[0]) && 0 <= t < TWO_63
      ensures readings == old(readings[1..])
    {
      t := readings[0];
      readings := readings[1..];
    }
  }

  class SnowflakeGenerator {
    const nodeId: int
    var lastTimestamp: int
    var sequence: int

    /** The node id has 10 bits; both atomics hold `i64` values. */
    ghost predicate Valid()
      reads this
    {
      0 <= nodeId <= MAX_NODE_ID && 0 <= lastTimestamp < TWO_63 && IsI64(sequence)
    }

    /** The identifier that the last successful `Generate` returned. */
    ghost function LastIssued(): int
      reads this
    {
      ComposeId(lastTimestamp, nodeId, sequence % TWO_12)
    }

    /**
     * `SnowflakeGenerator::new`. The node id is the 64-bit hash of the process id,
     * host name and start time reduced modulo 1024; the hash is a parameter here.
     */
    constructor (hash: int)
      requires 0 <= hash < TWO_64
      ensures Valid()
      ensures nodeId == hash % (MAX_NODE_ID + 1)
      ensures lastTimestamp == 0 && sequence == 0
    {
      nodeId := hash % (MAX_NODE_ID + 1);
      lastTimestamp := 0;
      sequence := 0;
    }

    /**
     * `wait_next_millis`: polls the clock until it reads past `last`. `skipped`
     * counts the readings at or before `last` that were passed over.
     */
    static method WaitNextMillis(last: int, clock: Clock) returns (ts: int, ghost skipped: nat)
      requires clock.Valid() && Exceeds(clock.readings, last)
      modifies clock
      ensures clock.Valid()
      ensures ts > last && 0 <= ts < TWO_63
      ensures skipped < |old(clock.readings)| && ts == old(clock.readings)[skipped]
      ensures forall j :: 0 <= j < skipped ==> old(clock.readings)[j] <= last
      ensures clock.readings == old(clock.readings)[skipped + 1..]
    {
      ghost var start := clock.readings;
      ts := clock.Now();
      skipped := 0;
      while ts <= last
        invariant clock.Valid()
        invariant skipped < |start| && ts == start[skipped] && 0 <= ts < TWO_63
        invariant clock.readings == start[skipped + 1..]
        invariant forall j :: 0 <= j < skipped ==> start[j] <= last
        invariant ts <= last ==> Exceeds(clock.readings, last)
        decreases |clock.readings|
      {
        ts := clock.Now();
        skipped := skipped + 1;
      }
    }

    /**
     * `generate`. One clock reading is taken; if it is behind the last
     * timestamp the call fails and nothing changes. In the same millisecond the
     * counter is bumped, and when its low 12 bits wrap to 0 the clock is polled
     * until the next millisecond, which becomes the last timestamp. A later
     * millisecond resets the counter. The identifier is composed from the last
     * timestamp as stored after the update.
     */
    method Generate(clock: Clock) returns (r: Result<int, string>)
      requires Valid() && clock.Valid() && |clock.readings| > 0
      requires clock.readings[0] == lastTimestamp && (sequence + 1) % TWO_12 == 0
               ==> Exceeds(clock.readings[1..], lastTimestamp)
      modifies this, clock
      ensures Valid() && clock.Valid()
      // the clock went backwards: an error and no change
      ensures old(clock.readings[0]) < old(lastTimestamp) ==>
                r == Err(CLOCK_BACKWARDS) && lastTimestamp == old(lastTimestamp) && sequence == old(sequence)
                && clock.readings == old(clock.readings[1..])
      // a later millisecond: the counter restarts at 0
      ensures old(clock.readings[0]) > old(lastTimestamp) ==>
                lastTimestamp == old(clock.readings[0]) && sequence == 0
                && r == Ok(ComposeId(lastTimestamp, nodeId, 0))
                && clock.readings == old(clock.readings[1..])
      // the same millisecond: the stored counter goes up by one
      ensures old(clock.readings[0]) == old(lastTimestamp) ==> sequence == WrapI64(old(sequence) + 1)
      ensures old(clock.readings[0]) == old(lastTimestamp) && (old(sequence) + 1) % TWO_12 != 0 ==>
                lastTimestamp == old(lastTimestamp)
                && r == Ok(ComposeId(lastTimestamp, nodeId, (old(sequence) + 1) % TWO_12))
                && clock.readings == old(clock.readings[1..])
      // ... and when its low bits wrap, the next millisecond is waited for
      ensures old(clock.readings[0]) == old(lastTimestamp) && (old(sequence) + 1) % TWO_12 == 0 ==>
                lastTimestamp > old(lastTimestamp)
                && r == Ok(ComposeId(lastTimestamp, nodeId, 0))
                && exists k :: 1 <= k < |old(clock.readings)| && old(clock.readings)[k] == lastTimestamp
                               && clock.readings == old(clock.readings)[k + 1..]
                               && forall j :: 1 <= j < k ==> old(clock.readings)[j] <= old(lastTimestamp)
      ensures r.Ok? ==> r.value == LastIssued() && old(lastTimestamp) <= lastTimestamp
      ensures r.Ok? && EPOCH <= old(lastTimestamp) && lastTimestamp < EPOCH + TWO_41 ==> old(LastIssued()) < r.value
    {
      var currentTimestamp := clock.Now();
      var last := lastTimestamp;
      if currentTimestamp < last {
        return Err(CLOCK_BACKWARDS);
      }
      var seqBits: int;
      if currentTimestamp == last {
        sequence := WrapI64(sequence + 1);
        WrapKeepsSequenceBits(old(sequence) + 1);
        seqBits := sequence % TWO_12;
        if seqBits == 0 {
          var newTimestamp, skipped := WaitNextMillis(last, clock);
          lastTimestamp := newTimestamp;
          seqBits := 0;
        }
      } else {
        sequence := 0;
        lastTimestamp := currentTimestamp;
        seqBits := 0;
      }
      var timestampToUse := lastTimestamp;
      r := Ok(ComposeId(timestampToUse, nodeId, seqBits));
      if EPOCH <= last && lastTimestamp < EPOCH + TWO_41 {
        ComposeIdMonotone(last, old(sequence) % TWO_12, lastTimestamp, seqBits, nodeId);
      }
    }
  }
}

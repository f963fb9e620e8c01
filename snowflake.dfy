/**
 * Decoding of a snowflake, the platform's 64-bit time-ordered identifier.
 * Layout, from the most significant bit down:
 *   bits 63..22  milliseconds since the platform epoch
 *   bits 21..17  internal worker id
 *   bits 16..12  internal process id
 *   bits 11..0   increment, for every id generated on that process
 */
module Snowflake {
  import opened Bits

  const TWO_64: nat := 0x1_0000_0000_0000_0000

  /** A snowflake after `BigInt(snowflake)`: an unsigned 64-bit integer. */
  type Snowflake = x: nat | x < TWO_64

  const TIMESTAMP_SHIFT: nat := 22
  const WORKER_MASK: nat := 0x3E0000
  const WORKER_SHIFT: nat := 17
  const PROCESS_MASK: nat := 0x1F000
  const PROCESS_SHIFT: nat := 12
  const INCREMENT_MASK: nat := 0xFFF

  lemma Pow2Table()
    ensures Pow2(5) == 32 && Pow2(12) == 0x1000 && Pow2(17) == 0x2_0000 && Pow2(22) == 0x40_0000
  {
  }

  /**
   * getTimestamp: the creation time in milliseconds, `(id >> 22) + EPOCH`.
   * `epoch` is the platform epoch EPOCH, whose value is not part of this model.
   */
  function Timestamp(id: Snowflake, epoch: int): (ms: int)
    ensures ms == id / 0x40_0000 + epoch
    ensures epoch <= ms < epoch + 0x400_0000_0000
  {
    ShiftRightIsDiv(id, TIMESTAMP_SHIFT);
    Pow2Table();
    ShiftRight(id, TIMESTAMP_SHIFT) + epoch
  }

  /** getWorkerID: `(id & 0x3E0000) >> 17`, bits 21..17. */
  function WorkerId(id: Snowflake): (w: nat)
    ensures w == (id / 0x2_0000) % 32
    ensures w < 32
  {
    Pow2Table();
    assert WORKER_MASK == FieldMask(WORKER_SHIFT, 5);
    ExtractField(id, WORKER_SHIFT, 5);
    ShiftRight(BitAnd(id, WORKER_MASK), WORKER_SHIFT)
  }

  /** getProcessID: `(id & 0x1F000) >> 12`, bits 16..12. */
  function ProcessId(id: Snowflake): (p: nat)
    ensures p == (id / 0x1000) % 32
    ensures p < 32
  {
    Pow2Table();
    assert PROCESS_MASK == FieldMask(PROCESS_SHIFT, 5);
    ExtractField(id, PROCESS_SHIFT, 5);
    ShiftRight(BitAnd(id, PROCESS_MASK), PROCESS_SHIFT)
  }

  /** getIncrement: `id & 0xFFF`, bits 11..0. */
  function Increment(id: Snowflake): (n: nat)
    ensures n == id % 0x1000
    ensures n < 0x1000
  {
    Pow2Table();
    assert INCREMENT_MASK == FieldMask(0, 12);
    MaskedField(id, 0, 12);
    BitAnd(id, INCREMENT_MASK)
  }

  /**
   * For an epoch between 0 and 2^53 - 2^42 the timestamp is a safe integer,
   * so `Number(...)` converts it without rounding.
   */
  lemma TimestampIsSafeInteger(id: Snowflake, epoch: int)
    requires 0 <= epoch <= 0x20_0000_0000_0000 - 0x400_0000_0000
    ensures 0 <= Timestamp(id, epoch) < 0x20_0000_0000_0000
  {
  }

  /** Later snowflakes never carry an earlier timestamp. */
  lemma TimestampMonotone(a: Snowflake, b: Snowflake, epoch: int)
    requires a <= b
    ensures Timestamp(a, epoch) <= Timestamp(b, epoch)
  {
  }

  /**
   * The layout itself: a snowflake assembled from a timestamp and three
   * in-range fields. It is the reference the four decoders are checked against.
   */
  function Compose(ms: int, epoch: int, worker: nat, process: nat, increment: nat): (id: Snowflake)
    requires epoch <= ms < epoch + 0x400_0000_0000
    requires worker < 32 && process < 32 && increment < 0x1000
    ensures id / 0x40_0000 == ms - epoch
    ensures id % 0x40_0000 == worker * 0x2_0000 + process * 0x1000 + increment
  {
    var id := (ms - epoch) * 0x40_0000 + worker * 0x2_0000 + process * 0x1000 + increment;
    DivUnique(id, 0x40_0000, ms - epoch, worker * 0x2_0000 + process * 0x1000 + increment);
    id
  }

  /** Decoding a composed snowflake gives back every field. */
  lemma DecodeCompose(ms: int, epoch: int, worker: nat, process: nat, increment: nat)
    requires epoch <= ms < epoch + 0x400_0000_0000
    requires worker < 32 && process < 32 && increment < 0x1000
    ensures Timestamp(Compose(ms, epoch, worker, process, increment), epoch) == ms
    ensures WorkerId(Compose(ms, epoch, worker, process, increment)) == worker
    ensures ProcessId(Compose(ms, epoch, worker, process, increment)) == process
    ensures Increment(Compose(ms, epoch, worker, process, increment)) == increment
  {
    var t := ms - epoch;
    var id := Compose(ms, epoch, worker, process, increment);
    DivUnique(id, 0x40_0000, t, worker * 0x2_0000 + process * 0x1000 + increment);
    DivUnique(id, 0x2_0000, t * 32 + worker, process * 0x1000 + increment);
    DivUnique(t * 32 + worker, 32, t, worker);
    DivUnique(id, 0x1000, t * 1024 + worker * 32 + process, increment);
    DivUnique(t * 1024 + worker * 32 + process, 32, t * 32 + worker, process);
  }

  /** Every snowflake is the composition of its four decoded fields. */
  lemma ComposeDecode(id: Snowflake, epoch: int)
    ensures Compose(Timestamp(id, epoch), epoch, WorkerId(id), ProcessId(id), Increment(id)) == id
  {
    var c, r := id / 0x40_0000, id % 0x40_0000;
    var hi, s := r / 0x2_0000, r % 0x2_0000;
    var mid, lo := s / 0x1000, s % 0x1000;
    DivUnique(id, 0x2_0000, c * 32 + hi, s);
    DivUnique(c * 32 + hi, 32, c, hi);
    DivUnique(id, 0x1000, c * 1024 + hi * 32 + mid, lo);
    DivUnique(c * 1024 + hi * 32 + mid, 32, c * 32 + hi, mid);
    assert WorkerId(id) == hi && ProcessId(id) == mid && Increment(id) == lo;
  }

  /**
   * The three field masks share no bit, and together with the timestamp
   * bits they cover the whole identifier.
   */
  lemma MasksPartitionLowBits()
    ensures BitAnd(WORKER_MASK, PROCESS_MASK) == 0
    ensures BitAnd(WORKER_MASK, INCREMENT_MASK) == 0
    ensures BitAnd(PROCESS_MASK, INCREMENT_MASK) == 0
    ensures WORKER_MASK + PROCESS_MASK + INCREMENT_MASK == Pow2(TIMESTAMP_SHIFT) - 1
  {
    Pow2Table();
    DivUnique(WORKER_MASK, 0x1000, 992, 0);
    DivUnique(992, 32, 31, 0);
    DivUnique(PROCESS_MASK, 0x1000, 31, 0);
    assert PROCESS_MASK == FieldMask(PROCESS_SHIFT, 5);
    assert INCREMENT_MASK == FieldMask(0, 12);
    MaskedField(WORKER_MASK, PROCESS_SHIFT, 5);
    ShiftRightIsDiv(WORKER_MASK, PROCESS_SHIFT);
    MaskedField(WORKER_MASK, 0, 12);
    MaskedField(PROCESS_MASK, 0, 12);
  }

  /** The same recomposition, written with the shift and the masks themselves. */
  lemma MaskedRecompose(id: Snowflake)
    ensures id == ShiftRight(id, TIMESTAMP_SHIFT) * Pow2(TIMESTAMP_SHIFT)
                  + BitAnd(id, WORKER_MASK) + BitAnd(id, PROCESS_MASK) + BitAnd(id, INCREMENT_MASK)
  {
    Pow2Table();
    assert WORKER_MASK == FieldMask(WORKER_SHIFT, 5);
    assert PROCESS_MASK == FieldMask(PROCESS_SHIFT, 5);
    assert INCREMENT_MASK == FieldMask(0, 12);
    MaskedField(id, WORKER_SHIFT, 5);
    MaskedField(id, PROCESS_SHIFT, 5);
    MaskedField(id, 0, 12);
    ShiftRightIsDiv(id, TIMESTAMP_SHIFT);
    ShiftRightIsDiv(id, WORKER_SHIFT);
    ShiftRightIsDiv(id, PROCESS_SHIFT);
    ComposeDecode(id, 0);
  }

  /** The worked example of the platform's documentation. */
  lemma DocumentedExample(epoch: int)
    ensures ShiftRight(175928847299117063, TIMESTAMP_SHIFT) == 41944705796
    ensures Timestamp(175928847299117063, epoch) == 41944705796 + epoch
    ensures WorkerId(175928847299117063) == 1
    ensures ProcessId(175928847299117063) == 0
    ensures Increment(175928847299117063) == 7
  {
    var id: Snowflake := 175928847299117063;
    DivUnique(id, 0x40_0000, 41944705796, 131079);
    DivUnique(id, 0x2_0000, 1342230585473, 7);
    DivUnique(1342230585473, 32, 41944705796, 1);
    DivUnique(id, 0x1000, 42951378735136, 7);
    DivUnique(42951378735136, 32, 1342230585473, 0);
    Pow2Table();
    ShiftRightIsDiv(id, TIMESTAMP_SHIFT);
  }
}

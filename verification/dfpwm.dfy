/**
 * The speaker's client-side audio stream: a DFPWM (Dynamic Filter Pulse Width
 * Modulation) decoder that turns every input byte into eight signed 8-bit
 * samples, and the FIFO of decoded buffers the sound engine drains with `read`.
 *
 * Java's `x >> k` on an `int` is floor division by 2^k, which is what Dafny's
 * `/` computes for a positive divisor; `x & 0xFF` is `x % 256`. The decoder
 * state is proved to stay inside small ranges (`InRange`), so no Java `int`
 * computation of a step can overflow and unbounded integers are faithful.
 */
module Dfpwm {
  import opened Wrappers
  import opened JavaInt

  /** Fixed-point precision of the strength. */
  const PREC: nat := 10
  /** Weight of the low-pass filter, out of 256. */
  const LPF_STRENGTH: int := 140
  /** `2 << (PREC - 8)`: the floor the strength is clamped to after each bit. */
  const MIN_STRENGTH: int := 8
  /** `(1 << PREC) - 1`: the strength a run of repeated bits climbs towards. */
  const MAX_STRENGTH: int := 1023

  /** The four fields `charge`, `strength`, `lowPassCharge` and `previousBit`. */
  datatype Decoder = Decoder(charge: int, strength: int, lowPassCharge: int, previousBit: bool)

  /** A freshly constructed stream: every field at its Java default. */
  const Initial: Decoder := Decoder(0, 0, 0, false)

  predicate InRange(d: Decoder) {
    && -128 <= d.charge <= 127
    && 0 <= d.strength <= MAX_STRENGTH
    && -128 <= d.lowPassCharge <= 127
  }

  /** A 1-bit pulls the charge up to 127, a 0-bit down to -128. */
  function Target(bit: bool): int {
    if bit then 127 else -128
  }

  /** `charge + ((strength * (target - charge) + (1 << (PREC - 1))) >> PREC)`, nudged by one when it would not move. */
  function NextCharge(d: Decoder, bit: bool): int {
    var target := Target(bit);
    var next := d.charge + (d.strength * (target - d.charge) + 512) / 1024;
    if next == d.charge && next != target then next + (if bit then 1 else -1) else next
  }

  /** One step towards 1023 when the bit repeats, towards 0 otherwise; never below `MIN_STRENGTH`. */
  function NextStrength(d: Decoder, bit: bool): int {
    var z := if bit == d.previousBit then MAX_STRENGTH else 0;
    var next := if d.strength != z then d.strength + (if bit == d.previousBit then 1 else -1) else d.strength;
    if next < MIN_STRENGTH then MIN_STRENGTH else next
  }

  /** On a change of bit the output charge is averaged with the previous one (`nextCharge + charge + 1 >> 1`). */
  function AntiJerk(d: Decoder, bit: bool): int {
    var next := NextCharge(d, bit);
    if bit == d.previousBit then next else (next + d.charge + 1) / 2
  }

  /** `lowPassCharge + (((antijerk - lowPassCharge) * 140 + 0x80) >> 8)`. */
  function NextLowPass(d: Decoder, bit: bool): int {
    d.lowPassCharge + ((AntiJerk(d, bit) - d.lowPassCharge) * LPF_STRENGTH + 0x80) / 256
  }

  /** The decoder after one bit: all four fields are updated together. */
  function Step(d: Decoder, bit: bool): Decoder {
    Decoder(NextCharge(d, bit), NextStrength(d, bit), NextLowPass(d, bit), bit)
  }

  /** `u ^ 0x80` for an unsigned byte `u`: the top bit is flipped. */
  function FlipTop(u: int): (r: int)
    requires 0 <= u < 256
    ensures 0 <= r < 256 && (r < 128 <==> u >= 128)
  {
    if u < 128 then u + 128 else u - 128
  }

  /** `FlipTop` is the exclusive or with 0x80, for every byte. */
  lemma FlipTopBit(b: bv8)
    ensures (b ^ 0x80) as int == FlipTop(b as int)
  {
  }

  /** `(byte) ((lowPassCharge & 0xFF) ^ 0x80)`: `& 0xFF` is the remainder modulo 256 and `^ 0x80` is `FlipTop`. */
  function OutputSample(lowPassCharge: int): SByte {
    var flipped := FlipTop(lowPassCharge % 256);
    if flipped < 128 then flipped else flipped - 256
  }

  function Pow2(k: nat): (r: nat)
    ensures r >= 1
  {
    if k == 0 then 1 else 2 * Pow2(k - 1)
  }

  /** The `n` low bits of `b` in two's complement, least significant first, each read independently. */
  function BitsLsbFirst(b: int, n: nat): (r: seq<bool>)
    ensures |r| == n
  {
    seq(n, j requires 0 <= j => (b / Pow2(j)) % 2 == 1)
  }

  /** Every bit of the input, byte after byte, each byte least significant bit first. */
  function InputBits(input: seq<SByte>): (r: seq<bool>)
    ensures |r| == 8 * |input|
  {
    if input == [] then [] else BitsLsbFirst(input[0], 8) + InputBits(input[1..])
  }

  /** Runs the decoder over a sequence of bits, one sample per bit, carrying the state from bit to bit. */
  function RunBits(d: Decoder, bits: seq<bool>): (r: (Decoder, seq<SByte>))
    ensures |r.1| == |bits|
    decreases |bits|
  {
    if bits == [] then (d, [])
    else
      var next := Step(d, bits[0]);
      var rest := RunBits(next, bits[1..]);
      (rest.0, [OutputSample(next.lowPassCharge)] + rest.1)
  }

  /** What `push` computes: the decoder after the input and its samples, eight per input byte. */
  function DecodeBytes(d: Decoder, input: seq<SByte>): (r: (Decoder, seq<SByte>))
    ensures |r.1| == 8 * |input|
  {
    RunBits(d, InputBits(input))
  }

  // ---------------------------------------------------------------------------
  // Properties of one decoding step

  lemma ProductBounds(s: int, e: int)
    requires 0 <= s <= MAX_STRENGTH
    ensures e >= 0 ==> 0 <= s * e <= MAX_STRENGTH * e
    ensures e <= 0 ==> MAX_STRENGTH * e <= s * e <= 0
  {
    if e >= 0 {
      assert (MAX_STRENGTH - s) * e >= 0;
    } else {
      assert (MAX_STRENGTH - s) * (-e) >= 0;
    }
  }

  /**
   * The charge moves towards the target of the bit and never overshoots it; when it is
   * not already at the target it moves by at least one.
   */
  lemma ChargeTowardsTarget(d: Decoder, bit: bool)
    requires InRange(d)
    ensures bit ==> d.charge <= NextCharge(d, bit) <= 127
    ensures !bit ==> -128 <= NextCharge(d, bit) <= d.charge
    ensures d.charge != Target(bit) ==> NextCharge(d, bit) != d.charge
    ensures d.charge == Target(bit) ==> NextCharge(d, bit) == d.charge
  {
    var e := Target(bit) - d.charge;
    ProductBounds(d.strength, e);
  }

  /** The strength takes at most one step towards `z` and is then clamped to at least `MIN_STRENGTH`. */
  lemma StrengthStep(d: Decoder, bit: bool)
    requires InRange(d)
    ensures MIN_STRENGTH <= NextStrength(d, bit) <= MAX_STRENGTH
    ensures bit == d.previousBit ==> NextStrength(d, bit) == Max(MIN_STRENGTH, Min(d.strength + 1, MAX_STRENGTH))
    ensures bit != d.previousBit ==> NextStrength(d, bit) == Max(MIN_STRENGTH, d.strength - 1)
  {
  }

  function Min(a: int, b: int): int { if a <= b then a else b }
  function Max(a: int, b: int): int { if a <= b then b else a }

  /** The low-pass charge moves towards the anti-jerked charge and never overshoots it. */
  lemma LowPassBetween(d: Decoder, bit: bool)
    requires InRange(d)
    ensures -128 <= AntiJerk(d, bit) <= 127
    ensures Min(d.lowPassCharge, AntiJerk(d, bit)) <= NextLowPass(d, bit) <= Max(d.lowPassCharge, AntiJerk(d, bit))
  {
    ChargeTowardsTarget(d, bit);
  }

  /** Every step keeps the decoder in range, so the Java `int` arithmetic of the next step cannot overflow. */
  lemma StepInRange(d: Decoder, bit: bool)
    requires InRange(d)
    ensures InRange(Step(d, bit))
    ensures Step(d, bit).strength >= MIN_STRENGTH
    ensures Step(d, bit).previousBit == bit
  {
    ChargeTowardsTarget(d, bit);
    StrengthStep(d, bit);
    LowPassBetween(d, bit);
  }

  /** Read as an unsigned byte, each sample is the low-pass charge shifted from [-128, 127] to [0, 255]. */
  lemma OutputSampleIsOffset(lowPassCharge: int)
    requires -128 <= lowPassCharge <= 127
    ensures OutputSample(lowPassCharge) % 256 == lowPassCharge + 128
  {
    if lowPassCharge < 0 {
      assert lowPassCharge % 256 == lowPassCharge + 256;
    }
  }

  // ---------------------------------------------------------------------------
  // Bit order and composition

  /** Integer division is determined by any quotient whose remainder lies in [0, m). */
  lemma DivUnique(b: int, m: int, q: int, r: int)
    requires m > 0 && b == q * m + r && 0 <= r < m
    ensures b / m == q
  {
    var q' := b / m;
    var r' := b % m;
    assert b == q' * m + r';
    assert (q - q') * m == r' - r;
    MulAtLeast(q - q', m);
  }

  /** Shifting right by `k` and then by one more bit is shifting right by `k + 1`. */
  lemma DivideThenHalve(b: int, k: nat)
    ensures (b / Pow2(k)) / 2 == b / Pow2(k + 1)
  {
    var p := Pow2(k);
    var q := b / p;
    var r1 := b % p;
    var h := q / 2;
    var r2 := q % 2;
    assert b == q * p + r1;
    assert q * p == h * (2 * p) + r2 * p;
    assert 0 <= r2 * p + r1 < 2 * p by {
      assert r2 == 0 || r2 == 1;
    }
    assert Pow2(k + 1) == 2 * p;
    DivUnique(b, 2 * p, h, r2 * p + r1);
  }

  lemma {:induction false} RunBitsSplit(d: Decoder, x: seq<bool>, y: seq<bool>)
    ensures var first := RunBits(d, x);
      var second := RunBits(first.0, y);
      RunBits(d, x + y) == (second.0, first.1 + second.1)
    decreases |x|
  {
    if x == [] {
      assert x + y == y;
      assert [] + RunBits(d, y).1 == RunBits(d, y).1;
    } else {
      var next := Step(d, x[0]);
      assert (x + y)[0] == x[0];
      assert (x + y)[1..] == x[1..] + y;
      RunBitsSplit(next, x[1..], y);
      var tail := RunBits(next, x[1..]);
      var second := RunBits(tail.0, y);
      assert [OutputSample(next.lowPassCharge)] + (tail.1 + second.1)
          == ([OutputSample(next.lowPassCharge)] + tail.1) + second.1;
    }
  }

  lemma {:induction false} InputBitsSplit(a: seq<SByte>, b: seq<SByte>)
    ensures InputBits(a + b) == InputBits(a) + InputBits(b)
    decreases |a|
  {
    if a == [] {
      assert a + b == b;
    } else {
      assert (a + b)[0] == a[0];
      assert (a + b)[1..] == a[1..] + b;
      InputBitsSplit(a[1..], b);
    }
  }

  /** Bit `j` of byte `i` is decoded at position `8 * i + j`: bytes in order, each least significant bit first. */
  lemma {:induction false} InputBitsOrder(input: seq<SByte>, i: nat, j: nat)
    requires i < |input| && j < 8
    ensures InputBits(input)[8 * i + j] == ((input[i] / Pow2(j)) % 2 == 1)
    decreases i
  {
    if i > 0 {
      InputBitsOrder(input[1..], i - 1, j);
    }
  }

  /**
   * State persists across `push` calls: decoding an input in two pushes yields the same
   * samples, and the same final state, as decoding it in one.
   */
  lemma DecodeBytesSplit(d: Decoder, a: seq<SByte>, b: seq<SByte>)
    ensures var first := DecodeBytes(d, a);
      var second := DecodeBytes(first.0, b);
      DecodeBytes(d, a + b) == (second.0, first.1 + second.1)
  {
    InputBitsSplit(a, b);
    RunBitsSplit(d, InputBits(a), InputBits(b));
  }

  lemma {:induction false} RunBitsInRange(d: Decoder, bits: seq<bool>)
    requires InRange(d)
    ensures InRange(RunBits(d, bits).0)
    decreases |bits|
  {
    if bits != [] {
      StepInRange(d, bits[0]);
      RunBitsInRange(Step(d, bits[0]), bits[1..]);
    }
  }

  // ---------------------------------------------------------------------------
  // The queue of decoded buffers

  /** A decoded `ByteBuffer`: its bytes and its read position. */
  datatype Chunk = Chunk(data: seq<SByte>, position: nat)

  predicate ChunkOk(c: Chunk) {
    c.position <= |c.data|
  }

  predicate QueueOk(q: seq<Chunk>) {
    forall i :: 0 <= i < |q| ==> ChunkOk(q[i])
  }

  lemma QueueOkSnoc(q: seq<Chunk>, c: Chunk)
    requires QueueOk(q) && ChunkOk(c)
    ensures QueueOk(q + [c])
  {
    assert forall i :: 0 <= i < |q| ==> (q + [c])[i] == q[i];
  }

  function Remaining(c: Chunk): seq<SByte>
    requires ChunkOk(c)
  {
    c.data[c.position..]
  }

  /** Every byte still to be read, in queue order. */
  function Pending(q: seq<Chunk>): seq<SByte>
    requires QueueOk(q)
  {
    if q == [] then [] else Remaining(q[0]) + Pending(q[1..])
  }

  /**
   * One call of `read` with `room` bytes of space: copies from the head chunk, dequeues it
   * only once nothing of it remains, and stops when the result is full or the queue is empty.
   */
  function Drain(q: seq<Chunk>, room: nat): (r: (seq<SByte>, seq<Chunk>))
    requires QueueOk(q)
    ensures QueueOk(r.1)
    ensures |r.0| <= room
  {
    if room == 0 || q == [] then ([], q)
    else
      var head := q[0];
      var available := |head.data| - head.position;
      if room < available then
        (head.data[head.position .. head.position + room], [Chunk(head.data, head.position + room)] + q[1..])
      else
        var rest := Drain(q[1..], room - available);
        (Remaining(head) + rest.0, rest.1)
  }

  /** `read` is FIFO: it takes the first `min(room, |Pending|)` pending bytes and leaves the rest queued. */
  lemma {:induction false} DrainIsFifo(q: seq<Chunk>, room: nat)
    requires QueueOk(q)
    ensures var n := Min(room, |Pending(q)|);
      && Drain(q, room).0 == Pending(q)[..n]
      && Pending(Drain(q, room).1) == Pending(q)[n..]
    decreases |q|
  {
    if room == 0 || q == [] {
    } else {
      var head := q[0];
      var available := |head.data| - head.position;
      if room < available {
        var next := Chunk(head.data, head.position + room);
        assert ([next] + q[1..])[1..] == q[1..];
        assert Remaining(head) == head.data[head.position .. head.position + room] + Remaining(next);
      } else {
        var rest := Drain(q[1..], room - available);
        assert Drain(q, room) == (Remaining(head) + rest.0, rest.1);
        assert Pending(q) == Remaining(head) + Pending(q[1..]);
        DrainIsFifo(q[1..], room - available);
        SliceAfterPrefix(Remaining(head), Pending(q[1..]), Min(room - available, |Pending(q[1..])|));
      }
    }
  }

  /** Cutting `a + b` just after `a` and `m` more elements. */
  lemma SliceAfterPrefix<T>(a: seq<T>, b: seq<T>, m: nat)
    requires m <= |b|
    ensures (a + b)[..|a| + m] == a + b[..m]
    ensures (a + b)[|a| + m..] == b[m..]
  {
  }

  /** How many chunks one `read` removes from the front of the queue. */
  function Dequeued(q: seq<Chunk>, room: nat): (k: nat)
    requires QueueOk(q)
    ensures k <= |q|
  {
    if room == 0 || q == [] then 0
    else if room < |q[0].data| - q[0].position then 0
    else 1 + Dequeued(q[1..], room - (|q[0].data| - q[0].position))
  }

  /** The chunks one `read` removes were read to their end: all their bytes begin its result. */
  lemma {:induction false} DequeuedWhollyRead(q: seq<Chunk>, room: nat)
    requires QueueOk(q)
    ensures Pending(q[..Dequeued(q, room)]) <= Drain(q, room).0
    decreases |q|
  {
    var k := Dequeued(q, room);
    if room == 0 || q == [] || room < |q[0].data| - q[0].position {
      assert q[..k] == [];
    } else {
      DequeuedWhollyRead(q[1..], room - (|q[0].data| - q[0].position));
      assert q[..k][1..] == q[1..][..k - 1];
    }
  }

  /**
   * A chunk is dequeued only once it has been read to its end: what is left is the rest
   * of the queue after the dequeued chunks, whose head may be partly read and, unless it
   * is untouched, still has bytes.
   */
  lemma {:induction false} DrainDequeuesOnlyConsumed(q: seq<Chunk>, room: nat)
    requires QueueOk(q)
    ensures var k := Dequeued(q, room);
      var rest := Drain(q, room).1;
      && (|rest| == |q| - k)
      && (rest != [] ==> rest[1..] == q[k + 1..] && rest[0].data == q[k].data && rest[0].position >= q[k].position)
      && (rest != [] && rest[0] != q[k] ==> |Remaining(rest[0])| > 0)
    decreases |q|
  {
    if room == 0 || q == [] || room < |q[0].data| - q[0].position {
    } else {
      var k := Dequeued(q, room);
      DrainDequeuesOnlyConsumed(q[1..], room - (|q[0].data| - q[0].position));
      assert k < |q| ==> q[1..][k - 1 + 1..] == q[k + 1..];
    }
  }

  /** Decoding one more bit extends the run by one step and one sample. */
  lemma RunBitsSnoc(d: Decoder, bits: seq<bool>, bit: bool)
    ensures var before := RunBits(d, bits);
      var next := Step(before.0, bit);
      RunBits(d, bits + [bit]) == (next, before.1 + [OutputSample(next.lowPassCharge)])
  {
    var before := RunBits(d, bits);
    RunBitsSplit(d, bits, [bit]);
    RunBitsOne(before.0, bit);
  }

  /** The decoder run over the first `j` bits of byte `b`. */
  function ByteRun(d: Decoder, b: int, j: nat): (Decoder, seq<SByte>)
    requires j <= 8
  {
    RunBits(d, BitsLsbFirst(b, 8)[..j])
  }

  /** Bit `j` of a byte, read as `push` reads it, extends the run over the bits before it by one step and one sample. */
  lemma RunOneMoreBit(d: Decoder, b: int, j: nat)
    requires j < 8
    ensures var before := ByteRun(d, b, j);
      var next := Step(before.0, (b / Pow2(j)) % 2 != 0);
      ByteRun(d, b, j + 1) == (next, before.1 + [OutputSample(next.lowPassCharge)])
  {
    var bits := BitsLsbFirst(b, 8);
    RunBitsSnoc(d, bits[..j], bits[j]);
    assert bits[..j + 1] == bits[..j] + [bits[j]];
  }

  lemma RunBitsOne(d: Decoder, bit: bool)
    ensures RunBits(d, [bit]) == (Step(d, bit), [OutputSample(Step(d, bit).lowPassCharge)])
  {
    var next := Step(d, bit);
    assert [bit][1..] == [];
    assert RunBits(next, []) == (next, []);
    assert [OutputSample(next.lowPassCharge)] + [] == [OutputSample(next.lowPassCharge)];
  }

  lemma InputBitsOne(b: SByte)
    ensures InputBits([b]) == BitsLsbFirst(b, 8)
  {
    assert [b][1..] == [];
    assert BitsLsbFirst(b, 8) + [] == BitsLsbFirst(b, 8);
  }

  /** Decoding one more byte appends its eight bits, least significant first. */
  lemma PushOneByte(d: Decoder, input: seq<SByte>, i: nat)
    requires i < |input|
    ensures var before := DecodeBytes(d, input[..i]);
      var after := RunBits(before.0, BitsLsbFirst(input[i], 8));
      DecodeBytes(d, input[..i + 1]) == (after.0, before.1 + after.1)
  {
    assert input[..i + 1] == input[..i] + [input[i]];
    InputBitsOne(input[i]);
    DecodeBytesSplit(d, input[..i], [input[i]]);
  }

  /** The queue after `n` more bytes of its head were read: the head, advanced, while it still has bytes. */
  function Advance(q: seq<Chunk>, n: nat): (r: seq<Chunk>)
    requires QueueOk(q) && q != [] && q[0].position + n <= |q[0].data|
    ensures QueueOk(r)
    ensures |r| < |q| <==> q[0].position + n == |q[0].data|
  {
    var after := Chunk(q[0].data, q[0].position + n);
    assert forall i :: 1 <= i < |q| ==> q[1..][i - 1] == q[i];
    if after.position < |after.data| then [after] + q[1..] else q[1..]
  }

  /** One turn of the loop of `read`: what the head chunk contributes and what is left of the queue. */
  lemma DrainHead(q: seq<Chunk>, room: nat, n: nat, roomAfter: nat)
    requires QueueOk(q) && q != [] && room > 0 && n == Min(|q[0].data| - q[0].position, room) && roomAfter == room - n
    ensures q[0].data[q[0].position .. q[0].position + n] + Drain(Advance(q, n), roomAfter).0 == Drain(q, room).0
    ensures Drain(Advance(q, n), roomAfter).1 == Drain(q, room).1
  {
    var head := q[0];
    var available := |head.data| - head.position;
    if room < available {
      assert Drain(Advance(q, n), 0).0 == [];
      assert head.data[head.position .. head.position + n] + [] == head.data[head.position .. head.position + n];
    } else {
      assert Remaining(head) == head.data[head.position .. head.position + n];
    }
  }

  /** The invariant of the loop of `read` survives one more turn: what was read so far and what is still to come make up the whole drain. */
  lemma ReadMore(q: seq<Chunk>, room: nat, n: nat, roomAfter: nat, done: seq<SByte>, drained: (seq<SByte>, seq<Chunk>))
    requires QueueOk(q) && q != [] && room > 0 && n == Min(|q[0].data| - q[0].position, room) && roomAfter == room - n
    requires done + Drain(q, room).0 == drained.0 && Drain(q, room).1 == drained.1
    ensures (done + q[0].data[q[0].position .. q[0].position + n]) + Drain(Advance(q, n), roomAfter).0 == drained.0
    ensures Drain(Advance(q, n), roomAfter).1 == drained.1
  {
    DrainHead(q, room, n, roomAfter);
    var copied := q[0].data[q[0].position .. q[0].position + n];
    var rest := Drain(Advance(q, n), roomAfter).0;
    assert (done + copied) + rest == done + (copied + rest);
  }

  /** The stream object: the decoder fields and the queue of decoded buffers. */
  class DfpwmStream {
    var buffers: seq<Chunk>
    var charge: int
    var strength: int
    var lowPassCharge: int
    var previousBit: bool

    function State(): Decoder
      reads this
    {
      Decoder(charge, strength, lowPassCharge, previousBit)
    }

    ghost predicate Valid()
      reads this
    {
      InRange(State()) && QueueOk(buffers)
    }

    constructor ()
      ensures Valid() && State() == Initial && buffers == []
    {
      buffers := [];
      charge, strength, lowPassCharge, previousBit := 0, 0, 0, false;
    }

    /**
     * Decodes `input` into one new buffer of eight samples per byte and appends it to the
     * queue. The loop shifts each byte right after every bit, so it consumes the bits least
     * significant first, as `InputBits` reads them.
     */
    method Push(input: seq<SByte>)
      requires Valid()
      modifies this
      ensures Valid()
      ensures State() == DecodeBytes(old(State()), input).0
      ensures buffers == old(buffers) + [Chunk(DecodeBytes(old(State()), input).1, 0)]
    {
      ghost var start := State();
      var output := new SByte[|input| * 8];
      var i := 0;
      while i < |input|
        invariant 0 <= i <= |input|
        invariant Valid() && buffers == old(buffers)
        invariant State() == DecodeBytes(start, input[..i]).0
        invariant output[..8 * i] == DecodeBytes(start, input[..i]).1
      {
        DecodeNextByte(output, start, input, i);
        i := i + 1;
      }
      assert input[..i] == input;
      assert output[..] == output[..8 * i];
      QueueOkSnoc(buffers, Chunk(output[..], 0));
      buffers := buffers + [Chunk(output[..], 0)];
    }

    /** One turn of the outer loop of `push`: the samples of `input[..i + 1]` now fill `output[..8 * (i + 1)]`. */
    method DecodeNextByte(output: array<SByte>, ghost start: Decoder, input: seq<SByte>, i: nat)
      requires Valid() && i < |input| && 8 * (i + 1) <= output.Length
      requires State() == DecodeBytes(start, input[..i]).0 && output[..8 * i] == DecodeBytes(start, input[..i]).1
      modifies this, output
      ensures Valid() && buffers == old(buffers)
      ensures State() == DecodeBytes(start, input[..i + 1]).0 && output[..8 * (i + 1)] == DecodeBytes(start, input[..i + 1]).1
    {
      PushOneByte(start, input, i);
      ghost var prefix := output[..8 * i];
      DecodeByteInto(output, 8 * i, input[i]);
      assert output[..8 * i] == prefix;
      assert output[..8 * (i + 1)] == output[..8 * i] + output[8 * i .. 8 * i + 8];
    }

    /** The inner loop of `push`: decodes one byte into `output[base .. base + 8]`, shifting it right after each bit. */
    method DecodeByteInto(output: array<SByte>, base: nat, b: SByte)
      requires Valid() && base + 8 <= output.Length
      modifies this, output
      ensures Valid() && buffers == old(buffers)
      ensures output[..base] == old(output[..base])
      ensures State() == RunBits(old(State()), BitsLsbFirst(b, 8)).0
      ensures output[base .. base + 8] == RunBits(old(State()), BitsLsbFirst(b, 8)).1
    {
      ghost var start := State();
      var inputByte: int := b;
      var j := 0;
      while j < 8
        invariant 0 <= j <= 8
        invariant Valid() && buffers == old(buffers)
        invariant output[..base] == old(output[..base])
        invariant inputByte == b / Pow2(j)
        invariant State() == ByteRun(start, b, j).0
        invariant output[base .. base + j] == ByteRun(start, b, j).1
      {
        RunOneMoreBit(start, b, j);
        var currentBit := inputByte % 2 != 0;
        var sample := DecodeBit(currentBit);
        ghost var done := output[base .. base + j];
        output[base + j] := sample;
        assert output[base .. base + j] == done;
        assert output[base .. base + j + 1] == output[base .. base + j] + [output[base + j]];
        DivideThenHalve(b, j);
        inputByte := inputByte / 2;
        j := j + 1;
      }
      assert BitsLsbFirst(b, 8)[..8] == BitsLsbFirst(b, 8);
    }

    /** One pass of the inner loop of `push`: updates the four decoder fields for one bit and returns its sample. */
    method DecodeBit(currentBit: bool) returns (sample: SByte)
      requires Valid()
      modifies this
      ensures Valid() && buffers == old(buffers)
      ensures State() == Step(old(State()), currentBit)
      ensures sample == OutputSample(Step(old(State()), currentBit).lowPassCharge)
    {
      ghost var d := State();
      StepInRange(d, currentBit);
      var target := if currentBit then 127 else -128;
      var nextCharge := charge + (strength * (target - charge) + 512) / 1024;
      if nextCharge == charge && nextCharge != target {
        nextCharge := nextCharge + (if currentBit then 1 else -1);
      }
      var z := if currentBit == previousBit then MAX_STRENGTH else 0;
      var nextStrength := strength;
      if strength != z {
        nextStrength := nextStrength + (if currentBit == previousBit then 1 else -1);
      }
      if nextStrength < MIN_STRENGTH {
        nextStrength := MIN_STRENGTH;
      }
      assert nextCharge == NextCharge(d, currentBit) && nextStrength == NextStrength(d, currentBit);
      var chargeWithAntijerk := if currentBit == previousBit then nextCharge else (nextCharge + charge + 1) / 2;
      assert chargeWithAntijerk == AntiJerk(d, currentBit);
      lowPassCharge := lowPassCharge + ((chargeWithAntijerk - lowPassCharge) * LPF_STRENGTH + 0x80) / 256;
      charge := nextCharge;
      strength := nextStrength;
      previousBit := currentBit;
      sample := OutputSample(lowPassCharge);
    }

    /**
     * Fills a fresh buffer of `capacity` bytes from the queue; `None` (Java's null) when
     * nothing was read.
     */
    method Read(capacity: nat) returns (result: Option<seq<SByte>>)
      requires Valid()
      modifies this
      ensures Valid() && State() == old(State())
      ensures buffers == Drain(old(buffers), capacity).1
      ensures result == if Drain(old(buffers), capacity).0 == [] then None else Some(Drain(old(buffers), capacity).0)
    {
      var out := new SByte[capacity];
      var len := Fill(out);
      if len == 0 {
        result := None;
      } else {
        result := Some(out[..len]);
      }
    }

    /** The loop of `read`: fills `out` from the front of the queue until it is full or the queue is empty. */
    method Fill(out: array<SByte>) returns (len: nat)
      requires Valid()
      modifies this, out
      ensures Valid() && State() == old(State())
      ensures len <= out.Length
      ensures buffers == Drain(old(buffers), out.Length).1
      ensures out[..len] == Drain(old(buffers), out.Length).0
    {
      ghost var drained := Drain(buffers, out.Length);
      len := 0;
      while len < out.Length
        invariant 0 <= len <= out.Length
        invariant Valid() && State() == old(State())
        invariant Drain(buffers, out.Length - len).1 == drained.1
        invariant out[..len] + Drain(buffers, out.Length - len).0 == drained.0
        decreases out.Length - len, |buffers|
      {
        if buffers == [] {
          break;
        }
        var newLen, more := ReadTurn(out, len, drained);
        len := newLen;
        if !more {
          break;
        }
      }
    }

    /** One turn of the loop of `read`, seen against the whole drain: the bytes read so far and the drain of what is left still make it up. */
    method ReadTurn(out: array<SByte>, len: nat, ghost drained: (seq<SByte>, seq<Chunk>)) returns (newLen: nat, more: bool)
      requires Valid() && buffers != [] && len < out.Length
      requires Drain(buffers, out.Length - len).1 == drained.1
      requires out[..len] + Drain(buffers, out.Length - len).0 == drained.0
      modifies this, out
      ensures Valid() && State() == old(State())
      ensures len <= newLen <= out.Length
      ensures Drain(buffers, out.Length - newLen).1 == drained.1
      ensures out[..newLen] + Drain(buffers, out.Length - newLen).0 == drained.0
      ensures more ==> |buffers| < |old(buffers)|
      ensures !more ==> newLen == out.Length
    {
      ghost var queue := buffers;
      ghost var prefix := out[..len];
      newLen, more := ReadHead(out, len);
      ReadMore(queue, out.Length - len, newLen - len, out.Length - newLen, prefix, drained);
      ghost var copied := queue[0].data[queue[0].position .. queue[0].position + (newLen - len)];
      assert out[len..newLen] == copied;
      assert out[..newLen] == prefix + copied;
    }

    /**
     * One turn of the loop of `read`: copies what fits of the head buffer into `out` after
     * `len`, and dequeues the head only once nothing of it remains. `more` is false when the
     * head still has bytes, which happens only when `out` is full.
     */
    method ReadHead(out: array<SByte>, len: nat) returns (newLen: nat, more: bool)
      requires Valid() && buffers != [] && len < out.Length
      modifies this, out
      ensures Valid() && State() == old(State())
      ensures newLen == len + Min(|old(buffers)[0].data| - old(buffers)[0].position, out.Length - len)
      ensures out[..len] == old(out[..len])
      ensures out[len..newLen] == old(buffers)[0].data[old(buffers)[0].position .. old(buffers)[0].position + (newLen - len)]
      ensures buffers == Advance(old(buffers), newLen - len)
      ensures more <==> |buffers| < |old(buffers)|
      ensures !more ==> newLen == out.Length
    {
      var head := buffers[0];
      var toRead := Min(|head.data| - head.position, out.Length - len);
      CopyInto(out, len, head.data[head.position .. head.position + toRead]);
      newLen := len + toRead;
      head := Chunk(head.data, head.position + toRead);
      if head.position < |head.data| {
        buffers := [head] + buffers[1..];
        more := false;
      } else {
        buffers := buffers[1..];
        more := true;
      }
    }

    /** `result.put(position, head, head.position(), toRead)`: a bulk copy into `out` at `at`. */
    static method CopyInto(out: array<SByte>, at: nat, src: seq<SByte>)
      requires at + |src| <= out.Length
      modifies out
      ensures out[..at] == old(out[..at])
      ensures out[at .. at + |src|] == src
    {
      forall k | 0 <= k < |src| {
        out[at + k] := src[k];
      }
    }

    /** Drops every queued buffer. */
    method Close()
      requires Valid()
      modifies this
      ensures Valid() && State() == old(State()) && buffers == []
    {
      buffers := [];
    }

    /** True exactly when no buffer (even an exhausted one) is queued. */
    function IsEmpty(): (r: bool)
      reads this
      ensures r <==> |buffers| == 0
    {
      buffers == []
    }
  }
}

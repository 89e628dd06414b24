/** The two convolution engines behind the fast-convolution facade: direct
    time-domain FIR convolution (`TrivialFIRConvolver`) and the uniformly
    partitioned FFT convolver, with the factory that picks one of them. */
module Convolver {
  import opened ErrorDef
  import opened Signals
  import opened RingBuffers

  /** `CFastConv::ConvCompMode_t`. */
  datatype ConvCompMode = TimeDomain | FreqDomain | NumConvCompModes

  // ---------------------------------------------------------------------
  // Discrete convolution, the specification of the time-domain engine.

  /** `sum_{j < count} ir[j] * x[n - j]`, with `x` silent outside its range. */
  function PartialConv(ir: seq<real>, x: seq<real>, n: int, count: nat): real
    requires count <= |ir|
  {
    if count == 0 then 0.0
    else PartialConv(ir, x, n, count - 1) + ir[count - 1] * XAt(x, n - (count - 1))
  }

  /** Output sample `n` of the convolution of `x` with `ir`. */
  function ConvAt(ir: seq<real>, x: seq<real>, n: int): real
  {
    PartialConv(ir, x, n, |ir|)
  }

  /** What one call of the engine adds to its output buffer: sample `i` of
      the block `x` that follows the history `h` gets the scaled convolution
      at its global index `|h| + i`. */
  function ConvBlock(ir: seq<real>, gain: real, h: seq<real>, x: seq<real>): (r: seq<real>)
    ensures |r| == |x|
  {
    seq(|x|, i requires 0 <= i < |x| => gain * ConvAt(ir, h + x, |h| + i))
  }

  /** The sample-wise sum of two signals of equal length. */
  function Add(x1: seq<real>, x2: seq<real>): (r: seq<real>)
    requires |x1| == |x2|
    ensures |r| == |x1|
  {
    seq(|x1|, i requires 0 <= i < |x1| => x1[i] + x2[i])
  }

  /** A signal scaled sample by sample. */
  function Scale(a: real, x: seq<real>): (r: seq<real>)
    ensures |r| == |x|
  {
    seq(|x|, i requires 0 <= i < |x| => a * x[i])
  }

  lemma {:induction false} PartialConvCausal(ir: seq<real>, x: seq<real>, y: seq<real>, n: int, count: nat)
    requires count <= |ir| && n < |x|
    ensures PartialConv(ir, x + y, n, count) == PartialConv(ir, x, n, count)
  {
    if count > 0 {
      PartialConvCausal(ir, x, y, n, count - 1);
    }
  }

  /** Causality: an output sample depends only on inputs up to its index. */
  lemma ConvCausal(ir: seq<real>, x: seq<real>, y: seq<real>, n: int)
    requires n < |x|
    ensures ConvAt(ir, x + y, n) == ConvAt(ir, x, n)
  {
    PartialConvCausal(ir, x, y, n, |ir|);
  }

  lemma {:induction false} PartialConvZeroPad(ir: seq<real>, x: seq<real>, k: nat, n: int, count: nat)
    requires count <= |ir|
    ensures PartialConv(ir, x + Zeros(k), n, count) == PartialConv(ir, x, n, count)
  {
    if count > 0 {
      PartialConvZeroPad(ir, x, k, n, count - 1);
    }
  }

  /** Appending silence to a signal changes none of its convolution samples. */
  lemma ConvZeroPad(ir: seq<real>, x: seq<real>, k: nat, n: int)
    ensures ConvAt(ir, x + Zeros(k), n) == ConvAt(ir, x, n)
  {
    PartialConvZeroPad(ir, x, k, n, |ir|);
  }

  lemma {:induction false} PartialConvTail(ir: seq<real>, x: seq<real>, n: int, count: nat)
    requires count <= |ir| && n >= |x| + count - 1
    ensures PartialConv(ir, x, n, count) == 0.0
  {
    if count > 0 {
      PartialConvTail(ir, x, n, count - 1);
    }
  }

  /** The convolution of a signal of length `L` with an IR of length `M`
      vanishes from index `L + M - 1` on: its tail has `M - 1` samples. */
  lemma ConvTailVanishes(ir: seq<real>, x: seq<real>, n: int)
    requires n >= |x| + |ir| - 1
    ensures ConvAt(ir, x, n) == 0.0
  {
    PartialConvTail(ir, x, n, |ir|);
  }

  lemma {:induction false} PartialConvImpulse(ir: seq<real>, len: nat, s: nat, n: int, count: nat)
    requires count <= |ir| && s < len
    ensures PartialConv(ir, Impulse(len, s), n, count) == if 0 <= n - s < count then ir[n - s] else 0.0
  {
    if count > 0 {
      PartialConvImpulse(ir, len, s, n, count - 1);
    }
  }

  /** Convolving a unit impulse at `s` reproduces the IR shifted by `s`. */
  lemma ConvImpulse(ir: seq<real>, len: nat, s: nat, n: int)
    requires s < len
    ensures ConvAt(ir, Impulse(len, s), n) == if 0 <= n - s < |ir| then ir[n - s] else 0.0
  {
    PartialConvImpulse(ir, len, s, n, |ir|);
  }

  lemma {:induction false} PartialConvAdditive(ir: seq<real>, x1: seq<real>, x2: seq<real>, n: int, count: nat)
    requires count <= |ir| && |x1| == |x2|
    ensures PartialConv(ir, Add(x1, x2), n, count) == PartialConv(ir, x1, n, count) + PartialConv(ir, x2, n, count)
  {
    if count > 0 {
      var j := count - 1;
      PartialConvAdditive(ir, x1, x2, n, j);
      assert XAt(Add(x1, x2), n - j) == XAt(x1, n - j) + XAt(x2, n - j);
      AddStep(PartialConv(ir, x1, n, j), PartialConv(ir, x2, n, j), ir[j], XAt(x1, n - j), XAt(x2, n - j));
    }
  }

  lemma AddStep(p1: real, p2: real, c: real, v1: real, v2: real)
    ensures (p1 + p2) + c * (v1 + v2) == (p1 + c * v1) + (p2 + c * v2)
  {
  }

  lemma {:induction false} PartialConvHomogeneous(ir: seq<real>, a: real, x: seq<real>, n: int, count: nat)
    requires count <= |ir|
    ensures PartialConv(ir, Scale(a, x), n, count) == a * PartialConv(ir, x, n, count)
  {
    if count > 0 {
      var j := count - 1;
      PartialConvHomogeneous(ir, a, x, n, j);
      assert XAt(Scale(a, x), n - j) == a * XAt(x, n - j);
      ScaleStep(a, PartialConv(ir, x, n, j), ir[j], XAt(x, n - j));
    }
  }

  lemma ScaleStep(a: real, p: real, c: real, v: real)
    ensures a * p + c * (a * v) == a * (p + c * v)
  {
  }

  /** Superposition: convolution is linear in the input signal. */
  lemma ConvLinear(ir: seq<real>, a: real, x1: seq<real>, b: real, x2: seq<real>, n: int)
    requires |x1| == |x2|
    ensures ConvAt(ir, Add(Scale(a, x1), Scale(b, x2)), n) == a * ConvAt(ir, x1, n) + b * ConvAt(ir, x2, n)
  {
    PartialConvAdditive(ir, Scale(a, x1), Scale(b, x2), n, |ir|);
    PartialConvHomogeneous(ir, a, x1, n, |ir|);
    PartialConvHomogeneous(ir, b, x2, n, |ir|);
  }

  /** Block-size invariance: feeding `a` and then `b` in two calls yields the
      same output samples as feeding `a + b` in one call. */
  lemma BlockSizeInvariance(ir: seq<real>, gain: real, h: seq<real>, a: seq<real>, b: seq<real>)
    ensures ConvBlock(ir, gain, h, a + b) == ConvBlock(ir, gain, h, a) + ConvBlock(ir, gain, h + a, b)
  {
    var whole, first, second := ConvBlock(ir, gain, h, a + b), ConvBlock(ir, gain, h, a), ConvBlock(ir, gain, h + a, b);
    assert h + (a + b) == (h + a) + b;
    forall i | 0 <= i < |a + b|
      ensures whole[i] == (first + second)[i]
    {
      if i < |a| {
        ConvCausal(ir, h + a, b, |h| + i);
      }
    }
  }

  /** The first `m` blocks of a stream are a prefix of the whole stream. */
  lemma {:induction false} FlattenPrefix(blocks: seq<seq<real>>, m: nat)
    requires m <= |blocks|
    ensures Flatten(blocks[..m]) <= Flatten(blocks)
    decreases |blocks|
  {
    if m < |blocks| {
      var init := blocks[..|blocks| - 1];
      assert init[..m] == blocks[..m];
      FlattenPrefix(init, m);
    } else {
      assert blocks[..m] == blocks;
    }
  }

  /** A stream cut into blocks: the output of block `b`, processed after
      every earlier block, is the stretch of the whole stream's convolution
      that lies under block `b`. */
  lemma BlockInStream(ir: seq<real>, gain: real, h: seq<real>, blocks: seq<seq<real>>, b: int, i: int)
    requires 0 <= b < |blocks| && 0 <= i < |blocks[b]|
    ensures |Flatten(blocks[..b])| + i < |Flatten(blocks)|
    ensures ConvBlock(ir, gain, h + Flatten(blocks[..b]), blocks[b])[i] ==
            ConvBlock(ir, gain, h, Flatten(blocks))[|Flatten(blocks[..b])| + i]
  {
    var before, whole := Flatten(blocks[..b]), Flatten(blocks);
    var upTo := before + blocks[b];
    assert blocks[..b + 1][..b] == blocks[..b];
    assert Flatten(blocks[..b + 1]) == upTo;
    FlattenPrefix(blocks, b + 1);
    var rest := whole[|upTo|..];
    assert whole == upTo + rest;
    var n := |h| + |before| + i;
    calc {
      ConvBlock(ir, gain, h + before, blocks[b])[i];
      gain * ConvAt(ir, (h + before) + blocks[b], n);
      { assert (h + before) + blocks[b] == h + upTo; }
      gain * ConvAt(ir, h + upTo, n);
      { ConvCausal(ir, h + upTo, rest, n);
        assert (h + upTo) + rest == h + whole; }
      gain * ConvAt(ir, h + whole, n);
      ConvBlock(ir, gain, h, whole)[|before| + i];
    }
  }

  /** The scenario of the identity test: a 10-sample input with a unit
      impulse at index 3, processed from a fresh engine with unit gain,
      gives the IR shifted by 3 and silence before it. */
  lemma ImpulseIdentity(ir: seq<real>)
    ensures forall i :: 0 <= i && i + 3 < 10 && i < |ir| ==> ConvBlock(ir, 1.0, [], Impulse(10, 3))[i + 3] == ir[i]
    ensures forall i :: 0 <= i < 3 ==> ConvBlock(ir, 1.0, [], Impulse(10, 3))[i] == 0.0
  {
    var out := ConvBlock(ir, 1.0, [], Impulse(10, 3));
    assert [] + Impulse(10, 3) == Impulse(10, 3);
    forall n | 0 <= n < 10
      ensures out[n] == if 0 <= n - 3 < |ir| then ir[n - 3] else 0.0
    {
      ConvImpulse(ir, 10, 3, n);
    }
  }

  /** Flushing after a signal `x` emits the `M` samples of its convolution
      that follow `x`; the last of them is always 0. */
  lemma FlushTail(ir: seq<real>, gain: real, x: seq<real>)
    requires |ir| > 0
    ensures forall i :: 0 <= i < |ir| ==> ConvBlock(ir, gain, x, Zeros(|ir|))[i] == gain * ConvAt(ir, x, |x| + i)
    ensures ConvBlock(ir, gain, x, Zeros(|ir|))[|ir| - 1] == 0.0
  {
    forall i | 0 <= i < |ir|
      ensures ConvBlock(ir, gain, x, Zeros(|ir|))[i] == gain * ConvAt(ir, x, |x| + i)
    {
      ConvZeroPad(ir, x, |ir|, |x| + i);
    }
    ConvTailVanishes(ir, x, |x| + |ir| - 1);
  }

  /** Reading `M - j` cells ahead of a read cursor that sits on the newest
      sample's slot yields the sample `j` steps back. */
  lemma ReadBack(cells: seq<real>, h: seq<real>, j: int)
    requires HoldsRecent(cells, h) && |h| >= 1 && 0 <= j < |cells|
    ensures cells[((|h| - 1) % |cells| + (|cells| - j)) % |cells|] == XAt(h, |h| - 1 - j)
  {
    var m := |cells|;
    ModShift(|h| - 1, m - j, m);
    ModMultiple(|h| - 1 - j, 1, m);
    assert |h| - 1 + (m - j) == (|h| - 1 - j) + 1 * m;
  }

  /** The sum as the FIR loop accumulates it: each tap's coefficient is
      multiplied by the wet gain before it weights its sample. */
  function ScaledPartialConv(ir: seq<real>, gain: real, x: seq<real>, n: int, count: nat): real
    requires count <= |ir|
  {
    if count == 0 then 0.0
    else ScaledPartialConv(ir, gain, x, n, count - 1) + XAt(x, n - (count - 1)) * (ir[count - 1] * gain)
  }

  /** Scaling every tap by the gain scales the whole sum by it. */
  lemma {:induction false} ScaledPartialConvIsScaled(ir: seq<real>, gain: real, x: seq<real>, n: int, count: nat)
    requires count <= |ir|
    ensures ScaledPartialConv(ir, gain, x, n, count) == gain * PartialConv(ir, x, n, count)
  {
    if count > 0 {
      ScaledPartialConvIsScaled(ir, gain, x, n, count - 1);
      var p, v, c := PartialConv(ir, x, n, count - 1), XAt(x, n - (count - 1)), ir[count - 1];
      assert gain * p + v * (c * gain) == gain * (p + c * v);
    }
  }

  // ---------------------------------------------------------------------
  // TrivialFIRConvolver

  class TrivialFirConvolver {
    const ir: seq<real>         // the first irLength samples of the IR
    const irLength: int
    const blockLength: int
    var wetGain: real
    var buffer: RingBuffer?     // the last irLength input samples; null after reset
    ghost var history: seq<real>  // every sample pushed since init
    ghost const Repr: set<object>

    ghost predicate Valid()
      reads this, Repr
    {
      this in Repr && 0 < irLength == |ir| && (buffer != null ==> Window(0))
    }

    /** The delay line holds the newest `irLength` samples of the history;
        the write cursor is on the slot of the next sample and the read
        cursor `lag` slots behind it (0 between frames, 1 within one). */
    ghost predicate Window(lag: int)
      reads this, Repr
    {
      this in Repr && 0 < irLength == |ir| && 0 <= lag <= |history| &&
      buffer != null && buffer in Repr && buffer.buff in Repr && buffer.Valid() &&
      buffer.length == irLength &&
      buffer.readIdx == (|history| - lag) % irLength &&
      buffer.writeIdx == |history| % irLength &&
      HoldsRecent(buffer.buff[..], history)
    }

    /** Construction runs `init`: store the IR and its lengths and allocate a
        zeroed delay line of `irLength` cells with both cursors at 0. */
    constructor (impulseResponse: seq<real>, irLength: int, blockLength: int)
      requires 0 < irLength <= |impulseResponse|
      ensures Valid() && fresh(Repr)
      ensures ir == impulseResponse[..irLength] && this.irLength == irLength && this.blockLength == blockLength
      ensures wetGain == 1.0 && buffer != null && history == []
    {
      var b := new RingBuffer(irLength);
      b.SetReadIdx(0);
      b.SetWriteIdx(0);
      ir := impulseResponse[..irLength];
      this.irLength := irLength;
      this.blockLength := blockLength;
      Repr := {this, b, b.buff};
      new;
      wetGain := 1.0;
      buffer := b;
      history := [];
    }

    method SetWetGain(gain: real) returns (err: Error)
      requires Valid()
      modifies this
      ensures Valid() && err == NoError
      ensures wetGain == gain && buffer == old(buffer) && history == old(history)
    {
      wetGain := gain;
      err := NoError;
    }

    /** Release the delay line; the engine cannot process until re-created. */
    method Reset() returns (err: Error)
      requires Valid()
      modifies this
      ensures Valid() && err == NoError
      ensures buffer == null && wetGain == old(wetGain) && history == old(history)
    {
      buffer := null;
      err := NoError;
    }

    /** Add to each of the first `bufferLength` output samples the wet-gain
        scaled convolution of the IR with every sample seen so far, at that
        sample's global index (`ConvBlock`); the rest of `output` is kept. */
    method Process(output: array<real>, input: seq<real>, bufferLength: int) returns (err: Error)
      requires Valid() && buffer != null && output !in Repr
      requires bufferLength <= output.Length && bufferLength <= |input|
      modifies Repr, output
      ensures Valid() && err == NoError
      ensures buffer == old(buffer) && wetGain == old(wetGain)
      ensures history == old(history) + input[..Frames(bufferLength)]
      ensures forall i :: 0 <= i < Frames(bufferLength) ==>
                output[i] == old(output[i]) + ConvBlock(ir, wetGain, old(history), input[..Frames(bufferLength)])[i]
      ensures forall i :: Frames(bufferLength) <= i < output.Length ==> output[i] == old(output[i])
    {
      ghost var h0 := history;
      var i := 0;
      while i < bufferLength
        invariant 0 <= i <= Frames(bufferLength)
        invariant Valid() && buffer == old(buffer) && wetGain == old(wetGain)
        invariant history == h0 + input[..i]
        invariant forall k :: 0 <= k < i ==> output[k] == old(output[k]) + ConvBlock(ir, wetGain, h0, input[..i])[k]
        invariant forall k :: i <= k < output.Length ==> output[k] == old(output[k])
      {
        ProcessFrame(output, i, input[i]);
        BlockSizeInvariance(ir, wetGain, h0, input[..i], [input[i]]);
        assert input[..i + 1] == input[..i] + [input[i]];
        i := i + 1;
      }
      err := NoError;
    }

    /** One frame of the `Process` loop: push the input sample, add the
        scaled dot product of the IR with the newest `irLength` samples to
        `output[i]`, then advance the read cursor. */
    method ProcessFrame(output: array<real>, i: int, x: real)
      requires Valid() && buffer != null && output !in Repr
      requires 0 <= i < output.Length
      modifies Repr, output
      ensures Valid() && buffer == old(buffer) && wetGain == old(wetGain)
      ensures history == old(history) + [x]
      ensures output[i] == old(output[i]) + wetGain * ConvAt(ir, history, |history| - 1)
      ensures forall k :: 0 <= k < output.Length && k != i ==> output[k] == old(output[k])
    {
      PushSample(x);
      Accumulate(output, i);
      ScaledPartialConvIsScaled(ir, wetGain, history, |history| - 1, irLength);
      Advance();
    }

    /** `putPostInc(input[i])`: the new sample enters the delay line. */
    method PushSample(x: real)
      requires Window(0)
      modifies Repr
      ensures Window(1) && buffer == old(buffer) && wetGain == old(wetGain)
      ensures history == old(history) + [x]
    {
      var buf: RingBuffer := buffer;
      ghost var cells := buf.buff[..];
      ModShift(|history|, 1, irLength);
      buf.PutPostInc(x);
      HoldsRecentPush(cells, history, x);
      history := history + [x];
    }

    /** The inner tap loop: `output[i] += get(M - j) * (IR[j] * wetGain)`
        for every tap `j`, reading the sample `j` steps back. */
    method Accumulate(output: array<real>, i: int)
      requires Window(1) && output !in Repr && 0 <= i < output.Length
      modifies output
      ensures output[i] == old(output[i]) + ScaledPartialConv(ir, wetGain, history, |history| - 1, irLength)
      ensures forall k :: 0 <= k < output.Length && k != i ==> output[k] == old(output[k])
    {
      ghost var base := output[i];
      var j := 0;
      while j < irLength
        invariant 0 <= j <= irLength
        invariant output[i] == base + ScaledPartialConv(ir, wetGain, history, |history| - 1, j)
        invariant forall k :: 0 <= k < output.Length && k != i ==> output[k] == old(output[k])
      {
        Tap(output, i, j, base);
        j := j + 1;
      }
    }

    /** One tap of that loop: `get(M - j)` reads the sample `j` steps back,
        and adding it, weighted by `IR[j] * wetGain`, extends the running
        sum by tap `j`. */
    method Tap(output: array<real>, i: int, j: int, ghost base: real)
      requires Window(1) && output !in Repr && 0 <= i < output.Length && 0 <= j < irLength
      requires output[i] == base + ScaledPartialConv(ir, wetGain, history, |history| - 1, j)
      modifies output
      ensures output[i] == base + ScaledPartialConv(ir, wetGain, history, |history| - 1, j + 1)
      ensures forall k :: 0 <= k < output.Length && k != i ==> output[k] == old(output[k])
    {
      var buf: RingBuffer := buffer;
      ghost var n := |history| - 1;
      ReadBack(buf.buff[..], history, j);
      var v := buf.GetAt(irLength - j);
      assert v == XAt(history, n - j);
      assert ScaledPartialConv(ir, wetGain, history, n, j + 1) ==
             ScaledPartialConv(ir, wetGain, history, n, j) + v * (ir[j] * wetGain);
      output[i] := output[i] + v * (ir[j] * wetGain);
    }

    /** `getPostInc()`: the read cursor catches up with the write cursor. */
    method Advance()
      requires Window(1)
      modifies buffer
      ensures Valid() && buffer != null
    {
      var buf: RingBuffer := buffer;
      ghost var cells := buf.buff[..];
      ModShift(|history| - 1, 1, irLength);
      var _ := buf.GetPostInc();
      assert buf.buff[..] == cells;
    }

    /** Push `irLength` zeros through the same recurrence as `Process`:
        the output receives the tail of the convolution of everything fed
        so far, whose last sample adds nothing. */
    method FlushBuffer(output: array<real>) returns (err: Error)
      requires Valid() && buffer != null && output !in Repr
      requires irLength <= output.Length
      modifies Repr, output
      ensures Valid() && err == NoError
      ensures buffer == old(buffer) && wetGain == old(wetGain)
      ensures history == old(history) + Zeros(irLength)
      ensures forall i :: 0 <= i < irLength ==>
                output[i] == old(output[i]) + wetGain * ConvAt(ir, old(history), |old(history)| + i)
      ensures output[irLength - 1] == old(output[irLength - 1])
      ensures forall i :: irLength <= i < output.Length ==> output[i] == old(output[i])
    {
      assert Zeros(irLength)[..irLength] == Zeros(irLength);
      FlushTail(ir, wetGain, history);
      err := Process(output, Zeros(irLength), irLength);
    }
  }

  // ---------------------------------------------------------------------
  // UniformlyPartitionedFFTConvolver

  /** `ceil(irLength / blockLength)`: the number of IR partitions. */
  function NumIrBlocks(irLength: int, blockLength: int): (n: int)
    requires 0 <= irLength && 0 < blockLength
    ensures 0 <= n && (n - 1) * blockLength < irLength <= n * blockLength
  {
    var q := irLength / blockLength;
    assert irLength == q * blockLength + irLength % blockLength;
    assert (q + 1) * blockLength == q * blockLength + blockLength;
    assert (q - 1) * blockLength == q * blockLength - blockLength;
    if irLength % blockLength != 0 then q + 1 else q
  }

  /** Capacity of each spectral accumulator: one block more than the
      partitioned IR, i.e. room for a whole IR plus one block, and less than
      two blocks of slack; a whole number of blocks. */
  function AccumulatorCapacity(irLength: int, blockLength: int): (c: int)
    requires 0 <= irLength && 0 < blockLength
    ensures irLength + blockLength <= c < irLength + 2 * blockLength
    ensures c % blockLength == 0
  {
    var n := NumIrBlocks(irLength, blockLength);
    assert (n + 1) * blockLength == n * blockLength + blockLength;
    ModUnique((n + 1) * blockLength, blockLength, n + 1, 0);
    (n + 1) * blockLength
  }

  /** Block `i` of five lies inside the first five blocks. */
  lemma BlockFits(i: int, b: int)
    requires 0 <= i < 5 && 0 < b
    ensures i * b + b <= 5 * b
  {
    assert 5 * b - (i * b + b) == (4 - i) * b;
  }

  /** Advancing a block-aligned cursor by one block in a ring of a whole
      number of blocks leaves it block-aligned. */
  lemma BlockAligned(r: int, b: int, c: int)
    requires 0 < b && 0 < c && 0 <= r && r % b == 0 && c % b == 0
    ensures ((r + b) % c) % b == 0
  {
    var p, k := r / b, c / b;
    ModUnique(r, b, p, 0);
    ModUnique(c, b, k, 0);
    var q, m := (r + b) / c, (r + b) % c;
    assert r + b == q * c + m;
    assert q * c == (q * k) * b;
    assert m == (p + 1 - q * k) * b;
    ModUnique(m, b, p + 1 - q * k, 0);
  }

  ghost predicate AllZero(a: array<real>)
    reads a
  {
    forall k :: 0 <= k < a.Length ==> a[k] == 0.0
  }

  /** `new float[n]` followed by `memset(.., 0, ..)`. */
  method NewZeroed(n: nat) returns (a: array<real>)
    ensures fresh(a) && a.Length == n && AllZero(a)
  {
    a := new real[n](_ => 0.0);
  }

  /** The seven zeroed vectors of `n` cells the complex multiply works in. */
  method NewScratch(n: nat) returns (ar: array<real>, br: array<real>, cr: array<real>,
                                     ai: array<real>, bi: array<real>, ci: array<real>, t: array<real>)
    ensures fresh(ar) && fresh(br) && fresh(cr) && fresh(ai) && fresh(bi) && fresh(ci) && fresh(t)
    ensures ar.Length == br.Length == cr.Length == ai.Length == bi.Length == ci.Length == t.Length == n
    ensures AllZero(ar) && AllZero(br) && AllZero(cr) && AllZero(ai) && AllZero(bi) && AllZero(ci) && AllZero(t)
    ensures cr !in {ar, br, ai, bi, ci, t} && ci !in {ar, br, ai, bi, t} && t !in {ar, br, ai, bi}
  {
    ar := NewZeroed(n);
    br := NewZeroed(n);
    cr := NewZeroed(n);
    ai := NewZeroed(n);
    bi := NewZeroed(n);
    ci := NewZeroed(n);
    t := NewZeroed(n);
  }

  /** A complex number, as split into real and imaginary parts. */
  datatype Complex = Complex(re: real, im: real)

  /** The complex product, the reference for the split-vector multiply. */
  function ComplexMul(a: Complex, b: Complex): Complex
  {
    Complex(a.re * b.re - a.im * b.im, a.re * b.im + a.im * b.re)
  }

  /** `CVectorFloat::copy(dst, src, n)`. */
  method VecCopy(dst: array<real>, src: array<real>, n: int)
    requires dst != src && 0 <= n <= dst.Length && n <= src.Length
    modifies dst
    ensures forall k :: 0 <= k < n ==> dst[k] == src[k]
    ensures forall k :: n <= k < dst.Length ==> dst[k] == old(dst[k])
  {
    var k := 0;
    while k < n
      invariant 0 <= k <= n
      invariant forall m :: 0 <= m < k ==> dst[m] == src[m]
      invariant forall m :: k <= m < dst.Length ==> dst[m] == old(dst[m])
    {
      dst[k] := src[k];
      k := k + 1;
    }
  }

  /** `CVectorFloat::mul_I(dst, src, n)`: element-wise `dst *= src`. */
  method VecMulI(dst: array<real>, src: array<real>, n: int)
    requires dst != src && 0 <= n <= dst.Length && n <= src.Length
    modifies dst
    ensures forall k :: 0 <= k < n ==> dst[k] == old(dst[k]) * src[k]
    ensures forall k :: n <= k < dst.Length ==> dst[k] == old(dst[k])
  {
    var k := 0;
    while k < n
      invariant 0 <= k <= n
      invariant forall m :: 0 <= m < k ==> dst[m] == old(dst[m]) * src[m]
      invariant forall m :: k <= m < dst.Length ==> dst[m] == old(dst[m])
    {
      dst[k] := dst[k] * src[k];
      k := k + 1;
    }
  }

  /** `CVectorFloat::sub_I(dst, src, n)`: element-wise `dst -= src`. */
  method VecSubI(dst: array<real>, src: array<real>, n: int)
    requires dst != src && 0 <= n <= dst.Length && n <= src.Length
    modifies dst
    ensures forall k :: 0 <= k < n ==> dst[k] == old(dst[k]) - src[k]
    ensures forall k :: n <= k < dst.Length ==> dst[k] == old(dst[k])
  {
    var k := 0;
    while k < n
      invariant 0 <= k <= n
      invariant forall m :: 0 <= m < k ==> dst[m] == old(dst[m]) - src[m]
      invariant forall m :: k <= m < dst.Length ==> dst[m] == old(dst[m])
    {
      dst[k] := dst[k] - src[k];
      k := k + 1;
    }
  }

  /** `CVectorFloat::add_I(dst, src, n)`: element-wise `dst += src`. */
  method VecAddI(dst: array<real>, src: array<real>, n: int)
    requires dst != src && 0 <= n <= dst.Length && n <= src.Length
    modifies dst
    ensures forall k :: 0 <= k < n ==> dst[k] == old(dst[k]) + src[k]
    ensures forall k :: n <= k < dst.Length ==> dst[k] == old(dst[k])
  {
    var k := 0;
    while k < n
      invariant 0 <= k <= n
      invariant forall m :: 0 <= m < k ==> dst[m] == old(dst[m]) + src[m]
      invariant forall m :: k <= m < dst.Length ==> dst[m] == old(dst[m])
    {
      dst[k] := dst[k] + src[k];
      k := k + 1;
    }
  }

  class PartitionedFftConvolver {
    const ir: seq<real>
    const irLength: int
    const blockLength: int
    var wetGain: real
    const numBlocks: int
    const bufferReal: RingBuffer   // spectral overlap-add accumulators
    const bufferImag: RingBuffer
    const aReal: array<real>       // split-complex scratch vectors
    const bReal: array<real>
    const cReal: array<real>
    const aImag: array<real>
    const bImag: array<real>
    const cImag: array<real>
    const temp: array<real>
    const iFftTemp: array<real>    // time-domain transform workspace
    var live: bool                 // false once `reset` has freed the storage
    ghost const Repr: set<object>

    ghost predicate Valid()
      reads this, Repr
    {
      this in Repr && bufferReal in Repr && bufferImag in Repr && bufferReal != bufferImag &&
      {aReal, bReal, cReal, aImag, bImag, cImag, temp, iFftTemp} <= Repr &&
      // the vectors written by the complex multiply are distinct from every other one
      cReal !in {aReal, bReal, aImag, bImag, cImag, temp} &&
      cImag !in {aReal, bReal, aImag, bImag, temp} &&
      temp !in {aReal, bReal, aImag, bImag} &&
      0 < blockLength && 0 <= irLength == |ir| &&
      bufferReal.Valid() && bufferImag.Valid() &&
      bufferReal.length == bufferImag.length && bufferReal.length % blockLength == 0 &&
      bufferReal.readIdx % blockLength == 0 && bufferImag.readIdx % blockLength == 0 &&
      aReal.Length == bReal.Length == cReal.Length == blockLength + 1 &&
      aImag.Length == bImag.Length == cImag.Length == temp.Length == blockLength + 1 &&
      iFftTemp.Length == 2 * blockLength
    }

    /** Construction runs `init`: partition count, two accumulators of
        `(numBlocks + 1) * blockLength` cells with cursors at 0, and zeroed
        scratch vectors. */
    constructor (impulseResponse: seq<real>, irLength: int, blockLength: int)
      requires 0 < blockLength && 0 <= irLength <= |impulseResponse|
      ensures Valid() && fresh(Repr) && live && wetGain == 1.0
      ensures ir == impulseResponse[..irLength] && this.irLength == irLength && this.blockLength == blockLength
      ensures numBlocks == NumIrBlocks(irLength, blockLength)
      ensures bufferReal.length == bufferImag.length == AccumulatorCapacity(irLength, blockLength)
      ensures bufferReal.readIdx == bufferReal.writeIdx == bufferImag.readIdx == bufferImag.writeIdx == 0
      ensures AllZero(aReal) && AllZero(bReal) && AllZero(cReal) && AllZero(temp)
      ensures AllZero(aImag) && AllZero(bImag) && AllZero(cImag) && AllZero(iFftTemp)
    {
      var n := NumIrBlocks(irLength, blockLength);
      var capacity := AccumulatorCapacity(irLength, blockLength);
      assert capacity % blockLength == 0;
      ModUnique(0, blockLength, 0, 0);
      var re := new RingBuffer(capacity);
      var im := new RingBuffer(capacity);
      var ar, br, cr, ai, bi, ci, t := NewScratch(blockLength + 1);
      var w := NewZeroed(2 * blockLength);
      ir := impulseResponse[..irLength];
      this.irLength := irLength;
      this.blockLength := blockLength;
      numBlocks := n;
      bufferReal, bufferImag := re, im;
      aReal, bReal, cReal, aImag, bImag, cImag, temp, iFftTemp := ar, br, cr, ai, bi, ci, t, w;
      Repr := {this, re, im, ar, br, cr, ai, bi, ci, t, w};
      wetGain := 1.0;
      live := true;
    }

    method SetWetGain(gain: real) returns (err: Error)
      requires Valid()
      modifies this
      ensures Valid() && err == NoError && wetGain == gain && live == old(live)
    {
      wetGain := gain;
      err := NoError;
    }

    /** Free every buffer; a second reset would free them twice, so it
        requires the storage to be live. */
    method Reset() returns (err: Error)
      requires Valid() && live
      modifies this
      ensures Valid() && err == NoError && !live && wetGain == old(wetGain)
    {
      live := false;
      err := NoError;
    }

    /** Process one block into `output[offset..]`: the input is zero-padded
        into the workspace, which the external FFT transforms forth and back
        (its result is unconstrained here), the first `bufferLength` samples
        of the workspace are copied out, and both accumulators' read cursors
        advance by one block. The wet gain is not applied. */
    method Process(output: array<real>, offset: int, input: seq<real>, bufferLength: int) returns (err: Error)
      requires Valid() && live && output !in Repr
      requires 0 <= bufferLength <= 2 * blockLength && bufferLength <= |input|
      requires 0 <= offset && offset + bufferLength <= output.Length
      modifies output, iFftTemp, bufferReal, bufferImag
      ensures Valid() && err == NoError
      ensures bufferReal.readIdx == (old(bufferReal.readIdx) + blockLength) % bufferReal.length
      ensures bufferImag.readIdx == (old(bufferImag.readIdx) + blockLength) % bufferImag.length
      ensures bufferReal.writeIdx == old(bufferReal.writeIdx) && bufferImag.writeIdx == old(bufferImag.writeIdx)
      ensures forall k :: 0 <= k < bufferLength ==> output[offset + k] == iFftTemp[k]
      ensures forall k :: 0 <= k < output.Length && !(offset <= k < offset + bufferLength) ==> output[k] == old(output[k])
    {
      // doFft / doInvFft of the zero-padded input: not part of this model
      var k := 0;
      while k < iFftTemp.Length
        invariant 0 <= k <= iFftTemp.Length
        modifies iFftTemp
      {
        iFftTemp[k] := *;
        k := k + 1;
      }
      k := 0;
      while k < bufferLength
        invariant 0 <= k <= bufferLength
        invariant forall m :: 0 <= m < k ==> output[offset + m] == iFftTemp[m]
        invariant forall m :: 0 <= m < output.Length && !(offset <= m < offset + k) ==> output[m] == old(output[m])
        modifies output
      {
        output[offset + k] := iFftTemp[k];
        k := k + 1;
      }
      BlockAligned(bufferReal.readIdx, blockLength, bufferReal.length);
      BlockAligned(bufferImag.readIdx, blockLength, bufferImag.length);
      bufferReal.SetReadIdx(bufferReal.readIdx + blockLength);
      bufferImag.SetReadIdx(bufferImag.readIdx + blockLength);
      err := NoError;
    }

    /** Five blocks of zeros are processed into consecutive blocks of the
        output, and the call reports `UnknownError`. */
    method FlushBuffer(output: array<real>) returns (err: Error)
      requires Valid() && live && output !in Repr
      requires 5 * blockLength <= output.Length
      modifies output, iFftTemp, bufferReal, bufferImag
      ensures Valid() && err == UnknownError
      ensures bufferReal.readIdx == (old(bufferReal.readIdx) + 5 * blockLength) % bufferReal.length
      ensures bufferImag.readIdx == (old(bufferImag.readIdx) + 5 * blockLength) % bufferImag.length
      ensures forall k :: 5 * blockLength <= k < output.Length ==> output[k] == old(output[k])
    {
      var zeros := Zeros(blockLength);
      ghost var r0, i0 := bufferReal.readIdx, bufferImag.readIdx;
      var start := 0;
      ModUnique(r0, bufferReal.length, 0, r0);
      ModUnique(i0, bufferImag.length, 0, i0);
      for i := 0 to 5
        invariant Valid() && live
        invariant start == i * blockLength
        invariant bufferReal.readIdx == (r0 + start) % bufferReal.length
        invariant bufferImag.readIdx == (i0 + start) % bufferImag.length
        invariant forall k :: start <= k < output.Length ==> output[k] == old(output[k])
      {
        ModShift(r0 + start, blockLength, bufferReal.length);
        ModShift(i0 + start, blockLength, bufferImag.length);
        BlockFits(i, blockLength);
        var _ := Process(output, start, zeros, blockLength);
        assert (i + 1) * blockLength == start + blockLength;
        start := start + blockLength;
      }
      err := UnknownError;
    }

    /** The split-vector complex multiply: `c = a * b` element-wise over the
        first `blockLength` bins (the splitting of `a` and `b` into the scratch
        vectors is done by the external FFT and is not part of this model). */
    method ComplexVectorMul()
      requires Valid() && live
      modifies cReal, cImag, temp
      ensures forall k :: 0 <= k < blockLength ==>
                Complex(cReal[k], cImag[k]) == ComplexMul(Complex(aReal[k], aImag[k]), Complex(bReal[k], bImag[k]))
      ensures cReal[blockLength] == old(cReal[blockLength]) && cImag[blockLength] == old(cImag[blockLength])
    {
      RealPart();
      ImagPart();
    }

    /** `c_r = a_r * b_r - a_i * b_i`, using `cImag` as scratch. */
    method RealPart()
      requires Valid()
      modifies cReal, cImag
      ensures forall k :: 0 <= k < blockLength ==> cReal[k] == aReal[k] * bReal[k] - aImag[k] * bImag[k]
      ensures cReal[blockLength] == old(cReal[blockLength]) && cImag[blockLength] == old(cImag[blockLength])
    {
      VecCopy(cReal, aReal, blockLength);
      VecMulI(cReal, bReal, blockLength);
      VecCopy(cImag, aImag, blockLength);
      VecMulI(cImag, bImag, blockLength);
      VecSubI(cReal, cImag, blockLength);
    }

    /** `c_i = a_r * b_i + a_i * b_r`, using `temp` as scratch. */
    method ImagPart()
      requires Valid()
      modifies cImag, temp
      ensures forall k :: 0 <= k < blockLength ==> cImag[k] == aReal[k] * bImag[k] + aImag[k] * bReal[k]
      ensures cImag[blockLength] == old(cImag[blockLength])
    {
      VecCopy(cImag, aReal, blockLength);
      VecMulI(cImag, bImag, blockLength);
      VecCopy(temp, aImag, blockLength);
      VecMulI(temp, bReal, blockLength);
      VecAddI(cImag, temp, blockLength);
    }
  }

  // ---------------------------------------------------------------------
  // ConvolverFactory

  /** A `ConvolverInterface*`: no engine, or one of the two engines. */
  datatype ConvolverHandle =
    | NoConvolver
    | Trivial(t: TrivialFirConvolver)
    | Partitioned(p: PartitionedFftConvolver)

  ghost function HandleRepr(h: ConvolverHandle): set<object>
  {
    match h
    case NoConvolver => {}
    case Trivial(t) => {t} + t.Repr
    case Partitioned(p) => {p} + p.Repr
  }

  ghost predicate HandleValid(h: ConvolverHandle)
    reads HandleRepr(h)
  {
    match h
    case NoConvolver => true
    case Trivial(t) => t.Valid()
    case Partitioned(p) => p.Valid()
  }

  /** `createConvolver`: a time-domain engine for `TimeDomain`, a partitioned
      engine for `FreqDomain`, and no engine for the sentinel value (the
      source returns no value there). */
  method CreateConvolver(impulseResponse: seq<real>, irLength: int, blockLength: int, choice: ConvCompMode)
    returns (c: ConvolverHandle)
    requires choice == TimeDomain ==> 0 < irLength <= |impulseResponse|
    requires choice == FreqDomain ==> 0 < blockLength && 0 <= irLength <= |impulseResponse|
    ensures HandleValid(c) && fresh(HandleRepr(c))
    ensures c.Trivial? <==> choice == TimeDomain
    ensures c.Partitioned? <==> choice == FreqDomain
    ensures c.Trivial? ==> c.t.ir == impulseResponse[..irLength] && c.t.buffer != null &&
                           c.t.history == [] && c.t.wetGain == 1.0
    ensures c.Partitioned? ==> c.p.ir == impulseResponse[..irLength] && c.p.blockLength == blockLength &&
                               c.p.live && c.p.wetGain == 1.0
  {
    match choice
    case TimeDomain =>
      var t := new TrivialFirConvolver(impulseResponse, irLength, blockLength);
      c := Trivial(t);
    case FreqDomain =>
      var p := new PartitionedFftConvolver(impulseResponse, irLength, blockLength);
      c := Partitioned(p);
    case NumConvCompModes =>
      c := NoConvolver;
  }
}

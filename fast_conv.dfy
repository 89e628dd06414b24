/** `CFastConv`: the public fast-convolution object. It owns at most one
    engine, created by the factory in `init`, and forwards every call to it,
    reporting `NotInitializedError` while it has none. */
module FastConvolution {
  import opened ErrorDef
  import opened Signals
  import opened Convolver

  class FastConv {
    var convolver: ConvolverHandle
    ghost var Repr: set<object>

    ghost predicate Valid()
      reads this, Repr
    {
      this in Repr && HandleRepr(convolver) <= Repr && this !in HandleRepr(convolver) &&
      HandleValid(convolver)
    }

    /** A new object has no engine. */
    constructor ()
      ensures Valid() && fresh(Repr) && convolver == NoConvolver
    {
      convolver := NoConvolver;
      Repr := {this};
    }

    /** Install the engine the factory builds for `compMode`; always reports
        success, even for the sentinel mode, which leaves no engine. */
    method Init(impulseResponse: seq<real>, irLength: int, blockLength: int, compMode: ConvCompMode)
      returns (err: Error)
      requires Valid()
      requires compMode == TimeDomain ==> 0 < irLength <= |impulseResponse|
      requires compMode == FreqDomain ==> 0 < blockLength && 0 <= irLength <= |impulseResponse|
      modifies this
      ensures Valid() && fresh(HandleRepr(convolver)) && fresh(Repr - {this}) && err == NoError
      ensures convolver.Trivial? <==> compMode == TimeDomain
      ensures convolver.Partitioned? <==> compMode == FreqDomain
      ensures convolver.Trivial? ==>
                (convolver.t.ir == impulseResponse[..irLength] && convolver.t.buffer != null &&
                 convolver.t.history == [] && convolver.t.wetGain == 1.0)
      ensures convolver.Partitioned? ==>
                (convolver.p.ir == impulseResponse[..irLength] && convolver.p.blockLength == blockLength &&
                 convolver.p.live && convolver.p.wetGain == 1.0)
    {
      convolver := CreateConvolver(impulseResponse, irLength, blockLength, compMode);
      Repr := {this} + HandleRepr(convolver);
      err := NoError;
    }

    /** Forward `reset` to the engine, if there is one. */
    method Reset() returns (err: Error)
      requires Valid()
      requires convolver.Partitioned? ==> convolver.p.live
      modifies HandleRepr(convolver)
      ensures Valid() && convolver == old(convolver)
      ensures convolver.NoConvolver? ==> err == NotInitializedError
      ensures convolver.Trivial? ==>
                (err == NoError && convolver.t.buffer == null && convolver.t.history == old(convolver.t.history))
      ensures convolver.Partitioned? ==> err == NoError && !convolver.p.live
    {
      match convolver
      case NoConvolver =>
        err := NotInitializedError;
      case Trivial(t) =>
        err := t.Reset();
      case Partitioned(p) =>
        err := p.Reset();
    }

    /** Forward `process` to the engine, if there is one; without one the
        output is left as it is. */
    method Process(output: array<real>, input: seq<real>, lengthOfBuffers: int) returns (err: Error)
      requires Valid() && output !in Repr
      requires lengthOfBuffers <= output.Length && lengthOfBuffers <= |input|
      requires convolver.Trivial? ==> convolver.t.buffer != null
      requires convolver.Partitioned? ==>
                 convolver.p.live && 0 <= lengthOfBuffers <= 2 * convolver.p.blockLength
      modifies HandleRepr(convolver), output
      ensures Valid() && convolver == old(convolver)
      ensures convolver.NoConvolver? ==> err == NotInitializedError && output[..] == old(output[..])
      ensures convolver.Trivial? ==>
                err == NoError &&
                convolver.t.history == old(convolver.t.history) + input[..Frames(lengthOfBuffers)] &&
                (forall i :: 0 <= i < Frames(lengthOfBuffers) ==>
                   output[i] == old(output[i]) + ConvBlock(convolver.t.ir, convolver.t.wetGain,
                                   old(convolver.t.history), input[..Frames(lengthOfBuffers)])[i]) &&
                (forall i :: Frames(lengthOfBuffers) <= i < output.Length ==> output[i] == old(output[i]))
      ensures convolver.Trivial? ==>
                convolver.t.buffer != null && convolver.t.wetGain == old(convolver.t.wetGain)
      ensures convolver.Partitioned? ==>
                err == NoError &&
                convolver.p.bufferReal.readIdx ==
                  (old(convolver.p.bufferReal.readIdx) + convolver.p.blockLength) % convolver.p.bufferReal.length &&
                convolver.p.bufferImag.readIdx ==
                  (old(convolver.p.bufferImag.readIdx) + convolver.p.blockLength) % convolver.p.bufferImag.length &&
                (forall i :: lengthOfBuffers <= i < output.Length ==> output[i] == old(output[i]))
      ensures convolver.Partitioned? ==>
                convolver.p.live && convolver.p.wetGain == old(convolver.p.wetGain)
    {
      match convolver
      case NoConvolver =>
        err := NotInitializedError;
      case Trivial(t) =>
        err := t.Process(output, input, lengthOfBuffers);
      case Partitioned(p) =>
        err := p.Process(output, 0, input, lengthOfBuffers);
    }

    /** Forward `flushBuffer` to the engine, if there is one. */
    method FlushBuffer(output: array<real>) returns (err: Error)
      requires Valid() && output !in Repr
      requires convolver.Trivial? ==> convolver.t.buffer != null && convolver.t.irLength <= output.Length
      requires convolver.Partitioned? ==> convolver.p.live && 5 * convolver.p.blockLength <= output.Length
      modifies HandleRepr(convolver), output
      ensures Valid() && convolver == old(convolver)
      ensures convolver.NoConvolver? ==> err == NotInitializedError && output[..] == old(output[..])
      ensures convolver.Trivial? ==>
                err == NoError &&
                (forall i :: 0 <= i < convolver.t.irLength ==>
                   output[i] == old(output[i]) + convolver.t.wetGain *
                                  ConvAt(convolver.t.ir, old(convolver.t.history), |old(convolver.t.history)| + i))
      ensures convolver.Trivial? ==>
                convolver.t.history == old(convolver.t.history) + Zeros(convolver.t.irLength) &&
                output[convolver.t.irLength - 1] == old(output[convolver.t.irLength - 1]) &&
                (forall i :: convolver.t.irLength <= i < output.Length ==> output[i] == old(output[i])) &&
                convolver.t.buffer != null && convolver.t.wetGain == old(convolver.t.wetGain)
      ensures convolver.Partitioned? ==>
                err == UnknownError &&
                convolver.p.bufferReal.readIdx ==
                  (old(convolver.p.bufferReal.readIdx) + 5 * convolver.p.blockLength) % convolver.p.bufferReal.length &&
                convolver.p.bufferImag.readIdx ==
                  (old(convolver.p.bufferImag.readIdx) + 5 * convolver.p.blockLength) % convolver.p.bufferImag.length &&
                (forall i :: 5 * convolver.p.blockLength <= i < output.Length ==> output[i] == old(output[i]))
      ensures convolver.Partitioned? ==>
                convolver.p.live && convolver.p.wetGain == old(convolver.p.wetGain)
    {
      match convolver
      case NoConvolver =>
        err := NotInitializedError;
      case Trivial(t) =>
        err := t.FlushBuffer(output);
      case Partitioned(p) =>
        err := p.FlushBuffer(output);
    }

    /** Forward the wet gain to the engine; the source dereferences the
        engine without checking it, so one is required. */
    method SetWetGain(wetGain: real) returns (err: Error)
      requires Valid() && !convolver.NoConvolver?
      modifies HandleRepr(convolver)
      ensures Valid() && convolver == old(convolver) && err == NoError
      ensures convolver.Trivial? ==>
                convolver.t.wetGain == wetGain && convolver.t.buffer == old(convolver.t.buffer) &&
                convolver.t.history == old(convolver.t.history)
      ensures convolver.Partitioned? ==>
                convolver.p.wetGain == wetGain && convolver.p.live == old(convolver.p.live)
    {
      match convolver
      case Trivial(t) =>
        err := t.SetWetGain(wetGain);
      case Partitioned(p) =>
        err := p.SetWetGain(wetGain);
    }
  }

  /** Output buffer `out`, which held `prior`, has received block `c` of
      the stream: under the block, `prior` plus the stretch of the whole
      stream's convolution at the block's offset; past it, `prior`. */
  ghost predicate BlockDelivered(out: array<real>, prior: seq<real>, ir: seq<real>, gain: real,
                                 h0: seq<real>, blocks: seq<seq<real>>, c: int)
    reads out
    requires 0 <= c < |blocks|
  {
    |prior| == out.Length && |blocks[c]| <= out.Length &&
    |Flatten(blocks[..c])| + |blocks[c]| <= |Flatten(blocks)| &&
    (forall i :: 0 <= i < |blocks[c]| ==>
       out[i] == prior[i] + ConvBlock(ir, gain, h0, Flatten(blocks))[|Flatten(blocks[..c])| + i]) &&
    (forall i :: |blocks[c]| <= i < out.Length ==> out[i] == prior[i])
  }

  /** The demo program's processing phase on the time-domain engine: set
      the wet gain, then `process` the input stream block after block, each
      block into an output buffer of its own. Every output sample is the
      sample of one convolution of the whole stream (after the history the
      engine had already seen) that lies under it, however the stream is cut
      into blocks. */
  method ProcessStream(fc: FastConv, gain: real, blocks: seq<seq<real>>, outs: seq<array<real>>)
    requires fc.Valid() && fc.convolver.Trivial? && fc.convolver.t.buffer != null
    requires |outs| == |blocks|
    requires forall b :: 0 <= b < |outs| ==> outs[b] !in fc.Repr && |blocks[b]| <= outs[b].Length
    requires forall b, c :: 0 <= b < c < |outs| ==> outs[b] != outs[c]
    modifies fc.Repr, outs
    ensures fc.Valid() && fc.convolver == old(fc.convolver)
    ensures fc.convolver.t.wetGain == gain && fc.convolver.t.buffer != null
    ensures fc.convolver.t.history == old(fc.convolver.t.history) + Flatten(blocks)
    ensures forall b :: 0 <= b < |outs| ==>
              BlockDelivered(outs[b], old(outs[b][..]), fc.convolver.t.ir, gain,
                             old(fc.convolver.t.history), blocks, b)
  {
    var t := fc.convolver.t;
    ghost var h0 := t.history;
    ghost var prior := seq(|outs|, c requires 0 <= c < |outs| reads outs => outs[c][..]);
    var _ := fc.SetWetGain(gain);
    var b := 0;
    while b < |blocks|
      invariant 0 <= b <= |blocks|
      invariant fc.Valid() && fc.convolver == old(fc.convolver) && fc.Repr == old(fc.Repr)
      invariant t.buffer != null && t.wetGain == gain
      invariant t.history == h0 + Flatten(blocks[..b])
      invariant forall c :: 0 <= c < b ==> BlockDelivered(outs[c], prior[c], t.ir, gain, h0, blocks, c)
      invariant forall c :: b <= c < |outs| ==> outs[c][..] == prior[c]
    {
      label BeforeBlock:
      ProcessStreamBlock(fc, t, gain, h0, blocks, outs[b], b);
      assert forall c :: 0 <= c < |outs| && c != b ==> outs[c][..] == old@BeforeBlock(outs[c][..]);
      assert t.history == h0 + Flatten(blocks[..b + 1]);
      b := b + 1;
    }
    assert blocks[..b] == blocks;
  }

  /** One pass of that loop: `process` block `b` into `out`. */
  method ProcessStreamBlock(fc: FastConv, t: TrivialFirConvolver, gain: real, ghost h0: seq<real>,
                            blocks: seq<seq<real>>, out: array<real>, b: int)
    requires fc.Valid() && fc.convolver == Trivial(t) && t.buffer != null && t.wetGain == gain
    requires 0 <= b < |blocks| && t.history == h0 + Flatten(blocks[..b])
    requires out !in fc.Repr && |blocks[b]| <= out.Length
    modifies fc.Repr, out
    ensures fc.Valid() && fc.convolver == old(fc.convolver) && fc.Repr == old(fc.Repr)
    ensures t.buffer != null && t.wetGain == gain
    ensures t.history == h0 + Flatten(blocks[..b + 1])
    ensures BlockDelivered(out, old(out[..]), t.ir, gain, h0, blocks, b)
  {
    ghost var before := t.history;
    var _ := fc.Process(out, blocks[b], |blocks[b]|);
    assert Frames(|blocks[b]|) == |blocks[b]| && blocks[b][..|blocks[b]|] == blocks[b];
    assert blocks[..b + 1][..b] == blocks[..b];
    assert Flatten(blocks[..b + 1]) == Flatten(blocks[..b]) + blocks[b];
    FlattenPrefix(blocks, b + 1);
    forall i | 0 <= i < |blocks[b]|
      ensures out[i] == old(out[i]) + ConvBlock(t.ir, gain, h0, Flatten(blocks))[|Flatten(blocks[..b])| + i]
    {
      assert out[i] == old(out[i]) + ConvBlock(t.ir, gain, before, blocks[b])[i];
      BlockInStream(t.ir, gain, h0, blocks, b, i);
    }
  }
}

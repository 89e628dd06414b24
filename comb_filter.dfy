/** The feed-forward (FIR) and feedback (IIR) comb filters `CCombFilterBase`,
    `FIRCombFilter` and `IIRCombFilter`: a gain, a delay and one delay line
    shared by all channels. */
module CombFilters {
  import opened ErrorDef
  import opened Signals
  import opened RingBuffers

  /** `CCombFilterIf::CombFilterType_t`; `NumFilterTypes` is the sentinel. */
  datatype CombFilterType = CombFir | CombIir | NumFilterTypes

  /** `CCombFilterIf::FilterParam_t`; `NumFilterParams` is the sentinel. */
  datatype FilterParam = ParamGain | ParamDelay | NumFilterParams

  /** The gain must lie in `[0, MaxGain)`. */
  const MaxGain: real := 1.0
  /** The delay, in seconds, must lie in `[0, MaxDelay)`. */
  const MaxDelay: real := 1.0

  /** The half-open range test `lower <= value < upper`. */
  predicate IsInRange(lower: real, upper: real, value: real)
  {
    lower <= value && value < upper
  }

  /** The range includes its lower end (when it is not empty) and never its
      upper end, and an empty range accepts nothing. */
  lemma HalfOpenRange(lower: real, upper: real, value: real)
    ensures IsInRange(lower, upper, lower) <==> lower < upper
    ensures !IsInRange(lower, upper, upper)
    ensures upper <= lower ==> !IsInRange(lower, upper, value)
  {
  }

  // ---------------------------------------------------------------------
  // What one channel of each filter computes, with the delay `d` in samples.
  // ---------------------------------------------------------------------

  /** Feed-forward comb: `y[j] = x[j] + g * x[j - d]`, `x` being 0 before
      the start of the block. */
  function FirAt(x: seq<real>, g: real, d: int, j: int): real
  {
    XAt(x, j) + g * XAt(x, j - d)
  }

  /** Feedback comb: `y[j] = x[j] + g * y[j - d]`, `y` being 0 before the
      start of the block. */
  function IirAt(x: seq<real>, g: real, d: int, j: int): real
    requires d > 0
    decreases j
  {
    if j < 0 then 0.0 else XAt(x, j) + g * IirAt(x, g, d, j - d)
  }

  /** The output sample `j` of a filter of type `kind`. */
  function CombAt(kind: CombFilterType, x: seq<real>, g: real, d: int, j: int): real
    requires d > 0
  {
    if kind == CombFir then FirAt(x, g, d, j) else IirAt(x, g, d, j)
  }

  /** One step of the feedback recursion inside the block. */
  lemma IirStep(x: seq<real>, g: real, d: int, j: int)
    requires d > 0 && 0 <= j < |x|
    ensures IirAt(x, g, d, j) == x[j] + g * IirAt(x, g, d, j - d)
  {
  }

  /** `g` raised to the power `k`. */
  function Pow(g: real, k: nat): real
  {
    if k == 0 then 1.0 else g * Pow(g, k - 1)
  }

  /** The FIR comb's impulse response: the impulse itself and one echo of
      height `g` after `d` samples, nothing else. */
  lemma FirImpulseResponse(len: nat, g: real, d: int, j: int)
    requires d > 0 && 0 <= j
    ensures FirAt(Impulse(len, 0), g, d, j) ==
              (if j == 0 && len > 0 then 1.0
               else if j == d && len > 0 then g
               else 0.0)
  {
  }

  /** The IIR comb's impulse response: echoes every `d` samples, the `k`-th
      of height `g^k`, and silence in between. */
  lemma {:induction false} IirImpulseResponse(len: nat, g: real, d: int, j: int)
    requires d > 0 && 0 <= j < len
    ensures IirAt(Impulse(len, 0), g, d, j) ==
              (if j % d == 0 then Pow(g, j / d) else 0.0)
  {
    if j < d {
      ModUnique(j, d, 0, j);
      if j > 0 {
        assert IirAt(Impulse(len, 0), g, d, j - d) == 0.0;
      }
    } else {
      IirImpulseResponse(len, g, d, j - d);
      ModMultiple(j - d, 1, d);
      if j % d == 0 {
        ModUnique(j, d, j / d, 0);
        ModUnique(j - d, d, j / d - 1, 0);
      }
    }
  }

  /** Both filters leave the first `d` samples of a block untouched: the
      delay line starts empty. */
  lemma CombDelayedStart(kind: CombFilterType, x: seq<real>, g: real, d: int, j: int)
    requires d > 0 && 0 <= j < d && j < |x|
    ensures CombAt(kind, x, g, d, j) == x[j]
  {
    if kind != CombFir {
      assert IirAt(x, g, d, j - d) == 0.0;
    }
  }

  /** With gain 0 both filters pass their input through. */
  lemma CombZeroGain(kind: CombFilterType, x: seq<real>, d: int, j: int)
    requires d > 0 && 0 <= j < |x|
    ensures CombAt(kind, x, 0.0, d, j) == x[j]
  {
  }

  // ---------------------------------------------------------------------
  // CCombFilterBase with its two process implementations
  // ---------------------------------------------------------------------

  class CombFilter {
    const kind: CombFilterType
    const numChannels: int
    var gain: real
    var delay: real
    var delayInSamples: int
    var buffer: RingBuffer?
    ghost var Repr: set<object>

    ghost predicate Valid()
      reads this, Repr
    {
      this in Repr && kind != NumFilterTypes &&
      (buffer != null ==>
         buffer in Repr && buffer.buff in Repr && buffer.Valid() &&
         buffer.length == delayInSamples)
    }

    /** `CCombFilterBase(maxDelay, fs, numChannels)`: gain 0, no delay line,
        then `setDelay(maxDelay)`. The delay in samples is `delayInSamples`. */
    constructor (kind: CombFilterType, maxDelay: real, numChannels: int, delayInSamples: int)
      requires kind != NumFilterTypes && delayInSamples > 0
      ensures Valid() && fresh(Repr)
      ensures this.kind == kind && this.numChannels == numChannels && gain == 0.0
      ensures IsInRange(0.0, MaxDelay, maxDelay) ==>
                delay == maxDelay && this.delayInSamples == delayInSamples &&
                buffer != null && buffer.readIdx == 0 && buffer.writeIdx == 0 &&
                (forall k :: 0 <= k < delayInSamples ==> buffer.buff[k] == 0.0)
      ensures !IsInRange(0.0, MaxDelay, maxDelay) ==> buffer == null
    {
      this.kind := kind;
      this.numChannels := numChannels;
      gain := 0.0;
      buffer := null;
      Repr := {this};
      new;
      var _ := SetDelay(maxDelay, delayInSamples);
    }

    /** `getParam`: the stored gain or delay; -1 for the sentinel. */
    function GetParam(param: FilterParam): (r: real)
      reads this
      ensures param == ParamGain ==> r == gain
      ensures param == ParamDelay ==> r == delay
      ensures param == NumFilterParams ==> r == -1.0
    {
      match param
      case ParamGain => gain
      case ParamDelay => delay
      case NumFilterParams => -1.0
    }

    /** `setGain`: a gain in `[0, MaxGain)` is stored exactly, any other is
        refused and nothing changes. */
    method SetGain(g: real) returns (err: Error)
      requires Valid()
      modifies this
      ensures Valid() && Repr == old(Repr)
      ensures IsInRange(0.0, MaxGain, g) ==> err == NoError && gain == g
      ensures !IsInRange(0.0, MaxGain, g) ==>
                err == FunctionInvalidArgsError && gain == old(gain)
      ensures delay == old(delay) && delayInSamples == old(delayInSamples)
      ensures buffer == old(buffer)
    {
      if !IsInRange(0.0, MaxGain, g) {
        return FunctionInvalidArgsError;
      }
      gain := g;
      return NoError;
    }

    /** `setDelay`: a delay in `[0, MaxDelay)` is stored and the delay line is
        replaced by a fresh zeroed one of `d` cells; any other delay is
        refused and nothing changes. */
    method SetDelay(dl: real, d: int) returns (err: Error)
      requires Valid() && d > 0
      modifies this
      ensures Valid() && fresh(Repr - old(Repr))
      ensures IsInRange(0.0, MaxDelay, dl) ==>
                err == NoError && delay == dl && delayInSamples == d &&
                buffer != null && fresh(buffer) &&
                buffer.readIdx == 0 && buffer.writeIdx == 0 &&
                (forall k :: 0 <= k < d ==> buffer.buff[k] == 0.0)
      ensures !IsInRange(0.0, MaxDelay, dl) ==>
                err == FunctionInvalidArgsError && delay == old(delay) &&
                delayInSamples == old(delayInSamples) && buffer == old(buffer) &&
                Repr == old(Repr)
      ensures gain == old(gain)
    {
      if !IsInRange(0.0, MaxDelay, dl) {
        return FunctionInvalidArgsError;
      }
      delay := dl;
      delayInSamples := d;
      var b := new RingBuffer(d);
      buffer := b;
      Repr := Repr + {b, b.buff};
      return NoError;
    }

    /** `setParam`: forwards to `setGain` or `setDelay` and refuses the
        sentinel. A value that is accepted reads back unchanged through
        `GetParam`; a refused one changes no parameter. */
    method SetParam(param: FilterParam, value: real, d: int) returns (err: Error)
      requires Valid() && d > 0
      modifies this
      ensures Valid() && fresh(Repr - old(Repr))
      ensures err == NoError <==>
                (param == ParamGain && IsInRange(0.0, MaxGain, value)) ||
                (param == ParamDelay && IsInRange(0.0, MaxDelay, value))
      ensures err != NoError ==> err == FunctionInvalidArgsError
      ensures err == NoError ==> GetParam(param) == value
      ensures err != NoError ==>
                gain == old(gain) && delay == old(delay) && buffer == old(buffer)
      ensures param != ParamGain ==> gain == old(gain)
      ensures param != ParamDelay ==> delay == old(delay) && buffer == old(buffer)
      ensures param == ParamDelay && err == NoError ==>
                delayInSamples == d && buffer != null && fresh(buffer) &&
                buffer.readIdx == 0 && buffer.writeIdx == 0 &&
                (forall k :: 0 <= k < d ==> buffer.buff[k] == 0.0)
      ensures !(param == ParamDelay && err == NoError) ==>
                delayInSamples == old(delayInSamples) && buffer == old(buffer) && Repr == old(Repr)
    {
      match param
      case ParamGain =>
        err := SetGain(value);
      case ParamDelay =>
        err := SetDelay(value, d);
      case NumFilterParams =>
        err := FunctionInvalidArgsError;
    }

    /** `process`: every channel in turn, through the filter of this type. */
    method Process(input: seq<seq<real>>, output: array2<real>, numFrames: int) returns (err: Error)
      requires Valid() && buffer != null
      requires numChannels <= |input| && numChannels <= output.Length0
      requires numFrames <= output.Length1
      requires forall c :: 0 <= c < numChannels ==> numFrames <= |input[c]|
      modifies buffer, buffer.buff, output
      ensures Valid() && err == NoError
      ensures forall c, j :: 0 <= c < numChannels && 0 <= j < numFrames ==>
                output[c, j] == CombAt(kind, input[c], gain, delayInSamples, j)
      ensures forall c, j :: (0 <= c < output.Length0 && 0 <= j < output.Length1 &&
                !(c < numChannels && j < numFrames)) ==>
                output[c, j] == old(output[c, j])
    {
      var c := 0;
      while c < numChannels
        invariant 0 <= c <= Frames(numChannels)
        invariant Valid() && buffer.length == delayInSamples
        invariant forall k, j :: 0 <= k < c && 0 <= j < numFrames ==>
                    output[k, j] == CombAt(kind, input[k], gain, delayInSamples, j)
        invariant forall k, j :: (0 <= k < output.Length0 && 0 <= j < output.Length1 &&
                    !(k < c && j < numFrames)) ==>
                    output[k, j] == old(output[k, j])
      {
        if kind == CombFir {
          FirChannel(input[c], output, c, numFrames);
        } else {
          IirChannel(input[c], output, c, numFrames);
        }
        c := c + 1;
      }
      return NoError;
    }

    /** The delay line holds the last `delayInSamples` samples of `h` (the
        channel's pushed history); the write cursor is where sample `|h|`
        goes and the read cursor is `lag` samples past the oldest one. */
    ghost predicate Line(h: seq<real>, lag: int)
      reads this, Repr
    {
      Valid() && buffer != null && (lag == 0 || lag == 1) &&
      buffer.readIdx == (|h| + lag) % delayInSamples &&
      buffer.writeIdx == |h| % delayInSamples &&
      HoldsRecent(buffer.buff[..], h)
    }

    /** Start a channel: an empty delay line with the write cursor `d` cells
        ahead of the read cursor, which modulo `d` puts both at 0. */
    method StartChannel()
      requires Valid() && buffer != null
      modifies buffer, buffer.buff
      ensures Line([], 0)
    {
      buffer.Reset();
      ModUnique(delayInSamples, delayInSamples, 1, 0);
      buffer.SetWriteIdx(delayInSamples);
    }

    /** `getPostInc` on the delay line: the sample pushed `delayInSamples`
        frames ago (0 before the start of the channel). */
    method Pop(ghost h: seq<real>) returns (v: real)
      requires Line(h, 0)
      modifies buffer
      ensures Line(h, 1)
      ensures v == XAt(h, |h| - delayInSamples)
    {
      HoldsRecentOldest(buffer.buff[..], h);
      ModShift(|h|, 1, delayInSamples);
      v := buffer.GetPostInc();
    }

    /** `putPostInc(v)` on the delay line: `v` becomes the newest sample. */
    method Push(ghost h: seq<real>, v: real)
      requires Line(h, 1)
      modifies buffer, buffer.buff
      ensures Line(h + [v], 0)
    {
      ghost var cells := buffer.buff[..];
      ModShift(|h|, 1, delayInSamples);
      buffer.PutPostInc(v);
      HoldsRecentPush(cells, h, v);
    }

    /** One frame of the feed-forward comb: read the delayed input, push
        the current one. */
    method FirFrame(x: seq<real>, j: nat) returns (y: real)
      requires j < |x| && Line(x[..j], 0)
      modifies buffer, buffer.buff
      ensures Line(x[..j + 1], 0)
      ensures y == FirAt(x, gain, delayInSamples, j)
    {
      var delayed := Pop(x[..j]);
      y := x[j] + gain * delayed;
      Push(x[..j], x[j]);
      assert x[..j + 1] == x[..j] + [x[j]];
    }

    /** One frame of the feedback comb: read the delayed output, push the
        current one. */
    method IirFrame(x: seq<real>, j: nat, ghost h: seq<real>) returns (y: real)
      requires j < |x| && Line(h, 0) && h == IirPrefix(x, gain, delayInSamples, j)
      modifies buffer, buffer.buff
      ensures y == IirAt(x, gain, delayInSamples, j)
      ensures Line(h + [y], 0)
    {
      var d := delayInSamples;
      assert XAt(h, j - d) == IirAt(x, gain, d, j - d);
      var delayed := Pop(h);
      IirStep(x, gain, d, j);
      y := x[j] + gain * delayed;
      Push(h, y);
    }

    /** `FIRCombFilter::process` for channel `c`: output the input plus `g`
        times the sample read from the delay line, then push the input. */
    method FirChannel(x: seq<real>, output: array2<real>, c: int, numFrames: int)
      requires Valid() && buffer != null
      requires 0 <= c < output.Length0 && numFrames <= output.Length1 && numFrames <= |x|
      modifies buffer, buffer.buff, output
      ensures Valid()
      ensures forall j :: 0 <= j < numFrames ==> output[c, j] == FirAt(x, gain, delayInSamples, j)
      ensures forall k, j :: (0 <= k < output.Length0 && 0 <= j < output.Length1 &&
                !(k == c && j < numFrames)) ==>
                output[k, j] == old(output[k, j])
    {
      StartChannel();
      var g, d := gain, delayInSamples;
      var j := 0;
      while j < numFrames
        invariant 0 <= j <= Frames(numFrames)
        invariant Line(x[..j], 0)
        invariant forall k :: 0 <= k < j ==> output[c, k] == FirAt(x, g, d, k)
        invariant forall k, m :: (0 <= k < output.Length0 && 0 <= m < output.Length1 &&
                    !(k == c && m < j)) ==>
                    output[k, m] == old(output[k, m])
      {
        var y := FirFrame(x, j);
        output[c, j] := y;
        j := j + 1;
      }
    }

    /** `IIRCombFilter::process` for channel `c`: output the input plus `g`
        times the sample read from the delay line, then push the output. */
    method IirChannel(x: seq<real>, output: array2<real>, c: int, numFrames: int)
      requires Valid() && buffer != null
      requires 0 <= c < output.Length0 && numFrames <= output.Length1 && numFrames <= |x|
      modifies buffer, buffer.buff, output
      ensures Valid()
      ensures forall j :: 0 <= j < numFrames ==> output[c, j] == IirAt(x, gain, delayInSamples, j)
      ensures forall k, j :: (0 <= k < output.Length0 && 0 <= j < output.Length1 &&
                !(k == c && j < numFrames)) ==>
                output[k, j] == old(output[k, j])
    {
      StartChannel();
      var g, d := gain, delayInSamples;
      ghost var h: seq<real> := [];
      var j := 0;
      while j < numFrames
        invariant 0 <= j <= Frames(numFrames)
        invariant h == IirPrefix(x, g, d, j)
        invariant Line(h, 0)
        invariant forall k :: 0 <= k < j ==> output[c, k] == h[k]
        invariant forall k, m :: (0 <= k < output.Length0 && 0 <= m < output.Length1 &&
                    !(k == c && m < j)) ==>
                    output[k, m] == old(output[k, m])
      {
        var y := IirFrame(x, j, h);
        output[c, j] := y;
        IirPrefixSnoc(x, g, d, j);
        h := h + [y];
        j := j + 1;
      }
    }
  }

  /** The first `n` outputs of the feedback comb. */
  ghost function IirPrefix(x: seq<real>, g: real, d: int, n: nat): (p: seq<real>)
    requires d > 0
    ensures |p| == n
  {
    seq(n, k => IirAt(x, g, d, k))
  }

  /** One more output extends the prefix by that output. */
  lemma IirPrefixSnoc(x: seq<real>, g: real, d: int, n: nat)
    requires d > 0
    ensures IirPrefix(x, g, d, n + 1) == IirPrefix(x, g, d, n) + [IirAt(x, g, d, n)]
  {
    assert forall k :: 0 <= k < n ==> IirPrefix(x, g, d, n + 1)[k] == IirPrefix(x, g, d, n)[k];
  }
}

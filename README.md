# Audio-effects core: ring buffer, convolution engines, comb filters, argument parser

This project models the processing core of a small C++ audio-effects
library and proves properties of it in Dafny:

- **`CRingBuffer<T>`** (`ring_buffer.dfy`, module `RingBuffers`) is a
  fixed-capacity circular buffer of samples with independent read and
  write cursors. It supports wrapped offset reads, fractional
  (linearly interpolated) reads, cursor repositioning and a fill count.
  The ghost predicate `HoldsRecent(cells, h)` states that the storage
  holds the newest `|cells|` samples of the pushed history `h`, sample
  `t` in cell `t mod |cells|`. It is the delay-line invariant every
  other component builds on.
- **The convolution engines** (`convolver.dfy`, module `Convolver`):
  - `TrivialFirConvolver` does direct time-domain FIR convolution. It is
    proved against the discrete convolution `ConvAt`, which is shown to
    be causal, linear, block-size invariant and finite-tailed.
  - `PartitionedFftConvolver` is the uniformly partitioned FFT engine,
    with its partition arithmetic, accumulator cursors and split-vector
    complex multiply.
  - `CreateConvolver` is the factory.
- **`CFastConv`** (`fast_conv.dfy`, module `FastConvolution`) is the
  façade. It owns at most one engine and reports `NotInitializedError`
  while it has none.
- **The comb filters** (`comb_filter.dfy`, module `CombFilters`) are the
  FIR (`y[j] = x[j] + g·x[j−D]`) and IIR (`y[j] = x[j] + g·y[j−D]`)
  comb filters with their range-checked gain and delay parameters.
- **`CCombFilterIf`** (`comb_filter_if.dfy`, module
  `CombFilterInterface`) covers the create / init / reset / destroy
  lifecycle and the version lookup.
- **`parseArg`** (`command_line.dfy`, module `CommandLine`) is the
  command-line parser of the demo program. The method is proved equal to
  the recursive specification `Parse`, and the parser's rules are lemmas
  about `Parse`.

Two small modules hold shared vocabulary:
- `signals.dfy` (`Signals`): finite signals read as zero outside their
  range, silence, unit impulses, loop counts;
- `error_def.dfy` (`ErrorDef`): the `Error_t` codes, all eleven
  enumerators of `inc/ErrorDef.h` in their declared order.

Samples, gains and delays are `real`. Integer indices are unbounded
`int`, and C++ `%` is applied only to non-negative operands, where it
agrees with Dafny's.

## Model

| member | source | states |
|---|---|---|
| RingBuffers.HoldsRecentPush | src/inc/RingBuffer.h:37-50 | storing a sample at slot `|h| mod N` turns a buffer holding the newest N samples of `h` into one holding the newest N samples of `h + [v]` |
| RingBuffers.HoldsRecentOldest | src/inc/RingBuffer.h:55-64 | in a buffer holding the newest N samples of `h`, the slot where the next sample goes holds the sample N steps back (0 before the start) |
| RingBuffers.RingBuffer.constructor | src/inc/RingBuffer.h:15-25 | requires a positive length; all cells are 0 and both cursors are 0 |
| RingBuffers.RingBuffer.Reset | src/inc/RingBuffer.h:100-105 | all cells become 0 and both cursors 0 |
| RingBuffers.RingBuffer.Put | src/inc/RingBuffer.h:47-50 | exactly the cell under the write cursor takes the new value |
| RingBuffers.RingBuffer.PutPostInc | src/inc/RingBuffer.h:37-41 | the write-cursor cell takes the value, the write cursor advances by 1 mod N, the read cursor and all other cells are unchanged (no overwrite protection) |
| RingBuffers.RingBuffer.GetPostInc | src/inc/RingBuffer.h:55-60 | returns the cell under the read cursor; only the read cursor moves, by 1 mod N; the storage is unchanged |
| RingBuffers.RingBuffer.IndexWrapper | src/inc/RingBuffer.h:157-159 | equals `index mod N` in `[0, N)`, except for a negative multiple of N, where it is N (out of range) |
| RingBuffers.RingBuffer.IndexWrapperCongruent | src/inc/RingBuffer.h:157-159 | even in the out-of-range case, `base + IndexWrapper(i)` and `base + i` agree mod N |
| RingBuffers.RingBuffer.WrappedNeighbours | src/inc/RingBuffer.h:74-77 | the lower and upper interpolation indices address the cells at `t` and `t + 1` from the cursor |
| RingBuffers.RingBuffer.GetAt | src/inc/RingBuffer.h:66-68 | the cell at `(read + offset) mod N`, without changing any state; the requires excludes the offsets where the wrapped index would be N |
| RingBuffers.RingBuffer.GetFrac | src/inc/RingBuffer.h:74-95 | the linear interpolation, weighted by the fractional part, of the cells at the truncated offset and one past it |
| RingBuffers.RingBuffer.ZeroOffsetReads | src/Tests/Tests/Test_RingBuffer.cpp:69-76 | `get(0)` and `get(0.0)` both equal `get()` |
| RingBuffers.RingBuffer.Echo | src/Tests/Tests/Test_RingBuffer.cpp:59-67 | alternating put and get on a buffer with coinciding cursors returns the inputs in order and keeps read == write |
| RingBuffers.RampInterpolation | src/Tests/Tests/Test_RingBuffer.cpp:50-57 | on a buffer holding `0, 1, …, N−1` with the read cursor at 0, `get(f) == f` for every `f` in `[0, N−1)`, so `get(0.4) == 0.4` for N = 20 |
| RingBuffers.RingBuffer.SetReadIdx | src/inc/RingBuffer.h:136-139 | the read cursor becomes `k mod N` (Euclidean, also for negative k); the write cursor is unchanged |
| RingBuffers.RingBuffer.SetWriteIdx | src/inc/RingBuffer.h:119-122 | the write cursor becomes `k mod N`; the read cursor is unchanged |
| RingBuffers.RingBuffer.NumValuesInBuffer | src/inc/RingBuffer.h:144-147 | the count `n` lies in `[0, N)`, `read + n ≡ write (mod N)`, and `n == 0` exactly when the cursors coincide (empty and full are indistinguishable) |
| RingBuffers.RingBuffer.IncIdx | src/inc/RingBuffer.h:165-173 | the loop that lifts a negative offset ends with `(idx + offset) mod N` in `[0, N)` |
| Convolver.ConvCausal | src/FastConv/Convolver.cpp:84-93 | an output sample of the convolution depends only on inputs up to its index |
| Convolver.ConvZeroPad | src/FastConv/Convolver.cpp:95-104 | appending silence to the input changes no convolution sample |
| Convolver.ConvTailVanishes | src/FastConv/Convolver.cpp:95-104 | the convolution of L samples with an M-tap IR is 0 from index L + M − 1 on |
| Convolver.ConvImpulse | src/FastConv/Convolver.cpp:84-93 | convolving a unit impulse at `s` yields the IR shifted by `s` |
| Convolver.ConvLinear | src/FastConv/Convolver.cpp:84-93 | superposition: the convolution of `a·x1 + b·x2` is `a·conv(x1) + b·conv(x2)` |
| Convolver.BlockSizeInvariance | src/FastConv/Convolver.cpp:84-93 | processing `a` then `b` in two calls yields the same output samples as processing `a + b` in one |
| Convolver.ImpulseIdentity | src/Tests/Tests/Test_FastConv.cpp:54-81 | with unit gain and input δ[n−3] of length 10, `output[i+3] == IR[i]` and `output[0..3)` is 0 |
| Convolver.FlushTail | src/FastConv/Convolver.cpp:95-104 | feeding M zeros after `x` emits the M convolution samples following `x`, the last of which is 0 |
| Convolver.ReadBack | src/FastConv/Convolver.cpp:88 | `get(M − j)` on a cursor sitting on the newest sample's slot reads the sample `j` steps back |
| Convolver.ScaledPartialConvIsScaled | src/FastConv/Convolver.cpp:87-89 | summing `sample · (IR[j] · gain)` over the taps equals `gain` times the convolution sum |
| Convolver.TrivialFirConvolver.constructor | src/FastConv/Convolver.cpp:71-76 | stores the first `irLength` IR samples, wet gain 1, and a zeroed delay line of `irLength` cells with both cursors at 0 |
| Convolver.TrivialFirConvolver.SetWetGain | src/FastConv/Convolver.cpp:24-27 | the wet gain takes the new value; delay line and history are unchanged |
| Convolver.TrivialFirConvolver.Reset | src/FastConv/Convolver.cpp:63-82 | the delay line is released (null) and `NoError` is returned |
| Convolver.TrivialFirConvolver.Process | src/FastConv/Convolver.cpp:84-93 | adds to `output[i]` the wet-gain scaled convolution of everything fed so far at that sample's global index; the rest of the output is kept; the history grows by the block |
| Convolver.TrivialFirConvolver.ProcessFrame | src/FastConv/Convolver.cpp:85-91 | one frame adds `gain · conv(history)` at the newest index to `output[i]` alone |
| Convolver.TrivialFirConvolver.PushSample | src/FastConv/Convolver.cpp:86 | `putPostInc` extends the delay line's window by the new sample |
| Convolver.TrivialFirConvolver.Accumulate | src/FastConv/Convolver.cpp:87-89 | the tap loop adds the gain-scaled dot product of the IR with the newest M samples to `output[i]` alone |
| Convolver.TrivialFirConvolver.Tap | src/FastConv/Convolver.cpp:88 | one tap reads the sample `j` steps back through `get(M − j)` and extends the running dot product by tap `j` alone |
| Convolver.TrivialFirConvolver.FlushBuffer | src/FastConv/Convolver.cpp:95-104 | adds to the first M output samples the tail of the convolution of everything fed so far; `output[M−1]` is unchanged |
| Convolver.NumIrBlocks | src/FastConv/Convolver.cpp:126-127 | the partition count is `ceil(irLength / blockLength)`: `(n−1)·B < irLength ≤ n·B` |
| Convolver.AccumulatorCapacity | src/FastConv/Convolver.cpp:133-134 | the accumulator holds a whole number of blocks, at least `irLength + B` and less than `irLength + 2B` |
| Convolver.BlockAligned | src/FastConv/Convolver.cpp:200-201 | advancing a block-aligned read cursor by one block in a ring of whole blocks keeps it block-aligned |
| Convolver.NewZeroed | src/FastConv/Convolver.cpp:150 | a fresh array of `n` zeros |
| Convolver.NewScratch | src/FastConv/Convolver.cpp:143-149 | seven fresh, distinct, zeroed scratch vectors of `n` cells |
| Convolver.VecCopy | src/FastConv/Convolver.cpp:222 | the first `n` cells of `dst` take `src`'s; the rest are kept |
| Convolver.VecMulI | src/FastConv/Convolver.cpp:223 | element-wise `dst *= src` over the first `n` cells; the rest are kept |
| Convolver.VecSubI | src/FastConv/Convolver.cpp:226 | element-wise `dst -= src` over the first `n` cells; the rest are kept |
| Convolver.VecAddI | src/FastConv/Convolver.cpp:233 | element-wise `dst += src` over the first `n` cells; the rest are kept |
| Convolver.PartitionedFftConvolver.constructor | src/FastConv/Convolver.cpp:117-155 | partition count `ceil(M/B)`, two accumulators whose capacity is a whole number of blocks between `M + B` and `M + 2B`, all cursors at 0, all scratch vectors zeroed, wet gain 1 |
| Convolver.PartitionedFftConvolver.SetWetGain | src/FastConv/Convolver.cpp:24-27 | the wet gain takes the new value |
| Convolver.PartitionedFftConvolver.Reset | src/FastConv/Convolver.cpp:157-172 | the storage is freed; it must be live, since a second reset would free it twice |
| Convolver.PartitionedFftConvolver.Process | src/FastConv/Convolver.cpp:174-204 | the first `bufferLength` workspace samples are copied to `output[offset..]`, the rest of the output is kept, and both accumulators' read cursors advance by one block mod their length |
| Convolver.PartitionedFftConvolver.FlushBuffer | src/FastConv/Convolver.cpp:206-215 | five block-sized process calls advance both read cursors by `5B` mod the capacity, only the first `5B` output cells can change, and `UnknownError` is returned |
| Convolver.PartitionedFftConvolver.ComplexVectorMul | src/FastConv/Convolver.cpp:217-234 | `c[k] == a[k] · b[k]` as complex numbers for every bin `k < B`; entry `B` is untouched |
| Convolver.PartitionedFftConvolver.RealPart | src/FastConv/Convolver.cpp:221-226 | `c_r = a_r·b_r − a_i·b_i` over the first B bins |
| Convolver.PartitionedFftConvolver.ImagPart | src/FastConv/Convolver.cpp:228-233 | `c_i = a_r·b_i + a_i·b_r` over the first B bins |
| Convolver.CreateConvolver | src/FastConv/Convolver.cpp:29-42 | a time-domain engine exactly for `kTimeDomain`, a partitioned one exactly for `kFreqDomain`, none for the sentinel; each fresh and valid |
| FastConvolution.FastConv.constructor | src/FastConv/FastConv.cpp:3-6 | a new object has no engine |
| FastConvolution.FastConv.Init | src/FastConv/FastConv.cpp:13-17 | installs a fresh engine from the factory for the mode (time domain: empty history, delay line allocated, gain 1; frequency domain: live storage, gain 1) and always reports `NoError` |
| FastConvolution.FastConv.Reset | src/FastConv/FastConv.cpp:19-25 | `NotInitializedError` without an engine, otherwise the engine's reset and its result |
| FastConvolution.FastConv.Process | src/FastConv/FastConv.cpp:27-33 | `NotInitializedError` with the output untouched without an engine. Time domain: the gain-scaled convolution of the history plus the block is added to the output, the history grows by the block, and the delay line and gain stay, so further calls can follow. Frequency domain: both read cursors advance one block, the storage stays live, the gain is kept and the output past the block is untouched |
| FastConvolution.FastConv.FlushBuffer | src/FastConv/FastConv.cpp:35-41 | `NotInitializedError` with the output untouched without an engine. Time domain: the convolution tail is added to the first M samples, the history grows by M zeros, `output[M−1]` and everything past M are kept, and the delay line and gain stay. Frequency domain: `UnknownError`, both cursors advance `5B`, only the first `5B` samples can change, and the storage stays live |
| FastConvolution.FastConv.SetWetGain | src/FastConv/FastConv.cpp:43-45 | the engine's wet gain takes the value while its delay line, history and liveness stay; an engine is required |
| FastConvolution.ProcessStream | src/MUSI6106Exec/MUSI6106Exec.cpp:274-288 | after `setWetGain(g)` and one `process` per block, every output sample equals the sample of the single gain-`g` convolution of the whole concatenated stream that lies under it, however the stream is cut into blocks; the history grows by the whole stream |
| FastConvolution.ProcessStreamBlock | src/MUSI6106Exec/MUSI6106Exec.cpp:285-287 | one block's `process` writes that block's stretch of the whole-stream convolution and extends the history by the block |
| Convolver.FlattenPrefix | src/MUSI6106Exec/MUSI6106Exec.cpp:283-288 | the first `m` blocks of a stream, joined, are a prefix of the whole joined stream |
| Convolver.BlockInStream | src/MUSI6106Exec/MUSI6106Exec.cpp:283-288 | the convolution of block `b`, after the blocks before it, equals the whole stream's convolution at the block's offset |
| CombFilters.HalfOpenRange | src/CombFilter/CombFilter.cpp:15-17 | the range test accepts its lower end (when non-empty), never its upper end, and nothing when empty |
| CombFilters.FirImpulseResponse | src/CombFilter/CombFilter.cpp:93-101 | the FIR comb's impulse response is 1 at 0, `g` at `D`, 0 elsewhere |
| CombFilters.IirImpulseResponse | src/CombFilter/CombFilter.cpp:111-119 | the IIR comb's impulse response is `g^(j/D)` at multiples of `D`, 0 elsewhere |
| CombFilters.CombDelayedStart | src/CombFilter/CombFilter.cpp:95-96 | the first `D` outputs of a block equal the inputs: each channel starts from an empty delay line |
| CombFilters.CombZeroGain | src/CombFilter/CombFilter.cpp:93-119 | with gain 0 both filters pass the input through |
| CombFilters.CombFilter.constructor | src/CombFilter/CombFilter.cpp:3-7 | gain 0, then `setDelay(maxDelay)`: a zeroed delay line of D cells if the delay is valid, none otherwise |
| CombFilters.CombFilter.GetParam | src/CombFilter/CombFilter.cpp:75-88 | the stored gain or delay, −1 for the sentinel |
| CombFilters.CombFilter.SetGain | src/CombFilter/CombFilter.cpp:22-28 | a gain in `[0, 1)` is stored exactly; any other is refused with `FunctionInvalidArgsError` and the gain is unchanged |
| CombFilters.CombFilter.SetDelay | src/CombFilter/CombFilter.cpp:33-44 | a delay in `[0, 1)` is stored and the delay line is replaced by a fresh zeroed one of D cells; any other is refused and nothing changes |
| CombFilters.CombFilter.SetParam | src/CombFilter/CombFilter.cpp:46-61 | succeeds exactly for a valid gain or delay; an accepted value reads back through `GetParam`; a refusal changes no parameter; an accepted delay sets the delay in samples and installs a fresh zeroed delay line with both cursors at 0, while anything else keeps the delay line and its length |
| CombFilters.CombFilter.Process | src/CombFilter/CombFilter.cpp:93-119 | output channel `c` is the FIR or IIR comb of input channel `c` for every frame; the rest of the output is kept |
| CombFilters.CombFilter.StartChannel | src/CombFilter/CombFilter.cpp:95-96 | after `reset` and `setWriteIdx(D)` the delay line is empty and both cursors are 0 |
| CombFilters.CombFilter.Pop | src/CombFilter/CombFilter.cpp:98 | `getPostInc` returns the sample pushed D frames ago (0 before the start) |
| CombFilters.CombFilter.Push | src/CombFilter/CombFilter.cpp:99 | `putPostInc` makes the value the newest sample of the delay line |
| CombFilters.CombFilter.FirFrame | src/CombFilter/CombFilter.cpp:98-99 | one FIR frame yields `x[j] + g·x[j−D]` and pushes the input |
| CombFilters.CombFilter.IirFrame | src/CombFilter/CombFilter.cpp:116-117 | one IIR frame yields `x[j] + g·y[j−D]` and pushes the output |
| CombFilters.CombFilter.FirChannel | src/CombFilter/CombFilter.cpp:93-101 | every frame of channel `c` is `x[j] + g·x[j−D]`; other cells are kept |
| CombFilters.CombFilter.IirChannel | src/CombFilter/CombFilter.cpp:111-119 | every frame of channel `c` is `x[j] + g·y[j−D]`; other cells are kept |
| CombFilterInterface.GetVersion | src/CombFilter/CombFilterIf.cpp:31-52 | −1 for the sentinel, otherwise one of the configured version numbers |
| CombFilterInterface.VersionLookup | src/CombFilter/CombFilterIf.cpp:31-52 | with non-negative version numbers, −1 comes back exactly for the sentinel, and each component selects its own number |
| CombFilterInterface.CombFilterIf.constructor | src/CombFilter/CombFilterIf.cpp:16-23 | a new object is uninitialised, with no filter and sample rate 0 |
| CombFilterInterface.CombFilterIf.Create | src/CombFilter/CombFilterIf.cpp:58-65 | a fresh uninitialised object and `NoError` |
| CombFilterInterface.CombFilterIf.Destroy | src/CombFilter/CombFilterIf.cpp:67-73 | the object is reset, the caller's pointer becomes null, and `NoError` is returned |
| CombFilterInterface.CombFilterIf.Init | src/CombFilter/CombFilterIf.cpp:75-96 | on an uninitialised object: FIR or IIR creates that filter, stores the rate and marks it initialised with `NoError`; the sentinel is refused and it stays uninitialised |
| CombFilterInterface.CombFilterIf.Reset | src/CombFilter/CombFilterIf.cpp:98-113 | from any state: uninitialised, no filter, rate 0, `NoError`; so it is idempotent |
| CombFilterInterface.CombFilterIf.GetParam | src/CombFilter/CombFilterIf.cpp:125-128 | the filter's parameter; −1 for the sentinel |
| CombFilterInterface.CombFilterIf.SetParam | src/CombFilter/CombFilterIf.cpp:120-123 | succeeds exactly for a valid gain or delay, which then reads back; gain and delay after the call are exactly the new value if it was accepted for that parameter, else the old one; an accepted delay installs a fresh zeroed delay line of the new length, and anything else keeps the delay line, so `process` can follow |
| CombFilterInterface.CombFilterIf.Process | src/CombFilter/CombFilterIf.cpp:115-118 | each output channel is the filter's comb of the input channel |
| CommandLine.ParseArg | src/MUSI6106Exec/MUSI6106Exec.cpp:58-105 | the loop over `argv` ends with exactly the outcome of the recursive parser `Parse` from the defaults |
| CommandLine.PlainTokensIgnored | src/MUSI6106Exec/MUSI6106Exec.cpp:60-61 | tokens that do not start with '-' are skipped |
| CommandLine.NoOptionsGivesDefaults | src/MUSI6106Exec/MUSI6106Exec.cpp:18-25 | without options the result is the defaults: time domain, gain 0.1, block size 2048, "fake_id.wav", "fake_id.wav", "out.wav" |
| CommandLine.MissingValue | src/MUSI6106Exec/MUSI6106Exec.cpp:62-92 | `-t`, `-g`, `-b`, `-i`, `-r` or `-o` as the last token is an invalid argument |
| CommandLine.ModeValues | src/MUSI6106Exec/MUSI6106Exec.cpp:62-74 | `-t` accepts exactly "time" and "freq"; anything else is an invalid argument |
| CommandLine.SecondCharacterSelects | src/MUSI6106Exec/MUSI6106Exec.cpp:61-95 | only the second character of a dash token selects the option (`-input` acts as `-i`); "--help" is compared in full |
| CommandLine.HelpStops | src/MUSI6106Exec/MUSI6106Exec.cpp:95-98 | `-h…` and "--help" end parsing with the usage outcome, whatever follows |
| CommandLine.UnknownOption | src/MUSI6106Exec/MUSI6106Exec.cpp:99-101 | a dash token naming no option is an invalid argument |
| CommandLine.RepeatedOptionOverwrites | src/MUSI6106Exec/MUSI6106Exec.cpp:60-103 | a repeated option overwrites its earlier, accepted value |
| CommandLine.ModeStaysReal | src/MUSI6106Exec/MUSI6106Exec.cpp:62-74 | a parsed result never carries the sentinel mode |

## Left out

- Floating point: samples, gains and delays are reals, so IEEE-754 rounding is not modelled and the test tolerances (`1e-8`, `1e-6`) become equalities. The default wet gain `0.1f` is the real 0.1.
- The FFT (`CFft`: `doFft`, `doInvFft`, `splitRealImag`) is external. `Convolver.PartitionedFftConvolver.Process` leaves the transformed workspace unconstrained, so its output samples are only "whatever the inverse transform produced". The IR spectra (`IR_Freq`, `xFreq`) are not modelled.
- `Convolver.PartitionedFftConvolver.Process` does not apply the wet gain, as in the source; the spectral multiply-accumulate loop is commented out there and is not modelled.
- `Convolver.PartitionedFftConvolver.Reset` requires live storage: a second reset (for instance `CFastConv::reset` after an earlier reset) frees the same memory twice in the source.
- `Convolver.h` declares none of the partitioned engine's members (`pCFft`, `bufferReal`, the scratch vectors, …) used in `Convolver.cpp`. The model gives the class the fields that `Convolver.cpp` uses.
- `ConvolverInterface`'s own constructor and `reset` (zeroing the lengths) are not modelled separately. Both engines run their `init` in the constructor, so the IR, its length and the block length are constants of each engine.
- `Convolver.CreateConvolver` returns no engine for `kNumConvCompModes`; the source falls off the end of the function without a return value.
- The time-domain engine's `initBuffer` null check (`kUnknownError`) cannot trigger, because `new` does not return null. The same holds for `CCombFilterIf::create`'s `kMemError`.
- Destructors and memory release in general (the engines, the old convolver leaked by a second `CFastConv::init`, the old filter on re-`init`) are not modelled.
- Aliasing between input and output buffers is not modelled: inputs are sequences (values) and outputs arrays.
- The impulse response is borrowed, not copied: `init` keeps the caller's pointer (`Convolver.cpp:12`), so a caller that changes its IR array after `init` changes later outputs. The engines instead hold the IR as a value fixed at construction (`ir`), so that effect is not captured.
- `FastConvolution.ProcessStream` covers the time-domain engine only, since the frequency-domain output is unconstrained. It takes a separate output buffer per block, whereas the demo program reuses one buffer and writes it to the output file after each block. File reading and writing are not modelled.
- `FastConvolution.FastConv.SetWetGain` requires an engine, because the source dereferences it unchecked. The same applies to `CombFilterInterface.CombFilterIf.SetParam`, `GetParam` and `Process`, which require an initialised object.
- The demo program allocates `M − 1` samples for the time-domain flush (`MUSI6106Exec.cpp:291`) while `flushBuffer` writes M. `Convolver.TrivialFirConvolver.FlushBuffer` requires room for M, and the caller-side allocation is outside this model.
- `CombFilters.CombFilter.SetDelay` takes the delay in samples `D` as a parameter. The source computes it as `m_fDelay / m_fSampleRateInHz`, a float division by a field the base constructor never sets; that conversion is not modelled.
- `CombFilters.CombFilter.Process` requires a delay line. With a maximum delay outside `[0, 1)` (for instance exactly 1 s), the constructor's `setDelay` fails, no buffer exists, and the source's `process` dereferences null.
- `CombFilters.CombFilter.Process` returns `NoError`; both `process` bodies in the source end without a `return`.
- The constructor signature mismatch between `CombFilter.h` and `CombFilter.cpp` is ignored; the model uses the `.cpp` signature.
- `CCombFilterIf::getBuildDate` (a compile-time date string) is not modelled. The version numbers come from `MUSI6106Config.h`, which is not part of this model, so `GetVersion` takes them as parameters.
- `CCombFilterIf::init` asserts that the object is uninitialised; the model makes this a precondition.
- `std::stof` and `std::stoi` are function parameters returning a number or one of their two exceptions. Their parsing of prefixes and whitespace is not modelled, and an uncaught exception is the outcome `InvalidArgument` or `OutOfRange`.
- `printUsage`, `exit(0)`, `showClInfo`, audio-file I/O, timing and the rest of the demo program's `main` are console and file I/O. The help path is the outcome `Usage`.
- The `printf` diagnostic and the `throw` in `get(float)` are not modelled; `WrappedNeighbours` shows that the upper index is always in range, so that `throw` cannot fire.
- `CommandLine.CharAt` reads NUL past the end of a token, as a C string does; embedded NUL characters inside a token are not modelled.
- The commented-out ring-buffer variant, `Vibrato`, the LFO and the Vibrato test are outside the modelled core.

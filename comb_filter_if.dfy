/** `CCombFilterIf`: the public comb-filter object. It is created empty,
    `init` gives it a filter of the requested type, `reset` takes it away
    again, and the parameter and process calls go to that filter. */
module CombFilterInterface {
  import opened ErrorDef
  import opened CombFilters

  /** `CCombFilterIf::Version_t`; `NumVersionInts` is the sentinel. */
  datatype Version = Major | Minor | Patch | NumVersionInts

  /** `getVersion`: the configured version component, or -1 for the
      sentinel. The configured numbers are parameters here. */
  function GetVersion(idx: Version, major: int, minor: int, patch: int): (v: int)
    ensures idx == NumVersionInts ==> v == -1
    ensures idx != NumVersionInts ==> v in {major, minor, patch}
  {
    match idx
    case Major => major
    case Minor => minor
    case Patch => patch
    case NumVersionInts => -1
  }

  /** With non-negative version numbers, -1 comes back exactly for the
      sentinel, and each real component selects its own number. */
  lemma VersionLookup(idx: Version, major: nat, minor: nat, patch: nat)
    ensures GetVersion(idx, major, minor, patch) == -1 <==> idx == NumVersionInts
    ensures idx == Major ==> GetVersion(idx, major, minor, patch) == major
    ensures idx == Minor ==> GetVersion(idx, major, minor, patch) == minor
    ensures idx == Patch ==> GetVersion(idx, major, minor, patch) == patch
  {
  }

  class CombFilterIf {
    var isInitialized: bool
    var filter: CombFilter?
    var sampleRate: real
    ghost var Repr: set<object>

    ghost predicate Valid()
      reads this, Repr
    {
      this in Repr &&
      (isInitialized <==> filter != null) &&
      (filter != null ==>
         filter in Repr && filter.Repr <= Repr && this !in filter.Repr &&
         filter.Valid())
    }

    /** A new object: not initialised, no filter, sample rate 0 (the
        constructor ends by calling `reset`). */
    constructor ()
      ensures Valid() && fresh(Repr)
      ensures !isInitialized && filter == null && sampleRate == 0.0
    {
      isInitialized := false;
      filter := null;
      sampleRate := 0.0;
      Repr := {this};
      new;
      var _ := Reset();
    }

    /** `create`: a new, uninitialised object. */
    static method Create() returns (p: CombFilterIf, err: Error)
      ensures fresh(p) && fresh(p.Repr) && p.Valid()
      ensures !p.isInitialized && p.filter == null && p.sampleRate == 0.0
      ensures err == NoError
    {
      p := new CombFilterIf();
      err := NoError;
    }

    /** `destroy`: reset the object and hand back the caller's pointer as
        null. */
    static method Destroy(p: CombFilterIf) returns (q: CombFilterIf?, err: Error)
      requires p.Valid()
      modifies p
      ensures q == null && err == NoError
      ensures p.Valid() && !p.isInitialized && p.filter == null
    {
      var _ := p.Reset();
      q := null;
      err := NoError;
    }

    /** `init`: only on an uninitialised object. An FIR or IIR type creates
        that filter (gain 0, delay set to `maxDelay` when that is a valid
        delay, `delayInSamples` samples long), stores the sample rate and
        marks the object initialised; the sentinel type is refused and the
        object stays as it was. */
    method Init(filterType: CombFilterType, maxDelay: real, sampleRateInHz: real,
                numChannels: int, delayInSamples: int) returns (err: Error)
      requires Valid() && !isInitialized && delayInSamples > 0
      modifies this
      ensures Valid() && fresh(Repr - old(Repr))
      ensures filterType == NumFilterTypes ==>
                err == FunctionInvalidArgsError && !isInitialized && filter == null &&
                sampleRate == old(sampleRate)
      ensures filterType != NumFilterTypes ==>
                err == NoError && isInitialized && filter != null && fresh(filter) &&
                filter.kind == filterType && filter.gain == 0.0 &&
                filter.numChannels == numChannels && sampleRate == sampleRateInHz
      ensures filterType != NumFilterTypes && IsInRange(0.0, MaxDelay, maxDelay) ==>
                filter != null && filter.delay == maxDelay &&
                filter.delayInSamples == delayInSamples && filter.buffer != null
    {
      if filterType == NumFilterTypes {
        return FunctionInvalidArgsError;
      }
      var f := new CombFilter(filterType, maxDelay, numChannels, delayInSamples);
      filter := f;
      Repr := Repr + f.Repr;
      sampleRate := sampleRateInHz;
      isInitialized := true;
      return NoError;
    }

    /** `reset`: whatever the state, afterwards the object is uninitialised,
        has no filter and a sample rate of 0; so a second reset changes
        nothing. */
    method Reset() returns (err: Error)
      requires Valid()
      modifies this
      ensures Valid() && Repr == {this}
      ensures !isInitialized && filter == null && sampleRate == 0.0
      ensures err == NoError
    {
      isInitialized := false;
      sampleRate := 0.0;
      filter := null;
      Repr := {this};
      return NoError;
    }

    /** `getParam`, forwarded to the filter. */
    function GetParam(param: FilterParam): (r: real)
      reads this, Repr
      requires Valid() && isInitialized
      ensures r == filter.GetParam(param)
      ensures param == NumFilterParams ==> r == -1.0
    {
      filter.GetParam(param)
    }

    /** `setParam`, forwarded to the filter: an accepted value reads back
        through `GetParam`, a refused one changes neither parameter. */
    method SetParam(param: FilterParam, value: real, delayInSamples: int) returns (err: Error)
      requires Valid() && isInitialized && delayInSamples > 0
      modifies this, filter
      ensures Valid() && fresh(Repr - old(Repr))
      ensures isInitialized && filter == old(filter)
      ensures err == NoError <==>
                (param == ParamGain && IsInRange(0.0, MaxGain, value)) ||
                (param == ParamDelay && IsInRange(0.0, MaxDelay, value))
      ensures err == NoError ==> GetParam(param) == value
      ensures err != NoError ==>
                GetParam(ParamGain) == old(GetParam(ParamGain)) &&
                GetParam(ParamDelay) == old(GetParam(ParamDelay))
      ensures param == ParamDelay && err == NoError ==>
                filter.delayInSamples == delayInSamples && filter.buffer != null && fresh(filter.buffer) &&
                filter.buffer.readIdx == 0 && filter.buffer.writeIdx == 0 &&
                (forall k :: 0 <= k < delayInSamples ==> filter.buffer.buff[k] == 0.0)
      ensures !(param == ParamDelay && err == NoError) ==>
                filter.delayInSamples == old(filter.delayInSamples) && filter.buffer == old(filter.buffer)
      ensures filter.gain == (if param == ParamGain && err == NoError then value else old(filter.gain))
      ensures filter.delay == (if param == ParamDelay && err == NoError then value else old(filter.delay))
    {
      var f := filter;
      err := f.SetParam(param, value, delayInSamples);
      Repr := Repr + f.Repr;
    }

    /** `process`, forwarded to the filter: channel `c` of the output is
        the comb of channel `c` of the input. */
    method Process(input: seq<seq<real>>, output: array2<real>, numFrames: int) returns (err: Error)
      requires Valid() && isInitialized && filter.buffer != null
      requires filter.numChannels <= |input| && filter.numChannels <= output.Length0
      requires numFrames <= output.Length1
      requires forall c :: 0 <= c < filter.numChannels ==> numFrames <= |input[c]|
      modifies filter.buffer, filter.buffer.buff, output
      ensures Valid() && err == NoError
      ensures forall c, j :: 0 <= c < filter.numChannels && 0 <= j < numFrames ==>
                output[c, j] == CombAt(filter.kind, input[c], filter.gain, filter.delayInSamples, j)
      ensures forall c, j :: (0 <= c < output.Length0 && 0 <= j < output.Length1 &&
                !(c < filter.numChannels && j < numFrames)) ==>
                output[c, j] == old(output[c, j])
    {
      err := filter.Process(input, output, numFrames);
    }
  }
}

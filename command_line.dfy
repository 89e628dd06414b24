/** `parseArg` of the command-line program: it walks `argv` once, fills a
    settings record that starts at its defaults, consumes the value that
    follows each option, and stops early for help or a bad argument. */
module CommandLine {
  import opened Convolver

  /** `ConvolverArgs_t`. */
  datatype ConvolverArgs = ConvolverArgs(
    convolver: ConvCompMode,
    wetGain: real,
    blockSize: int,
    inputPath: string,
    irPath: string,
    outputPath: string)

  /** The member initialisers of `ConvolverArgs_t`. */
  function DefaultArgs(): ConvolverArgs
  {
    ConvolverArgs(TimeDomain, 0.1, 2048, "fake_id.wav", "fake_id.wav", "out.wav")
  }

  /** What `std::stof` / `std::stoi` do with a string: a number, or one of
      their two exceptions. */
  datatype Conversion<T> = Converted(value: T) | Unparsable | Unrepresentable

  /** How parsing ends: with settings, with the usage text (`-h`, `--help`),
      or with one of the exceptions `std::invalid_argument` and
      `std::out_of_range`. */
  datatype ParseOutcome =
    | Parsed(args: ConvolverArgs)
    | Usage
    | InvalidArgument
    | OutOfRange

  /** Character `k` of a C string: NUL at and past the end. */
  function CharAt(s: string, k: nat): char
  {
    if k < |s| then s[k] else '\0'
  }

  /** The options that consume the next token as their value. */
  const ValueOptions: set<char> := {'t', 'g', 'b', 'i', 'r', 'o'}

  /** After one option: carry on with these settings, or stop. */
  datatype Step = Continue(acc: ConvolverArgs) | Stop(outcome: ParseOutcome)

  /** The effect of option `-opt` with value `value` on the settings. */
  function ApplyOption(opt: char, value: string, acc: ConvolverArgs,
                       stof: string -> Conversion<real>,
                       stoi: string -> Conversion<int>): Step
  {
    if opt == 't' then
      if value == "time" then Continue(acc.(convolver := TimeDomain))
      else if value == "freq" then Continue(acc.(convolver := FreqDomain))
      else Stop(InvalidArgument)
    else if opt == 'g' then
      match stof(value)
      case Converted(g) => Continue(acc.(wetGain := g))
      case Unparsable => Stop(InvalidArgument)
      case Unrepresentable => Stop(OutOfRange)
    else if opt == 'b' then
      match stoi(value)
      case Converted(b) => Continue(acc.(blockSize := b))
      case Unparsable => Stop(InvalidArgument)
      case Unrepresentable => Stop(OutOfRange)
    else if opt == 'i' then Continue(acc.(inputPath := value))
    else if opt == 'r' then Continue(acc.(irPath := value))
    else Continue(acc.(outputPath := value))
  }

  /** What parsing the remaining tokens `args` does, starting from the
      settings `acc`. Only the first two characters of a dash token are
      looked at, except for the full comparison with "--help". */
  function Parse(args: seq<string>, acc: ConvolverArgs,
                 stof: string -> Conversion<real>,
                 stoi: string -> Conversion<int>): ParseOutcome
    decreases |args|
  {
    if |args| == 0 then Parsed(acc)
    else if CharAt(args[0], 0) != '-' then Parse(args[1..], acc, stof, stoi)
    else
      var opt := CharAt(args[0], 1);
      if opt in ValueOptions then
        if |args| == 1 then InvalidArgument
        else
          match ApplyOption(opt, args[1], acc, stof, stoi)
          case Continue(acc') => Parse(args[2..], acc', stof, stoi)
          case Stop(outcome) => outcome
      else if opt == 'h' || args[0] == "--help" then Usage
      else InvalidArgument
  }

  /** `parseArg(argc, argv)`: the loop over `argv`, advancing past the
      value of each option it handles. */
  method ParseArg(argv: seq<string>, stof: string -> Conversion<real>,
                  stoi: string -> Conversion<int>) returns (outcome: ParseOutcome)
    ensures outcome == Parse(argv, DefaultArgs(), stof, stoi)
  {
    var result := DefaultArgs();
    var i := 0;
    while i < |argv|
      invariant 0 <= i <= |argv|
      invariant Parse(argv[i..], result, stof, stoi) == Parse(argv, DefaultArgs(), stof, stoi)
    {
      assert argv[i..][1..] == argv[i + 1..];
      if CharAt(argv[i], 0) == '-' {
        var opt := CharAt(argv[i], 1);
        if opt in ValueOptions {
          if i == |argv| - 1 {
            return InvalidArgument;
          }
          assert argv[i..][2..] == argv[i + 2..];
          i := i + 1;
          if opt == 't' {
            if argv[i] == "time" {
              result := result.(convolver := TimeDomain);
            } else if argv[i] == "freq" {
              result := result.(convolver := FreqDomain);
            } else {
              return InvalidArgument;
            }
          } else if opt == 'g' {
            var g := stof(argv[i]);
            match g
            case Converted(v) => result := result.(wetGain := v);
            case Unparsable => return InvalidArgument;
            case Unrepresentable => return OutOfRange;
          } else if opt == 'b' {
            var b := stoi(argv[i]);
            match b
            case Converted(v) => result := result.(blockSize := v);
            case Unparsable => return InvalidArgument;
            case Unrepresentable => return OutOfRange;
          } else if opt == 'i' {
            result := result.(inputPath := argv[i]);
          } else if opt == 'r' {
            result := result.(irPath := argv[i]);
          } else {
            result := result.(outputPath := argv[i]);
          }
        } else if opt == 'h' || argv[i] == "--help" {
          return Usage;
        } else {
          return InvalidArgument;
        }
      }
      i := i + 1;
    }
    return Parsed(result);
  }

  // ---------------------------------------------------------------------
  // Properties of the parser
  // ---------------------------------------------------------------------

  /** Tokens that do not start with '-' are skipped. */
  lemma {:induction false} PlainTokensIgnored(plain: seq<string>, rest: seq<string>, acc: ConvolverArgs,
                                              stof: string -> Conversion<real>,
                                              stoi: string -> Conversion<int>)
    requires forall k :: 0 <= k < |plain| ==> CharAt(plain[k], 0) != '-'
    ensures Parse(plain + rest, acc, stof, stoi) == Parse(rest, acc, stof, stoi)
    decreases |plain|
  {
    if |plain| > 0 {
      assert (plain + rest)[1..] == plain[1..] + rest;
      PlainTokensIgnored(plain[1..], rest, acc, stof, stoi);
    } else {
      assert plain + rest == rest;
    }
  }

  /** Without any option the settings are the defaults: time-domain
      convolution, wet gain 0.1, block size 2048, input and impulse
      response "fake_id.wav", output "out.wav". */
  lemma NoOptionsGivesDefaults(argv: seq<string>, stof: string -> Conversion<real>,
                               stoi: string -> Conversion<int>)
    requires forall k :: 0 <= k < |argv| ==> CharAt(argv[k], 0) != '-'
    ensures Parse(argv, DefaultArgs(), stof, stoi) == Parsed(DefaultArgs())
    ensures DefaultArgs().convolver == TimeDomain && DefaultArgs().wetGain == 0.1 &&
            DefaultArgs().blockSize == 2048
    ensures DefaultArgs().inputPath == "fake_id.wav" && DefaultArgs().irPath == "fake_id.wav" &&
            DefaultArgs().outputPath == "out.wav"
  {
    PlainTokensIgnored(argv, [], DefaultArgs(), stof, stoi);
    assert argv + [] == argv;
  }

  /** An option that needs a value, as the last token, is an invalid
      argument, whatever plain tokens come before it. */
  lemma MissingValue(plain: seq<string>, option: string, acc: ConvolverArgs,
                     stof: string -> Conversion<real>,
                     stoi: string -> Conversion<int>)
    requires forall k :: 0 <= k < |plain| ==> CharAt(plain[k], 0) != '-'
    requires CharAt(option, 0) == '-' && CharAt(option, 1) in ValueOptions
    ensures Parse(plain + [option], acc, stof, stoi) == InvalidArgument
  {
    PlainTokensIgnored(plain, [option], acc, stof, stoi);
  }

  /** `-t` takes exactly "time" or "freq"; anything else is an invalid
      argument. */
  lemma ModeValues(option: string, value: string, rest: seq<string>, acc: ConvolverArgs,
                   stof: string -> Conversion<real>,
                   stoi: string -> Conversion<int>)
    requires CharAt(option, 0) == '-' && CharAt(option, 1) == 't'
    ensures value == "time" ==>
              Parse([option, value] + rest, acc, stof, stoi) ==
              Parse(rest, acc.(convolver := TimeDomain), stof, stoi)
    ensures value == "freq" ==>
              Parse([option, value] + rest, acc, stof, stoi) ==
              Parse(rest, acc.(convolver := FreqDomain), stof, stoi)
    ensures value != "time" && value != "freq" ==>
              Parse([option, value] + rest, acc, stof, stoi) == InvalidArgument
  {
    assert ([option, value] + rest)[2..] == rest;
  }

  /** Only the second character of a dash token selects the option: any
      token that starts like `-x` (other than "--help") acts as `-x`. */
  lemma SecondCharacterSelects(token: string, rest: seq<string>, acc: ConvolverArgs,
                               stof: string -> Conversion<real>,
                               stoi: string -> Conversion<int>)
    requires CharAt(token, 0) == '-' && token != "--help"
    ensures Parse([token] + rest, acc, stof, stoi) ==
            Parse([['-', CharAt(token, 1)]] + rest, acc, stof, stoi)
  {
    var short: string := ['-', CharAt(token, 1)];
    assert ([token] + rest)[1..] == rest && ([short] + rest)[1..] == rest;
    if |rest| > 0 {
      assert ([token] + rest)[1] == rest[0] && ([short] + rest)[1] == rest[0];
      assert ([token] + rest)[2..] == rest[1..] && ([short] + rest)[2..] == rest[1..];
    }
  }

  /** `-h` (or any `-h...`) and "--help" end parsing with the usage text,
      whatever follows. */
  lemma HelpStops(token: string, rest: seq<string>, acc: ConvolverArgs,
                  stof: string -> Conversion<real>,
                  stoi: string -> Conversion<int>)
    requires (CharAt(token, 0) == '-' && CharAt(token, 1) == 'h') || token == "--help"
    ensures Parse([token] + rest, acc, stof, stoi) == Usage
  {
  }

  /** A dash token whose second character names no option, other than
      "--help", is an invalid argument. */
  lemma UnknownOption(token: string, rest: seq<string>, acc: ConvolverArgs,
                      stof: string -> Conversion<real>,
                      stoi: string -> Conversion<int>)
    requires CharAt(token, 0) == '-' && CharAt(token, 1) !in ValueOptions
    requires CharAt(token, 1) != 'h' && token != "--help"
    ensures Parse([token] + rest, acc, stof, stoi) == InvalidArgument
  {
  }

  /** A repeated option overwrites the earlier value: giving `-x a -x b`
      is the same as giving `-x b`, once `a` itself is accepted. */
  lemma RepeatedOptionOverwrites(option: string, a: string, b: string, rest: seq<string>,
                                 acc: ConvolverArgs,
                                 stof: string -> Conversion<real>,
                                 stoi: string -> Conversion<int>)
    requires CharAt(option, 0) == '-' && CharAt(option, 1) in ValueOptions
    requires ApplyOption(CharAt(option, 1), a, acc, stof, stoi).Continue?
    ensures Parse([option, a, option, b] + rest, acc, stof, stoi) ==
            Parse([option, b] + rest, acc, stof, stoi)
  {
    var opt := CharAt(option, 1);
    var acc1 := ApplyOption(opt, a, acc, stof, stoi).acc;
    assert ([option, a, option, b] + rest)[2..] == [option, b] + rest;
    assert ([option, b] + rest)[2..] == rest;
    match ApplyOption(opt, b, acc1, stof, stoi)
    case Continue(acc2) =>
      assert ApplyOption(opt, b, acc, stof, stoi) == Continue(acc2);
    case Stop(o) =>
      assert ApplyOption(opt, b, acc, stof, stoi) == Stop(o);
  }

  /** Parsing never produces the sentinel mode: settings that start with a
      real mode end with one. */
  lemma {:induction false} ModeStaysReal(args: seq<string>, acc: ConvolverArgs,
                                         stof: string -> Conversion<real>,
                                         stoi: string -> Conversion<int>)
    requires acc.convolver != NumConvCompModes
    ensures Parse(args, acc, stof, stoi).Parsed? ==>
              Parse(args, acc, stof, stoi).args.convolver != NumConvCompModes
    decreases |args|
  {
    if |args| > 0 {
      if CharAt(args[0], 0) != '-' {
        ModeStaysReal(args[1..], acc, stof, stoi);
      } else if CharAt(args[0], 1) in ValueOptions && |args| > 1 {
        match ApplyOption(CharAt(args[0], 1), args[1], acc, stof, stoi)
        case Continue(acc') => ModeStaysReal(args[2..], acc', stof, stoi);
        case Stop(_) =>
      }
    }
  }
}

/** Logger configuration (pkg/log/options.go). */
module LogOptions {

  import opened Wrappers

  /** zap's logging levels, from the most to the least verbose. */
  datatype ZapLevel = Debug | Info | Warn | Error | DPanic | Panic | Fatal

  /** The encodings the logger knows by name. */
  const Encodings: seq<string> := ["json", "console"]

  /** The reasons `Validate` gives. */
  datatype LogError =
    | NoEncoderName                     // the encoding is empty
    | NoEncoderRegistered(name: string) // the encoding is not one of `Encodings`
    | UnrecognizedLevel(text: string)   // the level text did not parse
    | LevelNotAllocated                 // storing into the zero AtomicLevel (a nil-pointer panic in the source)

  /** The shared, atomically updated level that every logger built from the options follows. */
  class AtomicLevel {
    var Level: ZapLevel

    constructor At(level: ZapLevel)
      ensures Level == level
    {
      Level := level;
    }

    /** zap's `SetLevel`: stores the level unconditionally. */
    method SetLevel(level: ZapLevel)
      modifies this
      ensures Level == level
    {
      Level := level;
    }
  }

  /** Sampling policy: log the first `Initial` entries per second, then every `Thereafter`-th. */
  class SamplingConfig {
    var Initial: int
    var Thereafter: int

    /** The zero value `zap.SamplingConfig{}`. */
    constructor ()
      ensures Initial == 0 && Thereafter == 0
    {
      Initial, Thereafter := 0, 0;
    }
  }

  class Options {
    var Level: AtomicLevel?          // nil until the defaults are applied
    var Development: bool
    var DisableCaller: bool
    var DisableStacktrace: bool
    var Sampling: SamplingConfig?    // nil disables sampling
    var Encoding: string
    var OutputPaths: seq<string>
    var ErrorOutputPaths: seq<string>

    /**
     * `NewOptions`: a zero value except for an allocated, zeroed sampling
     * policy. Its encoding is empty, so it is invalid until defaults are set.
     */
    constructor NewOptions()
      ensures Level == null && !Development && !DisableCaller && !DisableStacktrace
      ensures Sampling != null && fresh(Sampling)
      ensures Sampling.Initial == 0 && Sampling.Thereafter == 0
      ensures Encoding == "" && OutputPaths == [] && ErrorOutputPaths == []
      ensures Validate() == Some(NoEncoderName)
    {
      Level := null;
      Development, DisableCaller, DisableStacktrace := false, false, false;
      Sampling := new SamplingConfig();
      Encoding := "";
      OutputPaths, ErrorOutputPaths := [], [];
    }

    /**
     * Debug level, console encoding, sampling 100/100 and stderr outputs.
     * An existing sampling policy is updated in place; one is allocated only
     * when there is none. The development and caller/stacktrace switches are
     * left as they are, and the result always validates.
     */
    method SetDefaults()
      modifies this, Sampling
      ensures Level != null && fresh(Level) && Level.Level == Debug
      ensures Encoding == "console"
      ensures old(Sampling) != null ==> Sampling == old(Sampling)
      ensures old(Sampling) == null ==> Sampling != null && fresh(Sampling)
      ensures Sampling != null && Sampling.Initial == 100 && Sampling.Thereafter == 100
      ensures OutputPaths == ["stderr"] && ErrorOutputPaths == ["stderr"]
      ensures Development == old(Development) && DisableCaller == old(DisableCaller)
      ensures DisableStacktrace == old(DisableStacktrace)
      ensures Validate() == None
    {
      Level := new AtomicLevel.At(Debug);
      Encoding := "console";
      if Sampling == null {
        Sampling := new SamplingConfig();
      }
      Sampling.Initial := 100;
      Sampling.Thereafter := 100;
      OutputPaths := ["stderr"];
      ErrorOutputPaths := ["stderr"];
    }

    /**
     * The `log.level` flag setter, which writes through a pointer to the
     * `Level` field: parses `s` (`parseLevel` stands for zapcore.ParseLevel)
     * and stores the parsed level. Text that does not parse is refused with
     * nothing changed; a parsed level cannot be stored while the field is
     * still the zero AtomicLevel (options from `NewOptions` before
     * `SetDefaults`), which the source hits as a panic.
     */
    method SetLevelFlag(s: string, parseLevel: string -> Option<ZapLevel>) returns (err: Option<LogError>)
      modifies Level
      ensures Level == old(Level)
      ensures parseLevel(s) == None ==> err == Some(UnrecognizedLevel(s)) && (Level != null ==> unchanged(Level))
      ensures parseLevel(s).Some? && Level == null ==> err == Some(LevelNotAllocated)
      ensures parseLevel(s).Some? && Level != null ==> err == None && Level.Level == parseLevel(s).value
    {
      var parsed := parseLevel(s);
      if parsed == None {
        return Some(UnrecognizedLevel(s));
      }
      if Level == null {
        return Some(LevelNotAllocated);
      }
      Level.SetLevel(parsed.value);
      err := None;
    }

    /**
     * Valid exactly when the encoding is "json" or "console"; an empty
     * encoding gets its own message, any other name is unregistered.
     */
    function Validate(): (err: Option<LogError>)
      reads this
      ensures err == None <==> Encoding == "json" || Encoding == "console"
      ensures Encoding == "" ==> err == Some(NoEncoderName)
      ensures Encoding != "" && Encoding !in Encodings ==> err == Some(NoEncoderRegistered(Encoding))
    {
      if Encoding == "" then Some(NoEncoderName)
      else if Encoding !in Encodings then Some(NoEncoderRegistered(Encoding))
      else None
    }
  }
}

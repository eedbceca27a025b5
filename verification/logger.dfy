/** The process logger of pkg/log/logger.go: two cores over a tee, one for
    high-priority messages on standard error and one for the rest on
    standard output (or the null device), split by two level predicates. */
module Logger {
  import opened Wrappers

  /** `zapcore.Level`, an `int8`, with zap's named levels. */
  newtype Level = x: int | -128 <= x < 128

  const DebugLevel: Level := -1
  const InfoLevel: Level := 0
  const WarnLevel: Level := 1
  const ErrorLevel: Level := 2
  const DPanicLevel: Level := 3
  const PanicLevel: Level := 4
  const FatalLevel: Level := 5

  /** The `errorPriority` closure: zap's error, dpanic, panic and fatal
      levels, and anything above them. */
  predicate ErrorPriority(lvl: Level): (accepted: bool)
    ensures accepted <==> lvl in {ErrorLevel, DPanicLevel, PanicLevel, FatalLevel} || FatalLevel < lvl
  {
    lvl >= ErrorLevel
  }

  /** The `logPriority` closure, which captures `debug`. It never accepts
      what the error core accepts, and in debug mode it accepts everything
      else. */
  function LogPriority(debug: bool, lvl: Level): (enabled: bool)
    ensures enabled ==> !ErrorPriority(lvl)
    ensures debug ==> (enabled || ErrorPriority(lvl))
    ensures !debug && lvl <= DebugLevel ==> !enabled
  {
    if debug then lvl < ErrorLevel
    else DebugLevel < lvl && lvl < ErrorLevel
  }

  /** Where a core writes. */
  datatype Sink = Stdout | Stderr | DevNull

  /** A level-enabler closure, with what it captured. */
  datatype Enabler = ErrorEnabler | LogEnabler(debug: bool)

  predicate Enables(e: Enabler, lvl: Level)
  {
    match e
    case ErrorEnabler => ErrorPriority(lvl)
    case LogEnabler(debug) => LogPriority(debug, lvl)
  }

  datatype Core = Core(sink: Sink, enabler: Enabler)

  /** The options passed to `zap.New`. */
  datatype LoggerOption = ErrorOutput(sink: Sink) | Development

  datatype SugaredLogger = SugaredLogger(cores: seq<Core>, options: seq<LoggerOption>)

  /** The sinks a tee of `cores` writes a message at `lvl` to. */
  function Destinations(cores: seq<Core>, lvl: Level): set<Sink>
    decreases |cores|
  {
    if cores == [] then {}
    else (if Enables(cores[0].enabler, lvl) then {cores[0].sink} else {}) + Destinations(cores[1..], lvl)
  }

  /** A tee of two cores writes to the sinks of the cores that accept the level. */
  lemma TeeOfTwo(c0: Core, c1: Core, lvl: Level)
    ensures Destinations([c0, c1], lvl) ==
              (if Enables(c0.enabler, lvl) then {c0.sink} else {}) + (if Enables(c1.enabler, lvl) then {c1.sink} else {})
  {
    assert [c0, c1][1..] == [c1];
    assert [c1][1..] == [];
    assert Destinations([c1], lvl) == (if Enables(c1.enabler, lvl) then {c1.sink} else {}) + Destinations([], lvl);
  }

  /** The routing `NewLogger` promises: error-level messages and above go
      to standard error only; what `logPriority` accepts goes to the
      low-priority sink only; anything else is dropped. Development mode is
      on exactly in debug mode, and internal errors go to standard error. */
  ghost predicate RoutesAsConfigured(l: SugaredLogger, debug: bool, disable: bool)
  {
    && (forall lvl :: ErrorPriority(lvl) ==> Destinations(l.cores, lvl) == {Stderr})
    && (forall lvl :: LogPriority(debug, lvl) ==> Destinations(l.cores, lvl) == {if disable then DevNull else Stdout})
    && (forall lvl :: !ErrorPriority(lvl) && !LogPriority(debug, lvl) ==> Destinations(l.cores, lvl) == {})
    && (Development in l.options <==> debug)
    && ErrorOutput(Stderr) in l.options
  }

  /** `NewLogger`; `devNull` is the outcome of opening the null device,
      which happens only when `disable` is set. */
  method NewLogger(debug: bool, disable: bool, devNull: Step) returns (r: Result<SugaredLogger, string>)
    ensures r.Err? <==> disable && devNull.Fail?
    ensures r.Err? ==> r.error == devNull.cause
    ensures r.Ok? ==> RoutesAsConfigured(r.value, debug, disable)
  {
    var consoleLogs := Stdout;
    var consoleErrors := Stderr;
    if disable {
      if devNull.Fail? {
        return Err(devNull.cause);
      }
      consoleLogs := DevNull;
    }
    var core := [Core(consoleErrors, ErrorEnabler), Core(consoleLogs, LogEnabler(debug))];
    var opts := [ErrorOutput(Stderr)];
    if debug {
      opts := opts + [Development];
    }
    r := Ok(SugaredLogger(core, opts));
    forall lvl: Level
      ensures Destinations(core, lvl) ==
                (if ErrorPriority(lvl) then {Stderr} else {}) + (if LogPriority(debug, lvl) then {consoleLogs} else {})
    {
      TeeOfTwo(core[0], core[1], lvl);
    }
  }

  /** The package-level variables `Logger` and `debugOption`. */
  class LogPackage {
    var logger: Option<SugaredLogger>
    var debugOption: bool

    constructor ()
      ensures logger.None? && !debugOption
    {
      logger := None;
      debugOption := false;
    }

    /** `InitLogger`: record the debug flag, then build and install the
        logger. `Logger` is assigned even on failure, when it becomes nil. */
    method InitLogger(debug: bool, disable: bool, devNull: Step) returns (err: Option<string>)
      modifies this
      ensures debugOption == debug
      ensures err.Some? <==> disable && devNull.Fail?
      ensures err.Some? ==> err.value == "error in new logger: " + devNull.cause && logger.None?
      ensures err.None? ==> logger.Some? && RoutesAsConfigured(logger.value, debug, disable)
    {
      debugOption := debug;
      var r := NewLogger(debug, disable, devNull);
      match r {
        case Err(e) =>
          logger := None;
          err := Some("error in new logger: " + e);
        case Ok(l) =>
          logger := Some(l);
          err := None;
      }
    }
  }

  // ---------------------------------------------------------------------
  // Routing facts
  // ---------------------------------------------------------------------

  /** In debug mode every level goes to exactly one of the two cores. */
  lemma DebugModeRoutesEveryLevelOnce(lvl: Level)
    ensures ErrorPriority(lvl) != LogPriority(true, lvl)
  {
  }

  /** Outside debug mode the low-priority core accepts only levels strictly
      between DebugLevel and ErrorLevel, so debug messages reach no core. */
  lemma QuietModeDropsDebug(lvl: Level)
    ensures LogPriority(false, lvl) <==> DebugLevel < lvl < ErrorLevel
    ensures !LogPriority(false, DebugLevel) && !ErrorPriority(DebugLevel)
    ensures LogPriority(false, lvl) ==> LogPriority(true, lvl)
  {
  }

  /** A logger built as configured never writes one message to both
      standard error and standard output. */
  lemma {:induction false} NeverBothStreams(l: SugaredLogger, debug: bool, disable: bool, lvl: Level)
    requires RoutesAsConfigured(l, debug, disable)
    ensures !(Stderr in Destinations(l.cores, lvl) && Stdout in Destinations(l.cores, lvl))
    ensures disable ==> Stdout !in Destinations(l.cores, lvl)
  {
    if ErrorPriority(lvl) {
    } else if LogPriority(debug, lvl) {
    } else {
    }
  }
}

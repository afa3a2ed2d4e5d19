/**
 * `init_tracing`: choosing the writers, the per-file severity windows and the global
 * filter, optionally stacking the OTLP layer, and installing the result once per process.
 *
 * The foreign parsers (`EnvFilter::try_new` with its `to_string`, `Level::from_str`) and
 * the exporter pipeline are parameters: see `Collaborators`.
 */
module TracingInit {
  import opened Wrappers
  import opened Paths
  import opened Config

  // ---------------------------------------------------------------------------
  // Levels as the `tracing` crate orders them

  /** `tracing::Level`. */
  datatype Level = TRACE | DEBUG | INFO | WARN | ERROR

  /** `tracing`'s order: a more verbose level is greater, TRACE > DEBUG > INFO > WARN > ERROR. */
  function Verbosity(l: Level): nat {
    match l
    case ERROR => 0
    case WARN => 1
    case INFO => 2
    case DEBUG => 3
    case TRACE => 4
  }

  /** `a <= b` in `tracing`'s order: `a` is no more verbose than `b`. */
  predicate AtMost(a: Level, b: Level) {
    Verbosity(a) <= Verbosity(b)
  }

  /** The name a level filter renders as. */
  function FilterName(l: Level): string {
    match l
    case TRACE => "trace"
    case DEBUG => "debug"
    case INFO => "info"
    case WARN => "warn"
    case ERROR => "error"
  }

  /** The `tracing` level a configured level names. */
  function ToLevel(l: LevelInner): Level {
    match l
    case Trace => TRACE
    case Debug => DEBUG
    case Info => INFO
    case Warn => WARN
    case Error => ERROR
  }

  // ---------------------------------------------------------------------------
  // Constants of the source

  /** The variable `EnvFilter::try_from_default_env` reads. */
  const RustLog: string := "RUST_LOG"
  /** The variable set unconditionally before anything else, and its value. */
  const BatchSizeVar: string := "OTEL_BSP_MAX_EXPORT_BATCH_SIZE"
  const BatchSize: string := "12"
  /** The rendering of the fallback filter `EnvFilter::from("info")`. */
  const DefaultFilter: string := "info"
  /** The name the OTLP tracer is created under. */
  const TracerName: string := "trace_app"

  /**
   * The foreign code `init_tracing` calls, as functions:
   * `parseFilter` is `EnvFilter::try_new` followed by `to_string` (none when the directives do not parse),
   * `parseLevel` is `Level::from_str`, `exporterBuilds` tells whether the OTLP batch pipeline
   * for a connection string installs.
   */
  datatype Collaborators = Collaborators(
    parseFilter: string -> Option<string>,
    parseLevel: string -> Option<Level>,
    exporterBuilds: string -> bool)

  /** The one fact assumed of `Level::from_str`: each level's own name parses back to it. */
  predicate ParsesOwnNames(c: Collaborators) {
    forall l: Level :: c.parseLevel(FilterName(l)) == Some(l)
  }

  // ---------------------------------------------------------------------------
  // Writers

  /** The rolling appender constructors `rolling::never`, `minutely`, `hourly`, `daily`. */
  datatype Rolling = RollNever | RollMinutely | RollHourly | RollDaily

  /** The constructor the primary file is built with, for each configured rotation. */
  function ToRolling(k: RotationKind): Rolling {
    match k
    case Never => RollNever
    case Minutely => RollMinutely
    case Hourly => RollHourly
    case Daily => RollDaily
  }

  /** Where an event ends up. */
  datatype Sink = Stdout | RollingFile(rotation: Rolling, directory: string, filename: string)

  /** The `MakeWriter` combinators `init_tracing` composes. */
  datatype MakeWriter =
    | Direct(sink: Sink)
    | NonBlocking(sink: Sink)
    | WithMaxLevel(inner: MakeWriter, max: Level)
    | WithMinLevel(inner: MakeWriter, min: Level)
    | And(first: MakeWriter, second: MakeWriter)

  /**
   * The sinks an event of level `ev` is written to: `with_max_level(l)` writes events with
   * `ev <= l`, `with_min_level(l)` events with `ev >= l`, `and` writes to both sides.
   */
  function Destinations(w: MakeWriter, ev: Level): set<Sink> {
    match w
    case Direct(s) => {s}
    case NonBlocking(s) => {s}
    case WithMaxLevel(inner, max) => if AtMost(ev, max) then Destinations(inner, ev) else {}
    case WithMinLevel(inner, min) => if AtMost(min, ev) then Destinations(inner, ev) else {}
    case And(a, b) => Destinations(a, ev) + Destinations(b, ev)
  }

  /** The console writer: a non-blocking stdout. */
  const ConsoleWriter: MakeWriter := NonBlocking(Stdout)

  /** The dual-file writer: the non-blocking primary capped at `level` and floored at INFO, and the error file capped at WARN. */
  function FileWriter(primary: Sink, level: Level, error: Sink): MakeWriter {
    And(WithMinLevel(WithMaxLevel(NonBlocking(primary), level), INFO), WithMaxLevel(Direct(error), WARN))
  }

  /** The events the primary file admits at configured level `level`: INFO <= ev <= level. */
  predicate PrimaryWindow(level: Level, ev: Level) {
    AtMost(INFO, ev) && AtMost(ev, level)
  }

  /** The events the error file admits: ev <= WARN. */
  predicate ErrorWindow(ev: Level) {
    AtMost(ev, WARN)
  }

  // ---------------------------------------------------------------------------
  // The plan init_tracing builds

  /** The `WorkerGuard`: an opaque token for the non-blocking writer it flushes. */
  datatype Guard = Guard(flushes: Sink)

  /** The OpenTelemetry layer: the endpoint it exports to and the tracer's name. */
  datatype OtlpLayer = OtlpLayer(endpoint: string, tracer: string)

  /** The subscriber to install: global filter, formatting writer, optional OTLP layer. */
  datatype Subscriber = Subscriber(filter: string, writer: MakeWriter, otlp: Option<OtlpLayer>)

  datatype WriterChoice = WriterChoice(writer: MakeWriter, guard: Guard)

  datatype Plan = Plan(subscriber: Subscriber, guard: Guard)

  /** The ways `init_tracing` fails. */
  datatype InitError = LevelParse(filter: string) | ExporterBuild(endpoint: string) | AlreadyInstalled | LoggerAlreadySet

  /** `EnvFilter::try_new(s)` rendered, or the `"info"` filter when it fails. */
  function ParsedOrInfo(parseFilter: string -> Option<string>, s: string): string {
    parseFilter(s).GetOr(DefaultFilter)
  }

  /** The filter from the environment variable, or `"info"` when it is unset or invalid. */
  function EnvFilterOrInfo(envVar: Option<string>, parseFilter: string -> Option<string>): string {
    match envVar
    case None => DefaultFilter
    case Some(v) => ParsedOrInfo(parseFilter, v)
  }

  /** The effective global filter: the configured level's filter when a level is configured, else the environment's. */
  function ResolveFilter(envVar: Option<string>, config: Option<Config>, parseFilter: string -> Option<string>): string {
    if config.Some? && config.value.level.Some? then ParsedOrInfo(parseFilter, Display(config.value.level.value))
    else EnvFilterOrInfo(envVar, parseFilter)
  }

  /** Whether the configuration asks for files. */
  predicate WritesFiles(config: Option<Config>) {
    config.Some? && config.value.logPath.Some?
  }

  /** The error file: the explicit error path, or `error_` before the primary file's name in its directory. */
  function ErrorLogPath(c: Config, primary: LogPath): LogPath {
    c.ResolveLogErrorPath().GetOr(LogPath(primary.directory, "error_" + primary.filename))
  }

  /** The writer selection: the console, or the two files once the filter's level parses. */
  function SelectWriter(config: Option<Config>, filter: string, parseLevel: string -> Option<Level>): Result<WriterChoice, InitError> {
    match config
    case None => Ok(WriterChoice(ConsoleWriter, Guard(Stdout)))
    case Some(c) =>
      match c.ResolveLogPath()
      case None => Ok(WriterChoice(ConsoleWriter, Guard(Stdout)))
      case Some(lp) =>
        var primary := RollingFile(ToRolling(c.rotation), lp.directory, lp.filename);
        var errorPath := ErrorLogPath(c, lp);
        match parseLevel(filter)
        case None => Err(LevelParse(filter))
        case Some(level) =>
          var error := RollingFile(RollDaily, errorPath.directory, errorPath.filename);
          Ok(WriterChoice(FileWriter(primary, level, error), Guard(primary)))
  }

  /** The OTLP layer: none without an endpoint, else one exporting to `get_host()`, if its pipeline builds. */
  function OtlpFor(endpoint: Option<ExporterEndpoint>, exporterBuilds: string -> bool): Result<Option<OtlpLayer>, InitError> {
    match endpoint
    case None => Ok(None)
    case Some(e) =>
      if exporterBuilds(e.GetHost()) then Ok(Some(OtlpLayer(e.GetHost(), TracerName)))
      else Err(ExporterBuild(e.GetHost()))
  }

  /** Everything `init_tracing` decides before installing, in the order the source decides it. */
  function InitPlan(endpoint: Option<ExporterEndpoint>, config: Option<Config>, envVar: Option<string>, collab: Collaborators): (r: Result<Plan, InitError>)
    ensures r.Ok? ==> r.value.subscriber.filter == ResolveFilter(envVar, config, collab.parseFilter)
    ensures r.Ok? ==> (r.value.subscriber.otlp.Some? <==> endpoint.Some?)
    ensures r.Ok? && endpoint.Some? ==> r.value.subscriber.otlp.value == OtlpLayer(endpoint.value.GetHost(), TracerName)
    ensures r.Err? ==> r.error != AlreadyInstalled && r.error != LoggerAlreadySet
  {
    var filter := ResolveFilter(envVar, config, collab.parseFilter);
    match SelectWriter(config, filter, collab.parseLevel)
    case Err(e) => Err(e)
    case Ok(choice) =>
      match OtlpFor(endpoint, collab.exporterBuilds)
      case Err(e) => Err(e)
      case Ok(otlp) => Ok(Plan(Subscriber(filter, choice.writer, otlp), choice.guard))
  }

  // ---------------------------------------------------------------------------
  // Properties of the plan

  /** Each rotation kind has its own appender constructor. */
  lemma ToRollingBijective(a: RotationKind, b: RotationKind)
    ensures ToRolling(a) == ToRolling(b) <==> a == b
    ensures ToRolling(Never) == RollNever && ToRolling(Minutely) == RollMinutely
    ensures ToRolling(Hourly) == RollHourly && ToRolling(Daily) == RollDaily
  {
  }

  /** A configured level takes precedence: the environment does not matter then. */
  lemma ConfiguredLevelTakesPrecedence(env1: Option<string>, env2: Option<string>, config: Option<Config>, parseFilter: string -> Option<string>)
    requires config.Some? && config.value.level.Some?
    ensures ResolveFilter(env1, config, parseFilter) == ResolveFilter(env2, config, parseFilter)
  {
  }

  /** Without a configured level and without a usable environment filter the filter is `"info"`. */
  lemma FilterFallsBackToInfo(envVar: Option<string>, config: Option<Config>, parseFilter: string -> Option<string>)
    requires config.None? || config.value.level.None?
    requires envVar.None? || parseFilter(envVar.value).None?
    ensures ResolveFilter(envVar, config, parseFilter) == "info"
  {
  }

  /**
   * Where the filter comes from: a configured level's parsed directive, else `"info"` when it
   * does not parse; without a configured level, the parsed environment filter.
   */
  lemma FilterSources(envVar: Option<string>, config: Option<Config>, parseFilter: string -> Option<string>, g: string)
    ensures config.Some? && config.value.level.Some? && parseFilter(Display(config.value.level.value)) == Some(g) ==>
      ResolveFilter(envVar, config, parseFilter) == g
    ensures config.Some? && config.value.level.Some? && parseFilter(Display(config.value.level.value)).None? ==>
      ResolveFilter(envVar, config, parseFilter) == "info"
    ensures (config.None? || config.value.level.None?) && envVar.Some? && parseFilter(envVar.value) == Some(g) ==>
      ResolveFilter(envVar, config, parseFilter) == g
  {
  }

  /** Without a log path the writer is the non-blocking console, whatever the filter; only the exporter can fail. */
  lemma ConsoleWithoutLogPath(endpoint: Option<ExporterEndpoint>, config: Option<Config>, envVar: Option<string>, collab: Collaborators)
    requires !WritesFiles(config)
    ensures var r := InitPlan(endpoint, config, envVar, collab);
      (r.Ok? <==> (endpoint.None? || collab.exporterBuilds(endpoint.value.GetHost()))) &&
      (r.Ok? ==> r.value.subscriber.writer == ConsoleWriter && r.value.guard == Guard(Stdout)) &&
      (r.Err? ==> r.error.ExporterBuild?)
  {
  }

  /** The console receives every event the global filter lets through, and nothing else does. */
  lemma ConsoleTakesEverything(ev: Level)
    ensures Destinations(ConsoleWriter, ev) == {Stdout}
  {
  }

  /** The files branch: the primary file's rotation and location, the error file's, and what the guard flushes. */
  lemma FileSinks(endpoint: Option<ExporterEndpoint>, config: Option<Config>, envVar: Option<string>, collab: Collaborators)
    requires WritesFiles(config)
    requires InitPlan(endpoint, config, envVar, collab).Ok?
    ensures var c := config.value;
      var lp := BuildPath(c.logPath.value);
      var ep := if c.logErrorPath.Some? then BuildPath(c.logErrorPath.value) else LogPath(lp.directory, "error_" + lp.filename);
      var primary := RollingFile(ToRolling(c.rotation), lp.directory, lp.filename);
      var error := RollingFile(RollDaily, ep.directory, ep.filename);
      var filter := ResolveFilter(envVar, config, collab.parseFilter);
      var p := InitPlan(endpoint, config, envVar, collab).value;
      collab.parseLevel(filter).Some? &&
      p.subscriber.writer == FileWriter(primary, collab.parseLevel(filter).value, error) &&
      p.guard == Guard(primary)
  {
  }

  /** The call fails on the level exactly when files are asked for and the filter's rendering is no level. */
  lemma LevelParseFailure(endpoint: Option<ExporterEndpoint>, config: Option<Config>, envVar: Option<string>, collab: Collaborators)
    ensures var filter := ResolveFilter(envVar, config, collab.parseFilter);
      InitPlan(endpoint, config, envVar, collab) == Err(LevelParse(filter)) <==>
      (WritesFiles(config) && collab.parseLevel(filter).None?)
  {
  }

  /** The call succeeds exactly when the level (if needed) parses and the exporter (if any) builds. */
  lemma InitPlanSucceeds(endpoint: Option<ExporterEndpoint>, config: Option<Config>, envVar: Option<string>, collab: Collaborators)
    ensures InitPlan(endpoint, config, envVar, collab).Ok? <==>
      (!WritesFiles(config) || collab.parseLevel(ResolveFilter(envVar, config, collab.parseFilter)).Some?) &&
      (endpoint.None? || collab.exporterBuilds(endpoint.value.GetHost()))
  {
  }

  /** The derived error file sits next to the primary file, named `error_` and the primary's name. */
  lemma DerivedErrorFileIsSibling(c: Config, dir: PathBuf, name: string)
    requires c.logPath == Some(dir + [Normal(name)]) && c.logErrorPath.None?
    requires WellFormed(dir) && ValidName(name)
    ensures var ep := ErrorLogPath(c, BuildPath(dir + [Normal(name)]));
      ep == LogPath(Render(dir), "error_" + name) &&
      Join(ep.directory, ep.filename) == Render(dir + [Normal("error_" + name)])
  {
    BuildPathRoundTrip(dir, name);
    ErrorNameValid(name);
    BuildPathRoundTrip(dir, "error_" + name);
  }

  /** Prefixing a valid name with `error_` keeps it a valid name. */
  lemma ErrorNameValid(name: string)
    requires ValidName(name)
    ensures ValidName("error_" + name)
  {
    var e := "error_" + name;
    assert |e| > 2;
    assert Separator !in "error_";
  }

  /** The dual-file writer sends an event to the primary file within its window and to the error file within its. */
  lemma FileRouting(primary: Sink, level: Level, error: Sink, ev: Level)
    ensures Destinations(FileWriter(primary, level, error), ev) ==
      (if PrimaryWindow(level, ev) then {primary} else {}) + (if ErrorWindow(ev) then {error} else {})
  {
    var capped := WithMaxLevel(NonBlocking(primary), level);
    assert Destinations(capped, ev) == if AtMost(ev, level) then {primary} else {};
    assert Destinations(WithMinLevel(capped, INFO), ev) == if PrimaryWindow(level, ev) then {primary} else {};
    assert Destinations(WithMaxLevel(Direct(error), WARN), ev) == if ErrorWindow(ev) then {error} else {};
  }

  /** The primary file's window per configured level: at INFO only INFO, at WARN or ERROR nothing. */
  lemma PrimaryWindowByLevel(ev: Level)
    ensures PrimaryWindow(TRACE, ev) <==> ev in {TRACE, DEBUG, INFO}
    ensures PrimaryWindow(DEBUG, ev) <==> ev in {DEBUG, INFO}
    ensures PrimaryWindow(INFO, ev) <==> ev == INFO
    ensures !PrimaryWindow(WARN, ev) && !PrimaryWindow(ERROR, ev)
    ensures ErrorWindow(ev) <==> ev in {WARN, ERROR}
  {
  }

  /** The two files never both take an event, and an event the level lets through goes to exactly one of them. */
  lemma WindowsPartition(level: Level, ev: Level)
    ensures !(PrimaryWindow(level, ev) && ErrorWindow(ev))
    ensures AtMost(ev, level) ==> PrimaryWindow(level, ev) || ErrorWindow(ev)
  {
  }

  /** With a filter that is a level's own name, the primary file is capped at that level. */
  lemma LevelNamedFilterCapsPrimary(endpoint: Option<ExporterEndpoint>, config: Option<Config>, envVar: Option<string>, collab: Collaborators, l: Level)
    requires ParsesOwnNames(collab) && WritesFiles(config)
    requires ResolveFilter(envVar, config, collab.parseFilter) == FilterName(l)
    requires endpoint.None? || collab.exporterBuilds(endpoint.value.GetHost())
    ensures var r := InitPlan(endpoint, config, envVar, collab);
      r.Ok? && r.value.subscriber.writer.first == WithMinLevel(WithMaxLevel(NonBlocking(r.value.guard.flushes), l), INFO)
  {
    assert collab.parseLevel(FilterName(l)) == Some(l);
  }

  /** With files and neither a configured level nor a usable environment filter, the call cannot fail on the level, and the primary file takes INFO only. */
  lemma DefaultFilterAdmitsInfoOnly(endpoint: Option<ExporterEndpoint>, config: Option<Config>, envVar: Option<string>, collab: Collaborators, ev: Level)
    requires ParsesOwnNames(collab) && WritesFiles(config) && config.value.level.None?
    requires envVar.None? || collab.parseFilter(envVar.value).None?
    requires endpoint.None? || collab.exporterBuilds(endpoint.value.GetHost())
    ensures var r := InitPlan(endpoint, config, envVar, collab);
      r.Ok? && r.value.subscriber.writer.And? &&
      (r.value.guard.flushes in Destinations(r.value.subscriber.writer.first, ev) <==> ev == INFO)
  {
    FilterFallsBackToInfo(envVar, config, collab.parseFilter);
    assert DefaultFilter == FilterName(INFO);
    LevelNamedFilterCapsPrimary(endpoint, config, envVar, collab, INFO);
    var r := InitPlan(endpoint, config, envVar, collab);
    var capped := WithMaxLevel(NonBlocking(r.value.guard.flushes), INFO);
    assert Destinations(capped, ev) == if AtMost(ev, INFO) then {r.value.guard.flushes} else {};
  }

  /** A configured level whose directive renders as the level's name caps the primary file at that level. */
  lemma ConfiguredLevelCapsPrimary(endpoint: Option<ExporterEndpoint>, config: Option<Config>, envVar: Option<string>, collab: Collaborators)
    requires ParsesOwnNames(collab) && WritesFiles(config) && config.value.level.Some?
    requires collab.parseFilter(Display(config.value.level.value)) == Some(FilterName(ToLevel(config.value.level.value)))
    requires endpoint.None? || collab.exporterBuilds(endpoint.value.GetHost())
    ensures var r := InitPlan(endpoint, config, envVar, collab);
      r.Ok? && r.value.subscriber.writer.first == WithMinLevel(WithMaxLevel(NonBlocking(r.value.guard.flushes), ToLevel(config.value.level.value)), INFO)
  {
    LevelNamedFilterCapsPrimary(endpoint, config, envVar, collab, ToLevel(config.value.level.value));
  }

  // ---------------------------------------------------------------------------
  // The process: its environment and the one global subscriber

  /** The value of an environment variable, if set. */
  function Lookup(env: map<string, string>, name: string): Option<string> {
    if name in env then Some(env[name]) else None
  }

  /** The process state `init_tracing` touches. */
  class Process {
    /** The process environment. */
    var env: map<string, string>
    /** Whether a global subscriber has been installed (`set_global_default`). */
    var installed: bool
    /** The installed global subscriber. */
    var subscriber: Option<Subscriber>
    /** Whether a logger of the `log` crate has been set (`LogTracer::init`). */
    var loggerSet: bool

    ghost predicate Valid()
      reads this
    {
      installed <==> subscriber.Some?
    }

    /** A fresh process with the given environment, no subscriber, and a `log` logger set or not. */
    constructor (env0: map<string, string>, loggerSet0: bool)
      ensures Valid() && env == env0 && !installed && loggerSet == loggerSet0
    {
      env := env0;
      installed := false;
      subscriber := None;
      loggerSet := loggerSet0;
    }

    /**
     * `init_tracing`: sets the batch-size variable, resolves the filter, selects the writer,
     * builds the OTLP layer when an endpoint is given, then `try_init`: installs the subscriber
     * once, and then routes the `log` crate to it, which fails when a `log` logger is already set
     * (the subscriber stays installed).
     */
    method InitTracing(endpoint: Option<ExporterEndpoint>, config: Option<Config>, collab: Collaborators)
      returns (r: Result<Guard, InitError>)
      requires Valid()
      modifies this
      ensures Valid()
      ensures env == old(env)[BatchSizeVar := BatchSize]
      ensures installed == (old(installed) || r.Ok? || r == Err(LoggerAlreadySet))
      ensures match InitPlan(endpoint, config, Lookup(old(env), RustLog), collab)
        case Err(e) => r == Err(e) && subscriber == old(subscriber) && loggerSet == old(loggerSet)
        case Ok(p) =>
          if old(installed) then r == Err(AlreadyInstalled) && subscriber == old(subscriber) && loggerSet == old(loggerSet)
          else
            subscriber == Some(p.subscriber) && loggerSet &&
            r == (if old(loggerSet) then Err(LoggerAlreadySet) else Ok(p.guard))
    {
      env := env[BatchSizeVar := BatchSize];

      var filter := EnvFilterOrInfo(Lookup(env, RustLog), collab.parseFilter);
      if config.Some? && config.value.level.Some? {
        filter := ParsedOrInfo(collab.parseFilter, Display(config.value.level.value));
      }

      var choice := SelectWriter(config, filter, collab.parseLevel);
      if choice.Err? {
        return Err(choice.error);
      }

      var otlp := OtlpFor(endpoint, collab.exporterBuilds);
      if otlp.Err? {
        return Err(otlp.error);
      }

      // try_init: set_global_default, then LogTracer::init
      if installed {
        return Err(AlreadyInstalled);
      }
      installed := true;
      subscriber := Some(Subscriber(filter, choice.value.writer, otlp.value));
      if loggerSet {
        return Err(LoggerAlreadySet);
      }
      loggerSet := true;
      r := Ok(choice.value.guard);
    }
  }

  /**
   * Calling `init_tracing` twice in one process: once the first call got as far as installing
   * the subscriber, the second fails as already installed; after an earlier failure it fails alike.
   */
  method InitTwice(env0: map<string, string>, loggerSet0: bool, endpoint: Option<ExporterEndpoint>, config: Option<Config>, collab: Collaborators)
    returns (first: Result<Guard, InitError>, second: Result<Guard, InitError>)
    ensures second.Err?
    ensures first.Ok? || first == Err(LoggerAlreadySet) ==> second == Err(AlreadyInstalled)
    ensures first.Err? && first.error != LoggerAlreadySet ==> second == first
    ensures first == Err(LoggerAlreadySet) <==> loggerSet0 && InitPlan(endpoint, config, Lookup(env0, RustLog), collab).Ok?
  {
    var process := new Process(env0, loggerSet0);
    first := process.InitTracing(endpoint, config, collab);
    second := process.InitTracing(endpoint, config, collab);
  }
}

# tracing-logger-config, modelled in Dafny

This project models the core of a small Rust library that sets up process-wide logging and
tracing. The library does three things:

* It holds the logger configuration: an optional primary log path, an optional error log
  path, a rotation kind and an optional level. It also holds the exporter endpoint and turns
  it into a `host:port` connection string.
* It splits a log path into the directory and the file name that a rolling file appender
  takes.
* `init_tracing` decides where events go. That is either a non-blocking console, or two
  files: a primary file rotated as configured and an error file rotated daily. It decides
  which levels each file admits, what the global filter is, and whether an OpenTelemetry
  (OTLP) layer is stacked on top. It then installs the result as the process's single global
  subscriber.

Files:

* `wrappers.dfy`: `Option` and `Result`.
* `paths.dfy`: the part of `std::path` this code relies on. A path is its sequence of
  components. The file defines `parent`, `file_name`, the rendered path and `join`.
* `config.dfy`: module `Config`, which models `src/config.rs`.
* `tracing_init.dfy`: module `TracingInit`, which models `src/tracing_init.rs`. The decision
  is the pure function `InitPlan`, which returns a `Result<Plan, InitError>`. The process is
  the class `Process`. It has an environment map, an `installed` flag, the installed
  subscriber, and whether a logger of the `log` crate is set. `Process.InitTracing` is proved against `InitPlan`.

Levels follow the `tracing` crate's order, in which a more verbose level is greater:
TRACE > DEBUG > INFO > WARN > ERROR. `with_max_level(l)` admits events `ev <= l`, and
`with_min_level(l)` admits events `ev >= l`. So the primary file admits `INFO <= ev <= level`,
and the error file admits `ev <= WARN`.

Three pieces of foreign code are parameters, bundled in `Collaborators`:

* `EnvFilter::try_new` followed by `to_string`.
* `Level::from_str`.
* Whether the OTLP batch pipeline installs.

Two facts about them are assumed, each only by the lemmas that state it as a `requires`:

* `ParsesOwnNames`: each level's lower-case name parses back to that level under
  `Level::from_str`.
* In `ConfiguredLevelCapsPrimary` only: the configured level's directive (`Display` of the
  level, such as `Info`) parses under `EnvFilter::try_new` and its `to_string` is that level's
  lower-case name.

Besides these, the fallback filter `EnvFilter::from("info")` is taken to render as `"info"`.

At level WARN or ERROR the primary file's composed window
`with_max_level(level).with_min_level(INFO)` is empty, so an INFO event reaches no file.
`PrimaryWindowByLevel` proves this.

`try_init` is modelled with tracing-subscriber's default `tracing-log` feature. It first
installs the global subscriber, then routes the `log` crate to it with `LogTracer::init`. The
second step fails when a `log` logger is already set, and the subscriber then stays installed.

## Model

| member | source | states |
|---|---|---|
| `Config.BuildPathRoundTrip` | src/config.rs:33-40 | `BuildPath` models `build_path`. A path ending in a file name splits into the rendered parent directory and that name, and joining the two gives back the rendered path |
| `Config.BuildPathFallbacks` | src/config.rs:34-38 | `BuildPath`'s two fallbacks: only the empty path and the root have no parent, and then the directory is `""`; a path that does not end in a name has its whole rendering as the file name; otherwise the directory is the rendered parent |
| `Config.Config.ResolveLogPath` | src/config.rs:27 | `log_path()` is none exactly when `log_path` is none, and otherwise is `build_path` of it |
| `Config.Config.ResolveLogErrorPath` | src/config.rs:29-31 | `log_error_path()` is none exactly when `log_error_path` is none, and otherwise is `build_path` of it |
| `Config.DefaultConfigIsConsole` | src/config.rs:43-52 | `DefaultConfig` models `Default for Config`. It resolves no primary path and no error path, has no level, and its rotation is Never; the level's default is Info |
| `Config.RotationKinds` | src/config.rs:64-74 | every rotation kind is one of Never, Minutely, Hourly, Daily |
| `Config.DisplayInjective` | src/config.rs:102-104 | `Display` models `Display for LevelInner`. A level displays as its variant name, and two levels display alike only if they are equal |
| `Config.Decimal` | src/config.rs:23 | the port's rendering is a non-empty string of decimal digits with no leading zero |
| `Config.GetHostRoundTrip` | src/config.rs:23 | `ExporterEndpoint.GetHost` models `get_host`: `host`, `:`, then the decimal port. Splitting at the last `:` gives back the same host and port, whatever the host contains |
| `Config.GetHostExample` | src/config.rs:23 | host `a` with port 80 renders as `a:80` |
| `TracingInit.InitPlan` | src/tracing_init.rs:13-108 | composes `ResolveFilter`, `SelectWriter` (which models the writer choice at lines 24-75) and `OtlpFor` (which models lines 90-101). A successful plan's global filter is the resolved filter; the OTLP layer is present exactly when an endpoint is given, and it exports to `get_host()` under tracer `trace_app`; the plan never fails with an install error |
| `TracingInit.ToRollingBijective` | src/tracing_init.rs:36-45 | `ToRolling` models the `match c.rotation`. Never, Minutely, Hourly and Daily map one-to-one to `rolling::never`, `minutely`, `hourly` and `daily` |
| `TracingInit.ConfiguredLevelTakesPrecedence` | src/tracing_init.rs:21-29 | `ResolveFilter` models lines 21-29. When a config with a level is given, the effective filter does not depend on the environment |
| `TracingInit.FilterFallsBackToInfo` | src/tracing_init.rs:21-22 | with no configured level, and the variable unset or not parsing, the filter is `"info"` |
| `TracingInit.FilterSources` | src/tracing_init.rs:21-29 | a configured level whose directive parses makes that parsed filter the global filter; a configured level whose directive does not parse gives `"info"`; without a configured level, an environment filter that parses is the global filter |
| `TracingInit.ConsoleWithoutLogPath` | src/tracing_init.rs:68-75 | with no config or no log path, the writer is the non-blocking console and the guard flushes stdout; the call succeeds exactly when the exporter (if any) builds, and can fail only on the exporter |
| `TracingInit.ConsoleTakesEverything` | src/tracing_init.rs:69-70 | the console writer sends every event to stdout |
| `TracingInit.FileSinks` | src/tracing_init.rs:33-67 | `SelectWriter`'s file branch, with `ErrorLogPath` modelling lines 49-52. With a log path, the primary file uses the configured rotation and the split primary path; the error file is daily, at the explicit error path or at `error_` plus the primary name in the primary directory; the primary is capped at the parsed filter level; the guard flushes the primary file |
| `TracingInit.LevelParseFailure` | src/tracing_init.rs:54 | the call fails with a level-parse error exactly when files are configured and the filter's rendering is not a level |
| `TracingInit.InitPlanSucceeds` | src/tracing_init.rs:54-108 | the plan succeeds exactly when the level parses (if files are configured) and the exporter builds (if an endpoint is given) |
| `TracingInit.DerivedErrorFileIsSibling` | src/tracing_init.rs:49-52 | without an explicit error path, the error file is in the primary's directory and is named `error_` followed by the primary's name; joining the two gives the primary path with its last name prefixed by `error_` |
| `TracingInit.FileRouting` | src/tracing_init.rs:56-64 | `FileWriter` models the composed writer at lines 59-65. It sends an event to the primary file exactly when `INFO <= ev <= level`, and to the error file exactly when `ev <= WARN` |
| `TracingInit.PrimaryWindowByLevel` | src/tracing_init.rs:57-63 | the primary window is {TRACE, DEBUG, INFO} at TRACE, {DEBUG, INFO} at DEBUG, {INFO} at INFO, and empty at WARN and ERROR; the error window is {WARN, ERROR} |
| `TracingInit.WindowsPartition` | src/tracing_init.rs:56-64 | no event goes to both files, and every event within the level goes to exactly one of them |
| `TracingInit.LevelNamedFilterCapsPrimary` | src/tracing_init.rs:54-63 | when the filter is a level's own name, the call cannot fail on the level, and the primary file is capped at that level and floored at INFO |
| `TracingInit.DefaultFilterAdmitsInfoOnly` | src/tracing_init.rs:21-63 | with files, no configured level and no usable environment filter, the call cannot fail on the level, and the primary file takes exactly INFO events |
| `TracingInit.ConfiguredLevelCapsPrimary` | src/tracing_init.rs:26-63 | when the configured level's directive renders as that level's name, the primary file is capped at the configured level |
| `TracingInit.Process.InitTracing` | src/tracing_init.rs:13-109 | sets `OTEL_BSP_MAX_EXPORT_BATCH_SIZE` to `12` whatever happens; returns the plan's error unchanged; if a subscriber is already installed, fails with "already installed" and changes nothing; otherwise installs the plan's subscriber, and then fails with "logger already set" if a `log` logger was set, or else returns the plan's guard |
| `TracingInit.InitTwice` | src/tracing_init.rs:103-105 | in one process, a second call always fails. It fails with "already installed" once the first call installed the subscriber, whether the first call succeeded or failed on the `log` logger. After any earlier failure it fails with the same error. The first call fails on the `log` logger exactly when one was set and the plan succeeds |

## Left out

- Parsing a path string into components. A path is given as the components `Path::components` yields, for Unix paths. Redundant separators and Windows prefixes are not modelled.
- `to_string_lossy` on file names. Strings are sequences of characters, so non-UTF-8 names are not modelled.
- The `EnvFilter` directive language, its `to_string` rendering, and `Level::from_str`. These are foreign parsers and appear only as the `Collaborators` functions.
- Which events the global filter admits. Only the per-file windows are modelled.
- Creating the files and directories, and naming rotated files. `rolling::*` is represented only by which constructor is chosen and its directory and file name. The model does not capture that the primary file and its worker thread already exist when the level-parse error is returned.
- The background worker threads of `non_blocking`, and flushing when the `WorkerGuard` is dropped. The guard is a token that names the sink it flushes.
- The OTLP exporter, the Tokio batch runtime and `tracing_opentelemetry`. Only the layer's presence, its endpoint string and the tracer name are modelled, plus a flag for whether the pipeline installs. The model does not capture that a global tracer provider stays installed when `try_init` fails afterwards.
- The `ChronoLocal` timer format `[%F %X%.3f %:z]` and the span events `NEW | CLOSE`. These are formatter settings with no decision logic.
- Panics inside the appender on I/O failures. They are not part of the `Result`.
- Serde derives and the camelCase renaming.
- Which tracing-subscriber features are enabled. The crate's manifest is not part of this model. `try_init` is modelled with the default `tracing-log` feature; without that feature, the "logger already set" failure does not occur.

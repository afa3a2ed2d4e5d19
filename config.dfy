/**
 * The configuration values of the logger: where the logs go, how the primary file
 * rotates, which level is configured, and the remote exporter's endpoint.
 */
module Config {
  import opened Wrappers
  import opened Paths

  /** Rust's `u16`. */
  newtype u16 = x: int | 0 <= x < 0x1_0000

  /** How often the primary log file rolls over. */
  datatype RotationKind = Never | Minutely | Hourly | Daily

  /** `#[default]` of `RotationKind`. */
  const DefaultRotation: RotationKind := Never

  /** The configurable severity levels. */
  datatype LevelInner = Trace | Debug | Info | Warn | Error

  /** `#[default]` of `LevelInner`. */
  const DefaultLevel: LevelInner := Info

  /** `Display for LevelInner` writes the derived `Debug` form: the variant's name. */
  function Display(l: LevelInner): string {
    match l
    case Trace => "Trace"
    case Debug => "Debug"
    case Info => "Info"
    case Warn => "Warn"
    case Error => "Error"
  }

  /** Every variant displays as its own name, so no two levels display alike. */
  lemma DisplayInjective(a: LevelInner, b: LevelInner)
    ensures Display(a) == Display(b) <==> a == b
    ensures Display(a) in {"Trace", "Debug", "Info", "Warn", "Error"}
  {
  }

  /** A log file split into the directory and the file name the rolling appender takes. */
  datatype LogPath = LogPath(directory: string, filename: string)

  /**
   * `Config::build_path`: the rendered parent, or "" when there is none; the file name,
   * or the whole rendered path when the path does not end in a file name.
   */
  function BuildPath(path: PathBuf): LogPath {
    LogPath(
      match Parent(path) case Some(dir) => Render(dir) case None => "",
      match FileName(path) case Some(name) => name case None => Render(path))
  }

  /** A path that ends in a file name is split into its parent and that name, and joining the two gives it back. */
  lemma BuildPathRoundTrip(dir: PathBuf, name: string)
    requires WellFormed(dir) && ValidName(name)
    ensures BuildPath(dir + [Normal(name)]) == LogPath(Render(dir), name)
    ensures Join(Render(dir), name) == Render(dir + [Normal(name)])
  {
    assert (dir + [Normal(name)])[..|dir|] == dir;
    JoinRender(dir, name);
  }

  /**
   * The two fallbacks of `build_path`: only the empty path and the root have no parent,
   * and then the directory is empty; a path not ending in a name is its own file name.
   */
  lemma BuildPathFallbacks(p: PathBuf)
    requires WellFormed(p)
    ensures Parent(p).None? <==> (p == [] || p == [RootDir])
    ensures Parent(p).None? ==> BuildPath(p) == LogPath("", Render(p))
    ensures (p == [] || !p[|p| - 1].Normal?) ==> BuildPath(p).filename == Render(p)
    ensures Parent(p).Some? ==> BuildPath(p).directory == Render(p[..|p| - 1])
  {
    if |p| > 0 && p[|p| - 1].RootDir? {
      assert |p| - 1 == 0;
      assert p == [RootDir];
    }
  }

  /** The logger configuration. */
  datatype Config = Config(
    logPath: Option<PathBuf>,
    logErrorPath: Option<PathBuf>,
    rotation: RotationKind,
    level: Option<LevelInner>)
  {
    /** `Config::log_path`: the primary path, split. */
    function ResolveLogPath(): (r: Option<LogPath>)
      ensures r.None? <==> logPath.None?
      ensures r.Some? ==> r.value == BuildPath(logPath.value)
    {
      match logPath
      case None => None
      case Some(p) => Some(BuildPath(p))
    }

    /** `Config::log_error_path`: the explicit error path, split. */
    function ResolveLogErrorPath(): (r: Option<LogPath>)
      ensures r.None? <==> logErrorPath.None?
      ensures r.Some? ==> r.value == BuildPath(logErrorPath.value)
    {
      match logErrorPath
      case None => None
      case Some(p) => Some(BuildPath(p))
    }
  }

  /** `Default for Config`. */
  function DefaultConfig(): Config {
    Config(None, None, DefaultRotation, None)
  }

  /** The default configuration names no file and no level, and never rotates. */
  lemma DefaultConfigIsConsole()
    ensures DefaultConfig().ResolveLogPath() == None
    ensures DefaultConfig().ResolveLogErrorPath() == None
    ensures DefaultConfig().level == None
    ensures DefaultConfig().rotation == Never && DefaultLevel == Info
  {
  }

  /** Every rotation kind is one of the four periods. */
  lemma RotationKinds(k: RotationKind)
    ensures k in {Never, Minutely, Hourly, Daily}
  {
  }

  // ---------------------------------------------------------------------------
  // The exporter endpoint and its connection string

  /** The remote trace collector. */
  datatype ExporterEndpoint = ExporterEndpoint(port: u16, host: string) {
    /** `ExporterEndpoint::get_host`: `host:port`, the port in decimal. */
    function GetHost(): string {
      host + ":" + Decimal(port as nat)
    }
  }

  predicate IsDigit(c: char) {
    '0' <= c <= '9'
  }

  predicate AllDigits(s: string) {
    forall i :: 0 <= i < |s| ==> IsDigit(s[i])
  }

  function DigitChar(d: nat): char
    requires d < 10
  {
    ('0' as int + d) as char
  }

  /** The decimal rendering of a natural number, without leading zeros. */
  function Decimal(n: nat): (s: string)
    ensures |s| > 0 && AllDigits(s)
    ensures n >= 10 ==> s[0] != '0'
    decreases n
  {
    if n < 10 then [DigitChar(n)] else Decimal(n / 10) + [DigitChar(n % 10)]
  }

  /** The value of a string of decimal digits. */
  function ParseDecimal(s: string): nat
    requires AllDigits(s)
    decreases |s|
  {
    if s == [] then 0
    else 10 * ParseDecimal(s[..|s| - 1]) + (s[|s| - 1] as int - '0' as int)
  }

  lemma {:induction false} ParseDecimalOfDecimal(n: nat)
    ensures ParseDecimal(Decimal(n)) == n
    decreases n
  {
    if n >= 10 {
      var s := Decimal(n);
      assert s[..|s| - 1] == Decimal(n / 10);
      ParseDecimalOfDecimal(n / 10);
    }
  }

  /** The last position of `c` in `s`, if any. */
  function LastIndexOf(s: string, c: char): (r: Option<nat>)
    ensures r.None? ==> c !in s
    ensures r.Some? ==> r.value < |s| && s[r.value] == c && c !in s[r.value + 1..]
    decreases |s|
  {
    if s == [] then None
    else if s[|s| - 1] == c then Some(|s| - 1)
    else
      var r := LastIndexOf(s[..|s| - 1], c);
      assert s == s[..|s| - 1] + [s[|s| - 1]];
      assert r.Some? ==> s[r.value + 1..] == s[..|s| - 1][r.value + 1..] + [s[|s| - 1]];
      r
  }

  /** A port number in decimal, if it is one. */
  function ParsePort(s: string): Option<u16> {
    if s == [] || !AllDigits(s) then None
    else if ParseDecimal(s) < 0x1_0000 then Some(ParseDecimal(s) as u16)
    else None
  }

  /** Reads a connection string back: the host before the last `:`, the port after it. */
  function SplitHostPort(s: string): Option<ExporterEndpoint> {
    match LastIndexOf(s, ':')
    case None => None
    case Some(i) =>
      match ParsePort(s[i + 1..])
      case None => None
      case Some(port) => Some(ExporterEndpoint(port, s[..i]))
  }

  /** The last `:` of a host, a `:` and a string without one is the one after the host. */
  lemma {:induction false} LastColonAfterHost(h: string, d: string)
    requires ':' !in d
    ensures LastIndexOf(h + [':'] + d, ':') == Some(|h|)
    decreases |d|
  {
    var s := h + [':'] + d;
    if d != [] {
      assert s[|s| - 1] == d[|d| - 1];
      assert s[..|s| - 1] == h + [':'] + d[..|d| - 1];
      LastColonAfterHost(h, d[..|d| - 1]);
    }
  }

  /** A port's decimal rendering parses back to it. */
  lemma ParsePortOfDecimal(port: u16)
    ensures ParsePort(Decimal(port as nat)) == Some(port)
  {
    ParseDecimalOfDecimal(port as nat);
  }

  /** The connection string names the endpoint's host and port unambiguously, whatever the host holds. */
  lemma GetHostRoundTrip(e: ExporterEndpoint)
    ensures SplitHostPort(e.GetHost()) == Some(e)
  {
    var h := e.host;
    var d := Decimal(e.port as nat);
    var s := h + [':'] + d;
    assert e.GetHost() == s;
    assert ':' !in d by {
      assert forall k :: 0 <= k < |d| ==> IsDigit(d[k]);
    }
    LastColonAfterHost(h, d);
    assert s[|h| + 1..] == d && s[..|h|] == h;
    ParsePortOfDecimal(e.port);
  }

  /** The documented example: host "a", port 80. */
  lemma GetHostExample()
    ensures ExporterEndpoint(80, "a").GetHost() == "a:80"
  {
    assert Decimal(80) == Decimal(8) + [DigitChar(0)];
  }
}

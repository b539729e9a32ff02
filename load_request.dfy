/**
 * Building the controller's application-load request
 * (tools/jrtc-ctl/services/jrt-controller/request.go): from the shared
 * library's bytes, or from its path, which is checked and read first.
 * Durations are Go `time.Duration` values, signed 64-bit nanosecond
 * counts; the request carries them as 32-bit microsecond counts. The
 * file system is a parameter: what `os.Stat` and `os.ReadFile` return.
 */
module LoadRequest {
  import opened Wrappers

  predicate IsInt64(x: int)
  {
    -0x8000_0000_0000_0000 <= x < 0x8000_0000_0000_0000
  }

  predicate IsInt32(x: int)
  {
    -0x8000_0000 <= x < 0x8000_0000
  }

  /** Go's `/` on integers, which truncates toward zero. */
  function GoDiv(a: int, b: int): int
    requires b > 0
  {
    if a >= 0 then a / b else -((-a) / b)
  }

  /**
   * `Duration.Microseconds`: the whole microseconds in `d` nanoseconds,
   * truncated toward zero.
   */
  function Microseconds(d: int): (r: int)
    ensures d >= 0 ==> r >= 0 && r * 1000 <= d < r * 1000 + 1000
    ensures d < 0 ==> r <= 0 && r * 1000 - 1000 < d <= r * 1000
  {
    GoDiv(d, 1000)
  }

  /** Go's `int32(x)` conversion: the low 32 bits, read as two's complement. */
  function ToInt32(x: int): (r: int)
    ensures IsInt32(r) && (r - x) % 0x1_0000_0000 == 0
    ensures IsInt32(x) ==> r == x
  {
    var low := x % 0x1_0000_0000;
    if low < 0x8000_0000 then low else low - 0x1_0000_0000
  }

  /** `openapi_types.File` after `InitFromBytes`. */
  datatype File = File(bytes: seq<bv8>, filename: string)

  /** `JrtcAppLoadRequest`; `P` stands for the opaque application parameters. */
  datatype Request<P> = Request(
    app: File,
    appName: string,
    deadlineUs: int,
    ioqSize: int,
    periodUs: int,
    runtimeUs: int,
    appPath: string,
    appType: string,
    appParams: Option<P>)

  /** `NewJrtcAppLoadRequestFromBytes`. */
  function FromBytes<P>(code: seq<bv8>, path: string, appName: string, ioqSize: int,
                        deadline: int, period: int, runtime: int, appType: string, appParams: Option<P>): (r: Request<P>)
    ensures r.app.bytes == code && r.app.filename == r.appPath == path
    ensures IsInt32(r.deadlineUs) && IsInt32(r.periodUs) && IsInt32(r.runtimeUs)
  {
    Request(File(code, path), appName, ToInt32(Microseconds(deadline)), ioqSize,
            ToInt32(Microseconds(period)), ToInt32(Microseconds(runtime)), path, appType, appParams)
  }

  /** What `os.Stat` reports: an error, or whether the path is a directory. */
  datatype StatResult = StatError(err: string) | Stat(isDir: bool)

  function DirectoryError(path: string): string
  {
    "expected \"" + path + "\" to be a file, got directory"
  }

  /** `NewJrtcAppLoadRequest`: fails on a stat error, a directory or a read error. */
  function FromPath<P>(path: string, stat: StatResult, read: Result<seq<bv8>>, appName: string, ioqSize: int,
                       deadline: int, period: int, runtime: int, appType: string, appParams: Option<P>): (r: Result<Request<P>>)
    ensures r.Err? ==> stat.StatError? || stat.isDir || read.Err?
    ensures r.Ok? ==> read.Ok? && r.value.app.bytes == read.value && r.value.appPath == path
  {
    if stat.StatError? then Err(stat.err)
    else if stat.isDir then Err(DirectoryError(path))
    else if read.Err? then Err(read.error)
    else Ok(FromBytes(read.value, path, appName, ioqSize, deadline, period, runtime, appType, appParams))
  }

  /**
   * The request keeps the code, path, name, queue size, type and
   * parameters as given, and each duration as its microsecond count
   * modulo 2^32, read as an `int32`: exact while that count fits.
   */
  lemma {:induction false} RequestFields<P>(code: seq<bv8>, path: string, appName: string, ioqSize: int,
                           deadline: int, period: int, runtime: int, appType: string, appParams: Option<P>)
    requires IsInt64(deadline) && IsInt64(period) && IsInt64(runtime)
    ensures var r := FromBytes(code, path, appName, ioqSize, deadline, period, runtime, appType, appParams);
      r.app == File(code, path) && r.appPath == path && r.appName == appName && r.ioqSize == ioqSize &&
      r.appType == appType && r.appParams == appParams &&
      IsInt32(r.deadlineUs) && (r.deadlineUs - Microseconds(deadline)) % 0x1_0000_0000 == 0 &&
      (IsInt32(Microseconds(deadline)) ==> r.deadlineUs == Microseconds(deadline)) &&
      (IsInt32(Microseconds(period)) ==> r.periodUs == Microseconds(period)) &&
      (IsInt32(Microseconds(runtime)) ==> r.runtimeUs == Microseconds(runtime))
  {
  }

  /** Microseconds truncate toward zero: -1500 ns is -1 µs, not -2. */
  lemma MicrosecondsTruncate(d: int)
    ensures Microseconds(1500) == 1 && Microseconds(-1500) == -1
    ensures Microseconds(d) * 1000 <= d < Microseconds(d) * 1000 + 1000 || d < 0
    ensures d < 0 ==> Microseconds(d) * 1000 - 1000 < d <= Microseconds(d) * 1000
  {
  }

  /** A deadline of 2^31 µs (about 36 minutes) wraps to the most negative `int32`. */
  lemma LongDurationWraps()
    ensures ToInt32(Microseconds(0x8000_0000 * 1000)) == -0x8000_0000
  {
  }

  /**
   * The path variant fails exactly on a stat error, a directory or a read
   * error, each with its own message, and otherwise builds the same request
   * as the bytes variant on the file's contents.
   */
  lemma FromPathIsFromBytesOfContents<P>(path: string, stat: StatResult, read: Result<seq<bv8>>, appName: string,
                                         ioqSize: int, deadline: int, period: int, runtime: int, appType: string,
                                         appParams: Option<P>)
    ensures var r := FromPath(path, stat, read, appName, ioqSize, deadline, period, runtime, appType, appParams);
      (r.Ok? <==> stat.Stat? && !stat.isDir && read.Ok?) &&
      (stat.StatError? ==> r == Err(stat.err)) &&
      (stat.Stat? && stat.isDir ==> r == Err(DirectoryError(path))) &&
      (r.Ok? ==> r.value == FromBytes(read.value, path, appName, ioqSize, deadline, period, runtime, appType, appParams))
  {
  }
}

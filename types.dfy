/** The message and data types shared by the server, the worker and the store
    (common/src/types.rs). Integer widths (i32 ids, i64 timestamps and status
    codes) are unbounded here; where the source narrows a value (the i32 cast
    of a status code) the narrowing is written out where it happens. */
module Types {

  datatype Option<+T> = None | Some(value: T) {
    function GetOr(default: T): T {
      match this
      case Some(v) => v
      case None => default
    }
  }

  datatype Result<+T, +E> = Ok(value: T) | Err(error: E)

  /** A wall-clock instant (a chrono NaiveDateTime); only its order matters. */
  type Instant = int

  /** The value range of a Rust u32. */
  type U32 = x: int | 0 <= x < 0x1_0000_0000

  datatype EnvironmentVariable = EnvironmentVariable(name: string, value: string)

  /** What a metadata fetch reports for one configured package. */
  datatype PackageSearchResult = PackageSearchResult(
    name: string,
    version: string,
    maintainer: string,
    lastModified: int,
    source: Option<string>,
    subfolder: Option<string>,
    options: Option<string>,
    environment: Option<seq<EnvironmentVariable>>)

  /** The build request carried on the `pkg_build` queue. */
  datatype BuildTask = BuildTask(
    id: int,
    name: string,
    version: string,
    source: Option<string>,
    subfolder: Option<string>,
    options: Option<string>,
    env: Option<seq<EnvironmentVariable>>)

  datatype Timestamps = Timestamps(start: Instant, end: Instant)

  /** The build outcome carried on the `build_results` and `notifications` queues. */
  datatype BuildResult = BuildResult(
    task: BuildTask,
    statusCode: int,
    logLines: seq<string>,
    success: bool,
    timestamps: Timestamps)
}

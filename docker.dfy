/** Running one build in a container (worker/src/build/docker.rs). Every call
    into the container runtime is replaced by its outcome, collected in a
    `DockerWorld`; the model decides, from those outcomes, the container that
    is requested and the result or error the build returns. */
module Docker {
  import opened Types
  import Common

  const DefaultBuilder: string := "ghcr.io/neferin12/aur-builder-build-container"
  const ContainerUser: string := "builder"

  /** CPU quota equal to the period: at most one CPU's worth of time. */
  const CpuPeriod: int := 100000
  const CpuQuota: int := 100000

  /** The status code a result starts from, before the wait event is classified. */
  const InitialStatusCode: int := -5

  /** The worker's configuration file and the crate version baked into the binary. */
  datatype WorkerConfig = WorkerConfig(
    builder: Option<string>,
    giteaRepo: string,
    giteaUser: string,
    giteaToken: string,
    crateVersion: string)

  /** One item of the container's log stream. */
  datatype LogChunk = StdOut(text: string) | StdErr(text: string) | OtherOutput | ReadError(message: string)

  /** One item of the container's wait stream. */
  datatype WaitEvent =
    | WaitExit(statusCode: int)
    | ContainerWaitError(code: int)
    | OtherWaitError(message: string)

  /** What the container runtime does during one build: whether each call
      succeeds, the wait and log streams, the clock readings and the random
      draw for the container name. */
  datatype DockerWorld = DockerWorld(
    imagePullOk: bool,
    connectOk: bool,
    createOk: bool,
    startOk: bool,
    waitEvents: seq<WaitEvent>,
    logs: seq<LogChunk>,
    removeOk: bool,
    startedAt: Instant,
    finishedAt: Instant,
    nameDraw: U32)

  datatype BuildError =
    | DockerUnavailable
    | CreateFailed
    | StartFailed
    | RemoveFailed
    | WaitFailed(message: string)
    | UnexpectedEndOfWaitStream

  /** The container the worker asks for. */
  datatype ContainerConfig = ContainerConfig(
    name: string,
    image: string,
    user: string,
    env: seq<string>,
    autoRemove: bool,
    cpuPeriod: int,
    cpuQuota: int)

  /** `get_image_name`: the configured builder image (or the default) tagged with the crate version. */
  function ImageName(cfg: WorkerConfig): (image: string)
    ensures |image| == |cfg.builder.GetOr(DefaultBuilder)| + 1 + |cfg.crateVersion|
    ensures image[..|cfg.builder.GetOr(DefaultBuilder)|] == cfg.builder.GetOr(DefaultBuilder)
    ensures image[|cfg.builder.GetOr(DefaultBuilder)|..] == ":" + cfg.crateVersion
  {
    cfg.builder.GetOr(DefaultBuilder) + ":" + cfg.crateVersion
  }

  /** `log_message_to_string`: the stream name, ": ", then the chunk's text. */
  function LogMessageToString(prefix: string, message: string): (line: string)
    ensures |line| == |prefix| + 2 + |message|
    ensures line[..|prefix|] == prefix && line[|prefix|..|prefix| + 2] == ": "
    ensures line[|prefix| + 2..] == message
  {
    prefix + ": " + message
  }

  /** The container name: "build-", the task name, "-", the random draw in decimal. */
  function ContainerName(taskName: string, draw: U32): (name: string)
    ensures 8 + |taskName| <= |name| <= 17 + |taskName|
    ensures name[..6] == "build-" && name[6..6 + |taskName|] == taskName && name[6 + |taskName|] == '-'
    ensures name[7 + |taskName|..] == Common.RandString(draw)
  {
    "build-" + taskName + "-" + Common.RandString(draw)
  }

  /** Two builds of the same package with different draws get different container names. */
  lemma ContainerNamesDiffer(taskName: string, a: U32, b: U32)
    requires a != b
    ensures ContainerName(taskName, a) != ContainerName(taskName, b)
  {
    var k := 7 + |taskName|;
    assert ContainerName(taskName, a)[k..] == Common.RandString(a);
    assert ContainerName(taskName, b)[k..] == Common.RandString(b);
    assert Common.DecimalValue(Common.RandString(a)) != Common.DecimalValue(Common.RandString(b));
  }

  // ---------------------------------------------------------------------
  // Log collection

  /** The log lines of a stream: stdout and stderr chunks prefixed with their
      stream's name, other kinds skipped, everything from the first read error on dropped. */
  function LogLinesOf(chunks: seq<LogChunk>): (lines: seq<string>)
    ensures |lines| <= |chunks|
    decreases |chunks|
  {
    if chunks == [] then []
    else
      match chunks[0]
      case StdOut(t) => [LogMessageToString("stdout", t)] + LogLinesOf(chunks[1..])
      case StdErr(t) => [LogMessageToString("stderr", t)] + LogLinesOf(chunks[1..])
      case OtherOutput => LogLinesOf(chunks[1..])
      case ReadError(_) => []
  }

  /** The collection loop of `build`: push a line per stdout/stderr chunk, stop at the first error. */
  method CollectLogs(chunks: seq<LogChunk>) returns (lines: seq<string>)
    ensures lines == LogLinesOf(chunks)
  {
    lines := [];
    var i := 0;
    while i < |chunks|
      invariant 0 <= i <= |chunks|
      invariant lines + LogLinesOf(chunks[i..]) == LogLinesOf(chunks)
    {
      assert chunks[i..][1..] == chunks[i + 1..];
      ghost var rest := LogLinesOf(chunks[i + 1..]);
      match chunks[i] {
        case StdOut(t) =>
          var line := LogMessageToString("stdout", t);
          assert LogLinesOf(chunks[i..]) == [line] + rest;
          assert (lines + [line]) + rest == lines + ([line] + rest);
          lines := lines + [line];
        case StdErr(t) =>
          var line := LogMessageToString("stderr", t);
          assert LogLinesOf(chunks[i..]) == [line] + rest;
          assert (lines + [line]) + rest == lines + ([line] + rest);
          lines := lines + [line];
        case OtherOutput =>
          assert LogLinesOf(chunks[i..]) == rest;
        case ReadError(_) =>
          assert LogLinesOf(chunks[i..]) == [];
          assert lines + [] == lines;
          break;
      }
      i := i + 1;
    }
    assert i == |chunks| ==> chunks[i..] == [];
  }

  /** A read error cuts the stream: whatever follows it never reaches the result. */
  lemma {:induction false} LogLinesStopAtError(chunks: seq<LogChunk>, k: nat)
    requires k < |chunks| && chunks[k].ReadError?
    ensures LogLinesOf(chunks) == LogLinesOf(chunks[..k])
    decreases k
  {
    if k > 0 {
      assert chunks[1..][..k - 1] == chunks[..k][1..];
      if !chunks[0].ReadError? {
        LogLinesStopAtError(chunks[1..], k - 1);
      }
    }
  }

  /** Without read errors, lines keep the order of the chunks: the lines of a
      concatenation are the concatenation of the lines. */
  lemma {:induction false} LogLinesConcat(a: seq<LogChunk>, b: seq<LogChunk>)
    requires forall i :: 0 <= i < |a| ==> !a[i].ReadError?
    ensures LogLinesOf(a + b) == LogLinesOf(a) + LogLinesOf(b)
    decreases |a|
  {
    if a == [] {
      assert a + b == b;
    } else {
      assert (a + b)[0] == a[0];
      assert (a + b)[1..] == a[1..] + b;
      LogLinesConcat(a[1..], b);
    }
  }

  // ---------------------------------------------------------------------
  // Container environment

  function EnvAssignment(v: EnvironmentVariable): string {
    v.name + "=" + v.value
  }

  /** The six variables every build container receives, in this order. */
  function FixedEnv(sourceUrl: string, subfolder: Option<string>, cfg: WorkerConfig, options: Option<string>): seq<string> {
    [ "AB_SOURCE=" + sourceUrl,
      "AB_SUBFOLDER=" + subfolder.GetOr(""),
      "AB_GITEA_REPO=" + cfg.giteaRepo,
      "AB_GITEA_USER=" + cfg.giteaUser,
      "AB_GITEA_TOKEN=" + cfg.giteaToken,
      "AB_OPTIONS=" + options.GetOr("") ]
  }

  /** The container environment: the fixed variables, then every task
      variable as NAME=VALUE in task order. */
  function ContainerEnvOf(task: BuildTask, sourceUrl: string, subfolder: Option<string>, cfg: WorkerConfig): (env: seq<string>)
    ensures |env| == 6 + |task.env.GetOr([])|
    ensures env[..6] == FixedEnv(sourceUrl, subfolder, cfg, task.options)
    ensures forall i :: 0 <= i < |task.env.GetOr([])| ==> env[6 + i] == EnvAssignment(task.env.GetOr([])[i])
  {
    var vars := task.env.GetOr([]);
    FixedEnv(sourceUrl, subfolder, cfg, task.options) + seq(|vars|, i requires 0 <= i < |vars| => EnvAssignment(vars[i]))
  }

  /** The environment assembly of `build`: the fixed list, then a push per task variable. */
  method ContainerEnv(task: BuildTask, sourceUrl: string, subfolder: Option<string>, cfg: WorkerConfig)
    returns (env: seq<string>)
    ensures env == ContainerEnvOf(task, sourceUrl, subfolder, cfg)
  {
    env := FixedEnv(sourceUrl, subfolder, cfg, task.options);
    if task.env.Some? {
      var vars := task.env.value;
      for i := 0 to |vars|
        invariant |env| == 6 + i
        invariant env[..6] == FixedEnv(sourceUrl, subfolder, cfg, task.options)
        invariant forall k :: 0 <= k < i ==> env[6 + k] == EnvAssignment(vars[k])
      {
        env := env + [EnvAssignment(vars[i])];
      }
    }
  }

  /** The container requested for a task. */
  function ContainerFor(task: BuildTask, sourceUrl: string, subfolder: Option<string>, cfg: WorkerConfig, draw: U32): ContainerConfig {
    ContainerConfig(ContainerName(task.name, draw), ImageName(cfg), ContainerUser,
                    ContainerEnvOf(task, sourceUrl, subfolder, cfg), false, CpuPeriod, CpuQuota)
  }

  // ---------------------------------------------------------------------
  // Classification

  /** The result before classification: the sentinel status, success, a copy of the task. */
  function InitialResult(task: BuildTask, w: DockerWorld): BuildResult {
    BuildResult(task, InitialStatusCode, LogLinesOf(w.logs), true, Timestamps(w.startedAt, w.finishedAt))
  }

  /** Folding the first wait event into the result. */
  function Classify(results: BuildResult, event: WaitEvent): Result<BuildResult, BuildError> {
    match event
    case WaitExit(code) => Ok(results.(statusCode := code))
    case ContainerWaitError(code) => Ok(results.(statusCode := code, success := false))
    case OtherWaitError(message) => Err(WaitFailed(message))
  }

  /** What `build` returns for a task, given the runtime's behaviour. */
  function ExpectedBuild(task: BuildTask, w: DockerWorld): Result<BuildResult, BuildError> {
    if !w.connectOk then Err(DockerUnavailable)
    else if !w.createOk then Err(CreateFailed)
    else if !w.startOk then Err(StartFailed)
    else if |w.waitEvents| == 0 then Err(UnexpectedEndOfWaitStream)
    else if !w.removeOk then Err(RemoveFailed)
    else Classify(InitialResult(task, w), w.waitEvents[0])
  }

  /** `build`: assemble and run the container, then turn the first wait event
      into a result. `container` is the configuration requested, once the
      runtime could be reached. */
  method Build(task: BuildTask, sourceUrl: string, subfolder: Option<string>, cfg: WorkerConfig, w: DockerWorld)
    returns (r: Result<BuildResult, BuildError>, container: Option<ContainerConfig>)
    ensures r == ExpectedBuild(task, w)
    ensures container == if w.connectOk then Some(ContainerFor(task, sourceUrl, subfolder, cfg, w.nameDraw)) else None
  {
    // A failed image pull only logs a warning.
    if !w.connectOk {
      return Err(DockerUnavailable), None;
    }
    var name := ContainerName(task.name, w.nameDraw);
    var env := ContainerEnv(task, sourceUrl, subfolder, cfg);
    container := Some(ContainerConfig(name, ImageName(cfg), ContainerUser, env, false, CpuPeriod, CpuQuota));
    if !w.createOk {
      r := Err(CreateFailed);
      return;
    }
    if !w.startOk {
      r := Err(StartFailed);
      return;
    }
    if |w.waitEvents| == 0 {
      r := Err(UnexpectedEndOfWaitStream);
      return;
    }
    var event := w.waitEvents[0];
    var lines := CollectLogs(w.logs);
    if !w.removeOk {
      r := Err(RemoveFailed);
      return;
    }
    var results := BuildResult(task, InitialStatusCode, lines, true, Timestamps(w.startedAt, w.finishedAt));
    match event
    case WaitExit(code) =>
      results := results.(statusCode := code);
      r := Ok(results);
    case ContainerWaitError(code) =>
      results := results.(statusCode := code);
      results := results.(success := false);
      r := Ok(results);
    case OtherWaitError(message) =>
      r := Err(WaitFailed(message));
  }

  /** A build yields a result exactly when every runtime call succeeded, the
      wait stream produced an event and that event carries an exit code; the
      result copies the task, holds the collected log lines and the clock
      readings, takes its status code from the event (so the sentinel -5
      never survives classification), and is successful exactly when the
      container exited normally, whatever its exit code. */
  lemma BuildClassification(task: BuildTask, w: DockerWorld)
    ensures ExpectedBuild(task, w).Ok? <==>
      w.connectOk && w.createOk && w.startOk && |w.waitEvents| > 0 && w.removeOk
      && !w.waitEvents[0].OtherWaitError?
    ensures ExpectedBuild(task, w).Ok? ==>
      var res := ExpectedBuild(task, w).value;
      && res.task == task
      && res.logLines == LogLinesOf(w.logs)
      && res.timestamps == Timestamps(w.startedAt, w.finishedAt)
      && (w.waitEvents[0].WaitExit? ==> res.statusCode == w.waitEvents[0].statusCode && res.success)
      && (w.waitEvents[0].ContainerWaitError? ==> res.statusCode == w.waitEvents[0].code && !res.success)
  {
  }

  /** Only the first wait event matters. */
  lemma OnlyFirstWaitEvent(task: BuildTask, w: DockerWorld)
    requires |w.waitEvents| > 0
    ensures ExpectedBuild(task, w) == ExpectedBuild(task, w.(waitEvents := w.waitEvents[..1]))
  {
  }

  /** A failed removal turns even a clean exit into an error. */
  lemma RemovalFailureWins(task: BuildTask, w: DockerWorld)
    requires w.connectOk && w.createOk && w.startOk && |w.waitEvents| > 0
    requires !w.removeOk
    ensures ExpectedBuild(task, w) == Err(RemoveFailed)
  {
  }

  /** A failed image pull changes nothing. The source only logs the pull's
      outcome, so no definition here reads `imagePullOk` and this holds by
      construction; it records that the pull is not one of the failing steps. */
  lemma ImagePullIgnored(task: BuildTask, w: DockerWorld)
    ensures ExpectedBuild(task, w.(imagePullOk := false)) == ExpectedBuild(task, w.(imagePullOk := true))
  {
  }

  /** A container that exits 0 yields a successful result with status 0. */
  lemma CleanExitSucceeds(task: BuildTask, w: DockerWorld)
    requires w.connectOk && w.createOk && w.startOk && w.removeOk
    requires |w.waitEvents| > 0 && w.waitEvents[0] == WaitExit(0)
    ensures ExpectedBuild(task, w).Ok?
    ensures ExpectedBuild(task, w).value.statusCode == 0 && ExpectedBuild(task, w).value.success
  {
  }
}

/** Entry point of a build (worker/src/build/mod.rs): choose the source URL,
    then hand the task to the container build unchanged. */
module Build {
  import opened Types
  import Docker

  const AurGitPrefix: string := "https://aur.archlinux.org/"
  const AurGitSuffix: string := ".git"

  /** The AUR git URL of a package. */
  function AurGitUrl(name: string): (url: string)
    ensures |url| == |AurGitPrefix| + |name| + |AurGitSuffix|
    ensures url[..|AurGitPrefix|] == AurGitPrefix
    ensures url[|url| - |AurGitSuffix|..] == AurGitSuffix
    ensures url[|AurGitPrefix|..|url| - |AurGitSuffix|] == name
  {
    AurGitPrefix + name + AurGitSuffix
  }

  /** Different packages have different AUR URLs. */
  lemma AurGitUrlInjective(a: string, b: string)
    requires AurGitUrl(a) == AurGitUrl(b)
    ensures a == b
  {
  }

  /** The source a task is built from: its own source, or the package's AUR git URL. */
  function SourceUrl(task: BuildTask): (url: string)
    ensures task.source.Some? ==> url == task.source.value
    ensures task.source.None? ==> url == AurGitUrl(task.name)
  {
    match task.source
    case None => AurGitUrl(task.name)
    case Some(s) => s
  }

  /** `build_package`: the container build of the task with its source URL and
      its own subfolder, returning that build's outcome with no translation. */
  method BuildPackage(task: BuildTask, cfg: Docker.WorkerConfig, w: Docker.DockerWorld)
    returns (r: Result<BuildResult, Docker.BuildError>, container: Option<Docker.ContainerConfig>)
    ensures r == Docker.ExpectedBuild(task, w)
    ensures w.connectOk ==> container == Some(Docker.ContainerFor(task, SourceUrl(task), task.subfolder, cfg, w.nameDraw))
    ensures !w.connectOk ==> container == None
  {
    var sourceUrl := SourceUrl(task);
    r, container := Docker.Build(task, sourceUrl, task.subfolder, cfg, w);
  }

  /** The container of a task without a source is pointed at the AUR, one with
      a source at that source; the subfolder variable is the task's own. */
  lemma ContainerSource(task: BuildTask, cfg: Docker.WorkerConfig, draw: U32)
    ensures var env := Docker.ContainerFor(task, SourceUrl(task), task.subfolder, cfg, draw).env;
      && env[0] == "AB_SOURCE=" + (if task.source.Some? then task.source.value else AurGitUrl(task.name))
      && env[1] == "AB_SUBFOLDER=" + task.subfolder.GetOr("")
  {
    var env := Docker.ContainerFor(task, SourceUrl(task), task.subfolder, cfg, draw).env;
    assert env[..6][0] == env[0] && env[..6][1] == env[1];
  }
}

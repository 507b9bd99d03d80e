/** The worker's consumer loop (worker/src/main.rs): with a prefetch of one,
    take each `pkg_build` delivery in turn, build it, and either acknowledge it
    and publish the result to `build_results`, or reject it. A delivery that
    cannot be decoded panics the process: the loop ends there. */
module Worker {
  import opened Types
  import opened Broker
  import Docker
  import Build

  /** The consumer's prefetch (QoS) count: one unacknowledged delivery at a time. */
  const Prefetch: nat := 1

  /** The broker set-up before the first delivery is handled. */
  function Setup(): seq<BrokerEvent> {
    [SetPrefetch(Prefetch), DeclareQueue(PkgBuildQueue), ConsumeFrom(PkgBuildQueue), DeclareQueue(BuildResultsQueue)]
  }

  /** What the worker does with a delivery once its build has an outcome. */
  function Settle(tag: nat, outcome: Result<BuildResult, Docker.BuildError>): seq<BrokerEvent> {
    match outcome
    case Ok(res) => [Ack(tag), PublishResult(BuildResultsQueue, res)]
    case Err(_) => [Nack(tag)]
  }

  /** Handling one delivery settles its own tag once and no other. */
  lemma SettleCount(t: nat, outcome: Result<BuildResult, Docker.BuildError>, tag: nat)
    ensures CountSettles(Settle(t, outcome), tag) == if t == tag then 1 else 0
  {
    match outcome {
      case Ok(res) =>
        var s := [Ack(t), PublishResult(BuildResultsQueue, res)];
        assert Settle(t, outcome) == s;
        assert s[..1] == [Ack(t)];
        assert [Ack(t)][..0] == [];
        assert CountSettles([Ack(t)], tag) == if t == tag then 1 else 0;
        assert !Settles(s[1], tag);
      case Err(_) =>
        assert [Nack(t)][..0] == [];
    }
  }

  datatype Run = Run(events: seq<BrokerEvent>, crashed: bool)

  /** The events of handling `ds` in order, the k-th build running in
      `docker(k)`, and whether the process panicked on the way. */
  function Consumed(ds: seq<Delivery<BuildTask>>, docker: nat -> Docker.DockerWorld): Run
    decreases |ds|
  {
    if ds == [] then Run([], false)
    else
      var prev := Consumed(ds[..|ds| - 1], docker);
      var d := ds[|ds| - 1];
      if prev.crashed then prev
      else
        match d.payload
        case Undecodable => Run(prev.events, true)
        case Decoded(task) => Run(prev.events + Settle(d.tag, Docker.ExpectedBuild(task, docker(|ds| - 1))), false)
  }

  /** After a panic nothing further happens. */
  lemma {:induction false} CrashIsFinal(ds: seq<Delivery<BuildTask>>, docker: nat -> Docker.DockerWorld, k: nat)
    requires k <= |ds| && Consumed(ds[..k], docker).crashed
    ensures Consumed(ds, docker) == Consumed(ds[..k], docker)
    decreases |ds|
  {
    if k < |ds| {
      assert ds[..|ds| - 1][..k] == ds[..k];
      CrashIsFinal(ds[..|ds| - 1], docker, k);
    } else {
      assert ds[..k] == ds;
    }
  }

  /** The consumer loop of `main`. */
  method Consume(ds: seq<Delivery<BuildTask>>, cfg: Docker.WorkerConfig, docker: nat -> Docker.DockerWorld)
    returns (events: seq<BrokerEvent>, crashed: bool)
    ensures events == Setup() + Consumed(ds, docker).events
    ensures crashed == Consumed(ds, docker).crashed
  {
    events := Setup();
    crashed := false;
    var i := 0;
    while i < |ds|
      invariant 0 <= i <= |ds|
      invariant events == Setup() + Consumed(ds[..i], docker).events
      invariant !Consumed(ds[..i], docker).crashed
    {
      var d := ds[i];
      assert ds[..i + 1][..i] == ds[..i];
      if d.payload.Undecodable? {
        crashed := true;
        CrashIsFinal(ds, docker, i + 1);
        return;
      }
      var result, container := Build.BuildPackage(d.payload.value, cfg, docker(i));
      match result {
        case Ok(res) =>
          events := events + [Ack(d.tag)];
          events := events + [PublishResult(BuildResultsQueue, res)];
        case Err(_) =>
          events := events + [Nack(d.tag)];
      }
      i := i + 1;
    }
    assert ds[..i] == ds;
  }

  /** No event settles a tag that none of the deliveries carries. */
  lemma {:induction false} SettlesOnlyOwnTags(ds: seq<Delivery<BuildTask>>, docker: nat -> Docker.DockerWorld, tag: nat)
    requires forall j :: 0 <= j < |ds| ==> ds[j].tag != tag
    ensures CountSettles(Consumed(ds, docker).events, tag) == 0
    decreases |ds|
  {
    if ds != [] {
      var pre := ds[..|ds| - 1];
      var prev := Consumed(pre, docker);
      SettlesOnlyOwnTags(pre, docker, tag);
      var d := ds[|ds| - 1];
      if !prev.crashed && d.payload.Decoded? {
        var tail := Settle(d.tag, Docker.ExpectedBuild(d.payload.value, docker(|ds| - 1)));
        CountSettlesAppend(prev.events, tail, tag);
        SettleCount(d.tag, Docker.ExpectedBuild(d.payload.value, docker(|ds| - 1)), tag);
      }
    }
  }

  /** Decoded deliveries never make the process panic. */
  lemma {:induction false} NoCrashWhileDecoded(ds: seq<Delivery<BuildTask>>, docker: nat -> Docker.DockerWorld)
    requires forall j :: 0 <= j < |ds| ==> ds[j].payload.Decoded?
    ensures !Consumed(ds, docker).crashed
    decreases |ds|
  {
    if ds != [] {
      NoCrashWhileDecoded(ds[..|ds| - 1], docker);
    }
  }

  /** Every delivery that reaches the build, i.e. every delivery up to which all
      decoded, is acknowledged or rejected exactly once. */
  lemma {:induction false} SettledExactlyOnce(ds: seq<Delivery<BuildTask>>, docker: nat -> Docker.DockerWorld, i: nat)
    requires DistinctTags(ds)
    requires i < |ds|
    requires forall j :: 0 <= j <= i ==> ds[j].payload.Decoded?
    ensures CountSettles(Consumed(ds, docker).events, ds[i].tag) == 1
    decreases |ds|
  {
    var n := |ds|;
    var pre := ds[..n - 1];
    var prev := Consumed(pre, docker);
    var d := ds[n - 1];
    var tag := ds[i].tag;
    if i < n - 1 {
      SettledExactlyOnce(pre, docker, i);
      if !prev.crashed && d.payload.Decoded? {
        var tail := Settle(d.tag, Docker.ExpectedBuild(d.payload.value, docker(n - 1)));
        CountSettlesAppend(prev.events, tail, tag);
        SettleCount(d.tag, Docker.ExpectedBuild(d.payload.value, docker(n - 1)), tag);
      }
    } else {
      NoCrashWhileDecoded(pre, docker);
      SettlesOnlyOwnTags(pre, docker, tag);
      var tail := Settle(d.tag, Docker.ExpectedBuild(d.payload.value, docker(n - 1)));
      CountSettlesAppend(prev.events, tail, tag);
      SettleCount(d.tag, Docker.ExpectedBuild(d.payload.value, docker(n - 1)), tag);
    }
  }

  /** An undecodable delivery ends the run with the events it had. */
  lemma CrashAt(ds: seq<Delivery<BuildTask>>, docker: nat -> Docker.DockerWorld, i: nat)
    requires i < |ds| && ds[i].payload.Undecodable?
    ensures Consumed(ds[..i + 1], docker) == Run(Consumed(ds[..i], docker).events, true)
  {
    assert ds[..i + 1][..i] == ds[..i];
  }

  /** Once a delivery cannot be decoded, only the deliveries before it are ever
      acknowledged or rejected: no tag they do not carry is settled. */
  lemma NothingSettledAfterCrash(ds: seq<Delivery<BuildTask>>, docker: nat -> Docker.DockerWorld, i: nat, tag: nat)
    requires i < |ds| && ds[i].payload.Undecodable?
    requires forall k :: 0 <= k < i ==> ds[k].tag != tag
    ensures CountSettles(Consumed(ds, docker).events, tag) == 0
  {
    calc {
      CountSettles(Consumed(ds, docker).events, tag);
    == { CrashAt(ds, docker, i); CrashIsFinal(ds, docker, i + 1); }
      CountSettles(Consumed(ds[..i], docker).events, tag);
    == { SettlesOnlyOwnTags(ds[..i], docker, tag); }
      0;
    }
  }

  /** With distinct tags, an undecodable delivery is never acknowledged or
      rejected, and neither is any delivery after it. */
  lemma NothingSettledFromCrash(ds: seq<Delivery<BuildTask>>, docker: nat -> Docker.DockerWorld, i: nat, j: nat)
    requires DistinctTags(ds)
    requires i <= j < |ds| && ds[i].payload.Undecodable?
    ensures CountSettles(Consumed(ds, docker).events, ds[j].tag) == 0
  {
    NothingSettledAfterCrash(ds, docker, i, ds[j].tag);
  }

  /** Every publish goes to `build_results` right after an acknowledgement. */
  predicate PublishesAfterAck(events: seq<BrokerEvent>) {
    forall k :: 0 <= k < |events| && events[k].PublishResult? ==>
      k > 0 && events[k - 1].Ack? && events[k].queue == BuildResultsQueue
  }

  /** The worker acknowledges a delivery before it publishes its result. */
  lemma {:induction false} PublishFollowsAck(ds: seq<Delivery<BuildTask>>, docker: nat -> Docker.DockerWorld)
    ensures PublishesAfterAck(Consumed(ds, docker).events)
    decreases |ds|
  {
    if ds != [] {
      var pre := ds[..|ds| - 1];
      PublishFollowsAck(pre, docker);
      var prev := Consumed(pre, docker);
      var d := ds[|ds| - 1];
      if !prev.crashed && d.payload.Decoded? {
        var outcome := Docker.ExpectedBuild(d.payload.value, docker(|ds| - 1));
        var tail := Settle(d.tag, outcome);
        assert tail == [Nack(d.tag)] || (outcome.Ok? && tail == [Ack(d.tag), PublishResult(BuildResultsQueue, outcome.value)]);
        var events := prev.events + tail;
        assert Consumed(ds, docker).events == events;
        forall k | 0 <= k < |events| && events[k].PublishResult?
          ensures k > 0 && events[k - 1].Ack? && events[k].queue == BuildResultsQueue
        {
          if k < |prev.events| {
            assert events[k] == prev.events[k];
            assert events[k - 1] == prev.events[k - 1];
          } else {
            assert events[k] == tail[k - |prev.events|];
            assert k == |prev.events| + 1;
            assert events[k - 1] == tail[0];
          }
        }
      }
    }
  }

  /** A task whose container exits 0 is acknowledged, then a successful result
      with status 0 is published for it. */
  lemma CleanBuildScenario(tag: nat, task: BuildTask, docker: nat -> Docker.DockerWorld)
    requires var w := docker(0);
      w.connectOk && w.createOk && w.startOk && w.removeOk && w.waitEvents == [Docker.WaitExit(0)]
    ensures var run := Consumed([Delivery(tag, Decoded(task))], docker);
      && !run.crashed
      && |run.events| == 2
      && run.events[0] == Ack(tag)
      && run.events[1].PublishResult?
      && run.events[1].result.task == task
      && run.events[1].result.statusCode == 0
      && run.events[1].result.success
  {
    assert [Delivery(tag, Decoded(task))][..0] == [];
  }
}

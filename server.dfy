/** One pass of the server's poll loop (server/src/main.rs): fetch every
    configured AUR package, then every git package, and only then run each
    fetched entry through `update_metadata`, publishing a build task to
    `pkg_build` for exactly the entries it reports as changed. */
module Server {
  import opened Types
  import opened Database

  /** The pause after every pass (five minutes). */
  const PollIntervalSeconds: nat := 300

  /** The process exit code when the configuration cannot be loaded. */
  const ConfigExitCode: int := 4

  /** Start-up: a configuration that fails to load ends the process with code 4
      before the database or the broker is contacted. */
  function LoadConfig<Cfg>(loaded: Result<Cfg, string>): (r: Result<Cfg, int>)
    ensures r.Ok? <==> loaded.Ok?
    ensures r.Ok? ==> r.value == loaded.value
    ensures r.Err? ==> r.error == ConfigExitCode
  {
    match loaded
    case Ok(c) => Ok(c)
    case Err(_) => Err(ConfigExitCode)
  }

  // ---------------------------------------------------------------------
  // Fetching

  /** What fetching one configured package came to. */
  datatype FetchResult = Fetched(data: PackageSearchResult) | FetchFailed(message: string)

  /** The fetched data of a list of packages, in order, or None when any fetch
      failed (the source unwraps each fetch, so one failure ends the process). */
  function Gathered(fs: seq<FetchResult>): (r: Option<seq<PackageSearchResult>>)
    ensures r.Some? ==> |r.value| == |fs| && forall k :: 0 <= k < |fs| ==> fs[k] == Fetched(r.value[k])
    ensures r.None? ==> exists k :: 0 <= k < |fs| && fs[k].FetchFailed?
    decreases |fs|
  {
    if fs == [] then Some([])
    else
      var prev := Gathered(fs[..|fs| - 1]);
      match fs[|fs| - 1]
      case FetchFailed(_) => None
      case Fetched(d) =>
        if prev.None? then
          var k :| 0 <= k < |fs| - 1 && fs[..|fs| - 1][k].FetchFailed?;
          assert fs[k].FetchFailed?;
          None
        else Some(prev.value + [d])
  }

  /** The data a pass works on: every AUR package's, then every git package's. */
  function PassData(aur: seq<FetchResult>, git: seq<FetchResult>): (r: Option<seq<PackageSearchResult>>)
    ensures r.None? <==>
      (exists k :: 0 <= k < |aur| && aur[k].FetchFailed?) || (exists k :: 0 <= k < |git| && git[k].FetchFailed?)
    ensures r.Some? ==>
      && |r.value| == |aur| + |git|
      && (forall k :: 0 <= k < |aur| ==> aur[k] == Fetched(r.value[k]))
      && (forall k :: 0 <= k < |git| ==> git[k] == Fetched(r.value[|aur| + k]))
  {
    match (Gathered(aur), Gathered(git))
    case (Some(a), Some(g)) => Some(a + g)
    case _ => None
  }

  // ---------------------------------------------------------------------
  // Dispatching

  /** The published task: id, name, source and subfolder from the stored row
      re-read by name; version, options and environment from the fetched data. */
  function TaskFor(row: PackageRow, data: PackageSearchResult): BuildTask {
    BuildTask(row.id, row.name, data.version, row.source, row.subfolder, data.options, data.environment)
  }

  /** The store, the tasks published so far, and whether the pass panicked
      (the re-read by name found nothing). */
  datatype DispatchRun = DispatchRun(state: StoreState, tasks: seq<BuildTask>, panicked: bool)

  /** One fetched entry: update the store and, if it reports a change, re-read
      the row by name and publish its task. */
  function Step(run: DispatchRun, data: PackageSearchResult, writeOk: bool): DispatchRun {
    if run.panicked then run
    else
      var u := Upsert(run.state, data, writeOk);
      if !u.changed then DispatchRun(u.state, run.tasks, false)
      else
        match PackageByName(u.state.packages, data.name)
        case None => DispatchRun(u.state, run.tasks, true)
        case Some(row) => DispatchRun(u.state, run.tasks + [TaskFor(row, data)], false)
  }

  /** The fetched entries in order from store `s0`, the k-th write succeeding
      iff `writeOk(k)`. */
  function Dispatched(s0: StoreState, data: seq<PackageSearchResult>, writeOk: nat -> bool): DispatchRun
    decreases |data|
  {
    if data == [] then DispatchRun(s0, [], false)
    else Step(Dispatched(s0, data[..|data| - 1], writeOk), data[|data| - 1], writeOk(|data| - 1))
  }

  /** One more entry is one more step. */
  lemma DispatchedNext(s0: StoreState, data: seq<PackageSearchResult>, writeOk: nat -> bool, k: nat)
    requires k < |data|
    ensures Dispatched(s0, data[..k + 1], writeOk) == Step(Dispatched(s0, data[..k], writeOk), data[k], writeOk(k))
  {
    assert data[..k + 1][..k] == data[..k];
  }

  /** After a panic the store and the outbox stay as they were. */
  lemma {:induction false} PanicIsFinal(s0: StoreState, data: seq<PackageSearchResult>, writeOk: nat -> bool, k: nat)
    requires k <= |data| && Dispatched(s0, data[..k], writeOk).panicked
    ensures Dispatched(s0, data, writeOk) == Dispatched(s0, data[..k], writeOk)
    decreases |data|
  {
    if k < |data| {
      assert data[..|data| - 1][..k] == data[..k];
      PanicIsFinal(s0, data[..|data| - 1], writeOk, k);
    } else {
      assert data[..k] == data;
    }
  }

  datatype PassOutcome = Completed(sleepSeconds: nat) | FetchPanicked | LookupPanicked

  /** One of the two fetch loops: fetch each package in configuration order,
      stopping at the first failure. */
  method Gather(fs: seq<FetchResult>) returns (r: Option<seq<PackageSearchResult>>)
    ensures r == Gathered(fs)
  {
    var packageData: seq<PackageSearchResult> := [];
    var i := 0;
    while i < |fs|
      invariant 0 <= i <= |fs|
      invariant Gathered(fs[..i]) == Some(packageData)
    {
      assert fs[..i + 1][..i] == fs[..i];
      match fs[i] {
        case FetchFailed(_) =>
          return None;
        case Fetched(d) =>
          packageData := packageData + [d];
      }
      i := i + 1;
    }
    assert fs[..i] == fs;
    r := Some(packageData);
  }

  /** The body of the update loop for one fetched entry. */
  method DispatchEntry(store: Store, data: PackageSearchResult, writeOk: bool, outbox: seq<BuildTask>, ghost run: DispatchRun)
    returns (outbox': seq<BuildTask>, panicked: bool)
    requires store.Valid()
    requires run == DispatchRun(store.State(), outbox, false)
    modifies store
    ensures store.Valid()
    ensures Step(run, data, writeOk) == DispatchRun(store.State(), outbox', panicked)
  {
    outbox' := outbox;
    panicked := false;
    var updated := store.UpdateMetadata(data, writeOk);
    if updated {
      var row := PackageByName(store.packages, data.name);
      if row.None? {
        panicked := true;
        return;
      }
      outbox' := outbox + [TaskFor(row.value, data)];
    }
  }

  /** The update loop: each entry in turn through `update_metadata`, publishing
      the task of every entry reported as changed. */
  method Dispatch(store: Store, packageData: seq<PackageSearchResult>, writeOk: nat -> bool)
    returns (outbox: seq<BuildTask>, panicked: bool)
    requires store.Valid()
    modifies store
    ensures store.Valid()
    ensures store.State() == Dispatched(old(store.State()), packageData, writeOk).state
    ensures outbox == Dispatched(old(store.State()), packageData, writeOk).tasks
    ensures panicked == Dispatched(old(store.State()), packageData, writeOk).panicked
  {
    outbox := [];
    panicked := false;
    ghost var s0 := store.State();
    ghost var run := DispatchRun(s0, [], false);
    var k := 0;
    while k < |packageData|
      invariant 0 <= k <= |packageData|
      invariant run == Dispatched(s0, packageData[..k], writeOk)
      invariant store.Valid()
      invariant store.State() == run.state && outbox == run.tasks && !run.panicked
    {
      DispatchedNext(s0, packageData, writeOk, k);
      outbox, panicked := DispatchEntry(store, packageData[k], writeOk(k), outbox, run);
      run := Step(run, packageData[k], writeOk(k));
      if panicked {
        PanicIsFinal(s0, packageData, writeOk, k + 1);
        return;
      }
      k := k + 1;
    }
    assert packageData[..k] == packageData;
  }

  /** One iteration of the poll loop in `main`: both fetch loops, then the
      update loop, then the pause. */
  method PollPass(store: Store, aur: seq<FetchResult>, git: seq<FetchResult>, writeOk: nat -> bool)
    returns (outbox: seq<BuildTask>, outcome: PassOutcome)
    requires store.Valid()
    modifies store
    ensures store.Valid()
    ensures PassData(aur, git).None? ==>
      outcome == FetchPanicked && outbox == [] && store.State() == old(store.State())
    ensures PassData(aur, git).Some? ==>
      var run := Dispatched(old(store.State()), PassData(aur, git).value, writeOk);
      && store.State() == run.state
      && outbox == run.tasks
      && outcome == (if run.panicked then LookupPanicked else Completed(PollIntervalSeconds))
  {
    outbox := [];
    var fromAur := Gather(aur);
    if fromAur.None? {
      outcome := FetchPanicked;
      return;
    }
    var fromGit := Gather(git);
    if fromGit.None? {
      outcome := FetchPanicked;
      return;
    }
    var panicked;
    outbox, panicked := Dispatch(store, fromAur.value + fromGit.value, writeOk);
    outcome := if panicked then LookupPanicked else Completed(PollIntervalSeconds);
  }

  // ---------------------------------------------------------------------
  // What a pass publishes

  /** Whether `update_metadata` would report a change for this entry: the
      name is not stored, or the stored timestamp is strictly older. */
  predicate Newer(s: StoreState, d: PackageSearchResult) {
    match PackageByName(s.packages, d.name)
    case None => true
    case Some(row) => row.lastModified < d.lastModified
  }

  /** The entries newer than the store, in fetched order. */
  function Selected(s: StoreState, data: seq<PackageSearchResult>): (r: seq<PackageSearchResult>)
    ensures forall d :: d in r <==> d in data && Newer(s, d)
    decreases |data|
  {
    if data == [] then []
    else
      assert data == data[..|data| - 1] + [data[|data| - 1]];
      Selected(s, data[..|data| - 1]) + (if Newer(s, data[|data| - 1]) then [data[|data| - 1]] else [])
  }

  ghost predicate DistinctNames(data: seq<PackageSearchResult>) {
    forall i, j :: 0 <= i < j < |data| ==> data[i].name != data[j].name
  }

  /** A published task carries the fetched entry's fields and the id of the
      row now stored under its name. */
  predicate TaskFits(t: BuildTask, d: PackageSearchResult, s: StoreState) {
    && t.name == d.name && t.version == d.version
    && t.source == d.source && t.subfolder == d.subfolder
    && t.options == d.options && t.env == d.environment
    && PackageByName(s.packages, d.name).Some?
    && t.id == PackageByName(s.packages, d.name).value.id
  }

  /** Entries with other names leave what a lookup by this name finds. */
  lemma {:induction false} DispatchKeepsOtherNames(s0: StoreState, data: seq<PackageSearchResult>, writeOk: nat -> bool, name: string)
    requires forall k :: 0 <= k < |data| ==> data[k].name != name
    ensures PackageByName(Dispatched(s0, data, writeOk).state.packages, name) == PackageByName(s0.packages, name)
    decreases |data|
  {
    if data != [] {
      var prev := Dispatched(s0, data[..|data| - 1], writeOk);
      DispatchKeepsOtherNames(s0, data[..|data| - 1], writeOk, name);
      if !prev.panicked {
        UpsertKeepsOtherNames(prev.state, data[|data| - 1], writeOk(|data| - 1), name);
      }
    }
  }

  /** One accepted step keeps the earlier tasks fitting, adds a fitting task
      exactly when the entry is newer than the store, and leaves the entry
      current. */
  lemma StepFits(prev: DispatchRun, sel: seq<PackageSearchResult>, d: PackageSearchResult)
    requires PublishedFor(prev, sel)
    requires forall k :: 0 <= k < |sel| ==> sel[k].name != d.name
    ensures PublishedFor(Step(prev, d, true), sel + (if Newer(prev.state, d) then [d] else []))
    ensures !Newer(Step(prev, d, true).state, d)
    ensures forall nm :: nm != d.name ==>
      PackageByName(Step(prev, d, true).state.packages, nm) == PackageByName(prev.state.packages, nm)
  {
    var u := Upsert(prev.state, d, true);
    forall nm | nm != d.name
      ensures PackageByName(u.state.packages, nm) == PackageByName(prev.state.packages, nm)
    {
      UpsertKeepsOtherNames(prev.state, d, true, nm);
    }
    UpsertFindsOwnRow(prev.state, d);
    var next := Step(prev, d, true);
    assert next.state == u.state;
    forall k | 0 <= k < |sel|
      ensures TaskFits(next.tasks[k], sel[k], next.state)
    {
      assert next.tasks[k] == prev.tasks[k];
      assert PackageByName(u.state.packages, sel[k].name) == PackageByName(prev.state.packages, sel[k].name);
    }
  }

  /** Entries selected from a list without a name carry other names. */
  lemma SelectedOtherNames(s: StoreState, data: seq<PackageSearchResult>, name: string)
    requires forall k :: 0 <= k < |data| ==> data[k].name != name
    ensures forall k :: 0 <= k < |Selected(s, data)| ==> Selected(s, data)[k].name != name
  {
    var sel := Selected(s, data);
    forall k | 0 <= k < |sel|
      ensures sel[k].name != name
    {
      assert sel[k] in data;
    }
  }

  /** Entries that were current stay current when only another name's row changes. */
  lemma StaysCurrent(s: StoreState, s': StoreState, data: seq<PackageSearchResult>, name: string)
    requires forall k :: 0 <= k < |data| ==> data[k].name != name && !Newer(s, data[k])
    requires forall nm :: nm != name ==> PackageByName(s'.packages, nm) == PackageByName(s.packages, nm)
    ensures forall k :: 0 <= k < |data| ==> !Newer(s', data[k])
  {
  }

  /** The run did not panic and its tasks fit the entries `sel`, one each, in order. */
  predicate PublishedFor(run: DispatchRun, sel: seq<PackageSearchResult>) {
    && !run.panicked
    && |run.tasks| == |sel|
    && forall k :: 0 <= k < |sel| ==> TaskFits(run.tasks[k], sel[k], run.state)
  }

  /** No entry is newer than the store. */
  predicate AllCurrent(s: StoreState, data: seq<PackageSearchResult>) {
    forall k :: 0 <= k < |data| ==> !Newer(s, data[k])
  }

  /** The entries before the last carry names other than the last one's. */
  lemma LastNameFresh(pre: seq<PackageSearchResult>, d: PackageSearchResult)
    requires DistinctNames(pre + [d])
    ensures DistinctNames(pre)
    ensures forall k :: 0 <= k < |pre| ==> pre[k].name != d.name
  {
    var data := pre + [d];
    forall k | 0 <= k < |pre|
      ensures pre[k].name != d.name
    {
      assert pre[k] == data[k] && d == data[|pre|];
    }
    forall i, j | 0 <= i < j < |pre|
      ensures pre[i].name != pre[j].name
    {
      assert pre[i] == data[i] && pre[j] == data[j];
    }
  }

  /** The inductive step of `PublishIffNewer`: one more accepted entry. */
  lemma PublishExtend(s0: StoreState, pre: seq<PackageSearchResult>, d: PackageSearchResult, writeOk: nat -> bool)
    requires forall k :: 0 <= k < |pre| ==> pre[k].name != d.name
    requires PublishedFor(Dispatched(s0, pre, writeOk), Selected(s0, pre))
    requires AllCurrent(Dispatched(s0, pre, writeOk).state, pre)
    ensures PublishedFor(Step(Dispatched(s0, pre, writeOk), d, true), Selected(s0, pre + [d]))
    ensures AllCurrent(Step(Dispatched(s0, pre, writeOk), d, true).state, pre + [d])
  {
    var prev := Dispatched(s0, pre, writeOk);
    var sel := Selected(s0, pre);
    var next := Step(prev, d, true);
    SelectedOtherNames(s0, pre, d.name);
    StepFits(prev, sel, d);
    assert Selected(s0, pre + [d]) == sel + (if Newer(prev.state, d) then [d] else []) by {
      assert (pre + [d])[..|pre|] == pre;
      DispatchKeepsOtherNames(s0, pre, writeOk, d.name);
    }
    StaysCurrent(prev.state, next.state, pre, d.name);
    forall k | 0 <= k < |pre| + 1
      ensures !Newer(next.state, (pre + [d])[k])
    {
      if k < |pre| {
        assert (pre + [d])[k] == pre[k];
      }
    }
  }

  /** With distinct names and every write accepted, a pass never panics and
      publishes one task per entry newer than the store, in fetched order, and
      afterwards no entry is newer than the store. */
  lemma {:induction false} PublishIffNewer(s0: StoreState, data: seq<PackageSearchResult>, writeOk: nat -> bool)
    requires DistinctNames(data)
    requires forall k :: 0 <= k < |data| ==> writeOk(k)
    ensures PublishedFor(Dispatched(s0, data, writeOk), Selected(s0, data))
    ensures AllCurrent(Dispatched(s0, data, writeOk).state, data)
    decreases |data|
  {
    if data != [] {
      var n := |data|;
      var pre := data[..n - 1];
      assert pre + [data[n - 1]] == data;
      LastNameFresh(pre, data[n - 1]);
      PublishIffNewer(s0, pre, writeOk);
      PublishExtend(s0, pre, data[n - 1], writeOk);
      assert Dispatched(s0, data, writeOk) == Step(Dispatched(s0, pre, writeOk), data[n - 1], true);
    }
  }

  /** Every entry named `n` is current in `s`. */
  predicate CurrentUnder(s: StoreState, data: seq<PackageSearchResult>, n: string) {
    forall k :: 0 <= k < |data| && data[k].name == n ==> !Newer(s, data[k])
  }

  /** No task carries the name `n`. */
  predicate NoTaskNamed(tasks: seq<BuildTask>, n: string) {
    forall i :: 0 <= i < |tasks| ==> tasks[i].name != n
  }

  /** One step, whatever its write does, publishes no task under a name whose
      stored row it finds current, and leaves that name's row as it was. */
  lemma StepSparesCurrentName(prev: DispatchRun, d: PackageSearchResult, writeOk: bool, n: string)
    requires NoTaskNamed(prev.tasks, n)
    requires d.name == n ==> !Newer(prev.state, d)
    ensures NoTaskNamed(Step(prev, d, writeOk).tasks, n)
    ensures PackageByName(Step(prev, d, writeOk).state.packages, n) == PackageByName(prev.state.packages, n)
  {
    if !prev.panicked {
      if d.name != n {
        UpsertKeepsOtherNames(prev.state, d, writeOk, n);
      } else {
        assert Decide(prev.state.packages, d).Keep?;
      }
    }
  }

  /** Whatever the configuration repeats and whatever the writes do, a name
      all of whose entries are current gets no task, and its stored row stays
      as it was: `update_metadata` reports no change for such an entry. */
  lemma {:induction false} NoTaskForCurrent(s0: StoreState, data: seq<PackageSearchResult>, writeOk: nat -> bool, n: string)
    requires CurrentUnder(s0, data, n)
    ensures NoTaskNamed(Dispatched(s0, data, writeOk).tasks, n)
    ensures PackageByName(Dispatched(s0, data, writeOk).state.packages, n) == PackageByName(s0.packages, n)
    decreases |data|
  {
    if data != [] {
      var m := |data|;
      var pre := data[..m - 1];
      var d := data[m - 1];
      assert CurrentUnder(s0, pre, n) by {
        forall k | 0 <= k < |pre| && pre[k].name == n
          ensures !Newer(s0, pre[k])
        {
          assert pre[k] == data[k];
        }
      }
      assert d.name == n ==> !Newer(s0, d);
      NoTaskForCurrent(s0, pre, writeOk, n);
      var prev := Dispatched(s0, pre, writeOk);
      assert Dispatched(s0, data, writeOk) == Step(prev, d, writeOk(m - 1));
      StepSparesCurrentName(prev, d, writeOk(m - 1), n);
    }
  }

  /** Running the same entries against a store none of them is newer than
      changes nothing and publishes nothing, whatever the writes do. */
  lemma {:induction false} QuietWhenCurrent(s: StoreState, data: seq<PackageSearchResult>, writeOk: nat -> bool)
    requires forall k :: 0 <= k < |data| ==> !Newer(s, data[k])
    ensures Dispatched(s, data, writeOk) == DispatchRun(s, [], false)
    decreases |data|
  {
    if data != [] {
      QuietWhenCurrent(s, data[..|data| - 1], writeOk);
    }
  }

  /** One accepted step leaves its own entry current, and every entry that was
      current stays current, also one with the same name: an overwrite only
      moves the stored timestamp forward. */
  lemma StepKeepsCurrent(prev: DispatchRun, pre: seq<PackageSearchResult>, d: PackageSearchResult)
    requires !prev.panicked && AllCurrent(prev.state, pre)
    ensures !Step(prev, d, true).panicked
    ensures AllCurrent(Step(prev, d, true).state, pre + [d])
  {
    var next := Step(prev, d, true);
    var dec := Decide(prev.state.packages, d);
    UpsertFindsOwnRow(prev.state, d);
    assert !Newer(next.state, d);
    forall k | 0 <= k < |pre|
      ensures !Newer(next.state, pre[k])
    {
      if pre[k].name != d.name {
        UpsertKeepsOtherNames(prev.state, d, true, pre[k].name);
      } else if dec.Overwrite? {
        assert prev.state.packages[dec.index] == PackageByName(prev.state.packages, d.name).value;
      }
    }
    forall k | 0 <= k < |pre| + 1
      ensures !Newer(next.state, (pre + [d])[k])
    {
      if k < |pre| {
        assert (pre + [d])[k] == pre[k];
      }
    }
  }

  /** A pass whose writes are all accepted never panics and leaves no entry
      newer than the store, whether or not names repeat. */
  lemma {:induction false} AllCurrentAfterPass(s0: StoreState, data: seq<PackageSearchResult>, writeOk: nat -> bool)
    requires forall k :: 0 <= k < |data| ==> writeOk(k)
    ensures !Dispatched(s0, data, writeOk).panicked
    ensures AllCurrent(Dispatched(s0, data, writeOk).state, data)
    decreases |data|
  {
    if data != [] {
      var n := |data|;
      var pre := data[..n - 1];
      assert pre + [data[n - 1]] == data;
      AllCurrentAfterPass(s0, pre, writeOk);
      StepKeepsCurrent(Dispatched(s0, pre, writeOk), pre, data[n - 1]);
    }
  }

  /** A second pass over unchanged upstream data publishes nothing and changes
      nothing, provided the first pass's writes were all accepted. */
  lemma RepeatedPassIsQuiet(s0: StoreState, data: seq<PackageSearchResult>, first: nat -> bool, second: nat -> bool)
    requires forall k :: 0 <= k < |data| ==> first(k)
    ensures var after := Dispatched(s0, data, first).state;
      Dispatched(after, data, second) == DispatchRun(after, [], false)
  {
    AllCurrentAfterPass(s0, data, first);
    QuietWhenCurrent(Dispatched(s0, data, first).state, data, second);
  }

  /** An insert the database refuses leaves nothing to re-read, so the
      `unwrap` of the lookup panics the pass. */
  lemma FailedInsertPanics(run: DispatchRun, d: PackageSearchResult)
    requires !run.panicked
    requires PackageByName(run.state.packages, d.name).None?
    ensures Step(run, d, false) == DispatchRun(run.state, run.tasks, true)
  {
  }

  /** An overwrite the database refuses still publishes a task, built from the
      stale stored row and the fetched version. */
  lemma FailedOverwritePublishesStaleRow(run: DispatchRun, d: PackageSearchResult, row: PackageRow)
    requires !run.panicked
    requires PackageByName(run.state.packages, d.name) == Some(row)
    requires row.lastModified < d.lastModified
    ensures Step(run, d, false) == DispatchRun(run.state, run.tasks + [TaskFor(row, d)], false)
  {
  }
}

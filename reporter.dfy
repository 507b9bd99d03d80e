/** The server's result reporter (server/src/setup_rabbit_mq.rs): declare the
    three queues, consume `build_results`, and for each delivery in arrival
    order save the result, forward the same value to `notifications`, then
    acknowledge. Any failure on the way panics the consumer task, which then
    handles nothing more. */
module Reporter {
  import opened Types
  import opened Broker
  import opened Database

  /** The broker set-up before the first result is handled. */
  function Setup(): seq<BrokerEvent> {
    [DeclareQueue(PkgBuildQueue), DeclareQueue(NotificationsQueue), DeclareQueue(BuildResultsQueue),
     ConsumeFrom(BuildResultsQueue)]
  }

  /** The store, the broker events so far, and whether the consumer panicked. */
  datatype Run = Run(state: StoreState, events: seq<BrokerEvent>, crashed: bool)

  /** One delivery: decode, save (unwrapped), forward, acknowledge. */
  function Report(run: Run, d: Delivery<BuildResult>, writeOk: bool): Run {
    if run.crashed then run
    else
      match d.payload
      case Undecodable => run.(crashed := true)
      case Decoded(res) =>
        var saved := SaveResult(run.state, res, writeOk);
        if saved.outcome != Written then Run(saved.state, run.events, true)
        else Run(saved.state, run.events + [PublishResult(NotificationsQueue, res), Ack(d.tag)], false)
  }

  /** The deliveries in order from store `s0`, the k-th insert accepted iff `writeOk(k)`. */
  function Reported(s0: StoreState, ds: seq<Delivery<BuildResult>>, writeOk: nat -> bool): Run
    decreases |ds|
  {
    if ds == [] then Run(s0, [], false)
    else Report(Reported(s0, ds[..|ds| - 1], writeOk), ds[|ds| - 1], writeOk(|ds| - 1))
  }

  /** One more delivery is one more step. */
  lemma ReportedNext(s0: StoreState, ds: seq<Delivery<BuildResult>>, writeOk: nat -> bool, k: nat)
    requires k < |ds|
    ensures Reported(s0, ds[..k + 1], writeOk) == Report(Reported(s0, ds[..k], writeOk), ds[k], writeOk(k))
  {
    assert ds[..k + 1][..k] == ds[..k];
  }

  /** After a panic nothing further happens. */
  lemma {:induction false} CrashIsFinal(s0: StoreState, ds: seq<Delivery<BuildResult>>, writeOk: nat -> bool, k: nat)
    requires k <= |ds| && Reported(s0, ds[..k], writeOk).crashed
    ensures Reported(s0, ds, writeOk) == Reported(s0, ds[..k], writeOk)
    decreases |ds|
  {
    if k < |ds| {
      assert ds[..|ds| - 1][..k] == ds[..k];
      CrashIsFinal(s0, ds[..|ds| - 1], writeOk, k);
    } else {
      assert ds[..k] == ds;
    }
  }

  /** The body of the consumer loop for one delivery. */
  method ReportEntry(store: Store, d: Delivery<BuildResult>, writeOk: bool, events: seq<BrokerEvent>, ghost run: Run)
    returns (events': seq<BrokerEvent>, crashed: bool)
    requires store.Valid()
    requires run == Run(store.State(), events, false)
    modifies store
    ensures store.Valid()
    ensures Report(run, d, writeOk) == Run(store.State(), events', crashed)
  {
    events' := events;
    crashed := false;
    match d.payload {
      case Undecodable =>
        crashed := true;
      case Decoded(res) =>
        var outcome := store.SaveBuildResults(res, writeOk);
        if outcome != Written {
          crashed := true;
        } else {
          events' := events' + [PublishResult(NotificationsQueue, res)];
          events' := events' + [Ack(d.tag)];
        }
    }
  }

  /** The spawned consumer of `setup_rabbitmq`. */
  method Consume(store: Store, ds: seq<Delivery<BuildResult>>, writeOk: nat -> bool)
    returns (events: seq<BrokerEvent>, crashed: bool)
    requires store.Valid()
    modifies store
    ensures store.Valid()
    ensures store.State() == Reported(old(store.State()), ds, writeOk).state
    ensures events == Setup() + Reported(old(store.State()), ds, writeOk).events
    ensures crashed == Reported(old(store.State()), ds, writeOk).crashed
  {
    events := Setup();
    crashed := false;
    ghost var s0 := store.State();
    ghost var run := Run(s0, [], false);
    var handled: seq<BrokerEvent> := [];
    var k := 0;
    while k < |ds|
      invariant 0 <= k <= |ds|
      invariant run == Reported(s0, ds[..k], writeOk)
      invariant store.Valid()
      invariant store.State() == run.state && handled == run.events && !run.crashed
      invariant events == Setup() + handled
    {
      ReportedNext(s0, ds, writeOk, k);
      handled, crashed := ReportEntry(store, ds[k], writeOk(k), handled, run);
      run := Report(run, ds[k], writeOk(k));
      events := Setup() + handled;
      if crashed {
        CrashIsFinal(s0, ds, writeOk, k + 1);
        return;
      }
      k := k + 1;
    }
    assert ds[..k] == ds;
  }

  // ---------------------------------------------------------------------
  // Properties

  /** The reporter never changes a package row. */
  lemma {:induction false} PackagesUntouched(s0: StoreState, ds: seq<Delivery<BuildResult>>, writeOk: nat -> bool)
    ensures Reported(s0, ds, writeOk).state.packages == s0.packages
    decreases |ds|
  {
    if ds != [] {
      var prev := Reported(s0, ds[..|ds| - 1], writeOk);
      PackagesUntouched(s0, ds[..|ds| - 1], writeOk);
      match ds[|ds| - 1].payload {
        case Undecodable =>
        case Decoded(res) => SaveOnlyAppends(prev.state, res, writeOk(|ds| - 1));
      }
    }
  }

  /** What the first `m` deliveries became: each was decoded, saved as the
      next record, forwarded with the very value decoded, then acknowledged. */
  ghost predicate Handled(s0: StoreState, ds: seq<Delivery<BuildResult>>, run: Run, m: nat) {
    && m <= |ds|
    && |run.events| == 2 * m
    && |run.state.records| == |s0.records| + m
    && run.state.records[..|s0.records|] == s0.records
    && forall i :: 0 <= i < m ==>
         && ds[i].payload.Decoded?
         && run.events[2 * i] == PublishResult(NotificationsQueue, ds[i].payload.value)
         && run.events[2 * i + 1] == Ack(ds[i].tag)
         && run.state.records[|s0.records| + i] == RecordFor(run.state.records[|s0.records| + i].id, ds[i].payload.value)
  }

  /** What was handled of a prefix was handled of the whole list. */
  lemma HandledPrefix(s0: StoreState, ds: seq<Delivery<BuildResult>>, n: nat, run: Run, m: nat)
    requires n <= |ds| && Handled(s0, ds[..n], run, m)
    ensures Handled(s0, ds, run, m)
  {
    assert forall i :: 0 <= i < m ==> ds[..n][i] == ds[i];
  }

  /** Saving and forwarding the next delivery extends what was handled by one. */
  lemma HandledExtend(s0: StoreState, ds: seq<Delivery<BuildResult>>, prev: Run, m: nat, writeOk: bool)
    requires Handled(s0, ds, prev, m) && m < |ds| && !prev.crashed
    requires ds[m].payload.Decoded?
    requires SaveResult(prev.state, ds[m].payload.value, writeOk).outcome == Written
    ensures Handled(s0, ds, Report(prev, ds[m], writeOk), m + 1)
  {
    var res := ds[m].payload.value;
    var run := Report(prev, ds[m], writeOk);
    var base := |s0.records|;
    assert run.events == prev.events + [PublishResult(NotificationsQueue, res), Ack(ds[m].tag)];
    assert run.state.records == prev.state.records + [RecordFor(prev.state.nextRecordId, res)];
    forall i | 0 <= i < m + 1
      ensures run.events[2 * i] == PublishResult(NotificationsQueue, ds[i].payload.value)
      ensures run.events[2 * i + 1] == Ack(ds[i].tag)
      ensures run.state.records[base + i] == RecordFor(run.state.records[base + i].id, ds[i].payload.value)
    {
      if i < m {
        assert run.events[2 * i] == prev.events[2 * i];
        assert run.events[2 * i + 1] == prev.events[2 * i + 1];
        assert run.state.records[base + i] == prev.state.records[base + i];
      }
    }
    assert run.state.records[..base] == prev.state.records[..base];
  }

  /** The reporter handles a prefix of the deliveries completely, in order; if it
      stops early, the delivery it stopped at was undecodable or failed to save. */
  lemma {:induction false} ReportedShape(s0: StoreState, ds: seq<Delivery<BuildResult>>, writeOk: nat -> bool)
    ensures var run := Reported(s0, ds, writeOk);
      var m := |run.events| / 2;
      && Handled(s0, ds, run, m)
      && (!run.crashed ==> m == |ds|)
      && (run.crashed ==>
            && m < |ds|
            && (ds[m].payload.Undecodable? ||
                SaveResult(Reported(s0, ds[..m], writeOk).state, ds[m].payload.value, writeOk(m)).outcome != Written))
    decreases |ds|
  {
    if ds == [] {
      assert Handled(s0, ds, Run(s0, [], false), 0);
    } else {
      var n := |ds|;
      var pre := ds[..n - 1];
      var prev := Reported(s0, pre, writeOk);
      ReportedShape(s0, pre, writeOk);
      var m := |prev.events| / 2;
      HandledPrefix(s0, ds, n - 1, prev, m);
      ReportedNext(s0, ds, writeOk, n - 1);
      assert ds[..n] == ds;
      if prev.crashed {
        assert ds[..m] == pre[..m];
        assert ds[m] == pre[m];
      } else {
        assert m == n - 1 && ds[..m] == pre;
        if ds[n - 1].payload.Decoded? &&
           SaveResult(prev.state, ds[n - 1].payload.value, writeOk(n - 1)).outcome == Written {
          HandledExtend(s0, ds, prev, m, writeOk(n - 1));
        } else if ds[n - 1].payload.Decoded? {
          SaveOnlyAppends(prev.state, ds[n - 1].payload.value, writeOk(n - 1));
        }
      }
    }
  }

  /** With distinct tags, a delivery is acknowledged once if it was handled and
      never otherwise: a failed save or decode leaves it unacknowledged. */
  lemma AckedIffHandled(s0: StoreState, ds: seq<Delivery<BuildResult>>, writeOk: nat -> bool, j: nat)
    requires DistinctTags(ds)
    requires j < |ds|
    ensures var run := Reported(s0, ds, writeOk);
      CountSettles(run.events, ds[j].tag) == if j < |run.events| / 2 then 1 else 0
  {
    ReportedShape(s0, ds, writeOk);
    var run := Reported(s0, ds, writeOk);
    var m := |run.events| / 2;
    CountPairs(run.events, ds, m, j);
  }

  /** Counting the settlements of one tag in a sequence of forward/ack pairs. */
  lemma {:induction false} CountPairs(events: seq<BrokerEvent>, ds: seq<Delivery<BuildResult>>, m: nat, j: nat)
    requires DistinctTags(ds)
    requires j < |ds| && m <= |ds| && |events| == 2 * m
    requires forall i :: 0 <= i < m ==> events[2 * i].PublishResult? && events[2 * i + 1] == Ack(ds[i].tag)
    ensures CountSettles(events, ds[j].tag) == if j < m then 1 else 0
    decreases m
  {
    if m > 0 {
      var front := events[..2 * (m - 1)];
      var publish := events[2 * (m - 1)];
      var ack := events[2 * m - 1];
      assert events == front + [publish, ack];
      assert forall i :: 0 <= i < m - 1 ==> front[2 * i] == events[2 * i] && front[2 * i + 1] == events[2 * i + 1];
      CountPairs(front, ds, m - 1, j);
      CountTwoMore(front, publish, ack, ds[j].tag);
      assert ack == Ack(ds[m - 1].tag);
      assert Settles(ack, ds[j].tag) <==> j == m - 1;
    }
  }

  /** Two more events add their own settlements. */
  lemma CountTwoMore(front: seq<BrokerEvent>, a: BrokerEvent, b: BrokerEvent, tag: nat)
    ensures CountSettles(front + [a, b], tag)
      == CountSettles(front, tag) + (if Settles(a, tag) then 1 else 0) + (if Settles(b, tag) then 1 else 0)
  {
    var e := front + [a, b];
    assert e[..|e| - 1] == front + [a];
    assert (front + [a])[..|front|] == front;
  }

  /** A result for a package id the store does not hold panics the consumer:
      nothing is saved, forwarded or acknowledged. */
  lemma MissingPackageCrashes(s0: StoreState, tag: nat, res: BuildResult, writeOk: nat -> bool)
    requires IndexOfId(s0.packages, res.task.id).None?
    ensures Reported(s0, [Delivery(tag, Decoded(res))], writeOk) == Run(s0, [], true)
  {
    assert [Delivery(tag, Decoded(res))][..0] == [];
  }

  /** Two deliveries are handled one after the other. */
  lemma ReportedTwo(s0: StoreState, ds: seq<Delivery<BuildResult>>, writeOk: nat -> bool)
    requires |ds| == 2
    ensures Reported(s0, ds, writeOk) == Report(Report(Run(s0, [], false), ds[0], writeOk(0)), ds[1], writeOk(1))
  {
    assert ds[..1][..0] == [] && ds[..1][0] == ds[0];
    assert Reported(s0, ds[..1], writeOk) == Report(Run(s0, [], false), ds[0], writeOk(0));
  }

  /** A decoded result for a known package whose insert is accepted is saved,
      forwarded and acknowledged. */
  lemma ReportSaved(run: Run, tag: nat, res: BuildResult)
    requires !run.crashed && IndexOfId(run.state.packages, res.task.id).Some?
    ensures Report(run, Delivery(tag, Decoded(res)), true)
      == Run(run.state.(records := run.state.records + [RecordFor(run.state.nextRecordId, res)],
                        nextRecordId := run.state.nextRecordId + 1),
             run.events + [PublishResult(NotificationsQueue, res), Ack(tag)], false)
  {
  }

  /** The same result delivered twice is saved twice and forwarded twice: the
      reporter does not deduplicate. */
  lemma ReplayDuplicates(s0: StoreState, ds: seq<Delivery<BuildResult>>, t1: nat, t2: nat, res: BuildResult, writeOk: nat -> bool)
    requires ds == [Delivery(t1, Decoded(res)), Delivery(t2, Decoded(res))]
    requires IndexOfId(s0.packages, res.task.id).Some?
    requires writeOk(0) && writeOk(1)
    ensures var run := Reported(s0, ds, writeOk);
      && !run.crashed
      && run.events == [PublishResult(NotificationsQueue, res), Ack(t1), PublishResult(NotificationsQueue, res), Ack(t2)]
      && run.state.records == s0.records + [RecordFor(s0.nextRecordId, res), RecordFor(s0.nextRecordId + 1, res)]
  {
    var forward := PublishResult(NotificationsQueue, res);
    var a := RecordFor(s0.nextRecordId, res);
    var b := RecordFor(s0.nextRecordId + 1, res);
    var s1 := s0.(records := s0.records + [a], nextRecordId := s0.nextRecordId + 1);
    var s2 := s0.(records := s0.records + [a, b], nextRecordId := s0.nextRecordId + 2);
    assert Reported(s0, ds, writeOk) == Run(s2, [forward, Ack(t1), forward, Ack(t2)], false) by {
      var r0 := Run(s0, [], false);
      var r1 := Run(s1, [forward, Ack(t1)], false);
      ReportedTwo(s0, ds, writeOk);
      ReportSaved(r0, t1, res);
      assert Report(r0, ds[0], writeOk(0)) == r1;
      ReportSaved(r1, t2, res);
      assert (s0.records + [a]) + [b] == s0.records + [a, b];
    }
  }
}

/** The broker as the pipeline sees it: queues, deliveries and the ordered
    interactions a consumer or producer performs on it. Payloads are the
    decoded values; the JSON text on the wire is not modelled. */
module Broker {
  import opened Types

  const PkgBuildQueue: string := "pkg_build"
  const BuildResultsQueue: string := "build_results"
  const NotificationsQueue: string := "notifications"

  /** A delivery's body: the decoded value, or bytes that are not UTF-8 or not
      the expected JSON (on which every consumer of the source panics). */
  datatype Payload<T> = Decoded(value: T) | Undecodable

  datatype Delivery<T> = Delivery(tag: nat, payload: Payload<T>)

  /** One interaction with the broker, in the order it is performed. */
  datatype BrokerEvent =
    | SetPrefetch(count: nat)
    | DeclareQueue(queue: string)
    | ConsumeFrom(queue: string)
    | Ack(tag: nat)
    | Nack(tag: nat)
    | PublishResult(queue: string, result: BuildResult)

  /** Whether an event acknowledges or rejects the delivery with this tag. */
  predicate Settles(e: BrokerEvent, tag: nat) {
    e == Ack(tag) || e == Nack(tag)
  }

  /** How many events settle the delivery with this tag. */
  function CountSettles(events: seq<BrokerEvent>, tag: nat): nat
    decreases |events|
  {
    if events == [] then 0
    else CountSettles(events[..|events| - 1], tag) + (if Settles(events[|events| - 1], tag) then 1 else 0)
  }

  lemma {:induction false} CountSettlesAppend(a: seq<BrokerEvent>, b: seq<BrokerEvent>, tag: nat)
    ensures CountSettles(a + b, tag) == CountSettles(a, tag) + CountSettles(b, tag)
    decreases |b|
  {
    if b == [] {
      assert a + b == a;
    } else {
      assert (a + b)[..|a + b| - 1] == a + b[..|b| - 1];
      CountSettlesAppend(a, b[..|b| - 1], tag);
    }
  }

  /** Delivery tags are distinct on a channel. */
  ghost predicate DistinctTags<T>(ds: seq<Delivery<T>>) {
    forall i, j :: 0 <= i < j < |ds| ==> ds[i].tag != ds[j].tag
  }
}

/** Values shared by the whole pipeline: resources, events and the two clock resolutions. */
module Model {
  datatype Option<+T> = None | Some(value: T)

  datatype State = OK | Warning | Critical | Unknown

  datatype Action = Upsert | Delete | Reconcile | Heartbeat

  /** The stable identity is an injective hash of cluster and uid, so it is the pair itself. */
  datatype ResourceId = StableId(cluster: string, uid: string)

  datatype ShardKey = ShardKey(cluster: string, shard: string)

  /** What the notification decision calls the relations of a resource. */
  datatype Relations = Relations(group: string, version: string, kind: string, namespace: string, name: string,
                                 labels: map<string, string>)

  /** The summary fields that event recovery reads; every other field is part of `rest`.
      An occurrence that is absent or does not parse as a timestamp is None. */
  datatype Summary = Summary(regardingUid: Option<string>, involvedUid: Option<string>,
                             lastTimestamp: Option<int>, eventTime: Option<int>,
                             seriesLastObserved: Option<int>, deprecatedLast: Option<int>,
                             lifecycle: Option<string>, rest: int)

  /** observedAt is in nanoseconds, as the collector sends it; deletedAt in microseconds, as it is stored.
      body stands for annotations, owners and conditions. */
  datatype Resource = Resource(cluster: string, uid: string, relations: Relations, resourceVersion: string,
                               body: int, summary: Summary, state: State, reason: string,
                               observedAt: int, deletedAt: Option<int>)
  {
    function Id(): ResourceId {
      StableId(cluster, uid)
    }
  }

  /** readable says whether the stored payload can be decoded again by the worker, size is the length of its
      encoding. */
  datatype IngestEvent = IngestEvent(eventId: nat, action: Action, resource: Resource, readable: bool, size: nat)

  datatype IngestBatch = IngestBatch(cluster: string, shard: string, events: seq<IngestEvent>)
  {
    function Key(): ShardKey {
      ShardKey(cluster, shard)
    }

    /** The part of batch validation the pipeline relies on. */
    predicate Validate() {
      && 1 <= |cluster| <= 253
      && 1 <= |shard| <= 512
      && 1 <= |events| <= 1000
      && forall i :: 0 <= i < |events| ==> events[i].resource.cluster == cluster && 1 <= |events[i].resource.uid| <= 512
    }
  }

  const NANOS_PER_MICRO := 1000

  const MICROS_PER_SECOND := 1_000_000

  /** Rounding to the microsecond resolution of the database: nearest, halves up. */
  function RoundToMicros(nanos: int): (micros: int)
    ensures -500 <= micros * NANOS_PER_MICRO - nanos <= 500
  {
    (nanos + 500) / NANOS_PER_MICRO
  }

  lemma {:induction false} RoundingIsMonotone(a: int, b: int)
    requires a <= b
    ensures RoundToMicros(a) <= RoundToMicros(b)
  {}

  /** n / d rounded up. */
  function CeilDiv(n: nat, d: nat): (q: nat)
    requires d > 0
    ensures (q - 1) * d < n <= q * d || (n == 0 && q == 0)
    decreases n
  {
    if n == 0 then 0 else if n <= d then 1 else 1 + CeilDiv(n - d, d)
  }

  function LowerChar(c: char): char {
    if 'A' <= c <= 'Z' then c - 'A' + 'a' else c
  }

  /** lower() for the letters that names and kinds consist of. */
  function Lower(s: string): string {
    if s == "" then "" else [LowerChar(s[0])] + Lower(s[1..])
  }
}

/** The normalized inventory: what one ingest event does to the resource table, the shard watermarks and the
    notification outbox. Outbox rows are kept in id order, the id being the position; like the inbox, a row that
    retention deletes is marked `pruned` and seen by no query. */
module Inventory {
  import opened Model
  import opened Seqs
  import opened EventRecovery
  import Inbox

  datatype Row = Row(resource: Resource, shard: string, observedAt: int, deletedAt: Option<int>)
  {
    predicate Live() {
      deletedAt.None?
    }

    function Key(): ShardKey {
      ShardKey(resource.cluster, shard)
    }
  }

  datatype Note = Note(id: ResourceId, relations: Relations, state: State, reason: string, action: Action)

  datatype Claim = Claim(holder: string, until: int)

  datatype OutRow = OutRow(note: Note, availableAt: int, claim: Option<Claim>, attempts: nat,
                           deliveredAt: Option<int>, pruned: bool)

  /** order lists the ids of `rows` as the table was filled. */
  datatype Stock = Stock(heads: map<ShardKey, Inbox.Head>, rows: map<ResourceId, Row>, order: seq<ResourceId>,
                         outbox: seq<OutRow>)

  predicate IsLive(s: Stock, id: ResourceId) {
    id in s.rows && s.rows[id].Live()
  }

  function Watermark(heads: map<ShardKey, Inbox.Head>, key: ShardKey): Option<int> {
    Inbox.HeadOf(heads, key).reconciledAt
  }

  /** at is older than the newest reconcile cutoff of the shard. */
  predicate Before(at: int, watermark: Option<int>) {
    watermark.Some? && at < watermark.value
  }

  function Queue(outbox: seq<OutRow>, note: Note, now: int): seq<OutRow> {
    outbox + [OutRow(note, now, None, 0, None, false)]
  }

  function NoteFor(r: Resource, action: Action): Note {
    Note(r.Id(), r.relations, r.state, r.reason, action)
  }

  /* ---------- reconcile markers ---------- */

  predicate Unseen(row: Row, key: ShardKey, cutoff: int) {
    row.Live() && row.Key() == key && row.observedAt < cutoff
  }

  function Tombstone(row: Row, key: ShardKey, cutoff: int, now: int): Row {
    if Unseen(row, key, cutoff) then row.(deletedAt := Some(now), observedAt := cutoff) else row
  }

  /** One delete note for every removed resource that was not ok. */
  function QueueRemoved(outbox: seq<OutRow>, rows: map<ResourceId, Row>, order: seq<ResourceId>, key: ShardKey,
                        cutoff: int, now: int): seq<OutRow>
    decreases order
  {
    if order == [] then outbox
    else
      var id := order[0];
      var rest := if id in rows && Unseen(rows[id], key, cutoff) && rows[id].resource.state != OK
                  then Queue(outbox, NoteFor(rows[id].resource, Delete), now) else outbox;
      QueueRemoved(rest, rows, order[1..], key, cutoff, now)
  }

  function Later(known: Option<int>, at: int): Option<int> {
    if known.Some? && at < known.value then known else Some(at)
  }

  function ReconcileShard(s: Stock, key: ShardKey, cutoff: int, now: int): Stock {
    var head := Inbox.HeadOf(s.heads, key);
    Stock(s.heads[key := head.(reconciledAt := Later(head.reconciledAt, cutoff))],
          map id | id in s.rows :: Tombstone(s.rows[id], key, cutoff, now),
          s.order,
          QueueRemoved(s.outbox, s.rows, s.order, key, cutoff, now))
  }

  /* ---------- upserts and deletes ---------- */

  predicate ResolvedAt(rows: map<ResourceId, Row>, id: ResourceId, version: string) {
    && id in rows && rows[id].Live()
    && rows[id].resource.resourceVersion == version
    && rows[id].resource.state == OK
    && (rows[id].resource.summary.lifecycle == Some("resolved")
        || rows[id].resource.summary.lifecycle == Some("inactive"))
  }

  /** The recovery reason of a warning event at write time; "" keeps it a problem. */
  function WriteReason(rows: map<ResourceId, Row>, r: Resource, now: int): string {
    var known := if ResolvedAt(rows, r.Id(), r.resourceVersion) then rows[r.Id()].resource.reason else "";
    var reason := if known != "" then known else Inactivity(r.summary, now * NANOS_PER_MICRO);
    var about := StableId(r.cluster, Reference(r.summary));
    if reason != "" then reason
    else if Reference(r.summary) != "" && about in rows
              && rows[about].resource.relations.namespace == r.relations.namespace
    then Recovery(r.summary, rows[about].resource.state, rows[about].resource.relations.kind,
                  rows[about].observedAt * NANOS_PER_MICRO, !rows[about].Live(), now * NANOS_PER_MICRO)
    else ""
  }

  function Resolved(r: Resource, reason: string): Resource {
    r.(state := OK, reason := reason, summary := r.summary.(lifecycle := Some(Lifecycle(reason))))
  }

  function ResolveEvent(rows: map<ResourceId, Row>, r: Resource, now: int): Resource {
    if WarningEvent(r) && WriteReason(rows, r, now) != "" then Resolved(r, WriteReason(rows, r, now)) else r
  }

  predicate ShouldNotify(rows: map<ResourceId, Row>, action: Action, r: Resource) {
    var id := r.Id();
    if action == Delete then id in rows && rows[id].Live() && rows[id].resource.state != OK
    else if id !in rows || !rows[id].Live() then r.state != OK
    else
      || rows[id].resource.state != r.state
      || (r.state != OK && (rows[id].resource.reason != r.reason || rows[id].resource.relations != r.relations))
  }

  function Write(s: Stock, shard: string, action: Action, r: Resource, at: int, now: int): Stock {
    var id := r.Id();
    if id in s.rows && at < s.rows[id].observedAt then s
    else
      var deletedAt := if action == Delete && r.deletedAt.None? then Some(now) else r.deletedAt;
      Stock(s.heads,
            s.rows[id := Row(r, shard, at, deletedAt)],
            if id in s.rows then s.order else s.order + [id],
            if ShouldNotify(s.rows, action, r) then Queue(s.outbox, NoteFor(r, action), now) else s.outbox)
  }

  function ApplyResource(s: Stock, shard: string, action: Action, r: Resource, now: int): Stock {
    var at := RoundToMicros(r.observedAt);
    var key := ShardKey(r.cluster, shard);
    if action == Heartbeat || Before(at, Watermark(s.heads, key)) then s
    else if action == Reconcile then ReconcileShard(s, key, at, now)
    else Write(s, shard, action, if action == Upsert then ResolveEvent(s.rows, r, now) else r, at, now)
  }

  /* ---------- the periodic recovery pass ---------- */

  predicate OpenEvent(row: Row) {
    WarningEvent(row.resource) && row.Live()
  }

  /** The reason the recovery pass finds for a stored event; "" leaves it open. */
  function PassReason(rows: map<ResourceId, Row>, row: Row, now: int): string {
    var s := row.resource.summary;
    var about := StableId(row.resource.cluster, CoalescedReference(s));
    if (s.regardingUid.Some? || s.involvedUid.Some?) && about in rows
       && rows[about].resource.relations.namespace == row.resource.relations.namespace
    then Recovery(s, rows[about].resource.state, rows[about].resource.relations.kind,
                  rows[about].observedAt * NANOS_PER_MICRO, !rows[about].Live(), now * NANOS_PER_MICRO)
    else Recovery(s, Unknown, "", 0, false, now * NANOS_PER_MICRO)
  }

  predicate Recovers(rows: map<ResourceId, Row>, id: ResourceId, locked: set<ResourceId>, now: int) {
    id in rows && id !in locked && OpenEvent(rows[id]) && PassReason(rows, rows[id], now) != ""
  }

  function QueueRecovered(outbox: seq<OutRow>, rows: map<ResourceId, Row>, order: seq<ResourceId>,
                          locked: set<ResourceId>, now: int): seq<OutRow>
    decreases order
  {
    if order == [] then outbox
    else
      var id := order[0];
      var rest := if Recovers(rows, id, locked, now)
                  then Queue(outbox, NoteFor(Resolved(rows[id].resource, PassReason(rows, rows[id], now)), Upsert), now)
                  else outbox;
      QueueRecovered(rest, rows, order[1..], locked, now)
  }

  function ResolveRow(rows: map<ResourceId, Row>, id: ResourceId, locked: set<ResourceId>, now: int): Row
    requires id in rows
  {
    if Recovers(rows, id, locked, now)
    then rows[id].(resource := Resolved(rows[id].resource, PassReason(rows, rows[id], now)))
    else rows[id]
  }

  function ResolveEvents(s: Stock, locked: set<ResourceId>, now: int): Stock {
    s.(rows := map id | id in s.rows :: ResolveRow(s.rows, id, locked, now),
       outbox := QueueRecovered(s.outbox, s.rows, s.order, locked, now))
  }

  /* ---------- retention ---------- */

  /** Rows the short event retention applies to. */
  predicate EventRow(r: Resource) {
    Lower(r.relations.kind) == "event" && EventGroup(r.relations.group)
  }

  predicate Expired(row: Row, eventCutoff: int, tombstoneCutoff: int) {
    || (EventRow(row.resource) && row.observedAt < eventCutoff)
    || (row.deletedAt.Some? && row.deletedAt.value < tombstoneCutoff)
  }

  function Kept(rows: map<ResourceId, Row>): ResourceId -> bool {
    (id: ResourceId) => id in rows
  }

  function PruneOut(o: OutRow, cutoff: int): OutRow {
    if o.deliveredAt.Some? && o.deliveredAt.value < cutoff then o.(pruned := true) else o
  }

  function PruneOutbox(outbox: seq<OutRow>, cutoff: int): (r: seq<OutRow>)
    ensures |r| == |outbox| && forall i :: 0 <= i < |outbox| ==> r[i] == PruneOut(outbox[i], cutoff)
  {
    seq(|outbox|, i requires 0 <= i < |outbox| => PruneOut(outbox[i], cutoff))
  }

  function Prune(s: Stock, eventCutoff: int, tombstoneCutoff: int, historyCutoff: int): Stock {
    var rows := map id | id in s.rows && !Expired(s.rows[id], eventCutoff, tombstoneCutoff) :: s.rows[id];
    Stock(Inbox.PruneHeads(s.heads, historyCutoff), rows, Filter(Kept(rows), s.order),
          PruneOutbox(s.outbox, historyCutoff))
  }

  /** Every stored row is listed once, under its own identity. */
  ghost predicate WellFormed(s: Stock) {
    && Distinct(s.order)
    && (forall id :: id in s.order <==> id in s.rows)
    && (forall id :: id in s.rows ==> s.rows[id].resource.Id() == id)
  }
}

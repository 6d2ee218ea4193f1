/** The durable inbox: ingest_event with its head index ingest_shard_head.
    The table is a sequence in insertion order. Retention does not drop a row from the sequence, it marks
    the row `pruned`: no query sees a pruned row, it only keeps the history that the properties speak of. */
module Inbox {
  import opened Model
  import opened Seqs

  datatype Row = Row(eventId: nat, key: ShardKey, action: Action, resource: Resource, readable: bool,
                     receivedAt: int, availableAt: int, attempts: nat, appliedAt: Option<int>, pruned: bool)

  datatype Head = Head(eventId: Option<nat>, pending: int, lastApplied: Option<int>, reconciledAt: Option<int>)

  const EMPTY_HEAD := Head(None, 0, None, None)

  predicate Unapplied(r: Row) {
    r.appliedAt.None? && !r.pruned
  }

  function IsPending(key: ShardKey): Row -> bool {
    (r: Row) => r.key == key && Unapplied(r)
  }

  function InShard(key: ShardKey): Row -> bool {
    (r: Row) => r.key == key
  }

  /** The unapplied rows of a shard in (received_at, event_id) order. */
  function PendingOf(inbox: seq<Row>, key: ShardKey): seq<Row> {
    Filter(IsPending(key), inbox)
  }

  function RowsOf(inbox: seq<Row>, key: ShardKey): seq<Row> {
    Filter(InShard(key), inbox)
  }

  function Ids(rows: seq<Row>): (ids: seq<nat>)
    ensures |ids| == |rows|
    ensures forall i :: 0 <= i < |rows| ==> ids[i] == rows[i].eventId
  {
    if rows == [] then [] else [rows[0].eventId] + Ids(rows[1..])
  }

  function IdSet(rows: seq<Row>): set<nat> {
    set r | r in rows :: r.eventId
  }

  /* ---------- the row updates of the transactions ---------- */

  predicate Known(inbox: seq<Row>, id: nat) {
    exists i :: 0 <= i < |inbox| && !inbox[i].pruned && inbox[i].eventId == id
  }

  /** INSERT ... ON CONFLICT (event_id) DO NOTHING for the events of one batch. */
  function InsertAll(inbox: seq<Row>, key: ShardKey, events: seq<IngestEvent>, stamps: seq<int>): seq<Row>
    requires |events| == |stamps|
    decreases events
  {
    if events == [] then inbox
    else
      var e := events[0];
      var rest := if Known(inbox, e.eventId) then inbox else inbox + [NewRow(key, e, stamps[0])];
      InsertAll(rest, key, events[1..], stamps[1..])
  }

  lemma {:induction false} InsertGrows(inbox: seq<Row>, key: ShardKey, events: seq<IngestEvent>, stamps: seq<int>)
    requires |events| == |stamps|
    ensures |inbox| <= |InsertAll(inbox, key, events, stamps)| <= |inbox| + |events|
    decreases events
  {
    if events != [] {
      var rest := if Known(inbox, events[0].eventId) then inbox else inbox + [NewRow(key, events[0], stamps[0])];
      InsertGrows(rest, key, events[1..], stamps[1..]);
    }
  }

  function NewRow(key: ShardKey, e: IngestEvent, stamp: int): Row {
    Row(e.eventId, key, e.action, e.resource, e.readable, stamp, stamp, 0, None, false)
  }

  function MarkRow(r: Row, ids: set<nat>, now: int): Row {
    if !r.pruned && r.eventId in ids then r.(appliedAt := Some(now)) else r
  }

  /** UPDATE ... SET applied_at for the completed events. */
  function MarkApplied(inbox: seq<Row>, ids: set<nat>, now: int): (r: seq<Row>)
    ensures |r| == |inbox| && forall i :: 0 <= i < |inbox| ==> r[i] == MarkRow(inbox[i], ids, now)
  {
    if inbox == [] then [] else [MarkRow(inbox[0], ids, now)] + MarkApplied(inbox[1..], ids, now)
  }

  function RetryDelay(attempts: nat): (micros: int)
    ensures MICROS_PER_SECOND <= micros <= 60 * MICROS_PER_SECOND
  {
    if attempts + 1 < 60 then (attempts + 1) * MICROS_PER_SECOND else 60 * MICROS_PER_SECOND
  }

  function BackOffRow(r: Row, id: Option<nat>, now: int): Row {
    if !r.pruned && id == Some(r.eventId)
    then r.(attempts := r.attempts + 1, availableAt := now + RetryDelay(r.attempts))
    else r
  }

  /** The failed event of a block, if there is one, becomes available again only later. */
  function BackOff(inbox: seq<Row>, id: Option<nat>, now: int): (r: seq<Row>)
    ensures |r| == |inbox| && forall i :: 0 <= i < |inbox| ==> r[i] == BackOffRow(inbox[i], id, now)
  {
    if inbox == [] then [] else [BackOffRow(inbox[0], id, now)] + BackOff(inbox[1..], id, now)
  }

  function PruneRow(r: Row, cutoff: int): Row {
    if r.appliedAt.Some? && r.appliedAt.value < cutoff then r.(pruned := true) else r
  }

  function PruneApplied(inbox: seq<Row>, cutoff: int): (r: seq<Row>)
    ensures |r| == |inbox| && forall i :: 0 <= i < |inbox| ==> r[i] == PruneRow(inbox[i], cutoff)
  {
    if inbox == [] then [] else [PruneRow(inbox[0], cutoff)] + PruneApplied(inbox[1..], cutoff)
  }

  function HeadOf(heads: map<ShardKey, Head>, key: ShardKey): Head {
    if key in heads then heads[key] else EMPTY_HEAD
  }

  function FirstPending(inbox: seq<Row>, key: ShardKey): Option<nat> {
    var p := PendingOf(inbox, key);
    if p == [] then None else Some(p[0].eventId)
  }

  /** The two head statements of Enqueue: add the inserted rows, then point to the first pending row. */
  function HeadAfterInsert(heads: map<ShardKey, Head>, key: ShardKey, inserted: nat,
                           inbox: seq<Row>): map<ShardKey, Head> {
    if inserted == 0 then heads
    else
      var h := HeadOf(heads, key);
      heads[key := h.(eventId := FirstPending(inbox, key), pending := h.pending + inserted)]
  }

  function HeadAfterApply(heads: map<ShardKey, Head>, key: ShardKey, applied: nat, inbox: seq<Row>,
                          now: int): map<ShardKey, Head> {
    if applied == 0 || key !in heads then heads
    else heads[key := heads[key].(eventId := FirstPending(inbox, key), pending := heads[key].pending - applied,
                                  lastApplied := Some(now))]
  }

  predicate ExpiredHead(h: Head, cutoff: int) {
    h.pending == 0 && h.reconciledAt.None? && h.lastApplied.Some? && h.lastApplied.value < cutoff
  }

  function PruneHeads(heads: map<ShardKey, Head>, cutoff: int): map<ShardKey, Head> {
    map k | k in heads && !ExpiredHead(heads[k], cutoff) :: heads[k]
  }

  /** A row is the available head of its shard: ingest_shard_head joined with ingest_event. */
  predicate AvailableHead(heads: map<ShardKey, Head>, r: Row, locked: set<ShardKey>, now: int) {
    && Unapplied(r) && r.availableAt <= now
    && r.key in heads && heads[r.key].eventId == Some(r.eventId)
    && r.key !in locked
  }

  /** FOR UPDATE OF head SKIP LOCKED: the earliest available head nobody else has locked. */
  function PickShard(inbox: seq<Row>, heads: map<ShardKey, Head>, locked: set<ShardKey>,
                     now: int): (key: Option<ShardKey>)
    ensures key.Some? <==> exists i :: 0 <= i < |inbox| && AvailableHead(heads, inbox[i], locked, now)
    ensures key.Some? ==> exists i :: 0 <= i < |inbox| && AvailableHead(heads, inbox[i], locked, now)
                              && inbox[i].key == key.value
                              && forall j :: 0 <= j < i ==> !AvailableHead(heads, inbox[j], locked, now)
  {
    if inbox == [] then None
    else if AvailableHead(heads, inbox[0], locked, now) then Some(inbox[0].key)
    else
      var rest := PickShard(inbox[1..], heads, locked, now);
      assert forall i :: 0 < i < |inbox| ==> inbox[i] == inbox[1..][i - 1];
      rest
  }

  function IsClaimable(key: ShardKey, now: int): Row -> bool {
    (r: Row) => r.key == key && Unapplied(r) && r.availableAt <= now
  }

  /** The block of at most `limit` events a worker claims from the picked shard. */
  function Claimed(inbox: seq<Row>, key: ShardKey, now: int, limit: nat): seq<Row> {
    var c := Filter(IsClaimable(key, now), inbox);
    if |c| <= limit then c else c[..limit]
  }

  /** How many events of a block come before the first one that cannot be decoded. */
  function ReadablePrefix(block: seq<Row>): (n: nat)
    ensures n <= |block|
    ensures forall i :: 0 <= i < n ==> block[i].readable
    ensures n < |block| ==> !block[n].readable
  {
    if block == [] || !block[0].readable then 0 else 1 + ReadablePrefix(block[1..])
  }

  /* ---------- invariants ---------- */

  ghost predicate Ordered(inbox: seq<Row>, clock: int) {
    && ReceivedInOrder(inbox)
    && (forall i :: 0 <= i < |inbox| ==> inbox[i].receivedAt <= clock)
  }

  ghost predicate UniqueIds(inbox: seq<Row>) {
    forall i, j :: 0 <= i < j < |inbox| && !inbox[i].pruned && !inbox[j].pruned ==> inbox[i].eventId != inbox[j].eventId
  }

  ghost predicate HeadAgrees(inbox: seq<Row>, heads: map<ShardKey, Head>, key: ShardKey) {
    if key in heads
    then heads[key].pending == |PendingOf(inbox, key)| && heads[key].eventId == FirstPending(inbox, key)
    else PendingOf(inbox, key) == []
  }

  ghost predicate HeadsAgree(inbox: seq<Row>, heads: map<ShardKey, Head>) {
    forall key :: HeadAgrees(inbox, heads, key)
  }

  /** Only the head of a shard can be backed off. */
  ghost predicate TailAvailable(pending: seq<Row>, clock: int) {
    forall i :: 0 < i < |pending| ==> pending[i].availableAt <= clock
  }

  ghost predicate OnlyHeadsBackedOff(inbox: seq<Row>, clock: int) {
    forall key :: TailAvailable(PendingOf(inbox, key), clock)
  }

  /* ---------- how the row updates act on the pending rows of a shard ---------- */

  function NotIn(ids: set<nat>): Row -> bool {
    (r: Row) => r.eventId !in ids
  }

  lemma {:induction false} PendingAfterMark(inbox: seq<Row>, ids: set<nat>, now: int, key: ShardKey)
    ensures PendingOf(MarkApplied(inbox, ids, now), key) == Filter(NotIn(ids), PendingOf(inbox, key))
  {
    if inbox != [] {
      var row, tail := MarkRow(inbox[0], ids, now), MarkApplied(inbox[1..], ids, now);
      PendingAfterMark(inbox[1..], ids, now, key);
      FilterCons(IsPending(key), row, tail);
      FilterCons(NotIn(ids), inbox[0], PendingOf(inbox[1..], key));
    }
  }

  /** Marking, backing off and pruning keep every row of a shard in place. */
  ghost predicate SameIdentity(a: seq<Row>, b: seq<Row>) {
    |a| == |b| && forall i :: 0 <= i < |a| ==> a[i].key == b[i].key && a[i].eventId == b[i].eventId
  }

  lemma {:induction false} RowsKeepIds(a: seq<Row>, b: seq<Row>, key: ShardKey)
    requires SameIdentity(a, b)
    ensures Ids(RowsOf(a, key)) == Ids(RowsOf(b, key))
  {
    if a != [] {
      RowsKeepIds(a[1..], b[1..], key);
    }
  }

  lemma {:induction false} PendingAfterPrune(inbox: seq<Row>, cutoff: int, key: ShardKey)
    ensures PendingOf(PruneApplied(inbox, cutoff), key) == PendingOf(inbox, key)
  {
    if inbox != [] {
      PendingAfterPrune(inbox[1..], cutoff, key);
    }
  }

  lemma {:induction false} PendingAfterBackOff(inbox: seq<Row>, id: Option<nat>, now: int, key: ShardKey)
    ensures PendingOf(BackOff(inbox, id, now), key) == BackOff(PendingOf(inbox, key), id, now)
  {
    if inbox != [] {
      PendingAfterBackOff(inbox[1..], id, now, key);
    }
  }

  lemma {:induction false} PendingDistinct(inbox: seq<Row>, key: ShardKey)
    requires UniqueIds(inbox)
    ensures Distinct(Ids(PendingOf(inbox, key)))
  {
    if inbox != [] {
      var tail := inbox[1..];
      assert forall i :: 0 <= i < |tail| ==> tail[i] == inbox[i + 1];
      PendingDistinct(tail, key);
      var p := PendingOf(tail, key);
      forall i | 0 <= i < |p| && !inbox[0].pruned ensures p[i].eventId != inbox[0].eventId {
        assert p[i] in tail;
      }
    }
  }

  lemma {:induction false} LaterIds(p: seq<Row>, m: nat)
    requires m <= |p| && Distinct(Ids(p))
    ensures forall r :: r in p[m..] ==> r.eventId !in IdSet(p[..m])
    ensures forall r :: r in p[..m] ==> r.eventId in IdSet(p[..m])
  {
    forall r | r in p[m..] ensures r.eventId !in IdSet(p[..m]) {
      var i :| 0 <= i < |p[m..]| && p[m..][i] == r;
      forall q | q in p[..m] ensures q.eventId != r.eventId {
        var j :| 0 <= j < m && p[j] == q;
        assert Ids(p)[j] != Ids(p)[m + i];
      }
    }
  }

  /** Removing the ids of the first m rows of a duplicate-free sequence leaves the rest. */
  lemma {:induction false} RemoveFirst(p: seq<Row>, m: nat)
    requires m <= |p| && Distinct(Ids(p))
    ensures Filter(NotIn(IdSet(p[..m])), p) == p[m..]
  {
    hide IdSet, Distinct, Ids, Filter;
    LaterIds(p, m);
    var keep := NotIn(IdSet(p[..m]));
    assert forall r :: keep(r) <==> r.eventId !in IdSet(p[..m]);
    FilterAppend(keep, p[..m], p[m..]);
    assert p[..m] + p[m..] == p;
    FilterNone(keep, p[..m]);
    FilterAll(keep, p[m..]);
    assert [] + p[m..] == p[m..];
  }

  /** Rows of another shard keep out of a set of ids of this shard's pending rows. */
  lemma {:induction false} OtherShardUntouched(inbox: seq<Row>, key: ShardKey, other: ShardKey, rows: seq<Row>)
    requires UniqueIds(inbox) && key != other
    requires forall r :: r in rows ==> r in PendingOf(inbox, key)
    ensures forall r :: r in PendingOf(inbox, other) ==> r.eventId !in IdSet(rows)
  {
    forall r | r in PendingOf(inbox, other) ensures r.eventId !in IdSet(rows) {
      forall q | q in rows ensures q.eventId != r.eventId {
        assert q in PendingOf(inbox, key);
        var i :| 0 <= i < |inbox| && inbox[i] == q;
        var j :| 0 <= j < |inbox| && inbox[j] == r;
        assert q.key == key && r.key == other;
      }
    }
  }

  /** What an enqueue inserts: first occurrences among the rows retention still keeps. */
  ghost function KnownIds(inbox: seq<Row>): (ids: set<nat>)
    ensures forall id :: id in ids <==> Known(inbox, id)
  {
    set r | r in inbox && !r.pruned :: r.eventId
  }

  function EventIds(events: seq<IngestEvent>): (ids: seq<nat>)
    ensures |ids| == |events|
    ensures forall i :: 0 <= i < |events| ==> ids[i] == events[i].eventId
  {
    if events == [] then [] else [events[0].eventId] + EventIds(events[1..])
  }

  ghost predicate Ascending(stamps: seq<int>) {
    forall i, j :: 0 <= i < j < |stamps| ==> stamps[i] < stamps[j]
  }

  /** The rows an insert adds when the ids in `seen` are taken. */
  ghost function Fresh(seen: set<nat>, key: ShardKey, events: seq<IngestEvent>, stamps: seq<int>): (added: seq<Row>)
    requires |events| == |stamps|
    ensures forall i :: 0 <= i < |added| ==> added[i].key == key && Unapplied(added[i])
    ensures forall i :: 0 <= i < |added| ==>
                added[i].receivedAt in stamps && added[i].availableAt == added[i].receivedAt && added[i].attempts == 0
    decreases events
  {
    if events == [] then []
    else if events[0].eventId in seen then Fresh(seen, key, events[1..], stamps[1..])
    else [NewRow(key, events[0], stamps[0])] + Fresh(seen + {events[0].eventId}, key, events[1..], stamps[1..])
  }

  /** The added rows carry the first occurrences of the batch's event ids, in batch order. */
  lemma {:induction false} FreshIds(seen: set<nat>, key: ShardKey, events: seq<IngestEvent>, stamps: seq<int>)
    requires |events| == |stamps|
    ensures Ids(Fresh(seen, key, events, stamps)) == FirstOccurrences(seen, EventIds(events))
    decreases events
  {
    if events != [] {
      if events[0].eventId in seen {
        FreshIds(seen, key, events[1..], stamps[1..]);
      } else {
        FreshIds(seen + {events[0].eventId}, key, events[1..], stamps[1..]);
      }
    }
  }

  ghost predicate ReceivedInOrder(rows: seq<Row>) {
    forall i, j :: 0 <= i < j < |rows| ==> rows[i].receivedAt < rows[j].receivedAt
  }

  lemma {:induction false} LaterStamp(stamps: seq<int>, stamp: int)
    requires Ascending(stamps) && stamps != [] && stamp in stamps[1..]
    ensures stamps[0] < stamp
  {
    var k :| 0 <= k < |stamps[1..]| && stamps[1..][k] == stamp;
    assert stamps[k + 1] == stamp;
  }

  lemma {:induction false} PrependInOrder(row: Row, rows: seq<Row>)
    requires ReceivedInOrder(rows) && forall j :: 0 <= j < |rows| ==> row.receivedAt < rows[j].receivedAt
    ensures ReceivedInOrder([row] + rows)
  {}

  lemma {:induction false} FreshAscending(seen: set<nat>, key: ShardKey, events: seq<IngestEvent>, stamps: seq<int>)
    requires |events| == |stamps| && Ascending(stamps)
    ensures ReceivedInOrder(Fresh(seen, key, events, stamps))
    decreases events
  {
    if events != [] {
      assert Ascending(stamps[1..]);
      if events[0].eventId in seen {
        FreshAscending(seen, key, events[1..], stamps[1..]);
      } else {
        var more := Fresh(seen + {events[0].eventId}, key, events[1..], stamps[1..]);
        FreshAscending(seen + {events[0].eventId}, key, events[1..], stamps[1..]);
        hide Fresh;
        forall j | 0 <= j < |more| ensures stamps[0] < more[j].receivedAt {
          LaterStamp(stamps, more[j].receivedAt);
        }
        PrependInOrder(NewRow(key, events[0], stamps[0]), more);
      }
    }
  }

  lemma {:induction false} KnownIdsAfter(inbox: seq<Row>, row: Row)
    requires !row.pruned
    ensures KnownIds(inbox + [row]) == KnownIds(inbox) + {row.eventId}
  {
    assert (inbox + [row])[|inbox|] == row;
    forall id ensures Known(inbox + [row], id) <==> Known(inbox, id) || id == row.eventId {
      if Known(inbox, id) {
        var i :| 0 <= i < |inbox| && !inbox[i].pruned && inbox[i].eventId == id;
        assert (inbox + [row])[i] == inbox[i];
      }
    }
  }

  /** Enqueue appends exactly the fresh rows. */
  lemma {:induction false} InsertAppends(inbox: seq<Row>, key: ShardKey, events: seq<IngestEvent>, stamps: seq<int>)
    requires |events| == |stamps|
    ensures InsertAll(inbox, key, events, stamps) == inbox + Fresh(KnownIds(inbox), key, events, stamps)
    decreases events
  {
    if events != [] {
      var e := events[0];
      assert Known(inbox, e.eventId) <==> e.eventId in KnownIds(inbox);
      if Known(inbox, e.eventId) {
        InsertAppends(inbox, key, events[1..], stamps[1..]);
      } else {
        var row := NewRow(key, e, stamps[0]);
        KnownIdsAfter(inbox, row);
        InsertAppends(inbox + [row], key, events[1..], stamps[1..]);
        var more := Fresh(KnownIds(inbox) + {e.eventId}, key, events[1..], stamps[1..]);
        assert (inbox + [row]) + more == inbox + ([row] + more);
      }
    }
  }

  lemma {:induction false} PendingAfterInsert(inbox: seq<Row>, added: seq<Row>, key: ShardKey, other: ShardKey)
    requires forall i :: 0 <= i < |added| ==> added[i].key == key && Unapplied(added[i])
    ensures PendingOf(inbox + added, key) == PendingOf(inbox, key) + added
    ensures RowsOf(inbox + added, key) == RowsOf(inbox, key) + added
    ensures other != key ==> PendingOf(inbox + added, other) == PendingOf(inbox, other)
    ensures other != key ==> RowsOf(inbox + added, other) == RowsOf(inbox, other)
  {
    FilterAppend(IsPending(key), inbox, added);
    FilterAppend(InShard(key), inbox, added);
    FilterAll(IsPending(key), added);
    FilterAll(InShard(key), added);
    if other != key {
      FilterAppend(IsPending(other), inbox, added);
      FilterAppend(InShard(other), inbox, added);
      FilterNone(IsPending(other), added);
      FilterNone(InShard(other), added);
    }
  }
}

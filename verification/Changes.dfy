/** What the transactions do to the inventory, one change after the other: the events of the blocks, the recovery
    passes and the retention runs. Every run of the pipeline is such a sequence of changes, and properties of the
    inventory are stated over these sequences. */
module Changes {
  import opened Model
  import opened Inventory
  import opened Pipeline
  import I = Inbox

  /** One ingest event as it reaches the inventory. */
  datatype Observation = Observation(shard: string, action: Action, resource: Resource)
  {
    function At(): int {
      RoundToMicros(resource.observedAt)
    }

    function Key(): ShardKey {
      ShardKey(resource.cluster, shard)
    }

    predicate Writes(id: ResourceId) {
      (action == Upsert || action == Delete) && resource.Id() == id
    }
  }

  datatype Change =
    | Ingest(observation: Observation, at: int)
    | Pass(busy: set<ResourceId>, at: int)
    | Retention(eventCutoff: int, tombstoneCutoff: int, historyCutoff: int)

  function Perform(s: Stock, c: Change): Stock {
    match c
    case Ingest(o, at) => ApplyResource(s, o.shard, o.action, o.resource, at)
    case Pass(busy, at) => Inventory.ResolveEvents(s, busy, at)
    case Retention(ec, tc, hc) => Prune(s, ec, tc, hc)
  }

  function PerformAll(s: Stock, changes: seq<Change>): Stock
    decreases changes
  {
    if changes == [] then s else PerformAll(Perform(s, changes[0]), changes[1..])
  }

  lemma {:induction false} PerformAppend(s: Stock, a: seq<Change>, b: seq<Change>)
    ensures PerformAll(s, a + b) == PerformAll(PerformAll(s, a), b)
    decreases a
  {
    if a == [] {
      assert a + b == b;
    } else {
      assert (a + b)[1..] == a[1..] + b;
      PerformAppend(Perform(s, a[0]), a[1..], b);
    }
  }

  /** The recovery at write time changes neither identity nor deletion time. */
  lemma {:induction false} ResolvedKeepsIdentity(rows: map<ResourceId, Row>, r: Resource, now: int)
    ensures var q := ResolveEvent(rows, r, now);
            q.Id() == r.Id() && q.cluster == r.cluster && q.deletedAt == r.deletedAt
  {}

  /* ---------- the changes of a run ---------- */

  function BlockChanges(block: seq<I.Row>, now: int): seq<Change> {
    if block == [] then []
    else
      [Ingest(Observation(block[0].key.shard, block[0].action, block[0].resource), now)] + BlockChanges(block[1..], now)
  }

  /** The block that ApplyShard completes. */
  function CompletedBlock(db: Db, locked: set<ShardKey>, limit: nat, now: int): seq<I.Row> {
    var pick := I.PickShard(db.inbox, db.stock.heads, locked, now);
    if pick.None? then []
    else
      var block := I.Claimed(db.inbox, pick.value, now, limit);
      block[..I.ReadablePrefix(block)]
  }

  function StepChanges(db: Db, step: Step): seq<Change> {
    if !Enabled(db, step) then []
    else
      match step
      case ApplyShard(locked, limit, at) => BlockChanges(CompletedBlock(db, locked, limit, at), at)
      case ResolveEvents(busy, at) => [Pass(busy, at)]
      case Cleanup(er, tr, hr, at) => [Retention(at - er, at - tr, at - hr)]
      case _ => []
  }

  function RunChanges(db: Db, steps: seq<Step>): seq<Change>
    decreases steps
  {
    if steps == [] then [] else StepChanges(db, steps[0]) + RunChanges(Next(db, steps[0]), steps[1..])
  }

  /* ---------- a run performs its changes ---------- */

  ghost predicate SameNotes(a: seq<OutRow>, b: seq<OutRow>) {
    |a| == |b| && forall i :: 0 <= i < |a| ==> a[i].note == b[i].note
  }

  /** Two inventories that differ only in head pointers, counters and leases. */
  ghost predicate SameInventory(s: Stock, t: Stock) {
    && s.rows == t.rows && s.order == t.order && SameNotes(s.outbox, t.outbox)
    && forall key :: Watermark(s.heads, key) == Watermark(t.heads, key)
  }

  lemma {:induction false} RemovedSameNotes(a: seq<OutRow>, b: seq<OutRow>, rows: map<ResourceId, Row>,
                                            order: seq<ResourceId>, key: ShardKey, cutoff: int, now: int)
    requires SameNotes(a, b)
    ensures SameNotes(QueueRemoved(a, rows, order, key, cutoff, now), QueueRemoved(b, rows, order, key, cutoff, now))
    decreases order
  {
    if order != [] {
      var id := order[0];
      if id in rows && Unseen(rows[id], key, cutoff) && rows[id].resource.state != OK {
        var note := NoteFor(rows[id].resource, Delete);
        RemovedSameNotes(Queue(a, note, now), Queue(b, note, now), rows, order[1..], key, cutoff, now);
      } else {
        RemovedSameNotes(a, b, rows, order[1..], key, cutoff, now);
      }
    }
  }

  lemma {:induction false} RecoveredSameNotes(a: seq<OutRow>, b: seq<OutRow>, rows: map<ResourceId, Row>,
                                              order: seq<ResourceId>, busy: set<ResourceId>, now: int)
    requires SameNotes(a, b)
    ensures SameNotes(QueueRecovered(a, rows, order, busy, now), QueueRecovered(b, rows, order, busy, now))
    decreases order
  {
    if order != [] {
      var id := order[0];
      if Recovers(rows, id, busy, now) {
        var note := NoteFor(Resolved(rows[id].resource, PassReason(rows, rows[id], now)), Upsert);
        RecoveredSameNotes(Queue(a, note, now), Queue(b, note, now), rows, order[1..], busy, now);
      } else {
        RecoveredSameNotes(a, b, rows, order[1..], busy, now);
      }
    }
  }

  lemma {:induction false} IngestSame(s: Stock, t: Stock, o: Observation, now: int)
    requires SameInventory(s, t)
    ensures SameInventory(Perform(s, Ingest(o, now)), Perform(t, Ingest(o, now)))
  {
    hide ResolveEvent, ShouldNotify, RoundToMicros;
    if o.action == Reconcile {
      MarkerSame(s, t, o.Key(), o.At(), now);
    }
    assert s.rows == t.rows && Watermark(s.heads, o.Key()) == Watermark(t.heads, o.Key());
    hide ReconcileShard;
  }

  lemma {:induction false} MarkerSame(s: Stock, t: Stock, key: ShardKey, cutoff: int, now: int)
    requires SameInventory(s, t)
    ensures SameInventory(ReconcileShard(s, key, cutoff, now), ReconcileShard(t, key, cutoff, now))
  {
    hide QueueRemoved;
    RemovedSameNotes(s.outbox, t.outbox, s.rows, s.order, key, cutoff, now);
    var a, b := ReconcileShard(s, key, cutoff, now), ReconcileShard(t, key, cutoff, now);
    assert Watermark(s.heads, key) == Watermark(t.heads, key);
    forall k ensures Watermark(a.heads, k) == Watermark(b.heads, k) {
      assert Watermark(s.heads, k) == Watermark(t.heads, k);
    }
    assert a.rows == b.rows;
  }

  lemma {:induction false} RetentionKeepsMarks(heads: map<ShardKey, I.Head>, cutoff: int)
    ensures forall key :: Watermark(I.PruneHeads(heads, cutoff), key) == Watermark(heads, key)
  {}

  lemma {:induction false} PerformSame(s: Stock, t: Stock, c: Change)
    requires SameInventory(s, t)
    ensures SameInventory(Perform(s, c), Perform(t, c))
  {
    match c
    case Ingest(o, at) => IngestSame(s, t, o, at);
    case Pass(busy, at) =>
      hide QueueRecovered, ResolveRow;
      RecoveredSameNotes(s.outbox, t.outbox, s.rows, s.order, busy, at);
    case Retention(ec, tc, hc) =>
      hide Expired;
      RetentionKeepsMarks(s.heads, hc);
      RetentionKeepsMarks(t.heads, hc);
  }

  lemma {:induction false} PerformAllSame(s: Stock, t: Stock, changes: seq<Change>)
    requires SameInventory(s, t)
    ensures SameInventory(PerformAll(s, changes), PerformAll(t, changes))
    decreases changes
  {
    if changes != [] {
      hide SameInventory, Perform;
      PerformSame(s, t, changes[0]);
      PerformAllSame(Perform(s, changes[0]), Perform(t, changes[0]), changes[1..]);
    }
  }

  lemma {:induction false} BlockIsPerformed(s: Stock, block: seq<I.Row>, now: int)
    ensures ApplyBlock(s, block, now) == PerformAll(s, BlockChanges(block, now))
    decreases block
  {
    if block != [] {
      hide ApplyResource;
      var changes := BlockChanges(block, now);
      assert changes[1..] == BlockChanges(block[1..], now);
      BlockIsPerformed(Perform(s, changes[0]), block[1..], now);
    }
  }

  lemma {:induction false} LeasedSameNotes(outbox: seq<OutRow>, step: Step)
    requires LeaseStep(step)
    ensures SameNotes(outbox, Leased(outbox, step))
  {}

  lemma {:induction false} ApplyIsPerformed(db: Db, locked: set<ShardKey>, limit: nat, now: int)
    ensures var changes := BlockChanges(CompletedBlock(db, locked, limit, now), now);
            SameInventory(ApplyNext(db, locked, limit, now).db.stock, PerformAll(db.stock, changes))
  {
    hide ApplyBlock, I.Claimed, I.PickShard, I.MarkApplied, I.BackOff, I.IdSet, I.Ids, I.FirstPending, PerformAll;
    var block := CompletedBlock(db, locked, limit, now);
    BlockIsPerformed(db.stock, block, now);
    NothingPerformed(db.stock, now);
  }

  lemma {:induction false} NothingPerformed(s: Stock, now: int)
    ensures PerformAll(s, BlockChanges([], now)) == s && PerformAll(s, []) == s
  {}

  lemma {:induction false} OneChange(s: Stock, c: Change)
    ensures PerformAll(s, [c]) == Perform(s, c)
  {
    assert PerformAll(Perform(s, c), []) == Perform(s, c);
  }

  lemma {:induction false} StepIsPerformed(db: Db, step: Step)
    ensures SameInventory(Next(db, step).stock, PerformAll(db.stock, StepChanges(db, step)))
  {
    hide ApplyNext, BlockChanges, PerformAll, Inventory.ResolveEvents, Prune, Leased, CompletedBlock;
    NothingPerformed(db.stock, 0);
    if Enabled(db, step) {
      match step
      case ApplyShard(locked, limit, at) => ApplyIsPerformed(db, locked, limit, at);
      case ResolveEvents(busy, at) => OneChange(db.stock, Pass(busy, at));
      case Cleanup(er, tr, hr, at) => OneChange(db.stock, Retention(at - er, at - tr, at - hr));
      case Enqueue(batch, stamps) => hide I.InsertAll, I.FirstPending;
      case Send(note) =>
      case Failed =>
      case _ => LeasedSameNotes(db.stock.outbox, step);
    }
  }

  /** The inventory after any run is what its changes make of the inventory before it. */
  lemma {:induction false} RunIsPerformed(db: Db, steps: seq<Step>)
    ensures SameInventory(Run(db, steps).stock, PerformAll(db.stock, RunChanges(db, steps)))
    decreases steps
  {
    hide SameInventory, Next, StepChanges;
    if steps == [] {
      Itself(db.stock);
    } else {
      var next, now, rest := Next(db, steps[0]), StepChanges(db, steps[0]), RunChanges(Next(db, steps[0]), steps[1..]);
      StepIsPerformed(db, steps[0]);
      RunIsPerformed(next, steps[1..]);
      PerformAllSame(next.stock, PerformAll(db.stock, now), rest);
      PerformAppend(db.stock, now, rest);
      Chained(Run(db, steps).stock, PerformAll(next.stock, rest), PerformAll(db.stock, now + rest));
    }
  }

  lemma {:induction false} Itself(s: Stock)
    ensures SameInventory(s, s)
  {}

  lemma {:induction false} Chained(a: Stock, b: Stock, c: Stock)
    requires SameInventory(a, b) && SameInventory(b, c)
    ensures SameInventory(a, c)
  {}

  /** The changes of a run split where the run is split. */
  lemma {:induction false} ChangesAppend(db: Db, a: seq<Step>, b: seq<Step>)
    ensures RunChanges(db, a + b) == RunChanges(db, a) + RunChanges(Run(db, a), b)
    decreases a
  {
    hide Next, StepChanges;
    if a == [] {
      assert a + b == b;
    } else {
      assert (a + b)[1..] == a[1..] + b;
      ChangesAppend(Next(db, a[0]), a[1..], b);
    }
  }
}

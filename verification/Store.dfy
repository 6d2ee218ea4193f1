/** The database transactions as methods that update the tables in place. Each method's whole effect is the step
    function of the pipeline, and each keeps the invariants that the run theorems rest on. */
module Store {
  import opened Model
  import opened Seqs
  import opened Inventory
  import opened Pipeline
  import I = Inbox
  import O = Outbox
  import InboxRuns
  import InboxStatus
  import Incidents
  import Resurrection
  import OutboxRuns

  ghost predicate Sound(db: Db) {
    InboxInv(db) && WellFormed(db.stock) && Resurrection.LiveAfterWatermark(db.stock) && OutboxRuns.Delivery(db)
  }

  lemma {:induction false} BlockWellFormed(s: Stock, block: seq<I.Row>, now: int)
    requires WellFormed(s)
    ensures WellFormed(ApplyBlock(s, block, now))
    decreases block
  {
    if block != [] {
      Incidents.WellFormedAfterApply(s, block[0].key.shard, block[0].action, block[0].resource, now);
      BlockWellFormed(ApplyResource(s, block[0].key.shard, block[0].action, block[0].resource, now), block[1..], now);
    }
  }

  lemma {:induction false} StepWellFormed(db: Db, step: Step)
    requires WellFormed(db.stock)
    ensures WellFormed(Next(db, step).stock)
  {
    hide WellFormed, Inventory.ResolveEvents, Prune, Leased, I.Claimed, I.PickShard, I.InsertAll, I.MarkApplied,
             I.BackOff;
    if Enabled(db, step) {
      match step
      case ApplyShard(locked, limit, at) =>
        var pick := I.PickShard(db.inbox, db.stock.heads, locked, at);
        if pick.Some? {
          var block := I.Claimed(db.inbox, pick.value, at, limit);
          BlockWellFormed(db.stock, block[..I.ReadablePrefix(block)], at);
          SameRowsWellFormed(ApplyBlock(db.stock, block[..I.ReadablePrefix(block)], at), Next(db, step).stock);
        }
      case ResolveEvents(busy, at) => ResolveWellFormed(db.stock, busy, at);
      case Cleanup(er, tr, hr, at) => Incidents.PruneWellFormed(db.stock, at - er, at - tr, at - hr);
      case _ => SameRowsWellFormed(db.stock, Next(db, step).stock);
    }
  }

  lemma {:induction false} ResolveWellFormed(s: Stock, busy: set<ResourceId>, now: int)
    requires WellFormed(s)
    ensures WellFormed(Inventory.ResolveEvents(s, busy, now))
  {}

  lemma {:induction false} SameRowsWellFormed(s: Stock, t: Stock)
    requires WellFormed(s) && s.rows == t.rows && s.order == t.order
    ensures WellFormed(t)
  {}

  lemma {:induction false} StepSound(db: Db, step: Step)
    requires Sound(db)
    ensures Sound(Next(db, step))
  {
    hide InboxInv, WellFormed, Resurrection.LiveAfterWatermark, OutboxRuns.Delivery, Next;
    InboxRuns.StepKeepsInboxInv(db, step);
    StepWellFormed(db, step);
    Progresses(db, step);
    OutboxRuns.StepDelivery(db, step);
  }

  lemma {:induction false} SoundInbox(db: Db)
    requires Sound(db)
    ensures InboxInv(db)
  {}

  lemma {:induction false} SoundIsWellFormed(db: Db)
    requires Sound(db)
    ensures WellFormed(db.stock)
  {}

  lemma {:induction false} Progresses(db: Db, step: Step)
    requires Resurrection.LiveAfterWatermark(db.stock)
    ensures Resurrection.LiveAfterWatermark(Next(db, step).stock)
  {
    hide Next;
    Resurrection.StepProgresses(db, step);
  }

  lemma {:induction false} EnqueueSound(db: Db, batch: IngestBatch, stamps: seq<int>)
    requires Sound(db) && Enabled(db, Step.Enqueue(batch, stamps))
    ensures Sound(EnqueueBatch(db, batch, stamps))
  {
    hide Sound;
    StepSound(db, Step.Enqueue(batch, stamps));
  }

  lemma {:induction false} ApplySound(db: Db, locked: set<ShardKey>, limit: nat, now: int)
    requires Sound(db) && db.clock <= now && 1 <= limit <= 64
    ensures Sound(ApplyNext(db, locked, limit, now).db)
  {
    hide Sound, ApplyNext;
    StepSound(db, Step.ApplyShard(locked, limit, now));
  }

  lemma {:induction false} RecoverSound(db: Db, busy: set<ResourceId>, now: int)
    requires Sound(db) && db.clock <= now
    ensures Sound(Recover(db, busy, now))
  {
    hide Sound, Recover;
    StepSound(db, Step.ResolveEvents(busy, now));
  }

  lemma {:induction false} RetainSound(db: Db, eventRetention: nat, tombstoneRetention: nat, historyRetention: nat,
                                       now: int)
    requires Sound(db) && db.clock <= now
    ensures Sound(Retain(db, now - eventRetention, now - tombstoneRetention, now - historyRetention, now))
  {
    hide Sound, Retain;
    StepSound(db, Step.Cleanup(eventRetention, tombstoneRetention, historyRetention, now));
  }

  /** A step of the lease columns moves the clock and the outbox. */
  lemma {:induction false} LeaseSound(db: Db, step: Step)
    requires Sound(db) && LeaseStep(step) && Enabled(db, step)
    ensures Next(db, step) == db.(clock := step.at, stock := db.stock.(outbox := Leased(db.stock.outbox, step)))
    ensures Sound(Next(db, step))
  {
    hide Sound, Leased;
    StepSound(db, step);
  }

  lemma {:induction false} InsertStep(inbox: seq<I.Row>, key: ShardKey, events: seq<IngestEvent>, stamps: seq<int>,
                                      i: nat)
    requires i < |events| == |stamps|
    ensures I.InsertAll(inbox, key, events[i..], stamps[i..])
         == I.InsertAll(if I.Known(inbox, events[i].eventId) then inbox
                        else inbox + [I.NewRow(key, events[i], stamps[i])],
                        key, events[i + 1..], stamps[i + 1..])
  {
    assert events[i..][0] == events[i] && events[i..][1..] == events[i + 1..] && stamps[i..][1..] == stamps[i + 1..];
  }

  lemma {:induction false} NothingToInsert(inbox: seq<I.Row>, key: ShardKey)
    ensures I.InsertAll(inbox, key, [], []) == inbox
  {}

  /** What retention never takes: events that are not applied, notes that are not delivered, watermarks, heads of
      shards with a backlog, and live rows except old Event rows. */
  ghost predicate OnlyTheOldGoes(before: Db, after: Db, eventCutoff: int) {
    && (forall key :: I.PendingOf(after.inbox, key) == I.PendingOf(before.inbox, key))
    && |after.stock.outbox| == |before.stock.outbox|
    && (forall i :: 0 <= i < |after.stock.outbox| && O.Waiting(before.stock.outbox[i]) ==>
          after.stock.outbox[i] == before.stock.outbox[i])
    && (forall key :: Watermark(after.stock.heads, key) == Watermark(before.stock.heads, key))
    && (forall key :: key in before.stock.heads && before.stock.heads[key].pending != 0 ==>
          key in after.stock.heads && after.stock.heads[key] == before.stock.heads[key])
    && (forall id ::
          (IsLive(before.stock, id)
           && !(EventRow(before.stock.rows[id].resource) && before.stock.rows[id].observedAt < eventCutoff)) ==>
          id in after.stock.rows && after.stock.rows[id] == before.stock.rows[id])
    && (forall id :: id in after.stock.rows ==>
            id in before.stock.rows && after.stock.rows[id] == before.stock.rows[id])
  }

  lemma {:induction false} RetentionSpares(db: Db, eventCutoff: int, tombstoneCutoff: int, historyCutoff: int, now: int)
    ensures OnlyTheOldGoes(db, Retain(db, eventCutoff, tombstoneCutoff, historyCutoff, now), eventCutoff)
  {
    hide EventRow, I.PendingOf;
    forall key ensures I.PendingOf(I.PruneApplied(db.inbox, historyCutoff), key) == I.PendingOf(db.inbox, key) {
      I.PendingAfterPrune(db.inbox, historyCutoff, key);
    }
  }

  /** What a retention run takes: applied inbox rows, delivered notes, heads without a backlog and without a watermark,
      tombstones and Event rows, each exactly when it is older than its retention. Everything else stays as it was. */
  lemma {:induction false} RetentionTakesExactly(db: Db, eventRetention: nat, tombstoneRetention: nat,
                                                 historyRetention: nat, now: int)
    ensures var after := Retain(db, now - eventRetention, now - tombstoneRetention, now - historyRetention, now);
            && |after.inbox| == |db.inbox| && |after.stock.outbox| == |db.stock.outbox|
            && (forall i :: 0 <= i < |db.inbox| ==>
                  var r := db.inbox[i];
                  after.inbox[i] == r.(pruned := r.pruned
                    || (r.appliedAt.Some? && r.appliedAt.value + historyRetention < now)))
            && (forall i :: 0 <= i < |db.stock.outbox| ==>
                  var o := db.stock.outbox[i];
                  after.stock.outbox[i] == o.(pruned := o.pruned
                    || (o.deliveredAt.Some? && o.deliveredAt.value + historyRetention < now)))
            && (forall k :: k in after.stock.heads <==>
                  (k in db.stock.heads
                  && (db.stock.heads[k].pending != 0 || db.stock.heads[k].reconciledAt.Some?
                      || db.stock.heads[k].lastApplied.None?
                      || now <= db.stock.heads[k].lastApplied.value + historyRetention)))
            && (forall k :: k in after.stock.heads ==> after.stock.heads[k] == db.stock.heads[k])
            && (forall id :: id in after.stock.rows <==>
                  (id in db.stock.rows
                  && (Lower(db.stock.rows[id].resource.relations.kind) != "event"
                      || (db.stock.rows[id].resource.relations.group != "core"
                          && db.stock.rows[id].resource.relations.group != "events.k8s.io")
                      || now <= db.stock.rows[id].observedAt + eventRetention)
                  && (db.stock.rows[id].deletedAt.None?
                      || now <= db.stock.rows[id].deletedAt.value + tombstoneRetention)))
            && (forall id :: id in after.stock.rows ==> after.stock.rows[id] == db.stock.rows[id])
  {
    hide Lower;
  }

  lemma {:induction false} ClockIgnored(db: Db, key: ShardKey, limit: nat, now: int)
    ensures Pipeline.ApplyPicked(db.(clock := now), key, limit, now) == Pipeline.ApplyPicked(db, key, limit, now)
  {}

  class Store {
    var inbox: seq<I.Row>
    var heads: map<ShardKey, I.Head>
    var rows: map<ResourceId, Row>
    var order: seq<ResourceId>
    var outbox: seq<OutRow>
    ghost var clock: int
    ghost var applied: map<ShardKey, seq<nat>>
    ghost var received: seq<nat>

    ghost function Stock(): Stock
      reads this
    {
      Inventory.Stock(heads, rows, order, outbox)
    }

    ghost function Db(): Db
      reads this
    {
      Pipeline.Db(clock, inbox, Stock(), applied, received)
    }

    ghost predicate Valid()
      reads this
    {
      Sound(Db())
    }

    constructor ()
      ensures Valid() && Db() == INITIAL
    {
      inbox, heads, rows, order, outbox := [], map[], map[], [], [];
      clock, applied, received := 0, map[], [];
    }

    method Enqueue(batch: IngestBatch, stamps: seq<int>) returns (accepted: bool)
      requires Valid()
      requires |stamps| == |batch.events| && I.Ascending(stamps)
      requires forall i :: 0 <= i < |stamps| ==> clock < stamps[i]
      modifies this
      ensures Valid() && accepted == batch.Validate()
      ensures Db() == if accepted then EnqueueBatch(old(Db()), batch, stamps) else old(Db())
    {
      hide Sound, I.InsertAll, I.Known, I.FirstPending;
      ghost var before := Db();
      assert batch.events[0..] == batch.events && stamps[0..] == stamps;
      if !batch.Validate() {
        return false;
      }
      var key := batch.Key();
      var inserted: nat := 0;
      var first: Option<nat> := None;
      for i := 0 to |batch.events|
        invariant I.InsertAll(inbox, key, batch.events[i..], stamps[i..])
                    == I.InsertAll(before.inbox, key, batch.events, stamps)
        invariant |inbox| == |before.inbox| + inserted
        invariant Db() == before.(inbox := inbox)
      {
        var e := batch.events[i];
        InsertStep(inbox, key, batch.events, stamps, i);
        if !I.Known(inbox, e.eventId) {
          inbox := inbox + [I.NewRow(key, e, stamps[i])];
          if inserted == 0 {
            first := Some(e.eventId);
          }
          inserted := inserted + 1;
        }
      }
      NothingToInsert(inbox, key);
      assert batch.events[|batch.events|..] == [] && stamps[|batch.events|..] == [];
      if inserted > 0 {
        var h := I.HeadOf(heads, key);
        heads := heads[key := h.(eventId := if h.eventId.Some? then h.eventId else first,
                                 pending := h.pending + inserted)];
        heads := heads[key := heads[key].(eventId := I.FirstPending(inbox, key))];
      }
      clock := stamps[|stamps| - 1];
      accepted := true;
      EnqueueSound(before, batch, stamps);
      assert Db() == EnqueueBatch(before, batch, stamps);
    }

    method ReconcileShard(key: ShardKey, cutoff: int, now: int)
      requires WellFormed(Stock())
      modifies this`heads, this`rows, this`outbox
      ensures Stock() == Inventory.ReconcileShard(old(Stock()), key, cutoff, now)
    {
      ghost var s := Stock();
      RemoveUnseen(key, cutoff, now);
      var head := I.HeadOf(heads, key);
      heads := heads[key := head.(reconciledAt := Inventory.Later(head.reconciledAt, cutoff))];
    }

    method RemoveUnseen(key: ShardKey, cutoff: int, now: int)
      requires WellFormed(Stock())
      modifies this`rows, this`outbox
      ensures rows == map id | id in old(rows) :: Tombstone(old(rows)[id], key, cutoff, now)
      ensures outbox == QueueRemoved(old(outbox), old(rows), order, key, cutoff, now)
    {
      TombstonedInOrder(rows, order, key, cutoff, now);
      NothingTombstoned(rows, key, cutoff, now);
      hide QueueRemoved, Tombstoned, Tombstone, Queue;
      ghost var snapshot := rows;
      var i := 0;
      while i < |order|
        invariant 0 <= i <= |order|
        invariant rows == Tombstoned(snapshot, order[..i], key, cutoff, now)
        invariant QueueRemoved(outbox, snapshot, order[i..], key, cutoff, now)
                    == QueueRemoved(old(outbox), snapshot, order, key, cutoff, now)
      {
        var id := order[i];
        RemoveStep(outbox, snapshot, order, i, key, cutoff, now);
        var row := rows[id];
        if Unseen(row, key, cutoff) {
          rows := rows[id := row.(deletedAt := Some(now), observedAt := cutoff)];
          if row.resource.state != OK {
            outbox := Queue(outbox, NoteFor(row.resource, Delete), now);
          }
        }
        i := i + 1;
      }
      assert order[..i] == order && order[i..] == [];
      NothingQueued(outbox, snapshot, key, cutoff, now);
    }

    method ApplyResource(action: Action, shard: string, resource: Resource, now: int)
      requires WellFormed(Stock())
      modifies this`heads, this`rows, this`order, this`outbox
      ensures Stock() == Inventory.ApplyResource(old(Stock()), shard, action, resource, now)
    {
      var at := RoundToMicros(resource.observedAt);
      if action == Heartbeat {
        return;
      }
      var key := ShardKey(resource.cluster, shard);
      var watermark := I.HeadOf(heads, key).reconciledAt;
      if watermark.Some? && at < watermark.value {
        return;
      }
      if action == Reconcile {
        ReconcileShard(key, at, now);
        return;
      }
      var r := resource;
      if action != Delete {
        r := ResolveEvent(rows, r, now);
      }
      var id := r.Id();
      if id in rows && at < rows[id].observedAt {
        return;
      }
      var notify := ShouldNotify(rows, action, r);
      var deletedAt := r.deletedAt;
      if action == Delete && deletedAt.None? {
        deletedAt := Some(now);
      }
      if id !in rows {
        order := order + [id];
      }
      rows := rows[id := Row(r, shard, at, deletedAt)];
      if notify {
        outbox := Queue(outbox, NoteFor(r, action), now);
      }
    }

    /** A worker takes the earliest available head nobody has locked and applies a block of its shard. */
    method ApplyShard(locked: set<ShardKey>, limit: int, now: int) returns (processed: nat, failed: bool)
      requires Valid() && clock <= now
      modifies this
      ensures Valid()
      ensures !(1 <= limit <= 64) ==> failed && processed == 0 && Db() == old(Db())
      ensures 1 <= limit <= 64 ==> BlockResult(Db(), processed, failed) == ApplyNext(old(Db()), locked, limit, now)
    {
      hide Sound, Pipeline.ApplyPicked;
      ghost var before := Db();
      if limit < 1 || limit > 64 {
        return 0, true;
      }
      var pick := I.PickShard(inbox, heads, locked, now);
      ApplySound(before, locked, limit, now);
      clock := now;
      if pick.None? {
        return 0, false;
      }
      SoundIsWellFormed(before);
      ClockIgnored(before, pick.value, limit, now);
      processed, failed := ApplyPicked(pick.value, limit, now);
    }

    method ApplyPicked(key: ShardKey, limit: nat, now: int) returns (processed: nat, failed: bool)
      requires WellFormed(Stock()) && clock == now
      modifies this
      ensures BlockResult(Db(), processed, failed) == Pipeline.ApplyPicked(old(Db()), key, limit, now)
    {
      hide WellFormed, I.Claimed, I.MarkApplied, I.BackOff, I.IdSet, I.FirstPending, I.Ids, ApplyBlock, AppliedTo;
      var block := I.Claimed(inbox, key, now, limit);
      processed, failed := ApplyEvents(block, now);
      if processed > 0 {
        inbox := I.MarkApplied(inbox, I.IdSet(block[..processed]), now);
        if key in heads {
          var next := I.FirstPending(inbox, key);
          heads := heads[key := heads[key].(eventId := next, pending := heads[key].pending - processed,
                                            lastApplied := Some(now))];
        }
      } else {
        NothingToMark(inbox, block, now);
      }
      applied := applied[key := AppliedTo(applied, key) + I.Ids(block[..processed])];
    }

    /** The events of a block up to the first one that cannot be decoded, which is backed off. */
    method ApplyEvents(block: seq<I.Row>, now: int) returns (completed: nat, failed: bool)
      requires WellFormed(Stock())
      modifies this`heads, this`rows, this`order, this`outbox, this`inbox
      ensures completed == I.ReadablePrefix(block) && failed == (completed < |block|)
      ensures inbox == I.BackOff(old(inbox), if failed then Some(block[completed].eventId) else None, now)
      ensures Stock() == ApplyBlock(old(Stock()), block[..completed], now)
    {
      ghost var n := I.ReadablePrefix(block);
      ghost var s := Stock();
      completed, failed := 0, false;
      while completed < |block|
        invariant completed <= n && !failed && inbox == old(inbox) && WellFormed(Stock())
        invariant ApplyBlock(Stock(), block[completed..n], now) == ApplyBlock(s, block[..n], now)
      {
        var event := block[completed];
        if !event.readable {
          inbox := I.BackOff(inbox, Some(event.eventId), now);
          failed := true;
          break;
        }
        assert block[completed..n][0] == event && block[completed..n][1..] == block[completed + 1..n];
        Incidents.WellFormedAfterApply(Stock(), event.key.shard, event.action, event.resource, now);
        ApplyResource(event.action, event.key.shard, event.resource, now);
        completed := completed + 1;
      }
      assert block[completed..n] == [];
      if !failed {
        assert I.BackOff(inbox, None, now) == inbox;
      }
    }

    /** Recovery that arrives after the event: decide on a snapshot first, then update and notify. */
    method ResolveEvents(busy: set<ResourceId>, now: int)
      requires Valid() && clock <= now
      modifies this
      ensures Valid() && Db() == Recover(old(Db()), busy, now)
    {
      hide Sound;
      ghost var before := Db();
      SoundIsWellFormed(before);
      var recovered: seq<(ResourceId, string)> := [];
      for i := 0 to |order|
        invariant recovered == Decisions(rows, order[..i], busy, now)
      {
        var id := order[i];
        assert order[..i + 1][..i] == order[..i];
        if Recovers(rows, id, busy, now) {
          recovered := recovered + [(id, PassReason(rows, rows[id], now))];
        }
      }
      assert order[..|order|] == order;
      clock := now;
      Publish(recovered, before.stock.rows, busy, now);
      RecoverSound(before, busy, now);
    }

    method Publish(recovered: seq<(ResourceId, string)>, ghost snapshot: map<ResourceId, Row>,
                   ghost busy: set<ResourceId>, now: int)
      requires WellFormed(Stock()) && rows == snapshot && recovered == Decisions(snapshot, order, busy, now)
      modifies this`rows, this`outbox
      ensures Stock() == Inventory.ResolveEvents(old(Stock()), busy, now)
    {
      PublishPlan(outbox, snapshot, order, busy, now);
      for i := 0 to |recovered|
        invariant rows == Published(snapshot, recovered[..i])
        invariant QueueDecisions(outbox, snapshot, recovered[i..], now)
                    == QueueDecisions(old(outbox), snapshot, recovered, now)
      {
        var (id, reason) := recovered[i];
        PublishStep(outbox, snapshot, recovered, i, now);
        var r := Resolved(rows[id].resource, reason);
        rows := rows[id := rows[id].(resource := r)];
        outbox := Queue(outbox, NoteFor(r, Upsert), now);
      }
      assert recovered[..|recovered|] == recovered && recovered[|recovered|..] == [];
    }

    /** Retention over all tables in one transaction. */
    method Cleanup(eventRetention: nat, tombstoneRetention: nat, historyRetention: nat, now: int)
      requires Valid() && clock <= now
      modifies this
      ensures Valid()
      ensures Db() == Retain(old(Db()), now - eventRetention, now - tombstoneRetention, now - historyRetention, now)
      ensures OnlyTheOldGoes(old(Db()), Db(), now - eventRetention)
    {
      hide Sound, OnlyTheOldGoes, EventRow;
      ghost var before := Db();
      var kept := map id | id in rows && !Expired(rows[id], now - eventRetention, now - tombstoneRetention) :: rows[id];
      rows := kept;
      order := Filter(Kept(kept), order);
      outbox := PruneOutbox(outbox, now - historyRetention);
      heads := I.PruneHeads(heads, now - historyRetention);
      inbox := I.PruneApplied(inbox, now - historyRetention);
      clock := now;
      RetainSound(before, eventRetention, tombstoneRetention, historyRetention, now);
      RetentionSpares(before, now - eventRetention, now - tombstoneRetention, now - historyRetention, now);
    }

    /** The notifier claims the lowest id at the head of its resource's line. */
    method Claim(identity: string, taken: set<nat>, now: int) returns (note: Option<nat>)
      requires Valid() && clock <= now
      modifies this
      ensures Valid() && Db() == Next(old(Db()), Step.Claim(identity, taken, now))
      ensures note == O.NextClaim(old(outbox), 0, taken, now)
    {
      hide Sound, Next;
      ghost var before := Db();
      LeaseSound(before, Step.Claim(identity, taken, now));
      note := None;
      var i := 0;
      while i < |outbox| && note.None?
        invariant 0 <= i <= |outbox| && outbox == old(outbox) && Db() == before
        invariant if note.None? then O.NextClaim(outbox, i, taken, now) == O.NextClaim(outbox, 0, taken, now)
                  else note == O.NextClaim(outbox, 0, taken, now)
        decreases |outbox| - i, note.None?
      {
        if O.Claimable(outbox, i, taken, now) {
          note := Some(i);
        } else {
          i := i + 1;
        }
      }
      clock := now;
      if note.Some? {
        var o := outbox[note.value];
        outbox := outbox[note.value := o.(claim := Some(Inventory.Claim(identity, now + O.CLAIM_MICROS)),
                                          attempts := o.attempts + 1)];
      }
    }

    /** Totals and ages from the head rows alone. */
    method Status() returns (pending: int, oldest: Option<int>)
      requires Valid()
      ensures pending == |Filter(InboxStatus.AnyUnapplied(), inbox)|
      ensures OldestUnapplied(inbox, oldest)
    {
      hide Sound;
      var todo := heads.Keys;
      pending, oldest := 0, None;
      while todo != {}
        invariant todo <= heads.Keys
        invariant pending + InboxStatus.SumPending(heads, todo) == InboxStatus.SumPending(heads, heads.Keys)
        invariant OldestOf(inbox, heads, heads.Keys - todo, oldest)
        decreases todo
      {
        var k :| k in todo;
        InboxStatus.SumStep(heads, todo, k);
        OldestStep(inbox, heads, heads.Keys - todo, k, oldest);
        pending := pending + heads[k].pending;
        oldest := Earlier(oldest, if heads[k].eventId.Some? then ReceivedAt(inbox, heads[k].eventId.value) else None);
        assert heads.Keys - todo + {k} == heads.Keys - (todo - {k});
        todo := todo - {k};
      }
      assert heads.Keys - todo == heads.Keys;
      StatusIsTrue(Db(), oldest);
    }

    /** The receiver takes a row that was claimed; a row it already has changes nothing. */
    ghost method Receive(note: nat)
      requires Valid() && note < |outbox| && outbox[note].attempts > 0
      modifies this`received
      ensures Valid() && Db() == Next(old(Db()), Step.Send(note)) && note in received
    {
      StepSound(Db(), Step.Send(note));
      received := O.Receive(received, note);
    }

    method Delivered(note: nat, identity: string, now: int) returns (ok: bool)
      requires Valid() && clock <= now && note in received
      modifies this
      ensures Valid() && Db() == Next(old(Db()), Step.Acknowledge(note, identity, now))
      ensures ok == O.Holds(old(outbox), note, identity)
      ensures !ok ==> outbox == old(outbox)
    {
      hide Sound, Next;
      LeaseSound(Db(), Step.Acknowledge(note, identity, now));
      ok := O.Holds(outbox, note, identity);
      clock := now;
      if ok {
        outbox := outbox[note := outbox[note].(deliveredAt := Some(now), claim := None)];
      }
    }

    method Retry(note: nat, identity: string, now: int)
      requires Valid() && clock <= now
      modifies this
      ensures Valid() && Db() == Next(old(Db()), Step.Retry(note, identity, now))
    {
      hide Sound, Next;
      LeaseSound(Db(), Step.Retry(note, identity, now));
      clock := now;
      if O.Holds(outbox, note, identity) {
        var o := outbox[note];
        outbox := outbox[note := o.(availableAt := now + O.RetrySeconds(o.attempts) * MICROS_PER_SECOND,
                                    claim := None)];
      }
    }
  }

  /** The primary-key join of a head with its event: the earliest stamp among the visible rows of that id. */
  function ReceivedAt(inbox: seq<I.Row>, id: nat): (t: Option<int>)
    ensures t.Some? ==> exists r :: r in inbox && !r.pruned && r.eventId == id && r.receivedAt == t.value
    ensures forall r :: r in inbox && !r.pruned && r.eventId == id ==> t.Some? && t.value <= r.receivedAt
  {
    if inbox == [] then None
    else
      var rest := ReceivedAt(inbox[1..], id);
      assert inbox == [inbox[0]] + inbox[1..];
      if !inbox[0].pruned && inbox[0].eventId == id && (rest.None? || inbox[0].receivedAt < rest.value)
      then Some(inbox[0].receivedAt) else rest
  }

  function Earlier(a: Option<int>, b: Option<int>): Option<int> {
    if b.Some? && (a.None? || b.value < a.value) then b else a
  }

  /** t is the earliest stamp of all unapplied events, None if there is none. */
  ghost predicate OldestUnapplied(inbox: seq<I.Row>, t: Option<int>) {
    && (t.Some? ==> exists r :: r in inbox && I.Unapplied(r) && r.receivedAt == t.value)
    && (forall r :: r in inbox && I.Unapplied(r) ==> t.Some? && t.value <= r.receivedAt)
  }

  /** t is the earliest stamp of the events the heads in `done` point to. */
  ghost predicate OldestOf(inbox: seq<I.Row>, heads: map<ShardKey, I.Head>, done: set<ShardKey>, t: Option<int>) {
    && (t.Some? ==> exists r :: r in inbox && InboxStatus.Joined(heads, r) && r.receivedAt == t.value)
    && (forall k, r :: k in done && k in heads && r in inbox && !r.pruned && heads[k].eventId == Some(r.eventId)
          ==> t.Some? && t.value <= r.receivedAt)
  }

  lemma {:induction false} OldestStep(inbox: seq<I.Row>, heads: map<ShardKey, I.Head>, done: set<ShardKey>, k: ShardKey,
                                      t: Option<int>)
    requires OldestOf(inbox, heads, done, t) && k in heads
    ensures OldestOf(inbox, heads, done + {k},
              Earlier(t, if heads[k].eventId.Some? then ReceivedAt(inbox, heads[k].eventId.value) else None))
  {
    if heads[k].eventId.Some? {
      var head := ReceivedAt(inbox, heads[k].eventId.value);
      if head.Some? {
        var r :| r in inbox && !r.pruned && r.eventId == heads[k].eventId.value && r.receivedAt == head.value;
        assert InboxStatus.Joined(heads, r);
      }
    }
  }

  lemma {:induction false} OldestHeadIsOldest(inbox: seq<I.Row>, heads: map<ShardKey, I.Head>, clock: int,
                                              oldest: Option<int>)
    requires I.HeadsAgree(inbox, heads) && I.Ordered(inbox, clock) && I.UniqueIds(inbox)
    requires OldestOf(inbox, heads, heads.Keys, oldest)
    ensures OldestUnapplied(inbox, oldest)
  {
    if oldest.Some? {
      var r :| r in inbox && InboxStatus.Joined(heads, r) && r.receivedAt == oldest.value;
      InboxStatus.JoinedIsUnapplied(inbox, heads, r);
    }
    forall r | r in inbox && I.Unapplied(r) ensures oldest.Some? && oldest.value <= r.receivedAt {
      var k, h := InboxStatus.HeadIsNotLater(inbox, heads, clock, r);
    }
  }

  lemma {:induction false} StatusIsTrue(db: Db, oldest: Option<int>)
    requires Sound(db) && OldestOf(db.inbox, db.stock.heads, db.stock.heads.Keys, oldest)
    ensures InboxStatus.SumPending(db.stock.heads, db.stock.heads.Keys)
              == |Filter(InboxStatus.AnyUnapplied(), db.inbox)|
    ensures OldestUnapplied(db.inbox, oldest)
  {
    hide OldestOf, OldestUnapplied;
    InboxStatus.TotalIsBacklog(db.inbox, db.stock.heads);
    OldestHeadIsOldest(db.inbox, db.stock.heads, db.clock, oldest);
  }

  /* ---------- the decisions of a recovery pass ---------- */

  function Decisions(rows: map<ResourceId, Row>, order: seq<ResourceId>, busy: set<ResourceId>,
                     now: int): seq<(ResourceId, string)> {
    if order == [] then []
    else
      var n := |order| - 1;
      var front := Decisions(rows, order[..n], busy, now);
      if Recovers(rows, order[n], busy, now) then front + [(order[n], PassReason(rows, rows[order[n]], now))] else front
  }

  ghost function Names(recovered: seq<(ResourceId, string)>): set<ResourceId> {
    if recovered == [] then {} else Names(recovered[..|recovered| - 1]) + {recovered[|recovered| - 1].0}
  }

  /** No resource is decided on twice. */
  ghost predicate NamedOnce(recovered: seq<(ResourceId, string)>) {
    forall i :: 0 <= i < |recovered| ==> recovered[i].0 !in Names(recovered[..i])
  }

  /* ---------- the two row-by-row updates ---------- */

  /** The table after the rows of `order` have been looked at, one by one. */
  function Tombstoned(rows: map<ResourceId, Row>, order: seq<ResourceId>, key: ShardKey, cutoff: int,
                      now: int): map<ResourceId, Row> {
    if order == [] then rows
    else
      var id := order[|order| - 1];
      var t := Tombstoned(rows, order[..|order| - 1], key, cutoff, now);
      if id in t && Unseen(t[id], key, cutoff) then t[id := t[id].(deletedAt := Some(now), observedAt := cutoff)] else t
  }

  lemma {:induction false} TombstonedRows(rows: map<ResourceId, Row>, order: seq<ResourceId>, key: ShardKey,
                                          cutoff: int, now: int)
    requires Distinct(order)
    ensures var t := Tombstoned(rows, order, key, cutoff, now);
            t.Keys == rows.Keys && forall id :: id in rows ==>
              t[id] == if id in order then Tombstone(rows[id], key, cutoff, now) else rows[id]
  {
    if order != [] {
      var n := |order| - 1;
      TombstonedRows(rows, order[..n], key, cutoff, now);
      assert order == order[..n] + [order[n]];
    }
  }

  lemma {:induction false} TombstonedInOrder(rows: map<ResourceId, Row>, order: seq<ResourceId>, key: ShardKey,
                                             cutoff: int, now: int)
    requires Distinct(order) && forall id :: id in order <==> id in rows
    ensures Tombstoned(rows, order, key, cutoff, now) == map id | id in rows :: Tombstone(rows[id], key, cutoff, now)
  {
    TombstonedRows(rows, order, key, cutoff, now);
  }

  lemma {:induction false} NothingTombstoned(rows: map<ResourceId, Row>, key: ShardKey, cutoff: int, now: int)
    ensures Tombstoned(rows, [], key, cutoff, now) == rows
  {}

  lemma {:induction false} NothingQueued(outbox: seq<OutRow>, rows: map<ResourceId, Row>, key: ShardKey, cutoff: int,
                                         now: int)
    ensures QueueRemoved(outbox, rows, [], key, cutoff, now) == outbox
  {}

  lemma {:induction false} RemoveStep(outbox: seq<OutRow>, rows: map<ResourceId, Row>, order: seq<ResourceId>, i: nat,
                                      key: ShardKey, cutoff: int, now: int)
    requires i < |order| && Distinct(order) && order[i] in rows
    ensures var t := Tombstoned(rows, order[..i], key, cutoff, now);
            var row := rows[order[i]];
            var rest := if Unseen(row, key, cutoff) && row.resource.state != OK
              then Queue(outbox, NoteFor(row.resource, Delete), now) else outbox;
            && order[i] in t && t[order[i]] == row
            && Tombstoned(rows, order[..i + 1], key, cutoff, now)
                 == (if Unseen(row, key, cutoff) then t[order[i] := row.(deletedAt := Some(now), observedAt := cutoff)]
                     else t)
            && QueueRemoved(outbox, rows, order[i..], key, cutoff, now)
              == QueueRemoved(rest, rows, order[i + 1..], key, cutoff, now)
  {
    TombstonedRows(rows, order[..i], key, cutoff, now);
    assert order[..i + 1][..i] == order[..i];
    assert order[i..][0] == order[i] && order[i..][1..] == order[i + 1..];
  }

  /** The table after the decisions have been written, one by one. */
  function Published(rows: map<ResourceId, Row>, recovered: seq<(ResourceId, string)>): map<ResourceId, Row> {
    if recovered == [] then rows
    else
      var (id, reason) := recovered[|recovered| - 1];
      var t := Published(rows, recovered[..|recovered| - 1]);
      if id in t then t[id := t[id].(resource := Resolved(t[id].resource, reason))] else t
  }

  lemma {:induction false} PublishedFrame(rows: map<ResourceId, Row>, recovered: seq<(ResourceId, string)>)
    ensures var t := Published(rows, recovered);
            t.Keys == rows.Keys && forall id :: id in rows && id !in Names(recovered) ==> t[id] == rows[id]
  {
    if recovered != [] {
      PublishedFrame(rows, recovered[..|recovered| - 1]);
    }
  }

  lemma {:induction false} PublishStep(outbox: seq<OutRow>, rows: map<ResourceId, Row>,
                                       recovered: seq<(ResourceId, string)>, i: nat, now: int)
    requires i < |recovered| && NamedOnce(recovered) && recovered[i].0 in rows
    ensures var t := Published(rows, recovered[..i]);
            var id := recovered[i].0;
            var r := Resolved(rows[id].resource, recovered[i].1);
            && id in t && t[id] == rows[id]
            && Published(rows, recovered[..i + 1]) == t[id := rows[id].(resource := r)]
            && QueueDecisions(outbox, rows, recovered[i..], now)
                 == QueueDecisions(Queue(outbox, NoteFor(r, Upsert), now), rows, recovered[i + 1..], now)
  {
    PublishedFrame(rows, recovered[..i]);
    assert recovered[..i + 1][..i] == recovered[..i];
    assert recovered[i..][0] == recovered[i] && recovered[i..][1..] == recovered[i + 1..];
  }

  lemma {:induction false} PublishedIsResolved(rows: map<ResourceId, Row>, order: seq<ResourceId>,
                                               busy: set<ResourceId>, now: int)
    requires Distinct(order)
    ensures var t := Published(rows, Decisions(rows, order, busy, now));
            t.Keys == rows.Keys && forall id :: id in rows ==>
              t[id] == if id in order then ResolveRow(rows, id, busy, now) else rows[id]
  {
    if order != [] {
      var n := |order| - 1;
      PublishedIsResolved(rows, order[..n], busy, now);
      assert order == order[..n] + [order[n]];
      if Recovers(rows, order[n], busy, now) {
        var front := Decisions(rows, order[..n], busy, now);
        assert (front + [(order[n], PassReason(rows, rows[order[n]], now))])[..|front|] == front;
      }
    }
  }

  function QueueDecisions(outbox: seq<OutRow>, rows: map<ResourceId, Row>, recovered: seq<(ResourceId, string)>,
                          now: int): seq<OutRow>
    decreases recovered
  {
    if recovered == [] then outbox
    else
      var (id, reason) := recovered[0];
      var rest := if id in rows then Queue(outbox, NoteFor(Resolved(rows[id].resource, reason), Upsert), now)
        else outbox;
      QueueDecisions(rest, rows, recovered[1..], now)
  }

  ghost predicate Decision(rows: map<ResourceId, Row>, busy: set<ResourceId>, now: int, d: (ResourceId, string)) {
    Recovers(rows, d.0, busy, now) && d.1 == PassReason(rows, rows[d.0], now)
  }

  /** The pass decides on every recoverable row once, with the reason the snapshot gives. */
  lemma {:induction false} DecisionsSound(rows: map<ResourceId, Row>, order: seq<ResourceId>, busy: set<ResourceId>,
                                          now: int)
    requires Distinct(order)
    ensures var d := Decisions(rows, order, busy, now);
            && NamedOnce(d)
            && (forall k :: 0 <= k < |d| ==> Decision(rows, busy, now, d[k]))
            && (forall id :: id in Names(d) <==> id in order && Recovers(rows, id, busy, now))
  {
    if order != [] {
      var n := |order| - 1;
      var front := Decisions(rows, order[..n], busy, now);
      DecisionsSound(rows, order[..n], busy, now);
      assert order == order[..n] + [order[n]];
      if Recovers(rows, order[n], busy, now) {
        var d := front + [(order[n], PassReason(rows, rows[order[n]], now))];
        assert d[..|front|] == front;
        forall i | 0 <= i < |d| ensures d[i].0 !in Names(d[..i]) {
          if i < |front| {
            assert d[..i] == front[..i];
          }
        }
      }
    }
  }

  lemma {:induction false} QueueDecisionsAppend(outbox: seq<OutRow>, rows: map<ResourceId, Row>,
                                                a: seq<(ResourceId, string)>, b: seq<(ResourceId, string)>, now: int)
    ensures QueueDecisions(outbox, rows, a + b, now)
              == QueueDecisions(QueueDecisions(outbox, rows, a, now), rows, b, now)
    decreases a
  {
    if a == [] {
      assert a + b == b;
    } else {
      assert (a + b)[1..] == a[1..] + b;
      var (id, reason) := a[0];
      var rest := if id in rows then Queue(outbox, NoteFor(Resolved(rows[id].resource, reason), Upsert), now)
        else outbox;
      QueueDecisionsAppend(rest, rows, a[1..], b, now);
    }
  }

  lemma {:induction false} QueueRecoveredAppend(outbox: seq<OutRow>, rows: map<ResourceId, Row>, a: seq<ResourceId>,
                                                b: seq<ResourceId>, busy: set<ResourceId>, now: int)
    ensures QueueRecovered(outbox, rows, a + b, busy, now)
              == QueueRecovered(QueueRecovered(outbox, rows, a, busy, now), rows, b, busy, now)
    decreases a
  {
    if a == [] {
      assert a + b == b;
    } else {
      assert (a + b)[1..] == a[1..] + b;
      var id := a[0];
      var rest := if Recovers(rows, id, busy, now)
                  then Queue(outbox, NoteFor(Resolved(rows[id].resource, PassReason(rows, rows[id], now)), Upsert), now)
                  else outbox;
      QueueRecoveredAppend(rest, rows, a[1..], b, busy, now);
    }
  }

  /** Publishing the decisions queues exactly the recovery notes. */
  lemma {:induction false} DecisionsQueue(outbox: seq<OutRow>, rows: map<ResourceId, Row>, order: seq<ResourceId>,
                                          busy: set<ResourceId>, now: int)
    ensures QueueDecisions(outbox, rows, Decisions(rows, order, busy, now), now)
              == QueueRecovered(outbox, rows, order, busy, now)
  {
    if order != [] {
      var n := |order| - 1;
      var id := order[n];
      DecisionsQueue(outbox, rows, order[..n], busy, now);
      assert order == order[..n] + [id];
      QueueRecoveredAppend(outbox, rows, order[..n], [id], busy, now);
      if Recovers(rows, id, busy, now) {
        QueueDecisionsAppend(outbox, rows, Decisions(rows, order[..n], busy, now),
                             [(id, PassReason(rows, rows[id], now))], now);
      }
    }
  }

  /** Publishing the decisions one by one is the recovery pass. */
  lemma {:induction false} PublishPlan(outbox: seq<OutRow>, rows: map<ResourceId, Row>, order: seq<ResourceId>,
                                       busy: set<ResourceId>, now: int)
    requires Distinct(order) && forall id :: id in order <==> id in rows
    ensures var d := Decisions(rows, order, busy, now);
            && NamedOnce(d) && (forall k :: 0 <= k < |d| ==> d[k].0 in rows)
            && Published(rows, d) == (map id | id in rows :: ResolveRow(rows, id, busy, now))
            && QueueDecisions(outbox, rows, d, now) == QueueRecovered(outbox, rows, order, busy, now)
  {
    DecisionsSound(rows, order, busy, now);
    var d := Decisions(rows, order, busy, now);
    forall k | 0 <= k < |d| ensures d[k].0 in rows {
      assert Decision(rows, busy, now, d[k]);
    }
    PublishedIsResolved(rows, order, busy, now);
    DecisionsQueue(outbox, rows, order, busy, now);
  }

  lemma {:induction false} NothingToMark(inbox: seq<I.Row>, block: seq<I.Row>, now: int)
    ensures I.MarkApplied(inbox, I.IdSet(block[..0]), now) == inbox
  {}
}

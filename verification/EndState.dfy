/** From the collector's hands to the live inventory: once spool and inbox are drained, what is live is decided by the
    events that were sent, whatever was lost, repeated, spooled or interleaved on the way. */
module EndState {
  import opened Model
  import opened Seqs
  import opened Inventory
  import opened Changes
  import opened Convergence
  import opened Tombstones
  import opened EndToEnd
  import P = Pipeline
  import I = Inbox
  import D = Delivery
  import R = InboxRuns

  /* ---------- what was applied is what the inbox has marked ---------- */

  function ToldByRow(r: I.Row): Observation {
    Observation(r.key.shard, r.action, r.resource)
  }

  ghost function AppliedOf(inbox: seq<I.Row>): set<Observation> {
    set r | r in inbox && r.appliedAt.Some? :: ToldByRow(r)
  }

  ghost function ToldBy(rows: seq<I.Row>): set<Observation> {
    set r | r in rows :: ToldByRow(r)
  }

  lemma {:induction false} ToldFirst(rows: seq<I.Row>)
    requires rows != []
    ensures ToldBy(rows) == ToldBy(rows[1..]) + {ToldByRow(rows[0])}
  {
    assert rows == [rows[0]] + rows[1..];
  }

  lemma {:induction false} BlockObserved(block: seq<I.Row>, now: int)
    ensures Observed(BlockChanges(block, now)) == ToldBy(block)
    decreases block
  {
    if block != [] {
      var changes := BlockChanges(block, now);
      BlockObserved(block[1..], now);
      ObservedFirst(changes);
      assert changes[1..] == BlockChanges(block[1..], now);
      assert changes[0] == Ingest(ToldByRow(block[0]), now);
      ToldFirst(block);
    }
  }

  /** The same rows, each applied in both or in neither. */
  ghost predicate SameMarks(a: seq<I.Row>, b: seq<I.Row>) {
    |a| == |b| && forall i :: 0 <= i < |a| ==>
      ToldByRow(a[i]) == ToldByRow(b[i]) && (a[i].appliedAt.Some? <==> b[i].appliedAt.Some?)
  }

  lemma {:induction false} SameMarksApplied(a: seq<I.Row>, b: seq<I.Row>)
    requires SameMarks(a, b)
    ensures AppliedOf(a) == AppliedOf(b)
  {
    forall r | r in a && r.appliedAt.Some? ensures ToldByRow(r) in AppliedOf(b) {
      var i :| 0 <= i < |a| && a[i] == r;
      assert b[i] in b;
    }
    forall r | r in b && r.appliedAt.Some? ensures ToldByRow(r) in AppliedOf(a) {
      var i :| 0 <= i < |b| && b[i] == r;
      assert a[i] in a;
    }
  }

  /** Marking a block adds exactly what its rows tell. */
  lemma {:induction false} MarkedBlock(inbox: seq<I.Row>, done: seq<I.Row>, failed: Option<nat>, now: int)
    requires I.UniqueIds(inbox) && forall r :: r in done ==> r in inbox && I.Unapplied(r)
    ensures AppliedOf(R.AfterBlock(inbox, done, failed, now)) == AppliedOf(inbox) + ToldBy(done)
  {
    var next := R.AfterBlock(inbox, done, failed, now);
    forall i | 0 <= i < |inbox|
      ensures ToldByRow(next[i]) == ToldByRow(inbox[i])
      ensures next[i].appliedAt.Some? <==> inbox[i].appliedAt.Some? || inbox[i] in done
    {
      if !inbox[i].pruned && inbox[i].eventId in I.IdSet(done) {
        var r :| r in done && r.eventId == inbox[i].eventId;
        var j :| 0 <= j < |inbox| && inbox[j] == r;
        assert i == j;
      }
    }
    hide R.AfterBlock, I.UniqueIds, I.IdSet, ToldByRow;
    MarkedRows(inbox, next, done);
  }

  lemma {:induction false} MarkedRows(inbox: seq<I.Row>, next: seq<I.Row>, done: seq<I.Row>)
    requires |next| == |inbox| && forall r :: r in done ==> r in inbox
    requires forall i :: 0 <= i < |inbox| ==> ToldByRow(next[i]) == ToldByRow(inbox[i])
    requires forall i :: 0 <= i < |inbox| ==>
               (next[i].appliedAt.Some? <==> inbox[i].appliedAt.Some? || inbox[i] in done)
    ensures AppliedOf(next) == AppliedOf(inbox) + ToldBy(done)
  {
    forall o ensures o in AppliedOf(next) <==> o in AppliedOf(inbox) + ToldBy(done) {
      if o in AppliedOf(next) {
        var r :| r in next && r.appliedAt.Some? && ToldByRow(r) == o;
        var i :| 0 <= i < |next| && next[i] == r;
        assert inbox[i] in inbox;
      }
      if o in AppliedOf(inbox) + ToldBy(done) {
        var r :| r in inbox && (r.appliedAt.Some? || r in done) && ToldByRow(r) == o;
        var i :| 0 <= i < |inbox| && inbox[i] == r;
        assert next[i] in next;
      }
    }
  }

  lemma {:induction false} ApplyAppliedOf(db: P.Db, locked: set<ShardKey>, limit: nat, now: int)
    requires P.InboxInv(db) && db.clock <= now && limit >= 1
    ensures AppliedOf(P.ApplyNext(db, locked, limit, now).db.inbox)
         == AppliedOf(db.inbox) + Observed(BlockChanges(CompletedBlock(db, locked, limit, now), now))
  {
    var block := CompletedBlock(db, locked, limit, now);
    BlockObserved(block, now);
    if I.PickShard(db.inbox, db.stock.heads, locked, now).None? {
      assert AppliedOf(db.inbox) + ToldBy([]) == AppliedOf(db.inbox);
    } else {
      hide I.PickShard, I.Claimed, I.ReadablePrefix, I.HeadAfterApply, P.ApplyBlock, P.AppliedTo, P.ApplyNext,
               AppliedOf, ToldBy, R.AfterBlock, BlockChanges, Observed;
      var key, n, failed := R.PickedBlock(db, locked, limit, now);
      var other, m, stopped := R.PickedEffect(db, locked, limit, now);
      var p := I.PendingOf(db.inbox, key);
      assert p[..n] == block;
      SameBlock(db, locked, limit, now, key, n, failed, m, stopped);
      forall r | r in block ensures r in db.inbox && I.Unapplied(r) {
        assert r in p;
      }
      MarkedBlock(db.inbox, block, stopped, now);
    }
  }

  /** The block that is completed and the block that is marked are the same. */
  lemma {:induction false} SameBlock(db: P.Db, locked: set<ShardKey>, limit: nat, now: int, key: ShardKey, n: nat,
                                     failed: Option<nat>, m: nat, stopped: Option<nat>)
    requires I.PickShard(db.inbox, db.stock.heads, locked, now) == Some(key)
    requires n == I.ReadablePrefix(I.Claimed(db.inbox, key, now, limit)) && n <= |I.PendingOf(db.inbox, key)|
    requires m <= |I.PendingOf(db.inbox, key)|
    requires R.Effect(db, P.ApplyNext(db, locked, limit, now), key, m, stopped, now)
    ensures m == n
  {
    hide I.PickShard, I.Claimed, I.ReadablePrefix, I.HeadAfterApply, P.ApplyBlock, P.AppliedTo, R.AfterBlock,
             I.PendingOf, I.MarkApplied, I.BackOff;
    assert P.ApplyNext(db, locked, limit, now).processed == n;
  }

  lemma {:induction false} StepAppliedOf(db: P.Db, step: P.Step)
    requires P.InboxInv(db)
    ensures AppliedOf(P.Next(db, step).inbox) == AppliedOf(db.inbox) + Observed(StepChanges(db, step))
  {
    var now, next := Observed(StepChanges(db, step)), P.Next(db, step);
    hide P.InboxInv, P.ApplyNext, CompletedBlock, AppliedOf, P.Leased, I.InsertAll;
    if P.Enabled(db, step) && step.ApplyShard? {
      ApplyAppliedOf(db, step.locked, step.limit, step.at);
    } else if P.Enabled(db, step) && step.Enqueue? {
      assert now == {};
      InsertedUnapplied(db, step.batch, step.stamps);
    } else {
      assert now == {};
      assert SameMarks(db.inbox, next.inbox);
      SameMarksApplied(db.inbox, next.inbox);
    }
  }

  lemma {:induction false} InsertedUnapplied(db: P.Db, batch: IngestBatch, stamps: seq<int>)
    requires |stamps| == |batch.events| > 0
    ensures AppliedOf(P.EnqueueBatch(db, batch, stamps).inbox) == AppliedOf(db.inbox)
  {
    var added := AddedIds(db.inbox, batch, stamps);
    var next := db.inbox + added;
    assert forall r :: r in next && r.appliedAt.Some? <==> r in db.inbox && r.appliedAt.Some?;
  }

  /** The events a run has applied are those of the rows it has marked, retention or not. */
  lemma {:induction false} RunAppliedOf(db: P.Db, steps: seq<P.Step>)
    requires P.InboxInv(db)
    ensures AppliedOf(P.Run(db, steps).inbox) == AppliedOf(db.inbox) + Observed(RunChanges(db, steps))
    decreases steps
  {
    hide P.InboxInv, P.Next, AppliedOf, StepChanges;
    if steps == [] {
      assert Observed(RunChanges(db, steps)) == {};
    } else {
      var now, rest := StepChanges(db, steps[0]), RunChanges(P.Next(db, steps[0]), steps[1..]);
      R.StepKeepsInboxInv(db, steps[0]);
      StepAppliedOf(db, steps[0]);
      RunAppliedOf(P.Next(db, steps[0]), steps[1..]);
      assert Observed(now + rest) == Observed(now) + Observed(rest);
    }
  }

  /* ---------- the first telling of an id ---------- */

  /** The events of a sequence of batches, in order. */
  function Events(batches: seq<IngestBatch>): seq<IngestEvent> {
    if batches == [] then [] else Events(batches[..|batches| - 1]) + batches[|batches| - 1].events
  }

  /** The first event of an id is the one that counts: later ones with its id are dropped by the inbox. */
  function First(events: seq<IngestEvent>, id: nat): IngestEvent
    requires id in I.EventIds(events)
  {
    if events[0].eventId == id then events[0]
    else
      assert id in I.EventIds(events[1..]) by {
        var i :| 0 <= i < |events| && I.EventIds(events)[i] == id;
        assert I.EventIds(events[1..])[i - 1] == id;
      }
      First(events[1..], id)
  }

  lemma {:induction false} EventIdsAppend(a: seq<IngestEvent>, b: seq<IngestEvent>)
    ensures I.EventIds(a + b) == I.EventIds(a) + I.EventIds(b)
  {
    var l, r := I.EventIds(a + b), I.EventIds(a) + I.EventIds(b);
    forall i | 0 <= i < |l| ensures l[i] == r[i] {}
  }

  lemma {:induction false} FirstOrLater(events: seq<IngestEvent>, id: nat)
    requires events != []
    ensures id in I.EventIds(events) <==> events[0].eventId == id || id in I.EventIds(events[1..])
  {
    assert I.EventIds(events) == [events[0].eventId] + I.EventIds(events[1..]);
  }

  lemma {:induction false} FirstAppend(a: seq<IngestEvent>, b: seq<IngestEvent>, id: nat)
    requires id in I.EventIds(a) || id in I.EventIds(b)
    ensures id in I.EventIds(a + b)
    ensures First(a + b, id) == if id in I.EventIds(a) then First(a, id) else First(b, id)
    decreases a
  {
    hide I.EventIds;
    if a == [] {
      assert a + b == b;
      assert I.EventIds(a) == [];
    } else {
      assert (a + b)[1..] == a[1..] + b;
      FirstOrLater(a, id);
      FirstOrLater(a + b, id);
      if a[0].eventId != id {
        FirstAppend(a[1..], b, id);
      }
    }
  }

  lemma {:induction false} EventsSnoc(batches: seq<IngestBatch>, b: IngestBatch)
    ensures Events(batches + [b]) == Events(batches) + b.events
  {
    assert (batches + [b])[..|batches|] == batches;
  }

  lemma {:induction false} IdsOfEvents(batches: seq<IngestBatch>)
    ensures I.EventIds(Events(batches)) == BatchIds(batches)
  {
    if batches != [] {
      var n := |batches| - 1;
      IdsOfEvents(batches[..n]);
      EventIdsAppend(Events(batches[..n]), batches[n].events);
    }
  }

  /** What a shard tells about the inventory with an id. */
  function Told(batches: seq<IngestBatch>, key: ShardKey, id: nat): Observation
    requires id in BatchIds(batches)
  {
    IdsOfEvents(batches);
    var e := First(Events(batches), id);
    Observation(key.shard, e.action, e.resource)
  }

  lemma {:induction false} ToldMore(batches: seq<IngestBatch>, b: IngestBatch, key: ShardKey, id: nat)
    requires id in BatchIds(batches) || id in I.EventIds(b.events)
    ensures id in BatchIds(batches + [b])
    ensures id in BatchIds(batches) ==> Told(batches + [b], key, id) == Told(batches, key, id)
    ensures id !in BatchIds(batches) ==>
              var e := First(b.events, id);
              Told(batches + [b], key, id) == Observation(key.shard, e.action, e.resource)
  {
    hide First, I.EventIds, BatchIds, Events;
    IdsOfEvents(batches);
    IdsOfEvents(batches + [b]);
    EventsSnoc(batches, b);
    FirstAppend(Events(batches), b.events, id);
  }

  /* ---------- the inbox holds the first tellings ---------- */

  function Own(log: seq<IngestBatch>, key: ShardKey): seq<IngestBatch> {
    Filter(ForKey(key), log)
  }

  ghost predicate RowTells(r: I.Row, log: seq<IngestBatch>) {
    r.eventId in BatchIds(Own(log, r.key)) && ToldByRow(r) == Told(Own(log, r.key), r.key, r.eventId)
  }

  ghost predicate RowsTell(inbox: seq<I.Row>, log: seq<IngestBatch>) {
    forall r :: r in inbox ==> RowTells(r, log)
  }

  lemma {:induction false} FreshTells(seen: set<nat>, key: ShardKey, events: seq<IngestEvent>, stamps: seq<int>,
                                      r: I.Row)
    requires |events| == |stamps| && r in I.Fresh(seen, key, events, stamps)
    ensures r.eventId !in seen && r.eventId in I.EventIds(events) && r.key == key
    ensures var e := First(events, r.eventId);
            ToldByRow(r) == Observation(key.shard, e.action, e.resource) && r.readable == e.readable
    decreases events
  {
    var tail := I.EventIds(events[1..]);
    assert I.EventIds(events) == [events[0].eventId] + tail;
    if events[0].eventId in seen {
      FreshTells(seen, key, events[1..], stamps[1..], r);
    } else {
      var more := I.Fresh(seen + {events[0].eventId}, key, events[1..], stamps[1..]);
      if r in more {
        FreshTells(seen + {events[0].eventId}, key, events[1..], stamps[1..], r);
      } else {
        assert r == I.NewRow(key, events[0], stamps[0]);
      }
    }
  }

  lemma {:induction false} OwnMore(log: seq<IngestBatch>, b: IngestBatch, key: ShardKey)
    ensures Own(log + [b], key) == if b.Key() == key then Own(log, key) + [b] else Own(log, key)
  {
    FilterSnoc(ForKey(key), log, b);
  }

  lemma {:induction false} OldRowTells(r: I.Row, log: seq<IngestBatch>, b: IngestBatch)
    requires RowTells(r, log)
    ensures RowTells(r, log + [b])
  {
    hide Told, BatchIds, Own;
    OwnMore(log, b, r.key);
    ToldMore(Own(log, r.key), b, r.key, r.eventId);
  }

  lemma {:induction false} OwnIds(log: seq<IngestBatch>, key: ShardKey, id: nat)
    requires id in BatchIds(Own(log, key))
    ensures id in BatchIds(log)
  {
    var i := IdComesFromABatch(Own(log, key), id);
    assert Own(log, key)[i] in log;
    var k :| 0 <= k < |log| && log[k] == Own(log, key)[i];
    BatchIdsContain(log, k, id);
  }

  lemma {:induction false} NewRowTells(r: I.Row, db: P.Db, log: seq<IngestBatch>, batch: IngestBatch, stamps: seq<int>)
    requires |stamps| == |batch.events| > 0 && Remembers(db.inbox, batch) && AllIds(db.inbox) == Elems(BatchIds(log))
    requires r in I.Fresh(I.KnownIds(db.inbox), batch.Key(), batch.events, stamps)
    ensures RowTells(r, log + [batch])
  {
    var key, id := batch.Key(), r.eventId;
    FreshTells(I.KnownIds(db.inbox), key, batch.events, stamps, r);
    assert !I.Known(db.inbox, id);
    assert id !in BatchIds(log);
    hide First, BatchIds, I.EventIds, I.Known, Remembers, AllIds, I.Fresh, Told, Own;
    if id in BatchIds(Own(log, key)) {
      OwnIds(log, key, id);
    }
    OwnMore(log, batch, key);
    ToldMore(Own(log, key), batch, key, id);
  }

  lemma {:induction false} EnqueueTells(db: P.Db, log: seq<IngestBatch>, batch: IngestBatch, stamps: seq<int>)
    requires RowsTell(db.inbox, log) && AllIds(db.inbox) == Elems(BatchIds(log))
    requires |stamps| == |batch.events| > 0 && Remembers(db.inbox, batch)
    ensures RowsTell(P.EnqueueBatch(db, batch, stamps).inbox, log + [batch])
  {
    hide RowTells, I.Fresh, Remembers, AllIds;
    var added := I.Fresh(I.KnownIds(db.inbox), batch.Key(), batch.events, stamps);
    I.InsertAppends(db.inbox, batch.Key(), batch.events, stamps);
    forall r | r in db.inbox + added ensures RowTells(r, log + [batch]) {
      if r in db.inbox {
        OldRowTells(r, log, batch);
      } else {
        NewRowTells(r, db, log, batch, stamps);
      }
    }
  }

  /** No transaction but Enqueue changes what a row tells. */
  ghost predicate SameTelling(a: seq<I.Row>, b: seq<I.Row>) {
    |a| == |b| && forall i :: 0 <= i < |a| ==>
      a[i].eventId == b[i].eventId && a[i].key == b[i].key && ToldByRow(a[i]) == ToldByRow(b[i])
  }

  lemma {:induction false} SameTellingTells(a: seq<I.Row>, b: seq<I.Row>, log: seq<IngestBatch>)
    requires SameTelling(a, b) && RowsTell(a, log)
    ensures RowsTell(b, log)
  {
    hide Told, BatchIds, Own;
    forall r | r in b ensures RowTells(r, log) {
      var i :| 0 <= i < |b| && b[i] == r;
      assert a[i] in a;
    }
  }

  lemma {:induction false} OtherStepTells(db: P.Db, step: P.Step)
    requires !(P.Enabled(db, step) && step.Enqueue?)
    ensures SameTelling(db.inbox, P.Next(db, step).inbox)
  {
    hide P.ApplyNext, P.Leased, P.EnqueueBatch;
    if step.ApplyShard? {
      ApplyTells(db, step.locked, step.limit, step.at);
    }
  }

  lemma {:induction false} ApplyTells(db: P.Db, locked: set<ShardKey>, limit: nat, now: int)
    ensures SameTelling(db.inbox, P.ApplyNext(db, locked, limit, now).db.inbox)
  {
    hide P.ApplyBlock, I.Claimed, I.HeadAfterApply, I.MarkApplied, I.BackOff, I.IdSet, I.PickShard, SameTelling;
    UpdatesTell(db.inbox, None, {}, now);
    var pick := I.PickShard(db.inbox, db.stock.heads, locked, now);
    if pick.Some? {
      var block := I.Claimed(db.inbox, pick.value, now, limit);
      var n := I.ReadablePrefix(block);
      UpdatesTell(db.inbox, if n < |block| then Some(block[n].eventId) else None, I.IdSet(block[..n]), now);
    }
  }

  lemma {:induction false} UpdatesTell(inbox: seq<I.Row>, failed: Option<nat>, ids: set<nat>, now: int)
    ensures SameTelling(inbox, inbox)
    ensures SameTelling(inbox, I.MarkApplied(I.BackOff(inbox, failed, now), ids, now))
  {}

  lemma {:induction false} RunTells(db: P.Db, steps: seq<P.Step>, log: seq<IngestBatch>, key: ShardKey)
    requires RowsTell(db.inbox, log) && Holds(db.inbox, log, key) && InRetention(db, steps)
    requires SeparateIds(log + Committed(db, steps))
    ensures RowsTell(P.Run(db, steps).inbox, log + Committed(db, steps))
    decreases steps
  {
    hide RowsTell, SameTelling, SeparateIds, I.SameIdentity, Remembers, P.EnqueueBatch, P.ApplyNext, P.Retain, P.Leased,
             I.RowsOf, BatchIds, FirstOccurrences, AllIds;
    if steps == [] {
      assert log + Committed(db, steps) == log;
    } else {
      var step, next := steps[0], P.Next(db, steps[0]);
      var rest := Committed(next, steps[1..]);
      if P.Enabled(db, step) && step.Enqueue? {
        var more := log + [step.batch];
        assert log + Committed(db, steps) == more + rest;
        SeparatePrefix(more, rest);
        EnqueueHolds(db, log, step.batch, step.stamps, key);
        EnqueueTells(db, log, step.batch, step.stamps);
        RunTells(next, steps[1..], more, key);
      } else {
        assert Committed(db, steps) == rest;
        OtherStepKeepsIdentity(db, step);
        SameIdentityHolds(db.inbox, next.inbox, log, key);
        OtherStepTells(db, step);
        SameTellingTells(db.inbox, next.inbox, log);
        RunTells(next, steps[1..], log, key);
      }
    }
  }

  /* ---------- repetitions tell nothing new ---------- */

  /** What the chunks of a shard tell with an id. */
  function Tells(chunks: seq<D.Chunk>, key: ShardKey, id: nat): Observation
    requires id in ChunkIds(chunks)
  {
    Told(Batches(chunks), key, id)
  }

  ghost predicate SameWords(a: seq<D.Chunk>, b: seq<D.Chunk>, key: ShardKey) {
    && Elems(ChunkIds(a)) == Elems(ChunkIds(b))
    && forall id :: id in ChunkIds(a) && id in ChunkIds(b) ==> Tells(a, key, id) == Tells(b, key, id)
  }

  lemma {:induction false} ChunkTells(chunks: seq<D.Chunk>, c: D.Chunk, key: ShardKey, id: nat)
    requires id in ChunkIds(chunks) || id in I.EventIds(c.batch.events)
    ensures id in ChunkIds(chunks + [c])
    ensures id in ChunkIds(chunks) ==> Tells(chunks + [c], key, id) == Tells(chunks, key, id)
    ensures id !in ChunkIds(chunks) ==>
              var e := First(c.batch.events, id);
              Tells(chunks + [c], key, id) == Observation(key.shard, e.action, e.resource)
  {
    hide Told, Batches, BatchIds, First, I.EventIds;
    BatchesSnoc(chunks, c);
    ToldMore(Batches(chunks), c.batch, key, id);
  }

  lemma {:induction false} RepeatedTells(front: seq<D.Chunk>, prefix: seq<D.Chunk>, c: D.Chunk, key: ShardKey)
    requires SameWords(front, prefix, key)
    requires prefix != [] && prefix[|prefix| - 1] == c
    ensures SameWords(front + [c], prefix, key)
  {
    LastIdsKnown(prefix);
    ChunkIdsSnoc(front, c);
    var ids := I.EventIds(c.batch.events);
    assert Elems(ids) <= Elems(ChunkIds(front));
    hide Tells, ChunkIds, First, I.EventIds;
    forall id ensures id in ChunkIds(front + [c]) <==> id in ChunkIds(front) {
      assert id in ids ==> id in Elems(ids);
    }
    forall id | id in ChunkIds(front) ensures Tells(front + [c], key, id) == Tells(front, key, id) {
      ChunkTells(front, c, key, id);
    }
  }

  lemma {:induction false} NextTells(front: seq<D.Chunk>, prefix: seq<D.Chunk>, c: D.Chunk, key: ShardKey)
    requires SameWords(front, prefix, key)
    ensures SameWords(front + [c], prefix + [c], key)
  {
    ChunkIdsSnoc(front, c);
    ChunkIdsSnoc(prefix, c);
    hide Tells, ChunkIds, First, I.EventIds;
    forall id ensures id in ChunkIds(front + [c]) <==> id in ChunkIds(prefix + [c]) {
      assert id in ChunkIds(front) <==> id in Elems(ChunkIds(front));
      assert id in ChunkIds(prefix) <==> id in Elems(ChunkIds(prefix));
    }
    forall id | id in ChunkIds(front + [c])
      ensures id in ChunkIds(prefix + [c]) && Tells(front + [c], key, id) == Tells(prefix + [c], key, id)
    {
      assert id in ChunkIds(front) <==> id in Elems(ChunkIds(front));
      assert id in ChunkIds(prefix) <==> id in Elems(ChunkIds(prefix));
      ChunkTells(front, c, key, id);
      ChunkTells(prefix, c, key, id);
    }
  }

  /** What the API has accepted from a shard tells what the beginning of the sent chunks tells. */
  lemma {:induction false} StutterTells(log: seq<D.Chunk>, sent: seq<D.Chunk>, key: ShardKey)
    requires D.StutteringPrefix(log, sent)
    ensures D.Reached(log) <= |sent| && SameWords(log, sent[..D.Reached(log)], key)
  {
    hide *;
    if log == [] {
      NothingTold(log, sent, key);
    } else {
      LastStutter(log, sent);
      var n := |log| - 1;
      var front, c := log[..n], log[n];
      var m := D.Reached(front);
      assert log == front + [c];
      StutterTells(front, sent, key);
      if n > 0 && c.number == log[n - 1].number {
        assert sent[..m][m - 1] == c;
        RepeatedTells(front, sent[..m], c, key);
      } else {
        assert sent[..m + 1] == sent[..m] + [c];
        NextTells(front, sent[..m], c, key);
      }
    }
  }

  lemma {:induction false} NothingTold(log: seq<D.Chunk>, sent: seq<D.Chunk>, key: ShardKey)
    requires log == []
    ensures D.Reached(log) == 0 && SameWords(log, sent[..D.Reached(log)], key)
  {
    assert sent[..0] == log;
  }

  /* ---------- drained ---------- */

  /** What the shards have told by what they sent: for each event id the first event with it. */
  ghost predicate Said(s: D.State, o: Observation) {
    exists key, id :: id in ChunkIds(D.SentBy(s, key)) && o == Tells(D.SentBy(s, key), key, id)
  }

  /** The database has committed what the API has accepted, and inside the inbox retention. */
  ghost predicate Joined(actions: seq<D.Action>, steps: seq<P.Step>) {
    && Committed(P.INITIAL, steps) == Batches(D.Run(D.START, actions).accepted)
    && SeparateIds(Committed(P.INITIAL, steps)) && InRetention(P.INITIAL, steps)
  }

  /** No thread has anything in its hands, the spool is empty, and so is the inbox. */
  ghost predicate Drained(s: D.State, db: P.Db) {
    s.phase == map[] && s.files == [] && forall i :: 0 <= i < |db.inbox| ==> !I.Unapplied(db.inbox[i])
  }

  ghost predicate PrunedWasApplied(inbox: seq<I.Row>) {
    forall i :: 0 <= i < |inbox| && inbox[i].pruned ==> inbox[i].appliedAt.Some?
  }

  lemma {:induction false} BlockPrunes(inbox: seq<I.Row>, failed: Option<nat>, ids: set<nat>, now: int)
    requires PrunedWasApplied(inbox)
    ensures PrunedWasApplied(I.MarkApplied(I.BackOff(inbox, failed, now), ids, now))
  {}

  lemma {:induction false} StepPrunes(db: P.Db, step: P.Step)
    requires PrunedWasApplied(db.inbox)
    ensures PrunedWasApplied(P.Next(db, step).inbox)
  {
    hide P.ApplyBlock, I.Claimed, I.HeadAfterApply, I.MarkApplied, I.BackOff, I.IdSet, I.PickShard, I.InsertAll,
             P.Leased, PrunedWasApplied;
    if P.Enabled(db, step) {
      match step
      case Enqueue(batch, stamps) => InsertPrunes(db.inbox, batch, stamps);
      case ApplyShard(locked, limit, at) =>
        var pick := I.PickShard(db.inbox, db.stock.heads, locked, at);
        if pick.Some? {
          var block := I.Claimed(db.inbox, pick.value, at, limit);
          var n := I.ReadablePrefix(block);
          BlockPrunes(db.inbox, if n < |block| then Some(block[n].eventId) else None, I.IdSet(block[..n]), at);
        }
      case Cleanup(_, _, hr, at) => SweepPrunes(db.inbox, at - hr);
      case _ =>
    }
  }

  lemma {:induction false} InsertPrunes(inbox: seq<I.Row>, batch: IngestBatch, stamps: seq<int>)
    requires PrunedWasApplied(inbox)
    ensures |stamps| == |batch.events| ==> PrunedWasApplied(I.InsertAll(inbox, batch.Key(), batch.events, stamps))
  {
    if |stamps| == |batch.events| {
      var added := AddedIds(inbox, batch, stamps);
    }
  }

  lemma {:induction false} SweepPrunes(inbox: seq<I.Row>, cutoff: int)
    requires PrunedWasApplied(inbox)
    ensures PrunedWasApplied(I.PruneApplied(inbox, cutoff))
  {}

  lemma {:induction false} RunPrunes(db: P.Db, steps: seq<P.Step>)
    requires PrunedWasApplied(db.inbox)
    ensures PrunedWasApplied(P.Run(db, steps).inbox)
    decreases steps
  {
    hide P.Next, PrunedWasApplied;
    if steps != [] {
      StepPrunes(db, steps[0]);
      RunPrunes(P.Next(db, steps[0]), steps[1..]);
    }
  }

  /** Of each shard, the inbox log tells what the shard's thread sent. */
  lemma {:induction false} OwnTells(actions: seq<D.Action>, steps: seq<P.Step>, key: ShardKey)
    requires Joined(actions, steps) && D.Run(D.START, actions).phase == map[] && D.Run(D.START, actions).files == []
    ensures var own, sent := Own(Committed(P.INITIAL, steps), key), D.SentBy(D.Run(D.START, actions), key);
            && Elems(BatchIds(own)) == Elems(ChunkIds(sent))
            && forall id :: id in BatchIds(own) && id in ChunkIds(sent) ==> Told(own, key, id) == Tells(sent, key, id)
  {
    var s := D.Run(D.START, actions);
    var log, sent := D.Only(s.accepted, key), D.SentBy(s, key);
    assert D.Only(s.files, key) == [];
    D.DrainedSpoolMeansDelivered(actions, key);
    D.NothingLostNothingReordered(actions, key);
    hide D.Run, D.Only, D.SentBy, D.StutteringPrefix, D.Safe, D.Reached, Told, BatchIds, SeparateIds, InRetention,
             Filter,
             Committed;
    OnlyBatches(s.accepted, key);
    StutterTells(log, sent, key);
    assert sent[..|sent|] == sent;
  }

  lemma {:induction false} AppliedWasSaid(actions: seq<D.Action>, steps: seq<P.Step>, r: I.Row)
    requires Joined(actions, steps) && Drained(D.Run(D.START, actions), P.Run(P.INITIAL, steps))
    requires r in P.Run(P.INITIAL, steps).inbox
    ensures Said(D.Run(D.START, actions), ToldByRow(r))
  {
    var s, log := D.Run(D.START, actions), Committed(P.INITIAL, steps);
    InitialHolds(steps);
    assert RowTells(r, log);
    OwnTells(actions, steps, r.key);
    hide D.Run, P.Run, Committed, SeparateIds, InRetention, D.SentBy, Told, Tells, BatchIds, ChunkIds, ToldByRow, Own;
    assert r.eventId in Elems(BatchIds(Own(log, r.key)));
    assert r.eventId in ChunkIds(D.SentBy(s, r.key));
    assert ToldByRow(r) == Tells(D.SentBy(s, r.key), r.key, r.eventId);
  }

  lemma {:induction false} SaidWasApplied(actions: seq<D.Action>, steps: seq<P.Step>, key: ShardKey, id: nat)
    returns (r: I.Row)
    requires Joined(actions, steps) && Drained(D.Run(D.START, actions), P.Run(P.INITIAL, steps))
    requires id in ChunkIds(D.SentBy(D.Run(D.START, actions), key))
    ensures r in P.Run(P.INITIAL, steps).inbox && r.appliedAt.Some?
    ensures ToldByRow(r) == Tells(D.SentBy(D.Run(D.START, actions), key), key, id)
  {
    var s, db, log := D.Run(D.START, actions), P.Run(P.INITIAL, steps), Committed(P.INITIAL, steps);
    assert PrunedWasApplied(P.INITIAL.inbox) && Holds(P.INITIAL.inbox, [], key) && [] + log == log;
    assert Joined(actions, steps) ==> InRetention(P.INITIAL, steps) && SeparateIds(log);
    assert Drained(s, db) ==> s.phase == map[] && s.files == [];
    hide *;
    InitialHolds(steps);
    RunPrunes(P.INITIAL, steps);
    RunHolds(P.INITIAL, steps, [], key);
    OwnTells(actions, steps, key);
    SentIsCommitted(s, log, key, id);
    r := HeldRow(db.inbox, log, key, id);
    AllApplied(s, db, r);
    TellingRow(db.inbox, log, r);
  }

  lemma {:induction false} SentIsCommitted(s: D.State, log: seq<IngestBatch>, key: ShardKey, id: nat)
    requires Elems(BatchIds(Own(log, key))) == Elems(ChunkIds(D.SentBy(s, key))) && id in ChunkIds(D.SentBy(s, key))
    ensures id in BatchIds(Own(log, key))
  {
    assert id in Elems(ChunkIds(D.SentBy(s, key)));
  }

  lemma {:induction false} AllApplied(s: D.State, db: P.Db, r: I.Row)
    requires Drained(s, db) && PrunedWasApplied(db.inbox) && r in db.inbox
    ensures r.appliedAt.Some?
  {}

  lemma {:induction false} TellingRow(inbox: seq<I.Row>, log: seq<IngestBatch>, r: I.Row)
    requires RowsTell(inbox, log) && r in inbox
    ensures r.eventId in BatchIds(Own(log, r.key)) && ToldByRow(r) == Told(Own(log, r.key), r.key, r.eventId)
  {
    assert RowTells(r, log);
  }

  /** Once everything is drained, what was applied is what was said. */
  lemma {:induction false} AppliedIsSaid(actions: seq<D.Action>, steps: seq<P.Step>, o: Observation)
    requires Joined(actions, steps) && Drained(D.Run(D.START, actions), P.Run(P.INITIAL, steps))
    ensures o in Observed(RunChanges(P.INITIAL, steps)) <==> Said(D.Run(D.START, actions), o)
  {
    var s, db := D.Run(D.START, actions), P.Run(P.INITIAL, steps);
    InitialHolds(steps);
    hide D.Run, P.Run, RunChanges, Observed, Joined, Drained, Tells, D.SentBy, ChunkIds, ToldByRow;
    if o in AppliedOf(db.inbox) {
      var r :| r in db.inbox && r.appliedAt.Some? && ToldByRow(r) == o;
      AppliedWasSaid(actions, steps, r);
    }
    if Said(s, o) {
      var key, id :| id in ChunkIds(D.SentBy(s, key)) && o == Tells(D.SentBy(s, key), key, id);
      var r := SaidWasApplied(actions, steps, key, id);
    }
  }

  /** The facts about the start that the run lemmas need. */
  lemma {:induction false} InitialHolds(steps: seq<P.Step>)
    requires InRetention(P.INITIAL, steps) && SeparateIds(Committed(P.INITIAL, steps))
    ensures RowsTell(P.Run(P.INITIAL, steps).inbox, Committed(P.INITIAL, steps))
    ensures AppliedOf(P.Run(P.INITIAL, steps).inbox) == Observed(RunChanges(P.INITIAL, steps))
  {
    assert [] + Committed(P.INITIAL, steps) == Committed(P.INITIAL, steps);
    assert AppliedOf([]) + Observed(RunChanges(P.INITIAL, steps)) == Observed(RunChanges(P.INITIAL, steps));
    R.RunKeepsInboxInv(P.INITIAL, []);
    assert P.Run(P.INITIAL, []) == P.INITIAL;
    hide P.Run, Committed, RunChanges, InRetention;
    RunTells(P.INITIAL, steps, [], ShardKey("", ""));
    RunAppliedOf(P.INITIAL, steps);
  }

  lemma {:induction false} HeldRow(inbox: seq<I.Row>, log: seq<IngestBatch>, key: ShardKey, id: nat) returns (r: I.Row)
    requires Holds(inbox, log, key) && id in BatchIds(Own(log, key))
    ensures r in inbox && r.key == key && r.eventId == id
  {
    var rows := I.RowsOf(inbox, key);
    assert id in I.Ids(rows);
    var i :| 0 <= i < |rows| && I.Ids(rows)[i] == id;
    r := rows[i];
    assert r in rows;
  }

  /** The changes of such a run may forget, but nothing stale of the id gets through for it. */
  ghost predicate Careful(steps: seq<P.Step>, id: ResourceId) {
    Unforgotten(EMPTY, EMPTY, RunChanges(P.INITIAL, steps), id)
  }

  /** Across lost acknowledgements, spooling, replays, crashes, workers, leases and retention: once everything is
      drained, an id is live exactly when the latest of what the shards have said of it is an upsert that is not behind
      the newest marker of its shard, and then with that content. */
  lemma {:induction false} LiveOnceDrained(actions: seq<D.Action>, steps: seq<P.Step>, said: set<Observation>,
                                           id: ResourceId, key: ShardKey, latest: Observation, cutoff: Option<int>)
    requires Joined(actions, steps) && Drained(D.Run(D.START, actions), P.Run(P.INITIAL, steps)) && Careful(steps, id)
    requires forall o :: o in said <==> Said(D.Run(D.START, actions), o)
    requires Travels(said, id, key) && NoEvent(said, id) && Latest(said, id, latest) && NewestCutoff(said, key, cutoff)
    ensures var s := P.Run(P.INITIAL, steps).stock;
            && (IsLive(s, id) <==> latest.action == Upsert && !Before(latest.At(), cutoff))
            && (IsLive(s, id) ==> s.rows[id].resource == latest.resource)
  {
    var changes := RunChanges(P.INITIAL, steps);
    assert Careful(steps, id) ==> Unforgotten(EMPTY, EMPTY, changes, id);
    assert EMPTY == P.INITIAL.stock;
    hide *;
    forall o ensures o in Observed(changes) <==> o in said {
      AppliedIsSaid(actions, steps, o);
    }
    assert Observed(changes) == said;
    RunIsPerformed(P.INITIAL, steps);
    LiveExactlyInRetention(changes, id, key, latest, cutoff);
    SameRows(P.Run(P.INITIAL, steps).stock, PerformAll(EMPTY, changes), id);
  }

  lemma {:induction false} SameRows(s: Stock, t: Stock, id: ResourceId)
    requires SameInventory(s, t)
    ensures s.rows == t.rows && (IsLive(s, id) <==> IsLive(t, id)) && (IsLive(s, id) ==> id in s.rows)
  {}

  /** Two systems whose shards have said the same have, once drained, the same live inventory, whatever else went
      differently. */
  lemma {:induction false} DrainedSystemsAgree(actions: seq<D.Action>, steps: seq<P.Step>, others: seq<D.Action>,
                                               more: seq<P.Step>, said: set<Observation>, id: ResourceId, key: ShardKey)
    requires Joined(actions, steps) && Drained(D.Run(D.START, actions), P.Run(P.INITIAL, steps)) && Careful(steps, id)
    requires Joined(others, more) && Drained(D.Run(D.START, others), P.Run(P.INITIAL, more)) && Careful(more, id)
    requires forall o :: o in said <==> Said(D.Run(D.START, actions), o)
    requires forall o :: o in said <==> Said(D.Run(D.START, others), o)
    requires Travels(said, id, key) && NoEvent(said, id)
    ensures SameLive(P.Run(P.INITIAL, steps).stock, P.Run(P.INITIAL, more).stock, id)
  {
    var a, b := RunChanges(P.INITIAL, steps), RunChanges(P.INITIAL, more);
    assert Careful(steps, id) ==> Unforgotten(EMPTY, EMPTY, a, id);
    assert Careful(more, id) ==> Unforgotten(EMPTY, EMPTY, b, id);
    assert EMPTY == P.INITIAL.stock;
    hide *;
    forall o ensures (o in Observed(a) <==> o in said) && (o in Observed(b) <==> o in said) {
      AppliedIsSaid(actions, steps, o);
      AppliedIsSaid(others, more, o);
    }
    assert Observed(a) == said && Observed(b) == said;
    RunIsPerformed(P.INITIAL, steps);
    RunIsPerformed(P.INITIAL, more);
    ConvergesInRetention(a, b, id, key);
    SameEnds(P.Run(P.INITIAL, steps).stock, PerformAll(EMPTY, a), P.Run(P.INITIAL, more).stock, PerformAll(EMPTY, b),
             id);
  }

  lemma {:induction false} SameEnds(s: Stock, a: Stock, t: Stock, b: Stock, id: ResourceId)
    requires SameInventory(s, a) && SameInventory(t, b) && SameLive(a, b, id)
    ensures SameLive(s, t, id)
  {}
}

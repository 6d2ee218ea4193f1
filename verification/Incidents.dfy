/** The incidents a receiver derives from the outbox agree with the inventory. */
module Incidents {
  import opened Model
  import opened Seqs
  import opened Inventory
  import opened Outbox
  import opened Pipeline
  import I = Inbox

  predicate Problem(s: Stock, id: ResourceId) {
    IsLive(s, id) && s.rows[id].resource.state != OK
  }

  /** Folding the outbox rows of a resource gives "open" exactly when its row is live and not ok. */
  predicate Agrees(s: Stock, id: ResourceId) {
    Open(s.outbox, id) == Problem(s, id)
  }

  /* ---------- the fold over queued notes ---------- */

  lemma {:induction false} OpenAfterQueue(outbox: seq<OutRow>, note: Note, now: int, id: ResourceId)
    ensures Open(Queue(outbox, note, now), id) == if note.id == id then !Closes(note) else Open(outbox, id)
  {
    assert Queue(outbox, note, now)[..|outbox|] == outbox;
  }

  lemma {:induction false} OpenBySameNotes(a: seq<OutRow>, b: seq<OutRow>, id: ResourceId)
    requires |a| == |b| && forall i :: 0 <= i < |a| ==> a[i].note == b[i].note
    ensures Open(a, id) == Open(b, id)
  {
    if a != [] {
      OpenBySameNotes(a[..|a| - 1], b[..|b| - 1], id);
    }
  }

  lemma {:induction false} OpenAfterRemoved(outbox: seq<OutRow>, rows: map<ResourceId, Row>, order: seq<ResourceId>,
                                            key: ShardKey, cutoff: int, now: int, id: ResourceId)
    requires forall x :: x in rows ==> rows[x].resource.Id() == x
    ensures Open(QueueRemoved(outbox, rows, order, key, cutoff, now), id)
         == if id in order && id in rows && Unseen(rows[id], key, cutoff) && rows[id].resource.state != OK then false
            else Open(outbox, id)
    decreases order
  {
    if order != [] {
      var x := order[0];
      if x in rows && Unseen(rows[x], key, cutoff) && rows[x].resource.state != OK {
        var note := NoteFor(rows[x].resource, Delete);
        OpenAfterQueue(outbox, note, now, id);
        OpenAfterRemoved(Queue(outbox, note, now), rows, order[1..], key, cutoff, now, id);
      } else {
        OpenAfterRemoved(outbox, rows, order[1..], key, cutoff, now, id);
      }
    }
  }

  lemma {:induction false} OpenAfterRecovered(outbox: seq<OutRow>, rows: map<ResourceId, Row>, order: seq<ResourceId>,
                                              locked: set<ResourceId>, now: int, id: ResourceId)
    requires forall x :: x in rows ==> rows[x].resource.Id() == x
    ensures Open(QueueRecovered(outbox, rows, order, locked, now), id)
         == if id in order && Recovers(rows, id, locked, now) then false else Open(outbox, id)
    decreases order
  {
    if order != [] {
      var x := order[0];
      if Recovers(rows, x, locked, now) {
        var note := NoteFor(Resolved(rows[x].resource, PassReason(rows, rows[x], now)), Upsert);
        OpenAfterQueue(outbox, note, now, id);
        OpenAfterRecovered(Queue(outbox, note, now), rows, order[1..], locked, now, id);
      } else {
        OpenAfterRecovered(outbox, rows, order[1..], locked, now, id);
      }
    }
  }

  /* ---------- one transaction ---------- */

  lemma {:induction false} WellFormedAfterWrite(s: Stock, shard: string, action: Action, r: Resource, at: int, now: int)
    requires WellFormed(s)
    ensures WellFormed(Write(s, shard, action, r, at, now))
  {
    var next := Write(s, shard, action, r, at, now);
    if r.Id() !in s.rows {
      forall id ensures id in s.order + [r.Id()] <==> id in next.rows {
        assert id in s.order <==> id in s.rows;
      }
    }
  }

  lemma {:induction false} WellFormedAfterApply(s: Stock, shard: string, action: Action, r: Resource, now: int)
    requires WellFormed(s)
    ensures WellFormed(ApplyResource(s, shard, action, r, now))
  {
    var at := RoundToMicros(r.observedAt);
    WellFormedAfterWrite(s, shard, action, if action == Upsert then ResolveEvent(s.rows, r, now) else r, at, now);
  }

  /** The row a write stores is not stale. */
  predicate Fresh(s: Stock, id: ResourceId, at: int) {
    id in s.rows ==> s.rows[id].observedAt <= at
  }

  /** A write keeps the agreement exactly when it is not an upsert of a problem that claims to be deleted already. */
  lemma {:induction false} WriteAgrees(s: Stock, shard: string, action: Action, r: Resource, at: int, now: int,
                                       id: ResourceId)
    requires WellFormed(s) && Agrees(s, id) && (action == Upsert || action == Delete)
    ensures Agrees(Write(s, shard, action, r, at, now), id) <==>
            !(r.Id() == id && Fresh(s, id, at) && action == Upsert && r.deletedAt.Some? && r.state != OK)
  {
    if ShouldNotify(s.rows, action, r) {
      OpenAfterQueue(s.outbox, NoteFor(r, action), now, id);
    }
  }

  lemma {:induction false} ReconcileAgrees(s: Stock, key: ShardKey, cutoff: int, now: int, id: ResourceId)
    requires WellFormed(s) && Agrees(s, id)
    ensures WellFormed(ReconcileShard(s, key, cutoff, now)) && Agrees(ReconcileShard(s, key, cutoff, now), id)
  {
    OpenAfterRemoved(s.outbox, s.rows, s.order, key, cutoff, now, id);
    assert id in s.order <==> id in s.rows;
  }

  /** Upserts of this id never carry a deletion time. */
  predicate PlainEvent(action: Action, r: Resource, id: ResourceId) {
    r.Id() == id ==> !EventRow(r) && (action == Upsert ==> r.deletedAt.None?)
  }

  lemma {:induction false} ApplyAgrees(s: Stock, shard: string, action: Action, r: Resource, now: int, id: ResourceId)
    requires WellFormed(s) && Agrees(s, id) && PlainEvent(action, r, id)
    ensures WellFormed(ApplyResource(s, shard, action, r, now)) && Agrees(ApplyResource(s, shard, action, r, now), id)
  {
    var at := RoundToMicros(r.observedAt);
    var key := ShardKey(r.cluster, shard);
    WellFormedAfterApply(s, shard, action, r, now);
    if action == Reconcile {
      ReconcileAgrees(s, key, at, now, id);
    } else if action != Heartbeat {
      WriteAgrees(s, shard, action, if action == Upsert then ResolveEvent(s.rows, r, now) else r, at, now, id);
    }
  }

  lemma {:induction false} ResolveAgrees(s: Stock, locked: set<ResourceId>, now: int, id: ResourceId)
    requires WellFormed(s) && Agrees(s, id)
    ensures WellFormed(Inventory.ResolveEvents(s, locked, now)) && Agrees(Inventory.ResolveEvents(s, locked, now), id)
  {
    OpenAfterRecovered(s.outbox, s.rows, s.order, locked, now, id);
    assert id in s.order <==> id in s.rows;
  }

  lemma {:induction false} DistinctAfterFilter(p: ResourceId -> bool, s: seq<ResourceId>)
    requires Distinct(s)
    ensures Distinct(Filter(p, s))
  {
    if s != [] {
      DistinctAfterFilter(p, s[1..]);
    }
  }

  lemma {:induction false} PruneWellFormed(s: Stock, eventCutoff: int, tombstoneCutoff: int, historyCutoff: int)
    requires WellFormed(s)
    ensures WellFormed(Prune(s, eventCutoff, tombstoneCutoff, historyCutoff))
  {
    var next := Prune(s, eventCutoff, tombstoneCutoff, historyCutoff);
    DistinctAfterFilter(Kept(next.rows), s.order);
    forall x ensures x in next.order <==> x in next.rows {
      assert x in s.order <==> x in s.rows;
    }
  }

  /** Retention keeps the agreement exactly when it does not drop a live problem, which only event rows can be. */
  lemma {:induction false} PruneAgrees(s: Stock, eventCutoff: int, tombstoneCutoff: int, historyCutoff: int,
                                       id: ResourceId)
    requires WellFormed(s) && Agrees(s, id)
    ensures WellFormed(Prune(s, eventCutoff, tombstoneCutoff, historyCutoff))
    ensures Agrees(Prune(s, eventCutoff, tombstoneCutoff, historyCutoff), id) <==>
            !(Problem(s, id) && EventRow(s.rows[id].resource) && s.rows[id].observedAt < eventCutoff)
  {
    PruneWellFormed(s, eventCutoff, tombstoneCutoff, historyCutoff);
    OpenBySameNotes(s.outbox, PruneOutbox(s.outbox, historyCutoff), id);
  }

  /* ---------- every run ---------- */

  ghost predicate PlainInbox(inbox: seq<I.Row>, id: ResourceId) {
    forall i :: 0 <= i < |inbox| ==> PlainEvent(inbox[i].action, inbox[i].resource, id)
  }

  ghost predicate PlainStep(step: Step, id: ResourceId) {
    step.Enqueue? ==>
      forall i :: 0 <= i < |step.batch.events| ==>
                 PlainEvent(step.batch.events[i].action, step.batch.events[i].resource, id)
  }

  ghost predicate StockAgrees(s: Stock, id: ResourceId) {
    && WellFormed(s) && Agrees(s, id)
    && (id in s.rows ==> !EventRow(s.rows[id].resource))
  }

  ghost predicate AgreementInv(db: Db, id: ResourceId) {
    StockAgrees(db.stock, id) && PlainInbox(db.inbox, id)
  }

  lemma {:induction false} PlainAfterInsert(inbox: seq<I.Row>, key: ShardKey, events: seq<IngestEvent>,
                                            stamps: seq<int>, id: ResourceId)
    requires |events| == |stamps| && PlainInbox(inbox, id)
    requires forall i :: 0 <= i < |events| ==> PlainEvent(events[i].action, events[i].resource, id)
    ensures PlainInbox(I.InsertAll(inbox, key, events, stamps), id)
    decreases events
  {
    if events != [] {
      var rest := if I.Known(inbox, events[0].eventId) then inbox else inbox + [I.NewRow(key, events[0], stamps[0])];
      PlainAfterInsert(rest, key, events[1..], stamps[1..], id);
    }
  }

  lemma {:induction false} KindAfterApply(s: Stock, shard: string, action: Action, r: Resource, now: int,
                                          id: ResourceId)
    requires PlainEvent(action, r, id) && (id in s.rows ==> !EventRow(s.rows[id].resource))
    ensures id in ApplyResource(s, shard, action, r, now).rows ==>
              !EventRow(ApplyResource(s, shard, action, r, now).rows[id].resource)
  {}

  lemma {:induction false} BlockAgrees(s: Stock, block: seq<I.Row>, now: int, id: ResourceId)
    requires StockAgrees(s, id) && PlainInbox(block, id)
    ensures StockAgrees(ApplyBlock(s, block, now), id)
    decreases block
  {
    if block != [] {
      var e := block[0];
      ApplyAgrees(s, e.key.shard, e.action, e.resource, now, id);
      KindAfterApply(s, e.key.shard, e.action, e.resource, now, id);
      BlockAgrees(ApplyResource(s, e.key.shard, e.action, e.resource, now), block[1..], now, id);
    }
  }

  lemma {:induction false} ClaimedIsPlain(inbox: seq<I.Row>, key: ShardKey, now: int, limit: nat, n: nat,
                                          id: ResourceId)
    requires PlainInbox(inbox, id) && n <= |I.Claimed(inbox, key, now, limit)|
    ensures PlainInbox(I.Claimed(inbox, key, now, limit)[..n], id)
  {
    var block := I.Claimed(inbox, key, now, limit);
    forall i | 0 <= i < n ensures PlainEvent(block[i].action, block[i].resource, id) {
      assert block[i] in Filter(I.IsClaimable(key, now), inbox);
      assert block[i] in inbox;
    }
  }

  lemma {:induction false} PlainAfterMark(inbox: seq<I.Row>, failed: Option<nat>, ids: set<nat>, now: int,
                                          id: ResourceId)
    requires PlainInbox(inbox, id)
    ensures PlainInbox(I.MarkApplied(I.BackOff(inbox, failed, now), ids, now), id)
  {}

  lemma {:induction false} PickedAgrees(db: Db, key: ShardKey, limit: nat, now: int, id: ResourceId)
    requires AgreementInv(db, id)
    ensures AgreementInv(ApplyPicked(db, key, limit, now).db, id)
  {
    var block := I.Claimed(db.inbox, key, now, limit);
    var n := I.ReadablePrefix(block);
    var failed := if n < |block| then Some(block[n].eventId) else None;
    ClaimedIsPlain(db.inbox, key, now, limit, n, id);
    BlockAgrees(db.stock, block[..n], now, id);
    PlainAfterMark(db.inbox, failed, I.IdSet(block[..n]), now, id);
  }

  lemma {:induction false} SameNotesAgree(s: Stock, outbox: seq<OutRow>, id: ResourceId)
    requires StockAgrees(s, id)
    requires |outbox| == |s.outbox| && forall i :: 0 <= i < |outbox| ==> outbox[i].note == s.outbox[i].note
    ensures StockAgrees(s.(outbox := outbox), id)
  {
    OpenBySameNotes(s.outbox, outbox, id);
  }

  lemma {:induction false} LeaseAgrees(db: Db, step: Step, id: ResourceId)
    requires AgreementInv(db, id) && (LeaseStep(step) || step.Send?)
    ensures AgreementInv(Next(db, step), id)
  {
    if LeaseStep(step) {
      SameNotesAgree(db.stock, Leased(db.stock.outbox, step), id);
    }
  }

  lemma {:induction false} RetentionAgrees(s: Stock, eventCutoff: int, tombstoneCutoff: int, historyCutoff: int,
                                           id: ResourceId)
    requires StockAgrees(s, id)
    ensures StockAgrees(Prune(s, eventCutoff, tombstoneCutoff, historyCutoff), id)
  {
    PruneAgrees(s, eventCutoff, tombstoneCutoff, historyCutoff, id);
  }

  lemma {:induction false} PlainAfterPrune(inbox: seq<I.Row>, cutoff: int, id: ResourceId)
    requires PlainInbox(inbox, id)
    ensures PlainInbox(I.PruneApplied(inbox, cutoff), id)
  {}

  lemma {:induction false} CleanupAgrees(db: Db, eventCutoff: int, tombstoneCutoff: int, historyCutoff: int, now: int,
                                         id: ResourceId)
    requires AgreementInv(db, id)
    ensures AgreementInv(Retain(db, eventCutoff, tombstoneCutoff, historyCutoff, now), id)
  {
    RetentionAgrees(db.stock, eventCutoff, tombstoneCutoff, historyCutoff, id);
    PlainAfterPrune(db.inbox, historyCutoff, id);
  }

  lemma {:induction false} RecoverAgrees(db: Db, busy: set<ResourceId>, now: int, id: ResourceId)
    requires AgreementInv(db, id)
    ensures AgreementInv(Recover(db, busy, now), id)
  {
    ResolveAgrees(db.stock, busy, now, id);
  }

  lemma {:induction false} EnqueueAgrees(db: Db, batch: IngestBatch, stamps: seq<int>, id: ResourceId)
    requires AgreementInv(db, id) && |stamps| == |batch.events| > 0
    requires forall i :: 0 <= i < |batch.events| ==> PlainEvent(batch.events[i].action, batch.events[i].resource, id)
    ensures AgreementInv(EnqueueBatch(db, batch, stamps), id)
  {
    PlainAfterInsert(db.inbox, batch.Key(), batch.events, stamps, id);
  }

  lemma {:induction false} ApplyNextAgrees(db: Db, locked: set<ShardKey>, limit: nat, now: int, id: ResourceId)
    requires AgreementInv(db, id)
    ensures AgreementInv(ApplyNext(db, locked, limit, now).db, id)
  {
    var pick := I.PickShard(db.inbox, db.stock.heads, locked, now);
    if pick.Some? {
      PickedAgrees(db, pick.value, limit, now, id);
    }
  }

  lemma {:induction false} StepAgrees(db: Db, step: Step, id: ResourceId)
    requires AgreementInv(db, id) && PlainStep(step, id)
    ensures AgreementInv(Next(db, step), id)
  {
    hide AgreementInv;
    if Enabled(db, step) {
      match step
      case Enqueue(batch, stamps) => EnqueueAgrees(db, batch, stamps, id);
      case ApplyShard(locked, limit, at) => ApplyNextAgrees(db, locked, limit, at, id);
      case ResolveEvents(busy, at) => RecoverAgrees(db, busy, at, id);
      case Cleanup(er, tr, hr, at) => CleanupAgrees(db, at - er, at - tr, at - hr, at, id);
      case _ => LeaseAgrees(db, step, id);
    }
  }

  /** In every run, for every resource that is not subject to event retention: its incident is open exactly when
      its stored row is live and not ok. */
  lemma {:induction false} IncidentAgreement(db: Db, steps: seq<Step>, id: ResourceId)
    requires AgreementInv(db, id) && forall i :: 0 <= i < |steps| ==> PlainStep(steps[i], id)
    ensures AgreementInv(Run(db, steps), id)
    decreases steps
  {
    if steps != [] {
      StepAgrees(db, steps[0], id);
      IncidentAgreement(Next(db, steps[0]), steps[1..], id);
    }
  }
}

/** What holds of the inbox in every run: exactly-once, strict shard order, and a head index that agrees with
    the scan. */
module InboxRuns {
  import opened Model
  import opened Seqs
  import opened Inventory
  import opened Pipeline
  import I = Inbox

  /* ---------- steps that leave the head index alone ---------- */

  /** Reconcile markers may only touch the watermark of a head. */
  ghost predicate SameIndex(a: map<ShardKey, I.Head>, b: map<ShardKey, I.Head>) {
    forall k :: I.HeadOf(a, k).eventId == I.HeadOf(b, k).eventId && I.HeadOf(a, k).pending == I.HeadOf(b, k).pending
                && (k in a ==> k in b)
  }

  lemma {:induction false} SameIndexAgrees(inbox: seq<I.Row>, a: map<ShardKey, I.Head>, b: map<ShardKey, I.Head>)
    requires SameIndex(a, b) && I.HeadsAgree(inbox, a)
    ensures I.HeadsAgree(inbox, b)
  {
    forall key ensures I.HeadAgrees(inbox, b, key) {
      assert I.HeadAgrees(inbox, a, key);
      assert I.HeadOf(a, key).eventId == I.HeadOf(b, key).eventId;
    }
  }

  lemma {:induction false} BlockKeepsIndex(s: Stock, block: seq<I.Row>, now: int)
    ensures SameIndex(s.heads, ApplyBlock(s, block, now).heads)
    decreases block
  {
    if block != [] {
      var next := ApplyResource(s, block[0].key.shard, block[0].action, block[0].resource, now);
      assert SameIndex(s.heads, next.heads);
      BlockKeepsIndex(next, block[1..], now);
      forall k ensures k in s.heads ==> k in ApplyBlock(s, block, now).heads {
        assert I.HeadOf(s.heads, k).pending == I.HeadOf(next.heads, k).pending;
      }
    }
  }

  lemma {:induction false} RetentionKeepsIndex(inbox: seq<I.Row>, heads: map<ShardKey, I.Head>, cutoff: int)
    requires I.HeadsAgree(inbox, heads)
    ensures I.HeadsAgree(I.PruneApplied(inbox, cutoff), I.PruneHeads(heads, cutoff))
  {
    var pruned := I.PruneApplied(inbox, cutoff);
    forall key ensures I.HeadAgrees(pruned, I.PruneHeads(heads, cutoff), key) {
      assert I.HeadAgrees(inbox, heads, key);
      I.PendingAfterPrune(inbox, cutoff, key);
    }
  }

  /* ---------- enqueue ---------- */

  lemma {:induction false} IdsAppend(a: seq<I.Row>, b: seq<I.Row>)
    ensures I.Ids(a + b) == I.Ids(a) + I.Ids(b)
  {
    var l, r := I.Ids(a + b), I.Ids(a) + I.Ids(b);
    forall i | 0 <= i < |l| ensures l[i] == r[i] {}
  }

  lemma {:induction false} InsertKeepsOrder(inbox: seq<I.Row>, clock: int, added: seq<I.Row>, stamps: seq<int>,
                                            now: int)
    requires I.Ordered(inbox, clock) && I.ReceivedInOrder(added)
    requires |stamps| > 0 && I.Ascending(stamps) && clock < stamps[0] && now == stamps[|stamps| - 1]
    requires forall i :: 0 <= i < |added| ==> added[i].receivedAt in stamps
    ensures I.Ordered(inbox + added, now)
    ensures forall i :: 0 <= i < |added| ==> added[i].receivedAt <= now
  {
    forall i | 0 <= i < |added| ensures clock < added[i].receivedAt <= now {
      var k :| 0 <= k < |stamps| && stamps[k] == added[i].receivedAt;
    }
  }

  lemma {:induction false} InsertKeepsUnique(inbox: seq<I.Row>, key: ShardKey, events: seq<IngestEvent>,
                                             stamps: seq<int>)
    requires I.UniqueIds(inbox) && |events| == |stamps|
    ensures I.UniqueIds(inbox + I.Fresh(I.KnownIds(inbox), key, events, stamps))
  {
    var seen := I.KnownIds(inbox);
    var added := I.Fresh(seen, key, events, stamps);
    var all := inbox + added;
    I.FreshIds(seen, key, events, stamps);
    FirstOccurrencesDistinct(seen, I.EventIds(events));
    forall i, j | 0 <= i < j < |all| && !all[i].pruned && !all[j].pruned ensures all[i].eventId != all[j].eventId {
      if j >= |inbox| {
        var id := I.Ids(added)[j - |inbox|];
        assert id in FirstOccurrences(seen, I.EventIds(events));
        if i < |inbox| {
          assert I.Known(inbox, inbox[i].eventId);
        } else {
          assert I.Ids(added)[i - |inbox|] != id;
        }
      }
    }
  }

  lemma {:induction false} InsertAgrees(inbox: seq<I.Row>, heads: map<ShardKey, I.Head>, added: seq<I.Row>,
                                        key: ShardKey)
    requires I.HeadsAgree(inbox, heads)
    requires forall i :: 0 <= i < |added| ==> added[i].key == key && I.Unapplied(added[i])
    ensures I.HeadsAgree(inbox + added, I.HeadAfterInsert(heads, key, |added|, inbox + added))
  {
    var next := I.HeadAfterInsert(heads, key, |added|, inbox + added);
    forall other ensures I.HeadAgrees(inbox + added, next, other) {
      assert I.HeadAgrees(inbox, heads, other) && I.HeadAgrees(inbox, heads, key);
      I.PendingAfterInsert(inbox, added, key, other);
    }
  }

  lemma {:induction false} InsertConserves(inbox: seq<I.Row>, applied: map<ShardKey, seq<nat>>, clock: int,
                                           added: seq<I.Row>, key: ShardKey, now: int)
    requires AllConserved(inbox, applied) && I.OnlyHeadsBackedOff(inbox, clock) && clock <= now
    requires forall i :: 0 <= i < |added| ==>
                 added[i].key == key && I.Unapplied(added[i]) && added[i].availableAt <= now
    ensures AllConserved(inbox + added, applied) && I.OnlyHeadsBackedOff(inbox + added, now)
  {
    hide I.PendingOf, I.RowsOf, AppliedTo, I.TailAvailable, I.Unapplied, I.Ids;
    var next := inbox + added;
    forall other ensures I.TailAvailable(I.PendingOf(next, other), now) {
      assert I.TailAvailable(I.PendingOf(inbox, other), clock);
      I.PendingAfterInsert(inbox, added, key, other);
      LongerTail(I.PendingOf(inbox, other), added, clock, now);
      LongerTail(I.PendingOf(inbox, other), [], clock, now);
      assert I.PendingOf(inbox, other) + [] == I.PendingOf(inbox, other);
    }
    forall other ensures Conserved(next, applied, other) {
      assert Conserved(inbox, applied, other);
      I.PendingAfterInsert(inbox, added, key, other);
      IdsGrowTogether(I.RowsOf(inbox, other), I.PendingOf(inbox, other), AppliedTo(applied, other), added);
    }
  }

  lemma {:induction false} LongerTail(p: seq<I.Row>, added: seq<I.Row>, clock: int, now: int)
    requires I.TailAvailable(p, clock) && clock <= now
    requires forall i :: 0 <= i < |added| ==> added[i].availableAt <= now
    ensures I.TailAvailable(p + added, now)
  {}

  /** The accepted and the pending rows of a shard grow by the same rows. */
  lemma {:induction false} IdsGrowTogether(rows: seq<I.Row>, pending: seq<I.Row>, done: seq<nat>, added: seq<I.Row>)
    requires I.Ids(rows) == done + I.Ids(pending)
    ensures I.Ids(rows + added) == done + I.Ids(pending + added)
  {
    hide I.Ids;
    IdsAppend(rows, added);
    IdsAppend(pending, added);
  }

  lemma {:induction false} EnqueueKeepsInv(db: Db, batch: IngestBatch, stamps: seq<int>)
    requires InboxInv(db) && Enabled(db, Enqueue(batch, stamps))
    ensures InboxInv(EnqueueBatch(db, batch, stamps))
  {
    var key := batch.Key();
    var added := I.Fresh(I.KnownIds(db.inbox), key, batch.events, stamps);
    var now := stamps[|stamps| - 1];
    I.InsertAppends(db.inbox, key, batch.events, stamps);
    I.FreshAscending(I.KnownIds(db.inbox), key, batch.events, stamps);
    InsertKeepsOrder(db.inbox, db.clock, added, stamps, now);
    InsertKeepsUnique(db.inbox, key, batch.events, stamps);
    InsertAgrees(db.inbox, db.stock.heads, added, key);
    InsertConserves(db.inbox, db.applied, db.clock, added, key, now);
  }

  /* ---------- apply ---------- */

  /** The picked shard's head is its first pending row. */
  lemma {:induction false} PickedHead(inbox: seq<I.Row>, heads: map<ShardKey, I.Head>, locked: set<ShardKey>, now: int)
    returns (key: ShardKey)
    requires I.UniqueIds(inbox) && I.HeadsAgree(inbox, heads) && I.PickShard(inbox, heads, locked, now).Some?
    ensures key == I.PickShard(inbox, heads, locked, now).value && key in heads && key !in locked
    ensures I.PendingOf(inbox, key) != [] && I.PendingOf(inbox, key)[0].availableAt <= now
  {
    key := I.PickShard(inbox, heads, locked, now).value;
    var p := I.PendingOf(inbox, key);
    var i :| 0 <= i < |inbox| && I.AvailableHead(heads, inbox[i], locked, now) && inbox[i].key == key;
    assert I.HeadAgrees(inbox, heads, key);
    assert inbox[i] in p;
    var k :| 0 <= k < |p| && p[k] == inbox[i];
    I.PendingDistinct(inbox, key);
    assert I.Ids(p)[0] == I.Ids(p)[k];
  }

  lemma {:induction false} AllClaimed(inbox: seq<I.Row>, key: ShardKey, now: int, limit: nat)
    requires forall r :: r in I.PendingOf(inbox, key) ==> r.availableAt <= now
    ensures var p := I.PendingOf(inbox, key);
            I.Claimed(inbox, key, now, limit) == if |p| <= limit then p else p[..limit]
  {
    forall r | r in inbox ensures I.IsClaimable(key, now)(r) == I.IsPending(key)(r) {
      if I.IsPending(key)(r) {
        assert r in I.PendingOf(inbox, key);
      }
    }
    FilterCongruence(I.IsClaimable(key, now), I.IsPending(key), inbox);
  }

  /** The picked shard's head is available, so every pending row of the shard is, and the claimed block is the
      beginning of the pending rows. */
  lemma {:induction false} ClaimedIsPrefix(db: Db, locked: set<ShardKey>, limit: nat, now: int)
    returns (key: ShardKey, p: seq<I.Row>)
    requires InboxInv(db) && db.clock <= now && limit >= 1
    requires I.PickShard(db.inbox, db.stock.heads, locked, now).Some?
    ensures key == I.PickShard(db.inbox, db.stock.heads, locked, now).value && key in db.stock.heads && key !in locked
    ensures p == I.PendingOf(db.inbox, key) && p != [] && p[0].availableAt <= now
    ensures I.Claimed(db.inbox, key, now, limit) == if |p| <= limit then p else p[..limit]
  {
    hide I.PendingOf, I.Claimed, I.PickShard, I.UniqueIds, I.HeadsAgree, I.Ordered, AllConserved;
    key := PickedHead(db.inbox, db.stock.heads, locked, now);
    p := I.PendingOf(db.inbox, key);
    assert I.TailAvailable(p, db.clock);
    AllClaimed(db.inbox, key, now, limit);
  }

  /** The inbox after a block: the first n pending rows done, the failed one backed off. */
  function AfterBlock(inbox: seq<I.Row>, done: seq<I.Row>, failed: Option<nat>, now: int): seq<I.Row> {
    I.MarkApplied(I.BackOff(inbox, failed, now), I.IdSet(done), now)
  }

  ghost predicate BlockOf(inbox: seq<I.Row>, key: ShardKey, n: nat, failed: Option<nat>) {
    && n <= |I.PendingOf(inbox, key)|
    && (failed.Some? ==> n < |I.PendingOf(inbox, key)| && failed.value == I.PendingOf(inbox, key)[n].eventId)
  }

  lemma {:induction false} IdsEqual(a: seq<I.Row>, b: seq<I.Row>)
    requires |a| == |b| && forall i :: 0 <= i < |a| ==> a[i].eventId == b[i].eventId
    ensures I.Ids(a) == I.Ids(b)
  {
    var l, r := I.Ids(a), I.Ids(b);
    forall i | 0 <= i < |l| ensures l[i] == r[i] {}
  }

  /** Backing off changes no id, so the first n rows can be removed by their ids. */
  lemma {:induction false} RemoveBackedOff(p: seq<I.Row>, n: nat, failed: Option<nat>, now: int)
    requires n <= |p| && Distinct(I.Ids(p))
    ensures var q := I.BackOff(p, failed, now);
            Filter(I.NotIn(I.IdSet(p[..n])), q) == q[n..] && I.Ids(q[n..]) == I.Ids(p[n..])
  {
    var q := I.BackOff(p, failed, now);
    IdsEqual(p, q);
    IdsEqual(p[n..], q[n..]);
    SameIds(p[..n], q[..n]);
    I.RemoveFirst(q, n);
  }

  /** After a block the shard's pending rows are what is left, the failed row first. */
  lemma {:induction false} PendingLeft(inbox: seq<I.Row>, key: ShardKey, n: nat, failed: Option<nat>, now: int)
    requires I.UniqueIds(inbox) && BlockOf(inbox, key, n, failed)
    ensures var p := I.PendingOf(inbox, key);
            I.PendingOf(AfterBlock(inbox, p[..n], failed, now), key) == I.BackOff(p, failed, now)[n..]
    ensures var p := I.PendingOf(inbox, key);
            I.Ids(I.PendingOf(AfterBlock(inbox, p[..n], failed, now), key)) == I.Ids(p[n..])
  {
    var p := I.PendingOf(inbox, key);
    I.PendingAfterMark(I.BackOff(inbox, failed, now), I.IdSet(p[..n]), now, key);
    I.PendingAfterBackOff(inbox, failed, now, key);
    I.PendingDistinct(inbox, key);
    RemoveBackedOff(p, n, failed, now);
  }

  /** ... and every other shard is untouched. */
  lemma {:induction false} OthersLeft(inbox: seq<I.Row>, key: ShardKey, n: nat, failed: Option<nat>, now: int,
                                      other: ShardKey)
    requires I.UniqueIds(inbox) && BlockOf(inbox, key, n, failed) && other != key
    ensures I.PendingOf(AfterBlock(inbox, I.PendingOf(inbox, key)[..n], failed, now), other)
              == I.PendingOf(inbox, other)
  {
    hide I.PendingOf, I.UniqueIds, I.BackOffRow;
    var p, o := I.PendingOf(inbox, key), I.PendingOf(inbox, other);
    var ids := I.IdSet(p[..n]);
    I.PendingAfterMark(I.BackOff(inbox, failed, now), ids, now, other);
    I.PendingAfterBackOff(inbox, failed, now, other);
    I.OtherShardUntouched(inbox, key, other, p);
    forall r | r in o ensures failed != Some(r.eventId) && r.eventId !in ids {
      assert r.eventId !in I.IdSet(p);
      if failed.Some? {
        assert p[n] in p;
      }
    }
    NothingBackedOff(o, failed, now);
    FilterAll(I.NotIn(ids), o);
  }

  lemma {:induction false} NothingBackedOff(rows: seq<I.Row>, failed: Option<nat>, now: int)
    requires forall r :: r in rows ==> failed != Some(r.eventId)
    ensures I.BackOff(rows, failed, now) == rows
  {}

  lemma {:induction false} SameIds(a: seq<I.Row>, b: seq<I.Row>)
    requires |a| == |b| && forall i :: 0 <= i < |a| ==> a[i].eventId == b[i].eventId
    ensures I.IdSet(a) == I.IdSet(b)
  {
    forall id | id in I.IdSet(a) ensures id in I.IdSet(b) {
      var i :| 0 <= i < |a| && a[i].eventId == id;
      assert b[i] in b;
    }
    forall id | id in I.IdSet(b) ensures id in I.IdSet(a) {
      var i :| 0 <= i < |b| && b[i].eventId == id;
      assert a[i] in a;
    }
  }

  ghost predicate SameShape(a: seq<I.Row>, b: seq<I.Row>) {
    |a| == |b| && forall i :: 0 <= i < |a| ==> a[i].receivedAt == b[i].receivedAt && (a[i].pruned ==> b[i].pruned)
                                               && a[i].eventId == b[i].eventId && a[i].key == b[i].key
  }

  lemma {:induction false} ShapeKeepsOrder(a: seq<I.Row>, b: seq<I.Row>, clock: int, now: int)
    requires SameShape(a, b) && I.Ordered(a, clock) && I.UniqueIds(a) && clock <= now
    ensures I.Ordered(b, now) && I.UniqueIds(b)
  {}

  lemma {:induction false} BlockAgrees(inbox: seq<I.Row>, heads: map<ShardKey, I.Head>, key: ShardKey, n: nat,
                                       failed: Option<nat>, now: int)
    requires I.UniqueIds(inbox) && I.HeadsAgree(inbox, heads) && key in heads && BlockOf(inbox, key, n, failed)
    ensures var next := AfterBlock(inbox, I.PendingOf(inbox, key)[..n], failed, now);
            I.HeadsAgree(next, I.HeadAfterApply(heads, key, n, next, now))
  {
    var next := AfterBlock(inbox, I.PendingOf(inbox, key)[..n], failed, now);
    forall other ensures I.HeadAgrees(next, I.HeadAfterApply(heads, key, n, next, now), other) {
      assert I.HeadAgrees(inbox, heads, other);
      if other == key {
        PendingLeft(inbox, key, n, failed, now);
      } else {
        OthersLeft(inbox, key, n, failed, now, other);
      }
    }
  }

  lemma {:induction false} BlockKeepsRows(inbox: seq<I.Row>, done: seq<I.Row>, failed: Option<nat>, now: int,
                                          key: ShardKey)
    ensures I.Ids(I.RowsOf(AfterBlock(inbox, done, failed, now), key)) == I.Ids(I.RowsOf(inbox, key))
  {
    I.RowsKeepIds(inbox, AfterBlock(inbox, done, failed, now), key);
  }

  lemma {:induction false} IdsSplit(p: seq<I.Row>, n: nat)
    requires n <= |p|
    ensures I.Ids(p) == I.Ids(p[..n]) + I.Ids(p[n..])
  {
    assert p[..n] + p[n..] == p;
    IdsAppend(p[..n], p[n..]);
  }

  lemma {:induction false} OwnConserved(inbox: seq<I.Row>, applied: map<ShardKey, seq<nat>>, key: ShardKey, n: nat,
                                        failed: Option<nat>, now: int)
    requires I.UniqueIds(inbox) && Conserved(inbox, applied, key) && BlockOf(inbox, key, n, failed)
    ensures var done := I.PendingOf(inbox, key)[..n];
            Conserved(AfterBlock(inbox, done, failed, now), applied[key := AppliedTo(applied, key) + I.Ids(done)], key)
  {
    var p := I.PendingOf(inbox, key);
    hide I.UniqueIds, I.PendingOf, I.RowsOf, I.Ids, AfterBlock;
    BlockKeepsRows(inbox, p[..n], failed, now, key);
    PendingLeft(inbox, key, n, failed, now);
    IdsSplit(p, n);
  }

  lemma {:induction false} OtherConserved(inbox: seq<I.Row>, applied: map<ShardKey, seq<nat>>, key: ShardKey, n: nat,
                                          failed: Option<nat>, now: int, other: ShardKey)
    requires I.UniqueIds(inbox) && Conserved(inbox, applied, other) && BlockOf(inbox, key, n, failed) && other != key
    ensures var done := I.PendingOf(inbox, key)[..n];
            Conserved(AfterBlock(inbox, done, failed, now), applied[key := AppliedTo(applied, key) + I.Ids(done)],
                      other)
  {
    hide I.UniqueIds, I.PendingOf, I.RowsOf, I.Ids, AfterBlock;
    BlockKeepsRows(inbox, I.PendingOf(inbox, key)[..n], failed, now, other);
    OthersLeft(inbox, key, n, failed, now, other);
  }

  lemma {:induction false} BlockConserves(inbox: seq<I.Row>, applied: map<ShardKey, seq<nat>>, key: ShardKey, n: nat,
                                          failed: Option<nat>, now: int)
    requires I.UniqueIds(inbox) && AllConserved(inbox, applied) && BlockOf(inbox, key, n, failed)
    ensures var done := I.PendingOf(inbox, key)[..n];
            AllConserved(AfterBlock(inbox, done, failed, now), applied[key := AppliedTo(applied, key) + I.Ids(done)])
  {
    hide I.UniqueIds, Conserved, I.PendingOf, I.Ids, AfterBlock, AppliedTo;
    var done := I.PendingOf(inbox, key)[..n];
    var next, log := AfterBlock(inbox, done, failed, now), applied[key := AppliedTo(applied, key) + I.Ids(done)];
    forall other ensures Conserved(next, log, other) {
      assert Conserved(inbox, applied, other);
      if other == key {
        OwnConserved(inbox, applied, key, n, failed, now);
      } else {
        OtherConserved(inbox, applied, key, n, failed, now, other);
      }
    }
  }

  lemma {:induction false} TailStaysAvailable(p: seq<I.Row>, clock: int, n: nat, failed: Option<nat>, now: int)
    requires I.TailAvailable(p, clock) && clock <= now && n <= |p| && Distinct(I.Ids(p))
    requires failed.Some? ==> n < |p| && failed.value == p[n].eventId
    ensures I.TailAvailable(I.BackOff(p, failed, now)[n..], now)
  {
    var q := I.BackOff(p, failed, now);
    forall i | n < i < |p| ensures q[i].availableAt <= now {
      assert I.Ids(p)[n] != I.Ids(p)[i];
      assert q[i] == I.BackOffRow(p[i], failed, now) == p[i];
    }
    hide I.BackOff, I.BackOffRow, I.Ids, Distinct;
  }

  lemma {:induction false} BlockBacksOffHead(inbox: seq<I.Row>, clock: int, key: ShardKey, n: nat, failed: Option<nat>,
                                             now: int)
    requires I.UniqueIds(inbox) && I.OnlyHeadsBackedOff(inbox, clock) && clock <= now && BlockOf(inbox, key, n, failed)
    ensures I.OnlyHeadsBackedOff(AfterBlock(inbox, I.PendingOf(inbox, key)[..n], failed, now), now)
  {
    var p := I.PendingOf(inbox, key);
    var next := AfterBlock(inbox, p[..n], failed, now);
    forall other ensures I.TailAvailable(I.PendingOf(next, other), now) {
      assert I.TailAvailable(I.PendingOf(inbox, other), clock);
      if other == key {
        PendingLeft(inbox, key, n, failed, now);
        I.PendingDistinct(inbox, key);
        TailStaysAvailable(p, clock, n, failed, now);
      } else {
        OthersLeft(inbox, key, n, failed, now, other);
      }
    }
  }

  /** The claimed block and its outcome, as one description of what ApplyPicked does. */
  lemma {:induction false} PickedBlock(db: Db, locked: set<ShardKey>, limit: nat, now: int)
    returns (key: ShardKey, n: nat, failed: Option<nat>)
    requires InboxInv(db) && db.clock <= now && limit >= 1
    requires I.PickShard(db.inbox, db.stock.heads, locked, now).Some?
    ensures key == I.PickShard(db.inbox, db.stock.heads, locked, now).value && key in db.stock.heads
    ensures BlockOf(db.inbox, key, n, failed) && n <= limit
    ensures n == 0 ==> failed.Some?
    ensures forall i :: 0 <= i < n ==> I.PendingOf(db.inbox, key)[i].readable
    ensures failed.Some? ==> !I.PendingOf(db.inbox, key)[n].readable
    ensures failed.None? ==> n == |I.PendingOf(db.inbox, key)| <= limit || n == limit
    ensures I.PendingOf(db.inbox, key) != []
    ensures var block := I.Claimed(db.inbox, key, now, limit);
            && n == I.ReadablePrefix(block) && block[..n] == I.PendingOf(db.inbox, key)[..n]
            && failed == if n < |block| then Some(block[n].eventId) else None
  {
    var p;
    key, p := ClaimedIsPrefix(db, locked, limit, now);
    var block := I.Claimed(db.inbox, key, now, limit);
    n := I.ReadablePrefix(block);
    failed := if n < |block| then Some(block[n].eventId) else None;
    assert block[..n] == p[..n];
  }

  /** What a block does to the database. */
  ghost predicate Effect(db: Db, r: BlockResult, key: ShardKey, n: nat, failed: Option<nat>, now: int)
    requires n <= |I.PendingOf(db.inbox, key)|
  {
    var done := I.PendingOf(db.inbox, key)[..n];
    && r.processed == n && r.failed == failed.Some? && r.db.clock == now && r.db.received == db.received
    && r.db.inbox == AfterBlock(db.inbox, done, failed, now)
    && r.db.applied == db.applied[key := AppliedTo(db.applied, key) + I.Ids(done)]
    && r.db.stock == ApplyBlock(db.stock, done, now).(heads := r.db.stock.heads)
    && r.db.stock.heads == I.HeadAfterApply(ApplyBlock(db.stock, done, now).heads, key, n, r.db.inbox, now)
  }

  lemma {:induction false} PickedEffect(db: Db, locked: set<ShardKey>, limit: nat, now: int)
    returns (key: ShardKey, n: nat, failed: Option<nat>)
    requires InboxInv(db) && db.clock <= now && limit >= 1
    requires I.PickShard(db.inbox, db.stock.heads, locked, now).Some?
    ensures I.PickShard(db.inbox, db.stock.heads, locked, now) == Some(key) && key in db.stock.heads
    ensures BlockOf(db.inbox, key, n, failed) && I.PendingOf(db.inbox, key) != []
    ensures forall i :: 0 <= i < n ==> I.PendingOf(db.inbox, key)[i].readable
    ensures failed.Some? ==> !I.PendingOf(db.inbox, key)[n].readable
    ensures failed.None? ==> n == |I.PendingOf(db.inbox, key)| <= limit || n == limit
    ensures n == 0 ==> failed.Some?
    ensures Effect(db, ApplyNext(db, locked, limit, now), key, n, failed, now)
  {
    hide InboxInv, I.PickShard, I.Claimed, I.ReadablePrefix, I.PendingOf, I.MarkApplied, I.BackOff, I.IdSet, I.Ids,
             I.HeadAfterApply, ApplyBlock, AppliedTo;
    key, n, failed := PickedBlock(db, locked, limit, now);
  }

  lemma {:induction false} BlockKeepsShape(inbox: seq<I.Row>, done: seq<I.Row>, failed: Option<nat>, now: int)
    ensures SameShape(inbox, AfterBlock(inbox, done, failed, now))
  {}

  lemma {:induction false} EffectKeepsInv(db: Db, r: BlockResult, key: ShardKey, n: nat, failed: Option<nat>, now: int)
    requires InboxInv(db) && db.clock <= now && BlockOf(db.inbox, key, n, failed) && key in db.stock.heads
    requires Effect(db, r, key, n, failed, now)
    ensures InboxInv(r.db)
  {
    hide I.Ordered, I.UniqueIds, I.HeadsAgree, I.OnlyHeadsBackedOff, AllConserved, AfterBlock, ApplyBlock,
             I.HeadAfterApply, I.PendingOf, SameShape;
    var done := I.PendingOf(db.inbox, key)[..n];
    var heads := ApplyBlock(db.stock, done, now).heads;
    BlockKeepsIndex(db.stock, done, now);
    BlockKeepsShape(db.inbox, done, failed, now);
    SameIndexAgrees(db.inbox, db.stock.heads, heads);
    ShapeKeepsOrder(db.inbox, r.db.inbox, db.clock, now);
    BlockAgrees(db.inbox, heads, key, n, failed, now);
    BlockConserves(db.inbox, db.applied, key, n, failed, now);
    BlockBacksOffHead(db.inbox, db.clock, key, n, failed, now);
  }

  lemma {:induction false} ApplyKeepsInv(db: Db, locked: set<ShardKey>, limit: nat, now: int)
    requires InboxInv(db) && db.clock <= now && limit >= 1
    ensures InboxInv(ApplyNext(db, locked, limit, now).db)
  {
    if I.PickShard(db.inbox, db.stock.heads, locked, now).None? {
      QuietKeepsInv(db.inbox, db.clock, now);
    } else {
      var key, n, failed := PickedEffect(db, locked, limit, now);
      EffectKeepsInv(db, ApplyNext(db, locked, limit, now), key, n, failed, now);
    }
  }

  lemma {:induction false} QuietKeepsInv(inbox: seq<I.Row>, clock: int, now: int)
    requires I.OnlyHeadsBackedOff(inbox, clock) && clock <= now
    ensures I.OnlyHeadsBackedOff(inbox, now)
  {
    forall key ensures I.TailAvailable(I.PendingOf(inbox, key), now) {
      assert I.TailAvailable(I.PendingOf(inbox, key), clock);
    }
  }

  lemma {:induction false} RetentionConserves(inbox: seq<I.Row>, applied: map<ShardKey, seq<nat>>, clock: int,
                                              cutoff: int)
    requires AllConserved(inbox, applied) && I.OnlyHeadsBackedOff(inbox, clock)
    ensures AllConserved(I.PruneApplied(inbox, cutoff), applied)
    ensures I.OnlyHeadsBackedOff(I.PruneApplied(inbox, cutoff), clock)
  {
    var next := I.PruneApplied(inbox, cutoff);
    forall key ensures I.TailAvailable(I.PendingOf(next, key), clock) && Conserved(next, applied, key) {
      assert I.TailAvailable(I.PendingOf(inbox, key), clock) && Conserved(inbox, applied, key);
      I.PendingAfterPrune(inbox, cutoff, key);
      I.RowsKeepIds(inbox, next, key);
    }
  }

  /* ---------- every step, every run ---------- */

  lemma {:induction false} RetainKeepsInv(db: Db, eventCutoff: int, tombstoneCutoff: int, historyCutoff: int, now: int)
    requires InboxInv(db) && db.clock <= now
    ensures InboxInv(Retain(db, eventCutoff, tombstoneCutoff, historyCutoff, now))
  {
    RetentionKeepsIndex(db.inbox, db.stock.heads, historyCutoff);
    RetentionConserves(db.inbox, db.applied, db.clock, historyCutoff);
    ShapeKeepsOrder(db.inbox, I.PruneApplied(db.inbox, historyCutoff), db.clock, now);
    QuietKeepsInv(I.PruneApplied(db.inbox, historyCutoff), db.clock, now);
  }

  /** What is neither inserted nor applied nor pruned leaves the inbox and its index alone. */
  lemma {:induction false} OtherKeepsInv(db: Db, next: Db)
    requires InboxInv(db) && next.inbox == db.inbox && next.stock.heads == db.stock.heads && next.applied == db.applied
    requires db.clock <= next.clock
    ensures InboxInv(next)
  {
    QuietKeepsInv(db.inbox, db.clock, next.clock);
  }

  lemma {:induction false} StepKeepsInboxInv(db: Db, step: Step)
    requires InboxInv(db)
    ensures InboxInv(Next(db, step))
  {
    hide InboxInv, EnqueueBatch, ApplyNext, Retain, Leased;
    if Enabled(db, step) {
      match step
      case Enqueue(batch, stamps) => EnqueueKeepsInv(db, batch, stamps);
      case ApplyShard(locked, limit, at) => ApplyKeepsInv(db, locked, limit, at);
      case Cleanup(er, tr, hr, at) => RetainKeepsInv(db, at - er, at - tr, at - hr, at);
      case _ => OtherKeepsInv(db, Next(db, step));
    }
  }

  lemma {:induction false} RunKeepsInboxInv(db: Db, steps: seq<Step>)
    requires InboxInv(db)
    ensures InboxInv(Run(db, steps))
    decreases steps
  {
    if steps != [] {
      StepKeepsInboxInv(db, steps[0]);
      RunKeepsInboxInv(Next(db, steps[0]), steps[1..]);
    }
  }

  /** In every run, each shard has applied a prefix of what it accepted, in the accepted order, and the rest is
      pending. */
  lemma {:induction false} StrictShardOrder(steps: seq<Step>, key: ShardKey)
    ensures var db := Run(INITIAL, steps);
            && AppliedTo(db.applied, key) <= I.Ids(I.RowsOf(db.inbox, key))
            && I.Ids(I.RowsOf(db.inbox, key))[|AppliedTo(db.applied, key)|..] == I.Ids(I.PendingOf(db.inbox, key))
  {
    RunKeepsInboxInv(INITIAL, steps);
    assert Conserved(Run(INITIAL, steps).inbox, Run(INITIAL, steps).applied, key);
  }
}

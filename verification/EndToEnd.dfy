/** From the collector's hands to the inbox: exactly once, in order. */
module EndToEnd {
  import opened Model
  import opened Seqs
  import P = Pipeline
  import I = Inbox
  import D = Delivery
  import R = InboxRuns

  /** The event ids of a sequence of batches, in order. */
  function BatchIds(batches: seq<IngestBatch>): seq<nat> {
    if batches == [] then [] else BatchIds(batches[..|batches| - 1]) + I.EventIds(batches[|batches| - 1].events)
  }

  function Batches(chunks: seq<D.Chunk>): (r: seq<IngestBatch>)
    ensures |r| == |chunks| && forall i :: 0 <= i < |chunks| ==> r[i] == chunks[i].batch
  {
    if chunks == [] then [] else Batches(chunks[..|chunks| - 1]) + [chunks[|chunks| - 1].batch]
  }

  function ForKey(key: ShardKey): IngestBatch -> bool {
    (b: IngestBatch) => b.Key() == key
  }

  function ChunkIds(chunks: seq<D.Chunk>): seq<nat> {
    BatchIds(Batches(chunks))
  }

  lemma {:induction false} BatchIdsSnoc(batches: seq<IngestBatch>, b: IngestBatch)
    ensures BatchIds(batches + [b]) == BatchIds(batches) + I.EventIds(b.events)
  {
    assert (batches + [b])[..|batches|] == batches;
  }

  lemma {:induction false} ChunkIdsSnoc(chunks: seq<D.Chunk>, c: D.Chunk)
    ensures ChunkIds(chunks + [c]) == ChunkIds(chunks) + I.EventIds(c.batch.events)
  {
    assert (chunks + [c])[..|chunks|] == chunks;
    BatchIdsSnoc(Batches(chunks), c.batch);
  }

  /* ---------- the sender's repetitions vanish ---------- */

  lemma {:induction false} FirstOccurrencesSnoc(a: seq<nat>, b: seq<nat>)
    ensures FirstOccurrences({}, a + b) == FirstOccurrences({}, a) + FirstOccurrences(Elems(a), b)
  {
    FirstOccurrencesAppend({}, a, b);
    assert {} + Elems(a) == Elems(a);
  }

  /** A batch that is repeated right away adds nothing. */
  lemma {:induction false} RepetitionAddsNothing(before: seq<nat>, ids: seq<nat>)
    requires Elems(ids) <= Elems(before)
    ensures FirstOccurrences({}, before + ids) == FirstOccurrences({}, before)
  {
    FirstOccurrencesSnoc(before, ids);
    FirstOccurrencesNone(Elems(before), ids);
  }

  lemma {:induction false} SameElems(a: seq<nat>, b: seq<nat>)
    requires FirstOccurrences({}, a) == FirstOccurrences({}, b)
    ensures Elems(a) == Elems(b)
  {
    forall x ensures x in Elems(a) <==> x in Elems(b) {
      assert x in FirstOccurrences({}, a) <==> x in a;
      assert x in FirstOccurrences({}, b) <==> x in b;
    }
  }

  /** The two hold the same events, once repetitions are dropped. */
  ghost predicate SameOnce(log: seq<D.Chunk>, prefix: seq<D.Chunk>) {
    FirstOccurrences({}, ChunkIds(log)) == FirstOccurrences({}, ChunkIds(prefix))
  }

  /** The last chunk of a stuttering prefix either repeats the one before it or is the next one sent. */
  lemma {:induction false} LastStutter(log: seq<D.Chunk>, sent: seq<D.Chunk>)
    requires D.StutteringPrefix(log, sent) && log != []
    ensures var n := |log| - 1;
            var m := D.Reached(log[..n]);
            && D.StutteringPrefix(log[..n], sent)
            && if n > 0 && log[n].number == log[n - 1].number
               then D.Reached(log) == m > 0 && m <= |sent| && sent[m - 1] == log[n]
               else D.Reached(log) == m + 1 <= |sent| && sent[m] == log[n]
  {
    var n := |log| - 1;
    assert forall i :: 0 <= i < n ==> log[..n][i] == log[i];
  }

  /** Deduplicating a stuttering prefix gives the deduplication of the prefix itself. */
  lemma {:induction false} StutterVanishes(log: seq<D.Chunk>, sent: seq<D.Chunk>)
    requires D.StutteringPrefix(log, sent)
    ensures D.Reached(log) <= |sent| && SameOnce(log, sent[..D.Reached(log)])
  {
    hide *;
    if log == [] {
      NothingOnce(log, sent);
    } else {
      LastStutter(log, sent);
      var n := |log| - 1;
      var front, c := log[..n], log[n];
      var m := D.Reached(front);
      assert log == front + [c];
      StutterVanishes(front, sent);
      if n > 0 && c.number == log[n - 1].number {
        assert sent[..m][m - 1] == c;
        RepeatedChunk(front, sent[..m], c);
      } else {
        assert sent[..m + 1] == sent[..m] + [c];
        NextChunk(front, sent[..m], c);
      }
    }
  }

  lemma {:induction false} NothingOnce(log: seq<D.Chunk>, sent: seq<D.Chunk>)
    requires log == []
    ensures D.Reached(log) == 0 && SameOnce(log, sent[..D.Reached(log)])
  {
    assert sent[..0] == log;
  }

  lemma {:induction false} RepeatedChunk(front: seq<D.Chunk>, prefix: seq<D.Chunk>, c: D.Chunk)
    requires SameOnce(front, prefix)
    requires prefix != [] && prefix[|prefix| - 1] == c
    ensures SameOnce(front + [c], prefix)
  {
    ChunkIdsSnoc(front, c);
    SameElems(ChunkIds(front), ChunkIds(prefix));
    LastIdsKnown(prefix);
    RepetitionAddsNothing(ChunkIds(front), I.EventIds(c.batch.events));
  }

  lemma {:induction false} NextChunk(front: seq<D.Chunk>, prefix: seq<D.Chunk>, c: D.Chunk)
    requires SameOnce(front, prefix)
    ensures SameOnce(front + [c], prefix + [c])
  {
    ChunkIdsSnoc(front, c);
    ChunkIdsSnoc(prefix, c);
    SameElems(ChunkIds(front), ChunkIds(prefix));
    FirstOccurrencesSnoc(ChunkIds(front), I.EventIds(c.batch.events));
    FirstOccurrencesSnoc(ChunkIds(prefix), I.EventIds(c.batch.events));
  }

  lemma {:induction false} LastIdsKnown(chunks: seq<D.Chunk>)
    requires chunks != []
    ensures Elems(I.EventIds(chunks[|chunks| - 1].batch.events)) <= Elems(ChunkIds(chunks))
  {
    var n := |chunks| - 1;
    assert chunks == chunks[..n] + [chunks[n]];
    ChunkIdsSnoc(chunks[..n], chunks[n]);
  }

  /* ---------- what the inbox holds after a log of accepted batches ---------- */

  /** The batches the API commits in a run, in order. */
  function Committed(db: P.Db, steps: seq<P.Step>): seq<IngestBatch>
    decreases steps
  {
    if steps == [] then []
    else
      var first := if P.Enabled(db, steps[0]) && steps[0].Enqueue? then [steps[0].batch] else [];
      first + Committed(P.Next(db, steps[0]), steps[1..])
  }

  /** Shards do not share event ids: ids are derived from the kind and the object, which belong to one shard. */
  ghost predicate SeparateIds(batches: seq<IngestBatch>) {
    forall i, j :: 0 <= i < |batches| && 0 <= j < |batches| && batches[i].Key() != batches[j].Key() ==>
      Elems(I.EventIds(batches[i].events)) !! Elems(I.EventIds(batches[j].events))
  }

  /** Every id the inbox ever held, whether or not retention has removed its row since. */
  ghost function AllIds(inbox: seq<I.Row>): set<nat> {
    Elems(I.Ids(inbox))
  }

  /** The inbox ever held exactly the ids of the log, and each shard the first occurrences of its own. */
  ghost predicate Holds(inbox: seq<I.Row>, log: seq<IngestBatch>, key: ShardKey) {
    && AllIds(inbox) == Elems(BatchIds(log))
    && I.Ids(I.RowsOf(inbox, key)) == FirstOccurrences({}, BatchIds(Filter(ForKey(key), log)))
  }

  /** A batch inside the inbox retention: what the inbox held of it is still there. */
  ghost predicate Remembers(inbox: seq<I.Row>, batch: IngestBatch) {
    forall id :: id in I.EventIds(batch.events) && id in AllIds(inbox) ==> I.Known(inbox, id)
  }

  /** No batch of the run comes after its ids have left the inbox. */
  ghost predicate InRetention(db: P.Db, steps: seq<P.Step>)
    decreases steps
  {
    steps == [] ||
    ((P.Enabled(db, steps[0]) && steps[0].Enqueue? ==> Remembers(db.inbox, steps[0].batch))
     && InRetention(P.Next(db, steps[0]), steps[1..]))
  }

  lemma {:induction false} IrrelevantSeen(a: set<nat>, b: set<nat>, s: seq<nat>)
    requires forall x :: x in s ==> (x in a <==> x in b)
    ensures FirstOccurrences(a, s) == FirstOccurrences(b, s)
    decreases s
  {
    if s != [] {
      if s[0] in a {
        IrrelevantSeen(a, b, s[1..]);
      } else {
        IrrelevantSeen(a + {s[0]}, b + {s[0]}, s[1..]);
      }
    }
  }

  lemma {:induction false} IdComesFromABatch(log: seq<IngestBatch>, id: nat) returns (i: nat)
    requires id in BatchIds(log)
    ensures i < |log| && id in I.EventIds(log[i].events)
  {
    var n := |log| - 1;
    if id in I.EventIds(log[n].events) {
      i := n;
    } else {
      i := IdComesFromABatch(log[..n], id);
    }
  }

  /** Of a new batch's ids, the ones known at all are the ones known in its own shard. */
  lemma {:induction false} KnownInOwnShard(log: seq<IngestBatch>, b: IngestBatch)
    requires SeparateIds(log + [b])
    ensures forall id :: id in I.EventIds(b.events) ==>
              (id in BatchIds(log) <==> id in BatchIds(Filter(ForKey(b.Key()), log)))
  {
    var own, ids := Filter(ForKey(b.Key()), log), I.EventIds(b.events);
    forall id | id in ids ensures id in BatchIds(log) <==> id in BatchIds(own) {
      if id in BatchIds(log) {
        var i := IdComesFromABatch(log, id);
        assert (log + [b])[i] == log[i] && (log + [b])[|log|] == b;
        assert id in Elems(I.EventIds(log[i].events)) && id in Elems(ids);
        assert log[i] in own;
        var k :| 0 <= k < |own| && own[k] == log[i];
        BatchIdsContain(own, k, id);
      }
      if id in BatchIds(own) {
        var i := IdComesFromABatch(own, id);
        assert own[i] in log;
        var k :| 0 <= k < |log| && log[k] == own[i];
        BatchIdsContain(log, k, id);
      }
    }
  }

  lemma {:induction false} BatchIdsContain(log: seq<IngestBatch>, i: nat, id: nat)
    requires i < |log| && id in I.EventIds(log[i].events)
    ensures id in BatchIds(log)
  {
    var n := |log| - 1;
    if i < n {
      BatchIdsContain(log[..n], i, id);
    }
  }

  /** The rows a batch adds to its own shard are the first occurrences that the shard itself has not seen. */
  lemma {:induction false} OwnAddition(log: seq<IngestBatch>, batch: IngestBatch, known: set<nat>)
    requires SeparateIds(log + [batch]) && known == Elems(BatchIds(log))
    ensures var mine := BatchIds(Filter(ForKey(batch.Key()), log));
            FirstOccurrences({}, mine + I.EventIds(batch.events))
              == FirstOccurrences({}, mine) + FirstOccurrences(known, I.EventIds(batch.events))
  {
    var mine, ids := BatchIds(Filter(ForKey(batch.Key()), log)), I.EventIds(batch.events);
    KnownInOwnShard(log, batch);
    IrrelevantSeen(known, Elems(mine), ids);
    FirstOccurrencesSnoc(mine, ids);
  }

  lemma {:induction false} LogOfKey(log: seq<IngestBatch>, batch: IngestBatch, key: ShardKey)
    ensures BatchIds(Filter(ForKey(key), log + [batch]))
         == BatchIds(Filter(ForKey(key), log)) + if batch.Key() == key then I.EventIds(batch.events) else []
  {
    FilterAppend(ForKey(key), log, [batch]);
    FilterCons(ForKey(key), batch, []);
    var mine := Filter(ForKey(key), log);
    if batch.Key() == key {
      BatchIdsSnoc(mine, batch);
    } else {
      assert mine + [] == mine;
    }
  }

  lemma {:induction false} RowsAfterAppend(inbox: seq<I.Row>, added: seq<I.Row>, own: ShardKey, key: ShardKey)
    requires forall i :: 0 <= i < |added| ==> added[i].key == own && I.Unapplied(added[i])
    ensures I.Ids(I.RowsOf(inbox + added, key)) == I.Ids(I.RowsOf(inbox, key)) + if own == key then I.Ids(added) else []
  {
    I.PendingAfterInsert(inbox, added, own, key);
    R.IdsAppend(I.RowsOf(inbox, key), added);
  }

  lemma {:induction false} OwnRowsAfterAppend(inbox: seq<I.Row>, added: seq<I.Row>, log: seq<IngestBatch>,
                                              batch: IngestBatch, key: ShardKey, known: set<nat>)
    requires I.Ids(I.RowsOf(inbox, key)) == FirstOccurrences({}, BatchIds(Filter(ForKey(key), log)))
    requires known == Elems(BatchIds(log)) && SeparateIds(log + [batch])
    requires forall i :: 0 <= i < |added| ==> added[i].key == batch.Key() && I.Unapplied(added[i])
    requires I.Ids(added) == FirstOccurrences(known, I.EventIds(batch.events))
    ensures I.Ids(I.RowsOf(inbox + added, key)) == FirstOccurrences({}, BatchIds(Filter(ForKey(key), log + [batch])))
  {
    hide *;
    RowsAfterAppend(inbox, added, batch.Key(), key);
    LogOfKey(log, batch, key);
    if batch.Key() == key {
      OwnAddition(log, batch, known);
    } else {
      var mine, ids := BatchIds(Filter(ForKey(key), log)), I.Ids(I.RowsOf(inbox, key));
      assert mine + [] == mine && ids + [] == ids;
    }
  }

  lemma {:induction false} AllIdsAppend(inbox: seq<I.Row>, added: seq<I.Row>)
    ensures AllIds(inbox + added) == AllIds(inbox) + Elems(I.Ids(added))
  {
    R.IdsAppend(inbox, added);
  }

  /** The rows a remembered batch adds carry the ids that the inbox never held. */
  lemma {:induction false} AddedIds(inbox: seq<I.Row>, batch: IngestBatch, stamps: seq<int>) returns (added: seq<I.Row>)
    requires |stamps| == |batch.events|
    ensures I.InsertAll(inbox, batch.Key(), batch.events, stamps) == inbox + added
    ensures forall i :: 0 <= i < |added| ==> added[i].key == batch.Key() && I.Unapplied(added[i])
    ensures I.Ids(added) == FirstOccurrences(I.KnownIds(inbox), I.EventIds(batch.events))
    ensures Remembers(inbox, batch) ==> I.Ids(added) == FirstOccurrences(AllIds(inbox), I.EventIds(batch.events))
  {
    var known, ids := I.KnownIds(inbox), I.EventIds(batch.events);
    added := I.Fresh(known, batch.Key(), batch.events, stamps);
    I.InsertAppends(inbox, batch.Key(), batch.events, stamps);
    I.FreshIds(known, batch.Key(), batch.events, stamps);
    if Remembers(inbox, batch) {
      forall id | id in ids ensures id in known <==> id in AllIds(inbox) {
        KnownWasHeld(inbox, id);
      }
      IrrelevantSeen(known, AllIds(inbox), ids);
    }
  }

  lemma {:induction false} KnownWasHeld(inbox: seq<I.Row>, id: nat)
    ensures I.Known(inbox, id) ==> id in AllIds(inbox)
  {
    if I.Known(inbox, id) {
      var i :| 0 <= i < |inbox| && !inbox[i].pruned && inbox[i].eventId == id;
      assert I.Ids(inbox)[i] == id;
    }
  }

  lemma {:induction false} EnqueueHolds(db: P.Db, log: seq<IngestBatch>, batch: IngestBatch, stamps: seq<int>,
                                        key: ShardKey)
    requires Holds(db.inbox, log, key) && SeparateIds(log + [batch]) && |stamps| == |batch.events| > 0
    requires Remembers(db.inbox, batch)
    ensures Holds(P.EnqueueBatch(db, batch, stamps).inbox, log + [batch], key)
  {
    hide SeparateIds, Remembers, AllIds;
    var added := AddedIds(db.inbox, batch, stamps);
    OwnRowsAfterAppend(db.inbox, added, log, batch, key, AllIds(db.inbox));
    BatchIdsSnoc(log, batch);
    AllIdsAppend(db.inbox, added);
  }

  lemma {:induction false} SameIdentityHolds(a: seq<I.Row>, b: seq<I.Row>, log: seq<IngestBatch>, key: ShardKey)
    requires I.SameIdentity(a, b) && Holds(a, log, key)
    ensures Holds(b, log, key)
  {
    I.RowsKeepIds(a, b, key);
    R.IdsEqual(a, b);
  }

  lemma {:induction false} UpdatesKeepIdentity(inbox: seq<I.Row>, failed: Option<nat>, ids: set<nat>, cutoff: int,
                                               now: int)
    ensures I.SameIdentity(inbox, inbox)
    ensures I.SameIdentity(inbox, I.MarkApplied(I.BackOff(inbox, failed, now), ids, now))
    ensures I.SameIdentity(inbox, I.PruneApplied(inbox, cutoff))
  {}

  lemma {:induction false} ApplyKeepsIdentity(db: P.Db, locked: set<ShardKey>, limit: nat, now: int)
    ensures I.SameIdentity(db.inbox, P.ApplyNext(db, locked, limit, now).db.inbox)
  {
    hide P.ApplyBlock, I.Claimed, I.HeadAfterApply, I.MarkApplied, I.BackOff, I.IdSet, I.SameIdentity;
    UpdatesKeepIdentity(db.inbox, None, {}, now, now);
    var pick := I.PickShard(db.inbox, db.stock.heads, locked, now);
    if pick.Some? {
      var block := I.Claimed(db.inbox, pick.value, now, limit);
      var n := I.ReadablePrefix(block);
      var failed := if n < |block| then Some(block[n].eventId) else None;
      UpdatesKeepIdentity(db.inbox, failed, I.IdSet(block[..n]), now, now);
    }
  }

  /** Every step but an insert, retention included, keeps the rows' identities and their order. */
  lemma {:induction false} OtherStepKeepsIdentity(db: P.Db, step: P.Step)
    requires !(P.Enabled(db, step) && step.Enqueue?)
    ensures I.SameIdentity(db.inbox, P.Next(db, step).inbox)
  {
    hide I.SameIdentity, P.ApplyNext, P.EnqueueBatch, P.Leased, P.Enabled, I.PruneApplied;
    UpdatesKeepIdentity(db.inbox, None, {}, if step.Cleanup? then step.at - step.historyRetention else 0, 0);
    if step.ApplyShard? {
      ApplyKeepsIdentity(db, step.locked, step.limit, step.at);
    }
  }

  lemma {:induction false} SeparatePrefix(some: seq<IngestBatch>, rest: seq<IngestBatch>)
    requires SeparateIds(some + rest)
    ensures SeparateIds(some)
  {
    assert forall i :: 0 <= i < |some| ==> some[i] == (some + rest)[i];
  }

  lemma {:induction false} RunHolds(db: P.Db, steps: seq<P.Step>, log: seq<IngestBatch>, key: ShardKey)
    requires Holds(db.inbox, log, key) && InRetention(db, steps)
    requires SeparateIds(log + Committed(db, steps))
    ensures Holds(P.Run(db, steps).inbox, log + Committed(db, steps), key)
    decreases steps
  {
    hide Holds, SeparateIds, I.SameIdentity, Remembers, P.EnqueueBatch, P.ApplyNext, P.Retain, P.Leased;
    if steps == [] {
      assert log + Committed(db, steps) == log;
    } else {
      var step, next := steps[0], P.Next(db, steps[0]);
      var rest := Committed(next, steps[1..]);
      if P.Enabled(db, step) && step.Enqueue? {
        var more := log + [step.batch];
        assert log + Committed(db, steps) == more + rest;
        SeparatePrefix(more, rest);
        EnqueueHolds(db, log, step.batch, step.stamps, key);
        RunHolds(next, steps[1..], more, key);
      } else {
        assert Committed(db, steps) == rest;
        OtherStepKeepsIdentity(db, step);
        SameIdentityHolds(db.inbox, next.inbox, log, key);
        RunHolds(next, steps[1..], log, key);
      }
    }
  }

  /* ---------- outside the retention ---------- */

  lemma {:induction false} RowsGrow(db: P.Db, step: P.Step, key: ShardKey)
    ensures I.Ids(I.RowsOf(db.inbox, key)) <= I.Ids(I.RowsOf(P.Next(db, step).inbox, key))
  {
    if P.Enabled(db, step) && step.Enqueue? {
      hide P.EnqueueBatch, I.RowsOf, I.Ids;
      InsertGrowsRows(db, step.batch, step.stamps, key);
    } else {
      hide P.Next;
      OtherStepKeepsIdentity(db, step);
      I.RowsKeepIds(db.inbox, P.Next(db, step).inbox, key);
    }
  }

  lemma {:induction false} InsertGrowsRows(db: P.Db, batch: IngestBatch, stamps: seq<int>, key: ShardKey)
    requires |stamps| == |batch.events| > 0
    ensures I.Ids(I.RowsOf(db.inbox, key)) <= I.Ids(I.RowsOf(P.EnqueueBatch(db, batch, stamps).inbox, key))
  {
    var added := AddedIds(db.inbox, batch, stamps);
    RowsAfterAppend(db.inbox, added, batch.Key(), key);
  }

  lemma {:induction false} RunGrowsRows(db: P.Db, steps: seq<P.Step>, key: ShardKey)
    ensures I.Ids(I.RowsOf(db.inbox, key)) <= I.Ids(I.RowsOf(P.Run(db, steps).inbox, key))
    decreases steps
  {
    if steps != [] {
      RowsGrow(db, steps[0], key);
      RunGrowsRows(P.Next(db, steps[0]), steps[1..], key);
    }
  }

  /** A batch whose ids have left the inbox is inserted again. */
  lemma {:induction false} ForgottenIsRepeated(db: P.Db, log: seq<IngestBatch>, batch: IngestBatch, stamps: seq<int>)
    requires Holds(db.inbox, log, batch.Key()) && SeparateIds(log + [batch]) && |stamps| == |batch.events| > 0
    requires !Remembers(db.inbox, batch)
    ensures !Distinct(I.Ids(I.RowsOf(P.EnqueueBatch(db, batch, stamps).inbox, batch.Key())))
  {
    var id :| id in I.EventIds(batch.events) && id in AllIds(db.inbox) && !I.Known(db.inbox, id);
    var key := batch.Key();
    var added := AddedIds(db.inbox, batch, stamps);
    hide I.RowsOf, I.Ids, I.Known, Remembers, FirstOccurrences, SeparateIds, Filter;
    var old_, new_ := I.Ids(I.RowsOf(db.inbox, key)), I.Ids(added);
    RowsAfterAppend(db.inbox, added, key, key);
    KnownInOwnShard(log, batch);
    assert id in old_ && id in new_;
    RepeatsAcross(old_, new_, id);
  }

  lemma {:induction false} RepeatsAcross(a: seq<nat>, b: seq<nat>, id: nat)
    requires id in a && id in b
    ensures !Distinct(a + b)
  {
    var i :| 0 <= i < |a| && a[i] == id;
    var j :| 0 <= j < |b| && b[j] == id;
    assert (a + b)[i] == (a + b)[|a| + j];
  }

  lemma {:induction false} RepeatedForGood(db: P.Db, steps: seq<P.Step>, log: seq<IngestBatch>, key: ShardKey)
    requires !Distinct(I.Ids(I.RowsOf(db.inbox, key)))
    ensures !Holds(P.Run(db, steps).inbox, log, key)
  {
    RunGrowsRows(db, steps, key);
    FirstOccurrencesDistinct({}, BatchIds(Filter(ForKey(key), log)));
    var now, later := I.Ids(I.RowsOf(db.inbox, key)), I.Ids(I.RowsOf(P.Run(db, steps).inbox, key));
    var i, j :| 0 <= i < j < |now| && now[i] == now[j];
    assert later[i] == later[j];
  }

  lemma {:induction false} BrokenOutsideRetention(db: P.Db, steps: seq<P.Step>, log: seq<IngestBatch>)
    returns (key: ShardKey)
    requires (forall k :: Holds(db.inbox, log, k)) && SeparateIds(log + Committed(db, steps)) && !InRetention(db, steps)
    ensures !Holds(P.Run(db, steps).inbox, log + Committed(db, steps), key)
    decreases steps
  {
    hide Holds, SeparateIds, I.SameIdentity, Remembers, P.EnqueueBatch, P.ApplyNext, P.Retain, P.Leased;
    var step, next := steps[0], P.Next(db, steps[0]);
    var rest := Committed(next, steps[1..]);
    if P.Enabled(db, step) && step.Enqueue? {
      var more := log + [step.batch];
      assert log + Committed(db, steps) == more + rest;
      SeparatePrefix(more, rest);
      if Remembers(db.inbox, step.batch) {
        forall k ensures Holds(next.inbox, more, k) {
          EnqueueHolds(db, log, step.batch, step.stamps, k);
        }
        key := BrokenOutsideRetention(next, steps[1..], more);
      } else {
        key := step.batch.Key();
        ForgottenIsRepeated(db, log, step.batch, step.stamps);
        RepeatedForGood(next, steps[1..], log + Committed(db, steps), key);
      }
    } else {
      assert Committed(db, steps) == rest;
      forall k ensures Holds(next.inbox, log, k) {
        OtherStepKeepsIdentity(db, step);
        SameIdentityHolds(db.inbox, next.inbox, log, k);
      }
      key := BrokenOutsideRetention(next, steps[1..], log);
    }
  }

  /** A run keeps the shards' first occurrences exactly when it stays inside the inbox retention. */
  lemma {:induction false} HoldsExactlyInRetention(db: P.Db, steps: seq<P.Step>, log: seq<IngestBatch>)
    requires (forall key :: Holds(db.inbox, log, key)) && SeparateIds(log + Committed(db, steps))
    ensures InRetention(db, steps) <==> forall key :: Holds(P.Run(db, steps).inbox, log + Committed(db, steps), key)
  {
    hide Holds, SeparateIds, InRetention, Committed, P.Run;
    if InRetention(db, steps) {
      forall key ensures Holds(P.Run(db, steps).inbox, log + Committed(db, steps), key) {
        RunHolds(db, steps, log, key);
      }
    } else {
      var key := BrokenOutsideRetention(db, steps, log);
    }
  }

  lemma {:induction false} BatchesSnoc(chunks: seq<D.Chunk>, c: D.Chunk)
    ensures Batches(chunks + [c]) == Batches(chunks) + [c.batch]
  {
    assert (chunks + [c])[..|chunks|] == chunks;
  }

  lemma {:induction false} OnlyBatches(chunks: seq<D.Chunk>, key: ShardKey)
    ensures Filter(ForKey(key), Batches(chunks)) == Batches(D.Only(chunks, key))
  {
    if chunks != [] {
      hide Filter, D.Only, Batches;
      var n := |chunks| - 1;
      var front, c := chunks[..n], chunks[n];
      OnlyBatches(front, key);
      assert chunks == front + [c];
      BatchesSnoc(front, c);
      FilterSnoc(ForKey(key), Batches(front), c.batch);
      D.OnlyAppend(front, c, key);
      BatchesSnoc(D.Only(front, key), c);
    }
  }

  /** For any interleaving of the sending threads, with any lost acknowledgements, spooling, replays and crashes, and
      for any run of the database inside the inbox retention that commits exactly the batches the API accepted: the
      inbox of a shard held exactly the first occurrences of the events sent so far, in the order they were sent, and
      the events applied are a beginning of them. */
  lemma {:induction false} ExactlyOnceInOrder(actions: seq<D.Action>, steps: seq<P.Step>, key: ShardKey)
    requires Committed(P.INITIAL, steps) == Batches(D.Run(D.START, actions).accepted)
    requires SeparateIds(Committed(P.INITIAL, steps)) && InRetention(P.INITIAL, steps)
    ensures var sent := D.SentBy(D.Run(D.START, actions), key);
            var reached := D.Reached(D.Only(D.Run(D.START, actions).accepted, key));
            var db := P.Run(P.INITIAL, steps);
            && reached <= |sent|
            && I.Ids(I.RowsOf(db.inbox, key)) == FirstOccurrences({}, ChunkIds(sent[..reached]))
            && P.AppliedTo(db.applied, key) <= FirstOccurrences({}, ChunkIds(sent[..reached]))
  {
    var s := D.Run(D.START, actions);
    var log := Committed(P.INITIAL, steps);
    assert [] + log == log && Holds(P.INITIAL.inbox, [], key);
    assert Holds(P.Run(P.INITIAL, steps).inbox, log, key) ==>
        I.Ids(I.RowsOf(P.Run(P.INITIAL, steps).inbox, key)) == FirstOccurrences({}, BatchIds(Filter(ForKey(key), log)));
    hide Holds, D.Run, P.Run, Committed, SeparateIds, InRetention, D.StutteringPrefix, D.Safe, D.Reached,
             FirstOccurrences,
             I.Ids, I.RowsOf, D.Only, D.SentBy, P.AppliedTo, I.PendingOf, Filter, Batches, BatchIds;
    RunHolds(P.INITIAL, steps, [], key);
    OnlyBatches(s.accepted, key);
    D.NothingLostNothingReordered(actions, key);
    StutterVanishes(D.Only(s.accepted, key), D.SentBy(s, key));
    R.StrictShardOrder(steps, key);
  }

  /** ... which is a prefix of the first occurrences of everything sent. */
  lemma {:induction false} PrefixOfSent(sent: seq<D.Chunk>, reached: nat)
    requires reached <= |sent|
    ensures FirstOccurrences({}, ChunkIds(sent[..reached])) <= FirstOccurrences({}, ChunkIds(sent))
  {
    if reached == |sent| {
      assert sent[..reached] == sent;
    } else {
      var n := |sent| - 1;
      PrefixOfSent(sent[..n], reached);
      assert sent[..n][..reached] == sent[..reached] && sent == sent[..n] + [sent[n]];
      ChunkIdsSnoc(sent[..n], sent[n]);
      FirstOccurrencesSnoc(ChunkIds(sent[..n]), I.EventIds(sent[n].batch.events));
    }
  }
}

/** A resource that a reconcile removed never comes back through a stale observation, even after its tombstone is
    pruned. */
module Resurrection {
  import opened Model
  import opened Inventory
  import opened Pipeline
  import I = Inbox

  type Heads = map<ShardKey, I.Head>

  /** Watermarks never decrease and never disappear. */
  ghost predicate Grows(a: Heads, b: Heads) {
    forall key :: Watermark(a, key).Some? ==>
               Watermark(b, key).Some? && Watermark(a, key).value <= Watermark(b, key).value
  }

  /** A row that stays is never moved back in time. */
  ghost predicate ObservedGrows(a: map<ResourceId, Row>, b: map<ResourceId, Row>) {
    forall id :: id in a && id in b ==> a[id].observedAt <= b[id].observedAt
  }

  /** Every live row was observed at or after the watermark of its shard. */
  ghost predicate LiveAfterWatermark(s: Stock) {
    forall id :: id in s.rows && s.rows[id].Live() ==>
               !Before(s.rows[id].observedAt, Watermark(s.heads, s.rows[id].Key()))
  }

  ghost predicate Progress(a: Stock, b: Stock) {
    Grows(a.heads, b.heads) && ObservedGrows(a.rows, b.rows) && LiveAfterWatermark(b)
  }

  lemma {:induction false} ApplyProgresses(s: Stock, shard: string, action: Action, r: Resource, now: int)
    requires LiveAfterWatermark(s)
    ensures Progress(s, ApplyResource(s, shard, action, r, now))
  {
    var key, at := ShardKey(r.cluster, shard), RoundToMicros(r.observedAt);
    var next := ApplyResource(s, shard, action, r, now);
    if action == Reconcile && next != s {
      forall id | id in next.rows && next.rows[id].Live()
        ensures !Before(next.rows[id].observedAt, Watermark(next.heads, next.rows[id].Key()))
      {
        assert s.rows[id].Live() && next.rows[id] == s.rows[id];
      }
    }
  }

  /** No transaction but retention removes a row. */
  ghost predicate KeepsRows(a: Stock, b: Stock) {
    a.rows.Keys <= b.rows.Keys
  }

  lemma {:induction false} BlockProgresses(s: Stock, block: seq<I.Row>, now: int)
    requires LiveAfterWatermark(s)
    ensures Progress(s, ApplyBlock(s, block, now)) && KeepsRows(s, ApplyBlock(s, block, now))
    decreases block
  {
    if block != [] {
      var next := ApplyResource(s, block[0].key.shard, block[0].action, block[0].resource, now);
      ApplyProgresses(s, block[0].key.shard, block[0].action, block[0].resource, now);
      BlockProgresses(next, block[1..], now);
    }
  }

  lemma {:induction false} ResolveProgresses(s: Stock, busy: set<ResourceId>, now: int)
    requires LiveAfterWatermark(s)
    ensures Progress(s, Inventory.ResolveEvents(s, busy, now))
  {
    var next := Inventory.ResolveEvents(s, busy, now);
    forall id | id in next.rows && next.rows[id].Live()
      ensures !Before(next.rows[id].observedAt, Watermark(next.heads, next.rows[id].Key()))
    {
      assert s.rows[id].Live() && next.rows[id].Key() == s.rows[id].Key();
    }
  }

  lemma {:induction false} PruneProgresses(s: Stock, eventCutoff: int, tombstoneCutoff: int, historyCutoff: int)
    requires LiveAfterWatermark(s)
    ensures Progress(s, Prune(s, eventCutoff, tombstoneCutoff, historyCutoff))
  {
    var next := Prune(s, eventCutoff, tombstoneCutoff, historyCutoff);
    forall key ensures Watermark(next.heads, key) == Watermark(s.heads, key) {}
  }

  /** Moving a head pointer leaves every watermark alone. */
  lemma {:induction false} HeadsProgress(s: Stock, heads: Heads)
    requires LiveAfterWatermark(s) && forall key :: Watermark(heads, key) == Watermark(s.heads, key)
    ensures Progress(s, s.(heads := heads))
  {}

  lemma {:induction false} EnqueueProgresses(db: Db, batch: IngestBatch, stamps: seq<int>)
    requires LiveAfterWatermark(db.stock) && |stamps| == |batch.events| > 0
    ensures Progress(db.stock, EnqueueBatch(db, batch, stamps).stock)
  {
    HeadsProgress(db.stock, EnqueueBatch(db, batch, stamps).stock.heads);
  }

  lemma {:induction false} PickedProgresses(db: Db, key: ShardKey, limit: nat, now: int)
    requires LiveAfterWatermark(db.stock)
    ensures Progress(db.stock, ApplyPicked(db, key, limit, now).db.stock)
  {
    var block := I.Claimed(db.inbox, key, now, limit);
    var n := I.ReadablePrefix(block);
    var stock := ApplyBlock(db.stock, block[..n], now);
    BlockProgresses(db.stock, block[..n], now);
    HeadsProgress(stock, ApplyPicked(db, key, limit, now).db.stock.heads);
  }

  lemma {:induction false} StepProgresses(db: Db, step: Step)
    requires LiveAfterWatermark(db.stock)
    ensures Progress(db.stock, Next(db, step).stock)
  {
    hide Progress;
    if Enabled(db, step) {
      match step
      case Enqueue(batch, stamps) => EnqueueProgresses(db, batch, stamps);
      case ApplyShard(locked, limit, at) =>
        var pick := I.PickShard(db.inbox, db.stock.heads, locked, at);
        if pick.Some? {
          PickedProgresses(db, pick.value, limit, at);
        } else {
          QuietProgresses(db.stock, db.stock);
        }
      case ResolveEvents(busy, at) => ResolveProgresses(db.stock, busy, at);
      case Cleanup(er, tr, hr, at) => PruneProgresses(db.stock, at - er, at - tr, at - hr);
      case _ => QuietProgresses(db.stock, Next(db, step).stock);
    } else {
      QuietProgresses(db.stock, db.stock);
    }
  }

  lemma {:induction false} QuietProgresses(a: Stock, b: Stock)
    requires LiveAfterWatermark(a) && a.heads == b.heads && a.rows == b.rows
    ensures Progress(a, b)
  {}

  lemma {:induction false} RunProgresses(db: Db, steps: seq<Step>)
    requires LiveAfterWatermark(db.stock)
    ensures LiveAfterWatermark(Run(db, steps).stock) && Grows(db.stock.heads, Run(db, steps).stock.heads)
    decreases steps
  {
    if steps != [] {
      StepProgresses(db, steps[0]);
      RunProgresses(Next(db, steps[0]), steps[1..]);
    }
  }

  /** A committed reconcile marker with cutoff C leaves a watermark of at least C. */
  lemma {:induction false} ReconcileLeavesWatermark(s: Stock, shard: string, r: Resource, now: int)
    ensures var mark := Watermark(ApplyResource(s, shard, Reconcile, r, now).heads, ShardKey(r.cluster, shard));
            mark.Some? && RoundToMicros(r.observedAt) <= mark.value
  {}

  /** Once a shard has been reconciled up to C, then after any further run, including any retention: nothing that
      is observed through the shard before C has any effect, and nothing live in the shard was observed before C. */
  lemma {:induction false} NoResurrection(db: Db, steps: seq<Step>, key: ShardKey, cutoff: int, action: Action,
                                          r: Resource, now: int)
    requires LiveAfterWatermark(db.stock)
    requires Watermark(db.stock.heads, key).Some? && cutoff <= Watermark(db.stock.heads, key).value
    requires r.cluster == key.cluster && RoundToMicros(r.observedAt) < cutoff
    ensures var s := Run(db, steps).stock;
            && ApplyResource(s, key.shard, action, r, now) == s
            && (forall id :: id in s.rows && s.rows[id].Live() && s.rows[id].Key() == key ==>
                    cutoff <= s.rows[id].observedAt)
  {
    RunProgresses(db, steps);
    assert ShardKey(r.cluster, key.shard) == key;
  }
}

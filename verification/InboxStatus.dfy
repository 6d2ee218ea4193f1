/** What the head index is for: totals and ages without scanning the backlog, and progress past a poisoned shard,
    which itself waits in every run. */
module InboxStatus {
  import opened Model
  import opened Seqs
  import opened Pipeline
  import opened InboxRuns
  import I = Inbox
  import Inventory

  /* ---------- the index agrees with the scan ---------- */

  /** (received_at, event_id) order. */
  predicate KeyLess(a: I.Row, b: I.Row) {
    a.receivedAt < b.receivedAt || (a.receivedAt == b.receivedAt && a.eventId < b.eventId)
  }

  /** In every run a head carries the number of unapplied rows of its shard and its least (received_at, event_id). */
  lemma {:induction false} HeadIndexAgreesWithScan(steps: seq<Step>, key: ShardKey)
    ensures var db := Run(INITIAL, steps);
            var p := I.PendingOf(db.inbox, key);
            && (forall r :: r in p <==> r in db.inbox && r.key == key && I.Unapplied(r))
            && (forall i, j :: 0 <= i < j < |p| ==> KeyLess(p[i], p[j]))
            && (key in db.stock.heads ==> db.stock.heads[key].pending == |p|)
            && (key in db.stock.heads ==> db.stock.heads[key].eventId == if p == [] then None else Some(p[0].eventId))
            && (key !in db.stock.heads ==> p == [])
  {
    RunKeepsInboxInv(INITIAL, steps);
    var db := Run(INITIAL, steps);
    assert I.HeadAgrees(db.inbox, db.stock.heads, key);
    FilterKeepsOrder(db.inbox, key);
  }

  lemma {:induction false} FilterKeepsOrder(inbox: seq<I.Row>, key: ShardKey)
    requires I.ReceivedInOrder(inbox)
    ensures I.ReceivedInOrder(I.PendingOf(inbox, key))
  {
    if inbox != [] {
      FilterKeepsOrder(inbox[1..], key);
      forall r | r in I.PendingOf(inbox[1..], key) ensures inbox[0].receivedAt < r.receivedAt {
        var i :| 0 <= i < |inbox[1..]| && inbox[1..][i] == r;
        assert inbox[i + 1] == r;
      }
    }
  }

  /* ---------- sums over shards ---------- */

  function UnappliedIn(keys: set<ShardKey>): I.Row -> bool {
    (r: I.Row) => r.key in keys && I.Unapplied(r)
  }

  function AnyUnapplied(): I.Row -> bool {
    (r: I.Row) => I.Unapplied(r)
  }

  ghost function SumPending(heads: map<ShardKey, I.Head>, keys: set<ShardKey>): int
    requires keys <= heads.Keys
  {
    if keys == {} then 0
    else
      var k :| k in keys;
      heads[k].pending + SumPending(heads, keys - {k})
  }

  lemma {:induction false} CountPartition(inbox: seq<I.Row>, keys: set<ShardKey>, k: ShardKey)
    requires k in keys
    ensures |Filter(UnappliedIn(keys), inbox)| == |I.PendingOf(inbox, k)| + |Filter(UnappliedIn(keys - {k}), inbox)|
  {
    if inbox != [] {
      CountPartition(inbox[1..], keys, k);
    }
  }

  lemma {:induction false} SumIsCount(inbox: seq<I.Row>, heads: map<ShardKey, I.Head>, keys: set<ShardKey>)
    requires I.HeadsAgree(inbox, heads) && keys <= heads.Keys
    ensures SumPending(heads, keys) == |Filter(UnappliedIn(keys), inbox)|
  {
    if keys == {} {
      FilterNone(UnappliedIn(keys), inbox);
    } else {
      var k :| k in keys && SumPending(heads, keys) == heads[k].pending + SumPending(heads, keys - {k});
      assert I.HeadAgrees(inbox, heads, k);
      CountPartition(inbox, keys, k);
      SumIsCount(inbox, heads, keys - {k});
    }
  }

  /** Adding the counters in any order gives the same total. */
  lemma {:induction false} SumStep(heads: map<ShardKey, I.Head>, keys: set<ShardKey>, k: ShardKey)
    requires k in keys && keys <= heads.Keys
    ensures SumPending(heads, keys) == heads[k].pending + SumPending(heads, keys - {k})
    decreases |keys|
  {
    var c :| c in keys && SumPending(heads, keys) == heads[c].pending + SumPending(heads, keys - {c});
    if c != k {
      SumStep(heads, keys - {c}, k);
      SumStep(heads, keys - {k}, c);
      assert keys - {c} - {k} == keys - {k} - {c};
    }
  }

  lemma {:induction false} TotalIsBacklog(inbox: seq<I.Row>, heads: map<ShardKey, I.Head>)
    requires I.HeadsAgree(inbox, heads)
    ensures SumPending(heads, heads.Keys) == |Filter(AnyUnapplied(), inbox)|
  {
    SumIsCount(inbox, heads, heads.Keys);
    forall r | r in inbox ensures UnappliedIn(heads.Keys)(r) == AnyUnapplied()(r) {
      if I.Unapplied(r) {
        assert r in I.PendingOf(inbox, r.key) && I.HeadAgrees(inbox, heads, r.key);
      }
    }
    FilterCongruence(UnappliedIn(heads.Keys), AnyUnapplied(), inbox);
  }

  /** A row some head points to. */
  predicate Joined(heads: map<ShardKey, I.Head>, r: I.Row) {
    !r.pruned && exists k :: k in heads && heads[k].eventId == Some(r.eventId)
  }

  /** Every event a head points to is unapplied. */
  lemma {:induction false} JoinedIsUnapplied(inbox: seq<I.Row>, heads: map<ShardKey, I.Head>, r: I.Row)
    requires I.HeadsAgree(inbox, heads) && I.UniqueIds(inbox)
    requires r in inbox && Joined(heads, r)
    ensures I.Unapplied(r)
  {
    var k :| k in heads && heads[k].eventId == Some(r.eventId);
    assert I.HeadAgrees(inbox, heads, k);
    var h := I.PendingOf(inbox, k)[0];
    assert h in I.PendingOf(inbox, k);
    var i :| 0 <= i < |inbox| && inbox[i] == r;
    var j :| 0 <= j < |inbox| && inbox[j] == h;
    assert i == j;
  }

  /** No unapplied event is older than every head: the minimum over the heads is the minimum over the backlog. */
  lemma {:induction false} HeadIsNotLater(inbox: seq<I.Row>, heads: map<ShardKey, I.Head>, clock: int, r: I.Row)
    returns (k: ShardKey, h: I.Row)
    requires I.HeadsAgree(inbox, heads) && I.Ordered(inbox, clock)
    requires r in inbox && I.Unapplied(r)
    ensures k in heads && h in inbox && !h.pruned && heads[k].eventId == Some(h.eventId) && h.receivedAt <= r.receivedAt
  {
    k := r.key;
    var p := I.PendingOf(inbox, k);
    assert r in p && I.HeadAgrees(inbox, heads, k);
    FilterKeepsOrder(inbox, k);
    h := p[0];
    assert h in p;
  }

  /* ---------- a poisoned shard stops only itself ---------- */

  /** A worker finds work exactly when some unlocked shard has a first pending event that is not backed off. */
  lemma {:induction false} OtherShardsProceed(db: Db, locked: set<ShardKey>, now: int)
    requires InboxInv(db) && db.clock <= now
    ensures I.PickShard(db.inbox, db.stock.heads, locked, now).Some? <==>
            exists key :: key !in locked && I.PendingOf(db.inbox, key) != []
              && I.PendingOf(db.inbox, key)[0].availableAt <= now
  {
    var inbox, heads := db.inbox, db.stock.heads;
    if I.PickShard(inbox, heads, locked, now).Some? {
      var key, p := ClaimedIsPrefix(db, locked, 1, now);
    }
    if key :| key !in locked && I.PendingOf(inbox, key) != [] && I.PendingOf(inbox, key)[0].availableAt <= now {
      var head := I.PendingOf(inbox, key)[0];
      assert head in I.PendingOf(inbox, key) && I.HeadAgrees(inbox, heads, key);
      var i :| 0 <= i < |inbox| && inbox[i] == head;
      assert I.AvailableHead(heads, inbox[i], locked, now);
    }
  }

  /** The shard's first pending event is this one, and it cannot be decoded. */
  ghost predicate Poisoned(inbox: seq<I.Row>, key: ShardKey, id: nat) {
    var p := I.PendingOf(inbox, key);
    p != [] && p[0].eventId == id && !p[0].readable
  }

  lemma {:induction false} BlockKeepsPoison(db: Db, r: BlockResult, picked: ShardKey, n: nat, failed: Option<nat>,
                                            now: int, key: ShardKey, id: nat)
    requires I.UniqueIds(db.inbox) && BlockOf(db.inbox, picked, n, failed)
    requires Effect(db, r, picked, n, failed, now)
    requires Poisoned(db.inbox, key, id) && (picked == key ==> n == 0)
    ensures Poisoned(r.db.inbox, key, id) && AppliedTo(r.db.applied, key) == AppliedTo(db.applied, key)
  {
    if picked == key {
      PendingLeft(db.inbox, key, n, failed, now);
    } else {
      OthersLeft(db.inbox, picked, n, failed, now, key);
    }
  }

  lemma {:induction false} ApplyKeepsPoison(db: Db, locked: set<ShardKey>, limit: nat, now: int, key: ShardKey, id: nat)
    requires InboxInv(db) && db.clock <= now && limit >= 1 && Poisoned(db.inbox, key, id)
    ensures var next := ApplyNext(db, locked, limit, now).db;
            Poisoned(next.inbox, key, id) && AppliedTo(next.applied, key) == AppliedTo(db.applied, key)
  {
    if I.PickShard(db.inbox, db.stock.heads, locked, now).Some? {
      var picked, n, failed := PickedEffect(db, locked, limit, now);
      assert picked == key ==> n == 0;
      hide Effect, BlockOf, I.PendingOf, ApplyNext;
      BlockKeepsPoison(db, ApplyNext(db, locked, limit, now), picked, n, failed, now, key, id);
    }
  }

  lemma {:induction false} EnqueueKeepsPoison(db: Db, batch: IngestBatch, stamps: seq<int>, key: ShardKey, id: nat)
    requires |stamps| == |batch.events| > 0 && Poisoned(db.inbox, key, id)
    ensures Poisoned(EnqueueBatch(db, batch, stamps).inbox, key, id)
  {
    var added := I.Fresh(I.KnownIds(db.inbox), batch.Key(), batch.events, stamps);
    I.InsertAppends(db.inbox, batch.Key(), batch.events, stamps);
    I.PendingAfterInsert(db.inbox, added, batch.Key(), key);
  }

  lemma {:induction false} StepKeepsPoison(db: Db, step: Step, key: ShardKey, id: nat)
    requires InboxInv(db) && Poisoned(db.inbox, key, id)
    ensures Poisoned(Next(db, step).inbox, key, id)
    ensures AppliedTo(Next(db, step).applied, key) == AppliedTo(db.applied, key)
  {
    hide InboxInv, ApplyNext, Leased, I.PendingOf;
    if Enabled(db, step) {
      match step
      case Enqueue(batch, stamps) => EnqueueKeepsPoison(db, batch, stamps, key, id);
      case ApplyShard(locked, limit, at) => ApplyKeepsPoison(db, locked, limit, at, key, id);
      case Cleanup(_, _, hr, at) => I.PendingAfterPrune(db.inbox, at - hr, key);
      case _ =>
    }
  }

  /** An undecodable event is never passed: once it is first in its shard it stays first in every run, whatever the
      other shards do, and the shard applies nothing. */
  lemma {:induction false} PoisonedShardWaits(db: Db, steps: seq<Step>, key: ShardKey, id: nat)
    requires InboxInv(db) && Poisoned(db.inbox, key, id)
    ensures Poisoned(Run(db, steps).inbox, key, id)
    ensures AppliedTo(Run(db, steps).applied, key) == AppliedTo(db.applied, key)
    decreases steps
  {
    if steps != [] {
      StepKeepsPoison(db, steps[0], key, id);
      StepKeepsInboxInv(db, steps[0]);
      PoisonedShardWaits(Next(db, steps[0]), steps[1..], key, id);
    }
  }

  /* ---------- a failed event waits, and lets other shards pass meanwhile ---------- */

  /** The shard's first pending event cannot be decoded and is backed off until then. */
  ghost predicate Waits(inbox: seq<I.Row>, key: ShardKey, id: nat, attempts: nat, until: int) {
    var p := I.PendingOf(inbox, key);
    p != [] && p[0].eventId == id && !p[0].readable && p[0].attempts == attempts && p[0].availableAt == until
  }

  /** A block that fails does so at an undecodable event; this one has one attempt more and waits as many seconds as it
      has attempts, at most sixty. */
  lemma {:induction false} FailedEventWaits(db: Db, locked: set<ShardKey>, limit: nat, now: int)
    returns (key: ShardKey, n: nat)
    requires InboxInv(db) && db.clock <= now && limit >= 1 && ApplyNext(db, locked, limit, now).failed
    ensures I.PickShard(db.inbox, db.stock.heads, locked, now) == Some(key)
    ensures n == ApplyNext(db, locked, limit, now).processed < |I.PendingOf(db.inbox, key)|
    ensures var r := I.PendingOf(db.inbox, key)[n];
            var seconds := if r.attempts + 1 < 60 then r.attempts + 1 else 60;
            Waits(ApplyNext(db, locked, limit, now).db.inbox, key, r.eventId, r.attempts + 1, now + seconds * 1_000_000)
  {
    var failed;
    assert I.PickShard(db.inbox, db.stock.heads, locked, now).Some?;
    hide ApplyNext, I.PendingOf, AfterBlock, InboxInv, I.PickShard, I.BackOff, Waits;
    key, n, failed := PickedEffect(db, locked, limit, now);
    FailedRowWaits(db, ApplyNext(db, locked, limit, now), key, n, failed, now);
  }

  lemma {:induction false} FailedRowWaits(db: Db, result: BlockResult, key: ShardKey, n: nat, failed: Option<nat>,
                                          now: int)
    requires I.UniqueIds(db.inbox) && BlockOf(db.inbox, key, n, failed) && failed.Some?
    requires Effect(db, result, key, n, failed, now) && !I.PendingOf(db.inbox, key)[n].readable
    ensures var r := I.PendingOf(db.inbox, key)[n];
            var seconds := if r.attempts + 1 < 60 then r.attempts + 1 else 60;
            Waits(result.db.inbox, key, r.eventId, r.attempts + 1, now + seconds * 1_000_000)
  {
    hide I.PendingOf, AfterBlock, I.BackOff;
    PendingLeft(db.inbox, key, n, failed, now);
    var p := I.PendingOf(db.inbox, key);
    assert p[n] in p;
    PendingIsUnapplied(db.inbox, key, p[n]);
    BackedOffFirst(p, n, now);
  }

  lemma {:induction false} BackedOffFirst(p: seq<I.Row>, n: nat, now: int)
    requires n < |p| && !p[n].pruned
    ensures var q, r := I.BackOff(p, Some(p[n].eventId), now)[n..], p[n];
            && q != [] && q[0].eventId == r.eventId && q[0].readable == r.readable && q[0].attempts == r.attempts + 1
            && q[0].availableAt == now + (if r.attempts + 1 < 60 then r.attempts + 1 else 60) * 1_000_000
  {
    assert I.BackOff(p, Some(p[n].eventId), now)[n..][0] == I.BackOffRow(p[n], Some(p[n].eventId), now);
  }

  lemma {:induction false} PendingIsUnapplied(inbox: seq<I.Row>, key: ShardKey, r: I.Row)
    requires r in I.PendingOf(inbox, key)
    ensures I.Unapplied(r) && r.key == key
  {}

  /** A shard whose first event waits is not picked; another one with an available first event is. */
  lemma {:induction false} WaitingIsNotPicked(db: Db, locked: set<ShardKey>, now: int, key: ShardKey)
    requires InboxInv(db) && db.clock <= now
    requires I.PendingOf(db.inbox, key) != [] && now < I.PendingOf(db.inbox, key)[0].availableAt
    ensures var pick := I.PickShard(db.inbox, db.stock.heads, locked, now);
            && pick != Some(key)
            && ((exists other :: other !in locked && I.PendingOf(db.inbox, other) != []
                   && I.PendingOf(db.inbox, other)[0].availableAt <= now) ==> pick.Some?)
  {
    hide I.PendingOf, InboxInv, I.PickShard;
    OtherShardsProceed(db, locked, now);
    if I.PickShard(db.inbox, db.stock.heads, locked, now).Some? {
      var picked, p := ClaimedIsPrefix(db, locked, 1, now);
    }
  }

  lemma {:induction false} BlockKeepsWait(db: Db, r: BlockResult, picked: ShardKey, n: nat, failed: Option<nat>,
                                          now: int, key: ShardKey, id: nat, attempts: nat, until: int)
    requires I.UniqueIds(db.inbox) && BlockOf(db.inbox, picked, n, failed) && picked != key
    requires Effect(db, r, picked, n, failed, now) && Waits(db.inbox, key, id, attempts, until)
    ensures Waits(r.db.inbox, key, id, attempts, until)
  {
    hide I.PendingOf, AfterBlock;
    OthersLeft(db.inbox, picked, n, failed, now, key);
  }

  lemma {:induction false} ApplyKeepsWait(db: Db, locked: set<ShardKey>, limit: nat, now: int, key: ShardKey, id: nat,
                                          attempts: nat, until: int)
    requires InboxInv(db) && db.clock <= now < until && limit >= 1 && Waits(db.inbox, key, id, attempts, until)
    ensures Waits(ApplyNext(db, locked, limit, now).db.inbox, key, id, attempts, until)
  {
    WaitingIsNotPicked(db, locked, now, key);
    if I.PickShard(db.inbox, db.stock.heads, locked, now).Some? {
      var picked, n, failed := PickedEffect(db, locked, limit, now);
      hide Effect, BlockOf, I.PendingOf, ApplyNext, Waits;
      BlockKeepsWait(db, ApplyNext(db, locked, limit, now), picked, n, failed, now, key, id, attempts, until);
    }
  }

  lemma {:induction false} EnqueueKeepsWait(db: Db, batch: IngestBatch, stamps: seq<int>, key: ShardKey, id: nat,
                                            attempts: nat, until: int)
    requires |stamps| == |batch.events| > 0 && Waits(db.inbox, key, id, attempts, until)
    ensures Waits(EnqueueBatch(db, batch, stamps).inbox, key, id, attempts, until)
  {
    var added := I.Fresh(I.KnownIds(db.inbox), batch.Key(), batch.events, stamps);
    I.InsertAppends(db.inbox, batch.Key(), batch.events, stamps);
    hide I.PendingOf;
    I.PendingAfterInsert(db.inbox, added, batch.Key(), key);
  }

  lemma {:induction false} StepKeepsWait(db: Db, step: Step, key: ShardKey, id: nat, attempts: nat, until: int)
    requires InboxInv(db) && Waits(db.inbox, key, id, attempts, until) && (step.ApplyShard? ==> step.at < until)
    ensures Waits(Next(db, step).inbox, key, id, attempts, until)
  {
    hide InboxInv, ApplyNext, Leased, I.PendingOf, EnqueueBatch, I.PruneApplied;
    if Enabled(db, step) {
      match step
      case Enqueue(batch, stamps) => EnqueueKeepsWait(db, batch, stamps, key, id, attempts, until);
      case ApplyShard(locked, limit, at) => ApplyKeepsWait(db, locked, limit, at, key, id, attempts, until);
      case Cleanup(_, _, hr, at) => I.PendingAfterPrune(db.inbox, at - hr, key);
      case _ =>
    }
  }

  lemma {:induction false} WaitLasts(db: Db, steps: seq<Step>, key: ShardKey, id: nat, attempts: nat, until: int)
    requires InboxInv(db) && Waits(db.inbox, key, id, attempts, until)
    requires forall i :: 0 <= i < |steps| && steps[i].ApplyShard? ==> steps[i].at < until
    ensures InboxInv(Run(db, steps)) && Waits(Run(db, steps).inbox, key, id, attempts, until)
    decreases steps
  {
    hide InboxInv, Waits, Next;
    if steps != [] {
      StepKeepsWait(db, steps[0], key, id, attempts, until);
      StepKeepsInboxInv(db, steps[0]);
      WaitLasts(Next(db, steps[0]), steps[1..], key, id, attempts, until);
    }
  }

  /** After a block has failed at `now` on an event with a attempts, in every run of calls that come within
      min(60, a + 1) seconds: the event waits, no call picks its shard, and a call finds work if another shard that is
      not locked has an available first event. */
  lemma {:induction false} FailedShardLetsOthersPass(db: Db, locked: set<ShardKey>, limit: nat, now: int,
                                                     steps: seq<Step>, others: set<ShardKey>, at: int)
    returns (key: ShardKey, r: I.Row)
    requires InboxInv(db) && db.clock <= now && limit >= 1 && ApplyNext(db, locked, limit, now).failed
    ensures I.PickShard(db.inbox, db.stock.heads, locked, now) == Some(key) && r in I.PendingOf(db.inbox, key)
    ensures var until := now + (if r.attempts + 1 < 60 then r.attempts + 1 else 60) * 1_000_000;
            var later := Run(ApplyNext(db, locked, limit, now).db, steps);
            (forall i :: 0 <= i < |steps| && steps[i].ApplyShard? ==> steps[i].at < until)
            && later.clock <= at < until ==>
              && Waits(later.inbox, key, r.eventId, r.attempts + 1, until)
              && I.PickShard(later.inbox, later.stock.heads, others, at) != Some(key)
              && ((exists other :: other !in others && I.PendingOf(later.inbox, other) != []
                     && I.PendingOf(later.inbox, other)[0].availableAt <= at) ==>
                   I.PickShard(later.inbox, later.stock.heads, others, at).Some?)
  {
    var n;
    key, n := FailedEventWaits(db, locked, limit, now);
    r := I.PendingOf(db.inbox, key)[n];
    var until := now + (if r.attempts + 1 < 60 then r.attempts + 1 else 60) * 1_000_000;
    var next := ApplyNext(db, locked, limit, now).db;
    ApplyKeepsInv(db, locked, limit, now);
    hide ApplyNext, InboxInv, I.PickShard, I.PendingOf, Run;
    if (forall i :: 0 <= i < |steps| && steps[i].ApplyShard? ==> steps[i].at < until)
         && Run(next, steps).clock <= at < until {
      WaitLasts(next, steps, key, r.eventId, r.attempts + 1, until);
      WaitingIsNotPicked(Run(next, steps), others, at, key);
    }
  }

  /* ---------- how long an applied event is known ---------- */

  /** A block stamps the rows it completes, and the head of its shard, with its own time. */
  lemma {:induction false} BlockStamps(db: Db, locked: set<ShardKey>, limit: nat, now: int)
    returns (key: ShardKey, done: seq<I.Row>)
    requires InboxInv(db) && db.clock <= now && limit >= 1 && ApplyNext(db, locked, limit, now).processed > 0
    ensures I.PickShard(db.inbox, db.stock.heads, locked, now) == Some(key) && done <= I.PendingOf(db.inbox, key)
    ensures |done| == ApplyNext(db, locked, limit, now).processed
    ensures var next := ApplyNext(db, locked, limit, now).db;
            && |next.inbox| == |db.inbox|
            && (forall i :: 0 <= i < |db.inbox| ==>
                  next.inbox[i].appliedAt == if db.inbox[i] in done then Some(now) else db.inbox[i].appliedAt)
            && key in next.stock.heads && next.stock.heads[key].lastApplied == Some(now)
  {
    var n, failed;
    key, n, failed := PickedEffect(db, locked, limit, now);
    done := I.PendingOf(db.inbox, key)[..n];
    HeadsSurvive(db.stock, done, now, key);
    MarkedInBlock(db.inbox, key, done, failed, now);
    hide ApplyNext, AfterBlock, ApplyBlock, I.PendingOf;
  }

  lemma {:induction false} HeadsSurvive(s: Inventory.Stock, block: seq<I.Row>, now: int, key: ShardKey)
    requires key in s.heads
    ensures key in ApplyBlock(s, block, now).heads
  {
    BlockKeepsIndex(s, block, now);
  }

  lemma {:induction false} MarkedInBlock(inbox: seq<I.Row>, key: ShardKey, done: seq<I.Row>, failed: Option<nat>,
                                         now: int)
    requires I.UniqueIds(inbox) && done <= I.PendingOf(inbox, key)
    ensures var next := AfterBlock(inbox, done, failed, now);
            && |next| == |inbox|
            && forall i :: 0 <= i < |inbox| ==>
                 next[i].appliedAt == if inbox[i] in done then Some(now) else inbox[i].appliedAt
  {
    var next := AfterBlock(inbox, done, failed, now);
    forall i | 0 <= i < |inbox|
      ensures next[i].appliedAt == if inbox[i] in done then Some(now) else inbox[i].appliedAt
    {
      if inbox[i] in done {
        assert inbox[i] in I.PendingOf(inbox, key);
        assert inbox[i].eventId in I.IdSet(done);
      }
      if !inbox[i].pruned && inbox[i].eventId in I.IdSet(done) {
        SameIdInBlock(inbox, key, done, i);
      }
    }
  }

  lemma {:induction false} SameIdInBlock(inbox: seq<I.Row>, key: ShardKey, done: seq<I.Row>, i: nat)
    requires I.UniqueIds(inbox) && done <= I.PendingOf(inbox, key)
    requires i < |inbox| && !inbox[i].pruned && inbox[i].eventId in I.IdSet(done)
    ensures inbox[i] in done
  {
    var r :| r in done && r.eventId == inbox[i].eventId;
    assert r in I.PendingOf(inbox, key);
    var j :| 0 <= j < |inbox| && inbox[j] == r;
    assert i == j;
  }

  /** The row is there, and was not applied before `since`. */
  ghost predicate Young(inbox: seq<I.Row>, i: nat, id: nat, since: int) {
    && i < |inbox| && inbox[i].eventId == id && !inbox[i].pruned
    && (inbox[i].appliedAt.Some? ==> since <= inbox[i].appliedAt.value)
  }

  lemma {:induction false} ApplyKeepsYoung(db: Db, locked: set<ShardKey>, limit: nat, now: int, i: nat, id: nat,
                                           since: int)
    requires Young(db.inbox, i, id, since) && since <= now
    ensures Young(ApplyNext(db, locked, limit, now).db.inbox, i, id, since)
  {
    hide ApplyBlock, I.Claimed, I.HeadAfterApply, I.IdSet, I.PickShard, I.Ids;
  }

  lemma {:induction false} EnqueueKeepsYoung(db: Db, batch: IngestBatch, stamps: seq<int>, i: nat, id: nat, since: int)
    requires |stamps| == |batch.events| > 0 && Young(db.inbox, i, id, since)
    ensures Young(EnqueueBatch(db, batch, stamps).inbox, i, id, since)
    ensures (forall k :: 0 <= k < |stamps| ==> db.clock < stamps[k]) ==>
                db.clock <= EnqueueBatch(db, batch, stamps).clock
  {
    I.InsertAppends(db.inbox, batch.Key(), batch.events, stamps);
  }

  lemma {:induction false} StepKeepsYoung(db: Db, step: Step, i: nat, id: nat, since: int)
    requires Young(db.inbox, i, id, since) && since <= db.clock
    requires step.Cleanup? ==> step.at - step.historyRetention <= since
    ensures Young(Next(db, step).inbox, i, id, since) && db.clock <= Next(db, step).clock
  {
    hide ApplyNext, EnqueueBatch, Leased, Young;
    if Enabled(db, step) {
      match step
      case Enqueue(batch, stamps) => EnqueueKeepsYoung(db, batch, stamps, i, id, since);
      case ApplyShard(locked, limit, at) =>
        ApplyKeepsYoung(db, locked, limit, at, i, id, since);
        ApplyMovesClock(db, locked, limit, at);
      case Cleanup(_, _, hr, at) => SweepKeepsYoung(db.inbox, at - hr, i, id, since);
      case _ =>
    }
  }

  lemma {:induction false} ApplyMovesClock(db: Db, locked: set<ShardKey>, limit: nat, now: int)
    ensures ApplyNext(db, locked, limit, now).db.clock == now
  {}

  lemma {:induction false} SweepKeepsYoung(inbox: seq<I.Row>, cutoff: int, i: nat, id: nat, since: int)
    requires Young(inbox, i, id, since) && cutoff <= since
    ensures Young(I.PruneApplied(inbox, cutoff), i, id, since)
  {}

  /** An event is known, and its replay therefore dropped, for at least the inbox retention after it was applied: in
      every run none of whose retention runs reaches back to it. */
  lemma {:induction false} KnownForRetention(db: Db, steps: seq<Step>, i: nat, id: nat, since: int)
    requires Young(db.inbox, i, id, since) && since <= db.clock
    requires forall k :: 0 <= k < |steps| && steps[k].Cleanup? ==> steps[k].at - steps[k].historyRetention <= since
    ensures Young(Run(db, steps).inbox, i, id, since) && I.Known(Run(db, steps).inbox, id)
    decreases steps
  {
    hide Next;
    if steps != [] {
      StepKeepsYoung(db, steps[0], i, id, since);
      KnownForRetention(Next(db, steps[0]), steps[1..], i, id, since);
    }
  }
}

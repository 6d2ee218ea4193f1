/** The database side of the pipeline as one state machine: every transaction is one atomic step, and a run is
    any sequence of steps of any number of API servers, workers and notifiers. A step that is not enabled, and a
    transaction that fails, changes nothing. */
module Pipeline {
  import opened Model
  import opened Inventory
  import Inbox
  import Outbox

  /** applied records, per shard, the events that took effect, in order; received the notes the receiver has
      processed. */
  datatype Db = Db(clock: int, inbox: seq<Inbox.Row>, stock: Stock, applied: map<ShardKey, seq<nat>>,
                   received: seq<nat>)

  const INITIAL := Db(0, [], Stock(map[], map[], [], []), map[], [])

  datatype Step =
    | Enqueue(batch: IngestBatch, stamps: seq<int>)
    | ApplyShard(locked: set<ShardKey>, limit: nat, at: int)
    | ResolveEvents(busy: set<ResourceId>, at: int)
    | Cleanup(eventRetention: nat, tombstoneRetention: nat, historyRetention: nat, at: int)
    | Claim(identity: string, taken: set<nat>, at: int)
    | Send(note: nat)
    | Acknowledge(note: nat, identity: string, at: int)
    | Retry(note: nat, identity: string, at: int)
    | Failed

  /** Clocks are monotone: received_at stamps are strictly increasing, other readings never go back. */
  predicate Enabled(db: Db, step: Step) {
    match step
    case Enqueue(batch, stamps) =>
      && batch.Validate() && |stamps| == |batch.events|
      && (forall i, j :: 0 <= i < j < |stamps| ==> stamps[i] < stamps[j])
      && forall i :: 0 <= i < |stamps| ==> db.clock < stamps[i]
    case ApplyShard(_, limit, at) => 1 <= limit <= 64 && db.clock <= at
    case ResolveEvents(_, at) => db.clock <= at
    case Cleanup(_, _, _, at) => db.clock <= at
    case Claim(_, _, at) => db.clock <= at
    // a notifier sends what it once claimed, and acknowledges what the receiver accepted
    case Send(note) => note < |db.stock.outbox| && db.stock.outbox[note].attempts > 0
    case Acknowledge(note, _, at) => note in db.received && db.clock <= at
    case Retry(note, _, at) => db.clock <= at
    case Failed => false
  }

  function EnqueueBatch(db: Db, batch: IngestBatch, stamps: seq<int>): Db
    requires |stamps| == |batch.events| > 0
  {
    var inbox := Inbox.InsertAll(db.inbox, batch.Key(), batch.events, stamps);
    Inbox.InsertGrows(db.inbox, batch.Key(), batch.events, stamps);
    var heads := Inbox.HeadAfterInsert(db.stock.heads, batch.Key(), |inbox| - |db.inbox|, inbox);
    db.(clock := stamps[|stamps| - 1], inbox := inbox, stock := db.stock.(heads := heads))
  }

  /** The completed events of one block, in order, inside one transaction. */
  function ApplyBlock(s: Stock, block: seq<Inbox.Row>, now: int): Stock
    decreases block
  {
    if block == [] then s
    else ApplyBlock(ApplyResource(s, block[0].key.shard, block[0].action, block[0].resource, now), block[1..], now)
  }

  function AppliedTo(applied: map<ShardKey, seq<nat>>, key: ShardKey): seq<nat> {
    if key in applied then applied[key] else []
  }

  datatype BlockResult = BlockResult(db: Db, processed: nat, failed: bool)

  function ApplyNext(db: Db, locked: set<ShardKey>, limit: nat, now: int): BlockResult {
    var pick := Inbox.PickShard(db.inbox, db.stock.heads, locked, now);
    if pick.None? then BlockResult(db.(clock := now), 0, false)
    else ApplyPicked(db, pick.value, limit, now)
  }

  function ApplyPicked(db: Db, key: ShardKey, limit: nat, now: int): BlockResult {
    var block := Inbox.Claimed(db.inbox, key, now, limit);
    var n := Inbox.ReadablePrefix(block);
    var failed := if n < |block| then Some(block[n].eventId) else None;
    var inbox := Inbox.MarkApplied(Inbox.BackOff(db.inbox, failed, now), Inbox.IdSet(block[..n]), now);
    var stock := ApplyBlock(db.stock, block[..n], now);
    var heads := Inbox.HeadAfterApply(stock.heads, key, n, inbox, now);
    BlockResult(Db(now, inbox, stock.(heads := heads),
                   db.applied[key := AppliedTo(db.applied, key) + Inbox.Ids(block[..n])], db.received),
                n, failed.Some?)
  }

  function Recover(db: Db, busy: set<ResourceId>, now: int): Db {
    db.(clock := now, stock := Inventory.ResolveEvents(db.stock, busy, now))
  }

  predicate LeaseStep(step: Step) {
    step.Claim? || step.Acknowledge? || step.Retry?
  }

  /** The three updates of the lease columns. */
  function Leased(outbox: seq<OutRow>, step: Step): seq<OutRow>
    requires LeaseStep(step)
  {
    match step
    case Claim(identity, taken, at) => Outbox.ClaimRow(outbox, Outbox.NextClaim(outbox, 0, taken, at), identity, at)
    case Acknowledge(note, identity, at) => Outbox.Deliver(outbox, note, identity, at)
    case Retry(note, identity, at) => Outbox.Release(outbox, note, identity, at)
  }

  function Retain(db: Db, eventCutoff: int, tombstoneCutoff: int, historyCutoff: int, now: int): Db {
    db.(clock := now, inbox := Inbox.PruneApplied(db.inbox, historyCutoff),
        stock := Prune(db.stock, eventCutoff, tombstoneCutoff, historyCutoff))
  }

  function Next(db: Db, step: Step): Db {
    if !Enabled(db, step) then db
    else
      match step
      case Enqueue(batch, stamps) => EnqueueBatch(db, batch, stamps)
      case ApplyShard(locked, limit, at) => ApplyNext(db, locked, limit, at).db
      case ResolveEvents(busy, at) => Recover(db, busy, at)
      case Cleanup(er, tr, hr, at) => Retain(db, at - er, at - tr, at - hr, at)
      case Claim(_, _, at) => db.(clock := at, stock := db.stock.(outbox := Leased(db.stock.outbox, step)))
      case Send(note) => db.(received := Outbox.Receive(db.received, note))
      case Acknowledge(_, _, at) => db.(clock := at, stock := db.stock.(outbox := Leased(db.stock.outbox, step)))
      case Retry(_, _, at) => db.(clock := at, stock := db.stock.(outbox := Leased(db.stock.outbox, step)))
      case Failed => db
  }

  function Run(db: Db, steps: seq<Step>): Db
    decreases steps
  {
    if steps == [] then db else Run(Next(db, steps[0]), steps[1..])
  }

  lemma {:induction false} RunAppend(db: Db, a: seq<Step>, b: seq<Step>)
    ensures Run(db, a + b) == Run(Run(db, a), b)
    decreases a
  {
    if a == [] {
      assert a + b == b;
    } else {
      assert (a + b)[1..] == a[1..] + b;
      RunAppend(Next(db, a[0]), a[1..], b);
    }
  }

  /* ---------- the inbox invariant ---------- */

  /** What a shard accepted, in order, is what was applied to it, in order, followed by what is pending. */
  ghost predicate Conserved(inbox: seq<Inbox.Row>, applied: map<ShardKey, seq<nat>>, key: ShardKey) {
    Inbox.Ids(Inbox.RowsOf(inbox, key)) == AppliedTo(applied, key) + Inbox.Ids(Inbox.PendingOf(inbox, key))
  }

  ghost predicate AllConserved(inbox: seq<Inbox.Row>, applied: map<ShardKey, seq<nat>>) {
    forall key :: Conserved(inbox, applied, key)
  }

  ghost predicate InboxInv(db: Db) {
    && Inbox.Ordered(db.inbox, db.clock)
    && Inbox.UniqueIds(db.inbox)
    && Inbox.HeadsAgree(db.inbox, db.stock.heads)
    && Inbox.OnlyHeadsBackedOff(db.inbox, db.clock)
    && AllConserved(db.inbox, db.applied)
  }
}

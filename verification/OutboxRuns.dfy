/** Leases and delivery over whole runs, and what the receiver believes once the outbox is drained. */
module OutboxRuns {
  import opened Model
  import opened Inventory
  import opened Outbox
  import opened Pipeline
  import I = Inbox
  import A = Incidents

  lemma {:induction false} ExtendsTransitive(a: seq<OutRow>, b: seq<OutRow>, c: seq<OutRow>)
    requires Extends(a, b) && Extends(b, c)
    ensures Extends(a, c)
  {
    assert c[..|a|] == b[..|a|];
    forall i | |a| <= i < |c| ensures Untouched(c[i]) {
      if i < |b| {
        assert c[i] == c[..|b|][i] == b[i];
      }
    }
  }

  lemma {:induction false} RemovedExtends(outbox: seq<OutRow>, rows: map<ResourceId, Row>, order: seq<ResourceId>,
                                          key: ShardKey, cutoff: int, now: int)
    ensures Extends(outbox, QueueRemoved(outbox, rows, order, key, cutoff, now))
    decreases order
  {
    if order != [] {
      var id := order[0];
      if id in rows && Unseen(rows[id], key, cutoff) && rows[id].resource.state != OK {
        var next := Queue(outbox, NoteFor(rows[id].resource, Delete), now);
        RemovedExtends(next, rows, order[1..], key, cutoff, now);
        ExtendsTransitive(outbox, next, QueueRemoved(outbox, rows, order, key, cutoff, now));
      } else {
        RemovedExtends(outbox, rows, order[1..], key, cutoff, now);
      }
    }
  }

  lemma {:induction false} RecoveredExtends(outbox: seq<OutRow>, rows: map<ResourceId, Row>, order: seq<ResourceId>,
                                            busy: set<ResourceId>, now: int)
    ensures Extends(outbox, QueueRecovered(outbox, rows, order, busy, now))
    decreases order
  {
    if order != [] {
      var id := order[0];
      if Recovers(rows, id, busy, now) {
        var next := Queue(outbox, NoteFor(Resolved(rows[id].resource, PassReason(rows, rows[id], now)), Upsert), now);
        RecoveredExtends(next, rows, order[1..], busy, now);
        ExtendsTransitive(outbox, next, QueueRecovered(outbox, rows, order, busy, now));
      } else {
        RecoveredExtends(outbox, rows, order[1..], busy, now);
      }
    }
  }

  lemma {:induction false} ApplyExtends(s: Stock, shard: string, action: Action, r: Resource, now: int)
    ensures Extends(s.outbox, ApplyResource(s, shard, action, r, now).outbox)
  {
    RemovedExtends(s.outbox, s.rows, s.order, ShardKey(r.cluster, shard), RoundToMicros(r.observedAt), now);
  }

  lemma {:induction false} BlockExtends(s: Stock, block: seq<I.Row>, now: int)
    ensures Extends(s.outbox, ApplyBlock(s, block, now).outbox)
    decreases block
  {
    if block != [] {
      var next := ApplyResource(s, block[0].key.shard, block[0].action, block[0].resource, now);
      ApplyExtends(s, block[0].key.shard, block[0].action, block[0].resource, now);
      BlockExtends(next, block[1..], now);
      ExtendsTransitive(s.outbox, next.outbox, ApplyBlock(s, block, now).outbox);
    }
  }

  ghost predicate Delivery(db: Db) {
    OutboxInv(db.stock.outbox, db.received)
  }

  lemma {:induction false} ApplyNextDelivery(db: Db, locked: set<ShardKey>, limit: nat, now: int)
    requires Delivery(db)
    ensures Delivery(ApplyNext(db, locked, limit, now).db)
  {
    var pick := I.PickShard(db.inbox, db.stock.heads, locked, now);
    if pick.Some? {
      var block := I.Claimed(db.inbox, pick.value, now, limit);
      var n := I.ReadablePrefix(block);
      BlockExtends(db.stock, block[..n], now);
      ExtendKeepsInv(db.stock.outbox, ApplyBlock(db.stock, block[..n], now).outbox, db.received);
    }
  }

  lemma {:induction false} RecoverDelivery(db: Db, busy: set<ResourceId>, now: int)
    requires Delivery(db)
    ensures Delivery(Recover(db, busy, now))
  {
    RecoveredExtends(db.stock.outbox, db.stock.rows, db.stock.order, busy, now);
    ExtendKeepsInv(db.stock.outbox, Recover(db, busy, now).stock.outbox, db.received);
  }

  lemma {:induction false} LeaseDelivery(db: Db, step: Step)
    requires Delivery(db) && LeaseStep(step) && Enabled(db, step)
    ensures OutboxInv(Leased(db.stock.outbox, step), db.received)
  {
    match step
    case Claim(identity, taken, at) => ClaimKeepsInv(db.stock.outbox, db.received, taken, identity, at);
    case Acknowledge(note, identity, at) => DeliverKeepsInv(db.stock.outbox, db.received, note, identity, at);
    case Retry(note, identity, at) => ReleaseKeepsInv(db.stock.outbox, db.received, note, identity, at);
  }

  lemma {:induction false} StepDelivery(db: Db, step: Step)
    requires Delivery(db)
    ensures Delivery(Next(db, step))
  {
    hide OutboxInv;
    if Enabled(db, step) {
      match step
      case ApplyShard(locked, limit, at) => ApplyNextDelivery(db, locked, limit, at);
      case ResolveEvents(busy, at) => RecoverDelivery(db, busy, at);
      case Cleanup(_, _, hr, at) => PruneKeepsInv(db.stock.outbox, db.received, at - hr);
      case Send(note) => SendKeepsInv(db.stock.outbox, db.received, note);
      case Enqueue(_, _) =>
      case _ => LeaseDelivery(db, step);
    }
  }

  /** In every run: rows of a resource are claimed, received and delivered in id order, one claim at a time. */
  lemma {:induction false} RunDelivery(db: Db, steps: seq<Step>)
    requires Delivery(db)
    ensures Delivery(Run(db, steps))
    decreases steps
  {
    if steps != [] {
      StepDelivery(db, steps[0]);
      RunDelivery(Next(db, steps[0]), steps[1..]);
    }
  }

  /** In every run, at every moment, for any two outbox rows of one resource: the later one is delivered only if
      the earlier one is, and they are not both claimed. */
  lemma {:induction false} HeadOfLineInEveryRun(steps: seq<Step>, i: nat, j: nat)
    requires i < j < |Run(INITIAL, steps).stock.outbox|
    requires SameResource(Run(INITIAL, steps).stock.outbox, i, j)
    ensures var o := Run(INITIAL, steps).stock.outbox;
            && (o[j].deliveredAt.Some? ==> o[i].deliveredAt.Some?)
            && (o[i].claim.None? || o[j].claim.None?)
  {
    RunDelivery(INITIAL, steps);
    DeliveredPrefixAndOneClaim(Run(INITIAL, steps).stock.outbox, Run(INITIAL, steps).received, i, j);
  }

  ghost predicate Drained(outbox: seq<OutRow>) {
    forall i :: 0 <= i < |outbox| ==> !Waiting(outbox[i])
  }

  lemma {:induction false} DrainedMatches(db: Db, id: ResourceId)
    requires Delivery(db) && A.Agrees(db.stock, id) && Drained(db.stock.outbox)
    ensures ReceiptsConsistent(db.stock.outbox, db.received)
    ensures ReceiverOpen(db.stock.outbox, db.received, id) == A.Problem(db.stock, id)
  {
    DrainedReceiverAgrees(db.stock.outbox, db.received, id);
  }

  /** Inventory, outbox and receiver together: whenever nothing waits in the outbox, the receiver has an open
      incident for a resource outside event retention exactly when its stored row is live and not ok. */
  lemma {:induction false} DrainedReceiverMatchesInventory(steps: seq<Step>, id: ResourceId)
    requires forall i :: 0 <= i < |steps| ==> A.PlainStep(steps[i], id)
    requires Drained(Run(INITIAL, steps).stock.outbox)
    ensures var db := Run(INITIAL, steps);
            && ReceiptsConsistent(db.stock.outbox, db.received)
            && ReceiverOpen(db.stock.outbox, db.received, id) == A.Problem(db.stock, id)
  {
    RunDelivery(INITIAL, steps);
    A.IncidentAgreement(INITIAL, steps, id);
    DrainedMatches(Run(INITIAL, steps), id);
  }

  /* ---------- acknowledgements over a run ---------- */

  /** A delivered row is never touched again, except that retention may hide it. */
  ghost predicate StaysDelivered(before: seq<OutRow>, after: seq<OutRow>, note: nat) {
    && note < |before| <= |after| && before[note].deliveredAt.Some?
    && after[note] == before[note].(pruned := after[note].pruned)
  }

  /** The note is not this identity's to acknowledge or release. */
  ghost predicate Foreign(outbox: seq<OutRow>, note: nat, identity: string) {
    note < |outbox| && !Holds(outbox, note, identity)
  }

  ghost predicate Claims(db: Db, step: Step, note: nat, identity: string) {
    && step.Claim? && step.identity == identity && Enabled(db, step)
    && NextClaim(db.stock.outbox, 0, step.taken, step.at) == Some(note)
  }

  lemma {:induction false} ExtendKeepsRow(outbox: seq<OutRow>, next: seq<OutRow>, note: nat)
    requires Extends(outbox, next) && note < |outbox|
    ensures note < |next| && next[note] == outbox[note]
  {
    assert next[note] == next[..|outbox|][note];
  }

  lemma {:induction false} LeaseKeepsRow(db: Db, step: Step, note: nat, identity: string)
    requires note < |db.stock.outbox| && LeaseStep(step) && Enabled(db, step)
    ensures db.stock.outbox[note].deliveredAt.Some? ==>
                StaysDelivered(db.stock.outbox, Leased(db.stock.outbox, step), note)
    ensures Foreign(db.stock.outbox, note, identity) && !Claims(db, step, note, identity) ==>
              Foreign(Leased(db.stock.outbox, step), note, identity)
  {}

  /** The outbox after a step that is not one of the lease columns: what was queued stays, and retention hides rows. */
  lemma {:induction false} OtherStepKeepsRow(db: Db, step: Step, note: nat)
    requires note < |db.stock.outbox| && Enabled(db, step) && !LeaseStep(step)
    ensures var next := Next(db, step).stock.outbox;
            |next| >= |db.stock.outbox| && next[note] == db.stock.outbox[note].(pruned := next[note].pruned)
            && (db.stock.outbox[note].pruned ==> next[note].pruned)
            && (db.stock.outbox[note].deliveredAt.None? ==> next[note] == db.stock.outbox[note])
  {
    hide Enabled, Extends;
    match step
    case ApplyShard(locked, limit, at) =>
      var pick := I.PickShard(db.inbox, db.stock.heads, locked, at);
      if pick.Some? {
        var block := I.Claimed(db.inbox, pick.value, at, limit);
        var n := I.ReadablePrefix(block);
        BlockExtends(db.stock, block[..n], at);
        ExtendKeepsRow(db.stock.outbox, ApplyBlock(db.stock, block[..n], at).outbox, note);
      }
    case ResolveEvents(busy, at) =>
      RecoveredExtends(db.stock.outbox, db.stock.rows, db.stock.order, busy, at);
      ExtendKeepsRow(db.stock.outbox, Recover(db, busy, at).stock.outbox, note);
    case _ =>
  }

  lemma {:induction false} StepKeepsRow(db: Db, step: Step, note: nat, identity: string)
    requires note < |db.stock.outbox|
    ensures db.stock.outbox[note].deliveredAt.Some? ==>
                StaysDelivered(db.stock.outbox, Next(db, step).stock.outbox, note)
    ensures Foreign(db.stock.outbox, note, identity) && !Claims(db, step, note, identity) ==>
              Foreign(Next(db, step).stock.outbox, note, identity)
    ensures note < |Next(db, step).stock.outbox|
  {
    hide Leased, Claims, ApplyNext, Recover, Retain, EnqueueBatch;
    if Enabled(db, step) {
      if LeaseStep(step) {
        LeaseKeepsRow(db, step, note, identity);
        LeasedLength(db.stock.outbox, step);
      } else {
        OtherStepKeepsRow(db, step, note);
        hide Next, Enabled;
      }
    }
  }

  lemma {:induction false} LeasedLength(outbox: seq<OutRow>, step: Step)
    requires LeaseStep(step)
    ensures |Leased(outbox, step)| == |outbox|
  {}

  /** In every run a delivered row keeps its delivery time, its claim and its count of attempts. */
  lemma {:induction false} DeliveredForGood(db: Db, steps: seq<Step>, note: nat)
    requires note < |db.stock.outbox| && db.stock.outbox[note].deliveredAt.Some?
    ensures StaysDelivered(db.stock.outbox, Run(db, steps).stock.outbox, note)
    decreases steps
  {
    if steps != [] {
      StepKeepsRow(db, steps[0], note, "");
      DeliveredForGood(Next(db, steps[0]), steps[1..], note);
    }
  }

  /** The step changes the outbox. */
  ghost predicate Effective(db: Db, step: Step) {
    Next(db, step).stock.outbox != db.stock.outbox
  }

  lemma {:induction false} EffectiveAcknowledgement(db: Db, step: Step)
    requires step.Acknowledge? && Effective(db, step)
    ensures Holds(db.stock.outbox, step.note, step.identity)
    ensures var next := Next(db, step).stock.outbox; step.note < |next| && next[step.note].deliveredAt.Some?
  {}

  /** In every run each row is acknowledged at most once: of all acknowledgements of a row, by whatever identities,
      at most one has an effect, and after it no retry has one either. */
  lemma {:induction false} AcknowledgedOnce(db: Db, steps: seq<Step>, i: nat, j: nat)
    requires i < j < |steps| && steps[i].Acknowledge? && Effective(Run(db, steps[..i]), steps[i])
    requires (steps[j].Acknowledge? || steps[j].Retry?) && steps[j].note == steps[i].note
    ensures !Effective(Run(db, steps[..j]), steps[j])
  {
    var before, note := Run(db, steps[..i]), steps[i].note;
    EffectiveAcknowledgement(before, steps[i]);
    RunParts(db, steps, i, j);
    DeliveredForGood(Next(before, steps[i]), steps[i + 1..j], note);
  }

  lemma {:induction false} RunParts(db: Db, steps: seq<Step>, i: nat, j: nat)
    requires i < j <= |steps|
    ensures Run(db, steps[..j]) == Run(Next(Run(db, steps[..i]), steps[i]), steps[i + 1..j])
  {
    var middle := [steps[i]] + steps[i + 1..j];
    assert steps[..j] == steps[..i] + middle;
    RunAppend(db, steps[..i], middle);
    assert middle[0] == steps[i] && middle[1..] == steps[i + 1..j];
  }

  ghost predicate NeverClaims(db: Db, steps: seq<Step>, note: nat, identity: string)
    decreases steps
  {
    steps == []
      || (!Claims(db, steps[0], note, identity) && NeverClaims(Next(db, steps[0]), steps[1..], note, identity))
  }

  lemma {:induction false} StaysForeign(db: Db, steps: seq<Step>, note: nat, identity: string)
    requires Foreign(db.stock.outbox, note, identity) && NeverClaims(db, steps, note, identity)
    ensures Foreign(Run(db, steps).stock.outbox, note, identity)
    decreases steps
  {
    if steps != [] {
      hide Foreign, Claims, Next;
      HeldRow(db.stock.outbox, note, identity);
      StepKeepsRow(db, steps[0], note, identity);
      StaysForeign(Next(db, steps[0]), steps[1..], note, identity);
    }
  }

  lemma {:induction false} HeldRow(outbox: seq<OutRow>, note: nat, identity: string)
    requires Foreign(outbox, note, identity)
    ensures note < |outbox|
  {}

  /** Once another identity has taken a row over, the old holder's acknowledgements and retries change nothing, in
      every run in which it does not claim the row again. */
  lemma {:induction false} StaleHolderIsIgnored(db: Db, takeover: Step, steps: seq<Step>, note: nat, identity: string,
                                                at: int)
    requires takeover.Claim? && takeover.identity != identity && Claims(db, takeover, note, takeover.identity)
    requires NeverClaims(Next(db, takeover), steps, note, identity)
    ensures var later := Run(Next(db, takeover), steps);
            !Effective(later, Step.Acknowledge(note, identity, at)) && !Effective(later, Step.Retry(note, identity, at))
  {
    assert Foreign(Next(db, takeover).stock.outbox, note, identity);
    StaysForeign(Next(db, takeover), steps, note, identity);
  }

  /* ---------- rows that rest ---------- */

  /** The step may not touch a waiting row: a claim finds it not due or leased, an update is not the holder's. */
  ghost predicate LeavesAlone(step: Step, note: nat, row: OutRow) {
    match step
    case Claim(_, _, at) => at < row.availableAt || (row.claim.Some? && at <= row.claim.value.until)
    case Acknowledge(other, identity, _) => other == note ==> row.claim.None? || row.claim.value.holder != identity
    case Retry(other, identity, _) => other == note ==> row.claim.None? || row.claim.value.holder != identity
    case _ => true
  }

  lemma {:induction false} LeaseLeavesAlone(outbox: seq<OutRow>, step: Step, note: nat)
    requires note < |outbox| && Waiting(outbox[note]) && LeaseStep(step) && LeavesAlone(step, note, outbox[note])
    ensures note < |Leased(outbox, step)| && Leased(outbox, step)[note] == outbox[note]
  {}

  lemma {:induction false} StepLeavesAlone(db: Db, step: Step, note: nat)
    requires note < |db.stock.outbox| && Waiting(db.stock.outbox[note])
    requires LeavesAlone(step, note, db.stock.outbox[note])
    ensures var next := Next(db, step).stock.outbox;
            note < |next| && next[note] == db.stock.outbox[note]
  {
    hide Leased, ApplyNext, Recover, Retain, EnqueueBatch, LeavesAlone;
    if Enabled(db, step) {
      if LeaseStep(step) {
        LeaseLeavesAlone(db.stock.outbox, step, note);
      } else {
        OtherStepKeepsRow(db, step, note);
        hide Next, Enabled;
      }
    }
  }

  lemma {:induction false} RowRests(db: Db, steps: seq<Step>, note: nat)
    requires note < |db.stock.outbox| && Waiting(db.stock.outbox[note])
    requires forall i :: 0 <= i < |steps| ==> LeavesAlone(steps[i], note, db.stock.outbox[note])
    ensures var next := Run(db, steps).stock.outbox;
            note < |next| && next[note] == db.stock.outbox[note]
    decreases steps
  {
    hide Next, LeavesAlone, Waiting;
    if steps != [] {
      StepLeavesAlone(db, steps[0], note);
      RowRests(Next(db, steps[0]), steps[1..], note);
    }
  }

  /** A released row waits 2^attempts seconds, at most a minute: in every run whose claims come before that, it is
      claimed by nobody and stays as it was released, whatever others try. */
  lemma {:induction false} ReleasedWaits(db: Db, note: nat, identity: string, at: int, steps: seq<Step>, who: string,
                                         taken: set<nat>, t: int)
    requires Holds(db.stock.outbox, note, identity) && db.clock <= at
    ensures var row := db.stock.outbox[note];
            var until := at + RetrySeconds(row.attempts) * 1_000_000;
            var later := Run(Next(db, Step.Retry(note, identity, at)), steps);
            (forall i :: 0 <= i < |steps| && steps[i].Claim? ==> steps[i].at < until) && t < until ==>
              && note < |later.stock.outbox|
              && later.stock.outbox[note] == row.(availableAt := until, claim := None)
              && !Claims(later, Step.Claim(who, taken, t), note, who)
  {
    var row := db.stock.outbox[note];
    var until := at + RetrySeconds(row.attempts) * 1_000_000;
    var next := Next(db, Step.Retry(note, identity, at));
    assert next.stock.outbox[note] == row.(availableAt := until, claim := None);
    hide RetrySeconds, Run;
    if forall i :: 0 <= i < |steps| && steps[i].Claim? ==> steps[i].at < until {
      forall i | 0 <= i < |steps| ensures LeavesAlone(steps[i], note, next.stock.outbox[note]) {}
      RowRests(next, steps, note);
    }
  }

  /** A claimed row is leased for thirty seconds: in every run in which its holder neither acknowledges nor releases it
      and whose claims come within that time, it stays claimed and nobody else gets it. */
  lemma {:induction false} LeaseExcludesOthers(db: Db, claim: Step, note: nat, steps: seq<Step>, who: string,
                                               taken: set<nat>, t: int)
    requires claim.Claim? && Claims(db, claim, note, claim.identity)
    requires forall i :: 0 <= i < |steps| && (steps[i].Acknowledge? || steps[i].Retry?) ==>
               steps[i].note != note || steps[i].identity != claim.identity
    ensures note < |db.stock.outbox|
    ensures var row := db.stock.outbox[note];
            var until := claim.at + 30_000_000;
            var later := Run(Next(db, claim), steps);
            (forall i :: 0 <= i < |steps| && steps[i].Claim? ==> steps[i].at <= until) && t <= until ==>
              && note < |later.stock.outbox|
              && later.stock.outbox[note]
                   == row.(claim := Some(Inventory.Claim(claim.identity, until)), attempts := row.attempts + 1)
              && !Claims(later, Step.Claim(who, taken, t), note, who)
  {
    var row := db.stock.outbox[note];
    var until := claim.at + 30_000_000;
    var next := Next(db, claim);
    assert next.stock.outbox[note]
      == row.(claim := Some(Inventory.Claim(claim.identity, until)), attempts := row.attempts + 1);
    hide Run;
    if forall i :: 0 <= i < |steps| && steps[i].Claim? ==> steps[i].at <= until {
      forall i | 0 <= i < |steps| ensures LeavesAlone(steps[i], note, next.stock.outbox[note]) {}
      RowRests(next, steps, note);
    }
  }
}

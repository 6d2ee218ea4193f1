/** Short runs from the empty database, one for each exception that the theorems make: they do occur. */
module Exceptions {
  import opened Model
  import opened Inventory
  import opened Pipeline
  import opened Changes
  import opened InboxRuns
  import Seqs
  import A = Incidents
  import I = Inbox
  import O = Outbox
  import E = EndToEnd
  import S = Snapshot
  import Sender
  import Status = InboxStatus

  function Sample(uid: string, kind: string, state: State, observedAt: int, deletedAt: Option<int>): Resource {
    Resource("c", uid, Relations("core", "v1", kind, "n", "d", map[]), "1", 0,
             Summary(None, None, None, None, None, None, None, 0), state, "", observedAt, deletedAt)
  }

  const KEY := ShardKey("c", "s")

  function Event(id: nat, action: Action, r: Resource): IngestEvent {
    IngestEvent(id, action, r, true, 0)
  }

  /** A batch of one event, and a worker that applies it. */
  function Arrival(e: IngestEvent, stamp: int, at: int): seq<Step> {
    [Enqueue(IngestBatch("c", "s", [e]), [stamp]), ApplyShard({}, 1, at)]
  }

  function Seen(e: IngestEvent): Observation {
    Observation("s", e.action, e.resource)
  }

  /** Every row is applied, or retention has removed it. */
  ghost predicate Settled(db: Db) {
    && InboxInv(db)
    && forall i :: 0 <= i < |db.inbox| ==>
         db.inbox[i].pruned || (db.inbox[i].appliedAt.Some? && db.inbox[i].appliedAt.value <= db.clock)
  }

  predicate Sendable(e: IngestEvent) {
    e.readable && e.resource.cluster == "c" && 1 <= |e.resource.uid| <= 512
  }

  lemma {:induction false} Inserted(db: Db, e: IngestEvent, stamp: int, at: int)
    requires Settled(db) && db.clock < stamp && !I.Known(db.inbox, e.eventId) && Sendable(e)
    ensures var row, step := I.NewRow(KEY, e, stamp), Arrival(e, stamp, at)[0];
            var next := Next(db, step);
            && InboxInv(next) && next.inbox == db.inbox + [row] && next.clock == stamp && next.applied == db.applied
            && StepChanges(db, step) == []
            && forall key :: I.PendingOf(next.inbox, key) == if key == KEY then [row] else []
  {
    var row, step := I.NewRow(KEY, e, stamp), Arrival(e, stamp, at)[0];
    assert step.batch.Validate();
    StepKeepsInboxInv(db, step);
    hide InboxInv;
    assert I.InsertAll(db.inbox, KEY, [e], [stamp]) == db.inbox + [row] by {
      assert [e][1..] == [] && [stamp][1..] == [];
      assert I.InsertAll(db.inbox + [row], KEY, [], []) == db.inbox + [row];
    }
    forall key ensures I.PendingOf(db.inbox + [row], key) == if key == KEY then [row] else [] {
      I.PendingAfterInsert(db.inbox, [row], KEY, key);
      Seqs.FilterNone(I.IsPending(key), db.inbox);
    }
  }

  lemma {:induction false} Picked(db: Db, row: I.Row, at: int)
    requires InboxInv(db) && db.clock <= at && row.readable && row.availableAt <= at
    requires forall key :: I.PendingOf(db.inbox, key) == if key == KEY then [row] else []
    ensures CompletedBlock(db, {}, 1, at) == [row]
    ensures var next := ApplyNext(db, {}, 1, at).db;
            && next.inbox == AfterBlock(db.inbox, [row], None, at) && next.clock == at
            && AppliedTo(next.applied, KEY) == AppliedTo(db.applied, KEY) + [row.eventId]
  {
    hide InboxInv, I.PendingOf, I.Claimed, I.PickShard, ApplyBlock, I.HeadAfterApply, I.ReadablePrefix, AfterBlock,
             ApplyNext;
    Status.OtherShardsProceed(db, {}, at);
    assert I.PendingOf(db.inbox, KEY)[0].availableAt <= at;
    var key, n, failed := PickedBlock(db, {}, 1, at);
    var other, m, stopped := PickedEffect(db, {}, 1, at);
    assert key == other == KEY && [row][..1] == [row];
    assert I.Ids([row]) == [row.eventId];
  }

  lemma {:induction false} Completed(db: Db, row: I.Row, at: int)
    requires InboxInv(db) && db.clock <= at && row.readable && row.availableAt <= at
    requires forall key :: I.PendingOf(db.inbox, key) == if key == KEY then [row] else []
    ensures var step := ApplyShard({}, 1, at);
            var next := Next(db, step);
            && next.inbox == AfterBlock(db.inbox, [row], None, at) && next.clock == at
            && AppliedTo(next.applied, KEY) == AppliedTo(db.applied, KEY) + [row.eventId]
            && StepChanges(db, step) == BlockChanges([row], at)
  {
    hide InboxInv, I.PendingOf, AfterBlock, ApplyNext, CompletedBlock, AppliedTo, BlockChanges;
    Picked(db, row, at);
  }

  lemma {:induction false} OneRow(inbox: seq<I.Row>, row: I.Row, at: int)
    requires !I.Known(inbox, row.eventId) && !row.pruned
    ensures AfterBlock(inbox + [row], [row], None, at) == inbox + [row.(appliedAt := Some(at))]
  {
    var marked := AfterBlock(inbox + [row], [row], None, at);
    assert I.IdSet([row]) == {row.eventId};
    forall i | 0 <= i < |inbox| ensures marked[i] == inbox[i] {}
  }

  /** In a settled database an event that the inbox does not know is applied, and the database is settled again. */
  lemma {:induction false} Arrives(db: Db, e: IngestEvent, stamp: int, at: int)
    requires Settled(db) && db.clock < stamp <= at && !I.Known(db.inbox, e.eventId) && Sendable(e)
    ensures var next := Run(db, Arrival(e, stamp, at));
            && Settled(next) && next.clock == at && I.Ids(next.inbox) == I.Ids(db.inbox) + [e.eventId]
            && AppliedTo(next.applied, KEY) == AppliedTo(db.applied, KEY) + [e.eventId]
            && RunChanges(db, Arrival(e, stamp, at)) == [Ingest(Seen(e), at)]
  {
    hide InboxInv, Next, StepChanges, I.PendingOf, AfterBlock, I.Known, BlockChanges, I.Ids, AppliedTo, Run, RunChanges,
             Seen;
    var row, steps := I.NewRow(KEY, e, stamp), Arrival(e, stamp, at);
    var mid, done := Next(db, steps[0]), row.(appliedAt := Some(at));
    Inserted(db, e, stamp, at);
    Completed(mid, row, at);
    OneRow(db.inbox, row, at);
    StepKeepsInboxInv(mid, steps[1]);
    IdsAppend(db.inbox, [done]);
    OneBlock(e, row, at);
    TwoSteps(db, steps[0], steps[1]);
  }

  lemma {:induction false} OneBlock(e: IngestEvent, row: I.Row, at: int)
    requires exists stamp :: row == I.NewRow(KEY, e, stamp)
    ensures BlockChanges([row], at) == [Ingest(Seen(e), at)] && I.Ids([row.(appliedAt := Some(at))]) == [e.eventId]
  {
    assert [row][1..] == [];
    assert BlockChanges([], at) == [];
  }

  lemma {:induction false} TwoSteps(db: Db, a: Step, b: Step)
    ensures Run(db, [a, b]) == Next(Next(db, a), b)
    ensures RunChanges(db, [a, b]) == StepChanges(db, a) + StepChanges(Next(db, a), b)
  {
    hide Next, StepChanges;
    assert [a, b][1..] == [b] && [b][1..] == [];
    assert Run(Next(Next(db, a), b), []) == Next(Next(db, a), b);
    assert RunChanges(Next(Next(db, a), b), []) == [];
  }

  /** Retention that spares nothing old. */
  function Sweep(at: int): seq<Step> {
    [Cleanup(0, 0, 0, at)]
  }

  lemma {:induction false} Sweeps(db: Db, at: int)
    requires Settled(db) && db.clock < at
    ensures var next := Run(db, Sweep(at));
            && Settled(next) && next.clock == at && I.Ids(next.inbox) == I.Ids(db.inbox) && next.applied == db.applied
            && RunChanges(db, Sweep(at)) == [Retention(at, at, at)] && forall id :: !I.Known(next.inbox, id)
  {
    hide InboxInv, I.Ids, Prune, I.Known, I.PruneApplied, Run, RunChanges;
    var step := Sweep(at)[0];
    StepKeepsInboxInv(db, step);
    SweptRows(db.inbox, db.clock, at);
    OneStep(db, step);
  }

  lemma {:induction false} OneStep(db: Db, step: Step)
    ensures Run(db, [step]) == Next(db, step) && RunChanges(db, [step]) == StepChanges(db, step)
  {
    hide Next, StepChanges;
    assert Run(Next(db, step), []) == Next(db, step) && RunChanges(Next(db, step), []) == [];
    assert StepChanges(db, step) + [] == StepChanges(db, step);
  }

  lemma {:induction false} SweptRows(inbox: seq<I.Row>, clock: int, at: int)
    requires clock < at
    requires forall i :: 0 <= i < |inbox| ==>
               inbox[i].pruned || (inbox[i].appliedAt.Some? && inbox[i].appliedAt.value <= clock)
    ensures var next := I.PruneApplied(inbox, at);
            && I.Ids(next) == I.Ids(inbox) && (forall id :: !I.Known(next, id))
            && forall i :: 0 <= i < |next| ==> next[i].pruned
  {
    IdsEqual(inbox, I.PruneApplied(inbox, at));
  }

  lemma {:induction false} EmptyIsSettled()
    ensures Settled(INITIAL)
  {
    forall key ensures I.TailAvailable(I.PendingOf([], key), 0) && I.HeadAgrees([], map[], key)
                       && Conserved([], map[], key) {}
  }

  /** A second stretch of a run. */
  lemma {:induction false} Then(steps: seq<Step>, more: seq<Step>)
    ensures Run(INITIAL, steps + more) == Run(Run(INITIAL, steps), more)
    ensures RunChanges(INITIAL, steps + more) == RunChanges(INITIAL, steps) + RunChanges(Run(INITIAL, steps), more)
    ensures SameInventory(Run(INITIAL, steps).stock, PerformAll(INITIAL.stock, RunChanges(INITIAL, steps)))
    ensures SameInventory(Run(INITIAL, steps + more).stock,
                          PerformAll(INITIAL.stock, RunChanges(INITIAL, steps + more)))
  {
    RunAppend(INITIAL, steps, more);
    ChangesAppend(INITIAL, steps, more);
    RunIsPerformed(INITIAL, steps);
    RunIsPerformed(INITIAL, steps + more);
  }

  lemma {:induction false} AgreesAlike(s: Stock, t: Stock, id: ResourceId)
    requires SameInventory(s, t)
    ensures A.Agrees(s, id) == A.Agrees(t, id)
  {
    A.OpenBySameNotes(s.outbox, t.outbox, id);
  }

  lemma {:induction false} FirstEvent(e: IngestEvent)
    requires Sendable(e)
    ensures var db := Run(INITIAL, Arrival(e, 1, 2));
            && Settled(db) && db.clock == 2 && I.Ids(db.inbox) == [e.eventId]
              && AppliedTo(db.applied, KEY) == [e.eventId]
            && RunChanges(INITIAL, Arrival(e, 1, 2)) == [Ingest(Seen(e), 2)]
            && SameInventory(db.stock, Perform(INITIAL.stock, Ingest(Seen(e), 2)))
  {
    EmptyIsSettled();
    assert I.Ids(INITIAL.inbox) == [] && !I.Known(INITIAL.inbox, e.eventId) && AppliedTo(INITIAL.applied, KEY) == [];
    hide Settled, Run, RunChanges, Perform, SameInventory, I.Ids, AppliedTo, Arrival, Sendable;
    Arrives(INITIAL, e, 1, 2);
    RunIsPerformed(INITIAL, Arrival(e, 1, 2));
    OneChange(INITIAL.stock, Ingest(Seen(e), 2));
  }

  /* ---------- incidents ---------- */

  /** What the first upsert of a problem leaves. */
  lemma {:induction false} Upserted(r: Resource, now: int)
    requires r.deletedAt.Some? || r.relations.kind == "Event"
    requires r == Sample("u", r.relations.kind, Critical, 1000, r.deletedAt)
    ensures var s := Perform(INITIAL.stock, Ingest(Observation("s", Upsert, r), now));
            && s.rows == map[r.Id() := Row(r, "s", 1, r.deletedAt)] && s.order == [r.Id()]
            && O.Open(s.outbox, r.Id())
  {
    assert ResolveEvent(map[], r, now) == r;
    A.OpenAfterQueue([], NoteFor(r, Upsert), now, r.Id());
  }

  /** An upsert of a problem that says it is deleted already opens an incident for a row that is not live. */
  lemma {:induction false} DeletedUpsertDisagrees()
    ensures var r := Sample("u", "Deployment", Critical, 1000, Some(5));
            !A.Agrees(Run(INITIAL, Arrival(Event(1, Upsert, r), 1, 2)).stock, r.Id())
  {
    var e := Event(1, Upsert, Sample("u", "Deployment", Critical, 1000, Some(5)));
    FirstEvent(e);
    Upserted(e.resource, 2);
    hide Run, Perform, Arrival, Settled, I.Ids, SameInventory;
    AgreesAlike(Run(INITIAL, Arrival(e, 1, 2)).stock, Perform(INITIAL.stock, Ingest(Seen(e), 2)), e.resource.Id());
  }

  lemma {:induction false} IsEventRow(r: Resource)
    requires r.relations.kind == "Event" && r.relations.group == "core"
    ensures EventRow(r)
  {
    assert Lower("Event") == [LowerChar('E')] + Lower("vent");
    assert Lower("vent") == [LowerChar('v')] + Lower("ent");
    assert Lower("ent") == [LowerChar('e')] + Lower("nt");
    assert Lower("nt") == [LowerChar('n')] + Lower("t");
    assert Lower("t") == [LowerChar('t')] + Lower("");
  }

  lemma {:induction false} RetentionTakes(s: Stock, r: Resource, at: int)
    requires WellFormed(s) && A.Agrees(s, r.Id()) && A.Problem(s, r.Id())
    requires s.rows[r.Id()].resource == r && s.rows[r.Id()].observedAt < at
    requires r.relations.kind == "Event" && r.relations.group == "core"
    ensures !A.Agrees(Perform(s, Retention(at, at, at)), r.Id())
  {
    IsEventRow(r);
    A.PruneAgrees(s, at, at, at, r.Id());
    hide EventRow, A.Agrees, A.Problem, Prune, WellFormed;
  }

  /** Event retention takes a live problem away and leaves its incident open. */
  lemma {:induction false} RetentionDisagrees()
    ensures var r := Sample("u", "Event", Critical, 1000, None);
            var steps := Arrival(Event(1, Upsert, r), 1, 2);
            && A.Agrees(Run(INITIAL, steps).stock, r.Id())
            && !A.Agrees(Run(INITIAL, steps + Sweep(3)).stock, r.Id())
  {
    var r := Sample("u", "Event", Critical, 1000, None);
    var e := Event(1, Upsert, r);
    var steps, s := Arrival(e, 1, 2), Perform(INITIAL.stock, Ingest(Seen(e), 2));
    EventProblem(r);
    hide *;
    FirstEvent(e);
    SweptRun(e);
    AgreesAlike(Run(INITIAL, steps).stock, s, r.Id());
    AgreesAlike(Run(INITIAL, steps + Sweep(3)).stock, Perform(s, Retention(3, 3, 3)), r.Id());
  }

  lemma {:induction false} EventProblem(r: Resource)
    requires r == Sample("u", "Event", Critical, 1000, None)
    ensures Sendable(Event(1, Upsert, r)) && Seen(Event(1, Upsert, r)) == Observation("s", Upsert, r)
    ensures var s := Perform(INITIAL.stock, Ingest(Observation("s", Upsert, r), 2));
            A.Agrees(s, r.Id()) && !A.Agrees(Perform(s, Retention(3, 3, 3)), r.Id())
  {
    Upserted(r, 2);
    var s := Perform(INITIAL.stock, Ingest(Observation("s", Upsert, r), 2));
    hide Perform, EventRow, Prune;
    RetentionTakes(s, r, 3);
  }

  lemma {:induction false} SweptRun(e: IngestEvent)
    requires Sendable(e)
    ensures SameInventory(Run(INITIAL, Arrival(e, 1, 2) + Sweep(3)).stock,
                          Perform(Perform(INITIAL.stock, Ingest(Seen(e), 2)), Retention(3, 3, 3)))
  {
    hide *;
    FirstEvent(e);
    Sweeps(Run(INITIAL, Arrival(e, 1, 2)), 3);
    Then(Arrival(e, 1, 2), Sweep(3));
    TwoChanges(INITIAL.stock, Ingest(Seen(e), 2), Retention(3, 3, 3));
  }

  lemma {:induction false} TwoChanges(s: Stock, a: Change, b: Change)
    ensures PerformAll(s, [a] + [b]) == Perform(Perform(s, a), b)
  {
    PerformAppend(s, [a], [b]);
    OneChange(s, a);
    OneChange(Perform(s, a), b);
  }

  /* ---------- events that come back, and pages that are lost ---------- */

  function Both(a: IngestEvent, b: IngestEvent): seq<Step> {
    Arrival(a, 1, 2) + Arrival(b, 3, 4)
  }

  /** The inventory after two events. */
  function AfterBoth(a: IngestEvent, b: IngestEvent): Stock {
    Perform(Perform(INITIAL.stock, Ingest(Seen(a), 2)), Ingest(Seen(b), 4))
  }

  lemma {:induction false} TwoEvents(a: IngestEvent, b: IngestEvent)
    requires Sendable(a) && Sendable(b) && a.eventId != b.eventId
    ensures var db := Run(INITIAL, Both(a, b));
            && Settled(db) && db.clock == 4
            && I.Ids(db.inbox) == [a.eventId, b.eventId] && AppliedTo(db.applied, KEY) == [a.eventId, b.eventId]
            && RunChanges(INITIAL, Both(a, b)) == [Ingest(Seen(a), 2), Ingest(Seen(b), 4)]
            && SameInventory(db.stock, AfterBoth(a, b))
  {
    var db := Run(INITIAL, Arrival(a, 1, 2));
    assert Both(a, b) == Arrival(a, 1, 2) + Arrival(b, 3, 4);
    assert AfterBoth(a, b) == Perform(Perform(INITIAL.stock, Ingest(Seen(a), 2)), Ingest(Seen(b), 4));
    hide *;
    FirstEvent(a);
    NotKnown(db.inbox, a.eventId, b.eventId);
    Arrives(db, b, 3, 4);
    Then(Arrival(a, 1, 2), Arrival(b, 3, 4));
    TwoChanges(INITIAL.stock, Ingest(Seen(a), 2), Ingest(Seen(b), 4));
  }

  lemma {:induction false} NotKnown(inbox: seq<I.Row>, known: nat, id: nat)
    requires I.Ids(inbox) == [known] && id != known
    ensures !I.Known(inbox, id)
  {
    E.KnownWasHeld(inbox, id);
  }

  /** Two events, retention, and the first event once more. */
  function Replayed(a: IngestEvent, b: IngestEvent): seq<Step> {
    Both(a, b) + Sweep(5) + Arrival(a, 6, 7)
  }

  lemma {:induction false} SweptBoth(a: IngestEvent, b: IngestEvent)
    requires Sendable(a) && Sendable(b) && a.eventId != b.eventId
    ensures var db := Run(INITIAL, Both(a, b) + Sweep(5));
            && Settled(db) && db.clock == 5 && (forall id :: !I.Known(db.inbox, id))
            && I.Ids(db.inbox) == [a.eventId, b.eventId] && AppliedTo(db.applied, KEY) == [a.eventId, b.eventId]
            && RunChanges(INITIAL, Both(a, b) + Sweep(5))
                 == [Ingest(Seen(a), 2), Ingest(Seen(b), 4)] + [Retention(5, 5, 5)]
  {
    hide *;
    TwoEvents(a, b);
    Sweeps(Run(INITIAL, Both(a, b)), 5);
    Then(Both(a, b), Sweep(5));
  }

  lemma {:induction false} FourChanges(s: Stock, a: Change, b: Change, c: Change, d: Change)
    ensures PerformAll(s, [a, b] + [c] + [d]) == Perform(Perform(Perform(Perform(s, a), b), c), d)
  {
    hide Perform;
    assert [a] + [b] == [a, b];
    TwoChanges(s, a, b);
    PerformAppend(s, [a, b], [c]);
    OneChange(PerformAll(s, [a, b]), c);
    PerformAppend(s, [a, b] + [c], [d]);
    OneChange(PerformAll(s, [a, b] + [c]), d);
  }

  lemma {:induction false} ReplayedRun(a: IngestEvent, b: IngestEvent)
    requires Sendable(a) && Sendable(b) && a.eventId != b.eventId
    ensures var db := Run(INITIAL, Replayed(a, b));
            && I.Ids(db.inbox) == [a.eventId, b.eventId] + [a.eventId]
            && AppliedTo(db.applied, KEY) == [a.eventId, b.eventId] + [a.eventId]
            && SameInventory(db.stock, Perform(Perform(AfterBoth(a, b), Retention(5, 5, 5)), Ingest(Seen(a), 7)))
  {
    assert Replayed(a, b) == Both(a, b) + Sweep(5) + Arrival(a, 6, 7);
    assert AfterBoth(a, b) == Perform(Perform(INITIAL.stock, Ingest(Seen(a), 2)), Ingest(Seen(b), 4));
    hide *;
    SweptBoth(a, b);
    Arrives(Run(INITIAL, Both(a, b) + Sweep(5)), a, 6, 7);
    Then(Both(a, b) + Sweep(5), Arrival(a, 6, 7));
    FourChanges(INITIAL.stock, Ingest(Seen(a), 2), Ingest(Seen(b), 4), Retention(5, 5, 5), Ingest(Seen(a), 7));
  }

  /** An event that is replayed after its row has left the inbox is stored and applied again. */
  lemma {:induction false} ForgottenIsAppliedAgain(a: IngestEvent, b: IngestEvent)
    requires Sendable(a) && Sendable(b) && a.eventId != b.eventId
    ensures var db := Run(INITIAL, Replayed(a, b));
            I.Ids(db.inbox) == AppliedTo(db.applied, KEY) == [a.eventId, b.eventId] + [a.eventId]
  {
    ReplayedRun(a, b);
  }

  /** A replayed upsert brings a deleted resource back once retention has taken the tombstone. */
  lemma {:induction false} DeletedComesBack()
    ensures var r := Sample("u", "Deployment", OK, 1000, None);
            var up, gone := Event(1, Upsert, r), Event(2, Delete, r.(observedAt := 2000));
            && !IsLive(Run(INITIAL, Both(up, gone)).stock, r.Id())
            && IsLive(Run(INITIAL, Replayed(up, gone)).stock, r.Id())
  {
    var r := Sample("u", "Deployment", OK, 1000, None);
    var up, gone := Event(1, Upsert, r), Event(2, Delete, r.(observedAt := 2000));
    DeletedThenStale(r, up, gone);
    hide *;
    TwoEvents(up, gone);
    ReplayedRun(up, gone);
    LiveAlike(Run(INITIAL, Both(up, gone)).stock, AfterBoth(up, gone), r.Id());
    LiveAlike(Run(INITIAL, Replayed(up, gone)).stock,
              Perform(Perform(AfterBoth(up, gone), Retention(5, 5, 5)), Ingest(Seen(up), 7)), r.Id());
  }

  lemma {:induction false} LiveAlike(s: Stock, t: Stock, id: ResourceId)
    requires SameInventory(s, t)
    ensures IsLive(s, id) == IsLive(t, id)
  {}

  lemma {:induction false} DeletedThenStale(r: Resource, up: IngestEvent, gone: IngestEvent)
    requires r == Sample("u", "Deployment", OK, 1000, None)
    requires up == Event(1, Upsert, r) && gone == Event(2, Delete, r.(observedAt := 2000))
    ensures Sendable(up) && Sendable(gone)
    ensures !IsLive(AfterBoth(up, gone), r.Id())
    ensures IsLive(Perform(Perform(AfterBoth(up, gone), Retention(5, 5, 5)), Ingest(Seen(up), 7)), r.Id())
  {
    assert ResolveEvent(map[], r, 2) == r && ResolveEvent(map[], r, 7) == r;
    var s := AfterBoth(up, gone);
    assert s.rows == map[r.Id() := Row(r.(observedAt := 2000), "s", 2, Some(4))];
    assert s.heads == map[];
    var t := Perform(s, Retention(5, 5, 5));
    assert t.rows == map[] && t.heads == map[];
  }

  /** A list whose only page is refused or lost, and a marker that arrives: a listed, existing resource is removed. */
  lemma {:induction false} LostPageRemoves(result: Sender.SendResult)
    requires !result.Sent?
    ensures var r := Sample("u", "Deployment", OK, 1000, None);
            var again, marker := r.(observedAt := 6000), Sample("m", "", OK, 5000, None);
            var pages := [S.Page([S.Item(again, 3)], result, 0)];
            var up, end := Event(1, Upsert, r), Event(2, Reconcile, marker);
            && S.WellSent(pages) && S.Listed(S.AllItems(pages), r.Id()) && S.HandedItems(pages) == []
            && IsLive(Run(INITIAL, Arrival(up, 1, 2)).stock, r.Id())
            && !IsLive(Run(INITIAL, Both(up, end)).stock, r.Id())
  {
    var r := Sample("u", "Deployment", OK, 1000, None);
    var again, marker := r.(observedAt := 6000), Sample("m", "", OK, 5000, None);
    var item := S.Item(again, 3);
    var up, end := Event(1, Upsert, r), Event(2, Reconcile, marker);
    OnlyPage(item, result);
    MarkedAway(r, up, end);
    assert again.Id() == r.Id();
    hide *;
    FirstEvent(up);
    TwoEvents(up, end);
    LiveAlike(Run(INITIAL, Arrival(up, 1, 2)).stock, Perform(INITIAL.stock, Ingest(Seen(up), 2)), r.Id());
    LiveAlike(Run(INITIAL, Both(up, end)).stock, AfterBoth(up, end), r.Id());
  }

  lemma {:induction false} OnlyPage(item: S.Item, result: Sender.SendResult)
    requires !result.Sent?
    ensures var pages := [S.Page([item], result, 0)];
            S.WellSent(pages) && S.Listed(S.AllItems(pages), item.resource.Id()) && S.HandedItems(pages) == []
  {
    var pages := [S.Page([item], result, 0)];
    assert S.AllItems([]) == [];
    assert S.AllItems(pages) == [item] + S.AllItems([]);
    assert S.AllItems(pages)[0].resource.Id() == item.resource.Id();
  }

  lemma {:induction false} MarkedAway(r: Resource, up: IngestEvent, end: IngestEvent)
    requires r == Sample("u", "Deployment", OK, 1000, None)
    requires up == Event(1, Upsert, r) && end == Event(2, Reconcile, Sample("m", "", OK, 5000, None))
    ensures Sendable(up) && Sendable(end)
    ensures IsLive(Perform(INITIAL.stock, Ingest(Seen(up), 2)), r.Id()) && !IsLive(AfterBoth(up, end), r.Id())
  {
    assert ResolveEvent(map[], r, 2) == r;
    var s := Perform(INITIAL.stock, Ingest(Seen(up), 2));
    assert s.rows == map[r.Id() := Row(r, "s", 1, None)] && s.heads == map[];
  }
}

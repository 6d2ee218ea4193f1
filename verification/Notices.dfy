/** What is announced of a resource: one note for every change of the problem that its row shows, and none otherwise.
    The last note of a resource therefore says what is stored. */
module Notices {
  import opened Model
  import opened Seqs
  import opened Inventory
  import opened Pipeline
  import opened Changes
  import A = Incidents
  import O = Outbox
  import R = OutboxRuns

  function ForId(id: ResourceId): OutRow -> bool {
    (o: OutRow) => o.note.id == id
  }

  function Notes(outbox: seq<OutRow>): seq<Note> {
    if outbox == [] then [] else [outbox[0].note] + Notes(outbox[1..])
  }

  /** Every notification ever queued for an id. */
  function NotesOf(s: Stock, id: ResourceId): seq<Note> {
    Notes(Filter(ForId(id), s.outbox))
  }

  lemma {:induction false} QueueForOther(outbox: seq<OutRow>, note: Note, now: int, id: ResourceId)
    requires note.id != id
    ensures Filter(ForId(id), Queue(outbox, note, now)) == Filter(ForId(id), outbox)
  {
    FilterAppend(ForId(id), outbox, [OutRow(note, now, None, 0, None, false)]);
  }

  lemma {:induction false} RemovedForOthers(outbox: seq<OutRow>, rows: map<ResourceId, Row>, order: seq<ResourceId>,
                                            key: ShardKey, cutoff: int, now: int, id: ResourceId)
    requires forall x :: x in rows ==> rows[x].resource.Id() == x
    requires id in rows ==> !(Unseen(rows[id], key, cutoff) && rows[id].resource.state != OK)
    ensures Filter(ForId(id), QueueRemoved(outbox, rows, order, key, cutoff, now)) == Filter(ForId(id), outbox)
    decreases order
  {
    if order != [] {
      var x := order[0];
      if x in rows && Unseen(rows[x], key, cutoff) && rows[x].resource.state != OK {
        var note := NoteFor(rows[x].resource, Delete);
        QueueForOther(outbox, note, now, id);
        RemovedForOthers(Queue(outbox, note, now), rows, order[1..], key, cutoff, now, id);
      } else {
        RemovedForOthers(outbox, rows, order[1..], key, cutoff, now, id);
      }
    }
  }

  lemma {:induction false} RecoveredForOthers(outbox: seq<OutRow>, rows: map<ResourceId, Row>, order: seq<ResourceId>,
                                              locked: set<ResourceId>, now: int, id: ResourceId)
    requires forall x :: x in rows ==> rows[x].resource.Id() == x
    requires !Recovers(rows, id, locked, now)
    ensures Filter(ForId(id), QueueRecovered(outbox, rows, order, locked, now)) == Filter(ForId(id), outbox)
    decreases order
  {
    if order != [] {
      var x := order[0];
      if Recovers(rows, x, locked, now) {
        var note := NoteFor(Resolved(rows[x].resource, PassReason(rows, rows[x], now)), Upsert);
        QueueForOther(outbox, note, now, id);
        RecoveredForOthers(Queue(outbox, note, now), rows, order[1..], locked, now, id);
      } else {
        RecoveredForOthers(outbox, rows, order[1..], locked, now, id);
      }
    }
  }

  lemma {:induction false} PruneKeepsNotes(outbox: seq<OutRow>, cutoff: int, id: ResourceId)
    ensures Notes(Filter(ForId(id), PruneOutbox(outbox, cutoff))) == Notes(Filter(ForId(id), outbox))
  {
    if outbox == [] {
      assert PruneOutbox(outbox, cutoff) == [];
    } else {
      assert PruneOutbox(outbox, cutoff) == [PruneOut(outbox[0], cutoff)] + PruneOutbox(outbox[1..], cutoff);
      PruneKeepsNotes(outbox[1..], cutoff, id);
      FilterCons(ForId(id), PruneOut(outbox[0], cutoff), PruneOutbox(outbox[1..], cutoff));
    }
  }

  lemma {:induction false} SameNotesOf(s: Stock, t: Stock, id: ResourceId)
    requires SameNotes(s.outbox, t.outbox)
    ensures NotesOf(s, id) == NotesOf(t, id)
  {
    FilterSameNotes(s.outbox, t.outbox, id);
  }

  lemma {:induction false} FilterSameNotes(a: seq<OutRow>, b: seq<OutRow>, id: ResourceId)
    requires SameNotes(a, b)
    ensures Notes(Filter(ForId(id), a)) == Notes(Filter(ForId(id), b))
  {
    if a != [] {
      FilterSameNotes(a[1..], b[1..], id);
      assert a == [a[0]] + a[1..] && b == [b[0]] + b[1..];
      FilterCons(ForId(id), a[0], a[1..]);
      FilterCons(ForId(id), b[0], b[1..]);
    }
  }

  /* ---------- one note for every visible change ---------- */

  /** What a live row that is not ok shows. */
  datatype Problem = Problem(state: State, reason: string, relations: Relations)

  function Shown(s: Stock, id: ResourceId): Option<Problem> {
    if IsLive(s, id) && s.rows[id].resource.state != OK
    then Some(Problem(s.rows[id].resource.state, s.rows[id].resource.reason, s.rows[id].resource.relations))
    else None
  }

  /** The note that says what is stored now. */
  function NewsOf(s: Stock, id: ResourceId): Note
    requires id in s.rows
  {
    var r := s.rows[id].resource;
    Note(id, r.relations, r.state, r.reason, if s.rows[id].Live() then Upsert else Delete)
  }

  /** The notes of id grow by what is stored now if it shows something else than before, and stay otherwise. */
  ghost predicate Announces(s: Stock, t: Stock, id: ResourceId) {
    if Shown(t, id) == Shown(s, id) then NotesOf(t, id) == NotesOf(s, id)
    else id in t.rows && NotesOf(t, id) == NotesOf(s, id) + [NewsOf(t, id)]
  }

  /** No upsert that says it is deleted already. */
  predicate Ordinary(c: Change, id: ResourceId) {
    c.Ingest? && c.observation.Writes(id) && c.observation.action == Upsert ==>
      c.observation.resource.deletedAt.None?
  }

  lemma {:induction false} NotesAppend(a: seq<OutRow>, b: seq<OutRow>)
    ensures Notes(a + b) == Notes(a) + Notes(b)
  {
    if a == [] {
      assert a + b == b;
    } else {
      assert (a + b)[1..] == a[1..] + b;
      NotesAppend(a[1..], b);
    }
  }

  lemma {:induction false} QueueForId(outbox: seq<OutRow>, note: Note, now: int)
    ensures Notes(Filter(ForId(note.id), Queue(outbox, note, now))) == Notes(Filter(ForId(note.id), outbox)) + [note]
  {
    var row := OutRow(note, now, None, 0, None, false);
    FilterSnoc(ForId(note.id), outbox, row);
    NotesAppend(Filter(ForId(note.id), outbox), [row]);
    assert Notes([row]) == [note];
  }

  /** The marker queues one delete note for a problem it removes. */
  lemma {:induction false} RemovedOnce(outbox: seq<OutRow>, rows: map<ResourceId, Row>, order: seq<ResourceId>,
                                       key: ShardKey, cutoff: int, now: int, id: ResourceId)
    requires forall x :: x in rows ==> rows[x].resource.Id() == x
    requires Distinct(order) && id in order && id in rows
    requires Unseen(rows[id], key, cutoff) && rows[id].resource.state != OK
    ensures Notes(Filter(ForId(id), QueueRemoved(outbox, rows, order, key, cutoff, now)))
         == Notes(Filter(ForId(id), outbox)) + [NoteFor(rows[id].resource, Delete)]
    decreases order
  {
    hide Unseen;
    var x, tail := order[0], order[1..];
    if x == id {
      QueueForId(outbox, NoteFor(rows[id].resource, Delete), now);
      OthersRemoved(Queue(outbox, NoteFor(rows[id].resource, Delete), now), rows, tail, key, cutoff, now, id);
    } else {
      assert id in tail;
      if x in rows && Unseen(rows[x], key, cutoff) && rows[x].resource.state != OK {
        QueueForOther(outbox, NoteFor(rows[x].resource, Delete), now, id);
        RemovedOnce(Queue(outbox, NoteFor(rows[x].resource, Delete), now), rows, tail, key, cutoff, now, id);
      } else {
        RemovedOnce(outbox, rows, tail, key, cutoff, now, id);
      }
    }
  }

  lemma {:induction false} OthersRemoved(outbox: seq<OutRow>, rows: map<ResourceId, Row>, order: seq<ResourceId>,
                                         key: ShardKey, cutoff: int, now: int, id: ResourceId)
    requires forall x :: x in rows ==> rows[x].resource.Id() == x
    requires id !in order
    ensures Filter(ForId(id), QueueRemoved(outbox, rows, order, key, cutoff, now)) == Filter(ForId(id), outbox)
    decreases order
  {
    if order != [] {
      var x := order[0];
      if x in rows && Unseen(rows[x], key, cutoff) && rows[x].resource.state != OK {
        QueueForOther(outbox, NoteFor(rows[x].resource, Delete), now, id);
        OthersRemoved(Queue(outbox, NoteFor(rows[x].resource, Delete), now), rows, order[1..], key, cutoff, now, id);
      } else {
        OthersRemoved(outbox, rows, order[1..], key, cutoff, now, id);
      }
    }
  }

  /** The pass queues one note for an event it resolves. */
  lemma {:induction false} RecoveredOnce(outbox: seq<OutRow>, rows: map<ResourceId, Row>, order: seq<ResourceId>,
                                         busy: set<ResourceId>, now: int, id: ResourceId)
    requires forall x :: x in rows ==> rows[x].resource.Id() == x
    requires Distinct(order) && id in order && Recovers(rows, id, busy, now)
    ensures Notes(Filter(ForId(id), QueueRecovered(outbox, rows, order, busy, now)))
         == Notes(Filter(ForId(id), outbox)) + [NoteFor(ResolveRow(rows, id, busy, now).resource, Upsert)]
    decreases order
  {
    hide Recovers, PassReason, Resolved;
    var x, tail := order[0], order[1..];
    KnownRecovers(rows, id, busy, now);
    assert ResolveRow(rows, id, busy, now).resource == Resolved(rows[id].resource, PassReason(rows, rows[id], now));
    if Recovers(rows, x, busy, now) {
      KnownRecovers(rows, x, busy, now);
      var note := NoteFor(Resolved(rows[x].resource, PassReason(rows, rows[x], now)), Upsert);
      SameIdentityResolved(rows[x].resource, PassReason(rows, rows[x], now));
      if x == id {
        QueueForId(outbox, note, now);
        OthersRecovered(Queue(outbox, note, now), rows, tail, busy, now, id);
      } else {
        QueueForOther(outbox, note, now, id);
        RecoveredOnce(Queue(outbox, note, now), rows, tail, busy, now, id);
      }
    } else {
      RecoveredOnce(outbox, rows, tail, busy, now, id);
    }
  }

  lemma {:induction false} SameIdentityResolved(r: Resource, reason: string)
    ensures Resolved(r, reason).Id() == r.Id()
  {}

  lemma {:induction false} KnownRecovers(rows: map<ResourceId, Row>, id: ResourceId, busy: set<ResourceId>, now: int)
    requires Recovers(rows, id, busy, now)
    ensures id in rows
  {}

  lemma {:induction false} OthersRecovered(outbox: seq<OutRow>, rows: map<ResourceId, Row>, order: seq<ResourceId>,
                                           busy: set<ResourceId>, now: int, id: ResourceId)
    requires forall x :: x in rows ==> rows[x].resource.Id() == x
    requires id !in order
    ensures Filter(ForId(id), QueueRecovered(outbox, rows, order, busy, now)) == Filter(ForId(id), outbox)
    decreases order
  {
    hide Recovers, PassReason, Resolved;
    if order != [] {
      var x := order[0];
      if Recovers(rows, x, busy, now) {
        KnownRecovers(rows, x, busy, now);
        var note := NoteFor(Resolved(rows[x].resource, PassReason(rows, rows[x], now)), Upsert);
        SameIdentityResolved(rows[x].resource, PassReason(rows, rows[x], now));
        QueueForOther(outbox, note, now, id);
        OthersRecovered(Queue(outbox, note, now), rows, order[1..], busy, now, id);
      } else {
        OthersRecovered(outbox, rows, order[1..], busy, now, id);
      }
    }
  }

  lemma {:induction false} WriteAnnounces(s: Stock, shard: string, action: Action, r: Resource, at: int, now: int,
                                          id: ResourceId)
    requires WellFormed(s) && (action == Upsert || action == Delete)
    requires r.Id() == id && action == Upsert ==> r.deletedAt.None?
    ensures Announces(s, Write(s, shard, action, r, at, now), id)
  {
    hide Filter, Notes;
    if r.Id() == id {
      QueueForId(s.outbox, NoteFor(r, action), now);
    } else {
      QueueForOther(s.outbox, NoteFor(r, action), now, id);
    }
  }

  lemma {:induction false} MarkerAnnounces(s: Stock, key: ShardKey, cutoff: int, now: int, id: ResourceId)
    requires WellFormed(s)
    ensures Announces(s, ReconcileShard(s, key, cutoff, now), id)
  {
    hide Filter, Notes, QueueRemoved;
    if id in s.rows && Unseen(s.rows[id], key, cutoff) && s.rows[id].resource.state != OK {
      RemovedOnce(s.outbox, s.rows, s.order, key, cutoff, now, id);
    } else {
      RemovedForOthers(s.outbox, s.rows, s.order, key, cutoff, now, id);
    }
  }

  lemma {:induction false} PassAnnounces(s: Stock, busy: set<ResourceId>, now: int, id: ResourceId)
    requires WellFormed(s)
    ensures Announces(s, Inventory.ResolveEvents(s, busy, now), id)
  {
    hide Filter, Notes, QueueRecovered, PassReason;
    if Recovers(s.rows, id, busy, now) {
      RecoveredOnce(s.outbox, s.rows, s.order, busy, now, id);
    } else {
      RecoveredForOthers(s.outbox, s.rows, s.order, busy, now, id);
    }
  }

  /** An event or a recovery pass announces a resource exactly when its row shows something else afterwards, and then
      once and with what is stored: a new problem, another state, reason or set of relations of a problem, a recovery,
      or a removal. Retention announces nothing. */
  lemma {:induction false} ChangeAnnounces(s: Stock, c: Change, id: ResourceId)
    requires WellFormed(s) && Ordinary(c, id)
    ensures if c.Retention? then NotesOf(Perform(s, c), id) == NotesOf(s, id) else Announces(s, Perform(s, c), id)
  {
    hide Announces, NotesOf, ReconcileShard, Write, WellFormed, Inventory.ResolveEvents, ResolveEvent;
    NothingAnnounced(s, id);
    match c
    case Ingest(o, at) =>
      if o.action == Reconcile {
        MarkerAnnounces(s, o.Key(), o.At(), at, id);
      } else if o.action != Heartbeat {
        ResolvedKeepsIdentity(s.rows, o.resource, at);
        WriteAnnounces(s, o.shard, o.action, if o.action == Upsert then ResolveEvent(s.rows, o.resource, at)
                       else o.resource,
                       o.At(), at, id);
      }
    case Pass(busy, at) => PassAnnounces(s, busy, at, id);
    case Retention(ec, tc, hc) => SweepAnnounces(s, ec, tc, hc, id);
  }

  lemma {:induction false} NothingAnnounced(s: Stock, id: ResourceId)
    ensures Announces(s, s, id)
  {}

  lemma {:induction false} SweepAnnounces(s: Stock, eventCutoff: int, tombstoneCutoff: int, historyCutoff: int,
                                          id: ResourceId)
    ensures NotesOf(Prune(s, eventCutoff, tombstoneCutoff, historyCutoff), id) == NotesOf(s, id)
  {
    PruneKeepsNotes(s.outbox, historyCutoff, id);
  }

  /** What is queued can be claimed at once, and nobody has claimed it yet. */
  ghost predicate QueuedDue(before: seq<OutRow>, after: seq<OutRow>, now: int) {
    && before <= after
    && forall i :: |before| <= i < |after| ==> after[i] == OutRow(after[i].note, now, None, 0, None, false)
  }

  lemma {:induction false} RemovedDue(first: seq<OutRow>, outbox: seq<OutRow>, rows: map<ResourceId, Row>,
                                      order: seq<ResourceId>, key: ShardKey, cutoff: int, now: int)
    requires QueuedDue(first, outbox, now)
    ensures QueuedDue(first, QueueRemoved(outbox, rows, order, key, cutoff, now), now)
    decreases order
  {
    hide Unseen;
    if order != [] {
      var x := order[0];
      if x in rows && Unseen(rows[x], key, cutoff) && rows[x].resource.state != OK {
        RemovedDue(first, Queue(outbox, NoteFor(rows[x].resource, Delete), now), rows, order[1..], key, cutoff, now);
      } else {
        RemovedDue(first, outbox, rows, order[1..], key, cutoff, now);
      }
    }
  }

  lemma {:induction false} RecoveredDue(first: seq<OutRow>, outbox: seq<OutRow>, rows: map<ResourceId, Row>,
                                        order: seq<ResourceId>, busy: set<ResourceId>, now: int)
    requires QueuedDue(first, outbox, now)
    ensures QueuedDue(first, QueueRecovered(outbox, rows, order, busy, now), now)
    decreases order
  {
    hide Recovers, PassReason, Resolved;
    if order != [] {
      var x := order[0];
      if Recovers(rows, x, busy, now) {
        KnownRecovers(rows, x, busy, now);
        var note := NoteFor(Resolved(rows[x].resource, PassReason(rows, rows[x], now)), Upsert);
        RecoveredDue(first, Queue(outbox, note, now), rows, order[1..], busy, now);
      } else {
        RecoveredDue(first, outbox, rows, order[1..], busy, now);
      }
    }
  }

  lemma {:induction false} NewNotesAreDue(s: Stock, c: Change)
    requires !c.Retention?
    ensures QueuedDue(s.outbox, Perform(s, c).outbox, c.at)
  {
    hide ResolveEvent, ShouldNotify, RoundToMicros, QueueRemoved, QueueRecovered;
    RemovedDueAll(s, c);
  }

  lemma {:induction false} RemovedDueAll(s: Stock, c: Change)
    requires !c.Retention?
    ensures c.Ingest? ==>
              QueuedDue(s.outbox,
                        QueueRemoved(s.outbox, s.rows, s.order, c.observation.Key(), c.observation.At(), c.at), c.at)
    ensures c.Pass? ==> QueuedDue(s.outbox, QueueRecovered(s.outbox, s.rows, s.order, c.busy, c.at), c.at)
  {
    match c
    case Ingest(o, at) => RemovedDue(s.outbox, s.outbox, s.rows, s.order, o.Key(), o.At(), at);
    case Pass(busy, at) => RecoveredDue(s.outbox, s.outbox, s.rows, s.order, busy, at);
  }

  /* ---------- the last note says what is stored ---------- */

  ghost predicate LastTells(s: Stock, id: ResourceId) {
    Shown(s, id).Some? ==> NotesOf(s, id) != [] && NotesOf(s, id)[|NotesOf(s, id)| - 1] == NewsOf(s, id)
  }

  lemma {:induction false} AnnouncedTells(s: Stock, t: Stock, id: ResourceId)
    requires LastTells(s, id) && Announces(s, t, id)
    ensures LastTells(t, id)
  {
    hide NotesOf;
  }

  /** Also for an upsert that says it is deleted already, as it leaves no live row, and for retention. */
  lemma {:induction false} ChangeTells(s: Stock, c: Change, id: ResourceId)
    requires WellFormed(s) && LastTells(s, id)
    ensures LastTells(Perform(s, c), id)
  {
    hide NotesOf, Announces, LastTells;
    if !Ordinary(c, id) {
      DeletedUpsertTells(s, c, id);
    } else {
      ChangeAnnounces(s, c, id);
      if c.Retention? {
        SweepTells(s, c, id);
      } else {
        AnnouncedTells(s, Perform(s, c), id);
      }
    }
  }

  lemma {:induction false} DeletedUpsertTells(s: Stock, c: Change, id: ResourceId)
    requires LastTells(s, id) && !Ordinary(c, id)
    ensures LastTells(Perform(s, c), id)
  {
    hide NotesOf, RoundToMicros, Queue, ShouldNotify, ResolveEvent;
    ResolvedKeepsIdentity(s.rows, c.observation.resource, c.at);
  }

  lemma {:induction false} SweepTells(s: Stock, c: Change, id: ResourceId)
    requires LastTells(s, id) && c.Retention? && NotesOf(Perform(s, c), id) == NotesOf(s, id)
    ensures LastTells(Perform(s, c), id)
  {
    hide NotesOf, Expired;
  }

  lemma {:induction false} ChangeWellFormed(s: Stock, c: Change)
    requires WellFormed(s)
    ensures WellFormed(Perform(s, c))
  {
    match c
    case Ingest(o, at) => A.WellFormedAfterApply(s, o.shard, o.action, o.resource, at);
    case Pass(busy, at) => hide PassReason, QueueRecovered;
    case Retention(ec, tc, hc) => A.PruneWellFormed(s, ec, tc, hc);
  }

  lemma {:induction false} ChangesTell(s: Stock, changes: seq<Change>, id: ResourceId)
    requires WellFormed(s) && LastTells(s, id)
    ensures LastTells(PerformAll(s, changes), id)
    decreases changes
  {
    hide LastTells, Perform, WellFormed;
    if changes != [] {
      ChangeTells(s, changes[0], id);
      ChangeWellFormed(s, changes[0]);
      ChangesTell(Perform(s, changes[0]), changes[1..], id);
    }
  }

  /** In every run, without exception: the last note of a resource whose row is live and not ok carries exactly the
      state, the reason and the relations of the row. */
  lemma {:induction false} LastNoteTells(steps: seq<Step>, id: ResourceId)
    ensures LastTells(Run(INITIAL, steps).stock, id)
  {
    var changes := RunChanges(INITIAL, steps);
    assert WellFormed(INITIAL.stock) && LastTells(INITIAL.stock, id);
    hide WellFormed, Run, RunChanges, PerformAll, NotesOf;
    ChangesTell(INITIAL.stock, changes, id);
    RunIsPerformed(INITIAL, steps);
    SameNotesOf(Run(INITIAL, steps).stock, PerformAll(INITIAL.stock, changes), id);
  }

  /* ---------- what the receiver was told last ---------- */

  function LastReceived(outbox: seq<OutRow>, received: seq<nat>, id: ResourceId): Option<Note>
    requires forall k :: 0 <= k < |received| ==> received[k] < |outbox|
  {
    if received == [] then None
    else
      var last := outbox[received[|received| - 1]].note;
      if last.id == id then Some(last) else LastReceived(outbox, received[..|received| - 1], id)
  }

  lemma {:induction false} ReceivedLast(outbox: seq<OutRow>, received: seq<nat>, id: ResourceId, m: nat)
    requires forall k :: 0 <= k < |received| ==> received[k] < |outbox|
    requires m in received && outbox[m].note.id == id
    requires forall k :: 0 <= k < |received| && outbox[received[k]].note.id == id ==> received[k] <= m
    requires O.ReceivedInOrder(outbox, received)
    ensures LastReceived(outbox, received, id) == Some(outbox[m].note)
  {
    var n := |received| - 1;
    var last := received[n];
    var k :| 0 <= k < |received| && received[k] == m;
    if outbox[last].note.id == id {
      assert O.SameResource(outbox, received[k], received[n]);
    } else {
      var front := received[..n];
      assert front[k] == m;
      forall a, b | 0 <= a < b < |front| && O.SameResource(outbox, front[a], front[b]) ensures front[a] < front[b] {
        assert O.SameResource(outbox, received[a], received[b]);
      }
      ReceivedLast(outbox, front, id, m);
    }
  }

  lemma {:induction false} LastOfFilter(outbox: seq<OutRow>, id: ResourceId) returns (m: nat)
    requires Notes(Filter(ForId(id), outbox)) != []
    ensures O.LastFor(outbox, id, m)
    ensures var notes := Notes(Filter(ForId(id), outbox));
            notes[|notes| - 1] == outbox[m].note
  {
    assert outbox != [];
    var n := |outbox| - 1;
    assert Notes([outbox[n]]) == [outbox[n].note] && Notes([]) == [];
    hide Filter, Notes;
    assert outbox == outbox[..n] + [outbox[n]];
    FilterSnoc(ForId(id), outbox[..n], outbox[n]);
    if outbox[n].note.id == id {
      NotesAppend(Filter(ForId(id), outbox[..n]), [outbox[n]]);
      m := n;
    } else {
      m := LastOfFilter(outbox[..n], id);
    }
  }

  /** Whenever the outbox is drained, what the receiver was told last of a live resource that is not ok is its stored
      state, reason and relations. */
  lemma {:induction false} DrainedReceiverKnows(steps: seq<Step>, id: ResourceId)
    requires R.Drained(Run(INITIAL, steps).stock.outbox) && Shown(Run(INITIAL, steps).stock, id).Some?
    ensures var db := Run(INITIAL, steps);
            && O.ReceiptsConsistent(db.stock.outbox, db.received)
            && LastReceived(db.stock.outbox, db.received, id) == Some(NewsOf(db.stock, id))
  {
    assert R.Delivery(INITIAL);
    hide *;
    LastNoteTells(steps, id);
    R.RunDelivery(INITIAL, steps);
    DrainedKnows(Run(INITIAL, steps), id);
  }

  lemma {:induction false} DrainedKnows(db: Db, id: ResourceId)
    requires R.Delivery(db) && R.Drained(db.stock.outbox) && LastTells(db.stock, id) && Shown(db.stock, id).Some?
    ensures O.ReceiptsConsistent(db.stock.outbox, db.received)
    ensures LastReceived(db.stock.outbox, db.received, id) == Some(NewsOf(db.stock, id))
  {
    hide O.OutboxInv, Filter, Notes, R.Drained, LastReceived, O.ReceiptsConsistent;
    DrainedReceiverHasLast(db.stock.outbox, db.received, id);
  }

  lemma {:induction false} DrainedReceiverHasLast(outbox: seq<OutRow>, received: seq<nat>, id: ResourceId)
    requires O.OutboxInv(outbox, received) && R.Drained(outbox) && Notes(Filter(ForId(id), outbox)) != []
    ensures O.ReceiptsConsistent(outbox, received)
    ensures var notes := Notes(Filter(ForId(id), outbox));
            LastReceived(outbox, received, id) == Some(notes[|notes| - 1])
  {
    hide Filter, Notes, LastReceived;
    var m := LastOfFilter(outbox, id);
    assert O.RowConsistent(outbox[m]) && !O.Waiting(outbox[m]);
    forall k | 0 <= k < |received| && outbox[received[k]].note.id == id ensures received[k] <= m {}
    ReceivedLast(outbox, received, id, m);
  }
}

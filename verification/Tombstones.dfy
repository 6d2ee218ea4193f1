/** How long a deletion is remembered: a tombstone, and after retention only the shard's watermark, holds older events
    back. Exactly when that is enough, and when a deleted resource comes back. */
module Tombstones {
  import opened Model
  import opened Seqs
  import opened EventRecovery
  import opened Inventory
  import opened Pipeline
  import opened Changes
  import opened Convergence

  /** The event has no effect: it is behind its shard's watermark, or a newer row is stored. */
  predicate Held(s: Stock, o: Observation) {
    || Before(o.At(), Watermark(s.heads, o.Key()))
    || (o.resource.Id() in s.rows && o.At() < s.rows[o.resource.Id()].observedAt)
  }

  /** The changes that can make a row of id live. */
  predicate Revives(c: Change, id: ResourceId) {
    && c.Ingest? && c.observation.action == Upsert && c.observation.resource.Id() == id
    && c.observation.resource.deletedAt.None?
  }

  lemma {:induction false} UpsertLands(s: Stock, c: Change, id: ResourceId)
    requires Revives(c, id)
    ensures var o, next := c.observation, Perform(s, c);
            if Held(s, o) then next == s
            else IsLive(next, id) && next.rows[id].observedAt == o.At() && next.heads == s.heads
  {
    hide ResolveEvent, ShouldNotify, Queue, RoundToMicros;
    ResolvedKeepsIdentity(s.rows, c.observation.resource, c.at);
  }

  lemma {:induction false} OthersKeepDead(s: Stock, c: Change, id: ResourceId)
    requires !IsLive(s, id) && !Revives(c, id)
    ensures !IsLive(Perform(s, c), id)
  {
    hide ResolveEvent, ShouldNotify, Queue, RoundToMicros, Expired, QueueRemoved, QueueRecovered, ResolveRow;
    match c
    case Ingest(o, at) => ResolvedKeepsIdentity(s.rows, o.resource, at);
    case Pass(busy, at) =>
      if id in s.rows {
        DeadIsSettled(s.rows, id, busy, at);
      }
    case Retention(_, _, _) =>
  }

  lemma {:induction false} DeadIsSettled(rows: map<ResourceId, Row>, id: ResourceId, busy: set<ResourceId>, now: int)
    requires id in rows && !rows[id].Live()
    ensures ResolveRow(rows, id, busy, now) == rows[id]
  {}

  /* ---------- a deleted resource ---------- */

  /** At no point of the changes, not even inside a transaction, is the id live. */
  ghost predicate NeverLive(s: Stock, changes: seq<Change>, id: ResourceId)
    decreases changes
  {
    !IsLive(s, id) && (changes != [] ==> NeverLive(Perform(s, changes[0]), changes[1..], id))
  }

  /** Every upsert of the id is held back when it is applied. */
  ghost predicate AllHeld(s: Stock, changes: seq<Change>, id: ResourceId)
    decreases changes
  {
    changes == [] ||
    ((Revives(changes[0], id) ==> Held(s, changes[0].observation))
     && AllHeld(Perform(s, changes[0]), changes[1..], id))
  }

  lemma {:induction false} NeverLiveIffHeld(s: Stock, changes: seq<Change>, id: ResourceId)
    requires !IsLive(s, id)
    ensures NeverLive(s, changes, id) <==> AllHeld(s, changes, id)
    decreases changes
  {
    hide Perform, Held, Revives;
    if changes != [] {
      var c := changes[0];
      if Revives(c, id) {
        UpsertLands(s, c, id);
      } else {
        OthersKeepDead(s, c, id);
      }
      if !IsLive(Perform(s, c), id) {
        NeverLiveIffHeld(Perform(s, c), changes[1..], id);
      } else {
        assert !NeverLive(Perform(s, c), changes[1..], id);
      }
    }
  }

  /** Every upsert of the id finds a row of it, or is behind its shard's watermark. */
  ghost predicate Remembered(s: Stock, changes: seq<Change>, id: ResourceId)
    decreases changes
  {
    changes == [] ||
    ((Revives(changes[0], id) ==>
        id in s.rows || Before(changes[0].observation.At(), Watermark(s.heads, changes[0].observation.Key())))
     && Remembered(Perform(s, changes[0]), changes[1..], id))
  }

  /** Whatever is still written for the id are upserts that were observed before the deletion. */
  ghost predicate StaleUpserts(changes: seq<Change>, id: ResourceId, deleted: int) {
    forall i :: 0 <= i < |changes| && changes[i].Ingest? && changes[i].observation.Writes(id) ==>
      Revives(changes[i], id) && changes[i].observation.At() < deleted
  }

  /** Dead, and if a row is stored at all it is as new as the deletion. */
  ghost predicate Deleted(s: Stock, id: ResourceId, deleted: int) {
    id in s.rows ==> !s.rows[id].Live() && deleted <= s.rows[id].observedAt
  }

  lemma {:induction false} OthersKeepRow(s: Stock, c: Change, id: ResourceId)
    requires !IsLive(s, id) && !(c.Ingest? && c.observation.Writes(id))
    ensures var next := Perform(s, c);
            && (id in next.rows ==> id in s.rows && next.rows[id] == s.rows[id])
            && (id in s.rows && (c.Retention? ==> !Expired(s.rows[id], c.eventCutoff, c.tombstoneCutoff)) ==>
                  id in next.rows)
  {
    hide ResolveEvent, ShouldNotify, Queue, RoundToMicros, Expired, QueueRemoved, QueueRecovered, ResolveRow;
    match c
    case Ingest(o, at) => ResolvedKeepsIdentity(s.rows, o.resource, at);
    case Pass(busy, at) =>
      if id in s.rows {
        DeadIsSettled(s.rows, id, busy, at);
      }
    case Retention(_, _, _) =>
  }

  lemma {:induction false} HeldIsRemembered(s: Stock, changes: seq<Change>, id: ResourceId, deleted: int)
    requires Deleted(s, id, deleted) && StaleUpserts(changes, id, deleted)
    ensures AllHeld(s, changes, id) <==> Remembered(s, changes, id)
    decreases changes
  {
    if changes != [] {
      var c, next := changes[0], Perform(s, changes[0]);
      hide Perform;
      assert StaleUpserts(changes[1..], id, deleted);
      if Revives(c, id) {
        UpsertLands(s, c, id);
        if Held(s, c.observation) {
          HeldIsRemembered(s, changes[1..], id, deleted);
        }
      } else {
        OthersKeepRow(s, c, id);
        HeldIsRemembered(next, changes[1..], id, deleted);
      }
    }
  }

  /** A deleted resource of which only older upserts still arrive is live at no point exactly when each of these
      finds the tombstone still stored or is behind the watermark. */
  lemma {:induction false} DeletedStaysDeleted(s: Stock, changes: seq<Change>, id: ResourceId, deleted: int)
    requires Deleted(s, id, deleted) && StaleUpserts(changes, id, deleted)
    ensures NeverLive(s, changes, id) <==> Remembered(s, changes, id)
  {
    hide NeverLive, AllHeld, Remembered, StaleUpserts;
    NeverLiveIffHeld(s, changes, id);
    HeldIsRemembered(s, changes, id, deleted);
  }

  /** No retention run of the changes is late enough to take the row. */
  ghost predicate TooYoung(row: Row, changes: seq<Change>) {
    forall i :: 0 <= i < |changes| && changes[i].Retention? ==>
      !Expired(row, changes[i].eventCutoff, changes[i].tombstoneCutoff)
  }

  /** A tombstone that is younger than the retention at the last of its retention runs holds back every older upsert. */
  lemma {:induction false} YoungTombstoneHolds(s: Stock, changes: seq<Change>, id: ResourceId, deleted: int)
    requires Deleted(s, id, deleted) && id in s.rows && StaleUpserts(changes, id, deleted)
    requires TooYoung(s.rows[id], changes)
    ensures Remembered(s, changes, id)
    decreases changes
  {
    if changes != [] {
      var c, next := changes[0], Perform(s, changes[0]);
      hide Perform, Expired;
      assert StaleUpserts(changes[1..], id, deleted) && TooYoung(s.rows[id], changes[1..]);
      if Revives(c, id) {
        UpsertLands(s, c, id);
      } else {
        OthersKeepRow(s, c, id);
      }
      YoungTombstoneHolds(next, changes[1..], id, deleted);
    }
  }

  /** A delete that is not held back stamps its row with the time at which it is applied. */
  lemma {:induction false} DeleteStamps(s: Stock, o: Observation, now: int)
    requires o.action == Delete && o.resource.deletedAt.None? && !Held(s, o)
    ensures var after := Perform(s, Ingest(o, now)).rows;
            o.resource.Id() in after && after[o.resource.Id()] == Row(o.resource, o.shard, o.At(), Some(now))
  {
    hide ShouldNotify, Queue, RoundToMicros;
  }

  /** A marker that is not behind the watermark becomes the watermark, and removes exactly the live rows of its shard
      that are older; these are stamped with the time at which the marker is applied and as old as the marker. */
  lemma {:induction false} MarkerStamps(s: Stock, o: Observation, now: int, id: ResourceId)
    requires o.action == Reconcile && !Before(o.At(), Watermark(s.heads, o.Key()))
    ensures var next := Perform(s, Ingest(o, now));
            && Watermark(next.heads, o.Key()) == Some(o.At())
            && (id in next.rows <==> id in s.rows)
            && (id in s.rows ==>
                  var row := s.rows[id];
                  next.rows[id] == if row.deletedAt.None? && row.Key() == o.Key() && row.observedAt < o.At()
                                   then row.(deletedAt := Some(now), observedAt := o.At()) else row)
  {
    hide QueueRemoved, RoundToMicros;
  }

  /** No retention run of these changes reaches back to a deletion at this time. */
  predicate SparesDeletion(c: Change, row: Row, at: int) {
    c.Retention? ==> c.tombstoneCutoff <= at && (EventRow(row.resource) ==> c.eventCutoff <= row.observedAt)
  }

  /** A delete holds back everything older for at least the tombstone retention after it was applied. */
  lemma {:induction false} DeletionIsRemembered(s: Stock, o: Observation, now: int, changes: seq<Change>)
    requires o.action == Delete && o.resource.deletedAt.None? && !Held(s, o)
    requires StaleUpserts(changes, o.resource.Id(), o.At())
    requires forall i :: 0 <= i < |changes| ==>
               SparesDeletion(changes[i], Row(o.resource, o.shard, o.At(), Some(now)), now)
    ensures NeverLive(Perform(s, Ingest(o, now)), changes, o.resource.Id())
  {
    var next, id := Perform(s, Ingest(o, now)), o.resource.Id();
    DeleteStamps(s, o, now);
    hide Perform, EventRow, NeverLive, Remembered, RoundToMicros, StaleUpserts;
    YoungTombstoneHolds(next, changes, id, o.At());
    DeletedStaysDeleted(next, changes, id, o.At());
  }

  /** So does a marker for the rows that it removes. */
  lemma {:induction false} RemovalIsRemembered(s: Stock, o: Observation, now: int, changes: seq<Change>, id: ResourceId)
    requires o.action == Reconcile && !Before(o.At(), Watermark(s.heads, o.Key()))
    requires IsLive(s, id) && s.rows[id].Key() == o.Key() && s.rows[id].observedAt < o.At()
    requires StaleUpserts(changes, id, o.At())
    requires forall i :: 0 <= i < |changes| ==>
               SparesDeletion(changes[i], s.rows[id].(observedAt := o.At(), deletedAt := Some(now)), now)
    ensures NeverLive(Perform(s, Ingest(o, now)), changes, id)
  {
    var next := Perform(s, Ingest(o, now));
    MarkerStamps(s, o, now, id);
    hide Perform, EventRow, NeverLive, Remembered, RoundToMicros, StaleUpserts;
    YoungTombstoneHolds(next, changes, id, o.At());
    DeletedStaysDeleted(next, changes, id, o.At());
  }

  lemma {:induction false} NeverLiveAtEnd(s: Stock, a: seq<Change>, b: seq<Change>, id: ResourceId)
    requires NeverLive(s, a + b, id)
    ensures !IsLive(PerformAll(s, a), id)
    decreases a
  {
    hide Perform;
    if a != [] {
      assert (a + b)[1..] == a[1..] + b;
      NeverLiveAtEnd(Perform(s, a[0]), a[1..], b, id);
    }
  }

  /** ... so no query of a run sees it. */
  lemma {:induction false} DeletedInEveryRun(db: Db, steps: seq<Step>, id: ResourceId, deleted: int, n: nat)
    requires Deleted(db.stock, id, deleted) && StaleUpserts(RunChanges(db, steps), id, deleted)
    requires Remembered(db.stock, RunChanges(db, steps), id) && n <= |steps|
    ensures !IsLive(Run(db, steps[..n]).stock, id)
  {
    hide NeverLive, Remembered, StaleUpserts, RunChanges, PerformAll, Run;
    DeletedStaysDeleted(db.stock, RunChanges(db, steps), id, deleted);
    assert steps == steps[..n] + steps[n..];
    ChangesAppend(db, steps[..n], steps[n..]);
    NeverLiveAtEnd(db.stock, RunChanges(db, steps[..n]), RunChanges(Run(db, steps[..n]), steps[n..]), id);
    RunIsPerformed(db, steps[..n]);
  }

  /* ---------- retention against never forgetting ---------- */

  function NoRetention(): Change -> bool {
    (c: Change) => !c.Retention?
  }

  /** The same changes without the retention runs. */
  function Unpruned(changes: seq<Change>): seq<Change> {
    Filter(NoRetention(), changes)
  }

  function Keeping(t: Stock, c: Change): Stock {
    if c.Retention? then t else Perform(t, c)
  }

  /** Next to the inventory s goes one, t, that forgets nothing: whatever t would hold back, s holds back too. */
  ghost predicate Unforgotten(s: Stock, t: Stock, changes: seq<Change>, id: ResourceId)
    decreases changes
  {
    changes == [] ||
    ((Revives(changes[0], id) && Held(t, changes[0].observation) ==> Held(s, changes[0].observation))
     && Unforgotten(Perform(s, changes[0]), Keeping(t, changes[0]), changes[1..], id))
  }

  /** At every point both show the same. */
  ghost predicate AlwaysSameLive(s: Stock, t: Stock, changes: seq<Change>, id: ResourceId)
    decreases changes
  {
    && SameLive(s, t, id)
    && (changes != [] ==> AlwaysSameLive(Perform(s, changes[0]), Keeping(t, changes[0]), changes[1..], id))
  }

  /** The id has no row that a recovery pass or the short event retention would touch. */
  ghost predicate Plain(s: Stock, id: ResourceId) {
    id in s.rows ==> !WarningEvent(s.rows[id].resource) && !EventRow(s.rows[id].resource)
  }

  predicate PlainChange(c: Change, id: ResourceId) {
    c.Ingest? && c.observation.Writes(id) ==>
      && !WarningEvent(c.observation.resource) && !EventRow(c.observation.resource)
      && (c.observation.action == Upsert ==> c.observation.resource.deletedAt.None?)
  }

  /** The rows are equal, or both are dead and the one that was not forgotten is the newer one. */
  ghost predicate Shadows(s: Stock, t: Stock, id: ResourceId) {
    && (forall key :: Watermark(s.heads, key) == Watermark(t.heads, key))
    && Plain(s, id) && Plain(t, id)
    && ((id in s.rows && id in t.rows && s.rows[id] == t.rows[id])
        || (!IsLive(s, id) && !IsLive(t, id)
            && (id in s.rows ==> id in t.rows && s.rows[id].observedAt <= t.rows[id].observedAt)))
  }

  /** A write that is not held back replaces the row, whatever was stored before. */
  lemma {:induction false} PlainWrite(s: Stock, c: Change, id: ResourceId)
    requires PlainChange(c, id) && c.Ingest? && c.observation.Writes(id)
    ensures var o, next := c.observation, Perform(s, c);
            && next.heads == s.heads
            && if Held(s, o) then next == s
               else id in next.rows && next.rows[id].resource == o.resource && next.rows[id].observedAt == o.At()
                    && next.rows[id].shard == o.shard
                    && next.rows[id].deletedAt
                         == if o.action == Delete && o.resource.deletedAt.None? then Some(c.at)
                           else o.resource.deletedAt
  {
    hide ShouldNotify, Queue, RoundToMicros, WriteReason;
  }

  lemma {:induction false} WriteShadows(s: Stock, t: Stock, c: Change, id: ResourceId)
    requires Shadows(s, t, id) && PlainChange(c, id) && c.Ingest? && c.observation.Writes(id)
    requires Revives(c, id) && Held(t, c.observation) ==> Held(s, c.observation)
    ensures Shadows(Perform(s, c), Perform(t, c), id)
  {
    PlainWrite(s, c, id);
    PlainWrite(t, c, id);
    hide Perform, WarningEvent, EventRow, RoundToMicros;
  }

  /** An upsert that only the forgetting inventory lets through makes the two differ. */
  lemma {:induction false} ForgottenWriteShows(s: Stock, t: Stock, c: Change, id: ResourceId)
    requires Shadows(s, t, id) && Revives(c, id) && Held(t, c.observation) && !Held(s, c.observation)
    ensures !SameLive(Perform(s, c), Perform(t, c), id)
  {
    UpsertLands(s, c, id);
    UpsertLands(t, c, id);
    hide Perform, WarningEvent, EventRow, RoundToMicros;
    assert !IsLive(t, id);
  }

  /** A change that does not write the id: its row stays, except that a marker tombstones it and retention takes a
      dead one. */
  lemma {:induction false} OtherShadows(s: Stock, t: Stock, c: Change, id: ResourceId)
    requires Shadows(s, t, id) && !(c.Ingest? && c.observation.Writes(id))
    ensures Shadows(Perform(s, c), Keeping(t, c), id)
  {
    hide RoundToMicros, WarningEvent, EventRow, ApplyResource, Inventory.ResolveEvents, PruneOutbox;
    match c
    case Ingest(o, at) =>
      if o.action == Reconcile {
        hide ReconcileShard;
        MarkerApplies(s, o, at);
        MarkerApplies(t, o, at);
        MarkerShadows(s, t, o.Key(), o.At(), at, id);
      } else {
        UntouchedRow(s, c, id);
        UntouchedRow(t, c, id);
      }
    case Pass(busy, at) =>
      UntouchedRow(s, c, id);
      UntouchedRow(t, c, id);
    case Retention(ec, tc, hc) =>
      RetentionKeepsMarks(s.heads, hc);
  }

  lemma {:induction false} UntouchedRow(s: Stock, c: Change, id: ResourceId)
    requires Plain(s, id) && !c.Retention?
    requires c.Ingest? ==> !c.observation.Writes(id) && c.observation.action != Reconcile
    ensures var next := Perform(s, c);
            && next.heads == s.heads && (id in next.rows <==> id in s.rows)
            && (id in s.rows ==> next.rows[id] == s.rows[id])
  {
    hide ResolveEvent, ShouldNotify, Queue, RoundToMicros, QueueRecovered, PassReason, WarningEvent, EventRow;
    match c
    case Ingest(o, at) => ResolvedKeepsIdentity(s.rows, o.resource, at);
    case Pass(busy, at) =>
  }

  lemma {:induction false} MarkerApplies(s: Stock, o: Observation, now: int)
    requires o.action == Reconcile
    ensures Perform(s, Ingest(o, now))
         == if Before(o.At(), Watermark(s.heads, o.Key())) then s else ReconcileShard(s, o.Key(), o.At(), now)
  {}

  lemma {:induction false} MarkerShadows(s: Stock, t: Stock, key: ShardKey, cutoff: int, now: int, id: ResourceId)
    requires Shadows(s, t, id)
    ensures Shadows(ReconcileShard(s, key, cutoff, now), ReconcileShard(t, key, cutoff, now), id)
  {
    hide QueueRemoved, WarningEvent, EventRow;
    var a, b := ReconcileShard(s, key, cutoff, now), ReconcileShard(t, key, cutoff, now);
    assert Watermark(s.heads, key) == Watermark(t.heads, key);
    forall k ensures Watermark(a.heads, k) == Watermark(b.heads, k) {
      assert Watermark(s.heads, k) == Watermark(t.heads, k);
    }
  }

  /** Retention is invisible, at every point and for any id that is no event, exactly as long as no upsert is let
      through that would have been held back had nothing been forgotten. */
  lemma {:induction false} RetentionIsInvisible(s: Stock, t: Stock, changes: seq<Change>, id: ResourceId)
    requires Shadows(s, t, id) && forall i :: 0 <= i < |changes| ==> PlainChange(changes[i], id)
    ensures AlwaysSameLive(s, t, changes, id) <==> Unforgotten(s, t, changes, id)
    decreases changes
  {
    assert SameLive(s, t, id);
    hide Perform, Shadows, SameLive, Held, PlainChange;
    if changes != [] {
      var c := changes[0];
      var a, b := Perform(s, c), Keeping(t, c);
      if Revives(c, id) && Held(t, c.observation) && !Held(s, c.observation) {
        ForgottenWriteShows(s, t, c, id);
        assert !AlwaysSameLive(a, b, changes[1..], id);
      } else {
        if c.Ingest? && c.observation.Writes(id) {
          WriteShadows(s, t, c, id);
        } else {
          OtherShadows(s, t, c, id);
        }
        RetentionIsInvisible(a, b, changes[1..], id);
      }
    }
  }

  lemma {:induction false} SameLiveAtEnd(s: Stock, t: Stock, changes: seq<Change>, id: ResourceId)
    requires AlwaysSameLive(s, t, changes, id)
    ensures SameLive(PerformAll(s, changes), PerformAll(t, Unpruned(changes)), id)
    decreases changes
  {
    hide Perform, SameLive;
    if changes != [] {
      SameLiveAtEnd(Perform(s, changes[0]), Keeping(t, changes[0]), changes[1..], id);
      if !changes[0].Retention? {
        assert Unpruned(changes) == [changes[0]] + Unpruned(changes[1..]);
        assert Unpruned(changes)[1..] == Unpruned(changes[1..]);
      }
    }
  }

  lemma {:induction false} UnprunedObserved(changes: seq<Change>)
    ensures Observed(Unpruned(changes)) == Observed(changes)
    ensures forall c :: c in Unpruned(changes) ==> !c.Retention?
  {}

  lemma {:induction false} UnprunedSpares(s: Stock, changes: seq<Change>, id: ResourceId)
    requires forall c :: c in changes ==> !c.Retention?
    ensures Spared(s, changes, id)
    decreases changes
  {
    hide Perform, Expired;
    if changes != [] {
      UnprunedSpares(Perform(s, changes[0]), changes[1..], id);
    }
  }

  ghost predicate NoEvent(all: set<Observation>, id: ResourceId) {
    forall o :: o in all && o.Writes(id) ==> !EventRow(o.resource)
  }

  lemma {:induction false} AllPlain(changes: seq<Change>, id: ResourceId, key: ShardKey)
    requires Travels(Observed(changes), id, key) && NoEvent(Observed(changes), id)
    ensures forall i :: 0 <= i < |changes| ==> PlainChange(changes[i], id)
  {
    hide WarningEvent, EventRow, RoundToMicros;
    forall i | 0 <= i < |changes| ensures PlainChange(changes[i], id) {
      assert changes[i] in changes;
      assert changes[i].Ingest? ==> changes[i].observation in Observed(changes);
    }
  }

  /** A run that forgets shows in the end what it would show had it forgotten nothing. */
  lemma {:induction false} ForgettingRun(changes: seq<Change>, id: ResourceId, key: ShardKey)
    requires Travels(Observed(changes), id, key) && NoEvent(Observed(changes), id)
    requires Unforgotten(EMPTY, EMPTY, changes, id)
    ensures SameLive(PerformAll(EMPTY, changes), PerformAll(EMPTY, Unpruned(changes)), id)
    ensures Observed(Unpruned(changes)) == Observed(changes) && Spared(EMPTY, Unpruned(changes), id)
  {
    assert Shadows(EMPTY, EMPTY, id);
    hide *;
    AllPlain(changes, id, key);
    RetentionIsInvisible(EMPTY, EMPTY, changes, id);
    SameLiveAtEnd(EMPTY, EMPTY, changes, id);
    UnprunedObserved(changes);
    UnprunedSpares(EMPTY, Unpruned(changes), id);
  }

  /** What is live after any changes, retention included: the latest upsert, unless it is behind the newest cutoff. */
  lemma {:induction false} LiveExactlyInRetention(changes: seq<Change>, id: ResourceId, key: ShardKey,
                                                  latest: Observation, cutoff: Option<int>)
    requires Travels(Observed(changes), id, key) && NoEvent(Observed(changes), id)
    requires Unforgotten(EMPTY, EMPTY, changes, id)
    requires Latest(Observed(changes), id, latest) && NewestCutoff(Observed(changes), key, cutoff)
    ensures var s := PerformAll(EMPTY, changes);
            && (IsLive(s, id) <==> latest.action == Upsert && !Before(latest.At(), cutoff))
            && (IsLive(s, id) ==> s.rows[id].resource == latest.resource)
  {
    hide *;
    ForgettingRun(changes, id, key);
    LiveExactly(Unpruned(changes), id, key, latest, cutoff);
    LiveAlike(PerformAll(EMPTY, changes), PerformAll(EMPTY, Unpruned(changes)), id);
  }

  lemma {:induction false} ConvergesInRetention(a: seq<Change>, b: seq<Change>, id: ResourceId, key: ShardKey)
    requires Observed(a) == Observed(b) && Travels(Observed(a), id, key) && NoEvent(Observed(a), id)
    requires Unforgotten(EMPTY, EMPTY, a, id) && Unforgotten(EMPTY, EMPTY, b, id)
    ensures SameLive(PerformAll(EMPTY, a), PerformAll(EMPTY, b), id)
  {
    hide Observed, Travels, NoEvent, Unforgotten, Spared, PerformAll, Unpruned;
    ForgettingRun(a, id, key);
    ForgettingRun(b, id, key);
    Converges(Unpruned(a), Unpruned(b), id, key);
  }

  /** Nothing is forgotten as long as retention does not come near the id's row. */
  lemma {:induction false} SparedIsUnforgotten(s: Stock, t: Stock, changes: seq<Change>, id: ResourceId)
    requires Spared(s, changes, id) && Alike(s, t, id) && forall i :: 0 <= i < |changes| ==> PlainChange(changes[i], id)
    ensures Unforgotten(s, t, changes, id)
    decreases changes
  {
    hide Perform, Shadows, Held, PlainChange, Expired, Alike;
    if changes != [] {
      var c := changes[0];
      HeldAlike(s, t, id);
      AlikeStep(s, t, c, id);
      SparedIsUnforgotten(Perform(s, c), Keeping(t, c), changes[1..], id);
    }
  }

  /** The same watermarks and the same row of id. */
  ghost predicate Alike(s: Stock, t: Stock, id: ResourceId) {
    && (forall key :: Watermark(s.heads, key) == Watermark(t.heads, key))
    && Plain(s, id) && Plain(t, id) && (id in s.rows <==> id in t.rows) && (id in s.rows ==> s.rows[id] == t.rows[id])
  }

  lemma {:induction false} HeldAlike(s: Stock, t: Stock, id: ResourceId)
    requires Alike(s, t, id)
    ensures forall o: Observation :: o.resource.Id() == id ==> Held(s, o) == Held(t, o)
  {}

  lemma {:induction false} AlikeStep(s: Stock, t: Stock, c: Change, id: ResourceId)
    requires Alike(s, t, id) && PlainChange(c, id)
    requires c.Retention? && id in s.rows ==> !Expired(s.rows[id], c.eventCutoff, c.tombstoneCutoff)
    ensures Alike(Perform(s, c), Keeping(t, c), id)
  {
    hide WarningEvent, EventRow, RoundToMicros, Expired, PruneOutbox, ApplyResource, Inventory.ResolveEvents, Held,
             ReconcileShard;
    if c.Retention? {
      RetentionKeepsMarks(s.heads, c.historyCutoff);
    } else if c.Ingest? && c.observation.Writes(id) {
      WriteAlike(s, t, c, id);
    } else if c.Ingest? && c.observation.action == Reconcile {
      var o := c.observation;
      MarkerApplies(s, o, c.at);
      MarkerApplies(t, o, c.at);
      MarkerAlike(s, t, o.Key(), o.At(), c.at, id);
    } else {
      UntouchedRow(s, c, id);
      UntouchedRow(t, c, id);
    }
  }

  lemma {:induction false} WriteAlike(s: Stock, t: Stock, c: Change, id: ResourceId)
    requires Alike(s, t, id) && PlainChange(c, id) && c.Ingest? && c.observation.Writes(id)
    ensures Alike(Perform(s, c), Perform(t, c), id)
  {
    HeldAlike(s, t, id);
    PlainWrite(s, c, id);
    PlainWrite(t, c, id);
    hide Perform, WarningEvent, EventRow, RoundToMicros, Held;
  }

  lemma {:induction false} MarkerAlike(s: Stock, t: Stock, key: ShardKey, cutoff: int, now: int, id: ResourceId)
    requires Alike(s, t, id)
    ensures Alike(ReconcileShard(s, key, cutoff, now), ReconcileShard(t, key, cutoff, now), id)
  {
    hide QueueRemoved, WarningEvent, EventRow;
    var a, b := ReconcileShard(s, key, cutoff, now), ReconcileShard(t, key, cutoff, now);
    assert Watermark(s.heads, key) == Watermark(t.heads, key);
    forall k ensures Watermark(a.heads, k) == Watermark(b.heads, k) {
      assert Watermark(s.heads, k) == Watermark(t.heads, k);
    }
  }

  lemma {:induction false} LiveAlike(s: Stock, t: Stock, id: ResourceId)
    requires SameLive(s, t, id)
    ensures IsLive(s, id) <==> IsLive(t, id)
    ensures IsLive(s, id) ==> id in s.rows && id in t.rows && s.rows[id].resource == t.rows[id].resource
  {}

  /* ---------- a shard that is silent ---------- */

  /** No event of the shard, no write of the id and no event retention that reaches the row. */
  predicate Silent(c: Change, key: ShardKey, id: ResourceId, row: Row) {
    match c
    case Ingest(o, _) => o.Key() != key && !o.Writes(id)
    case Pass(_, _) => true
    case Retention(ec, _, _) => EventRow(row.resource) ==> ec <= row.observedAt
  }

  /** Live in the shard as before; only a recovery pass may have touched it. */
  predicate StaysLive(before: Row, after: Row) {
    && after.Live() && after.Key() == before.Key() && after.observedAt == before.observedAt
    && after.resource.Id() == before.resource.Id() && after.resource.relations == before.resource.relations
  }

  lemma {:induction false} SilentChange(s: Stock, c: Change, key: ShardKey, id: ResourceId)
    requires IsLive(s, id) && s.rows[id].Key() == key && Silent(c, key, id, s.rows[id])
    ensures id in Perform(s, c).rows && StaysLive(s.rows[id], Perform(s, c).rows[id])
  {
    hide ResolveEvent, ShouldNotify, Queue, RoundToMicros, QueueRemoved, QueueRecovered, PassReason, EventRow;
    match c
    case Ingest(o, at) => ResolvedKeepsIdentity(s.rows, o.resource, at);
    case Pass(busy, at) =>
    case Retention(_, _, _) =>
  }

  /** What is live in a shard of which nothing arrives any more, no marker either, is live for good. */
  lemma {:induction false} SilentShardStays(s: Stock, changes: seq<Change>, key: ShardKey, id: ResourceId)
    requires IsLive(s, id) && s.rows[id].Key() == key
    requires forall i :: 0 <= i < |changes| ==> Silent(changes[i], key, id, s.rows[id])
    ensures id in PerformAll(s, changes).rows && StaysLive(s.rows[id], PerformAll(s, changes).rows[id])
    decreases changes
  {
    hide Perform;
    if changes != [] {
      SilentChange(s, changes[0], key, id);
      SilentShardStays(Perform(s, changes[0]), changes[1..], key, id);
    }
  }

  lemma {:induction false} SilentShardInEveryRun(db: Db, steps: seq<Step>, key: ShardKey, id: ResourceId)
    requires IsLive(db.stock, id) && db.stock.rows[id].Key() == key
    requires forall i :: 0 <= i < |RunChanges(db, steps)| ==>
               Silent(RunChanges(db, steps)[i], key, id, db.stock.rows[id])
    ensures IsLive(Run(db, steps).stock, id) && StaysLive(db.stock.rows[id], Run(db, steps).stock.rows[id])
  {
    hide Silent, RunChanges, PerformAll, Run;
    RunIsPerformed(db, steps);
    SilentShardStays(db.stock, RunChanges(db, steps), key, id);
  }
}

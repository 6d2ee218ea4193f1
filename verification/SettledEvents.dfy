/** A warning event that was resolved stays resolved: replays of the same version and recovery passes neither reopen
    it nor notify anybody. */
module SettledEvents {
  import opened Model
  import opened EventRecovery
  import opened Inventory
  import opened Pipeline
  import opened Changes
  import opened Notices
  import I = Incidents

  /** Stored as resolved or inactive, by the recovery code. */
  predicate Settled(s: Stock, id: ResourceId, version: string, reason: string) {
    && IsLive(s, id) && reason != ""
    && s.rows[id].resource.resourceVersion == version
    && s.rows[id].resource.state == OK
    && s.rows[id].resource.reason == reason
    && s.rows[id].resource.summary.lifecycle == Some(Lifecycle(reason))
  }

  /** Everything that is written for this id is the same warning event at the same version. */
  predicate Replay(c: Change, id: ResourceId, version: string) {
    c.Ingest? && c.observation.Writes(id) ==>
      && c.observation.action == Upsert && WarningEvent(c.observation.resource)
      && c.observation.resource.resourceVersion == version && c.observation.resource.deletedAt.None?
  }

  /** The row is deleted by nothing along the way, and no retention run takes it. */
  ghost predicate LiveThroughout(s: Stock, changes: seq<Change>, id: ResourceId)
    decreases changes
  {
    IsLive(s, id) && (changes != [] ==> LiveThroughout(Perform(s, changes[0]), changes[1..], id))
  }

  /** A replay is stored with the reason and lifecycle the row already has, whatever the evidence says now. */
  lemma {:induction false} ReplayKeepsReason(s: Stock, r: Resource, now: int, reason: string)
    requires Settled(s, r.Id(), r.resourceVersion, reason) && WarningEvent(r)
    ensures ResolveEvent(s.rows, r, now) == Resolved(r, reason)
  {}

  lemma {:induction false} PassKeepsSettled(s: Stock, busy: set<ResourceId>, now: int, id: ResourceId, version: string,
                                            reason: string)
    requires WellFormed(s) && Settled(s, id, version, reason)
    ensures var next := Inventory.ResolveEvents(s, busy, now);
            WellFormed(next) && Settled(next, id, version, reason) && NotesOf(next, id) == NotesOf(s, id)
  {
    RecoveredForOthers(s.outbox, s.rows, s.order, busy, now, id);
  }

  lemma {:induction false} RetentionKeepsSettled(s: Stock, eventCutoff: int, tombstoneCutoff: int, historyCutoff: int,
                                                 id: ResourceId, version: string, reason: string)
    requires WellFormed(s) && Settled(s, id, version, reason)
    requires IsLive(Prune(s, eventCutoff, tombstoneCutoff, historyCutoff), id)
    ensures var next := Prune(s, eventCutoff, tombstoneCutoff, historyCutoff);
            WellFormed(next) && Settled(next, id, version, reason) && NotesOf(next, id) == NotesOf(s, id)
  {
    I.PruneWellFormed(s, eventCutoff, tombstoneCutoff, historyCutoff);
    PruneKeepsNotes(s.outbox, historyCutoff, id);
  }

  lemma {:induction false} IngestKeepsSettled(s: Stock, c: Change, id: ResourceId, version: string, reason: string)
    requires WellFormed(s) && Settled(s, id, version, reason)
    requires c.Ingest? && Replay(c, id, version) && IsLive(Perform(s, c), id)
    ensures Settled(Perform(s, c), id, version, reason) && NotesOf(Perform(s, c), id) == NotesOf(s, id)
  {
    var o := c.observation;
    if o.action == Reconcile {
      RemovedForOthers(s.outbox, s.rows, s.order, o.Key(), o.At(), c.at, id);
    } else if o.action != Heartbeat {
      var stored := if o.action == Upsert then ResolveEvent(s.rows, o.resource, c.at) else o.resource;
      if o.resource.Id() == id {
        ReplayKeepsReason(s, o.resource, c.at, reason);
      } else {
        QueueForOther(s.outbox, NoteFor(stored, o.action), c.at, id);
      }
    }
  }

  /** Any mix of same-version replays, other resources' events, recovery passes and retention runs leaves the event ok,
      with the same reason and lifecycle, and queues nothing for it, for as long as nothing deletes it. */
  lemma {:induction false} ResolvedStaysResolved(s: Stock, changes: seq<Change>, id: ResourceId, version: string,
                                                 reason: string)
    requires WellFormed(s) && Settled(s, id, version, reason)
    requires forall i :: 0 <= i < |changes| ==> Replay(changes[i], id, version)
    requires LiveThroughout(s, changes, id)
    ensures Settled(PerformAll(s, changes), id, version, reason)
    ensures NotesOf(PerformAll(s, changes), id) == NotesOf(s, id)
    decreases changes
  {
    if changes != [] {
      var c := changes[0];
      match c {
        case Pass(busy, at) => PassKeepsSettled(s, busy, at, id, version, reason);
        case Retention(ec, tc, hc) => RetentionKeepsSettled(s, ec, tc, hc, id, version, reason);
        case Ingest(o, at) =>
          IngestKeepsSettled(s, c, id, version, reason);
          I.WellFormedAfterApply(s, o.shard, o.action, o.resource, at);
      }
      ResolvedStaysResolved(Perform(s, c), changes[1..], id, version, reason);
    }
  }

  /** The same in every run of the pipeline. */
  lemma {:induction false} ResolvedInEveryRun(db: Db, steps: seq<Step>, id: ResourceId, version: string, reason: string)
    requires WellFormed(db.stock) && Settled(db.stock, id, version, reason)
    requires forall i :: 0 <= i < |RunChanges(db, steps)| ==> Replay(RunChanges(db, steps)[i], id, version)
    requires LiveThroughout(db.stock, RunChanges(db, steps), id)
    ensures Settled(Run(db, steps).stock, id, version, reason)
    ensures NotesOf(Run(db, steps).stock, id) == NotesOf(db.stock, id)
  {
    hide Replay, LiveThroughout, WellFormed, RunChanges, Run, PerformAll, NotesOf;
    RunIsPerformed(db, steps);
    ResolvedStaysResolved(db.stock, RunChanges(db, steps), id, version, reason);
    SameNotesOf(Run(db, steps).stock, PerformAll(db.stock, RunChanges(db, steps)), id);
  }

  /** What settles an event in the first place: an upsert or a pass that finds evidence of recovery. */
  lemma {:induction false} RecoverySettles(s: Stock, shard: string, r: Resource, now: int)
    requires WarningEvent(r) && r.deletedAt.None? && WriteReason(s.rows, r, now) != ""
    requires !Before(RoundToMicros(r.observedAt), Watermark(s.heads, ShardKey(r.cluster, shard)))
    requires r.Id() in s.rows ==> s.rows[r.Id()].observedAt <= RoundToMicros(r.observedAt)
    ensures Settled(ApplyResource(s, shard, Upsert, r, now), r.Id(), r.resourceVersion, WriteReason(s.rows, r, now))
  {}
}

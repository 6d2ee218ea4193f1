/** The live inventory depends only on the set of observations, not on their order or multiplicity. */
module Convergence {
  import opened Model
  import opened EventRecovery
  import opened Inventory
  import opened Pipeline
  import opened Changes

  const EMPTY := INITIAL.stock

  /** The events among some changes; their order, repetitions and clock readings are left out. */
  ghost function Observed(changes: seq<Change>): set<Observation> {
    set c | c in changes && c.Ingest? :: c.observation
  }

  lemma {:induction false} ObservedFirst(changes: seq<Change>)
    requires changes != []
    ensures Observed(changes)
         == Observed(changes[1..]) + if changes[0].Ingest? then {changes[0].observation} else {}
  {
    assert changes == [changes[0]] + changes[1..];
  }

  /** c is the newest reconcile cutoff of a shard, None if there is none. */
  ghost predicate NewestCutoff(all: set<Observation>, key: ShardKey, c: Option<int>) {
    && (c.Some? ==> exists o :: o in all && o.action == Reconcile && o.Key() == key && o.At() == c.value)
    && (forall o :: o in all && o.action == Reconcile && o.Key() == key ==> c.Some? && o.At() <= c.value)
  }

  /** o is the latest observation that writes id. */
  ghost predicate Latest(all: set<Observation>, id: ResourceId, o: Observation) {
    o in all && o.Writes(id) && forall p :: p in all && p.Writes(id) ==> p.At() <= o.At()
  }

  /* ---------- the state of one id after any log ---------- */

  /** A live row is the latest observation and not behind the watermark. */
  ghost predicate LiveExplained(row: Row, all: set<Observation>, id: ResourceId, mark: Option<int>) {
    && !Before(row.observedAt, mark)
    && (forall o :: o in all && o.Writes(id) ==> o.At() <= row.observedAt)
    && (forall o :: o in all && o.Writes(id) && o.At() == row.observedAt ==>
            o.action == Upsert && o.resource == row.resource)
    && (exists o :: o in all && o.Writes(id) && o.At() == row.observedAt)
  }

  /** A tombstone is not older than any observation that survives the watermark, newer than any such upsert, and
      its time is that of a delete or lies behind the watermark. */
  ghost predicate DeadExplained(row: Row, all: set<Observation>, id: ResourceId, mark: Option<int>) {
    && (forall o :: o in all && o.Writes(id) && !Before(o.At(), mark) ==>
          o.At() <= row.observedAt && (o.action == Upsert ==> o.At() < row.observedAt))
    && ((mark.Some? && row.observedAt <= mark.value)
        || exists o :: o in all && o.Writes(id) && o.action == Delete && o.At() == row.observedAt)
  }

  ghost predicate AbsentExplained(all: set<Observation>, id: ResourceId, mark: Option<int>) {
    forall o :: o in all && o.Writes(id) ==> Before(o.At(), mark)
  }

  /** What is stored for id after `all`, when id travels through the shard `key`. */
  ghost predicate Explained(s: Stock, all: set<Observation>, id: ResourceId, key: ShardKey) {
    var mark := Watermark(s.heads, key);
    if id !in s.rows then AbsentExplained(all, id, mark)
    else
      && s.rows[id].resource.Id() == id && s.rows[id].Key() == key
      && (if s.rows[id].Live() then LiveExplained(s.rows[id], all, id, mark)
          else DeadExplained(s.rows[id], all, id, mark))
  }

  /** Everything that writes id goes through one shard, and equal stamps mean equal events. */
  ghost predicate Travels(all: set<Observation>, id: ResourceId, key: ShardKey) {
    && key.cluster == id.cluster
    && (forall o :: o in all && o.Writes(id) ==> o.shard == key.shard)
    && (forall a, b :: a in all && b in all && a.Writes(id) && b.Writes(id) && a.At() == b.At() ==> a == b)
    && (forall o :: o in all && o.Writes(id) ==>
            !WarningEvent(o.resource) && (o.action == Upsert ==> o.resource.deletedAt.None?))
  }

  /** A write that neither the watermark nor a newer row holds back replaces the row. */
  lemma {:induction false} WriteLands(s: Stock, o: Observation, now: int, id: ResourceId, key: ShardKey)
    requires Travels({o}, id, key) && o.Writes(id) && (id in s.rows ==> s.rows[id].resource.Id() == id)
    ensures var next := ApplyResource(s, o.shard, o.action, o.resource, now);
            && o.Key() == key && next.heads == s.heads
            && if Before(o.At(), Watermark(s.heads, key)) || (id in s.rows && o.At() < s.rows[id].observedAt)
               then next == s
               else
                 && id in next.rows && next.rows[id].resource == o.resource && next.rows[id].Key() == key
                 && next.rows[id].observedAt == o.At() && next.rows[id].Live() == (o.action == Upsert)
  {
    hide ShouldNotify, Queue;
  }

  lemma {:induction false} WriteExplained(s: Stock, all: set<Observation>, o: Observation, now: int, id: ResourceId,
                                          key: ShardKey)
    requires Explained(s, all, id, key) && Travels(all + {o}, id, key) && o.Writes(id)
    ensures Explained(ApplyResource(s, o.shard, o.action, o.resource, now), all + {o}, id, key)
  {
    var next := ApplyResource(s, o.shard, o.action, o.resource, now);
    assert o in all + {o};
    WriteLands(s, o, now, id, key);
    hide ApplyResource, Explained, Travels, RoundToMicros;
    if Before(o.At(), Watermark(s.heads, key)) || (id in s.rows && o.At() < s.rows[id].observedAt) {
      KeptExplains(s, all, o, id, key);
    } else {
      LandedExplains(s, next, all, o, id, key);
    }
  }

  lemma {:induction false} KeptExplains(s: Stock, all: set<Observation>, o: Observation, id: ResourceId, key: ShardKey)
    requires Explained(s, all, id, key) && Travels(all + {o}, id, key) && o.Writes(id)
    requires Before(o.At(), Watermark(s.heads, key)) || (id in s.rows && o.At() < s.rows[id].observedAt)
    ensures Explained(s, all + {o}, id, key)
  {
    hide WarningEvent, RoundToMicros;
  }

  lemma {:induction false} LandedExplains(s: Stock, next: Stock, all: set<Observation>, o: Observation, id: ResourceId,
                                          key: ShardKey)
    requires Explained(s, all, id, key) && Travels(all + {o}, id, key) && o.Writes(id) && next.heads == s.heads
    requires !Before(o.At(), Watermark(s.heads, key)) && (id in s.rows ==> s.rows[id].observedAt <= o.At())
    requires id in next.rows && next.rows[id].resource == o.resource && next.rows[id].Key() == key
    requires next.rows[id].observedAt == o.At() && next.rows[id].Live() == (o.action == Upsert)
    ensures Explained(next, all + {o}, id, key)
  {
    hide WarningEvent, RoundToMicros;
    assert o in all + {o};
  }

  lemma {:induction false} OtherWriteExplained(s: Stock, all: set<Observation>, o: Observation, now: int,
                                               id: ResourceId, key: ShardKey)
    requires Explained(s, all, id, key) && !o.Writes(id) && o.action != Reconcile
    ensures Explained(ApplyResource(s, o.shard, o.action, o.resource, now), all + {o}, id, key)
  {
    var next := ApplyResource(s, o.shard, o.action, o.resource, now);
    assert next.heads == s.heads && (id in next.rows <==> id in s.rows)
             && (id in s.rows ==> next.rows[id] == s.rows[id]);
    SameWrites(all, o, id);
    Reexplained(s, next, all, all + {o}, id, key);
  }

  lemma {:induction false} SameWrites(all: set<Observation>, o: Observation, id: ResourceId)
    requires !o.Writes(id)
    ensures forall p :: p in all + {o} && p.Writes(id) <==> p in all && p.Writes(id)
  {}

  lemma {:induction false} Reexplained(s: Stock, next: Stock, all: set<Observation>, more: set<Observation>,
                                       id: ResourceId, key: ShardKey)
    requires Explained(s, all, id, key)
    requires Watermark(next.heads, key) == Watermark(s.heads, key)
    requires (id in next.rows <==> id in s.rows) && (id in s.rows ==> next.rows[id] == s.rows[id])
    requires forall p :: p in more && p.Writes(id) <==> p in all && p.Writes(id)
    ensures Explained(next, more, id, key)
  {
    if id in s.rows {
      if s.rows[id].Live() {
        var o :| o in all && o.Writes(id) && o.At() == s.rows[id].observedAt;
        assert o in more && o.Writes(id);
      } else if !(Watermark(s.heads, key).Some? && s.rows[id].observedAt <= Watermark(s.heads, key).value) {
        var o :| o in all && o.Writes(id) && o.action == Delete && o.At() == s.rows[id].observedAt;
        assert o in more && o.Writes(id);
      }
    }
  }

  lemma {:induction false} MarkerExplained(s: Stock, all: set<Observation>, o: Observation, now: int, id: ResourceId,
                                           key: ShardKey)
    requires Explained(s, all, id, key) && o.action == Reconcile
    ensures Explained(ApplyResource(s, o.shard, o.action, o.resource, now), all + {o}, id, key)
  {
    var next := ApplyResource(s, o.shard, o.action, o.resource, now);
    SameWrites(all, o, id);
    Reexplained(s, s, all, all + {o}, id, key);
    if next != s && o.Key() == key {
      MarkerAdvances(s, all + {o}, o.At(), now, id, key);
    } else if next != s {
      Reexplained(s, next, all, all + {o}, id, key);
    }
  }

  lemma {:induction false} MarkerAdvances(s: Stock, all: set<Observation>, cutoff: int, now: int, id: ResourceId,
                                          key: ShardKey)
    requires Explained(s, all, id, key) && !Before(cutoff, Watermark(s.heads, key))
    ensures Explained(ReconcileShard(s, key, cutoff, now), all, id, key)
  {
    var next := ReconcileShard(s, key, cutoff, now);
    assert Watermark(next.heads, key) == Some(cutoff);
    if id in s.rows && s.rows[id].Live() && !Unseen(s.rows[id], key, cutoff) {
      assert next.rows[id] == s.rows[id];
      var o :| o in all && o.Writes(id) && o.At() == s.rows[id].observedAt;
    }
  }

  /** A recovery pass leaves the row alone, as it is no warning event. */
  lemma {:induction false} PassExplained(s: Stock, all: set<Observation>, busy: set<ResourceId>, now: int,
                                         id: ResourceId, key: ShardKey)
    requires Explained(s, all, id, key) && Travels(all, id, key)
    ensures Explained(Inventory.ResolveEvents(s, busy, now), all, id, key)
  {
    hide PassReason, WarningEvent, QueueRecovered;
    var next := Inventory.ResolveEvents(s, busy, now);
    if IsLive(s, id) {
      var o :| o in all && o.Writes(id) && o.At() == s.rows[id].observedAt;
      assert !WarningEvent(s.rows[id].resource);
    }
    assert id in s.rows ==> next.rows[id] == s.rows[id];
    Reexplained(s, next, all, all, id, key);
  }

  lemma {:induction false} RetentionExplained(s: Stock, all: set<Observation>, c: Change, id: ResourceId, key: ShardKey)
    requires Explained(s, all, id, key) && c.Retention?
    requires id in s.rows ==> !Expired(s.rows[id], c.eventCutoff, c.tombstoneCutoff)
    ensures Explained(Perform(s, c), all, id, key)
  {
    hide Expired;
    RetentionKeepsMarks(s.heads, c.historyCutoff);
    Reexplained(s, Perform(s, c), all, all, id, key);
  }

  /** No retention run along the way takes the row of id. */
  ghost predicate Spared(s: Stock, changes: seq<Change>, id: ResourceId)
    decreases changes
  {
    changes == [] ||
    ((changes[0].Retention? && id in s.rows ==>
        !Expired(s.rows[id], changes[0].eventCutoff, changes[0].tombstoneCutoff))
     && Spared(Perform(s, changes[0]), changes[1..], id))
  }

  lemma {:induction false} ChangeExplained(s: Stock, seen: set<Observation>, c: Change, id: ResourceId, key: ShardKey)
    requires Explained(s, seen, id, key) && Travels(seen + (if c.Ingest? then {c.observation} else {}), id, key)
    requires c.Retention? && id in s.rows ==> !Expired(s.rows[id], c.eventCutoff, c.tombstoneCutoff)
    ensures Explained(Perform(s, c), seen + (if c.Ingest? then {c.observation} else {}), id, key)
  {
    hide Explained, Travels, ApplyResource, Prune, Inventory.ResolveEvents, Expired;
    match c
    case Pass(busy, at) =>
      assert seen + {} == seen;
      PassExplained(s, seen, busy, at, id, key);
    case Retention(_, _, _) =>
      assert seen + {} == seen;
      RetentionExplained(s, seen, c, id, key);
    case Ingest(o, at) =>
      if o.Writes(id) {
        WriteExplained(s, seen, o, at, id, key);
      } else if o.action == Reconcile {
        MarkerExplained(s, seen, o, at, id, key);
      } else {
        OtherWriteExplained(s, seen, o, at, id, key);
      }
  }

  lemma {:induction false} TravelsWithin(some: set<Observation>, all: set<Observation>, id: ResourceId, key: ShardKey)
    requires Travels(all, id, key) && some <= all
    ensures Travels(some, id, key)
  {}

  lemma {:induction false} ChangesExplained(s: Stock, seen: set<Observation>, changes: seq<Change>, id: ResourceId,
                                            key: ShardKey)
    requires Explained(s, seen, id, key) && Travels(seen + Observed(changes), id, key) && Spared(s, changes, id)
    ensures Explained(PerformAll(s, changes), seen + Observed(changes), id, key)
    decreases changes
  {
    hide Explained, Travels, Perform;
    if changes == [] {
      assert seen + Observed(changes) == seen;
    } else {
      var c := changes[0];
      var more := seen + if c.Ingest? then {c.observation} else {};
      ObservedFirst(changes);
      assert seen + Observed(changes) == more + Observed(changes[1..]);
      TravelsWithin(more, seen + Observed(changes), id, key);
      ChangeExplained(s, seen, c, id, key);
      ChangesExplained(Perform(s, c), more, changes[1..], id, key);
    }
  }

  lemma {:induction false} LogExplained(changes: seq<Change>, id: ResourceId, key: ShardKey)
    requires Travels(Observed(changes), id, key) && Spared(EMPTY, changes, id)
    ensures Explained(PerformAll(EMPTY, changes), Observed(changes), id, key)
  {
    assert {} + Observed(changes) == Observed(changes);
    assert Explained(EMPTY, {}, id, key);
    ChangesExplained(EMPTY, {}, changes, id, key);
  }

  /* ---------- the watermark is the newest cutoff ---------- */

  lemma {:induction false} MarkAdvances(s: Stock, seen: set<Observation>, changes: seq<Change>, key: ShardKey)
    requires NewestCutoff(seen, key, Watermark(s.heads, key))
    ensures NewestCutoff(seen + Observed(changes), key, Watermark(PerformAll(s, changes).heads, key))
    decreases changes
  {
    hide NewestCutoff, Perform;
    if changes == [] {
      assert seen + Observed(changes) == seen;
    } else {
      var c := changes[0];
      var more := seen + if c.Ingest? then {c.observation} else {};
      ObservedFirst(changes);
      assert seen + Observed(changes) == more + Observed(changes[1..]);
      MarkStep(s, seen, c, key);
      MarkAdvances(Perform(s, c), more, changes[1..], key);
    }
  }

  lemma {:induction false} WatermarkIsNewest(changes: seq<Change>, key: ShardKey)
    ensures NewestCutoff(Observed(changes), key, Watermark(PerformAll(EMPTY, changes).heads, key))
  {
    assert {} + Observed(changes) == Observed(changes);
    MarkAdvances(EMPTY, {}, changes, key);
  }

  lemma {:induction false} MarkStep(s: Stock, all: set<Observation>, c: Change, key: ShardKey)
    requires NewestCutoff(all, key, Watermark(s.heads, key))
    ensures NewestCutoff(all + (if c.Ingest? then {c.observation} else {}), key, Watermark(Perform(s, c).heads, key))
  {
    hide ResolveEvent, ShouldNotify, QueueRemoved;
    if c.Retention? {
      RetentionKeepsMarks(s.heads, c.historyCutoff);
    }
    var old_, next := Watermark(s.heads, key), Watermark(Perform(s, c).heads, key);
    var more := all + if c.Ingest? then {c.observation} else {};
    if old_.Some? {
      var p :| p in all && p.action == Reconcile && p.Key() == key && p.At() == old_.value;
      assert p in more;
    }
    if next != old_ {
      var o := c.observation;
      assert o in more && o.action == Reconcile && o.Key() == key && o.At() == next.value;
    }
  }

  lemma {:induction false} CutoffIsUnique(all: set<Observation>, key: ShardKey, c: Option<int>, d: Option<int>)
    requires NewestCutoff(all, key, c) && NewestCutoff(all, key, d)
    ensures c == d
  {}

  /* ---------- the theorems ---------- */

  /** After any changes, with the events in any order and with any duplicates: an id whose row retention spares is
      live exactly when its latest observation is an upsert at or after the newest reconcile cutoff of its shard, and
      then with that observation's content. */
  lemma {:induction false} LiveExactly(changes: seq<Change>, id: ResourceId, key: ShardKey, latest: Observation,
                                       cutoff: Option<int>)
    requires Travels(Observed(changes), id, key) && Spared(EMPTY, changes, id)
    requires Latest(Observed(changes), id, latest) && NewestCutoff(Observed(changes), key, cutoff)
    ensures var s := PerformAll(EMPTY, changes);
            && (IsLive(s, id) <==> latest.action == Upsert && !Before(latest.At(), cutoff))
            && (IsLive(s, id) ==> s.rows[id].resource == latest.resource)
  {
    LogExplained(changes, id, key);
    WatermarkIsNewest(changes, key);
    CutoffIsUnique(Observed(changes), key, cutoff, Watermark(PerformAll(EMPTY, changes).heads, key));
    hide WarningEvent, NewestCutoff, PerformAll, RoundToMicros;
  }

  /** What is live is the latest observation. */
  lemma {:induction false} LiveHasLatest(changes: seq<Change>, id: ResourceId, key: ShardKey)
    returns (latest: Observation)
    requires Travels(Observed(changes), id, key) && Spared(EMPTY, changes, id)
    requires IsLive(PerformAll(EMPTY, changes), id)
    ensures Latest(Observed(changes), id, latest)
  {
    LogExplained(changes, id, key);
    latest :| latest in Observed(changes) && latest.Writes(id)
      && latest.At() == PerformAll(EMPTY, changes).rows[id].observedAt;
  }

  ghost predicate SameLive(s: Stock, t: Stock, id: ResourceId) {
    && (IsLive(s, id) <==> IsLive(t, id))
    && (IsLive(s, id) ==> s.rows[id].resource == t.rows[id].resource)
  }

  /** Two sequences of changes with the same set of observations leave the same live inventory. */
  lemma {:induction false} Converges(a: seq<Change>, b: seq<Change>, id: ResourceId, key: ShardKey)
    requires Observed(a) == Observed(b) && Travels(Observed(a), id, key)
    requires Spared(EMPTY, a, id) && Spared(EMPTY, b, id)
    ensures SameLive(PerformAll(EMPTY, a), PerformAll(EMPTY, b), id)
  {
    hide Travels, Spared, Observed;
    WatermarkIsNewest(a, key);
    var cutoff := Watermark(PerformAll(EMPTY, a).heads, key);
    if IsLive(PerformAll(EMPTY, a), id) {
      var latest := LiveHasLatest(a, id, key);
      LiveExactly(a, id, key, latest, cutoff);
      LiveExactly(b, id, key, latest, cutoff);
    } else if IsLive(PerformAll(EMPTY, b), id) {
      var latest := LiveHasLatest(b, id, key);
      LiveExactly(a, id, key, latest, cutoff);
      LiveExactly(b, id, key, latest, cutoff);
    }
  }

  /** The same for any two runs of the pipeline, with any workers, leases, recovery passes and retention. */
  lemma {:induction false} RunsConverge(a: seq<Step>, b: seq<Step>, id: ResourceId, key: ShardKey)
    requires Observed(RunChanges(INITIAL, a)) == Observed(RunChanges(INITIAL, b))
    requires Travels(Observed(RunChanges(INITIAL, a)), id, key)
    requires Spared(EMPTY, RunChanges(INITIAL, a), id) && Spared(EMPTY, RunChanges(INITIAL, b), id)
    ensures SameLive(Run(INITIAL, a).stock, Run(INITIAL, b).stock, id)
  {
    hide Travels, Spared, Observed, PerformAll, RunChanges, Run;
    RunIsPerformed(INITIAL, a);
    RunIsPerformed(INITIAL, b);
    Converges(RunChanges(INITIAL, a), RunChanges(INITIAL, b), id, key);
  }

  /* ---------- both hypotheses are needed ---------- */

  function Sample(shard: string, body: int, observedAt: int): Observation {
    Observation(shard, Upsert, Resource("c", "u", Relations("apps", "v1", "Deployment", "n", "d", map[]), "1", body,
      Summary(None, None, None, None, None, None, None, 0), OK, "", observedAt, None))
  }

  predicate HasBody(s: Stock, id: ResourceId, body: int) {
    IsLive(s, id) && s.rows[id].resource.body == body
  }

  /** Two different events of one id within the same microsecond: the order decides. */
  lemma {:induction false} EqualStampsDiverge()
    ensures var a, b := Sample("x", 1, 1000), Sample("x", 2, 1001);
            && a.At() == b.At()
            && a.resource.Id() == b.resource.Id()
            && HasBody(PerformAll(EMPTY, [Ingest(a, 0), Ingest(b, 0)]), a.resource.Id(), 2)
            && HasBody(PerformAll(EMPTY, [Ingest(b, 0), Ingest(a, 0)]), a.resource.Id(), 1)
  {
    var a, b := Sample("x", 1, 1000), Sample("x", 2, 1001);
    Two(a, b);
    Two(b, a);
  }

  const MARKER := Observation("x", Reconcile, Sample("x", 0, 9000).resource)

  lemma {:induction false} MarkerBeforeOther()
    ensures var a, b := Sample("x", 1, 1000), Sample("y", 2, 5000);
            !IsLive(PerformAll(EMPTY, [Ingest(a, 0), Ingest(MARKER, 0), Ingest(b, 0)]), StableId("c", "u"))
  {
    Three(Sample("x", 1, 1000), MARKER, Sample("y", 2, 5000));
  }

  lemma {:induction false} MarkerAfterOther()
    ensures var a, b := Sample("x", 1, 1000), Sample("y", 2, 5000);
            IsLive(PerformAll(EMPTY, [Ingest(a, 0), Ingest(b, 0), Ingest(MARKER, 0)]), StableId("c", "u"))
  {
    Three(Sample("x", 1, 1000), Sample("y", 2, 5000), MARKER);
  }

  /** One id through two shards, the second reconciled later: the order decides whether it is live. */
  lemma {:induction false} TwoShardsDiverge()
    ensures var a, b := Sample("x", 1, 1000), Sample("y", 2, 5000);
            && !IsLive(PerformAll(EMPTY, [Ingest(a, 0), Ingest(MARKER, 0), Ingest(b, 0)]), StableId("c", "u"))
            && IsLive(PerformAll(EMPTY, [Ingest(a, 0), Ingest(b, 0), Ingest(MARKER, 0)]), StableId("c", "u"))
  {
    hide PerformAll;
    MarkerBeforeOther();
    MarkerAfterOther();
  }

  lemma {:induction false} Two(a: Observation, b: Observation)
    ensures PerformAll(EMPTY, [Ingest(a, 0), Ingest(b, 0)])
         == ApplyResource(ApplyResource(EMPTY, a.shard, a.action, a.resource, 0), b.shard, b.action, b.resource, 0)
  {
    var one, two := [Ingest(a, 0)], [Ingest(a, 0), Ingest(b, 0)];
    assert two == one + [Ingest(b, 0)];
    PerformAppend(EMPTY, one, [Ingest(b, 0)]);
    OneChange(EMPTY, one[0]);
    OneChange(Perform(EMPTY, one[0]), Ingest(b, 0));
  }

  lemma {:induction false} Three(a: Observation, b: Observation, c: Observation)
    ensures PerformAll(EMPTY, [Ingest(a, 0), Ingest(b, 0), Ingest(c, 0)])
         == ApplyResource(PerformAll(EMPTY, [Ingest(a, 0), Ingest(b, 0)]), c.shard, c.action, c.resource, 0)
    ensures PerformAll(EMPTY, [Ingest(a, 0), Ingest(b, 0)])
         == ApplyResource(ApplyResource(EMPTY, a.shard, a.action, a.resource, 0), b.shard, b.action, b.resource, 0)
  {
    var two := [Ingest(a, 0), Ingest(b, 0)];
    assert [Ingest(a, 0), Ingest(b, 0), Ingest(c, 0)] == two + [Ingest(c, 0)];
    PerformAppend(EMPTY, two, [Ingest(c, 0)]);
    OneChange(PerformAll(EMPTY, two), Ingest(c, 0));
    Two(a, b);
  }
}

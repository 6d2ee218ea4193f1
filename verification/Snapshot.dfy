/** One list cycle of a watch: every page's upserts, then the reconcile marker stamped with the start of the list. */
module Snapshot {
  import opened Model
  import opened Inventory
  import opened Pipeline
  import Sender
  import opened Changes

  datatype Item = Item(resource: Resource, at: int)

  /** The snapshot events of all pages, in list order. */
  function ApplyItems(s: Stock, shard: string, items: seq<Item>): Stock
    decreases items
  {
    if items == [] then s
    else ApplyItems(ApplyResource(s, shard, Upsert, items[0].resource, items[0].at), shard, items[1..])
  }

  function Cycle(s: Stock, shard: string, items: seq<Item>, marker: Resource, now: int): Stock {
    ApplyResource(ApplyItems(s, shard, items), shard, Reconcile, marker, now)
  }

  ghost predicate Listed(items: seq<Item>, id: ResourceId) {
    exists i :: 0 <= i < |items| && items[i].resource.Id() == id
  }

  /** The list belongs to this shard's cluster and every item was observed after the list began. */
  ghost predicate FromList(items: seq<Item>, cluster: string, started: int) {
    forall i :: 0 <= i < |items| ==>
      items[i].resource.cluster == cluster && started <= items[i].resource.observedAt
        && items[i].resource.deletedAt.None?
  }

  /** While the pages are applied: what was listed so far is live in the shard, what was not is as before. */
  ghost predicate PageState(s: Stock, before: Stock, key: ShardKey, cutoff: int, done: iset<ResourceId>) {
    && Watermark(s.heads, key) == Watermark(before.heads, key)
    && (forall id :: id in done ==> IsLive(s, id) && s.rows[id].Key() == key && cutoff <= s.rows[id].observedAt)
    && (forall id :: id !in done ==>
            (id in s.rows <==> id in before.rows) && (id in s.rows ==> s.rows[id] == before.rows[id]))
  }

  lemma {:induction false} ItemApplies(s: Stock, before: Stock, key: ShardKey, started: int, done: iset<ResourceId>,
                                       item: Item)
    requires PageState(s, before, key, RoundToMicros(started), done)
    requires item.resource.cluster == key.cluster && started <= item.resource.observedAt
    requires item.resource.deletedAt.None?
    requires !Before(RoundToMicros(started), Watermark(before.heads, key))
    requires item.resource.Id() in before.rows ==> before.rows[item.resource.Id()].observedAt <= RoundToMicros(started)
    ensures PageState(ApplyResource(s, key.shard, Upsert, item.resource, item.at), before, key, RoundToMicros(started),
                      done + iset{item.resource.Id()})
  {
    RoundingIsMonotone(started, item.resource.observedAt);
    ItemIsWritten(s, key, item);
    hide ApplyResource, RoundToMicros, ResolveEvent;
  }

  /** An item that is not behind the shard's watermark replaces the stored row, unless that is newer. */
  lemma {:induction false} ItemIsWritten(s: Stock, key: ShardKey, item: Item)
    requires item.resource.cluster == key.cluster && item.resource.deletedAt.None?
    requires !Before(RoundToMicros(item.resource.observedAt), Watermark(s.heads, key))
    ensures var r, at := item.resource, RoundToMicros(item.resource.observedAt);
            var next := ApplyResource(s, key.shard, Upsert, r, item.at);
            && next.heads == s.heads
            && if r.Id() in s.rows && at < s.rows[r.Id()].observedAt then next == s
               else next.rows == s.rows[r.Id() := Row(ResolveEvent(s.rows, r, item.at), key.shard, at, None)]
                    && ResolveEvent(s.rows, r, item.at).cluster == key.cluster
  {
    hide ShouldNotify, Queue, ResolveEvent;
    ResolvedKeepsIdentity(s.rows, item.resource, item.at);
    assert ShardKey(item.resource.cluster, key.shard) == key;
  }

  lemma {:induction false} ItemsApply(s: Stock, before: Stock, key: ShardKey, started: int, done: iset<ResourceId>,
                                      items: seq<Item>) returns (all: iset<ResourceId>)
    requires PageState(s, before, key, RoundToMicros(started), done) && FromList(items, key.cluster, started)
    requires !Before(RoundToMicros(started), Watermark(before.heads, key))
    requires forall id :: Listed(items, id) && id in before.rows ==>
                 before.rows[id].observedAt <= RoundToMicros(started)
    ensures PageState(ApplyItems(s, key.shard, items), before, key, RoundToMicros(started), all)
    ensures forall id :: id in all <==> id in done || Listed(items, id)
    decreases items
  {
    hide PageState, ApplyResource, RoundToMicros;
    if items == [] {
      all := done;
    } else {
      var id0 := items[0].resource.Id();
      assert Listed(items, id0);
      ItemApplies(s, before, key, started, done, items[0]);
      forall id | Listed(items[1..], id) ensures Listed(items, id) {
        var i :| 0 <= i < |items[1..]| && items[1..][i].resource.Id() == id;
        assert items[i + 1].resource.Id() == id;
      }
      all := ItemsApply(ApplyResource(s, key.shard, Upsert, items[0].resource, items[0].at), before, key, started,
                        done + iset{id0}, items[1..]);
      forall id | Listed(items, id) ensures id == id0 || Listed(items[1..], id) {
        var i :| 0 <= i < |items| && items[i].resource.Id() == id;
        if i > 0 {
          assert items[1..][i - 1].resource.Id() == id;
        }
      }
    }
  }

  /** If everything stored for the shard and for the listed ids, and the shard's watermark, is older than the start
      of the list, then after the cycle exactly the listed ids are live in the shard, and rows of other shards that
      were not listed are untouched. */
  lemma {:induction false} CycleLeavesListed(s: Stock, key: ShardKey, items: seq<Item>, marker: Resource, now: int)
    requires FromList(items, key.cluster, marker.observedAt) && marker.cluster == key.cluster
    requires !Before(RoundToMicros(marker.observedAt), Watermark(s.heads, key))
    requires forall id :: id in s.rows && (s.rows[id].Key() == key || Listed(items, id)) ==>
               s.rows[id].observedAt < RoundToMicros(marker.observedAt)
    ensures var next := Cycle(s, key.shard, items, marker, now);
            && (forall id :: IsLive(next, id) && next.rows[id].Key() == key <==> Listed(items, id))
            && Watermark(next.heads, key) == Some(RoundToMicros(marker.observedAt))
            && (forall id :: id in s.rows && s.rows[id].Key() != key && !Listed(items, id) ==>
                  id in next.rows && next.rows[id] == s.rows[id])
  {
    var cutoff := RoundToMicros(marker.observedAt);
    var all := ItemsApply(s, s, key, marker.observedAt, iset{}, items);
    var paged := ApplyItems(s, key.shard, items);
    var next := Cycle(s, key.shard, items, marker, now);
    assert ShardKey(marker.cluster, key.shard) == key;
    assert next == ReconcileShard(paged, key, cutoff, now);
    forall id ensures IsLive(next, id) && next.rows[id].Key() == key <==> Listed(items, id) {
      assert id in all <==> Listed(items, id);
    }
  }

  /** Without the first hypothesis the marker may remove nothing: a row observed exactly at the start survives. */
  lemma {:induction false} SameInstantSurvives(s: Stock, key: ShardKey, marker: Resource, now: int, id: ResourceId)
    requires marker.cluster == key.cluster && !Before(RoundToMicros(marker.observedAt), Watermark(s.heads, key))
    requires IsLive(s, id) && s.rows[id].Key() == key
    ensures IsLive(Cycle(s, key.shard, [], marker, now), id) <==>
                RoundToMicros(marker.observedAt) <= s.rows[id].observedAt
  {
    assert ApplyItems(s, key.shard, []) == s;
  }

  /* ---------- pages that are lost on the way ---------- */

  /** One flush of a list with what the sender made of it; upTo matters only when the sending was interrupted. The
      cycle goes on to its marker in any case. */
  datatype Page = Page(items: seq<Item>, result: Sender.SendResult, upTo: nat)
  {
    /** All of a page that was sent, a beginning of one that was interrupted, and nothing of one that was refused
        because an event of it is too large. */
    function Handed(): nat {
      match result
      case Sent => |items|
      case Interrupted => upTo
      case Refused(_) => 0
    }
  }

  ghost predicate WellSent(pages: seq<Page>) {
    forall i :: 0 <= i < |pages| ==> pages[i].Handed() <= |pages[i].items|
  }

  function AllItems(pages: seq<Page>): seq<Item> {
    if pages == [] then [] else pages[0].items + AllItems(pages[1..])
  }

  function HandedItems(pages: seq<Page>): seq<Item>
    requires WellSent(pages)
  {
    if pages == [] then []
    else
      assert WellSent(pages[1..]) by {
        assert forall i :: 0 <= i < |pages[1..]| ==> pages[1..][i] == pages[i + 1];
      }
      pages[0].items[..pages[0].Handed()] + HandedItems(pages[1..])
  }

  ghost predicate AllSent(pages: seq<Page>) {
    forall i :: 0 <= i < |pages| ==> pages[i].result.Sent?
  }

  lemma {:induction false} ListedAppend(a: seq<Item>, b: seq<Item>, id: ResourceId)
    ensures Listed(a + b, id) <==> Listed(a, id) || Listed(b, id)
  {
    if Listed(a, id) {
      var i :| 0 <= i < |a| && a[i].resource.Id() == id;
      assert (a + b)[i] == a[i];
    } else if Listed(b, id) {
      var i :| 0 <= i < |b| && b[i].resource.Id() == id;
      assert (a + b)[|a| + i] == b[i];
    }
  }

  lemma {:induction false} TailWellSent(pages: seq<Page>)
    requires WellSent(pages) && pages != []
    ensures WellSent(pages[1..]) && (AllSent(pages) ==> AllSent(pages[1..]))
  {
    assert forall i :: 0 <= i < |pages[1..]| ==> pages[1..][i] == pages[i + 1];
  }

  lemma {:induction false} HandedAreListed(pages: seq<Page>, id: ResourceId)
    requires WellSent(pages)
    ensures Listed(HandedItems(pages), id) ==> Listed(AllItems(pages), id)
    ensures AllSent(pages) ==> HandedItems(pages) == AllItems(pages)
  {
    if pages != [] {
      TailWellSent(pages);
      HandedAreListed(pages[1..], id);
      var p := pages[0];
      ListedAppend(p.items[..p.Handed()], HandedItems(pages[1..]), id);
      ListedAppend(p.items, AllItems(pages[1..]), id);
      ListedAppend(p.items[..p.Handed()], p.items[p.Handed()..], id);
      assert p.items[..p.Handed()] + p.items[p.Handed()..] == p.items;
    }
  }

  lemma {:induction false} HandedFromList(pages: seq<Page>, cluster: string, started: int)
    requires WellSent(pages) && FromList(AllItems(pages), cluster, started)
    ensures FromList(HandedItems(pages), cluster, started)
  {
    if pages != [] {
      var p, rest := pages[0], AllItems(pages[1..]);
      TailWellSent(pages);
      assert forall i :: 0 <= i < |rest| ==> rest[i] == (p.items + rest)[|p.items| + i];
      assert forall i :: 0 <= i < |p.items| ==> p.items[i] == (p.items + rest)[i];
      HandedFromList(pages[1..], cluster, started);
    }
  }

  /** With a marker that is delivered whatever became of the pages, exactly the listed ids are live in the shard if
      and only if every listed id was handed over with some page; in particular if every page was sent. A listed id
      that was lost is not live afterwards, even if it was before. */
  lemma {:induction false} CycleOverSends(s: Stock, key: ShardKey, pages: seq<Page>, marker: Resource, now: int)
    requires WellSent(pages) && FromList(AllItems(pages), key.cluster, marker.observedAt)
    requires marker.cluster == key.cluster
    requires !Before(RoundToMicros(marker.observedAt), Watermark(s.heads, key))
    requires forall id :: id in s.rows && (s.rows[id].Key() == key || Listed(AllItems(pages), id)) ==>
               s.rows[id].observedAt < RoundToMicros(marker.observedAt)
    ensures var next := Cycle(s, key.shard, HandedItems(pages), marker, now);
            && ((forall id :: IsLive(next, id) && next.rows[id].Key() == key <==> Listed(AllItems(pages), id))
                <==> forall id :: Listed(AllItems(pages), id) ==> Listed(HandedItems(pages), id))
            && (AllSent(pages) ==> forall id :: IsLive(next, id) && next.rows[id].Key() == key <==>
                Listed(AllItems(pages), id))
  {
    forall id ensures Listed(HandedItems(pages), id) ==> Listed(AllItems(pages), id) {
      HandedAreListed(pages, id);
    }
    HandedAreListed(pages, marker.Id());
    HandedFromList(pages, key.cluster, marker.observedAt);
    hide HandedItems, AllItems, Listed, FromList, Cycle;
    CycleLeavesListed(s, key, HandedItems(pages), marker, now);
  }

  /** A page that is lost before its marker tombstones resources that exist. */
  lemma {:induction false} LostPageTombstones(s: Stock, key: ShardKey, pages: seq<Page>, marker: Resource, now: int,
                                              id: ResourceId)
    requires WellSent(pages) && FromList(AllItems(pages), key.cluster, marker.observedAt)
    requires marker.cluster == key.cluster
    requires !Before(RoundToMicros(marker.observedAt), Watermark(s.heads, key))
    requires forall x :: x in s.rows && (s.rows[x].Key() == key || Listed(AllItems(pages), x)) ==>
               s.rows[x].observedAt < RoundToMicros(marker.observedAt)
    requires IsLive(s, id) && s.rows[id].Key() == key && Listed(AllItems(pages), id) && !Listed(HandedItems(pages), id)
    ensures !IsLive(Cycle(s, key.shard, HandedItems(pages), marker, now), id)
  {
    forall x ensures Listed(HandedItems(pages), x) ==> Listed(AllItems(pages), x) {
      HandedAreListed(pages, x);
    }
    HandedFromList(pages, key.cluster, marker.observedAt);
    LostItem(s, key, HandedItems(pages), marker, now, id);
  }

  lemma {:induction false} LostItem(s: Stock, key: ShardKey, items: seq<Item>, marker: Resource, now: int,
                                    id: ResourceId)
    requires FromList(items, key.cluster, marker.observedAt) && marker.cluster == key.cluster
    requires !Before(RoundToMicros(marker.observedAt), Watermark(s.heads, key))
    requires forall x :: x in s.rows && (s.rows[x].Key() == key || Listed(items, x)) ==>
               s.rows[x].observedAt < RoundToMicros(marker.observedAt)
    requires IsLive(s, id) && s.rows[id].Key() == key && !Listed(items, id)
    ensures !IsLive(Cycle(s, key.shard, items, marker, now), id)
  {
    var cutoff := RoundToMicros(marker.observedAt);
    var all := ItemsApply(s, s, key, marker.observedAt, iset{}, items);
    assert Cycle(s, key.shard, items, marker, now) == ReconcileShard(ApplyItems(s, key.shard, items), key, cutoff, now);
  }

  /* ---------- with other transactions between the pages ---------- */

  /** The event came through the shard of the list. */
  predicate Through(c: Change, key: ShardKey) {
    c.Ingest? && c.observation.Key() == key
  }

  ghost predicate Arrived(changes: seq<Change>, key: ShardKey, id: ResourceId) {
    exists i :: 0 <= i < |changes| && Through(changes[i], key) && changes[i].observation.resource.Id() == id
  }

  /** Items come from this list; everything else stays away from its shard and its ids, and retention from rows that
      are as new as the list. */
  ghost predicate Fits(c: Change, key: ShardKey, started: int, listed: iset<ResourceId>) {
    match c
    case Ingest(o, _) =>
      if Through(c, key)
      then o.action == Upsert && o.resource.Id() in listed
           && started <= o.resource.observedAt && o.resource.deletedAt.None?
      else o.action == Upsert || o.action == Delete ==> o.resource.Id() !in listed
    case Pass(_, _) => true
    case Retention(ec, _, _) => ec <= RoundToMicros(started)
  }

  /** What was listed so far is live in the shard and new; the rest of the shard and of the listed ids is older. */
  ghost predicate Underway(s: Stock, key: ShardKey, cutoff: int, mark: Option<int>, listed: iset<ResourceId>,
                           done: iset<ResourceId>) {
    && Watermark(s.heads, key) == mark
    && (forall id :: id in done ==> IsLive(s, id) && s.rows[id].Key() == key && cutoff <= s.rows[id].observedAt)
    && (forall id :: id in s.rows && id !in done && (s.rows[id].Key() == key || id in listed) ==>
          s.rows[id].observedAt < cutoff && s.rows[id].Key() == key)
    && (forall id :: id in s.rows ==> s.rows[id].resource.Id() == id)
  }

  lemma {:induction false} ListingAdvances(s: Stock, key: ShardKey, started: int, mark: Option<int>,
                                           listed: iset<ResourceId>, done: iset<ResourceId>, c: Change)
    requires Underway(s, key, RoundToMicros(started), mark, listed, done) && !Before(RoundToMicros(started), mark)
    requires Fits(c, key, started, listed) && Through(c, key)
    ensures var id := c.observation.resource.Id();
            Underway(Perform(s, c), key, RoundToMicros(started), mark, listed, done + iset{id})
  {
    hide ResolveEvent, ShouldNotify, Queue;
    ResolvedKeepsIdentity(s.rows, c.observation.resource, c.at);
    RoundingIsMonotone(started, c.observation.resource.observedAt);
  }

  lemma {:induction false} WriteElsewhere(s: Stock, key: ShardKey, cutoff: int, mark: Option<int>,
                                          listed: iset<ResourceId>, done: iset<ResourceId>, o: Observation, at: int)
    requires Underway(s, key, cutoff, mark, listed, done) && done <= listed
    requires o.Key() != key && o.action != Reconcile && !(o.Writes(o.resource.Id()) && o.resource.Id() in listed)
    ensures Underway(Perform(s, Ingest(o, at)), key, cutoff, mark, listed, done)
  {
    hide ResolveEvent, ShouldNotify, Queue, RoundToMicros, Underway;
    ResolvedKeepsIdentity(s.rows, o.resource, at);
    var id, next := o.resource.Id(), Perform(s, Ingest(o, at));
    if next != s {
      RowElsewhere(s, next, key, cutoff, mark, listed, done, id);
    }
  }

  lemma {:induction false} RowElsewhere(s: Stock, next: Stock, key: ShardKey, cutoff: int, mark: Option<int>,
                                        listed: iset<ResourceId>, done: iset<ResourceId>, id: ResourceId)
    requires Underway(s, key, cutoff, mark, listed, done) && done <= listed && id !in listed
    requires next.heads == s.heads && id in next.rows && next.rows == s.rows[id := next.rows[id]]
    requires next.rows[id].Key() != key && next.rows[id].resource.Id() == id
    ensures Underway(next, key, cutoff, mark, listed, done)
  {}

  lemma {:induction false} MarkerElsewhere(s: Stock, key: ShardKey, cutoff: int, mark: Option<int>,
                                           listed: iset<ResourceId>, done: iset<ResourceId>, other: ShardKey, at: int,
                                           now: int)
    requires Underway(s, key, cutoff, mark, listed, done) && other != key
    ensures Underway(ReconcileShard(s, other, at, now), key, cutoff, mark, listed, done)
  {
    hide QueueRemoved;
    var next := ReconcileShard(s, other, at, now);
    assert forall id :: id in s.rows ==> next.rows[id].Key() == s.rows[id].Key();
    assert forall id :: id in s.rows && s.rows[id].Key() == key ==> next.rows[id] == s.rows[id];
  }

  lemma {:induction false} PassKeeps(s: Stock, key: ShardKey, cutoff: int, mark: Option<int>, listed: iset<ResourceId>,
                                     done: iset<ResourceId>, busy: set<ResourceId>, now: int)
    requires Underway(s, key, cutoff, mark, listed, done)
    ensures Underway(Inventory.ResolveEvents(s, busy, now), key, cutoff, mark, listed, done)
  {
    hide QueueRecovered, ResolveRow;
    var next := Inventory.ResolveEvents(s, busy, now);
    forall id | id in s.rows ensures SameButResolved(s.rows[id], next.rows[id]) {
      RowKept(s.rows, id, busy, now);
    }
  }

  predicate SameButResolved(a: Row, b: Row) {
    && b.resource.Id() == a.resource.Id() && b.Key() == a.Key()
    && b.observedAt == a.observedAt && b.deletedAt == a.deletedAt
  }

  lemma {:induction false} RowKept(rows: map<ResourceId, Row>, id: ResourceId, busy: set<ResourceId>, now: int)
    requires id in rows
    ensures SameButResolved(rows[id], ResolveRow(rows, id, busy, now))
  {}

  lemma {:induction false} RetentionKeeps(s: Stock, key: ShardKey, cutoff: int, mark: Option<int>,
                                          listed: iset<ResourceId>, done: iset<ResourceId>, eventCutoff: int,
                                          tombstoneCutoff: int, historyCutoff: int)
    requires Underway(s, key, cutoff, mark, listed, done) && eventCutoff <= cutoff
    ensures Underway(Prune(s, eventCutoff, tombstoneCutoff, historyCutoff), key, cutoff, mark, listed, done)
  {
    hide EventRow, PruneOutbox, Kept;
    var next := Prune(s, eventCutoff, tombstoneCutoff, historyCutoff);
    assert forall id :: id in next.rows ==> id in s.rows && next.rows[id] == s.rows[id];
    assert forall id :: id in done ==> id in next.rows;
  }

  lemma {:induction false} OtherKeepsUnderway(s: Stock, key: ShardKey, started: int, mark: Option<int>,
                                              listed: iset<ResourceId>, done: iset<ResourceId>, c: Change)
    requires Underway(s, key, RoundToMicros(started), mark, listed, done) && done <= listed
    requires Fits(c, key, started, listed) && !Through(c, key)
    ensures Underway(Perform(s, c), key, RoundToMicros(started), mark, listed, done)
  {
    hide Underway, Inventory.ResolveEvents, Prune, ReconcileShard, Write, RoundToMicros;
    var cutoff := RoundToMicros(started);
    match c
    case Ingest(o, at) =>
      if o.action == Reconcile {
        MarkerElsewhere(s, key, cutoff, mark, listed, done, o.Key(), o.At(), at);
      } else {
        WriteElsewhere(s, key, cutoff, mark, listed, done, o, at);
      }
    case Pass(busy, at) => PassKeeps(s, key, cutoff, mark, listed, done, busy, at);
    case Retention(ec, tc, hc) => RetentionKeeps(s, key, cutoff, mark, listed, done, ec, tc, hc);
  }

  lemma {:induction false} ChangesKeepUnderway(s: Stock, key: ShardKey, started: int, mark: Option<int>,
                                               listed: iset<ResourceId>, done: iset<ResourceId>, changes: seq<Change>)
    returns (all: iset<ResourceId>)
    requires Underway(s, key, RoundToMicros(started), mark, listed, done) && !Before(RoundToMicros(started), mark)
    requires done <= listed && forall i :: 0 <= i < |changes| ==> Fits(changes[i], key, started, listed)
    ensures Underway(PerformAll(s, changes), key, RoundToMicros(started), mark, listed, all)
    ensures forall id :: id in all <==> id in done || Arrived(changes, key, id)
    decreases changes
  {
    if changes == [] {
      all := done;
    } else {
      hide Underway, Perform, Through;
      var c := changes[0];
      var more := if Through(c, key) then done + iset{c.observation.resource.Id()} else done;
      if Through(c, key) {
        ListingAdvances(s, key, started, mark, listed, done, c);
      } else {
        OtherKeepsUnderway(s, key, started, mark, listed, done, c);
      }
      all := ChangesKeepUnderway(Perform(s, c), key, started, mark, listed, more, changes[1..]);
      forall id ensures Arrived(changes, key, id) <==>
                 (Through(c, key) && c.observation.resource.Id() == id) || Arrived(changes[1..], key, id) {
        ArrivedFirst(changes, key, id);
      }
    }
  }

  lemma {:induction false} ArrivedFirst(changes: seq<Change>, key: ShardKey, id: ResourceId)
    requires changes != []
    ensures Arrived(changes, key, id) <==>
              (Through(changes[0], key) && changes[0].observation.resource.Id() == id) || Arrived(changes[1..], key, id)
  {
    var tail := changes[1..];
    if Arrived(tail, key, id) {
      var i :| 0 <= i < |tail| && Through(tail[i], key) && tail[i].observation.resource.Id() == id;
      assert changes[i + 1] == tail[i];
    }
    if Arrived(changes, key, id) {
      var i :| 0 <= i < |changes| && Through(changes[i], key) && changes[i].observation.resource.Id() == id;
      assert i > 0 ==> tail[i - 1] == changes[i];
    }
  }

  /** A cycle among the transactions of other shards, recovery passes and retention: if the listed ids are stored in
      this shard only, and everything stored in it is older than the start of the list, then after the marker exactly
      the ids whose items were committed are live in the shard. */
  lemma {:induction false} CycleAmongOthers(s: Stock, key: ShardKey, changes: seq<Change>, listed: iset<ResourceId>,
                                            marker: Observation, now: int)
    requires marker.Key() == key && marker.action == Reconcile && !Before(marker.At(), Watermark(s.heads, key))
    requires forall i :: 0 <= i < |changes| ==> Fits(changes[i], key, marker.resource.observedAt, listed)
    requires forall id :: id in s.rows ==> s.rows[id].resource.Id() == id
    requires forall id :: id in s.rows && (s.rows[id].Key() == key || id in listed) ==>
               s.rows[id].observedAt < marker.At() && s.rows[id].Key() == key
    ensures var next := PerformAll(s, changes + [Ingest(marker, now)]);
            forall id :: IsLive(next, id) && next.rows[id].Key() == key <==> Arrived(changes, key, id)
  {
    hide RoundToMicros;
    var all := ChangesKeepUnderway(s, key, marker.resource.observedAt, Watermark(s.heads, key), listed, iset{},
                                   changes);
    var t := PerformAll(s, changes);
    var next := PerformAll(s, changes + [Ingest(marker, now)]);
    PerformAppend(s, changes, [Ingest(marker, now)]);
    OneChange(t, Ingest(marker, now));
    assert next == ReconcileShard(t, key, marker.At(), now);
    hide PerformAll, Fits, Perform, ApplyResource;
    forall id ensures IsLive(next, id) && next.rows[id].Key() == key <==> Arrived(changes, key, id) {
      assert id in all <==> Arrived(changes, key, id);
    }
  }

  /** So in every run of the pipeline that ends with the marker. */
  lemma {:induction false} CycleInEveryRun(db: Db, steps: seq<Step>, key: ShardKey, changes: seq<Change>,
                                           listed: iset<ResourceId>, marker: Observation, now: int)
    requires RunChanges(db, steps) == changes + [Ingest(marker, now)]
    requires marker.Key() == key && marker.action == Reconcile && !Before(marker.At(), Watermark(db.stock.heads, key))
    requires forall i :: 0 <= i < |changes| ==> Fits(changes[i], key, marker.resource.observedAt, listed)
    requires forall id :: id in db.stock.rows ==> db.stock.rows[id].resource.Id() == id
    requires forall id :: id in db.stock.rows && (db.stock.rows[id].Key() == key || id in listed) ==>
               db.stock.rows[id].observedAt < marker.At() && db.stock.rows[id].Key() == key
    ensures var next := Run(db, steps).stock;
            forall id :: IsLive(next, id) && next.rows[id].Key() == key <==> Arrived(changes, key, id)
  {
    hide Fits, Arrived, RunChanges, PerformAll, Run;
    RunIsPerformed(db, steps);
    CycleAmongOthers(db.stock, key, changes, listed, marker, now);
  }
}

/** Splitting a batch by encoded size. Of an event only its encoded length matters; the envelope costs `base` bytes
    besides the brackets of the event array. */
module Splitter {
  import opened Model

  const MAX_INGEST_BATCH_BYTES := 2 * 1024 * 1024 - 64 * 1024

  function Payload(events: seq<IngestEvent>): nat {
    if events == [] then 0 else Payload(events[..|events| - 1]) + events[|events| - 1].size
  }

  /** The length of a batch's encoding: envelope, brackets, events and the commas between them. */
  function EncodedSize(base: nat, events: seq<IngestEvent>): nat {
    base + 2 + Payload(events) + if events == [] then 0 else |events| - 1
  }

  function Concat(chunks: seq<IngestBatch>): seq<IngestEvent> {
    if chunks == [] then [] else chunks[0].events + Concat(chunks[1..])
  }

  /** An order-preserving split of events into chunks that respect the limit. */
  ghost predicate IsSplit(chunks: seq<IngestBatch>, events: seq<IngestEvent>, base: nat, limit: int) {
    && Concat(chunks) == events
    && forall i :: 0 <= i < |chunks| ==> EncodedSize(base, chunks[i].events) <= limit
  }

  /** The first event of b does not fit into a any more. */
  ghost predicate Tight(a: IngestBatch, b: IngestBatch, base: nat, limit: int) {
    a.events != [] && b.events != [] && EncodedSize(base, a.events + [b.events[0]]) > limit
  }

  /** No chunk is empty, and none could have taken the first event of the next one. */
  ghost predicate Full(chunks: seq<IngestBatch>, base: nat, limit: int) {
    && (forall i :: 0 <= i < |chunks| ==> chunks[i].events != [])
    && (forall i :: 0 <= i < |chunks| - 1 ==> Tight(chunks[i], chunks[i + 1], base, limit))
  }

  predicate Fits(e: IngestEvent, base: nat, limit: int) {
    base + e.size + 2 <= limit
  }

  datatype SplitResult = Chunks(chunks: seq<IngestBatch>) | EmptyBatch | TooLarge(index: nat)

  ghost predicate AllFit(events: seq<IngestEvent>, base: nat, limit: int) {
    forall i :: 0 <= i < |events| ==> Fits(events[i], base, limit)
  }

  /** Every chunk is sent under the batch's cluster and shard. */
  ghost predicate SameOrigin(chunks: seq<IngestBatch>, batch: IngestBatch) {
    forall i :: 0 <= i < |chunks| ==> chunks[i].Key() == batch.Key()
  }

  method SplitBatch(batch: IngestBatch, base: nat, limit: int) returns (r: SplitResult)
    ensures r.EmptyBatch? <==> batch.events == []
    ensures r.TooLarge? ==> r.index < |batch.events| && AllFit(batch.events[..r.index], base, limit)
                            && !Fits(batch.events[r.index], base, limit)
    ensures r.Chunks? <==> batch.events != [] && AllFit(batch.events, base, limit)
    ensures r.Chunks? ==>
                IsSplit(r.chunks, batch.events, base, limit) && Full(r.chunks, base, limit)
                  && SameOrigin(r.chunks, batch)
  {
    if batch.events == [] {
      return EmptyBatch;
    }
    hide *;
    NothingBuilt(batch, base, limit);
    var chunks: seq<IngestBatch> := [];
    var current := IngestBatch(batch.cluster, batch.shard, []);
    var currentBytes := base;
    for index := 0 to |batch.events|
      invariant Progress(chunks, current, currentBytes, batch, index, base, limit)
    {
      var event := batch.events[index];
      TakeEvent(chunks, current, currentBytes, batch, index, base, limit);
      if base + event.size + 2 > limit {
        return TooLarge(index);
      }
      var separator := if |current.events| > 0 then 1 else 0;
      if |current.events| > 0 && currentBytes + separator + event.size + 2 > limit {
        chunks := chunks + [current];
        current, currentBytes, separator := IngestBatch(batch.cluster, batch.shard, []), base, 0;
      }
      current := current.(events := current.events + [event]);
      currentBytes := currentBytes + separator + event.size;
    }
    LastKeepsSplit(chunks, current, currentBytes, batch, base, limit);
    chunks := chunks + [current];
    return Chunks(chunks);
  }

  /** The state of the loop before the event at `index`. */
  ghost predicate Progress(chunks: seq<IngestBatch>, current: IngestBatch, currentBytes: int, batch: IngestBatch,
                           index: nat, base: nat, limit: int) {
    && index <= |batch.events| && AllFit(batch.events[..index], base, limit)
    && currentBytes + 2 == EncodedSize(base, current.events)
    && Building(chunks, current, batch.events[..index], batch, base, limit)
  }

  /** One turn of the loop: the event at `index` is too large, or goes into the open chunk or into a new one. */
  lemma {:induction false} TakeEvent(chunks: seq<IngestBatch>, current: IngestBatch, currentBytes: int,
                                     batch: IngestBatch, index: nat, base: nat, limit: int)
    requires Progress(chunks, current, currentBytes, batch, index, base, limit) && index < |batch.events|
    ensures var e := batch.events[index];
            var full := current.events != [] && currentBytes + 1 + e.size + 2 > limit;
            if base + e.size + 2 > limit then
              && AllFit(batch.events[..index], base, limit) && !Fits(e, base, limit)
                && !AllFit(batch.events, base, limit)
            else if full then
              Progress(chunks + [current], IngestBatch(batch.cluster, batch.shard, [] + [e]), base + e.size, batch,
                       index + 1, base, limit)
            else
              Progress(chunks, current.(events := current.events + [e]),
                       currentBytes + (if current.events == [] then 0 else 1) + e.size, batch, index + 1, base, limit)
  {
    hide *;
    if base + batch.events[index].size + 2 > limit {
      EventTooLarge(chunks, current, currentBytes, batch, index, base, limit);
    } else if current.events != [] && currentBytes + 1 + batch.events[index].size + 2 > limit {
      EventCloses(chunks, current, currentBytes, batch, index, base, limit);
    } else {
      EventGrows(chunks, current, currentBytes, batch, index, base, limit);
    }
  }

  lemma {:induction false} EventTooLarge(chunks: seq<IngestBatch>, current: IngestBatch, currentBytes: int,
                                         batch: IngestBatch, index: nat, base: nat, limit: int)
    requires Progress(chunks, current, currentBytes, batch, index, base, limit) && index < |batch.events|
    requires base + batch.events[index].size + 2 > limit
    ensures !Fits(batch.events[index], base, limit) && AllFit(batch.events[..index], base, limit)
    ensures !AllFit(batch.events, base, limit)
  {
    hide Building, EncodedSize, AllFit;
    FitSoFar(batch.events, index, base, limit);
  }

  lemma {:induction false} EventCloses(chunks: seq<IngestBatch>, current: IngestBatch, currentBytes: int,
                                       batch: IngestBatch, index: nat, base: nat, limit: int)
    requires Progress(chunks, current, currentBytes, batch, index, base, limit) && index < |batch.events|
    requires base + batch.events[index].size + 2 <= limit
    requires current.events != [] && currentBytes + 1 + batch.events[index].size + 2 > limit
    ensures var e := batch.events[index];
            Progress(chunks + [current], IngestBatch(batch.cluster, batch.shard, [] + [e]), base + e.size, batch,
                     index + 1, base, limit)
  {
    hide Building, EncodedSize, AllFit;
    var e, taken := batch.events[index], batch.events[..index];
    FitSoFar(batch.events, index, base, limit);
    OneMore(base, current.events, e);
    assert batch.events[..index + 1] == taken + [e];
    CloseKeepsBuilding(chunks, current, e, taken, batch, base, limit);
  }

  lemma {:induction false} EventGrows(chunks: seq<IngestBatch>, current: IngestBatch, currentBytes: int,
                                      batch: IngestBatch, index: nat, base: nat, limit: int)
    requires Progress(chunks, current, currentBytes, batch, index, base, limit) && index < |batch.events|
    requires base + batch.events[index].size + 2 <= limit
    requires current.events == [] || currentBytes + 1 + batch.events[index].size + 2 <= limit
    ensures var e := batch.events[index];
            Progress(chunks, current.(events := current.events + [e]),
                     currentBytes + (if current.events == [] then 0 else 1) + e.size, batch, index + 1, base, limit)
  {
    hide Building, EncodedSize, AllFit;
    var e, taken := batch.events[index], batch.events[..index];
    FitSoFar(batch.events, index, base, limit);
    OneMore(base, current.events, e);
    assert current.events == [] ==> current.events + [e] == [] + [e];
    assert batch.events[..index + 1] == taken + [e];
    GrowKeepsBuilding(chunks, current, e, taken, batch, base, limit);
  }

  lemma {:induction false} FitSoFar(events: seq<IngestEvent>, n: nat, base: nat, limit: int)
    requires n < |events| && AllFit(events[..n], base, limit)
    ensures AllFit(events[..n + 1], base, limit) <==> Fits(events[n], base, limit)
    ensures AllFit(events, base, limit) ==> Fits(events[n], base, limit)
  {
    if Fits(events[n], base, limit) {
      var more := events[..n + 1];
      forall i | 0 <= i < |more| ensures Fits(more[i], base, limit) {
        assert i < n ==> Fits(events[..n][i], base, limit);
      }
    } else {
      assert events[..n + 1][n] == events[n];
    }
  }

  /** The closed chunks are full with respect to what follows, the open one respects the limit, and together they
      hold the events taken so far. */
  ghost predicate Building(chunks: seq<IngestBatch>, current: IngestBatch, taken: seq<IngestEvent>, batch: IngestBatch,
                           base: nat, limit: int) {
    && SameOrigin(chunks + [current], batch)
    && Concat(chunks) + current.events == taken
    && (forall i :: 0 <= i < |chunks| ==> EncodedSize(base, chunks[i].events) <= limit)
    && (current.events == [] ==> chunks == [])
    && (current.events != [] ==> EncodedSize(base, current.events) <= limit && Full(chunks + [current], base, limit))
  }

  lemma {:induction false} NothingBuilt(batch: IngestBatch, base: nat, limit: int)
    ensures Progress([], IngestBatch(batch.cluster, batch.shard, []), base, batch, 0, base, limit)
  {}

  lemma {:induction false} OneMore(base: nat, events: seq<IngestEvent>, e: IngestEvent)
    ensures EncodedSize(base, events + [e]) == EncodedSize(base, events) + e.size + if events == [] then 0 else 1
    ensures EncodedSize(base, [] + [e]) == base + 2 + e.size && EncodedSize(base, []) == base + 2
  {
    PayloadSnoc(events, e);
    PayloadSnoc([], e);
  }

  lemma {:induction false} LastKeepsSplit(chunks: seq<IngestBatch>, current: IngestBatch, currentBytes: int,
                                          batch: IngestBatch, base: nat, limit: int)
    requires Progress(chunks, current, currentBytes, batch, |batch.events|, base, limit) && batch.events != []
    ensures IsSplit(chunks + [current], batch.events, base, limit) && Full(chunks + [current], base, limit)
    ensures SameOrigin(chunks + [current], batch) && AllFit(batch.events, base, limit)
  {
    assert batch.events[..|batch.events|] == batch.events;
    ConcatSnoc(chunks, current);
  }

  lemma {:induction false} GrowKeepsBuilding(chunks: seq<IngestBatch>, current: IngestBatch, e: IngestEvent,
                                             taken: seq<IngestEvent>, batch: IngestBatch, base: nat, limit: int)
    requires Building(chunks, current, taken, batch, base, limit) && EncodedSize(base, current.events + [e]) <= limit
    ensures Building(chunks, current.(events := current.events + [e]), taken + [e], batch, base, limit)
  {
    var was := chunks + [current];
    var now := chunks + [current.(events := current.events + [e])];
    assert was[|chunks|] == current;
    assert forall i :: 0 <= i < |chunks| ==> now[i] == was[i];
    if current.events != [] {
      forall i | 0 <= i < |now| - 1 ensures Tight(now[i], now[i + 1], base, limit) {
        assert Tight(was[i], was[i + 1], base, limit);
      }
    }
  }

  lemma {:induction false} CloseKeepsBuilding(chunks: seq<IngestBatch>, current: IngestBatch, e: IngestEvent,
                                              taken: seq<IngestEvent>, batch: IngestBatch, base: nat, limit: int)
    requires Building(chunks, current, taken, batch, base, limit) && current.events != []
    requires EncodedSize(base, current.events + [e]) > limit && EncodedSize(base, [] + [e]) <= limit
    ensures Building(chunks + [current], IngestBatch(batch.cluster, batch.shard, [] + [e]), taken + [e], batch, base,
                     limit)
  {
    ConcatSnoc(chunks, current);
    var was := chunks + [current];
    var now := was + [IngestBatch(batch.cluster, batch.shard, [] + [e])];
    forall i | 0 <= i < |now| - 1 ensures Tight(now[i], now[i + 1], base, limit) {
      if i < |was| - 1 {
        assert Tight(was[i], was[i + 1], base, limit);
      }
    }
    assert forall i :: 0 <= i < |was| ==> now[i] == was[i];
  }

  lemma {:induction false} PayloadSnoc(events: seq<IngestEvent>, e: IngestEvent)
    ensures Payload(events + [e]) == Payload(events) + e.size
  {
    assert (events + [e])[..|events|] == events;
  }

  lemma {:induction false} ConcatSnoc(chunks: seq<IngestBatch>, last: IngestBatch)
    ensures Concat(chunks + [last]) == Concat(chunks) + last.events
  {
    if chunks != [] {
      ConcatSnoc(chunks[1..], last);
      assert (chunks + [last])[1..] == chunks[1..] + [last];
    }
  }

  /* ---------- optimality ---------- */

  lemma {:induction false} PayloadAppend(a: seq<IngestEvent>, b: seq<IngestEvent>)
    ensures Payload(a + b) == Payload(a) + Payload(b)
  {
    if b == [] {
      assert a + b == a;
    } else {
      var n := |b| - 1;
      PayloadAppend(a, b[..n]);
      assert (a + b)[..|a + b| - 1] == a + b[..n];
    }
  }

  /** A run of consecutive events encodes to at most what any run around it does. */
  lemma {:induction false} InnerIsSmaller(base: nat, before: seq<IngestEvent>, inner: seq<IngestEvent>,
                                          after: seq<IngestEvent>)
    ensures EncodedSize(base, inner) <= EncodedSize(base, before + inner + after)
  {
    PayloadAppend(before + inner, after);
    PayloadAppend(before, inner);
  }

  /** A chunk that reaches beyond a full chunk contains it and the first event of the next one. */
  lemma {:induction false} ReachesIntoNext(lead: seq<IngestEvent>, g: seq<IngestEvent>, rest: seq<IngestEvent>,
                                           p: seq<IngestEvent>, q: seq<IngestEvent>, base: nat)
    requires rest != [] && lead + (g + rest) == p + q && |p| > |lead| + |g|
    ensures EncodedSize(base, g + [rest[0]]) <= EncodedSize(base, p)
  {
    var all := lead + (g + rest);
    var n := |lead| + |g|;
    assert all[n] == rest[0];
    assert p == all[..|p|];
    assert p == lead + (g + [rest[0]]) + p[n + 1..];
    InnerIsSmaller(base, lead, g + [rest[0]], p[n + 1..]);
  }

  lemma {:induction false} FullTail(full: seq<IngestBatch>, base: nat, limit: int)
    requires Full(full, base, limit) && full != []
    ensures Full(full[1..], base, limit)
  {
    var t := full[1..];
    forall i | 0 <= i < |t| - 1 ensures Tight(t[i], t[i + 1], base, limit) {
      assert Tight(full[i + 1], full[i + 1 + 1], base, limit);
    }
  }

  lemma {:induction false} Remainder(lead: seq<IngestEvent>, g: seq<IngestEvent>, rest: seq<IngestEvent>,
                                     p: seq<IngestEvent>, q: seq<IngestEvent>)
    requires lead + (g + rest) == p + q && |p| <= |lead| + |g|
    ensures q == (lead + g)[|p|..] + rest
  {
    assert lead + g + rest == p + q;
    assert q == (p + q)[|p|..];
  }

  /** Stay ahead: a full split of a remainder needs no more chunks than any split of a longer remainder. */
  lemma {:induction false} StaysAhead(full: seq<IngestBatch>, other: seq<IngestBatch>, lead: seq<IngestEvent>,
                                      base: nat, limit: int)
    requires Full(full, base, limit)
    requires forall i :: 0 <= i < |other| ==> EncodedSize(base, other[i].events) <= limit
    requires Concat(other) == lead + Concat(full)
    ensures |full| <= |other|
    decreases |full|
  {
    if full != [] {
      assert full[0].events != [] && other != [];
      var g, p := full[0].events, other[0].events;
      var rest, q := Concat(full[1..]), Concat(other[1..]);
      if |full| > 1 && |p| > |lead| + |g| {
        assert Tight(full[0], full[0 + 1], base, limit) && rest[0] == full[1].events[0];
        ReachesIntoNext(lead, g, rest, p, q, base);
      } else {
        assert |full| == 1 ==> rest == [];
        Remainder(lead, g, rest, p, q);
        FullTail(full, base, limit);
        StaysAhead(full[1..], other[1..], (lead + g)[|p|..], base, limit);
      }
    }
  }

  /** No order-preserving split that respects the limit uses fewer chunks. */
  lemma {:induction false} SplitIsOptimal(chunks: seq<IngestBatch>, other: seq<IngestBatch>, events: seq<IngestEvent>,
                                          base: nat, limit: int)
    requires IsSplit(chunks, events, base, limit) && Full(chunks, base, limit)
    requires IsSplit(other, events, base, limit)
    ensures |chunks| <= |other|
  {
    assert [] + Concat(chunks) == Concat(chunks);
    StaysAhead(chunks, other, [], base, limit);
  }

  /** If one event does not fit, no split at all respects the limit. */
  lemma {:induction false} NoSplitOfAnOversizedEvent(chunks: seq<IngestBatch>, events: seq<IngestEvent>, base: nat,
                                                     limit: int, i: nat)
    requires i < |events| && !Fits(events[i], base, limit) && Concat(chunks) == events
    ensures exists c :: 0 <= c < |chunks| && EncodedSize(base, chunks[c].events) > limit
  {
    var c := chunks[0].events;
    if i < |c| {
      assert c == c[..i] + [c[i]] + c[i + 1..];
      InnerIsSmaller(base, c[..i], [c[i]], c[i + 1..]);
      PayloadSnoc([], c[i]);
    } else {
      assert Concat(chunks[1..]) == events[|c|..];
      NoSplitOfAnOversizedEvent(chunks[1..], events[|c|..], base, limit, i - |c|);
      var k :| 0 <= k < |chunks[1..]| && EncodedSize(base, chunks[1..][k].events) > limit;
      assert chunks[k + 1] == chunks[1..][k];
    }
  }
}

/** The notification outbox as a lease-claimed queue with head-of-line order per resource, and the receiver. */
module Outbox {
  import opened Model
  import opened Inventory

  const CLAIM_MICROS := 30_000_000

  predicate Waiting(o: OutRow) {
    o.deliveredAt.None? && !o.pruned
  }

  predicate HeadOfLine(outbox: seq<OutRow>, i: nat)
    requires i < |outbox|
  {
    forall j :: 0 <= j < i && outbox[j].note.id == outbox[i].note.id ==> !Waiting(outbox[j])
  }

  predicate Claimable(outbox: seq<OutRow>, i: nat, locked: set<nat>, now: int)
    requires i < |outbox|
  {
    && i !in locked
    && Waiting(outbox[i]) && outbox[i].availableAt <= now
    && (outbox[i].claim.None? || outbox[i].claim.value.until < now)
    && HeadOfLine(outbox, i)
  }

  /** The lowest claimable id from position i on. */
  function NextClaim(outbox: seq<OutRow>, i: nat, locked: set<nat>, now: int): (r: Option<nat>)
    requires i <= |outbox|
    ensures r.Some? ==> i <= r.value < |outbox| && Claimable(outbox, r.value, locked, now)
    ensures r.Some? ==> forall j :: i <= j < r.value ==> !Claimable(outbox, j, locked, now)
    ensures r.None? ==> forall j :: i <= j < |outbox| ==> !Claimable(outbox, j, locked, now)
    decreases |outbox| - i
  {
    if i == |outbox| then None
    else if Claimable(outbox, i, locked, now) then Some(i)
    else NextClaim(outbox, i + 1, locked, now)
  }

  /** A notifier finds a row exactly when one is waiting, due, not leased any more, not locked by another notifier, and
      first in its resource's line, and it is the first such row. */
  lemma {:induction false} ClaimFindsWork(outbox: seq<OutRow>, locked: set<nat>, now: int, i: nat)
    requires i < |outbox| && i !in locked && outbox[i].deliveredAt.None? && !outbox[i].pruned
    requires outbox[i].availableAt <= now && (outbox[i].claim.None? || outbox[i].claim.value.until < now)
    requires forall j :: 0 <= j < i && outbox[j].note.id == outbox[i].note.id ==>
               outbox[j].deliveredAt.Some? || outbox[j].pruned
    ensures NextClaim(outbox, 0, locked, now).Some? && NextClaim(outbox, 0, locked, now).value <= i
  {
    assert Claimable(outbox, i, locked, now);
  }

  lemma {:induction false} ClaimIsDue(outbox: seq<OutRow>, locked: set<nat>, now: int)
    requires NextClaim(outbox, 0, locked, now).Some?
    ensures var i := NextClaim(outbox, 0, locked, now).value;
            && i < |outbox| && i !in locked && outbox[i].deliveredAt.None? && !outbox[i].pruned
            && outbox[i].availableAt <= now && (outbox[i].claim.None? || outbox[i].claim.value.until < now)
            && forall j :: 0 <= j < i && outbox[j].note.id == outbox[i].note.id ==>
                 outbox[j].deliveredAt.Some? || outbox[j].pruned
  {}

  function ClaimRow(outbox: seq<OutRow>, id: Option<nat>, identity: string, now: int): seq<OutRow>
    requires id.Some? ==> id.value < |outbox|
  {
    if id.None? then outbox
    else
      var o := outbox[id.value];
      outbox[id.value := o.(claim := Some(Claim(identity, now + CLAIM_MICROS)), attempts := o.attempts + 1)]
  }

  /** The guard of both an acknowledgement and a retry. */
  predicate Holds(outbox: seq<OutRow>, id: nat, identity: string) {
    id < |outbox| && Waiting(outbox[id]) && outbox[id].claim.Some? && outbox[id].claim.value.holder == identity
  }

  function Deliver(outbox: seq<OutRow>, id: nat, identity: string, now: int): seq<OutRow> {
    if Holds(outbox, id, identity) then outbox[id := outbox[id].(deliveredAt := Some(now), claim := None)] else outbox
  }

  function Power2(n: nat): nat {
    if n == 0 then 1 else 2 * Power2(n - 1)
  }

  function RetrySeconds(attempts: nat): (s: nat) {
    var p := Power2(if attempts < 6 then attempts else 6);
    if p < 60 then p else 60
  }

  /** One second, doubled with every attempt, up to a minute. */
  lemma {:induction false} RetryDoubles(attempts: nat)
    ensures RetrySeconds(0) == 1
    ensures RetrySeconds(attempts + 1)
         == if 2 * RetrySeconds(attempts) < 60 then 2 * RetrySeconds(attempts) else 60
  {
    assert Power2(0) == 1 && Power2(1) == 2 && Power2(2) == 4 && Power2(3) == 8;
    assert Power2(4) == 16 && Power2(5) == 32 && Power2(6) == 64;
  }

  function Release(outbox: seq<OutRow>, id: nat, identity: string, now: int): seq<OutRow> {
    if Holds(outbox, id, identity)
    then outbox[id := outbox[id].(availableAt := now + RetrySeconds(outbox[id].attempts) * MICROS_PER_SECOND,
                                  claim := None)]
    else outbox
  }

  /** The receiver deduplicates by the event id derived from the outbox id. */
  function Receive(received: seq<nat>, id: nat): seq<nat> {
    if id in received then received else received + [id]
  }

  predicate Closes(note: Note) {
    note.action == Delete || note.state == OK
  }

  /** Folding all outbox rows of a resource with the close rule. */
  function Open(outbox: seq<OutRow>, id: ResourceId): bool {
    if outbox == [] then false
    else
      var last := outbox[|outbox| - 1].note;
      if last.id == id then !Closes(last) else Open(outbox[..|outbox| - 1], id)
  }

  /** Folding what the receiver has processed, in the order it processed it. */
  function ReceiverOpen(outbox: seq<OutRow>, received: seq<nat>, id: ResourceId): bool
    requires forall k :: 0 <= k < |received| ==> received[k] < |outbox|
  {
    if received == [] then false
    else
      var last := outbox[received[|received| - 1]].note;
      if last.id == id then !Closes(last) else ReceiverOpen(outbox, received[..|received| - 1], id)
  }

  /* ---------- invariants ---------- */

  predicate SameResource(outbox: seq<OutRow>, i: nat, j: nat)
    requires i < |outbox| && j < |outbox|
  {
    outbox[i].note.id == outbox[j].note.id
  }

  /** A row is only ever claimed once everything before it for its resource has been delivered. */
  ghost predicate ClaimedInOrder(outbox: seq<OutRow>) {
    forall i, j :: 0 <= j < i < |outbox| && outbox[i].attempts > 0 && SameResource(outbox, i, j) ==>
               outbox[j].deliveredAt.Some?
  }

  ghost predicate RowConsistent(o: OutRow) {
    && (o.claim.Some? ==> o.attempts > 0 && o.deliveredAt.None?)
    && (o.deliveredAt.Some? ==> o.attempts > 0)
    && (o.pruned ==> o.deliveredAt.Some?)
  }

  ghost predicate ReceiptsConsistent(outbox: seq<OutRow>, received: seq<nat>) {
    && (forall k :: 0 <= k < |received| ==> received[k] < |outbox| && outbox[received[k]].attempts > 0)
    && (forall i :: 0 <= i < |outbox| && outbox[i].deliveredAt.Some? ==> i in received)
  }

  ghost predicate ReceivedInOrder(outbox: seq<OutRow>, received: seq<nat>)
    requires forall k :: 0 <= k < |received| ==> received[k] < |outbox|
  {
    forall a, b :: 0 <= a < b < |received| && SameResource(outbox, received[a], received[b]) ==>
               received[a] < received[b]
  }

  ghost predicate OutboxInv(outbox: seq<OutRow>, received: seq<nat>) {
    && ClaimedInOrder(outbox)
    && (forall i :: 0 <= i < |outbox| ==> RowConsistent(outbox[i]))
    && ReceiptsConsistent(outbox, received)
    && ReceivedInOrder(outbox, received)
  }

  lemma {:induction false} ClaimKeepsInv(outbox: seq<OutRow>, received: seq<nat>, locked: set<nat>, identity: string,
                                         now: int)
    requires OutboxInv(outbox, received)
    ensures OutboxInv(ClaimRow(outbox, NextClaim(outbox, 0, locked, now), identity, now), received)
  {
    var id := NextClaim(outbox, 0, locked, now);
    if id.Some? {
      var next := ClaimRow(outbox, id, identity, now);
      forall i, j | 0 <= j < i < |next| && next[i].attempts > 0 && SameResource(next, i, j)
        ensures next[j].deliveredAt.Some? {
        if i == id.value {
          assert !Waiting(outbox[j]) && RowConsistent(outbox[j]);
        } else {
          assert SameResource(outbox, i, j);
        }
      }
      forall a, b | 0 <= a < b < |received| && SameResource(next, received[a], received[b])
        ensures received[a] < received[b] {
        assert SameResource(outbox, received[a], received[b]);
      }
    }
  }

  lemma {:induction false} SendKeepsInv(outbox: seq<OutRow>, received: seq<nat>, id: nat)
    requires OutboxInv(outbox, received)
    requires id < |outbox| && outbox[id].attempts > 0
    ensures OutboxInv(outbox, Receive(received, id))
  {
    if id !in received {
      var next := received + [id];
      assert forall i :: i in received ==> i in next;
      forall a, b | 0 <= a < b < |next| && SameResource(outbox, next[a], next[b]) ensures next[a] < next[b] {
        if b == |received| {
          var other := received[a];
          assert other in received;
          assert outbox[other].attempts > 0 && SameResource(outbox, other, id);
        }
      }
    }
  }

  lemma {:induction false} DeliverKeepsInv(outbox: seq<OutRow>, received: seq<nat>, id: nat, identity: string, now: int)
    requires OutboxInv(outbox, received) && id in received
    ensures OutboxInv(Deliver(outbox, id, identity, now), received)
  {
    var next := Deliver(outbox, id, identity, now);
    SameNotesKeepOrder(outbox, next, received);
    forall i, j | 0 <= j < i < |next| && next[i].attempts > 0 && SameResource(next, i, j)
      ensures next[j].deliveredAt.Some? {
      assert SameResource(outbox, i, j) && outbox[i].attempts > 0;
    }
  }

  lemma {:induction false} ReleaseKeepsInv(outbox: seq<OutRow>, received: seq<nat>, id: nat, identity: string, now: int)
    requires OutboxInv(outbox, received)
    ensures OutboxInv(Release(outbox, id, identity, now), received)
  {
    var next := Release(outbox, id, identity, now);
    SameNotesKeepOrder(outbox, next, received);
    forall i, j | 0 <= j < i < |next| && next[i].attempts > 0 && SameResource(next, i, j)
      ensures next[j].deliveredAt.Some? {
      assert SameResource(outbox, i, j) && outbox[i].attempts > 0;
    }
  }

  lemma {:induction false} PruneKeepsInv(outbox: seq<OutRow>, received: seq<nat>, cutoff: int)
    requires OutboxInv(outbox, received)
    ensures OutboxInv(PruneOutbox(outbox, cutoff), received)
  {
    var next := PruneOutbox(outbox, cutoff);
    SameNotesKeepOrder(outbox, next, received);
    forall i, j | 0 <= j < i < |next| && next[i].attempts > 0 && SameResource(next, i, j)
      ensures next[j].deliveredAt.Some? {
      assert SameResource(outbox, i, j) && outbox[i].attempts > 0;
    }
  }

  lemma {:induction false} SameNotesKeepOrder(outbox: seq<OutRow>, next: seq<OutRow>, received: seq<nat>)
    requires |next| == |outbox| && forall i :: 0 <= i < |outbox| ==> next[i].note == outbox[i].note
    requires forall k :: 0 <= k < |received| ==> received[k] < |outbox|
    requires ReceivedInOrder(outbox, received)
    ensures ReceivedInOrder(next, received)
  {
    forall a, b | 0 <= a < b < |received| && SameResource(next, received[a], received[b])
      ensures received[a] < received[b] {
      assert SameResource(outbox, received[a], received[b]);
    }
  }

  /** Rows that are queued later are untouched: never claimed, never delivered. */
  predicate Untouched(o: OutRow) {
    o.claim.None? && o.attempts == 0 && o.deliveredAt.None? && !o.pruned
  }

  ghost predicate Extends(outbox: seq<OutRow>, next: seq<OutRow>) {
    && |outbox| <= |next| && next[..|outbox|] == outbox
    && forall i :: |outbox| <= i < |next| ==> Untouched(next[i])
  }

  lemma {:induction false} ExtendKeepsInv(outbox: seq<OutRow>, next: seq<OutRow>, received: seq<nat>)
    requires OutboxInv(outbox, received) && Extends(outbox, next)
    ensures OutboxInv(next, received)
  {
    assert forall i :: 0 <= i < |outbox| ==> next[i] == outbox[i];
    forall i, j | 0 <= j < i < |next| && next[i].attempts > 0 && SameResource(next, i, j)
      ensures next[j].deliveredAt.Some? {
      assert SameResource(outbox, i, j);
    }
    forall a, b | 0 <= a < b < |received| && SameResource(next, received[a], received[b])
      ensures received[a] < received[b] {
      assert SameResource(outbox, received[a], received[b]);
    }
  }

  /* ---------- what the invariants mean ---------- */

  /** Delivered rows of a resource are a prefix of its rows, and at most one of its rows is claimed. */
  lemma {:induction false} DeliveredPrefixAndOneClaim(outbox: seq<OutRow>, received: seq<nat>, i: nat, j: nat)
    requires OutboxInv(outbox, received)
    requires i < j < |outbox| && SameResource(outbox, i, j)
    ensures outbox[j].deliveredAt.Some? ==> outbox[i].deliveredAt.Some?
    ensures outbox[i].claim.None? || outbox[j].claim.None?
  {
    assert SameResource(outbox, j, i);
    assert RowConsistent(outbox[i]) && RowConsistent(outbox[j]);
  }

  /* ---------- the two folds ---------- */

  predicate LastFor(outbox: seq<OutRow>, id: ResourceId, m: nat) {
    m < |outbox| && outbox[m].note.id == id && forall i :: m < i < |outbox| ==> outbox[i].note.id != id
  }

  /** The last note of a resource decides whether its incident is open. */
  lemma {:induction false} OpenByLast(outbox: seq<OutRow>, id: ResourceId)
    ensures forall m: nat :: LastFor(outbox, id, m) ==> Open(outbox, id) == !Closes(outbox[m].note)
    ensures Open(outbox, id) ==> exists m: nat :: LastFor(outbox, id, m)
  {
    forall m: nat | LastFor(outbox, id, m) ensures Open(outbox, id) == !Closes(outbox[m].note) {
      LastDecides(outbox, id, m);
    }
    if Open(outbox, id) {
      var m := LastExists(outbox, id);
    }
  }

  lemma {:induction false} LastDecides(outbox: seq<OutRow>, id: ResourceId, m: nat)
    requires LastFor(outbox, id, m)
    ensures Open(outbox, id) == !Closes(outbox[m].note)
  {
    var n := |outbox| - 1;
    if m < n {
      LastDecides(outbox[..n], id, m);
    }
  }

  lemma {:induction false} LastExists(outbox: seq<OutRow>, id: ResourceId) returns (m: nat)
    requires Open(outbox, id)
    ensures LastFor(outbox, id, m)
  {
    var n := |outbox| - 1;
    if outbox[n].note.id == id {
      m := n;
    } else {
      m := LastExists(outbox[..n], id);
    }
  }

  /** If the receiver has processed every note of a resource, in order, its incident is the fold of the outbox. */
  lemma {:induction false} ReceiverOpenByLast(outbox: seq<OutRow>, received: seq<nat>, id: ResourceId, m: nat)
    requires forall k :: 0 <= k < |received| ==> received[k] < |outbox|
    requires m in received && outbox[m].note.id == id
    requires forall k :: 0 <= k < |received| && outbox[received[k]].note.id == id ==> received[k] <= m
    requires ReceivedInOrder(outbox, received)
    ensures ReceiverOpen(outbox, received, id) == !Closes(outbox[m].note)
  {
    var n := |received| - 1;
    var last := received[n];
    var k :| 0 <= k < |received| && received[k] == m;
    if outbox[last].note.id == id {
      assert SameResource(outbox, received[k], received[n]);
    } else {
      var front := received[..n];
      assert front[k] == m;
      forall a, b | 0 <= a < b < |front| && SameResource(outbox, front[a], front[b]) ensures front[a] < front[b] {
        assert SameResource(outbox, received[a], received[b]);
      }
      ReceiverOpenByLast(outbox, front, id, m);
    }
  }

  lemma {:induction false} ReceiverClosedWithoutNotes(outbox: seq<OutRow>, received: seq<nat>, id: ResourceId)
    requires forall k :: 0 <= k < |received| ==> received[k] < |outbox| && outbox[received[k]].note.id != id
    ensures !ReceiverOpen(outbox, received, id)
  {
    if received != [] {
      ReceiverClosedWithoutNotes(outbox, received[..|received| - 1], id);
    }
  }

  /** Once nothing waits, the receiver's view of every resource is the fold of all notes ever queued. */
  lemma {:induction false} DrainedReceiverAgrees(outbox: seq<OutRow>, received: seq<nat>, id: ResourceId)
    requires OutboxInv(outbox, received)
    requires forall i :: 0 <= i < |outbox| ==> !Waiting(outbox[i])
    ensures ReceiverOpen(outbox, received, id) == Open(outbox, id)
  {
    OpenByLast(outbox, id);
    if exists i :: 0 <= i < |outbox| && outbox[i].note.id == id {
      var m := LastIndex(outbox, id);
      assert RowConsistent(outbox[m]) && !Waiting(outbox[m]);
      forall k | 0 <= k < |received| && outbox[received[k]].note.id == id ensures received[k] <= m {}
      ReceiverOpenByLast(outbox, received, id, m);
    } else {
      ReceiverClosedWithoutNotes(outbox, received, id);
    }
  }

  lemma {:induction false} LastIndex(outbox: seq<OutRow>, id: ResourceId) returns (m: nat)
    requires exists i :: 0 <= i < |outbox| && outbox[i].note.id == id
    ensures LastFor(outbox, id, m)
  {
    var n := |outbox| - 1;
    if outbox[n].note.id == id {
      m := n;
    } else {
      var i :| 0 <= i < |outbox| && outbox[i].note.id == id;
      assert outbox[..n][i].note.id == id;
      m := LastIndex(outbox[..n], id);
    }
  }
}

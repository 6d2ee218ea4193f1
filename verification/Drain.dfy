/** How many calls a worker needs to empty the inbox. */
module Drain {
  import opened Model
  import opened Seqs
  import opened Pipeline
  import opened InboxRuns
  import I = Inbox

  ghost function Shards(inbox: seq<I.Row>): set<ShardKey> {
    set r | r in inbox :: r.key
  }

  /** The sum over shards of ceil(pending / limit). */
  ghost function Calls(inbox: seq<I.Row>, keys: set<ShardKey>, limit: nat): nat
    requires limit > 0
  {
    if keys == {} then 0
    else
      var k :| k in keys;
      CeilDiv(|I.PendingOf(inbox, k)|, limit) + Calls(inbox, keys - {k}, limit)
  }

  lemma {:induction false} CallsStep(inbox: seq<I.Row>, keys: set<ShardKey>, limit: nat, k: ShardKey)
    requires limit > 0 && k in keys
    ensures Calls(inbox, keys, limit) == CeilDiv(|I.PendingOf(inbox, k)|, limit) + Calls(inbox, keys - {k}, limit)
    decreases |keys|
  {
    var c :| c in keys
      && Calls(inbox, keys, limit) == CeilDiv(|I.PendingOf(inbox, c)|, limit) + Calls(inbox, keys - {c}, limit);
    if c != k {
      CallsStep(inbox, keys - {c}, limit, k);
      CallsStep(inbox, keys - {k}, limit, c);
      assert keys - {c} - {k} == keys - {k} - {c};
    }
  }

  lemma {:induction false} CallsFrame(a: seq<I.Row>, b: seq<I.Row>, keys: set<ShardKey>, limit: nat)
    requires limit > 0 && forall k :: k in keys ==> I.PendingOf(a, k) == I.PendingOf(b, k)
    ensures Calls(a, keys, limit) == Calls(b, keys, limit)
  {
    if keys != {} {
      var k :| k in keys;
      CallsStep(a, keys, limit, k);
      CallsStep(b, keys, limit, k);
      CallsFrame(a, b, keys - {k}, limit);
    }
  }

  /** Every unapplied event is decodable and not backed off. */
  ghost predicate AllReady(inbox: seq<I.Row>, now: int) {
    forall i :: 0 <= i < |inbox| && I.Unapplied(inbox[i]) ==> inbox[i].readable && inbox[i].availableAt <= now
  }

  ghost predicate Empty(inbox: seq<I.Row>) {
    forall i :: 0 <= i < |inbox| ==> !I.Unapplied(inbox[i])
  }

  lemma {:induction false} NoCallsMeansEmpty(inbox: seq<I.Row>, limit: nat)
    requires limit > 0
    ensures Calls(inbox, Shards(inbox), limit) == 0 <==> Empty(inbox)
  {
    if Empty(inbox) {
      NothingPending(inbox, Shards(inbox), limit);
    } else {
      var i :| 0 <= i < |inbox| && I.Unapplied(inbox[i]);
      var k := inbox[i].key;
      assert inbox[i] in I.PendingOf(inbox, k) && inbox[i] in inbox;
      CallsStep(inbox, Shards(inbox), limit, k);
    }
  }

  lemma {:induction false} NothingPending(inbox: seq<I.Row>, keys: set<ShardKey>, limit: nat)
    requires limit > 0 && Empty(inbox)
    ensures Calls(inbox, keys, limit) == 0
  {
    if keys != {} {
      var k :| k in keys;
      CallsStep(inbox, keys, limit, k);
      FilterNone(I.IsPending(k), inbox);
      NothingPending(inbox, keys - {k}, limit);
    }
  }

  lemma {:induction false} BlockKeepsReady(inbox: seq<I.Row>, done: seq<I.Row>, now: int)
    requires AllReady(inbox, now)
    ensures AllReady(AfterBlock(inbox, done, None, now), now)
    ensures Shards(AfterBlock(inbox, done, None, now)) == Shards(inbox)
  {
    var next := AfterBlock(inbox, done, None, now);
    assert forall i :: 0 <= i < |inbox| ==> next[i].key == inbox[i].key;
    forall k | k in Shards(inbox) ensures k in Shards(next) {
      var i :| 0 <= i < |inbox| && inbox[i].key == k;
      assert next[i] in next;
    }
    forall k | k in Shards(next) ensures k in Shards(inbox) {
      var i :| 0 <= i < |next| && next[i].key == k;
      assert inbox[i] in inbox;
    }
  }

  /** One productive block saves exactly one call. */
  lemma {:induction false} BlockSavesACall(inbox: seq<I.Row>, key: ShardKey, n: nat, limit: nat, now: int)
    requires I.UniqueIds(inbox) && limit > 0 && n > 0 && BlockOf(inbox, key, n, None)
    requires n == |I.PendingOf(inbox, key)| <= limit || n == limit
    ensures var next := AfterBlock(inbox, I.PendingOf(inbox, key)[..n], None, now);
            Calls(next, Shards(inbox), limit) + 1 == Calls(inbox, Shards(inbox), limit)
  {
    var keys, p := Shards(inbox), I.PendingOf(inbox, key);
    var next := AfterBlock(inbox, p[..n], None, now);
    assert p[0] in p && p[0] in inbox;
    hide I.PendingOf, AfterBlock, Shards, I.UniqueIds;
    CallsStep(inbox, keys, limit, key);
    CallsStep(next, keys, limit, key);
    PendingLeft(inbox, key, n, None, now);
    forall k | k in keys - {key} ensures I.PendingOf(inbox, k) == I.PendingOf(next, k) {
      OthersLeft(inbox, key, n, None, now, k);
    }
    CallsFrame(inbox, next, keys - {key}, limit);
    assert |I.PendingOf(next, key)| == |p| - n;
  }

  ghost function CallsLeft(db: Db, limit: nat): nat
    requires limit > 0
  {
    Calls(db.inbox, Shards(db.inbox), limit)
  }

  lemma {:induction false} DrainStep(db: Db, limit: nat, now: int)
    requires InboxInv(db) && db.clock <= now && AllReady(db.inbox, now) && 1 <= limit
    ensures var r := ApplyNext(db, {}, limit, now);
            && !r.failed
            && (Empty(db.inbox) ==> r.processed == 0)
            && (!Empty(db.inbox) ==> r.processed > 0)
            && (!Empty(db.inbox) ==> CallsLeft(r.db, limit) + 1 == CallsLeft(db, limit))
            && AllReady(r.db.inbox, now)
  {
    if !Empty(db.inbox) {
      WorkIsFound(db.inbox, db.stock.heads, now);
    }
    if I.PickShard(db.inbox, db.stock.heads, {}, now).Some? {
      var key, n, failed := PickedEffect(db, {}, limit, now);
      var p := I.PendingOf(db.inbox, key);
      assert p[0] in p;
      forall i | 0 <= i < |p| ensures p[i].readable {
        assert p[i] in p;
      }
      BlockSavesACall(db.inbox, key, n, limit, now);
      BlockKeepsReady(db.inbox, p[..n], now);
    }
  }

  lemma {:induction false} WorkIsFound(inbox: seq<I.Row>, heads: map<ShardKey, I.Head>, now: int)
    requires I.HeadsAgree(inbox, heads) && AllReady(inbox, now) && !Empty(inbox)
    ensures I.PickShard(inbox, heads, {}, now).Some?
  {
    var i :| 0 <= i < |inbox| && I.Unapplied(inbox[i]);
    var p := I.PendingOf(inbox, inbox[i].key);
    assert inbox[i] in p && p[0] in p && I.HeadAgrees(inbox, heads, inbox[i].key);
    var h :| 0 <= h < |inbox| && inbox[h] == p[0];
    assert I.AvailableHead(heads, inbox[h], {}, now);
  }

  /** Clock readings of successive calls. */
  predicate Times(clock: int, times: seq<int>)
    decreases times
  {
    times == [] || (clock <= times[0] && Times(times[0], times[1..]))
  }

  ghost predicate Productive(db: Db, limit: nat, times: seq<int>)
    decreases times
  {
    times == [] ||
    (ApplyNext(db, {}, limit, times[0]).processed > 0
     && Productive(ApplyNext(db, {}, limit, times[0]).db, limit, times[1..]))
  }

  function Calling(limit: nat, times: seq<int>): seq<Step> {
    if times == [] then [] else [ApplyShard({}, limit, times[0])] + Calling(limit, times[1..])
  }

  lemma {:induction false} ReadyLater(inbox: seq<I.Row>, clock: int, now: int)
    requires AllReady(inbox, clock) && clock <= now
    ensures AllReady(inbox, now)
  {}

  lemma {:induction false} NoCallsLeft(db: Db, limit: nat)
    requires limit >= 1
    ensures CallsLeft(db, limit) == 0 <==> Empty(db.inbox)
  {
    NoCallsMeansEmpty(db.inbox, limit);
  }

  /** With nothing new arriving and every pending event available and decodable, exactly the sum over shards of
      ceil(pending / limit) calls are productive, and they empty the inbox. */
  lemma {:induction false} DrainBound(db: Db, limit: nat, times: seq<int>)
    requires InboxInv(db) && 1 <= limit <= 64 && AllReady(db.inbox, db.clock)
    requires Times(db.clock, times) && |times| == CallsLeft(db, limit)
    ensures Productive(db, limit, times)
    ensures Empty(Run(db, Calling(limit, times)).inbox)
    decreases times
  {
    hide InboxInv, AllReady, Empty, ApplyNext, CallsLeft;
    NoCallsLeft(db, limit);
    if times != [] {
      var now := times[0];
      var next := ApplyNext(db, {}, limit, now).db;
      ReadyLater(db.inbox, db.clock, now);
      DrainStep(db, limit, now);
      AfterStep(db, limit, now);
      DrainBound(next, limit, times[1..]);
      CallingStep(db, limit, times);
    }
  }

  lemma {:induction false} AfterStep(db: Db, limit: nat, now: int)
    requires InboxInv(db) && db.clock <= now && 1 <= limit
    ensures ApplyNext(db, {}, limit, now).db.clock == now && InboxInv(ApplyNext(db, {}, limit, now).db)
  {
    ApplyKeepsInv(db, {}, limit, now);
  }

  lemma {:induction false} CallingStep(db: Db, limit: nat, times: seq<int>)
    requires times != [] && db.clock <= times[0] && 1 <= limit <= 64
    ensures Run(db, Calling(limit, times)) == Run(ApplyNext(db, {}, limit, times[0]).db, Calling(limit, times[1..]))
  {
    assert Calling(limit, times)[0] == ApplyShard({}, limit, times[0]);
    assert Calling(limit, times)[1..] == Calling(limit, times[1..]);
  }

  /** Once drained, whatever is locked and whenever it is called, a worker finds nothing. */
  lemma {:induction false} DrainedStaysIdle(db: Db, locked: set<ShardKey>, limit: nat, now: int)
    requires Empty(db.inbox)
    ensures ApplyNext(db, locked, limit, now) == BlockResult(db.(clock := now), 0, false)
  {}
}

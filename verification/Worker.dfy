/** The worker's loop over the inbox: apply a block, again at once while there was something to apply. */
module Worker {
  import opened Model
  import opened Pipeline
  import opened Drain
  import Store
  import I = Inbox
  import R = InboxRuns

  const APPLY_SHARD_SIZE := 8

  /** What wakes the loop up; failed says that the operation could not be carried out at all. */
  datatype Turn =
    | Cleaning(failed: bool, at: int)
    | Recovering(failed: bool, busy: set<ResourceId>, at: int)
    | Applying(failed: bool, locked: set<ShardKey>, at: int)

  datatype Retention = Retention(events: nat, tombstones: nat, history: nat)

  /** When the loop wants to apply the next block: at once, after an error, or after finding nothing. */
  datatype Delay = AtOnce | AfterRetry | AfterIdle

  function StepOf(turn: Turn, keep: Retention): Step {
    if turn.failed then Step.Failed
    else
      match turn
      case Cleaning(_, at) => Step.Cleanup(keep.events, keep.tombstones, keep.history, at)
      case Recovering(_, busy, at) => Step.ResolveEvents(busy, at)
      case Applying(_, locked, at) => Step.ApplyShard(locked, APPLY_SHARD_SIZE, at)
  }

  function StepsOf(turns: seq<Turn>, keep: Retention): seq<Step> {
    if turns == [] then [] else StepsOf(turns[..|turns| - 1], keep) + [StepOf(turns[|turns| - 1], keep)]
  }

  /** The loop goes on at once exactly when the block made progress, waits after an error without progress, and rests
      only when there was nothing to do. */
  ghost predicate Paced(db: Db, turn: Turn, delay: Delay)
    requires turn.Applying?
  {
    var progress := !turn.failed && ApplyNext(db, turn.locked, APPLY_SHARD_SIZE, turn.at).processed > 0;
    && (delay.AtOnce? <==> progress)
    && (delay.AfterIdle? <==> !turn.failed && I.PickShard(db.inbox, db.stock.heads, turn.locked, turn.at).None?)
  }

  lemma {:induction false} NothingPicked(db: Db, locked: set<ShardKey>, now: int)
    requires InboxInv(db) && db.clock <= now
    ensures var r := ApplyNext(db, locked, APPLY_SHARD_SIZE, now);
            I.PickShard(db.inbox, db.stock.heads, locked, now).None? <==> r.processed == 0 && !r.failed
  {
    if I.PickShard(db.inbox, db.stock.heads, locked, now).Some? {
      var key, n, failed := R.PickedEffect(db, locked, APPLY_SHARD_SIZE, now);
    }
  }

  ghost predicate Timely(turns: seq<Turn>, clock: int) {
    && (forall i :: 0 <= i < |turns| ==> clock <= turns[i].at)
    && forall i, j :: 0 <= i < j < |turns| ==> turns[i].at <= turns[j].at
  }

  lemma {:induction false} OneMoreTurn(db: Db, turns: seq<Turn>, i: nat, keep: Retention)
    requires i < |turns|
    ensures Run(db, StepsOf(turns[..i + 1], keep)) == Next(Run(db, StepsOf(turns[..i], keep)), StepOf(turns[i], keep))
  {
    assert turns[..i + 1][..i] == turns[..i];
    var step, before := StepOf(turns[i], keep), Run(db, StepsOf(turns[..i], keep));
    RunAppend(db, StepsOf(turns[..i], keep), [step]);
    assert Run(Next(before, step), []) == Next(before, step);
  }

  /** The last block was applied without an error. */
  ghost predicate WorkedLast(db: Db, turns: seq<Turn>, keep: Retention) {
    turns != [] &&
    var front, turn := turns[..|turns| - 1], turns[|turns| - 1];
    if turn.Applying?
    then !turn.failed && !ApplyNext(Run(db, StepsOf(front, keep)), turn.locked, APPLY_SHARD_SIZE, turn.at).failed
    else WorkedLast(db, front, keep)
  }

  lemma {:induction false} WorkedSnoc(db: Db, turns: seq<Turn>, i: nat, keep: Retention)
    requires i < |turns|
    ensures WorkedLast(db, turns[..i + 1], keep) <==>
            if turns[i].Applying?
            then !turns[i].failed
              && !ApplyNext(Run(db, StepsOf(turns[..i], keep)), turns[i].locked, APPLY_SHARD_SIZE, turns[i].at).failed
            else WorkedLast(db, turns[..i], keep)
  {
    assert turns[..i + 1][..i] == turns[..i];
  }

  /** The whole loop, its three tickers firing in any order, with failing operations: a run of the pipeline, paced by
      what each block achieved, and ready exactly if the last block was applied without an error. */
  method Loop(store: Store.Store, turns: seq<Turn>, keep: Retention) returns (delays: seq<Delay>, ready: bool)
    requires store.Valid() && Timely(turns, store.clock)
    modifies store
    ensures store.Valid() && store.Db() == Run(old(store.Db()), StepsOf(turns, keep))
    ensures |delays| == |turns|
    ensures forall i :: 0 <= i < |turns| && turns[i].Applying? ==>
              Paced(Run(old(store.Db()), StepsOf(turns[..i], keep)), turns[i], delays[i])
    ensures ready <==> WorkedLast(old(store.Db()), turns, keep)
  {
    hide Next, Run, StepsOf, Paced, WorkedLast, ApplyNext, Store.Sound, Recover, Retain;
    ghost var first := store.Db();
    delays, ready := [], false;
    NoTurns(first, turns, keep);
    for i := 0 to |turns|
      invariant store.Valid() && store.Db() == Run(first, StepsOf(turns[..i], keep))
      invariant |delays| == i && forall j :: i <= j < |turns| ==> store.clock <= turns[j].at
      invariant forall j :: 0 <= j < i && turns[j].Applying? ==>
                    Paced(Run(first, StepsOf(turns[..j], keep)), turns[j], delays[j])
      invariant ready <==> WorkedLast(first, turns[..i], keep)
    {
      ghost var before := store.Db();
      OneMoreTurn(first, turns, i, keep);
      WorkedSnoc(first, turns, i, keep);
      TurnStep(before, turns[i], keep);
      var delay := AfterIdle;
      match turns[i] {
        case Cleaning(failed, at) =>
          if !failed {
            store.Cleanup(keep.events, keep.tombstones, keep.history, at);
          }
        case Recovering(failed, busy, at) =>
          if !failed {
            store.ResolveEvents(busy, at);
          }
        case Applying(failed, locked, at) =>
          var processed, error := 0, true;
          if !failed {
            processed, error := store.ApplyShard(locked, APPLY_SHARD_SIZE, at);
          }
          ready := !error;
          delay := if processed > 0 then AtOnce else if error then AfterRetry else AfterIdle;
          TurnPaced(before, turns[i], processed, error, delay);
      }
      delays := delays + [delay];
    }
    assert turns[..|turns|] == turns;
  }

  lemma {:induction false} NoTurns(db: Db, turns: seq<Turn>, keep: Retention)
    ensures Run(db, StepsOf(turns[..0], keep)) == db && !WorkedLast(db, turns[..0], keep)
  {}

  lemma {:induction false} TurnStep(db: Db, turn: Turn, keep: Retention)
    requires db.clock <= turn.at
    ensures turn.failed ==> Next(db, StepOf(turn, keep)) == db
    ensures !turn.failed && turn.Cleaning? ==>
              Next(db, StepOf(turn, keep))
                == Retain(db, turn.at - keep.events, turn.at - keep.tombstones, turn.at - keep.history, turn.at)
    ensures !turn.failed && turn.Recovering? ==> Next(db, StepOf(turn, keep)) == Recover(db, turn.busy, turn.at)
    ensures !turn.failed && turn.Applying? ==>
              Next(db, StepOf(turn, keep)) == ApplyNext(db, turn.locked, APPLY_SHARD_SIZE, turn.at).db
    ensures Next(db, StepOf(turn, keep)).clock <= turn.at
  {
    hide Retain, Recover, ApplyNext;
    ClockAfter(db, turn, keep);
  }

  lemma {:induction false} ClockAfter(db: Db, turn: Turn, keep: Retention)
    requires db.clock <= turn.at
    ensures Next(db, StepOf(turn, keep)).clock <= turn.at
  {}

  lemma {:induction false} TurnPaced(db: Db, turn: Turn, processed: nat, error: bool, delay: Delay)
    requires Store.Sound(db) && db.clock <= turn.at && turn.Applying?
    requires if turn.failed then processed == 0 && error
             else var r := ApplyNext(db, turn.locked, APPLY_SHARD_SIZE, turn.at);
                  processed == r.processed && error == r.failed
    requires delay == if processed > 0 then AtOnce else if error then AfterRetry else AfterIdle
    ensures Paced(db, turn, delay)
  {
    Store.SoundInbox(db);
    hide ApplyNext, InboxInv, I.PickShard;
    NothingPicked(db, turn.locked, turn.at);
  }

  ghost predicate NonDecreasing(times: seq<int>) {
    forall i, j :: 0 <= i < j < |times| ==> times[i] <= times[j]
  }

  /** With only available and decodable events left, the loop makes the promised number of productive calls and
      stops at the first call that finds nothing, with an empty inbox. */
  method ApplyUntilIdle(store: Store.Store, times: seq<int>) returns (calls: nat)
    requires store.Valid() && AllReady(store.inbox, store.clock)
    requires NonDecreasing(times) && |times| > CallsLeft(store.Db(), APPLY_SHARD_SIZE) && store.clock <= times[0]
    modifies store
    ensures store.Valid() && Empty(store.inbox)
    ensures calls == CallsLeft(old(store.Db()), APPLY_SHARD_SIZE)
  {
    hide Empty, ApplyNext, Store.Sound, InboxInv;
    calls := 0;
    var idle := false;
    while !idle
      invariant store.Valid() && AllReady(store.inbox, store.clock)
      invariant idle ==> Empty(store.inbox)
      invariant calls + CallsLeft(store.Db(), APPLY_SHARD_SIZE) == old(CallsLeft(store.Db(), APPLY_SHARD_SIZE))
      invariant calls < |times| && store.clock <= times[calls]
      decreases CallsLeft(store.Db(), APPLY_SHARD_SIZE), !idle
    {
      ghost var before := store.Db();
      Store.SoundInbox(before);
      DrainStep(before, APPLY_SHARD_SIZE, times[calls]);
      AfterStep(before, APPLY_SHARD_SIZE, times[calls]);
      var processed, failed := store.ApplyShard({}, APPLY_SHARD_SIZE, times[calls]);
      if processed > 0 {
        calls := calls + 1;
      } else {
        DrainedStaysIdle(before, {}, APPLY_SHARD_SIZE, times[calls]);
        idle := true;
      }
    }
    NoCallsMeansEmpty(store.inbox, APPLY_SHARD_SIZE);
  }
}

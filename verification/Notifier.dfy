/** The notifier's loop over the outbox: claim a row, send it, acknowledge it or release it for a retry. */
module Notifier {
  import opened Model
  import opened Pipeline
  import O = Outbox
  import Inventory
  import Store

  /** What happens to a claimed row: lost on the way, taken by the receiver but reported as an error, or taken. */
  datatype Outcome = Lost | TakenButFailed | Taken

  /** What happens to the release of a row that was not delivered: it may fail, and after a cancellation the loop
      returns without it. */
  datatype Aftermath = Released | ReleaseFails | Cancelled

  /** The row was taken by the receiver and stays acknowledged, or it is free for a retry. */
  ghost predicate Settled(db: Db, note: nat, identity: string, delivered: bool) {
    && note < |db.stock.outbox| && !O.Holds(db.stock.outbox, note, identity)
    && (delivered ==> db.stock.outbox[note].deliveredAt.Some? && note in db.received)
  }

  /** The claim is still there, and the row is claimable again as soon as the lease has passed. */
  ghost predicate LeftToExpire(db: Db, note: nat, identity: string, claimed: int) {
    && O.Holds(db.stock.outbox, note, identity)
    && db.stock.outbox[note].claim.value.until == claimed + O.CLAIM_MICROS
    && forall at :: at > claimed + O.CLAIM_MICROS ==> O.Claimable(db.stock.outbox, note, {}, at)
  }

  /** The claimed row after a round: acknowledged if the receiver took it and said so, otherwise due again after the
      wait
      of its attempts, or still leased for thirty seconds from the claim when it could not be released. */
  function RowAfter(row: Inventory.OutRow, identity: string, outcome: Outcome, after: Aftermath, claimed: int,
                    finished: int): Inventory.OutRow {
    var tried := row.(attempts := row.attempts + 1);
    if outcome.Taken? then tried.(deliveredAt := Some(finished), claim := None)
    else if after.Released?
    then tried.(availableAt := finished + O.RetrySeconds(tried.attempts) * 1_000_000, claim := None)
    else tried.(claim := Some(Inventory.Claim(identity, claimed + 30_000_000)))
  }

  /** Nothing but the row, the receipt and the clock has changed. */
  function DbAfter(db: Db, note: nat, identity: string, outcome: Outcome, after: Aftermath, claimed: int,
                   finished: int): Db
    requires note < |db.stock.outbox|
  {
    var row := RowAfter(db.stock.outbox[note], identity, outcome, after, claimed, finished);
    db.(clock := if outcome.Taken? || after.Released? then finished else claimed,
        received := if outcome.Lost? then db.received else O.Receive(db.received, note),
        stock := db.stock.(outbox := db.stock.outbox[note := row]))
  }

  /** One round at these times; the rows in `taken` are locked by other notifiers. The round is a run of steps of
      the pipeline. It leaves its own claim behind exactly when a failed send is not followed by a release. */
  method Round(store: Store.Store, identity: string, taken: set<nat>, outcome: Outcome, after: Aftermath, claimed: int,
               finished: int)
    returns (note: Option<nat>, delivered: bool, ghost steps: seq<Step>)
    requires store.Valid() && store.clock <= claimed <= finished
    modifies store
    ensures store.Valid() && store.Db() == Run(old(store.Db()), steps)
    ensures note == O.NextClaim(old(store.outbox), 0, taken, claimed)
    ensures delivered <==> note.Some? && outcome.Taken?
    ensures note.Some? && (delivered || after.Released?) ==> Settled(store.Db(), note.value, identity, delivered)
    ensures note.Some? && !delivered && !after.Released? ==> LeftToExpire(store.Db(), note.value, identity, claimed)
    // exactly this row and this receipt
    ensures note.None? ==> store.Db() == old(store.Db()).(clock := claimed)
    ensures note.Some? ==>
              store.Db() == DbAfter(old(store.Db()), note.value, identity, outcome, after, claimed, finished)
  {
    hide Next, Store.Sound, O.NextClaim, O.Claimable, LeftToExpire;
    ghost var first := store.Db();
    note := store.Claim(identity, taken, claimed);
    steps := [Step.Claim(identity, taken, claimed)];
    OneStep(first, steps[0]);
    delivered := false;
    NothingClaimed(first, identity, taken, claimed);
    if note.None? {
      return;
    }
    ClaimedRow(first, identity, taken, claimed, note.value);
    ghost var second := store.Db();
    ClaimHeld(first, identity, taken, claimed, note.value);
    if !outcome.Lost? {
      store.Receive(note.value);
      steps := steps + [Step.Send(note.value)];
      RunAppend(first, [Step.Claim(identity, taken, claimed)], [Step.Send(note.value)]);
      OneStep(second, Step.Send(note.value));
      ReceiptKeepsLease(second, note.value, identity, claimed);
    }
    RoundEnds(first, note.value, identity, outcome, after, claimed, finished);
    ghost var sent, done := store.Db(), steps;
    if outcome.Taken? {
      delivered := store.Delivered(note.value, identity, finished);
      steps := steps + [Step.Acknowledge(note.value, identity, finished)];
      Acknowledged(sent, note.value, identity, finished);
      RunAppend(first, done, [Step.Acknowledge(note.value, identity, finished)]);
      OneStep(sent, Step.Acknowledge(note.value, identity, finished));
    } else if after.Released? {
      store.Retry(note.value, identity, finished);
      steps := steps + [Step.Retry(note.value, identity, finished)];
      ReleasedRow(sent, note.value, identity, finished);
      RunAppend(first, done, [Step.Retry(note.value, identity, finished)]);
      OneStep(sent, Step.Retry(note.value, identity, finished));
    }
  }

  lemma {:induction false} OneStep(db: Db, step: Step)
    ensures Run(db, [step]) == Next(db, step)
  {
    assert Run(Next(db, step), []) == Next(db, step);
  }

  lemma {:induction false} NothingClaimed(db: Db, identity: string, taken: set<nat>, now: int)
    requires db.clock <= now
    ensures O.NextClaim(db.stock.outbox, 0, taken, now).None? ==>
              Next(db, Step.Claim(identity, taken, now)) == db.(clock := now)
  {}

  function Leased(db: Db, note: nat, identity: string, claimed: int): Db
    requires note < |db.stock.outbox|
  {
    var row := db.stock.outbox[note];
    db.(clock := claimed,
        stock := db.stock.(outbox := db.stock.outbox[note := row.(attempts := row.attempts + 1,
                           claim := Some(Inventory.Claim(identity, claimed + 30_000_000)))]))
  }

  lemma {:induction false} ClaimedRow(db: Db, identity: string, taken: set<nat>, now: int, note: nat)
    requires db.clock <= now && O.NextClaim(db.stock.outbox, 0, taken, now) == Some(note)
    ensures note < |db.stock.outbox| && O.Waiting(db.stock.outbox[note])
    ensures Next(db, Step.Claim(identity, taken, now)) == Leased(db, note, identity, now)
  {}

  /** From the leased row on, with or without a receipt. */
  lemma {:induction false} RoundEnds(db: Db, note: nat, identity: string, outcome: Outcome, after: Aftermath,
                                     claimed: int, finished: int)
    requires note < |db.stock.outbox| && O.Waiting(db.stock.outbox[note]) && claimed <= finished
    ensures var leased := Leased(db, note, identity, claimed);
            var sent := if outcome.Lost? then leased else Next(leased, Step.Send(note));
            DbAfter(db, note, identity, outcome, after, claimed, finished)
              == if outcome.Taken? then Next(sent, Step.Acknowledge(note, identity, finished))
                 else if after.Released? then Next(sent, Step.Retry(note, identity, finished)) else sent
  {
    hide O.RetrySeconds;
    var leased := Leased(db, note, identity, claimed);
    var sent := if outcome.Lost? then leased else Next(leased, Step.Send(note));
    assert O.Holds(sent.stock.outbox, note, identity);
    assert outcome.Taken? ==> note in sent.received;
  }

  lemma {:induction false} ClaimHeld(db: Db, identity: string, taken: set<nat>, now: int, note: nat)
    requires db.clock <= now && O.NextClaim(db.stock.outbox, 0, taken, now) == Some(note)
    ensures var next := Next(db, Step.Claim(identity, taken, now));
            && O.Holds(next.stock.outbox, note, identity) && next.stock.outbox[note].attempts > 0 && next.clock == now
            && LeftToExpire(next, note, identity, now)
  {}

  lemma {:induction false} ReceiptKeepsLease(db: Db, note: nat, identity: string, claimed: int)
    requires LeftToExpire(db, note, identity, claimed)
    ensures LeftToExpire(Next(db, Step.Send(note)), note, identity, claimed)
    ensures O.Holds(Next(db, Step.Send(note)).stock.outbox, note, identity)
  {}

  lemma {:induction false} Acknowledged(db: Db, note: nat, identity: string, now: int)
    requires O.Holds(db.stock.outbox, note, identity) && note in db.received && db.clock <= now
    ensures Settled(Next(db, Step.Acknowledge(note, identity, now)), note, identity, true)
  {}

  lemma {:induction false} ReleasedRow(db: Db, note: nat, identity: string, now: int)
    requires O.Holds(db.stock.outbox, note, identity) && db.clock <= now
    ensures Settled(Next(db, Step.Retry(note, identity, now)), note, identity, false)
  {}
}

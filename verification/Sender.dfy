/** The collector's sender: direct delivery first, otherwise a spool directory that outlives the process.
    Every method runs the steps of the Delivery machine, which the ghost trace records; the machine in turn covers
    the interleavings with the threads of other shards. What the network and the filesystem do is a parameter. */
module Sender {
  import opened Model
  import opened SpoolDirectory
  import Seqs
  import D = Delivery
  import Space = SpoolSpace
  import Split = Splitter

  /** A full disk or quota, or any other error. */
  datatype Fault = NoSpace | OtherFault

  datatype Probe = Free(space: Space.DiskSpace) | ProbeFails(fault: Fault)

  /** What the filesystem does when a batch is spooled; tempStays when the temporary file cannot be removed again. */
  datatype SpoolTry = SpoolTry(mkdir: Option<Fault>, probe: Probe, open: Option<Fault>, write: Option<Fault>,
                               tempStays: bool)

  /** What happens to one file of a replay. */
  datatype FileTry = ReadFails | Posted(outcome: D.Outcome) | RemoveFails

  datatype ReplayTry = ReplayTry(listed: bool, files: nat -> FileTry)

  /** One round of waiting for spool space. */
  datatype Round = Round(spool: SpoolTry, replay: ReplayTry, post: D.Outcome)

  /** One chunk's delivery: the context is cancelled when the rounds are used up. */
  datatype Attempt = Attempt(replay: ReplayTry, post: D.Outcome, rounds: seq<Round>)

  datatype SendResult = Sent | Interrupted | Refused(reason: Split.SplitResult)

  datatype SpoolResult = Stored | SpoolFull | SpoolFailed

  function Failure(fault: Fault): SpoolResult {
    if fault.NoSpace? then SpoolFull else SpoolFailed
  }

  predicate Hits(try: SpoolTry, fault: Fault) {
    try.mkdir == Some(fault) || try.probe == ProbeFails(fault) || try.open == Some(fault) || try.write == Some(fault)
  }

  /** Nothing is in the way of storing a batch of this size on top of what is stored. */
  predicate Roomy(try: SpoolTry, stored: int, size: nat, maxBytes: int)
    requires size < Space.WORD / 2
  {
    && stored + size <= maxBytes && try.mkdir.None? && try.open.None? && try.write.None?
    && try.probe.Free? && Space.LeavesReserve(try.probe.space, size as Space.uint64)
  }

  /** A file that the API took but that stays in the spool. */
  predicate Repeats(try: ReplayTry, files: seq<Entry>, n: nat) {
    n < |files| && files[n].batch.Some? && (try.files(n).RemoveFails? || try.files(n) == Posted(D.AckLost))
  }

  /** What ends a replay before the spool is empty. */
  predicate Stops(try: ReplayTry, files: seq<Entry>, n: nat) {
    n < |files| ==> !try.listed || files[n].batch.None? || try.files(n) != Posted(D.Acknowledged)
  }

  /** A file that the API acknowledges and that is removed. */
  predicate Passes(try: ReplayTry, files: seq<Entry>, n: nat)
    requires n < |files|
  {
    try.listed && files[n].batch.Some? && try.files(n) == Posted(D.Acknowledged)
  }

  /** How many files a replay takes out of the spool: the first that does not pass ends it. */
  function Replayed(try: ReplayTry, files: seq<Entry>, i: nat): (n: nat)
    requires i <= |files|
    ensures i <= n <= |files| && Stops(try, files, n)
    ensures forall k :: i <= k < n ==> Passes(try, files, k)
    decreases |files| - i
  {
    if i == |files| || !Passes(try, files, i) then i else Replayed(try, files, i + 1)
  }

  predicate Empties(try: ReplayTry, files: seq<Entry>) {
    try.listed && forall k :: 0 <= k < |files| ==> Passes(try, files, k)
  }

  lemma {:induction false} ReplayedIs(try: ReplayTry, files: seq<Entry>, i: nat, n: nat)
    requires i <= n <= |files| && (forall k :: i <= k < n ==> Passes(try, files, k))
    requires n < |files| ==> !Passes(try, files, n)
    ensures Replayed(try, files, i) == n
    decreases n - i
  {
    if i < n {
      ReplayedIs(try, files, i + 1, n);
    }
  }

  lemma {:induction false} EmptiesMeans(try: ReplayTry, files: seq<Entry>)
    ensures Empties(try, files) <==> try.listed && Replayed(try, files, 0) == |files|
  {
    if Empties(try, files) {
      ReplayedIs(try, files, 0, |files|);
    }
  }

  /* ---------- what becomes of a chunk ---------- */

  /** Obstacles are met in this order. */
  function SpoolOutcome(try: SpoolTry, stored: int, size: nat, maxBytes: int): (r: SpoolResult)
    requires size < Space.WORD / 2
    ensures r.Stored? <==> Roomy(try, stored, size, maxBytes)
    ensures r.SpoolFailed? ==> Hits(try, OtherFault)
    ensures r.SpoolFull? ==> || stored + size > maxBytes || Hits(try, NoSpace)
                             || (try.probe.Free? && !Space.LeavesReserve(try.probe.space, size as Space.uint64))
  {
    if try.mkdir.Some? then Failure(try.mkdir.value)
    else if stored + size > maxBytes then SpoolFull
    else if try.probe.ProbeFails? then Failure(try.probe.fault)
    else if !Space.LeavesReserve(try.probe.space, size as Space.uint64) then SpoolFull
    else if try.open.Some? then Failure(try.open.value)
    else if try.write.Some? then Failure(try.write.value)
    else Stored
  }

  /** How waiting for spool space ends: with the chunk in the spool, with the chunk delivered, with an error that is
      not about space, or with the cancellation after the last round. */
  datatype Ending = Kept | Delivered | Broken | Cancelled

  function Waiting(rounds: seq<Round>, files: seq<Entry>, size: nat, maxBytes: int): Ending
    requires size < Space.WORD / 2
    decreases rounds
  {
    if rounds == [] then Cancelled
    else
      match SpoolOutcome(rounds[0].spool, Bytes(files), size, maxBytes)
      case Stored => Kept
      case SpoolFailed => Broken
      case SpoolFull =>
        if Empties(rounds[0].replay, files) && rounds[0].post.Acknowledged? then Delivered
        else Waiting(rounds[1..], files[Replayed(rounds[0].replay, files, 0)..], size, maxBytes)
  }

  /** The replay of the spool and the post that follow a chunk's arrival succeed. */
  predicate Direct(attempt: Attempt, files: seq<Entry>) {
    Empties(attempt.replay, files) && attempt.post.Acknowledged?
  }

  /** The chunk reaches the API or the spool. */
  predicate Succeeds(attempt: Attempt, files: seq<Entry>, size: nat, maxBytes: int)
    requires size < Space.WORD / 2
  {
    || Direct(attempt, files)
    || Waiting(attempt.rounds, files[Replayed(attempt.replay, files, 0)..], size, maxBytes).Kept?
    || Waiting(attempt.rounds, files[Replayed(attempt.replay, files, 0)..], size, maxBytes).Delivered?
  }

  /** Waiting is given up only when every round that has room on top of what is stored now comes after an error that is
      not about space. */
  ghost predicate GivesUp(rounds: seq<Round>, stored: int, size: nat, maxBytes: int)
    requires size < Space.WORD / 2
  {
    forall i :: 0 <= i < |rounds| && Roomy(rounds[i].spool, stored, size, maxBytes) ==>
      exists j :: 0 <= j < i && Hits(rounds[j].spool, OtherFault)
  }

  lemma {:induction false} LessStored(files: seq<Entry>, n: nat)
    requires n <= |files|
    ensures Bytes(files[n..]) <= Bytes(files)
  {
    if n == 0 {
      assert files[0..] == files;
    } else {
      LessStored(files[1..], n - 1);
      assert files[1..][n - 1..] == files[n..];
    }
  }

  lemma {:induction false} LessStoredIsRoomy(try: SpoolTry, less: int, stored: int, size: nat, maxBytes: int)
    requires size < Space.WORD / 2 && less <= stored && Roomy(try, stored, size, maxBytes)
    ensures Roomy(try, less, size, maxBytes)
  {}

  /** An ending without the chunk in the API or the spool is a giving up. */
  lemma {:induction false} LostOnlyByGivingUp(rounds: seq<Round>, files: seq<Entry>, stored: int, size: nat,
                                              maxBytes: int)
    requires size < Space.WORD / 2 && Bytes(files) <= stored
    requires Waiting(rounds, files, size, maxBytes).Broken? || Waiting(rounds, files, size, maxBytes).Cancelled?
    ensures GivesUp(rounds, stored, size, maxBytes)
    decreases rounds
  {
    hide Roomy, Hits, Bytes, Empties, SpoolOutcome;
    forall i | 0 <= i < |rounds| && Roomy(rounds[i].spool, stored, size, maxBytes)
      ensures exists j :: 0 <= j < i && Hits(rounds[j].spool, OtherFault)
    {
      LessStoredIsRoomy(rounds[i].spool, Bytes(files), stored, size, maxBytes);
      if SpoolOutcome(rounds[0].spool, Bytes(files), size, maxBytes).SpoolFailed? {
        assert i != 0 && Hits(rounds[0].spool, OtherFault);
      } else {
        var rest := files[Replayed(rounds[0].replay, files, 0)..];
        LessStored(files, Replayed(rounds[0].replay, files, 0));
        LostOnlyByGivingUp(rounds[1..], rest, stored, size, maxBytes);
        assert rounds[1..][i - 1] == rounds[i];
        var j :| 0 <= j < i - 1 && Hits(rounds[1..][j].spool, OtherFault);
        assert rounds[j + 1] == rounds[1..][j];
      }
    }
  }

  /** Everything listed, acknowledged and removed. */
  ghost predicate Smooth(replay: ReplayTry, post: D.Outcome) {
    replay.listed && post.Acknowledged? && forall n :: replay.files(n) == Posted(D.Acknowledged)
  }

  predicate Readable(files: seq<Entry>) {
    forall k :: 0 <= k < |files| ==> files[k].batch.Some?
  }

  /** Every round whose replay and post go smoothly comes after an error that is not about space, or with one. */
  ghost predicate NoWayOut(rounds: seq<Round>) {
    forall i :: 0 <= i < |rounds| && Smooth(rounds[i].replay, rounds[i].post) ==>
      exists j :: 0 <= j <= i && Hits(rounds[j].spool, OtherFault)
  }

  lemma {:induction false} OneMoreReadable(files: seq<Entry>, e: Entry)
    requires e.batch.Some?
    ensures Readable(files) ==> Readable(files + [e])
  {}

  lemma {:induction false} LaterReadable(files: seq<Entry>, n: nat)
    requires n <= |files|
    ensures Readable(files) ==> Readable(files[n..])
  {}

  lemma {:induction false} SmoothEmpties(replay: ReplayTry, post: D.Outcome, files: seq<Entry>)
    requires Smooth(replay, post) && Readable(files)
    ensures Empties(replay, files) && post.Acknowledged?
  {}

  lemma {:induction false} LostOnlyWithoutWayOut(rounds: seq<Round>, files: seq<Entry>, size: nat, maxBytes: int)
    requires size < Space.WORD / 2 && Readable(files)
    requires Waiting(rounds, files, size, maxBytes).Broken? || Waiting(rounds, files, size, maxBytes).Cancelled?
    ensures NoWayOut(rounds)
    decreases rounds
  {
    hide Hits, Bytes, Empties, SpoolOutcome, Smooth;
    forall i | 0 <= i < |rounds| && Smooth(rounds[i].replay, rounds[i].post)
      ensures exists j :: 0 <= j <= i && Hits(rounds[j].spool, OtherFault)
    {
      if SpoolOutcome(rounds[0].spool, Bytes(files), size, maxBytes).SpoolFailed? {
        assert Hits(rounds[0].spool, OtherFault);
      } else if i == 0 {
        SmoothEmpties(rounds[0].replay, rounds[0].post, files);
        assert false;
      } else {
        LostOnlyWithoutWayOut(rounds[1..], files[Replayed(rounds[0].replay, files, 0)..], size, maxBytes);
        assert rounds[1..][i - 1] == rounds[i];
        var j :| 0 <= j <= i - 1 && Hits(rounds[1..][j].spool, OtherFault);
        assert rounds[j + 1] == rounds[1..][j];
      }
    }
  }

  lemma {:induction false} GivesUpWithMore(rounds: seq<Round>, less: int, stored: int, size: nat, maxBytes: int)
    requires size < Space.WORD / 2 && less <= stored && GivesUp(rounds, less, size, maxBytes)
    ensures GivesUp(rounds, stored, size, maxBytes)
  {
    hide Roomy, Hits;
    forall i | 0 <= i < |rounds| && Roomy(rounds[i].spool, stored, size, maxBytes)
      ensures exists j :: 0 <= j < i && Hits(rounds[j].spool, OtherFault)
    {
      LessStoredIsRoomy(rounds[i].spool, less, stored, size, maxBytes);
    }
  }

  /** The chunk has just been taken by the API, with nothing left in the spool, or is the last file of the spool. */
  ghost predicate Secured(s: D.State, files: seq<Entry>, chunk: D.Chunk) {
    || (files == [] && s.accepted != [] && s.accepted[|s.accepted| - 1] == chunk)
    || (files != [] && files[|files| - 1].batch == Some(chunk.batch))
  }

  /** The events of a shard's chunks, in order. */
  function Contents(chunks: seq<D.Chunk>): seq<IngestEvent> {
    if chunks == [] then [] else Contents(chunks[..|chunks| - 1]) + chunks[|chunks| - 1].batch.events
  }

  /** Of all threads only this shard's moved. */
  ghost predicate OnlyShard(before: D.State, after: D.State, key: ShardKey) {
    forall k :: k != key ==> D.SentBy(after, k) == D.SentBy(before, k) && D.PhaseOf(after, k) == D.PhaseOf(before, k)
  }

  /** The shard's thread went on to this phase, with the same chunk in hand. */
  ghost predicate Moved(before: D.State, after: D.State, key: ShardKey, phase: Option<D.Phase>) {
    OnlyShard(before, after, key) && D.SentBy(after, key) == D.SentBy(before, key) && D.PhaseOf(after, key) == phase
  }

  /** The first n files were accepted and removed, in order, and the next one perhaps accepted but kept. */
  ghost predicate FifoReplay(before: D.State, after: D.State, n: nat, repeated: bool) {
    var taken := n + if repeated then 1 else 0;
    taken <= |before.files|
      && after == before.(files := before.files[n..], accepted := before.accepted + before.files[..taken])
  }

  lemma {:induction false} ReplayOneMore(before: D.State, s: D.State, n: nat)
    requires FifoReplay(before, s, n, false) && s.files != []
    ensures FifoReplay(before, D.Step(s, D.ReplayFirst(D.Acknowledged)), n + 1, false)
    ensures FifoReplay(before, D.Step(s, D.ReplayFirst(D.AckLost)), n, true)
    ensures D.Step(s, D.ReplayFirst(D.Rejected)) == s
  {
    assert before.files[..n + 1] == before.files[..n] + [s.files[0]];
  }

  /** A replay that leaves nothing has handed over all files, in order. */
  lemma {:induction false} AllReplayed(before: D.State, after: D.State, n: nat, repeated: bool)
    requires FifoReplay(before, after, n, repeated) && after.files == []
    ensures after.accepted == before.accepted + before.files && after.files == []
  {
    assert before.files[n..] == [];
    assert before.files[..|before.files|] == before.files;
  }

  lemma {:induction false} DoneAndPosted(s: D.State, key: ShardKey, post: D.Outcome)
    requires D.In(s, key, D.Replaying) && s.files == [] && post.Acknowledged?
    ensures var t := D.Step(D.Step(s, D.ReplayDone(key)), D.Post(key, post));
            t.accepted == s.accepted + [D.InHand(s, key)]
  {}

  lemma {:induction false} NotMoved(s: D.State, key: ShardKey)
    ensures Moved(s, s, key, D.PhaseOf(s, key))
  {}

  /** The thread still has its chunk in hand. */
  lemma {:induction false} StillHolds(before: D.State, s: D.State, key: ShardKey, phase: D.Phase)
    requires Moved(before, s, key, Some(phase)) && D.SentBy(before, key) != []
    ensures D.In(s, key, phase) && D.SentBy(s, key) != [] && D.InHand(s, key) == D.InHand(before, key)
  {}

  lemma {:induction false} MovedAgain(before: D.State, mid: D.State, after: D.State, key: ShardKey,
                                      was: Option<D.Phase>, phase: Option<D.Phase>)
    requires Moved(before, mid, key, was) && Moved(mid, after, key, phase)
    ensures Moved(before, after, key, phase)
  {}

  lemma {:induction false} StepMoves(s: D.State, key: ShardKey, outcome: D.Outcome)
    ensures D.In(s, key, D.Replaying) ==> Moved(s, D.Step(s, D.ReplayFailed(key)), key, Some(D.Blocked))
    ensures D.In(s, key, D.Replaying) && s.files == [] ==> Moved(s, D.Step(s, D.ReplayDone(key)), key, Some(D.Cleared))
    ensures D.In(s, key, D.Cleared) ==>
                Moved(s, D.Step(s, D.Post(key, outcome)), key, if outcome.Acknowledged? then None else Some(D.Blocked))
    ensures D.In(s, key, D.Blocked) ==> Moved(s, D.Step(s, D.Spool(key)), key, None)
    ensures D.In(s, key, D.Blocked) ==> Moved(s, D.Step(s, D.SpoolFull(key)), key, Some(D.Replaying))
  {}

  /** The thread went idle and dropped its chunk, unless the API already has it. */
  ghost predicate Dropped(before: D.State, after: D.State, key: ShardKey) {
    var sent := D.SentBy(before, key);
    && OnlyShard(before, after, key) && D.PhaseOf(after, key) == None && sent != []
    && (D.SentBy(after, key) == sent || D.SentBy(after, key) == sent[..|sent| - 1])
  }

  lemma {:induction false} AbandonDrops(before: D.State, s: D.State, key: ShardKey, phase: D.Phase)
    requires Moved(before, s, key, Some(phase)) && D.SentBy(s, key) != []
    ensures Dropped(before, D.Step(s, D.Abandon(key)), key)
  {}

  lemma {:induction false} RunSnoc(s: D.State, actions: seq<D.Action>, a: D.Action)
    ensures D.Run(s, actions + [a]) == D.Step(D.Run(s, actions), a)
    decreases actions
  {
    if actions == [] {
      assert [] + [a] == [a];
    } else {
      assert (actions + [a])[1..] == actions[1..] + [a];
      RunSnoc(D.Step(s, actions[0]), actions[1..], a);
    }
  }

  lemma {:induction false} FilesSnoc(entries: seq<Entry>, e: Entry)
    ensures SpoolFiles(entries + [e]) == if IsSpoolFile(e) then SpoolFiles(entries) + [e] else SpoolFiles(entries)
  {
    Seqs.FilterAppend(IsSpoolFile, entries, [e]);
  }

  /** A committed file: the directory, its size and the machine's files grow by the chunk in hand. */
  lemma {:induction false} FileStored(entries: seq<Entry>, file: Entry, clock: int, s: D.State, key: ShardKey)
    requires Listed(entries, clock) && file.name == clock && IsSpoolFile(file) && Holds(SpoolFiles(entries), s.files)
    requires D.In(s, key, D.Blocked) && file.batch == Some(D.InHand(s, key).batch)
    ensures Listed(entries + [file], clock + 1) && SpoolFiles(entries + [file]) == SpoolFiles(entries) + [file]
    ensures Bytes(SpoolFiles(entries + [file])) == Bytes(SpoolFiles(entries)) + file.size
    ensures Holds(SpoolFiles(entries + [file]), D.Step(s, D.Spool(key)).files)
  {
    AddEntry(entries, file, clock);
    FilesSnoc(entries, file);
    BytesAppend(SpoolFiles(entries), file);
    HoldsAppend(SpoolFiles(entries), s.files, file, D.InHand(s, key));
  }

  /** The thread is idle again. A completed chunk is the shard's next one; an interrupted one counts only if the API has
      it. */
  ghost predicate Settled(before: D.State, after: D.State, batch: IngestBatch, ok: bool) {
    var key, sent := batch.Key(), D.SentBy(before, batch.Key());
    var more := sent + [D.Chunk(|sent|, batch)];
    && OnlyShard(before, after, key) && D.PhaseOf(after, key) == None
    && (D.SentBy(after, key) == more || (!ok && D.SentBy(after, key) == sent))
  }

  lemma {:induction false} HandTakes(s: D.State, batch: IngestBatch)
    requires D.PhaseOf(s, batch.Key()) == None
    ensures var t := D.Step(s, D.Hand(batch));
            && OnlyShard(s, t, batch.Key()) && D.In(t, batch.Key(), D.Replaying) && t.files == s.files
            && t.accepted == s.accepted && D.InHand(t, batch.Key()) == D.Chunk(|D.SentBy(s, batch.Key())|, batch)
            && D.SentBy(t, batch.Key()) == D.SentBy(s, batch.Key()) + [D.Chunk(|D.SentBy(s, batch.Key())|, batch)]
  {}

  lemma {:induction false} Settles(before: D.State, hand: D.State, mid: D.State, after: D.State, batch: IngestBatch,
                                   ok: bool)
    requires hand == D.Step(before, D.Hand(batch)) && D.PhaseOf(before, batch.Key()) == None
    requires Moved(hand, mid, batch.Key(), D.PhaseOf(mid, batch.Key()))
    requires if ok then Moved(mid, after, batch.Key(), None) else Dropped(mid, after, batch.Key())
    ensures Settled(before, after, batch, ok)
  {
    HandTakes(before, batch);
  }

  /** What the shard has handed over grows by some of these events, by all of them if the sending succeeded. */
  ghost predicate Handed(before: D.State, after: D.State, key: ShardKey, events: seq<IngestEvent>, all: bool) {
    && OnlyShard(before, after, key) && D.PhaseOf(after, key) == None
    && Contents(D.SentBy(before, key)) <= Contents(D.SentBy(after, key)) <= Contents(D.SentBy(before, key)) + events
    && (all ==> Contents(D.SentBy(after, key)) == Contents(D.SentBy(before, key)) + events)
  }

  lemma {:induction false} ContentsSnoc(chunks: seq<D.Chunk>, c: D.Chunk)
    ensures Contents(chunks + [c]) == Contents(chunks) + c.batch.events
  {
    assert (chunks + [c])[..|chunks|] == chunks;
  }

  lemma {:induction false} NothingHanded(s: D.State, key: ShardKey)
    requires D.PhaseOf(s, key) == None
    ensures Handed(s, s, key, [], true) && D.PhaseOf(s, key) == None
  {}

  lemma {:induction false} HandedMore(before: D.State, mid: D.State, after: D.State, events: seq<IngestEvent>,
                                      batch: IngestBatch, ok: bool)
    requires Handed(before, mid, batch.Key(), events, true) && Settled(mid, after, batch, ok)
    ensures Handed(before, after, batch.Key(), events + batch.events, ok) && D.PhaseOf(after, batch.Key()) == None
  {
    var key := batch.Key();
    var was := Contents(D.SentBy(before, key));
    ContentsSnoc(D.SentBy(mid, key), D.Chunk(|D.SentBy(mid, key)|, batch));
    assert was + events + batch.events == was + (events + batch.events);
  }

  lemma {:induction false} HandedWithin(before: D.State, after: D.State, key: ShardKey, some: seq<IngestEvent>,
                                        rest: seq<IngestEvent>)
    requires Handed(before, after, key, some, false)
    ensures Handed(before, after, key, some + rest, false)
  {
    var was := Contents(D.SentBy(before, key));
    assert was + (some + rest) == was + some + rest;
  }

  lemma {:induction false} ConcatSplits(chunks: seq<IngestBatch>, i: nat)
    requires i < |chunks|
    ensures Split.Concat(chunks[..i + 1]) == Split.Concat(chunks[..i]) + chunks[i].events
    ensures Split.Concat(chunks) == Split.Concat(chunks[..i + 1]) + Split.Concat(chunks[i + 1..])
  {
    assert chunks[..i + 1] == chunks[..i] + [chunks[i]];
    Split.ConcatSnoc(chunks[..i], chunks[i]);
    ConcatParts(chunks, i + 1);
  }

  lemma {:induction false} ConcatParts(chunks: seq<IngestBatch>, n: nat)
    requires n <= |chunks|
    ensures Split.Concat(chunks) == Split.Concat(chunks[..n]) + Split.Concat(chunks[n..])
  {
    if n == 0 {
      assert chunks[..0] == [] && chunks[0..] == chunks;
    } else {
      ConcatParts(chunks[1..], n - 1);
      assert chunks[1..][..n - 1] == chunks[..n][1..] && chunks[1..][n - 1..] == chunks[n..];
    }
  }

  function SizeOf(chunks: seq<IngestBatch>, base: nat): nat {
    if chunks == [] then 0
         else SizeOf(chunks[..|chunks| - 1], base) + Split.EncodedSize(base, chunks[|chunks| - 1].events)
  }

  /** The i-th chunk of the batch was lost: its delivery did not go smoothly, nor did that of any round, or an
      unreadable
      file lay in the way; and no round had room for it on top of what was stored and the chunks before. Rounds after
      an error that is not about space do not count. */
  ghost predicate LostAt(chunks: seq<IngestBatch>, i: nat, batch: IngestBatch, base: nat, attempts: nat -> Attempt,
                         files: seq<Entry>, stored: int, maxBytes: int) {
    && i < |chunks| && Split.IsSplit(chunks, batch.events, base, Split.MAX_INGEST_BATCH_BYTES)
    && Split.Full(chunks, base, Split.MAX_INGEST_BATCH_BYTES)
    && (Readable(files) ==> !Smooth(attempts(i).replay, attempts(i).post) && NoWayOut(attempts(i).rounds))
    && Split.EncodedSize(base, chunks[i].events) < Space.WORD / 2
    && GivesUp(attempts(i).rounds, stored + SizeOf(chunks[..i], base), Split.EncodedSize(base, chunks[i].events),
               maxBytes)
  }

  lemma {:induction false} LostHere(chunks: seq<IngestBatch>, i: nat, batch: IngestBatch, base: nat,
                                    attempts: nat -> Attempt, files: seq<Entry>, stored: int, now: seq<Entry>,
                                    less: int, maxBytes: int)
    requires i < |chunks| && Split.IsSplit(chunks, batch.events, base, Split.MAX_INGEST_BATCH_BYTES)
    requires Split.Full(chunks, base, Split.MAX_INGEST_BATCH_BYTES)
    requires Split.EncodedSize(base, chunks[i].events) < Space.WORD / 2
    requires Readable(files) ==> Readable(now)
    requires !Direct(attempts(i), now) && less <= stored + SizeOf(chunks[..i], base)
    requires GivesUp(attempts(i).rounds, less, Split.EncodedSize(base, chunks[i].events), maxBytes)
    requires Readable(now) ==> NoWayOut(attempts(i).rounds)
    ensures LostAt(chunks, i, batch, base, attempts, files, stored, maxBytes)
  {
    hide GivesUp, Smooth, Readable, NoWayOut, SizeOf, Split.EncodedSize, Split.IsSplit, Split.Full, Empties;
    if Smooth(attempts(i).replay, attempts(i).post) && Readable(now) {
      SmoothEmpties(attempts(i).replay, attempts(i).post, now);
    }
    GivesUpWithMore(attempts(i).rounds, less, stored + SizeOf(chunks[..i], base),
                    Split.EncodedSize(base, chunks[i].events), maxBytes);
  }

  lemma {:induction false} NoChunks(base: nat)
    ensures SizeOf([], base) == 0 && Split.Concat([]) == []
  {}

  lemma {:induction false} WholeSplit(chunks: seq<IngestBatch>, batch: IngestBatch, base: nat)
    requires Split.IsSplit(chunks, batch.events, base, Split.MAX_INGEST_BATCH_BYTES)
    ensures Split.Concat(chunks) == batch.events
  {}

  lemma {:induction false} ChunkFits(chunks: seq<IngestBatch>, batch: IngestBatch, base: nat, i: nat)
    requires i < |chunks| && Split.IsSplit(chunks, batch.events, base, Split.MAX_INGEST_BATCH_BYTES)
    requires Split.SameOrigin(chunks, batch)
    ensures Split.EncodedSize(base, chunks[i].events) < Space.WORD / 2 && chunks[i].Key() == batch.Key()
  {}

  lemma {:induction false} SizeSnoc(chunks: seq<IngestBatch>, i: nat, base: nat)
    requires i < |chunks|
    ensures SizeOf(chunks[..i + 1], base) == SizeOf(chunks[..i], base) + Split.EncodedSize(base, chunks[i].events)
  {
    assert chunks[..i + 1][..i] == chunks[..i];
  }

  lemma {:induction false} NothingReplayed(s: D.State)
    ensures FifoReplay(s, s, 0, false)
  {}

  lemma {:induction false} ReplayKeepsPlace(before: D.State, after: D.State, n: nat, repeated: bool, key: ShardKey)
    requires FifoReplay(before, after, n, repeated)
    ensures Moved(before, after, key, D.PhaseOf(before, key))
  {}

  lemma {:induction false} FileKept(s: D.State, outcome: D.Outcome)
    requires !outcome.Acknowledged?
    ensures D.Step(s, D.ReplayFirst(outcome)).files == s.files
  {}

  lemma {:induction false} FileTaken(s: D.State)
    requires s.files != []
    ensures D.Step(s, D.ReplayFirst(D.Acknowledged)).files == s.files[1..]
  {}

  lemma {:induction false} FirstCounted(files: seq<Entry>)
    requires files != []
    ensures Bytes(files) == files[0].size + Bytes(files[1..])
  {}

  lemma {:induction false} FileOf(files: seq<Entry>, chunks: seq<D.Chunk>, c: D.Chunk)
    requires Holds(files, chunks) && c in chunks
    ensures exists e :: e in files && e.batch == Some(c.batch)
  {
    if files[0].batch.None? {
      FileOf(files[1..], chunks, c);
    } else if chunks[0] != c {
      assert c in chunks[1..];
      FileOf(files[1..], chunks[1..], c);
    }
  }

  lemma {:induction false} FirstHeld(files: seq<Entry>, chunks: seq<D.Chunk>)
    requires Holds(files, chunks)
    ensures files == [] ==> chunks == []
    ensures files != [] && files[0].batch.Some? ==> chunks != [] && Holds(files[1..], chunks[1..])
  {}

  class Sender {
    const maxBytes: int
    var dir: seq<Entry>
    var clock: int
    var spoolFiles: int
    var spoolBytes: int
    ghost var trace: seq<D.Action>
    ghost const found: int

    ghost function Machine(): D.State
      reads this`trace
    {
      D.Run(D.START, trace)
    }

    /** The counters are exact, and the spool never grew beyond its capacity. */
    ghost predicate Accounted()
      reads this`dir, this`spoolFiles, this`spoolBytes
    {
      && spoolFiles == |SpoolFiles(dir)| && spoolBytes == Bytes(SpoolFiles(dir))
      && (spoolBytes <= maxBytes || spoolBytes <= found)
    }

    ghost predicate Valid()
      reads this
    {
      && Accounted()
      && Listed(dir, clock)
      && Holds(SpoolFiles(dir), Machine().files)
    }

    /** A new process: what is left of the old one is the directory. */
    constructor (left: seq<Entry>, clock: int, maxBytes: int, ghost before: seq<D.Action>)
      requires Listed(left, clock) && Holds(SpoolFiles(left), D.Run(D.START, before).files)
      ensures Valid() && dir == left && this.maxBytes == maxBytes && trace == before + [D.Crash]
      ensures found == Bytes(SpoolFiles(left))
    {
      this.dir, this.clock, this.maxBytes := left, clock, maxBytes;
      trace := before + [D.Crash];
      found := Bytes(SpoolFiles(left));
      new;
      RunSnoc(D.START, before, D.Crash);
      spoolFiles, spoolBytes := SpoolUsage(left);
    }

    ghost method Act(a: D.Action)
      modifies this`trace
      ensures trace == old(trace) + [a] && Machine() == D.Step(old(Machine()), a)
      ensures !a.Spool? && !a.ReplayFirst? ==> Machine().files == old(Machine()).files
    {
      RunSnoc(D.START, trace, a);
      trace := trace + [a];
    }

    /** POST to the ingest API; without an acknowledgement the sender cannot tell whether the batch was taken. */
    method Post(batch: IngestBatch, outcome: D.Outcome) returns (ok: bool)
      requires Valid() && D.In(Machine(), batch.Key(), D.Cleared)
      modifies this`trace
      ensures Valid() && ok == outcome.Acknowledged?
      ensures trace == old(trace) + [D.Post(batch.Key(), outcome)]
      ensures Machine() == D.Step(old(Machine()), D.Post(batch.Key(), outcome))
    {
      Act(D.Post(batch.Key(), outcome));
      ok := outcome.Acknowledged?;
    }

    method Spool(batch: IngestBatch, size: nat, try: SpoolTry) returns (r: SpoolResult)
      requires Valid() && size < Space.WORD / 2
      requires D.In(Machine(), batch.Key(), D.Blocked) && D.InHand(Machine(), batch.Key()).batch == batch
      modifies this
      ensures Valid()
      ensures r == SpoolOutcome(try, old(spoolBytes), size, maxBytes)
      ensures r.Stored? <==> Roomy(try, old(spoolBytes), size, maxBytes)
      ensures r.SpoolFailed? ==> Hits(try, OtherFault)
      ensures r.SpoolFull? ==> || old(spoolBytes) + size > maxBytes || Hits(try, NoSpace)
                               || (try.probe.Free? && !Space.LeavesReserve(try.probe.space, size as Space.uint64))
      ensures r.Stored? ==>
                SpoolFiles(dir) == old(SpoolFiles(dir)) + [Entry(old(clock), false, false, true, size, Some(batch))]
      ensures r.Stored? ==> dir == old(dir) + [Entry(old(clock), false, false, true, size, Some(batch))]
                            && spoolBytes == old(spoolBytes) + size <= maxBytes
                              && Machine() == D.Step(old(Machine()), D.Spool(batch.Key()))
      ensures !r.Stored? ==> SpoolFiles(dir) == old(SpoolFiles(dir)) && spoolBytes == old(spoolBytes)
      ensures !r.Stored? ==>
                  dir == old(dir)
                    || (try.tempStays && dir == old(dir) + [Entry(old(clock), false, true, true, size, None)])
      ensures r.SpoolFull? ==> Machine() == D.Step(old(Machine()), D.SpoolFull(batch.Key()))
      ensures r.SpoolFailed? ==> Machine() == D.Step(old(Machine()), D.Abandon(batch.Key()))
    {
      hide Listed, Holds, SpoolFiles, Bytes, D.Step, D.Run, Space.CanWrite, Space.LeavesReserve;
      Space.SpoolWritesDoNotWrap(if try.probe.Free? then try.probe.space else Space.DiskSpace(0, 0, 0, 0), size);
      if try.mkdir.Some? {
        r := Failure(try.mkdir.value);
      } else if spoolBytes + size > maxBytes {
        r := SpoolFull;
      } else if try.probe.ProbeFails? {
        r := Failure(try.probe.fault);
      } else if !Space.CanWrite(try.probe.space, size as Space.uint64) {
        r := SpoolFull;
      } else if try.open.Some? {
        r := Failure(try.open.value);
      } else if try.write.Some? {
        if try.tempStays {
          var temporary := Entry(clock, false, true, true, size, None);
          AddEntry(dir, temporary, clock);
          FilesSnoc(dir, temporary);
          dir := dir + [temporary];
          clock := clock + 1;
        }
        r := Failure(try.write.value);
      } else {
        var file := Entry(clock, false, false, true, size, Some(batch));
        FileStored(dir, file, clock, Machine(), batch.Key());
        dir := dir + [file];
        clock := clock + 1;
        spoolFiles := spoolFiles + 1;
        spoolBytes := spoolBytes + size;
        Act(D.Spool(batch.Key()));
        return Stored;
      }
      Act(if r.SpoolFull? then D.SpoolFull(batch.Key()) else D.Abandon(batch.Key()));
    }

    method Replay(try: ReplayTry) returns (ok: bool)
      requires Valid()
      modifies `dir, `spoolFiles, `spoolBytes, `trace
      ensures Valid()
      ensures ok <==> Empties(try, old(SpoolFiles(dir)))
      ensures ok <==> try.listed && SpoolFiles(dir) == []
      ensures |SpoolFiles(dir)| <= |old(SpoolFiles(dir))|
      ensures var n := Replayed(try, old(SpoolFiles(dir)), 0);
              n == |old(SpoolFiles(dir))| - |SpoolFiles(dir)|
      ensures var n := |old(SpoolFiles(dir))| - |SpoolFiles(dir)|;
              && SpoolFiles(dir) == old(SpoolFiles(dir))[n..] && Others(dir) == old(Others(dir))
                && spoolBytes <= old(spoolBytes)
              && Stops(try, old(SpoolFiles(dir)), n)
              && FifoReplay(old(Machine()), Machine(), n, try.listed && Repeats(try, old(SpoolFiles(dir)), n))
    {
      hide Holds, Listed, SpoolFiles, Others, FifoReplay, D.Step, D.Run, Bytes;
      ghost var before, files := Machine(), SpoolFiles(dir);
      NothingReplayed(before);
      EmptiesMeans(try, files);
      if !try.listed {
        ReplayedIs(try, files, 0, 0);
        return false;
      }
      var names := SpoolFiles(dir);
      for i := 0 to |names|
        invariant Valid() && SpoolFiles(dir) == names[i..] && Others(dir) == old(Others(dir))
        invariant spoolBytes <= old(spoolBytes)
        invariant FifoReplay(before, Machine(), i, false)
        invariant forall k :: 0 <= k < i ==> Passes(try, files, k)
      {
        var file := names[i];
        if !Passes(try, files, i) {
          ReplayedIs(try, files, 0, i);
        }
        if try.files(i).ReadFails? || file.batch.None? {
          return false;
        }
        FirstHeld(SpoolFiles(dir), Machine().files);
        ReplayOneMore(before, Machine(), i);
        var outcome := if try.files(i).RemoveFails? then D.AckLost else try.files(i).outcome;
        if !outcome.Acknowledged? {
          FileKept(Machine(), outcome);
          Act(D.ReplayFirst(outcome));
          return false;
        }
        RemoveFirst(dir, clock);
        RemoveListed(dir, file.name, clock);
        FirstCounted(SpoolFiles(dir));
        FileTaken(Machine());
        dir := Remove(dir, file.name);
        spoolFiles := spoolFiles - 1;
        spoolBytes := spoolBytes - file.size;
        Act(D.ReplayFirst(outcome));
      }
      ReplayedIs(try, files, 0, |files|);
      return true;
    }

    /** The counter is what the spool holds. */
    lemma {:induction false} Counted()
      requires Accounted()
      ensures spoolBytes == Bytes(SpoolFiles(dir))
    {}

    /** Waits for durable space; gives up only when the context is cancelled or the spool fails for another reason. */
    method SpoolWithBackpressure(batch: IngestBatch, size: nat, rounds: seq<Round>) returns (ok: bool)
      requires Valid() && size < Space.WORD / 2
      requires D.In(Machine(), batch.Key(), D.Blocked) && D.InHand(Machine(), batch.Key()).batch == batch
      modifies this
      ensures Valid()
      ensures ok ==> Moved(old(Machine()), Machine(), batch.Key(), None)
      ensures !ok ==> Dropped(old(Machine()), Machine(), batch.Key())
      ensures var ending := Waiting(rounds, old(SpoolFiles(dir)), size, maxBytes);
              && (ok <==> ending.Kept? || ending.Delivered?)
              && (ending.Kept? ==> SpoolFiles(dir) != [] && SpoolFiles(dir)[|SpoolFiles(dir)| - 1].batch == Some(batch))
              && (ending.Delivered? ==> SpoolFiles(dir) == [])
      ensures ok ==> Secured(Machine(), SpoolFiles(dir), old(D.InHand(Machine(), batch.Key())))
      ensures !ok ==> GivesUp(rounds, old(spoolBytes), size, maxBytes)
      ensures !ok && Readable(old(SpoolFiles(dir))) ==> NoWayOut(rounds)
      ensures spoolBytes <= old(spoolBytes) + size
      ensures Readable(old(SpoolFiles(dir))) ==> Readable(SpoolFiles(dir))
    {
      hide Holds, Listed, SpoolFiles, Others, D.Step, D.Run, Bytes, Accounted, FifoReplay, OnlyShard, SpoolOutcome,
               Empties,
               GivesUp, Roomy, NoWayOut, Smooth, Moved, Dropped, Readable;
      var key := batch.Key();
      ghost var before, files := Machine(), SpoolFiles(dir);
      Counted();
      NotMoved(before, key);
      if Waiting(rounds, files, size, maxBytes).Broken? || Waiting(rounds, files, size, maxBytes).Cancelled? {
        LostOnlyByGivingUp(rounds, files, spoolBytes, size, maxBytes);
        if Readable(files) {
          LostOnlyWithoutWayOut(rounds, files, size, maxBytes);
        }
      }
      var i := 0;
      assert rounds[0..] == rounds;
      while i < |rounds|
        invariant 0 <= i <= |rounds|
        invariant Valid() && Moved(before, Machine(), key, Some(D.Blocked)) && spoolBytes <= old(spoolBytes)
        invariant Waiting(rounds, files, size, maxBytes) == Waiting(rounds[i..], SpoolFiles(dir), size, maxBytes)
        invariant Readable(files) ==> Readable(SpoolFiles(dir))
      {
        ghost var blocked, left := Machine(), SpoolFiles(dir);
        assert rounds[i..][0] == rounds[i] && rounds[i..][1..] == rounds[i + 1..];
        Counted();
        StillHolds(before, blocked, key, D.Blocked);
        StepMoves(blocked, key, D.Rejected);
        AbandonDrops(before, blocked, key, D.Blocked);
        var stored := Spool(batch, size, rounds[i].spool);
        if stored.SpoolFailed? {
          return false;
        }
        ghost var full := Machine();
        MovedAgain(before, blocked, full, key, Some(D.Blocked), if stored.Stored? then None else Some(D.Replaying));
        if stored.Stored? {
          OneMoreReadable(left, SpoolFiles(dir)[|left|]);
          return true;
        }
        StillHolds(before, full, key, D.Replaying);
        LaterReadable(left, Replayed(rounds[i].replay, left, 0));
        ok := Deliver(batch, rounds[i].replay, rounds[i].post);
        MovedAgain(before, full, Machine(), key, Some(D.Replaying), if ok then None else Some(D.Blocked));
        if ok {
          return;
        }
        i := i + 1;
      }
      StillHolds(before, Machine(), key, D.Blocked);
      AbandonDrops(before, Machine(), key, D.Blocked);
      Act(D.Abandon(key));
      return false;
    }

    /** Replay the spool, then post the batch in hand. */
    method Deliver(batch: IngestBatch, replay: ReplayTry, post: D.Outcome) returns (ok: bool)
      requires Valid() && D.In(Machine(), batch.Key(), D.Replaying)
      modifies `dir, `spoolFiles, `spoolBytes, `trace
      ensures Valid()
      ensures Moved(old(Machine()), Machine(), batch.Key(), if ok then None else Some(D.Blocked))
      ensures ok <==> Empties(replay, old(SpoolFiles(dir))) && post.Acknowledged?
      ensures SpoolFiles(dir) == old(SpoolFiles(dir))[Replayed(replay, old(SpoolFiles(dir)), 0)..]
      ensures ok <==> replay.listed && SpoolFiles(dir) == [] && post.Acknowledged?
      // the API has taken what was spooled, in order, and then this batch
      ensures ok ==> Machine().accepted
                       == old(Machine().accepted) + old(Machine().files) + [old(D.InHand(Machine(), batch.Key()))]
      ensures spoolBytes <= old(spoolBytes) && (old(SpoolFiles(dir)) == [] ==> SpoolFiles(dir) == [])
    {
      hide Holds, Listed, SpoolFiles, Others, D.Step, D.Run, Bytes, Accounted, FifoReplay, OnlyShard, Empties;
      var key := batch.Key();
      ghost var before := Machine();
      var replayed := Replay(replay);
      ghost var mid := Machine();
      FirstHeld(SpoolFiles(dir), mid.files);
      ghost var n := |old(SpoolFiles(dir))| - |SpoolFiles(dir)|;
      ReplayKeepsPlace(before, mid, n, replay.listed && Repeats(replay, old(SpoolFiles(dir)), n), key);
      StepMoves(mid, key, post);
      if !replayed {
        Act(D.ReplayFailed(key));
        MovedAgain(before, mid, Machine(), key, Some(D.Replaying), Some(D.Blocked));
        return false;
      }
      AllReplayed(before, mid, n, replay.listed && Repeats(replay, old(SpoolFiles(dir)), n));
      Act(D.ReplayDone(key));
      ghost var cleared := Machine();
      MovedAgain(before, mid, cleared, key, Some(D.Replaying), Some(D.Cleared));
      StepMoves(cleared, key, post);
      if post.Acknowledged? {
        DoneAndPosted(mid, key, post);
      }
      ok := Post(batch, post);
      MovedAgain(before, cleared, Machine(), key, Some(D.Cleared), if ok then None else Some(D.Blocked));
    }

    method SendChunk(batch: IngestBatch, size: nat, attempt: Attempt) returns (ok: bool)
      requires Valid() && size < Space.WORD / 2 && D.PhaseOf(Machine(), batch.Key()) == None
      modifies this
      ensures Valid() && Settled(old(Machine()), Machine(), batch, ok)
      ensures ok <==> Succeeds(attempt, old(SpoolFiles(dir)), size, maxBytes)
      // a chunk is lost only when the direct delivery failed and waiting for space was given up
      ensures !ok ==> !Direct(attempt, old(SpoolFiles(dir))) && GivesUp(attempt.rounds, old(spoolBytes), size, maxBytes)
      ensures !ok && Readable(old(SpoolFiles(dir))) ==> NoWayOut(attempt.rounds)
      ensures ok ==> Secured(Machine(), SpoolFiles(dir), D.Chunk(|old(D.SentBy(Machine(), batch.Key()))|, batch))
      // a spool that can be replayed is emptied in order, and the chunk follows
      ensures Direct(attempt, old(SpoolFiles(dir))) ==> ok && SpoolFiles(dir) == []
      ensures Direct(attempt, old(SpoolFiles(dir))) ==>
                Machine().accepted == old(Machine().accepted) + old(Machine().files)
                                      + [D.Chunk(|old(D.SentBy(Machine(), batch.Key()))|, batch)]
      // a full disk does not stand in the way of direct delivery
      ensures old(SpoolFiles(dir)) == [] && attempt.replay.listed && attempt.post.Acknowledged? ==>
                  ok && SpoolFiles(dir) == []
      ensures spoolBytes <= old(spoolBytes) + size
      ensures Readable(old(SpoolFiles(dir))) ==> Readable(SpoolFiles(dir))
    {
      hide Holds, Listed, SpoolFiles, Others, D.Step, D.Run, Bytes, Accounted, FifoReplay, OnlyShard, Settled, GivesUp,
               Waiting, NoWayOut;
      ghost var before := Machine();
      HandTakes(before, batch);
      Act(D.Hand(batch));
      ghost var hand := Machine();
      ok := Deliver(batch, attempt.replay, attempt.post);
      ghost var mid := Machine();
      if !ok {
        ghost var stored := spoolBytes;
        ok := SpoolWithBackpressure(batch, size, attempt.rounds);
        if !ok {
          GivesUpWithMore(attempt.rounds, stored, old(spoolBytes), size, maxBytes);
        }
      } else {
        NotMoved(mid, batch.Key());
      }
      Settles(before, hand, mid, Machine(), batch, ok);
    }

    /** Split the batch by size and send the chunks in order, stopping at the first that fails: one whose direct
        delivery
        failed and for which waiting for space was given up. */
    method Send(batch: IngestBatch, base: nat, attempts: nat -> Attempt) returns (r: SendResult)
      requires Valid() && D.PhaseOf(Machine(), batch.Key()) == None
      modifies this
      ensures Valid()
      ensures r.Refused? <==> batch.events == [] || !Split.AllFit(batch.events, base, Split.MAX_INGEST_BATCH_BYTES)
      ensures r.Refused? ==> trace == old(trace) && dir == old(dir)
      ensures !r.Refused? ==> Handed(old(Machine()), Machine(), batch.Key(), batch.events, r.Sent?)
      ensures r.Interrupted? ==> exists chunks: seq<IngestBatch>, i: nat ::
                LostAt(chunks, i, batch, base, attempts, old(SpoolFiles(dir)), old(spoolBytes), maxBytes)
    {
      NoChunks(base);
      hide Holds, Listed, SpoolFiles, Others, D.Step, D.Run, Bytes, Accounted, FifoReplay, OnlyShard, Settled,
               Split.Full, Split.EncodedSize, GivesUp, Smooth, Readable, NoWayOut, Succeeds, Empties, SizeOf, Secured,
                   Direct, Handed,
               LostAt, Split.IsSplit, Split.SameOrigin, Split.AllFit, Split.Concat;
      var split := Split.SplitBatch(batch, base, Split.MAX_INGEST_BATCH_BYTES);
      if !split.Chunks? {
        return Refused(split);
      }
      var chunks, key := split.chunks, batch.Key();
      ghost var before := Machine();
      NothingHanded(before, key);
      assert chunks[..|chunks|] == chunks && chunks[..0] == [];
      WholeSplit(chunks, batch, base);
      for i := 0 to |chunks|
        invariant Valid() && Handed(before, Machine(), key, Split.Concat(chunks[..i]), true)
        invariant D.PhaseOf(Machine(), key) == None
        invariant spoolBytes <= old(spoolBytes) + SizeOf(chunks[..i], base)
        invariant Readable(old(SpoolFiles(dir))) ==> Readable(SpoolFiles(dir))
      {
        var chunk := chunks[i];
        ghost var mid, files, stored := Machine(), SpoolFiles(dir), spoolBytes;
        SizeSnoc(chunks, i, base);
        ChunkFits(chunks, batch, base, i);
        var ok := SendChunk(chunk, Split.EncodedSize(base, chunk.events), attempts(i));
        HandedMore(before, mid, Machine(), Split.Concat(chunks[..i]), chunk, ok);
        ConcatSplits(chunks, i);
        if !ok {
          HandedWithin(before, Machine(), key, Split.Concat(chunks[..i + 1]), Split.Concat(chunks[i + 1..]));
          LostHere(chunks, i, batch, base, attempts, old(SpoolFiles(dir)), old(spoolBytes), files, stored, maxBytes);
          return Interrupted;
        }
      }
      return Sent;
    }

    /** In every life of the sender: what the API accepted from a shard is a stuttering prefix of what the shard's
        thread handed over, and every completed chunk has been accepted or lies in the spool directory. */
    lemma {:induction false} Durable(key: ShardKey, i: nat)
      requires Valid() && i < |D.SentBy(Machine(), key)| - if key in Machine().phase then 1 else 0
      ensures D.StutteringPrefix(D.Only(Machine().accepted, key), D.SentBy(Machine(), key))
      ensures var chunk := D.SentBy(Machine(), key)[i];
              chunk in Machine().accepted || exists e :: e in SpoolFiles(dir) && e.batch == Some(chunk.batch)
    {
      var chunk := D.SentBy(Machine(), key)[i];
      D.NothingLostNothingReordered(trace, key);
      if chunk !in Machine().accepted {
        FileOf(SpoolFiles(dir), Machine().files, chunk);
      }
    }
  }

  method SpoolUsage(entries: seq<Entry>) returns (files: int, bytes: int)
    ensures files == |SpoolFiles(entries)| && bytes == Bytes(SpoolFiles(entries))
  {
    files, bytes := 0, 0;
    for i := 0 to |entries|
      invariant files == |SpoolFiles(entries[..i])| && bytes == Bytes(SpoolFiles(entries[..i]))
    {
      var entry := entries[i];
      assert entries[..i + 1] == entries[..i] + [entry];
      FilesSnoc(entries[..i], entry);
      if entry.dir || entry.hidden || !entry.json {
        continue;
      }
      BytesAppend(SpoolFiles(entries[..i]), entry);
      files := files + 1;
      bytes := bytes + entry.size;
    }
    assert entries[..|entries|] == entries;
  }
}

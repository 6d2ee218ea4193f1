/** What the collector hands over, what lies in its spool and what the API has accepted, over every interleaving of
    the sending threads, lost acknowledgements, replays and crashes. There is one sending thread per shard. */
module Delivery {
  import opened Model
  import opened Seqs

  /** A chunk handed over by a shard's thread. number is its position among the shard's chunks; it is bookkeeping
      of the model and nothing the sender decides on. */
  datatype Chunk = Chunk(number: nat, batch: IngestBatch)
  {
    function Key(): ShardKey {
      batch.Key()
    }
  }

  /** Where a thread stands with the chunk in its hands: about to replay the spool, replayed it completely, or
      failed to deliver and about to spool. */
  datatype Phase = Replaying | Cleared | Blocked

  /** files are the committed spool files in name order, accepted every batch the API took, in order, including
      repetitions. sent holds, per shard, every chunk whose sending was completed, is under way, or was interrupted
      after the API had taken it. */
  datatype State = State(files: seq<Chunk>, accepted: seq<Chunk>, sent: map<ShardKey, seq<Chunk>>,
                         phase: map<ShardKey, Phase>)

  const START := State([], [], map[], map[])

  datatype Outcome = Rejected | AckLost | Acknowledged

  datatype Action =
    | Hand(batch: IngestBatch)
    | ReplayFirst(outcome: Outcome)
    | ReplayDone(key: ShardKey)
    | ReplayFailed(key: ShardKey)
    | Post(key: ShardKey, outcome: Outcome)
    | Spool(key: ShardKey)
    | SpoolFull(key: ShardKey)
    | Abandon(key: ShardKey)
    | Crash

  function SentBy(s: State, key: ShardKey): seq<Chunk> {
    if key in s.sent then s.sent[key] else []
  }

  /** The chunk a busy thread holds. */
  function InHand(s: State, key: ShardKey): Chunk
    requires SentBy(s, key) != []
  {
    SentBy(s, key)[|SentBy(s, key)| - 1]
  }

  predicate In(s: State, key: ShardKey, phase: Phase) {
    key in s.phase && s.phase[key] == phase && SentBy(s, key) != []
  }

  predicate Enabled(s: State, a: Action) {
    match a
    case Hand(batch) => batch.Key() !in s.phase
    case ReplayFirst(_) => s.files != []
    // replay holds the spool lock: it succeeds only when every file was posted and removed
    case ReplayDone(key) => In(s, key, Replaying) && s.files == []
    case ReplayFailed(key) => In(s, key, Replaying)
    case Post(key, _) => In(s, key, Cleared)
    case Spool(key) => In(s, key, Blocked)
    case SpoolFull(key) => In(s, key, Blocked)
    case Abandon(key) => key in s.phase
    case Crash => true
  }

  /** A chunk that is dropped counts as sent only if the API has it. */
  function Interrupted(s: State, key: ShardKey): seq<Chunk> {
    var chunks := SentBy(s, key);
    if key in s.phase && chunks != [] && InHand(s, key) !in s.accepted then chunks[..|chunks| - 1] else chunks
  }

  function Step(s: State, a: Action): State {
    if !Enabled(s, a) then s
    else
      match a
      case Hand(batch) =>
        var key := batch.Key();
        s.(sent := s.sent[key := SentBy(s, key) + [Chunk(|SentBy(s, key)|, batch)]], phase := s.phase[key := Replaying])
      case ReplayFirst(Rejected) => s
      case ReplayFirst(AckLost) => s.(accepted := s.accepted + [s.files[0]])
      case ReplayFirst(Acknowledged) => s.(accepted := s.accepted + [s.files[0]], files := s.files[1..])
      case ReplayDone(key) => s.(phase := s.phase[key := Cleared])
      case ReplayFailed(key) => s.(phase := s.phase[key := Blocked])
      case Post(key, Rejected) => s.(phase := s.phase[key := Blocked])
      case Post(key, AckLost) => s.(accepted := s.accepted + [InHand(s, key)], phase := s.phase[key := Blocked])
      case Post(key, Acknowledged) => s.(accepted := s.accepted + [InHand(s, key)], phase := s.phase - {key})
      case Spool(key) => s.(files := s.files + [InHand(s, key)], phase := s.phase - {key})
      case SpoolFull(key) => s.(phase := s.phase[key := Replaying])
      case Abandon(key) => s.(sent := s.sent[key := Interrupted(s, key)], phase := s.phase - {key})
      case Crash => s.(sent := map k | k in s.sent :: Interrupted(s, k), phase := map[])
  }

  function Run(s: State, actions: seq<Action>): State
    decreases actions
  {
    if actions == [] then s else Run(Step(s, actions[0]), actions[1..])
  }

  /* ---------- one shard's view ---------- */

  function OfShard(key: ShardKey): Chunk -> bool {
    (c: Chunk) => c.Key() == key
  }

  function Only(chunks: seq<Chunk>, key: ShardKey): seq<Chunk> {
    Filter(OfShard(key), chunks)
  }

  /** How many of a shard's chunks the API has taken. */
  function Reached(accepted: seq<Chunk>): nat {
    if accepted == [] then 0 else accepted[|accepted| - 1].number + 1
  }

  /** The log repeats the beginning of sent, chunk by chunk, each one or more times, in order. */
  ghost predicate StutteringPrefix(log: seq<Chunk>, sent: seq<Chunk>) {
    && (forall i :: 0 <= i < |log| ==> log[i].number < |sent| && log[i] == sent[log[i].number])
    && (log != [] ==> log[0].number == 0)
    && (forall i :: 0 < i < |log| ==> log[i].number == log[i - 1].number || log[i].number == log[i - 1].number + 1)
  }

  ghost predicate Numbered(sent: seq<Chunk>, key: ShardKey) {
    forall i :: 0 <= i < |sent| ==> sent[i].number == i && sent[i].Key() == key
  }

  /** low is where the shard's part of the spool begins: the files are the sent chunks from there on, except the one
      still in hand; the API has taken everything below, and at most one more whose acknowledgement was lost. */
  ghost predicate Consistent(log: seq<Chunk>, files: seq<Chunk>, sent: seq<Chunk>, busy: bool, low: nat) {
    && StutteringPrefix(log, sent)
    && low + |files| + (if busy then 1 else 0) == |sent|
    && files == sent[low..low + |files|]
    && low <= Reached(log) <= low + 1 && Reached(log) <= |sent|
  }

  function PhaseOf(s: State, key: ShardKey): Option<Phase> {
    if key in s.phase then Some(s.phase[key]) else None
  }

  /** What holds between the log, the files and the sent chunks of one shard. */
  ghost predicate View(log: seq<Chunk>, files: seq<Chunk>, sent: seq<Chunk>, phase: Option<Phase>, key: ShardKey) {
    var low := |sent| - |files| - if phase.Some? then 1 else 0;
    && Numbered(sent, key) && low >= 0
    && Consistent(log, files, sent, phase.Some?, low)
    && (phase == Some(Cleared) ==> files == [])
  }

  ghost predicate ShardInv(s: State, key: ShardKey) {
    View(Only(s.accepted, key), Only(s.files, key), SentBy(s, key), PhaseOf(s, key), key)
  }

  ghost predicate Inv(s: State) {
    forall key :: ShardInv(s, key)
  }

  /* ---------- the API takes a chunk ---------- */

  lemma {:induction false} TakeChunk(log: seq<Chunk>, files: seq<Chunk>, sent: seq<Chunk>, busy: bool, low: nat,
                                     key: ShardKey)
    requires Consistent(log, files, sent, busy, low) && Numbered(sent, key) && low < |sent|
    ensures StutteringPrefix(log + [sent[low]], sent) && Reached(log + [sent[low]]) == low + 1
  {
    var next := log + [sent[low]];
    assert forall i :: 0 <= i < |log| ==> next[i] == log[i];
  }

  lemma {:induction false} OnlyAppend(chunks: seq<Chunk>, c: Chunk, key: ShardKey)
    ensures Only(chunks + [c], key) == if c.Key() == key then Only(chunks, key) + [c] else Only(chunks, key)
  {
    FilterAppend(OfShard(key), chunks, [c]);
  }

  lemma {:induction false} OnlyFirst(chunks: seq<Chunk>, key: ShardKey)
    requires chunks != []
    ensures var own, rest := Only(chunks, key), Only(chunks[1..], key);
            if chunks[0].Key() == key then own != [] && own[0] == chunks[0] && own[1..] == rest else own == rest
  {}

  lemma {:induction false} OnlyMembers(chunks: seq<Chunk>, c: Chunk)
    ensures c in chunks <==> c in Only(chunks, c.Key())
  {}

  lemma {:induction false} ViewReplay(log: seq<Chunk>, files: seq<Chunk>, sent: seq<Chunk>, phase: Option<Phase>,
                                      key: ShardKey)
    requires View(log, files, sent, phase, key) && files != []
    ensures View(log + [files[0]], files, sent, phase, key) && View(log + [files[0]], files[1..], sent, phase, key)
  {
    var low := |sent| - |files| - if phase.Some? then 1 else 0;
    assert files[0] == sent[low];
    TakeChunk(log, files, sent, phase.Some?, low, key);
    assert files[1..] == sent[low + 1..low + |files|];
  }

  lemma {:induction false} ViewPost(log: seq<Chunk>, sent: seq<Chunk>, key: ShardKey)
    requires View(log, [], sent, Some(Cleared), key)
    ensures var last := sent[|sent| - 1];
            View(log + [last], [], sent, Some(Blocked), key) && View(log + [last], [], sent, None, key)
  {
    TakeChunk(log, [], sent, true, |sent| - 1, key);
  }

  lemma {:induction false} ViewSpool(log: seq<Chunk>, files: seq<Chunk>, sent: seq<Chunk>, key: ShardKey)
    requires View(log, files, sent, Some(Blocked), key)
    ensures View(log, files + [sent[|sent| - 1]], sent, None, key)
  {
    var low := |sent| - |files| - 1;
    assert files + [sent[|sent| - 1]] == sent[low..|sent|];
  }

  lemma {:induction false} ReplayKeeps(s: State, outcome: Outcome, key: ShardKey)
    requires ShardInv(s, key) && s.files != []
    ensures ShardInv(Step(s, ReplayFirst(outcome)), key)
  {
    hide View, Only;
    var first := s.files[0];
    OnlyFirst(s.files, key);
    OnlyAppend(s.accepted, first, key);
    if first.Key() == key {
      ViewReplay(Only(s.accepted, key), Only(s.files, key), SentBy(s, key), PhaseOf(s, key), key);
    }
  }

  lemma {:induction false} HeldIsOwn(s: State, key: ShardKey)
    requires ShardInv(s, key) && key in s.phase
    ensures SentBy(s, key) != [] && InHand(s, key).Key() == key
    ensures s.phase[key] == Cleared ==> Only(s.files, key) == []
  {}

  lemma {:induction false} PostKeeps(s: State, poster: ShardKey, outcome: Outcome, key: ShardKey)
    requires ShardInv(s, key) && ShardInv(s, poster) && In(s, poster, Cleared)
    ensures ShardInv(Step(s, Post(poster, outcome)), key)
  {
    hide View, Only;
    HeldIsOwn(s, poster);
    OnlyAppend(s.accepted, InHand(s, poster), key);
    if key == poster {
      PostedView(Only(s.accepted, key), SentBy(s, key), key);
    }
  }

  lemma {:induction false} PostedView(log: seq<Chunk>, sent: seq<Chunk>, key: ShardKey)
    requires View(log, [], sent, Some(Cleared), key)
    ensures View(log, [], sent, Some(Blocked), key)
    ensures var last := sent[|sent| - 1];
            View(log + [last], [], sent, Some(Blocked), key) && View(log + [last], [], sent, None, key)
  {
    ViewPost(log, sent, key);
  }

  lemma {:induction false} SpoolKeeps(s: State, spooler: ShardKey, key: ShardKey)
    requires ShardInv(s, key) && ShardInv(s, spooler) && In(s, spooler, Blocked)
    ensures ShardInv(Step(s, Spool(spooler)), key)
  {
    hide View, Only;
    HeldIsOwn(s, spooler);
    OnlyAppend(s.files, InHand(s, spooler), key);
    if key == spooler {
      ViewSpool(Only(s.accepted, key), Only(s.files, key), SentBy(s, key), key);
    }
  }

  lemma {:induction false} ViewHand(log: seq<Chunk>, files: seq<Chunk>, sent: seq<Chunk>, batch: IngestBatch,
                                    key: ShardKey)
    requires View(log, files, sent, None, key) && batch.Key() == key
    ensures View(log, files, sent + [Chunk(|sent|, batch)], Some(Replaying), key)
  {
    var more := sent + [Chunk(|sent|, batch)];
    assert more[|sent| - |files|..|sent|] == sent[|sent| - |files|..];
    assert forall i :: 0 <= i < |sent| ==> more[i] == sent[i];
  }

  lemma {:induction false} HandKeeps(s: State, batch: IngestBatch, key: ShardKey)
    requires ShardInv(s, key) && batch.Key() !in s.phase
    ensures ShardInv(Step(s, Hand(batch)), key)
  {
    hide View, Only;
    if batch.Key() == key {
      ViewHand(Only(s.accepted, key), Only(s.files, key), SentBy(s, key), batch, key);
    }
  }

  lemma {:induction false} ViewAccepted(log: seq<Chunk>, files: seq<Chunk>, sent: seq<Chunk>, phase: Option<Phase>,
                                        key: ShardKey)
    requires View(log, files, sent, phase, key) && phase.Some? && sent[|sent| - 1] in log
    ensures View(log, files, sent, None, key)
  {
    var i :| 0 <= i < |log| && log[i] == sent[|sent| - 1];
    NumbersGrow(log, sent, i);
  }

  lemma {:induction false} ViewDropped(log: seq<Chunk>, files: seq<Chunk>, sent: seq<Chunk>, phase: Option<Phase>,
                                       key: ShardKey)
    requires View(log, files, sent, phase, key) && phase.Some? && sent[|sent| - 1] !in log
    ensures View(log, files, sent[..|sent| - 1], None, key)
  {
    var n := |sent| - 1;
    NotReached(log, sent, n);
    assert sent[..n][n - |files|..n] == sent[n - |files|..n];
  }

  /** Dropping the chunk in hand keeps the view consistent, whether or not the API already took it. */
  lemma {:induction false} ViewInterrupt(log: seq<Chunk>, files: seq<Chunk>, sent: seq<Chunk>, phase: Option<Phase>,
                                         key: ShardKey)
    requires View(log, files, sent, phase, key) && phase.Some?
    ensures sent != [] && sent[|sent| - 1].Key() == key
    ensures sent[|sent| - 1] in log ==> View(log, files, sent, None, key)
    ensures sent[|sent| - 1] !in log ==> View(log, files, sent[..|sent| - 1], None, key)
  {
    assert sent != [] && sent[|sent| - 1].Key() == key;
    hide View;
    if sent[|sent| - 1] in log {
      ViewAccepted(log, files, sent, phase, key);
    } else {
      ViewDropped(log, files, sent, phase, key);
    }
  }

  lemma {:induction false} InterruptKeeps(s: State, t: State, key: ShardKey)
    requires ShardInv(s, key)
    requires t.files == s.files && t.accepted == s.accepted && SentBy(t, key) == Interrupted(s, key) && key !in t.phase
    ensures ShardInv(t, key)
  {
    hide View, Only;
    if key in s.phase {
      ViewInterrupt(Only(s.accepted, key), Only(s.files, key), SentBy(s, key), PhaseOf(s, key), key);
      OnlyMembers(s.accepted, InHand(s, key));
    }
  }

  lemma {:induction false} NumbersGrow(log: seq<Chunk>, sent: seq<Chunk>, i: nat)
    requires StutteringPrefix(log, sent) && i < |log|
    ensures log[i].number <= log[|log| - 1].number
    decreases |log| - i
  {
    if i < |log| - 1 {
      NumbersGrow(log, sent, i + 1);
    }
  }

  lemma {:induction false} NotReached(log: seq<Chunk>, sent: seq<Chunk>, n: nat)
    requires StutteringPrefix(log, sent) && n < |sent| && |sent| == n + 1 && sent[n] !in log
    ensures StutteringPrefix(log, sent[..n]) && Reached(log) <= n
  {
    forall i | 0 <= i < |log| ensures log[i].number < n {
      assert log[i] in log;
    }
  }

  lemma {:induction false} ViewQuiet(log: seq<Chunk>, files: seq<Chunk>, sent: seq<Chunk>, before: Option<Phase>,
                                     after: Option<Phase>, key: ShardKey)
    requires View(log, files, sent, before, key) && before.Some? == after.Some?
    requires after == Some(Cleared) && before != Some(Cleared) ==> files == []
    ensures View(log, files, sent, after, key)
  {
    hide Consistent, Numbered;
  }

  lemma {:induction false} QuietKeeps(s: State, t: State, key: ShardKey)
    requires ShardInv(s, key)
    requires t.files == s.files && t.accepted == s.accepted && t.sent == s.sent
    requires PhaseOf(t, key).Some? == PhaseOf(s, key).Some?
    requires PhaseOf(t, key) == Some(Cleared) ==> s.files == [] || PhaseOf(s, key) == Some(Cleared)
    ensures ShardInv(t, key)
  {
    assert s.files == [] ==> Only(s.files, key) == [];
    hide View, Only;
    ViewQuiet(Only(s.accepted, key), Only(s.files, key), SentBy(s, key), PhaseOf(s, key), PhaseOf(t, key), key);
  }

  lemma {:induction false} DisabledStays(s: State, a: Action)
    requires !Enabled(s, a)
    ensures Step(s, a) == s
  {}

  lemma {:induction false} AbandonKeeps(s: State, k: ShardKey, key: ShardKey)
    requires ShardInv(s, key) && k in s.phase
    ensures ShardInv(Step(s, Abandon(k)), key)
  {
    hide View, Only;
    if k == key {
      InterruptKeeps(s, Step(s, Abandon(k)), key);
    }
  }

  lemma {:induction false} CrashKeeps(s: State, key: ShardKey)
    requires ShardInv(s, key)
    ensures ShardInv(Step(s, Crash), key)
  {
    hide View, Only;
    InterruptKeeps(s, Step(s, Crash), key);
  }

  predicate Quiet(a: Action) {
    a.ReplayDone? || a.ReplayFailed? || a.SpoolFull?
  }

  lemma {:induction false} QuietStepKeeps(s: State, a: Action, key: ShardKey)
    requires ShardInv(s, key) && Enabled(s, a) && Quiet(a)
    ensures ShardInv(Step(s, a), key)
  {
    hide View, Only;
    QuietKeeps(s, Step(s, a), key);
  }

  lemma {:induction false} StepKeeps(s: State, a: Action, key: ShardKey)
    requires Inv(s)
    ensures ShardInv(Step(s, a), key)
  {
    hide ShardInv, Step;
    assert ShardInv(s, key);
    if !Enabled(s, a) {
      DisabledStays(s, a);
    } else {
      match a
      case Hand(batch) => HandKeeps(s, batch, key);
      case ReplayFirst(outcome) => ReplayKeeps(s, outcome, key);
      case Post(k, outcome) =>
        assert ShardInv(s, k);
        PostKeeps(s, k, outcome, key);
      case Spool(k) =>
        assert ShardInv(s, k);
        SpoolKeeps(s, k, key);
      case Abandon(k) => AbandonKeeps(s, k, key);
      case Crash => CrashKeeps(s, key);
      case _ => QuietStepKeeps(s, a, key);
    }
  }

  lemma {:induction false} StepKeepsInv(s: State, a: Action)
    requires Inv(s)
    ensures Inv(Step(s, a))
  {
    forall key ensures ShardInv(Step(s, a), key) {
      StepKeeps(s, a, key);
    }
  }

  lemma {:induction false} RunKeepsInv(s: State, actions: seq<Action>)
    requires Inv(s)
    ensures Inv(Run(s, actions))
    decreases actions
  {
    if actions != [] {
      StepKeepsInv(s, actions[0]);
      RunKeepsInv(Step(s, actions[0]), actions[1..]);
    }
  }

  /** Every chunk up to `done` has been accepted or lies in the spool. */
  ghost predicate Safe(log: seq<Chunk>, files: seq<Chunk>, sent: seq<Chunk>, done: int) {
    && 0 <= |files| <= done <= |sent|
    && files == sent[done - |files|..done]
    && forall i :: 0 <= i < done ==> sent[i] in log || sent[i] in files
  }

  lemma {:induction false} ViewIsSafe(log: seq<Chunk>, files: seq<Chunk>, sent: seq<Chunk>, phase: Option<Phase>,
                                      key: ShardKey)
    requires View(log, files, sent, phase, key)
    ensures StutteringPrefix(log, sent) && Safe(log, files, sent, |sent| - if phase.Some? then 1 else 0)
  {
    var done := |sent| - if phase.Some? then 1 else 0;
    forall i | 0 <= i < done ensures sent[i] in log || sent[i] in files {
      if i < Reached(log) {
        EveryNumberAccepted(log, sent, i);
      } else {
        assert files[i - (done - |files|)] == sent[i];
      }
    }
  }

  lemma {:induction false} Reachable(actions: seq<Action>, key: ShardKey) returns (s: State)
    ensures s == Run(START, actions) && ShardInv(s, key)
  {
    RunKeepsInv(START, actions);
    s := Run(START, actions);
  }

  /** In every run, for every shard: the accepted batches are a stuttering prefix of what was sent, and every chunk
      whose sending was completed has been accepted or lies in the spool, in order. */
  lemma {:induction false} NothingLostNothingReordered(actions: seq<Action>, key: ShardKey)
    ensures var s := Run(START, actions);
            && StutteringPrefix(Only(s.accepted, key), SentBy(s, key))
            && Safe(Only(s.accepted, key), Only(s.files, key), SentBy(s, key),
                    |SentBy(s, key)| - if key in s.phase then 1 else 0)
  {
    hide View, StutteringPrefix, Safe;
    var s := Reachable(actions, key);
    ViewIsSafe(Only(s.accepted, key), Only(s.files, key), SentBy(s, key), PhaseOf(s, key), key);
  }

  lemma {:induction false} EveryNumberAccepted(log: seq<Chunk>, sent: seq<Chunk>, n: nat)
    requires StutteringPrefix(log, sent) && n < Reached(log)
    ensures sent[n] in log
  {
    var last := |log| - 1;
    if log[last].number == n {
      assert log[last] == sent[n];
    } else {
      assert last > 0;
      var front := log[..last];
      assert StutteringPrefix(front, sent);
      EveryNumberAccepted(front, sent, n);
      assert log == front + [log[last]];
    }
  }

  /** When the spool is empty and the shard's thread is idle, everything it sent has been accepted. */
  lemma {:induction false} DrainedSpoolMeansDelivered(actions: seq<Action>, key: ShardKey)
    requires key !in Run(START, actions).phase && Only(Run(START, actions).files, key) == []
    ensures Reached(Only(Run(START, actions).accepted, key)) == |SentBy(Run(START, actions), key)|
  {
    var s := Reachable(actions, key);
  }
}

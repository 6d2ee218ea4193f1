/** Reads from other servers: one call in flight per request, a bounded number in all, a cooldown after a failure, and
    a single recovery probe for a failed target. The log of starts and completions is what the guarantees speak of. */
module Federation {
  import opened Model
  import F = Freshness

  const MAX_PENDING := 32
  const RETRY_DELAY := 5_000_000
  const CACHE_TTL := 5_000_000

  /** What identifies a request in flight: the target, and the digest of method, path and body. */
  datatype Flight = Flight(target: string, request: string)

  datatype Call = Call(id: nat, flight: Flight, probe: bool)

  datatype Event = Started(call: Call, at: int) | Finished(call: Call, ok: bool, at: int)

  datatype Verdict = Healthy | Failed(at: int)

  function Last(log: seq<Event>): Event
    requires log != []
  {
    log[|log| - 1]
  }

  function Front(log: seq<Event>): seq<Event>
    requires log != []
  {
    log[..|log| - 1]
  }

  /* ---------- what the log means ---------- */

  /** The calls that were started and did not finish yet. */
  function Open(log: seq<Event>): set<Call> {
    if log == [] then {}
    else if Last(log).Started? then Open(Front(log)) + {Last(log).call}
    else Open(Front(log)) - {Last(log).call}
  }

  /** How the last finished call of a target went. */
  function VerdictOf(log: seq<Event>, target: string): Verdict {
    if log == [] then Healthy
    else if Last(log).Finished? && Last(log).call.flight.target == target
    then if Last(log).ok then Healthy else Failed(Last(log).at)
    else VerdictOf(Front(log), target)
  }

  function Starts(log: seq<Event>): nat {
    if log == [] then 0 else Starts(Front(log)) + if Last(log).Started? then 1 else 0
  }

  ghost predicate ProbeOpen(log: seq<Event>, target: string) {
    exists c :: c in Open(log) && c.probe && c.flight.target == target
  }

  ghost predicate FlightOpen(log: seq<Event>, flight: Flight) {
    exists c :: c in Open(log) && c.flight == flight
  }

  ghost predicate MayStart(log: seq<Event>, flight: Flight, at: int) {
    && |Open(log)| < MAX_PENDING
    && !FlightOpen(log, flight)
    && !ProbeOpen(log, flight.target)
    && (VerdictOf(log, flight.target).Failed? ==> at > VerdictOf(log, flight.target).at + RETRY_DELAY)
  }

  ghost predicate Allowed(log: seq<Event>, e: Event) {
    && (log != [] ==> Last(log).at <= e.at)
    && match e
       case Started(c, at) => c.id == Starts(log) && MayStart(log, c.flight, at)
         && c.probe == VerdictOf(log, c.flight.target).Failed?
       case Finished(c, _, _) => c in Open(log)
  }

  ghost predicate Disciplined(log: seq<Event>) {
    log != [] ==> Disciplined(Front(log)) && Allowed(Front(log), Last(log))
  }

  /* ---------- what every disciplined log guarantees ---------- */

  lemma {:induction false} DisciplinedAt(log: seq<Event>, i: nat)
    requires Disciplined(log) && i < |log|
    ensures Disciplined(log[..i]) && Allowed(log[..i], log[i])
  {
    if i < |log| - 1 {
      DisciplinedAt(Front(log), i);
      assert Front(log)[..i] == log[..i];
    }
  }

  lemma {:induction false} OpenIds(log: seq<Event>)
    requires Disciplined(log)
    ensures forall c :: c in Open(log) ==> c.id < Starts(log)
  {
    if log != [] {
      OpenIds(Front(log));
    }
  }

  lemma {:induction false} OpenWasStarted(log: seq<Event>, c: Call) returns (i: nat)
    requires c in Open(log)
    ensures i < |log| && log[i].Started? && log[i].call == c
    ensures forall k :: i < k < |log| && log[k].Finished? ==> log[k].call != c
  {
    if Last(log).Started? && Last(log).call == c {
      i := |log| - 1;
    } else {
      i := OpenWasStarted(Front(log), c);
    }
  }

  /** At most 32 calls are open, at most one per request, and of a failed target at most one probe. */
  lemma {:induction false} Bounded(log: seq<Event>)
    requires Disciplined(log)
    ensures |Open(log)| <= 32
    ensures forall c, d :: c in Open(log) && d in Open(log) && c.flight == d.flight ==> c == d
    ensures forall c, d ::
              c in Open(log) && d in Open(log) && c.probe && d.probe && c.flight.target == d.flight.target ==> c == d
  {
    if log != [] {
      Bounded(Front(log));
    }
  }

  lemma {:induction false} StartsGrow(log: seq<Event>, i: nat)
    requires i <= |log|
    ensures Starts(log[..i]) <= Starts(log)
  {
    if i < |log| {
      StartsGrow(Front(log), i);
      assert Front(log)[..i] == log[..i];
    } else {
      assert log[..i] == log;
    }
  }

  /** A call that has finished is not open again. */
  lemma {:induction false} StaysFinished(log: seq<Event>, i: nat)
    requires Disciplined(log) && i < |log| && log[i].Finished?
    ensures log[i].call !in Open(log)
    ensures forall k :: i < k < |log| ==> log[k].call != log[i].call
  {
    var n := |log| - 1;
    if i == n {
      return;
    }
    var c := log[i].call;
    StaysFinished(Front(log), i);
    if Last(log).Started? {
      DisciplinedAt(log, i);
      OpenIds(log[..i]);
      StartsGrow(Front(log), i);
      assert Front(log)[..i] == log[..i];
    }
  }

  /** Every call finishes at most once, after its start and never before it. */
  lemma {:induction false} FinishesOnce(log: seq<Event>, i: nat, j: nat)
    requires Disciplined(log) && i < |log| && j < |log| && log[i].Finished? && log[j].Finished?
    requires log[i].call == log[j].call
    ensures i == j
    ensures exists s :: 0 <= s < i && log[s].Started? && log[s].call == log[i].call
  {
    if i < j {
      StaysFinished(log, i);
    } else if j < i {
      StaysFinished(log, j);
    }
    DisciplinedAt(log, i);
    var s := OpenWasStarted(log[..i], log[i].call);
    assert log[s] == log[..i][s];
  }

  lemma {:induction false} TimesGrow(log: seq<Event>, i: nat, j: nat)
    requires Disciplined(log) && i <= j < |log|
    ensures log[i].at <= log[j].at
    decreases j - i
  {
    if i < j {
      DisciplinedAt(log, j);
      TimesGrow(log, i, j - 1);
    }
  }

  ghost predicate Succeeded(log: seq<Event>, target: string, from: int, to: int) {
    exists k :: from <= k < to && 0 <= k < |log| && log[k].Finished? && log[k].ok && log[k].call.flight.target == target
  }

  /** After a failure the target counts as failed at that time or later, until a call to it succeeds. */
  lemma {:induction false} FailureLasts(log: seq<Event>, i: nat)
    requires Disciplined(log) && i < |log| && log[i].Finished? && !log[i].ok
    ensures var target := log[i].call.flight.target;
            || Succeeded(log, target, i, |log|)
            || (VerdictOf(log, target).Failed? && VerdictOf(log, target).at >= log[i].at)
  {
    var target, last := log[i].call.flight.target, |log| - 1;
    if i < last {
      FailureLasts(Front(log), i);
      TimesGrow(log, i, last);
      if Succeeded(Front(log), target, i, last) {
        var k :| i <= k < last && Front(log)[k].Finished? && Front(log)[k].ok
          && Front(log)[k].call.flight.target == target;
        assert log[k] == Front(log)[k];
      } else if Last(log).Finished? && Last(log).call.flight.target == target {
        assert Last(log).ok ==> log[last].ok;
      }
    }
  }

  /** After a failure no call to the target starts before the cooldown ends, unless another call to it succeeded
      meanwhile. */
  lemma {:induction false} CooldownHolds(log: seq<Event>, i: nat, j: nat)
    requires Disciplined(log) && i < j < |log|
    requires log[i].Finished? && !log[i].ok && log[j].Started? && log[j].call.flight.target == log[i].call.flight.target
    ensures Succeeded(log, log[i].call.flight.target, i, j)
              || (log[j].at > log[i].at + 5_000_000 && log[j].call.probe)
  {
    var target := log[i].call.flight.target;
    DisciplinedAt(log, j);
    FailureLasts(log[..j], i);
    if Succeeded(log[..j], target, i, j) {
      var k :| i <= k < j && log[..j][k].Finished? && log[..j][k].ok && log[..j][k].call.flight.target == target;
      assert log[k] == log[..j][k];
    }
  }

  /** While a probe is open, nothing is started for its target. */
  lemma {:induction false} ProbeIsAlone(log: seq<Event>, i: nat, j: nat)
    requires Disciplined(log) && i < j < |log| && log[i].Started? && log[i].call.probe
    requires log[j].Started? && log[j].call.flight.target == log[i].call.flight.target
    ensures exists k :: i < k < j && log[k].Finished? && log[k].call == log[i].call
  {
    var c := log[i].call;
    if forall k :: i < k < j && log[k].Finished? ==> log[k].call != c {
      StillOpen(log[..j], i);
      DisciplinedAt(log, j);
    }
  }

  lemma {:induction false} StillOpen(log: seq<Event>, i: nat)
    requires i < |log| && log[i].Started?
    requires forall k :: i < k < |log| && log[k].Finished? ==> log[k].call != log[i].call
    ensures log[i].call in Open(log)
  {
    if i < |log| - 1 {
      StillOpen(Front(log), i);
    }
  }

  /* ---------- the server's maps ---------- */

  datatype CacheEntry = CacheEntry(freshness: F.Level, fetched: int)

  /** What a read answers with: the cached response, an immediate error, or the outcome of a call it waits for. */
  datatype Reply = Cached(freshness: F.Level) | KnownFailed | Busy | Wait(call: Call)

  ghost predicate KeyedByFlight(pending: map<Flight, Call>) {
    forall f :: f in pending ==> pending[f].flight == f
  }

  lemma {:induction false} DistinctValues(pending: map<Flight, Call>)
    requires KeyedByFlight(pending)
    ensures |pending.Values| == |pending|
  {
    if pending.Keys != {} {
      var f :| f in pending;
      var rest := pending - {f};
      DistinctValues(rest);
      assert pending.Values == rest.Values + {pending[f]};
      assert pending[f] !in rest.Values;
      assert pending.Keys == rest.Keys + {f} && |pending.Keys| == |pending| && |rest.Keys| == |rest|;
    } else {
      assert pending == map[] && pending.Values == {};
    }
  }

  /** pending, retry and probes say what the log says. */
  ghost predicate Represents(pending: map<Flight, Call>, retry: map<string, int>, probes: set<string>,
                             log: seq<Event>) {
    && KeyedByFlight(pending) && pending.Values == Open(log)
    && (forall t :: t in retry <==> VerdictOf(log, t).Failed?)
    && (forall t :: t in retry ==> retry[t] == VerdictOf(log, t).at + RETRY_DELAY)
    && (forall t :: t in probes <==> ProbeOpen(log, t))
  }

  lemma {:induction false} PendingIsOpen(pending: map<Flight, Call>, log: seq<Event>, flight: Flight)
    requires KeyedByFlight(pending) && pending.Values == Open(log)
    ensures |pending| == |Open(log)|
    ensures flight in pending <==> FlightOpen(log, flight)
    ensures flight in pending ==> pending[flight] in Open(log)
  {
    DistinctValues(pending);
    if flight in pending {
      assert pending[flight] in pending.Values;
    }
  }

  lemma {:induction false} AppendLog(log: seq<Event>, e: Event)
    ensures Front(log + [e]) == log && Last(log + [e]) == e
  {}

  lemma {:induction false} StartRepresented(pending: map<Flight, Call>, retry: map<string, int>, probes: set<string>,
                                            log: seq<Event>, c: Call, at: int)
    requires Represents(pending, retry, probes, log) && c.flight !in pending && (c.flight.target in probes ==> c.probe)
    ensures Represents(pending[c.flight := c], retry, if c.probe then probes + {c.flight.target} else probes,
                       log + [Started(c, at)])
  {
    var more, after := log + [Started(c, at)], pending[c.flight := c];
    AppendLog(log, Started(c, at));
    assert after.Values == pending.Values + {c} by {
      assert after[c.flight] == c;
      forall v | v in pending.Values ensures v in after.Values {
        var f :| f in pending && pending[f] == v;
        assert after[f] == v;
      }
    }
    forall t ensures ProbeOpen(more, t) <==> ProbeOpen(log, t) || (c.probe && t == c.flight.target) {
      if ProbeOpen(log, t) {
        var d :| d in Open(log) && d.probe && d.flight.target == t;
        assert d in Open(more);
      }
      assert c in Open(more);
    }
  }

  lemma {:induction false} FinishOpen(pending: map<Flight, Call>, log: seq<Event>, c: Call, ok: bool, at: int)
    requires KeyedByFlight(pending) && pending.Values == Open(log) && c in Open(log)
    ensures c.flight in pending && pending[c.flight] == c
    ensures KeyedByFlight(pending - {c.flight}) && (pending - {c.flight}).Values == Open(log + [Finished(c, ok, at)])
  {
    AppendLog(log, Finished(c, ok, at));
    var f :| f in pending && pending[f] == c;
    var rest := pending - {c.flight};
    forall v ensures v in rest.Values <==> v in pending.Values && v != c {
      if v in pending.Values && v != c {
        var g :| g in pending && pending[g] == v;
        assert rest[g] == v;
      }
    }
  }

  lemma {:induction false} FinishProbes(log: seq<Event>, c: Call, ok: bool, at: int, t: string)
    requires Disciplined(log) && c in Open(log)
    ensures ProbeOpen(log + [Finished(c, ok, at)], t) <==> ProbeOpen(log, t) && !(c.probe && t == c.flight.target)
  {
    var more := log + [Finished(c, ok, at)];
    AppendLog(log, Finished(c, ok, at));
    Bounded(log);
    if ProbeOpen(log, t) && !(c.probe && t == c.flight.target) {
      var d :| d in Open(log) && d.probe && d.flight.target == t;
      assert d in Open(more);
    }
  }

  lemma {:induction false} FinishRepresented(pending: map<Flight, Call>, retry: map<string, int>, probes: set<string>,
                                             log: seq<Event>, c: Call, ok: bool, at: int)
    requires Represents(pending, retry, probes, log) && Disciplined(log) && c in Open(log)
    ensures Represents(pending - {c.flight},
                       if ok then retry - {c.flight.target} else retry[c.flight.target := at + RETRY_DELAY],
                       if c.probe then probes - {c.flight.target} else probes,
                       log + [Finished(c, ok, at)])
  {
    FinishOpen(pending, log, c, ok, at);
    AppendLog(log, Finished(c, ok, at));
    forall t ensures ProbeOpen(log + [Finished(c, ok, at)], t) <==>
               ProbeOpen(log, t) && !(c.probe && t == c.flight.target) {
      FinishProbes(log, c, ok, at, t);
    }
  }

  /** The guard of the maps is the guard of the log. */
  lemma {:induction false} GuardAgrees(pending: map<Flight, Call>, retry: map<string, int>, probes: set<string>,
                                       log: seq<Event>, flight: Flight, at: int)
    requires Represents(pending, retry, probes, log)
    ensures flight.target in retry <==> VerdictOf(log, flight.target).Failed?
    ensures flight in pending <==> FlightOpen(log, flight)
    ensures flight in pending ==> pending[flight] in Open(log) && pending[flight].flight == flight
    ensures MayStart(log, flight, at) <==>
              && flight !in pending && flight.target !in probes && |pending| < MAX_PENDING
              && (flight.target in retry ==> at > retry[flight.target])
  {
    PendingIsOpen(pending, log, flight);
  }

  lemma {:induction false} StartLogged(log: seq<Event>, c: Call, at: int)
    requires Disciplined(log) && Allowed(log, Started(c, at))
    ensures Disciplined(log + [Started(c, at)]) && Starts(log + [Started(c, at)]) == Starts(log) + 1
    ensures c in Open(log + [Started(c, at)])
  {
    AppendLog(log, Started(c, at));
  }

  class Pool {
    var pending: map<Flight, Call>
    var retry: map<string, int>
    var probes: set<string>
    var started: nat
    ghost var log: seq<Event>

    ghost predicate Valid()
      reads this
    {
      && Disciplined(log) && started == Starts(log)
      && Represents(pending, retry, probes, log)
    }

    constructor ()
      ensures Valid() && log == []
    {
      pending, retry, probes, started := map[], map[], {}, 0;
      log := [];
    }

    /** One read; clocks do not run backwards. A call is started exactly when the log allows it, and a read waits only
        when it has nothing cached to answer with and the target is not known to have failed. */
    method Read(flight: Flight, readiness: bool, cache: Option<CacheEntry>, staleAfter: int, unavailableAfter: int,
                now: int)
      returns (reply: Reply)
      requires Valid() && (log != [] ==> Last(log).at <= now)
      modifies this
      ensures Valid()
      ensures var recent := cache.Some? && F.Valid(cache.value.freshness) && now - cache.value.fetched < 5_000_000;
              log == old(log) + if !recent && MayStart(old(log), flight, now)
                                then [Started(Call(old(started), flight, VerdictOf(old(log), flight.target).Failed?),
                                              now)] else []
      ensures reply.Cached? <==>
                  cache.Some? && F.Valid(cache.value.freshness) && (now - cache.value.fetched < 5_000_000 || !readiness)
      ensures reply.Cached? ==> F.Rank(reply.freshness) >= F.Rank(cache.value.freshness)
                                && F.Rank(reply.freshness) >= F.Rank(F.OfAge(now - cache.value.fetched, staleAfter,
                                                                             unavailableAfter))
      ensures reply.Cached? ==> reply.freshness == cache.value.freshness
                                || reply.freshness == F.OfAge(now - cache.value.fetched, staleAfter, unavailableAfter)
      ensures reply.KnownFailed? <==> !reply.Cached? && VerdictOf(old(log), flight.target).Failed?
      ensures reply.Busy? <==> !reply.Cached? && VerdictOf(old(log), flight.target).Healthy?
                               && !MayStart(old(log), flight, now) && !FlightOpen(old(log), flight)
      ensures reply.Wait? ==>
                  reply.call in Open(log) && reply.call.flight == flight && VerdictOf(old(log), flight.target).Healthy?
    {
      hide Represents, Open, VerdictOf, MayStart, Disciplined, Starts, FlightOpen, F.Worse, F.OfAge, F.Rank;
      var cached := F.Unavailable;
      var haveCache := cache.Some? && F.Valid(cache.value.freshness);
      if haveCache {
        cached := F.Worse(cache.value.freshness, F.OfAge(now - cache.value.fetched, staleAfter, unavailableAfter));
        if now - cache.value.fetched < CACHE_TTL {
          return Cached(cached);
        }
      }
      var call := if flight in pending then Some(pending[flight]) else None;
      var knownFailed := flight.target in retry;
      GuardAgrees(pending, retry, probes, log, flight, now);
      if call.None? && flight.target !in probes && (knownFailed ==> now > retry[flight.target])
           && |pending| < MAX_PENDING {
        var new_ := Call(started, flight, knownFailed);
        StartRepresented(pending, retry, probes, log, new_, now);
        StartLogged(log, new_, now);
        pending := pending[flight := new_];
        if knownFailed {
          probes := probes + {flight.target};
        }
        started := started + 1;
        log := log + [Started(new_, now)];
        call := Some(new_);
      }
      if haveCache && !readiness {
        return Cached(cached);
      }
      if knownFailed {
        return KnownFailed;
      }
      if call.None? {
        return Busy;
      }
      return Wait(call.value);
    }

    /** The completion of a started call, which its goroutine performs once. */
    method Complete(call: Call, ok: bool, now: int)
      requires Valid() && call in Open(log) && (log != [] ==> Last(log).at <= now)
      modifies this
      ensures Valid() && log == old(log) + [Finished(call, ok, now)]
      ensures old(call.flight in pending && pending[call.flight] == call) && pending == old(pending) - {call.flight}
    {
      FinishOpen(pending, log, call, ok, now);
      FinishRepresented(pending, retry, probes, log, call, ok, now);
      AppendLog(log, Finished(call, ok, now));
      var target := call.flight.target;
      if !ok {
        retry := retry[target := now + RETRY_DELAY];
      } else {
        retry := retry - {target};
      }
      if call.probe {
        probes := probes - {target};
      }
      pending := pending - {call.flight};
      log := log + [Finished(call, ok, now)];
    }

    /** The limits on the maps themselves. */
    lemma {:induction false} WithinLimits()
      requires Valid()
      ensures |pending| <= 32
      ensures forall t :: t in probes <==> exists f :: f in pending && pending[f].probe && f.target == t
      ensures forall f, g ::
                f in pending && g in pending && pending[f].probe && pending[g].probe && f.target == g.target ==> f == g
    {
      Bounded(log);
      DistinctValues(pending);
      forall f | f in pending ensures pending[f] in Open(log) {}
      forall t ensures t in probes <==> exists f :: f in pending && pending[f].probe && f.target == t {
        if t in probes {
          var c :| c in Open(log) && c.probe && c.flight.target == t;
          var f :| f in pending && pending[f] == c;
        }
      }
    }
  }
}

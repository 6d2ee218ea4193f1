/** Which (kind, namespace) pairs the collector watches. A round of discovery may prove additions; only a round whose
    permission reviews are complete proves that a watch has to go. */
module Watches {
  import opened Model

  type Kind = string

  /** The unit of leader election: a kind and one of 16 groups of namespaces. */
  datatype Target = Target(kind: Kind, partition: nat)

  const PARTITIONS := 16

  type Plan = map<Target, set<string>>

  datatype Request = Request(id: string, kind: Kind)

  /** What one round found out: the wanted pairs, whether discovery and the permission reviews went through, and the
      resync requests if they could be read. */
  datatype Round = Round(wanted: map<Kind, set<string>>, discovered: bool, complete: bool,
                         requests: Option<seq<Request>>)

  /** crc stands for the checksum of the namespace name. */
  function PartitionOf(crc: string -> nat, namespace: string): (p: nat)
    ensures p < 16
    ensures namespace == "" ==> p == 0
    ensures namespace != "" ==> exists k :: crc(namespace) == k * 16 + p
  {
    assert crc(namespace) == crc(namespace) / 16 * 16 + crc(namespace) % 16;
    if namespace == "" then 0 else crc(namespace) % PARTITIONS
  }

  function TargetOf(crc: string -> nat, kind: Kind, namespace: string): Target {
    Target(kind, PartitionOf(crc, namespace))
  }

  ghost predicate Wants(wanted: map<Kind, set<string>>, kind: Kind, namespace: string) {
    kind in wanted && namespace in wanted[kind]
  }

  ghost predicate Watches(plan: Plan, t: Target, namespace: string) {
    t in plan && namespace in plan[t]
  }

  /** Every wanted pair under its own target, and nothing else. */
  ghost predicate Partitions(plan: Plan, wanted: map<Kind, set<string>>, crc: string -> nat) {
    && (forall t, n :: Watches(plan, t, n) <==> Wants(wanted, t.kind, n) && t == TargetOf(crc, t.kind, n))
    && (forall t :: t in plan ==> plan[t] != {})
  }

  /** The partitions of a kind are below 16, disjoint, and cover its wanted namespaces. */
  lemma {:induction false} PartitionsCover(plan: Plan, wanted: map<Kind, set<string>>, crc: string -> nat)
    requires Partitions(plan, wanted, crc)
    ensures forall t :: t in plan ==> t.partition < 16
    ensures forall t, u :: t in plan && u in plan && t.kind == u.kind && t != u ==> plan[t] !! plan[u]
    ensures forall kind, n :: Wants(wanted, kind, n) <==> Watches(plan, TargetOf(crc, kind, n), n)
  {
    forall t | t in plan ensures t.partition < PARTITIONS {
      var n :| n in plan[t];
      assert Watches(plan, t, n);
    }
    forall t, u | t in plan && u in plan && t.kind == u.kind && t != u ensures plan[t] !! plan[u] {
      forall n | n in plan[t] && n in plan[u] ensures false {
        assert Watches(plan, t, n) && Watches(plan, u, n);
      }
    }
  }

  method PartitionNamespaces(wanted: map<Kind, set<string>>, crc: string -> nat) returns (plan: Plan)
    ensures Partitions(plan, wanted, crc)
  {
    plan := map[];
    var kinds: set<Kind> := {};
    while kinds != wanted.Keys
      invariant kinds <= wanted.Keys
      invariant Partitions(plan, map k | k in kinds :: wanted[k], crc)
      decreases wanted.Keys - kinds
    {
      var kind :| kind in wanted && kind !in kinds;
      ghost var before := map k | k in kinds :: wanted[k];
      var names: set<string> := {};
      StartKind(plan, before, crc, kind);
      while names != wanted[kind]
        invariant names <= wanted[kind]
        invariant Partitions(plan, before[kind := names], crc)
        decreases wanted[kind] - names
      {
        var n :| n in wanted[kind] && n !in names;
        var target := TargetOf(crc, kind, n);
        PlanOneMore(plan, before, names, crc, kind, n);
        plan := plan[target := (if target in plan then plan[target] else {}) + {n}];
        names := names + {n};
      }
      kinds := kinds + {kind};
      assert (map k | k in kinds :: wanted[k]) == before[kind := names];
    }
    assert (map k | k in kinds :: wanted[k]) == wanted;
  }

  lemma {:induction false} StartKind(plan: Plan, before: map<Kind, set<string>>, crc: string -> nat, kind: Kind)
    requires Partitions(plan, before, crc) && kind !in before
    ensures Partitions(plan, before[kind := {}], crc)
  {
    forall t, n ensures Wants(before[kind := {}], t, n) <==> Wants(before, t, n) {}
  }

  lemma {:induction false} PlanOneMore(plan: Plan, before: map<Kind, set<string>>, names: set<string>,
                                       crc: string -> nat, kind: Kind, n: string)
    requires Partitions(plan, before[kind := names], crc)
    ensures var target := TargetOf(crc, kind, n);
            Partitions(plan[target := (if target in plan then plan[target] else {}) + {n}], before[kind := names + {n}],
                       crc)
  {
    var target := TargetOf(crc, kind, n);
    var more := plan[target := (if target in plan then plan[target] else {}) + {n}];
    forall t, m ensures Watches(more, t, m) <==>
               Wants(before[kind := names + {n}], t.kind, m) && t == TargetOf(crc, t.kind, m) {
      assert Watches(plan, t, m) <==> Wants(before[kind := names], t.kind, m) && t == TargetOf(crc, t.kind, m);
      assert Watches(more, t, m) <==> Watches(plan, t, m) || (t == target && m == n);
    }
  }

  /* ---------- what a round leaves ---------- */

  ghost function Union(a: Plan, b: Plan): Plan {
    map t | t in a.Keys + b.Keys :: (if t in a then a[t] else {}) + if t in b then b[t] else {}
  }

  /** The namespaces of every shard after a round that elects this plan. */
  ghost function After(states: Plan, plan: Plan, round: Round): Plan {
    if !round.complete then Union(states, plan)
    else if !round.discovered then states + plan
    else plan
  }

  /** A round drops a pair only with complete permissions, and only if it does not want it; a shard as a whole only
      after a complete discovery. */
  lemma {:induction false} DroppedOnProof(states: Plan, plan: Plan, round: Round, crc: string -> nat, t: Target,
                                          n: string)
    requires Partitions(plan, round.wanted, crc)
    requires Watches(states, t, n) && t == TargetOf(crc, t.kind, n)
    ensures Watches(After(states, plan, round), t, n) || (round.complete && !Wants(round.wanted, t.kind, n))
    ensures t in After(states, plan, round) || round.discovered
  {
    assert Watches(plan, t, n) <==> Wants(round.wanted, t.kind, n);
  }

  /** A round watches everything it wants. */
  lemma {:induction false} WantedIsWatched(states: Plan, plan: Plan, round: Round, crc: string -> nat, kind: Kind,
                                           n: string)
    requires Partitions(plan, round.wanted, crc) && Wants(round.wanted, kind, n)
    ensures Watches(After(states, plan, round), TargetOf(crc, kind, n), n)
  {
    assert Watches(plan, TargetOf(crc, kind, n), n);
  }

  /** Namespaces sit under their own target. */
  ghost predicate Placed(states: Plan, crc: string -> nat) {
    forall t, n :: Watches(states, t, n) ==> t == TargetOf(crc, t.kind, n)
  }

  lemma {:induction false} AfterIsPlaced(states: Plan, plan: Plan, round: Round, crc: string -> nat)
    requires Placed(states, crc) && Partitions(plan, round.wanted, crc)
    ensures Placed(After(states, plan, round), crc)
  {
    forall t, n | Watches(After(states, plan, round), t, n) ensures t == TargetOf(crc, t.kind, n) {
      assert Watches(states, t, n) || Watches(plan, t, n);
    }
  }

  /* ---------- runs ---------- */

  ghost function Run(states: Plan, plans: seq<Plan>, rounds: seq<Round>): Plan
    requires |plans| == |rounds|
    decreases |rounds|
  {
    if rounds == [] then states else Run(After(states, plans[0], rounds[0]), plans[1..], rounds[1..])
  }

  /** Over any sequence of rounds, a pair that is watched at the beginning and not at the end was dropped by a round
      with complete permissions that did not want it. */
  lemma {:induction false} ShrinksOnlyOnProof(states: Plan, plans: seq<Plan>, rounds: seq<Round>, crc: string -> nat,
                                              t: Target, n: string)
    requires |plans| == |rounds| && forall i :: 0 <= i < |rounds| ==> Partitions(plans[i], rounds[i].wanted, crc)
    requires Watches(states, t, n) && t == TargetOf(crc, t.kind, n) && !Watches(Run(states, plans, rounds), t, n)
    ensures exists i :: 0 <= i < |rounds| && rounds[i].complete && !Wants(rounds[i].wanted, t.kind, n)
    decreases |rounds|
  {
    DroppedOnProof(states, plans[0], rounds[0], crc, t, n);
    if Watches(After(states, plans[0], rounds[0]), t, n) {
      ShrinksOnlyOnProof(After(states, plans[0], rounds[0]), plans[1..], rounds[1..], crc, t, n);
      var i :| 0 <= i < |rounds[1..]| && rounds[1..][i].complete && !Wants(rounds[1..][i].wanted, t.kind, n);
      assert rounds[i + 1] == rounds[1..][i];
    }
  }

  /* ---------- the collector ---------- */

  /** The request that a resync of this kind and id was made by. */
  ghost predicate Requested(requests: seq<Request>, id: string, kind: Kind) {
    exists i :: 0 <= i < |requests| && requests[i] == Request(id, kind)
  }

  /** The kind is restarted between these two sets of applied requests. */
  ghost predicate Restarted(before: map<string, Kind>, after: map<string, Kind>, kind: Kind) {
    exists id :: id in after && id !in before && after[id] == kind
  }

  ghost predicate Keeps(before: map<string, Kind>, after: map<string, Kind>) {
    forall id :: id in before ==> id in after && after[id] == before[id]
  }

  /** Applied requests keep their meaning; new ones were requested for a wanted kind. */
  ghost predicate Extends(before: map<string, Kind>, after: map<string, Kind>, requests: seq<Request>,
                          wanted: map<Kind, set<string>>) {
    && Keeps(before, after)
    && (forall id :: id in after && id !in before ==> Requested(requests, id, after[id]) && after[id] in wanted)
  }

  /** The shards that survive: those whose kind was not restarted. */
  ghost predicate Survive(before: map<Target, nat>, after: map<Target, nat>, was: map<string, Kind>,
                          now: map<string, Kind>) {
    && (forall t :: t in after <==> t in before && !Restarted(was, now, t.kind))
    && (forall t :: t in after ==> after[t] == before[t])
  }

  /** What applying some of the requests leaves of the shards. */
  ghost predicate Resynced(shards: map<Target, nat>, states: Plan, applied: map<string, Kind>,
                           shards': map<Target, nat>, states': Plan, applied': map<string, Kind>,
                           requests: seq<Request>, wanted: map<Kind, set<string>>) {
    && Extends(applied, applied', requests, wanted)
    && Survive(shards, shards', applied, applied')
    && forall t :: t in states' ==> t in states && states'[t] == states[t]
  }

  /** Every request for a wanted kind is applied, under its own kind. */
  ghost predicate AllApplied(requests: seq<Request>, wanted: map<Kind, set<string>>, applied: map<string, Kind>) {
    forall i :: 0 <= i < |requests| && requests[i].kind in wanted ==>
               requests[i].id in applied && applied[requests[i].id] == requests[i].kind
  }

  /** The requests applied, and whether none contradicts what its id was applied for. */
  datatype Resync = Resync(applied: map<string, Kind>, ok: bool)

  /** Requests are taken in order; the first that contradicts an applied one ends it. */
  function ResyncOf(applied: map<string, Kind>, requests: seq<Request>, wanted: map<Kind, set<string>>): Resync
    decreases requests
  {
    if requests == [] then Resync(applied, true)
    else
      var r := requests[0];
      if r.id in applied && applied[r.id] != r.kind then Resync(applied, false)
      else ResyncOf(if r.id in applied || r.kind !in wanted then applied else applied[r.id := r.kind], requests[1..],
                    wanted)
  }

  lemma {:induction false} ResyncKeeps(applied: map<string, Kind>, requests: seq<Request>,
                                       wanted: map<Kind, set<string>>)
    ensures Keeps(applied, ResyncOf(applied, requests, wanted).applied)
    decreases requests
  {
    if requests != [] {
      var r := requests[0];
      var next := if r.id in applied || r.kind !in wanted then applied else applied[r.id := r.kind];
      if !(r.id in applied && applied[r.id] != r.kind) {
        ResyncKeeps(next, requests[1..], wanted);
      }
    }
  }

  /** Every request for a wanted kind before the one that contradicts is applied, and all of them if none does. */
  lemma {:induction false} RequestsApplied(applied: map<string, Kind>, requests: seq<Request>,
                                           wanted: map<Kind, set<string>>) returns (n: nat)
    ensures n <= |requests| && AllApplied(requests[..n], wanted, ResyncOf(applied, requests, wanted).applied)
    ensures ResyncOf(applied, requests, wanted).ok <==> n == |requests|
    ensures n < |requests| ==>
              var after := ResyncOf(applied, requests, wanted).applied;
              requests[n].id in after && after[requests[n].id] != requests[n].kind
    decreases requests
  {
    n := 0;
    if requests != [] {
      var r := requests[0];
      var next := if r.id in applied || r.kind !in wanted then applied else applied[r.id := r.kind];
      if !(r.id in applied && applied[r.id] != r.kind) {
        var m := RequestsApplied(next, requests[1..], wanted);
        ResyncKeeps(next, requests[1..], wanted);
        n := m + 1;
        var after := ResyncOf(applied, requests, wanted).applied;
        forall i | 0 <= i < n && requests[..n][i].kind in wanted
          ensures requests[i].id in after && after[requests[i].id] == requests[i].kind
        {
          if i > 0 {
            assert requests[1..][..m][i - 1] == requests[i];
          }
        }
      }
    }
  }

  lemma {:induction false} NoneApplied(shards: map<Target, nat>, states: Plan, applied: map<string, Kind>,
                                       requests: seq<Request>, wanted: map<Kind, set<string>>)
    ensures Resynced(shards, states, applied, shards, states, applied, requests, wanted)
    ensures AllApplied(requests[..0], wanted, applied)
  {}

  lemma {:induction false} AppliedSnoc(requests: seq<Request>, request: Request, wanted: map<Kind, set<string>>,
                                       applied: map<string, Kind>)
    requires AllApplied(requests, wanted, applied)
    ensures request.kind !in wanted || (request.id in applied && applied[request.id] == request.kind)
        ==> AllApplied(requests + [request], wanted, applied)
  {}

  lemma {:induction false} AppliedMore(requests: seq<Request>, i: nat, wanted: map<Kind, set<string>>,
                                       applied: map<string, Kind>)
    requires i < |requests| && requests[i].id !in applied
    ensures AllApplied(requests[..i], wanted, applied) ==>
                AllApplied(requests[..i + 1], wanted, applied[requests[i].id := requests[i].kind])
  {
    var now := applied[requests[i].id := requests[i].kind];
    if AllApplied(requests[..i], wanted, applied) {
      forall k | 0 <= k < i + 1 && requests[k].kind in wanted
        ensures requests[k].id in now && now[requests[k].id] == requests[k].kind {
        assert k < i ==> requests[..i][k] == requests[k];
      }
    }
  }

  lemma {:induction false} ApplyKeepsShards(shards: map<Target, nat>, states: Plan, lives: nat, crc: string -> nat,
                                            kind: Kind)
    requires shards.Keys == states.Keys && Placed(states, crc) && forall t :: t in shards ==> shards[t] < lives
    ensures var shards', states' :=
                map t | t in shards && t.kind != kind :: shards[t], map t | t in states && t.kind != kind :: states[t];
            shards'.Keys == states'.Keys && Placed(states', crc) && forall t :: t in shards' ==> shards'[t] < lives
  {
    var states' := map t | t in states && t.kind != kind :: states[t];
    forall t, n | Watches(states', t, n) ensures t == TargetOf(crc, t.kind, n) {
      assert Watches(states, t, n);
    }
  }

  /** The plan carried out so far: the shards named in `done` are up to date, everything else is as it was. */
  ghost predicate Electing(shards: map<Target, nat>, states: Plan, shards': map<Target, nat>, states': Plan, plan: Plan,
                           done: set<Target>, from: nat) {
    && shards'.Keys == states'.Keys == states.Keys + done
    && (forall t :: t in states' ==>
            states'[t] == if t in done && t in plan then plan[t] else if t in states then states[t] else {})
    && (forall t :: t in shards ==> t in shards' && shards'[t] == shards[t])
    && (forall t :: t in shards' && t !in shards ==> shards'[t] >= from)
  }

  lemma {:induction false} ElectOne(shards: map<Target, nat>, states: Plan, shards': map<Target, nat>, states': Plan,
                                    plan: Plan, done: set<Target>, from: nat, life: nat, target: Target)
    requires Electing(shards, states, shards', states', plan, done, from) && shards.Keys == states.Keys
    requires target in plan && target !in done && life >= from
    ensures var more := if target in states' then shards' else shards'[target := life];
            Electing(shards, states, more, states'[target := plan[target]], plan, done + {target}, from)
  {}

  lemma {:induction false} Elected(shards: map<Target, nat>, states: Plan, shards': map<Target, nat>, states': Plan,
                                   plan: Plan, from: nat, crc: string -> nat)
    requires Electing(shards, states, shards', states', plan, plan.Keys, from) && Placed(states, crc)
    requires Placed(plan, crc)
    ensures states' == states + plan && Placed(states', crc)
  {
    forall t, n | Watches(states + plan, t, n) ensures t == TargetOf(crc, t.kind, n) {
      assert Watches(states, t, n) || Watches(plan, t, n);
    }
  }

  /** The collector's maps; the life of a shard, told apart by a number, stands for its context. */
  datatype View = View(shards: map<Target, nat>, states: Plan, applied: map<string, Kind>, lives: nat)

  ghost predicate Consistent(v: View, crc: string -> nat) {
    && v.shards.Keys == v.states.Keys
    && Placed(v.states, crc)
    && forall t :: t in v.shards ==> v.shards[t] < v.lives
  }

  /** What one round does: the watches its findings call for, and restarts only for requests that it applies. */
  ghost predicate Reconciled(before: View, after: View, round: Round, crc: string -> nat) {
    && (exists plan :: Partitions(plan, round.wanted, crc) && after.states == After(before.states, plan, round))
    && (if round.requests.Some? && round.discovered && round.complete
        then Extends(before.applied, after.applied, round.requests.value, round.wanted)
        else after.applied == before.applied)
    && after.applied == AfterRequests(before, round)
    // a shard that stays keeps its life, unless its kind is restarted
    && (forall t :: t in after.shards && t in before.shards && !Restarted(before.applied, after.applied, t.kind) ==>
          after.shards[t] == before.shards[t])
    && (forall t :: t in after.shards && Restarted(before.applied, after.applied, t.kind) ==>
            after.shards[t] >= before.lives)
    && (forall t :: t in after.shards && t !in before.shards ==> after.shards[t] >= before.lives)
  }

  class Collector {
    const crc: string -> nat
    var shards: map<Target, nat>
    var states: Plan
    var applied: map<string, Kind>
    var lives: nat

    ghost predicate Valid()
      reads this
    {
      Consistent(View(shards, states, applied, lives), crc)
    }

    ghost function Maps(): View
      reads this
    {
      View(shards, states, applied, lives)
    }

    constructor (crc: string -> nat)
      ensures Valid() && this.crc == crc && states == map[] && applied == map[]
    {
      this.crc := crc;
      shards, states, applied, lives := map[], map[], map[], 0;
    }

    /** Restarts the kinds of the requests that were not applied yet, in order; stops at a request whose id is known
        for another kind. */
    method ApplyResyncRequests(requests: seq<Request>, wanted: map<Kind, set<string>>) returns (ok: bool)
      requires Valid()
      modifies `shards, `states, `applied
      ensures Valid()
      ensures Resynced(old(shards), old(states), old(applied), shards, states, applied, requests, wanted)
      ensures Resync(applied, ok) == ResyncOf(old(applied), requests, wanted)
      ensures ok ==> AllApplied(requests, wanted, applied)
      ensures !ok ==>
                  exists i :: 0 <= i < |requests| && requests[i].id in applied
                    && applied[requests[i].id] != requests[i].kind
    {
      hide Extends, Survive, Placed, AllApplied;
      NoneApplied(shards, states, applied, requests, wanted);
      assert requests[0..] == requests;
      for i := 0 to |requests|
        invariant ResyncOf(applied, requests[i..], wanted) == ResyncOf(old(applied), requests, wanted)
        invariant Valid() && Resynced(old(shards), old(states), old(applied), shards, states, applied, requests, wanted)
        invariant AllApplied(requests[..i], wanted, applied)
      {
        var request := requests[i];
        assert requests[..i + 1] == requests[..i] + [request];
        assert requests[i..][0] == request && requests[i..][1..] == requests[i + 1..];
        AppliedSnoc(requests[..i], request, wanted, applied);
        if request.id in applied {
          if applied[request.id] != request.kind {
            return false;
          }
          continue;
        }
        if request.kind !in wanted {
          continue;
        }
        ApplyOne(old(shards), old(states), old(applied), shards, states, applied, requests, wanted, i);
        ApplyKeepsShards(shards, states, lives, crc, request.kind);
        shards := map t | t in shards && t.kind != request.kind :: shards[t];
        states := map t | t in states && t.kind != request.kind :: states[t];
        applied := applied[request.id := request.kind];
      }
      assert requests[..|requests|] == requests;
      return true;
    }

    /** One round. */
    method Reconcile(round: Round) returns (ready: bool)
      requires Valid()
      modifies this
      ensures Valid()
      ensures Reconciled(old(Maps()), Maps(), round, crc)
      ensures ready <==> (round.discovered && round.complete) || shards != map[]
    {
      hide Consistent, Reconciled, Extended, Partitions, Placed, Kept;
      ghost var before := Maps();
      NothingKept(before, round);
      if round.requests.Some? && round.discovered && round.complete {
        var ok := ApplyResyncRequests(round.requests.value, round.wanted);
        ResyncKept(before, Maps(), round);
      }
      ghost var kept := Maps();
      var plan := PartitionNamespaces(round.wanted, crc);
      ghost var partition := plan;
      if !round.complete {
        plan := Preserve(plan, states);
      }
      PlanIsPlaced(before, kept, partition, plan, round, crc);
      Elect(plan);
      ghost var extended := Maps();
      if round.discovered && round.complete {
        shards := map t | t in shards && t in plan :: shards[t];
        states := map t | t in states && t in plan :: states[t];
      }
      ready := (round.discovered && round.complete) || shards != map[];
      SameKeys(extended, crc);
      RoundReconciles(before, kept, extended, Maps(), partition, plan, round, crc);
    }

    /** Updates the shards of the plan that run, and starts the others. */
    method Elect(plan: Plan)
      requires Valid() && Placed(plan, crc)
      modifies this
      ensures Valid() && Extended(old(Maps()), Maps(), plan)
    {
      hide Placed, Electing;
      ghost var before, beforeStates, from := shards, states, lives;
      var done: set<Target> := {};
      NothingElected(shards, states, plan, from);
      while done != plan.Keys
        invariant done <= plan.Keys && shards.Keys == states.Keys && (forall t :: t in shards ==> shards[t] < lives)
        invariant Electing(before, beforeStates, shards, states, plan, done, from)
        invariant lives >= from && applied == old(applied)
        decreases plan.Keys - done
      {
        var target :| target in plan && target !in done;
        ElectOne(before, beforeStates, shards, states, plan, done, from, lives, target);
        if target !in states {
          shards := shards[target := lives];
          lives := lives + 1;
        }
        states := states[target := plan[target]];
        done := done + {target};
      }
      Elected(before, beforeStates, shards, states, plan, from, crc);
      ElectedLives(before, beforeStates, shards, states, plan, from);
    }
  }

  lemma {:induction false} NothingElected(shards: map<Target, nat>, states: Plan, plan: Plan, from: nat)
    requires shards.Keys == states.Keys
    ensures Electing(shards, states, shards, states, plan, {}, from)
  {}

  lemma {:induction false} ElectedLives(shards: map<Target, nat>, states: Plan, shards': map<Target, nat>,
                                        states': Plan, plan: Plan, from: nat)
    requires Electing(shards, states, shards', states', plan, plan.Keys, from)
    ensures forall t :: t in shards ==> t in shards' && shards'[t] == shards[t]
    ensures forall t :: t in shards' && t !in shards ==> shards'[t] >= from
  {}

  method Preserve(plan: Plan, existing: Plan) returns (r: Plan)
    ensures r == Union(existing, plan)
  {
    r := plan;
    var done: set<Target> := {};
    while done != existing.Keys
      invariant done <= existing.Keys && r.Keys == plan.Keys + done
      invariant forall t :: t in r ==>
                    r[t] == (if t in done then existing[t] else {}) + if t in plan then plan[t] else {}
      decreases existing.Keys - done
    {
      var target :| target in existing && target !in done;
      r := r[target := (if target in r then r[target] else {}) + existing[target]];
      done := done + {target};
    }
  }

  /** Electing a plan in a round, after restarts, leaves what After says. */
  lemma {:induction false} SameKeys(v: View, crc: string -> nat)
    requires Consistent(v, crc)
    ensures v.shards.Keys == v.states.Keys
  {}

  /** What electing a plan leaves: running shards keep their lives, the others get new ones. */
  ghost predicate Extended(before: View, after: View, plan: Plan) {
    && after.states == before.states + plan && after.applied == before.applied
    && (forall t :: t in before.shards ==> t in after.shards && after.shards[t] == before.shards[t])
    && (forall t :: t in after.shards && t !in before.shards ==> after.shards[t] >= before.lives)
  }

  /** The applied requests after a round; one with incomplete discovery or permissions applies none. */
  ghost function AfterRequests(before: View, round: Round): map<string, Kind> {
    if round.requests.Some? && round.discovered && round.complete
    then ResyncOf(before.applied, round.requests.value, round.wanted).applied
    else before.applied
  }

  /** The maps after the resync requests of a round, if it may apply any. */
  ghost predicate Kept(before: View, kept: View, round: Round) {
    && kept.lives == before.lives && kept.applied == AfterRequests(before, round)
    && if round.requests.Some? && round.discovered && round.complete
       then Resynced(before.shards, before.states, before.applied, kept.shards, kept.states, kept.applied,
                     round.requests.value, round.wanted)
       else kept == before
  }

  lemma {:induction false} NothingKept(before: View, round: Round)
    ensures !(round.requests.Some? && round.discovered && round.complete) ==> Kept(before, before, round)
  {}

  lemma {:induction false} ResyncKept(before: View, kept: View, round: Round)
    requires round.requests.Some? && round.discovered && round.complete && kept.lives == before.lives
    requires kept.applied == AfterRequests(before, round)
    requires Resynced(before.shards, before.states, before.applied, kept.shards, kept.states, kept.applied,
                      round.requests.value, round.wanted)
    ensures Kept(before, kept, round)
  {}

  /** The plan a round elects: in an incomplete round everything that is watched is added to it. */
  ghost predicate Elects(kept: View, partition: Plan, plan: Plan, round: Round) {
    plan == if round.complete then partition else Union(kept.states, partition)
  }

  lemma {:induction false} PlanIsPlaced(before: View, kept: View, partition: Plan, plan: Plan, round: Round,
                                        crc: string -> nat)
    requires Consistent(kept, crc) && Partitions(partition, round.wanted, crc) && Elects(kept, partition, plan, round)
    ensures Placed(plan, crc)
  {
    forall t, n | Watches(plan, t, n) ensures t == TargetOf(crc, t.kind, n) {
      assert Watches(partition, t, n) || Watches(kept.states, t, n);
    }
  }

  lemma {:induction false} ElectedStates(before: View, kept: View, extended: View, after: View, partition: Plan,
                                         plan: Plan, round: Round)
    requires Kept(before, kept, round) && Elects(kept, partition, plan, round) && Extended(kept, extended, plan)
    requires after.states == if round.discovered && round.complete
                             then map t | t in extended.states && t in plan :: extended.states[t] else extended.states
    ensures after.states == After(before.states, partition, round)
  {
    if !round.complete {
      assert kept.states + plan == plan;
    }
  }

  lemma {:induction false} ElectedShards(before: View, kept: View, extended: View, after: View, plan: Plan,
                                         round: Round)
    requires Kept(before, kept, round) && Extended(kept, extended, plan)
    requires forall t :: t in after.shards ==> t in extended.shards && after.shards[t] == extended.shards[t]
    ensures forall t :: t in after.shards && t in before.shards && !Restarted(before.applied, kept.applied, t.kind) ==>
              after.shards[t] == before.shards[t]
    ensures forall t :: t in after.shards && Restarted(before.applied, kept.applied, t.kind) ==>
                after.shards[t] >= before.lives
    ensures forall t :: t in after.shards && t !in before.shards ==> after.shards[t] >= before.lives
  {
    if kept == before {
      assert forall kind :: !Restarted(before.applied, kept.applied, kind);
    }
    hide Restarted, Extends;
  }

  lemma {:induction false} RoundReconciles(before: View, kept: View, extended: View, after: View, partition: Plan,
                                           plan: Plan, round: Round, crc: string -> nat)
    requires Consistent(before, crc) && Consistent(extended, crc) && Partitions(partition, round.wanted, crc)
    requires Kept(before, kept, round) && Elects(kept, partition, plan, round) && Extended(kept, extended, plan)
    requires if round.discovered && round.complete
             then after == extended.(shards := map t | t in extended.shards && t in plan :: extended.shards[t],
                                     states := map t | t in extended.states && t in plan :: extended.states[t])
             else after == extended
    requires extended.shards.Keys == extended.states.Keys
    ensures Reconciled(before, after, round, crc) && Consistent(after, crc)
  {
    hide Partitions, Placed, After, Restarted, Elects, Kept, Extends, Consistent;
    ElectedStates(before, kept, extended, after, partition, plan, round);
    ElectedShards(before, kept, extended, after, plan, round);
    KeptExtends(before, kept, round);
    StaysConsistent(before, extended, after, partition, round, crc);
  }

  lemma {:induction false} KeptExtends(before: View, kept: View, round: Round)
    requires Kept(before, kept, round)
    ensures if round.requests.Some? && round.discovered && round.complete
            then Extends(before.applied, kept.applied, round.requests.value, round.wanted)
            else kept.applied == before.applied
    ensures kept.applied == AfterRequests(before, round)
  {}

  lemma {:induction false} StaysConsistent(before: View, extended: View, after: View, partition: Plan, round: Round,
                                           crc: string -> nat)
    requires Consistent(before, crc) && Consistent(extended, crc) && Partitions(partition, round.wanted, crc)
    requires after.states == After(before.states, partition, round) && after.lives == extended.lives
    requires after.shards.Keys == after.states.Keys
    requires forall t :: t in after.shards ==> t in extended.shards && after.shards[t] == extended.shards[t]
    ensures Consistent(after, crc)
  {
    AfterIsPlaced(before.states, partition, round, crc);
  }

  lemma {:induction false} RestartedSnoc(was: map<string, Kind>, applied: map<string, Kind>, request: Request,
                                         kind: Kind)
    requires request.id !in applied && forall id :: id in was ==> id in applied
    ensures Restarted(was, applied[request.id := request.kind], kind) <==>
                Restarted(was, applied, kind) || kind == request.kind
  {
    var now := applied[request.id := request.kind];
    if Restarted(was, applied, kind) {
      var id :| id in applied && id !in was && applied[id] == kind;
      assert id in now && now[id] == kind;
    }
    assert now[request.id] == request.kind && request.id !in was;
  }

  lemma {:induction false} ApplyOne(first: map<Target, nat>, firstStates: Plan, was: map<string, Kind>,
                                    shards: map<Target, nat>, states: Plan, applied: map<string, Kind>,
                                    requests: seq<Request>, wanted: map<Kind, set<string>>, i: nat)
    requires i < |requests| && requests[i].id !in applied && requests[i].kind in wanted
    requires Resynced(first, firstStates, was, shards, states, applied, requests, wanted)
    ensures var kind, now := requests[i].kind, applied[requests[i].id := requests[i].kind];
            Resynced(first, firstStates, was, map t | t in shards && t.kind != kind :: shards[t],
                     map t | t in states && t.kind != kind :: states[t], now, requests, wanted)
    ensures AllApplied(requests[..i], wanted, applied) ==>
                AllApplied(requests[..i + 1], wanted, applied[requests[i].id := requests[i].kind])
  {
    var now := applied[requests[i].id := requests[i].kind];
    assert requests[i] == Request(requests[i].id, requests[i].kind);
    forall kind ensures Restarted(was, now, kind) <==> Restarted(was, applied, kind) || kind == requests[i].kind {
      RestartedSnoc(was, applied, requests[i], kind);
    }
    assert Requested(requests, requests[i].id, requests[i].kind);
    hide Restarted, Requested;
    AppliedMore(requests, i, wanted, applied);
  }

  /* ---------- resync requests over many rounds ---------- */

  /** views[i] and views[i + 1] are the collector's maps before and after rounds[i]. */
  ghost predicate Rounds(views: seq<View>, rounds: seq<Round>, crc: string -> nat) {
    && |views| == |rounds| + 1
    && (forall i :: 0 <= i < |views| ==> Consistent(views[i], crc))
    && forall i, j :: 0 <= i < j < |views| && j == i + 1 ==> Reconciled(views[i], views[j], rounds[i], crc)
  }

  /** Round i applies this request. */
  ghost predicate Applies(views: seq<View>, i: nat, id: string)
    requires i + 1 < |views|
  {
    id !in views[i].applied && id in views[i + 1].applied
  }

  lemma {:induction false} RoundKeepsMeaning(before: View, after: View, round: Round, crc: string -> nat)
    requires Reconciled(before, after, round, crc)
    ensures Keeps(before.applied, after.applied)
  {}

  lemma {:induction false} KeepsMeaning(views: seq<View>, rounds: seq<Round>, crc: string -> nat, i: nat, j: nat,
                                        id: string)
    requires Rounds(views, rounds, crc) && i <= j < |views| && id in views[i].applied
    ensures id in views[j].applied && views[j].applied[id] == views[i].applied[id]
    decreases j - i
  {
    if i < j {
      assert Reconciled(views[i], views[i + 1], rounds[i], crc);
      RoundKeepsMeaning(views[i], views[i + 1], rounds[i], crc);
      KeepsMeaning(views, rounds, crc, i + 1, j, id);
    }
  }

  /** A request is applied in at most one round, and means the same kind ever after. */
  lemma {:induction false} AppliedOnce(views: seq<View>, rounds: seq<Round>, crc: string -> nat, i: nat, j: nat,
                                       id: string)
    requires Rounds(views, rounds, crc) && i < j < |rounds| && Applies(views, i, id)
    ensures !Applies(views, j, id)
    ensures id in views[j].applied && views[j].applied[id] == views[i + 1].applied[id]
  {
    KeepsMeaning(views, rounds, crc, i + 1, j, id);
  }

  /** Round i gives a running shard a new life. */
  ghost predicate NewLife(views: seq<View>, i: nat, t: Target)
    requires i + 1 < |views|
  {
    t in views[i].shards && t in views[i + 1].shards && views[i].shards[t] != views[i + 1].shards[t]
  }

  /** A shard that stays is restarted exactly in the rounds that apply a request of its kind. */
  lemma {:induction false} RestartNeedsRequest(views: seq<View>, rounds: seq<Round>, crc: string -> nat, i: nat,
                                               t: Target)
    requires Rounds(views, rounds, crc) && i < |rounds| && t in views[i].shards && t in views[i + 1].shards
    ensures NewLife(views, i, t) <==> exists id :: Applies(views, i, id) && views[i + 1].applied[id] == t.kind
  {
    assert Reconciled(views[i], views[i + 1], rounds[i], crc);
    assert Consistent(views[i], crc);
    if Restarted(views[i].applied, views[i + 1].applied, t.kind) {
      var id :| id in views[i + 1].applied && id !in views[i].applied && views[i + 1].applied[id] == t.kind;
      assert Applies(views, i, id);
    }
  }

  /** Over any sequence of rounds every restart of a shard takes a request of its own: no request id restarts its
      kind in two rounds. */
  lemma {:induction false} EachRestartItsOwnRequest(views: seq<View>, rounds: seq<Round>, crc: string -> nat, i: nat,
                                                    j: nat, t: Target) returns (first: string, second: string)
    requires Rounds(views, rounds, crc) && i < j < |rounds| && NewLife(views, i, t) && NewLife(views, j, t)
    ensures first != second && Applies(views, i, first) && Applies(views, j, second)
    ensures views[i + 1].applied[first] == t.kind == views[j + 1].applied[second]
  {
    RestartNeedsRequest(views, rounds, crc, i, t);
    RestartNeedsRequest(views, rounds, crc, j, t);
    first :| Applies(views, i, first) && views[i + 1].applied[first] == t.kind;
    second :| Applies(views, j, second) && views[j + 1].applied[second] == t.kind;
    AppliedOnce(views, rounds, crc, i, j, first);
  }
}

/** The watches of one shard: the collector assigns the wanted namespaces and signals the change, the shard's loop
    takes the signal, reads the namespaces, and starts and stops watches one by one, in any interleaving. */
module ShardWatch {
  import opened Seqs

  /** The loop waits, has taken the signal, or carries out the namespaces it has read. */
  datatype Phase = Idle | Woken | Carrying(snapshot: set<string>)

  /** The reconcile marker of a revoked namespace; handed says whether its sending succeeded, that is, whether it
      was accepted or spooled. */
  datatype Marker = Marker(namespace: string, handed: bool)

  /** signalling: the namespaces are assigned and the signal is still to come. started counts every watch ever
      started. */
  datatype State = State(wanted: set<string>, signalling: bool, changed: bool, phase: Phase, running: set<string>,
                         started: multiset<string>, markers: seq<Marker>)

  datatype Action =
    | Assign(namespaces: set<string>)
    | Signal
    | Wake
    | Snapshot
    | Start(namespace: string)
    | Stop(namespace: string, handed: bool)
    | Finish

  /** The loop begins with a reconciliation that nobody signalled. */
  function Initial(wanted: set<string>): State {
    State(wanted, false, false, Woken, {}, multiset{}, [])
  }

  predicate Enabled(s: State, a: Action) {
    match a
    case Assign(_) => !s.signalling
    case Signal => s.signalling
    case Wake => s.phase.Idle? && s.changed
    case Snapshot => s.phase.Woken?
    case Start(n) => s.phase.Carrying? && n in s.phase.snapshot && n !in s.running
    case Stop(n, _) => s.phase.Carrying? && s.phase.snapshot <= s.running && n in s.running && n !in s.phase.snapshot
    case Finish => s.phase.Carrying? && s.running == s.phase.snapshot
  }

  function Step(s: State, a: Action): State {
    if !Enabled(s, a) then s
    else
      match a
      case Assign(namespaces) => s.(wanted := namespaces, signalling := true)
      case Signal => s.(signalling := false, changed := true)
      case Wake => s.(changed := false, phase := Woken)
      case Snapshot => s.(phase := Carrying(s.wanted))
      case Start(n) => s.(running := s.running + {n}, started := s.started + multiset{n})
      case Stop(n, handed) => s.(running := s.running - {n}, markers := s.markers + [Marker(n, handed)])
      case Finish => s.(phase := Idle)
  }

  function Run(s: State, actions: seq<Action>): State
    decreases actions
  {
    if actions == [] then s else Run(Step(s, actions[0]), actions[1..])
  }

  lemma {:induction false} RunSnoc(s: State, actions: seq<Action>, a: Action)
    ensures Run(s, actions + [a]) == Step(Run(s, actions), a)
    decreases actions
  {
    if actions == [] {
      assert [] + [a] == [a];
    } else {
      assert (actions + [a])[1..] == actions[1..] + [a];
      RunSnoc(Step(s, actions[0]), actions[1..], a);
    }
  }

  /* ---------- no update is lost ---------- */

  /** What the loop will not look at again is what is wanted. */
  ghost predicate Noticed(s: State) {
    || s.changed || s.signalling || s.phase.Woken?
    || (s.phase.Carrying? && s.phase.snapshot == s.wanted)
    || (s.phase.Idle? && s.running == s.wanted)
  }

  lemma {:induction false} StepIsNoticed(s: State, a: Action)
    requires Noticed(s)
    ensures Noticed(Step(s, a))
  {}

  lemma {:induction false} RunIsNoticed(s: State, actions: seq<Action>)
    requires Noticed(s)
    ensures Noticed(Run(s, actions))
    decreases actions
  {
    if actions != [] {
      StepIsNoticed(s, actions[0]);
      RunIsNoticed(Step(s, actions[0]), actions[1..]);
    }
  }

  /** In every interleaving: whenever the loop waits without a signal and no update is under way, exactly the wanted
      namespaces are watched. */
  lemma {:induction false} NoUpdateIsLost(wanted: set<string>, actions: seq<Action>)
    ensures var s := Run(Initial(wanted), actions);
            s.phase.Idle? && !s.changed && !s.signalling ==> s.running == s.wanted
  {
    RunIsNoticed(Initial(wanted), actions);
  }

  /* ---------- markers ---------- */

  function Closed(markers: seq<Marker>): multiset<string> {
    if markers == [] then multiset{}
    else Closed(markers[..|markers| - 1]) + multiset{markers[|markers| - 1].namespace}
  }

  /** The markers of a namespace that reach the API or the spool. */
  function HandedOver(markers: seq<Marker>, namespace: string): nat {
    if markers == [] then 0
    else
      var last := markers[|markers| - 1];
      HandedOver(markers[..|markers| - 1], namespace) + if last == Marker(namespace, true) then 1 else 0
  }

  ghost predicate Balanced(s: State) {
    s.started == Closed(s.markers) + multiset(s.running)
  }

  lemma {:induction false} ClosedSnoc(markers: seq<Marker>, m: Marker)
    ensures Closed(markers + [m]) == Closed(markers) + multiset{m.namespace}
    ensures forall n :: HandedOver(markers + [m], n) == HandedOver(markers, n) + if m == Marker(n, true) then 1 else 0
  {
    assert (markers + [m])[..|markers|] == markers;
  }

  lemma {:induction false} StepKeepsBalance(s: State, a: Action)
    requires Balanced(s)
    ensures Balanced(Step(s, a))
  {
    if Enabled(s, a) {
      match a
      case Start(n) =>
        OneMoreWatch(s.running, n);
      case Stop(n, handed) =>
        hide Closed, Enabled;
        ClosedSnoc(s.markers, Marker(n, handed));
        OneMoreWatch(s.running - {n}, n);
        assert s.running - {n} + {n} == s.running;
      case _ =>
    }
  }

  lemma {:induction false} OneMoreWatch(running: set<string>, n: string)
    requires n !in running
    ensures multiset(running + {n}) == multiset(running) + multiset{n}
  {}

  lemma {:induction false} RunKeepsBalance(s: State, actions: seq<Action>)
    requires Balanced(s)
    ensures Balanced(Run(s, actions))
    decreases actions
  {
    if actions != [] {
      StepKeepsBalance(s, actions[0]);
      RunKeepsBalance(Step(s, actions[0]), actions[1..]);
    }
  }

  /** In every interleaving every watch that was started either still runs or was closed by exactly one attempt to
      send its reconcile marker. */
  lemma {:induction false} OneMarkerPerWatch(wanted: set<string>, actions: seq<Action>, namespace: string)
    ensures var s := Run(Initial(wanted), actions);
            s.started[namespace] == Closed(s.markers)[namespace] + if namespace in s.running then 1 else 0
  {
    RunKeepsBalance(Initial(wanted), actions);
  }

  /** A marker that could not be sent is not made up for: until the namespace is watched again, no marker of it
      follows. */
  lemma {:induction false} LostMarkerIsNotRepeated(s: State, actions: seq<Action>, namespace: string)
    requires namespace !in s.running && Start(namespace) !in actions
    ensures HandedOver(Run(s, actions).markers, namespace) == HandedOver(s.markers, namespace)
    ensures namespace !in Run(s, actions).running
    decreases actions
  {
    if actions != [] {
      var a := actions[0];
      if a.Stop? && Enabled(s, a) {
        ClosedSnoc(s.markers, Marker(a.namespace, a.handed));
      }
      LostMarkerIsNotRepeated(Step(s, a), actions[1..], namespace);
    }
  }

  /* ---------- the loop ---------- */

  /** What the collector does meanwhile: nothing, the first half of an update, or the second. */
  datatype Disturbance = Quiet | Assigns(namespaces: set<string>) | Signals

  /** The namespaces of some markers, in order. */
  function Names(markers: seq<Marker>): (names: seq<string>)
    ensures |names| == |markers| && forall i :: 0 <= i < |names| ==> names[i] == markers[i].namespace
  {
    if markers == [] then [] else Names(markers[..|markers| - 1]) + [markers[|markers| - 1].namespace]
  }

  /** Each of these namespaces got exactly one attempt at a marker, with the outcomes given. */
  ghost predicate MarkedOnce(closed: seq<Marker>, revoked: set<string>, sent: nat -> bool) {
    && Distinct(Names(closed)) && Elems(Names(closed)) == revoked
    && forall i :: 0 <= i < |closed| ==> closed[i].handed == sent(i)
  }

  lemma {:induction false} NothingMarked(sent: nat -> bool)
    ensures MarkedOnce([], {}, sent)
  {}

  lemma {:induction false} OneMoreMarked(closed: seq<Marker>, revoked: set<string>, sent: nat -> bool, marker: Marker)
    requires MarkedOnce(closed, revoked, sent) && marker.namespace !in revoked && marker.handed == sent(|closed|)
    ensures MarkedOnce(closed + [marker], revoked + {marker.namespace}, sent)
  {
    NameAdded(closed, marker);
  }

  lemma {:induction false} StartStep(s: State, n: string)
    requires Enabled(s, Start(n))
    ensures Step(s, Start(n)) == s.(running := s.running + {n}, started := s.started + multiset{n})
  {}

  lemma {:induction false} RunNothing(s: State)
    ensures Run(s, []) == s
  {}

  class Watcher {
    var wanted: set<string>
    var signalling: bool
    var changed: bool
    var phase: Phase
    var running: set<string>
    var markers: seq<Marker>
    ghost var started: multiset<string>

    ghost function Machine(): State
      reads this
    {
      State(wanted, signalling, changed, phase, running, started, markers)
    }

    constructor (wanted: set<string>)
      ensures Machine() == Initial(wanted)
    {
      this.wanted, signalling, changed, phase, running, markers := wanted, false, false, Woken, {}, [];
      started := multiset{};
    }

    method Disturb(d: Disturbance) returns (ghost actions: seq<Action>)
      modifies `wanted, `signalling, `changed
      ensures Machine() == Run(old(Machine()), actions)
    {
      actions := [];
      match d
      case Quiet =>
      case Assigns(namespaces) =>
        if !signalling {
          wanted, signalling := namespaces, true;
          actions := [Assign(namespaces)];
        }
      case Signals =>
        if signalling {
          signalling, changed := false, true;
          actions := [Signal];
        }
    }

    /** One reconciliation, while updates come in at any moment: sent(i) is the outcome of the i-th marker. What was
        read is watched afterwards, every revoked namespace got one attempt at a marker with that outcome, and unless
        an update is still to be noticed what is watched is what is wanted. */
    method Reconcile(updates: nat -> Disturbance, sent: nat -> bool)
      returns (snapshot: set<string>, ghost actions: seq<Action>)
      requires phase.Woken? && Noticed(Machine())
      modifies this
      ensures Machine() == Run(old(Machine()), actions) && Noticed(Machine())
      ensures phase.Idle? && running == snapshot
      ensures changed || signalling || running == wanted
      ensures old(markers) <= markers && MarkedOnce(markers[|old(markers)|..], old(running) - snapshot, sent)
    {
      hide Run, MarkedOnce;
      ghost var first := Machine();
      snapshot := wanted;
      phase := Carrying(snapshot);
      actions := [Snapshot];
      RunSnoc(first, [], Snapshot);
      RunNothing(first);
      assert [] + [Snapshot] == actions;
      var turn: nat;
      turn, actions := StartWatches(snapshot, updates, first, actions);
      assert running - snapshot == old(running) - snapshot;
      actions := StopWatches(snapshot, updates, turn, sent, first, actions);
      RunSnoc(first, actions, Finish);
      phase := Idle;
      actions := actions + [Finish];
      RunIsNoticed(first, actions);
    }

    method StartWatches(snapshot: set<string>, updates: nat -> Disturbance, ghost first: State,
                        ghost before: seq<Action>)
      returns (turn: nat, ghost actions: seq<Action>)
      requires phase == Carrying(snapshot) && Machine() == Run(first, before)
      modifies `wanted, `signalling, `changed, `running, `started
      ensures Machine() == Run(first, actions) && running == old(running) + snapshot
    {
      hide Run, Step;
      turn, actions := 0, before;
      while !(snapshot <= running)
        invariant phase == Carrying(snapshot) && Machine() == Run(first, actions)
        invariant old(running) <= running <= old(running) + snapshot
        decreases snapshot - running
      {
        actions := Interrupted(first, actions, updates(turn));
        var n :| n in snapshot && n !in running;
        RunSnoc(first, actions, Start(n));
        StartStep(Machine(), n);
        running := running + {n};
        started := started + multiset{n};
        actions := actions + [Start(n)];
        turn := turn + 1;
      }
    }

    method StopWatches(snapshot: set<string>, updates: nat -> Disturbance, turn: nat, sent: nat -> bool,
                       ghost first: State, ghost before: seq<Action>)
      returns (ghost actions: seq<Action>)
      requires phase == Carrying(snapshot) && Machine() == Run(first, before) && snapshot <= running
      modifies `wanted, `signalling, `changed, `running, `markers
      ensures Machine() == Run(first, actions) && running == snapshot
      ensures old(markers) <= markers && MarkedOnce(markers[|old(markers)|..], old(running) - snapshot, sent)
    {
      hide Run, MarkedOnce;
      actions := before;
      ghost var closed: seq<Marker> := [];
      NothingMarked(sent);
      assert old(running) - running == {};
      var stopped: nat := 0;
      while running != snapshot
        invariant phase == Carrying(snapshot) && Machine() == Run(first, actions)
        invariant snapshot <= running <= old(running) && markers == old(markers) + closed
        invariant stopped == |closed| && MarkedOnce(closed, old(running) - running, sent)
        decreases running
      {
        actions := Interrupted(first, actions, updates(turn + stopped));
        var n :| n in running && n !in snapshot;
        var marker := Marker(n, sent(stopped));
        RunSnoc(first, actions, Stop(n, marker.handed));
        ghost var revoked := old(running) - running;
        OneMoreMarked(closed, revoked, sent, marker);
        running := running - {n};
        markers := markers + [marker];
        closed := closed + [marker];
        assert old(running) - running == revoked + {n};
        actions := actions + [Stop(n, marker.handed)];
        stopped := stopped + 1;
      }
      assert markers[|old(markers)|..] == closed;
    }

    /** An update, or half of one, between two steps of the loop. */
    method Interrupted(ghost first: State, ghost before: seq<Action>, d: Disturbance)
      returns (ghost actions: seq<Action>)
      requires Machine() == Run(first, before)
      modifies `wanted, `signalling, `changed
      ensures Machine() == Run(first, actions)
    {
      ghost var more := Disturb(d);
      actions := before + more;
      RunAppend(first, before, more);
    }
  }

  lemma {:induction false} RunAppend(s: State, a: seq<Action>, b: seq<Action>)
    ensures Run(s, a + b) == Run(Run(s, a), b)
    decreases a
  {
    if a == [] {
      assert a + b == b;
    } else {
      assert (a + b)[1..] == a[1..] + b;
      RunAppend(Step(s, a[0]), a[1..], b);
    }
  }

  lemma {:induction false} NameAdded(closed: seq<Marker>, marker: Marker)
    requires Distinct(Names(closed)) && marker.namespace !in Elems(Names(closed))
    ensures Distinct(Names(closed + [marker]))
    ensures Elems(Names(closed + [marker])) == Elems(Names(closed)) + {marker.namespace}
  {
    assert (closed + [marker])[..|closed|] == closed;
    assert Names(closed + [marker]) == Names(closed) + [marker.namespace];
    forall i | 0 <= i < |closed| ensures Names(closed)[i] != marker.namespace {
      assert Names(closed)[i] in Elems(Names(closed));
    }
  }
}

/** Resolving the children of requested parents, here and on the federation targets. A parent nobody resolved is
    labelled live only when everyone who could resolve it has answered properly. */
module Graph {
  import opened Model
  import opened Seqs
  import F = Freshness
  import L = Lookup

  /** What a target sends: resolved is None in answers of servers that only send the children map. */
  datatype Resolution = Resolution(children: map<nat, seq<L.Item>>, depth: int, dated: bool, freshness: F.Level,
                                   resolved: Option<seq<nat>>, parents: map<nat, F.Level>)

  /** resolution is None when the body does not decode or has no children map. */
  datatype Answer = CallFailed | Body(freshness: F.Level, resolution: Option<Resolution>)

  datatype Response = BadRequest | Resolved(children: map<nat, seq<L.Item>>, parents: map<nat, F.Level>,
                                            resolved: seq<nat>, freshness: F.Level)

  predicate WellFormed(x: Resolution) {
    x.depth == 1 && x.dated && F.Valid(x.freshness)
  }

  /** The parents an answer claims to know. */
  ghost function Claimed(x: Resolution): set<nat> {
    if x.resolved.Some? then Elems(x.resolved.value) else x.children.Keys
  }

  /** The freshness an answer states for a parent; an absent or empty entry stands for that of the whole answer. */
  function Stated(x: Resolution, id: nat): F.Level {
    if id in x.parents && x.parents[id] != F.Unrecognized("") then x.parents[id] else x.freshness
  }

  function Entries(x: Resolution, id: nat): seq<L.Item> {
    if id in x.children then x.children[id] else []
  }

  predicate AllValid(entries: seq<L.Item>) {
    forall i :: 0 <= i < |entries| ==> entries[i].valid
  }

  predicate Believable(x: Resolution, id: nat) {
    F.Valid(Stated(x, id)) && AllValid(Entries(x, id))
  }

  predicate Usable(a: Answer) {
    a.Body? && a.resolution.Some? && WellFormed(a.resolution.value)
  }

  ghost predicate Resolves(a: Answer, missing: set<nat>, id: nat) {
    Usable(a) && id in missing && id in Claimed(a.resolution.value) && Believable(a.resolution.value, id)
  }

  ghost predicate ResolvedBy(answers: seq<Answer>, missing: set<nat>, id: nat) {
    exists k :: 0 <= k < |answers| && Resolves(answers[k], missing, id)
  }

  /** A live answer that claims only what it was asked for, and whose claims are either believable or not needed any
      more. */
  ghost predicate Honest(a: Answer, before: seq<Answer>, missing: set<nat>) {
    && Usable(a) && a.freshness.Live? && a.resolution.value.freshness.Live?
    && forall id :: id in Claimed(a.resolution.value) ==>
         id in missing && (ResolvedBy(before, missing, id) || Believable(a.resolution.value, id))
  }

  ghost predicate AllHonest(answers: seq<Answer>, missing: set<nat>) {
    forall k :: 0 <= k < |answers| ==> Honest(answers[k], answers[..k], missing)
  }

  /** Every entry at least as stale as its parent. */
  function Relabel(entries: seq<L.Item>, level: F.Level): (r: seq<L.Item>)
    ensures |r| == |entries|
    ensures forall i :: 0 <= i < |r| ==> r[i] == entries[i].(freshness := F.Worse(entries[i].freshness, level))
  {
    if entries == [] then []
    else
      var last := entries[|entries| - 1];
      Relabel(entries[..|entries| - 1], level) + [last.(freshness := F.Worse(last.freshness, level))]
  }

  /** What an answer says about a parent. */
  ghost predicate TakenFrom(a: Answer, id: nat, level: F.Level, entries: seq<L.Item>) {
    && Usable(a) && level == F.Worse(a.freshness, Stated(a.resolution.value, id))
    && entries == Relabel(Entries(a.resolution.value, id), level)
  }

  /** An answer counts when its body decodes, is dated, has depth one and a valid freshness. It resolves a parent that
      is missing here and that it claims, if what it states for the parent is a valid freshness and every child is
      valid. Without a list of resolved parents it claims the parents it has children for. */
  lemma {:induction false} ResolvesExactly(a: Answer, missing: set<nat>, id: nat)
    ensures Resolves(a, missing, id) <==>
              && a.Body? && a.resolution.Some? && id in missing
              && var x := a.resolution.value;
                 && x.depth == 1 && x.dated && !x.freshness.Unrecognized?
                 && (if x.resolved.Some? then id in x.resolved.value else id in x.children)
                 && (id in x.parents ==> !x.parents[id].Unrecognized? || x.parents[id].text == "")
                 && (id in x.children ==> forall i :: 0 <= i < |x.children[id]| ==> x.children[id][i].valid)
  {}

  /** A parent taken from an answer has the worse of the answer's level and the level stated for it, or the one stated
      for the whole resolution where nothing or the empty string is stated; its children are those of the answer, each
      at least as stale as the parent, and none if the answer lists none. */
  lemma {:induction false} TakenAsStated(a: Answer, id: nat, level: F.Level, entries: seq<L.Item>)
    requires TakenFrom(a, id, level, entries)
    ensures var x := a.resolution.value;
            && (id in x.parents && x.parents[id] != F.Unrecognized("") ==> level == F.Worse(a.freshness, x.parents[id]))
            && (id !in x.parents || x.parents[id] == F.Unrecognized("") ==> level == F.Worse(a.freshness, x.freshness))
            && (id !in x.children ==> entries == [])
            && (id in x.children ==> |entries| == |x.children[id]| && forall i :: 0 <= i < |entries| ==>
                  entries[i] == x.children[id][i].(freshness := F.Worse(x.children[id][i].freshness, level)))
  {}

  /** The first answer that resolves the parent decides. */
  ghost predicate FirstTaken(answers: seq<Answer>, missing: set<nat>, id: nat, level: F.Level, entries: seq<L.Item>) {
    exists k :: 0 <= k < |answers| && Resolves(answers[k], missing, id) && !ResolvedBy(answers[..k], missing, id)
             && TakenFrom(answers[k], id, level, entries)
  }

  datatype Merge = Merge(children: map<nat, seq<L.Item>>, parents: map<nat, F.Level>, resolved: seq<nat>, allLive: bool)

  /** The parents known so far, all of them listed once. */
  ghost predicate Listed(m: Merge) {
    && m.children.Keys == m.parents.Keys && Elems(m.resolved) == m.parents.Keys && Distinct(m.resolved)
    && forall id :: id in m.parents ==> F.Valid(m.parents[id])
  }

  ghost predicate LocalKept(m: Merge, local: map<nat, seq<L.Item>>, here: F.Level) {
    forall id :: id in local ==>
               id in m.parents && id in m.children && m.parents[id] == here
                 && m.children[id] == L.Labelled(local[id], here)
  }

  ghost predicate RemoteTaken(m: Merge, local: map<nat, seq<L.Item>>, answers: seq<Answer>, missing: set<nat>) {
    && (forall id :: id in m.parents <==> id in local || ResolvedBy(answers, missing, id))
    && (forall id :: id in m.parents && id in m.children && id !in local ==>
            FirstTaken(answers, missing, id, m.parents[id], m.children[id]))
  }

  ghost predicate Judged(m: Merge, here: F.Level, answers: seq<Answer>, missing: set<nat>) {
    m.allLive <==> here.Live? && AllHonest(answers, missing)
  }

  ghost predicate Gathered(m: Merge, local: map<nat, seq<L.Item>>, here: F.Level, answers: seq<Answer>,
                           missing: set<nat>) {
    && Listed(m) && LocalKept(m, local, here) && RemoteTaken(m, local, answers, missing)
    && Judged(m, here, answers, missing)
  }

  lemma {:induction false} ResolvedBySnoc(answers: seq<Answer>, a: Answer, missing: set<nat>, id: nat)
    ensures ResolvedBy(answers + [a], missing, id) <==> ResolvedBy(answers, missing, id) || Resolves(a, missing, id)
  {
    var more := answers + [a];
    if ResolvedBy(answers, missing, id) {
      var k :| 0 <= k < |answers| && Resolves(answers[k], missing, id);
      assert more[k] == answers[k];
    } else if Resolves(a, missing, id) {
      assert more[|answers|] == a;
    }
  }

  lemma {:induction false} AllHonestSnoc(answers: seq<Answer>, a: Answer, missing: set<nat>)
    ensures AllHonest(answers + [a], missing) <==> AllHonest(answers, missing) && Honest(a, answers, missing)
  {
    var more := answers + [a];
    assert more[|answers|] == a && more[..|answers|] == answers;
    forall k | 0 <= k < |answers| ensures more[k] == answers[k] && more[..k] == answers[..k] {}
  }

  lemma {:induction false} FirstTakenSnoc(answers: seq<Answer>, a: Answer, missing: set<nat>, id: nat, level: F.Level,
                                          entries: seq<L.Item>)
    ensures FirstTaken(answers, missing, id, level, entries) ==> FirstTaken(answers + [a], missing, id, level, entries)
    ensures (!ResolvedBy(answers, missing, id) && Resolves(a, missing, id) && TakenFrom(a, id, level, entries))
         ==> FirstTaken(answers + [a], missing, id, level, entries)
  {
    var more := answers + [a];
    assert more[|answers|] == a && more[..|answers|] == answers;
    if FirstTaken(answers, missing, id, level, entries) {
      var k :| 0 <= k < |answers| && Resolves(answers[k], missing, id) && !ResolvedBy(answers[..k], missing, id)
               && TakenFrom(answers[k], id, level, entries);
      assert more[k] == answers[k] && more[..k] == answers[..k];
    }
  }

  /** FirstTaken transfers between two last answers that differ only in how much of the claims has been read. */
  lemma {:induction false} FirstTakenMore(answers: seq<Answer>, a: Answer, b: Answer, missing: set<nat>, id: nat,
                                          level: F.Level, entries: seq<L.Item>)
    requires FirstTaken(answers + [a], missing, id, level, entries)
    requires Resolves(a, missing, id) ==> Resolves(b, missing, id)
    requires TakenFrom(a, id, level, entries) ==> TakenFrom(b, id, level, entries)
    ensures FirstTaken(answers + [b], missing, id, level, entries)
  {
    var was, now := answers + [a], answers + [b];
    var k :| 0 <= k < |was| && Resolves(was[k], missing, id) && !ResolvedBy(was[..k], missing, id)
      && TakenFrom(was[k], id, level, entries);
    assert was[..k] == now[..k];
    assert k < |answers| ==> now[k] == was[k];
    assert now[|answers|] == b && was[|answers|] == a;
  }

  /** An answer read up to some of its claims. */
  function UpTo(level: F.Level, x: Resolution, claims: seq<nat>): Answer {
    Body(level, Some(x.(resolved := Some(claims))))
  }

  /** Reading one more claim of a usable answer. */
  function TakeClaim(m: Merge, level: F.Level, x: Resolution, id: nat, missing: set<nat>): Merge {
    if id !in missing then m.(allLive := false)
    else if id in m.parents then m
    else if !Believable(x, id) then m.(allLive := false)
    else
      var stated := F.Worse(level, Stated(x, id));
      m.(children := m.children[id := Relabel(Entries(x, id), stated)], parents := m.parents[id := stated],
         resolved := m.resolved + [id])
  }

  lemma {:induction false} UpToMore(level: F.Level, x: Resolution, claims: seq<nat>, id: nat, missing: set<nat>,
                                    other: nat)
    requires WellFormed(x)
    ensures Resolves(UpTo(level, x, claims + [id]), missing, other)
         <==> Resolves(UpTo(level, x, claims), missing, other) || (other == id && id in missing && Believable(x, id))
    ensures Believable(x.(resolved := Some(claims)), other) <==> Believable(x, other)
  {}

  lemma {:induction false} HonestMore(level: F.Level, x: Resolution, claims: seq<nat>, id: nat, before: seq<Answer>,
                                      missing: set<nat>)
    requires WellFormed(x)
    ensures Honest(UpTo(level, x, claims + [id]), before, missing)
         <==> (Honest(UpTo(level, x, claims), before, missing) && id in missing
               && (ResolvedBy(before, missing, id) || Believable(x, id)))
  {
    var a, b := UpTo(level, x, claims), UpTo(level, x, claims + [id]);
    assert Claimed(b.resolution.value) == Claimed(a.resolution.value) + {id};
    assert forall c :: Believable(a.resolution.value, c) == Believable(x, c) == Believable(b.resolution.value, c);
  }

  lemma {:induction false} TakeListed(m: Merge, level: F.Level, x: Resolution, id: nat, missing: set<nat>)
    requires Listed(m) && F.Valid(level)
    ensures Listed(TakeClaim(m, level, x, id, missing))
  {
    if id in missing && id !in m.parents && Believable(x, id) {
      var stated := F.Worse(level, Stated(x, id));
      AddListed(m, id, stated, Relabel(Entries(x, id), stated));
    }
  }

  lemma {:induction false} TakeResolves(answers: seq<Answer>, level: F.Level, x: Resolution, claims: seq<nat>, id: nat,
                                        missing: set<nat>, c: nat)
    requires WellFormed(x)
    ensures ResolvedBy(answers + [UpTo(level, x, claims + [id])], missing, c)
         <==> (ResolvedBy(answers + [UpTo(level, x, claims)], missing, c)
               || (c == id && id in missing && Believable(x, id)))
    ensures Resolves(UpTo(level, x, claims), missing, c) ==> Resolves(UpTo(level, x, claims + [id]), missing, c)
  {
    var a, b := UpTo(level, x, claims), UpTo(level, x, claims + [id]);
    UpToMore(level, x, claims, id, missing, c);
    hide Resolves, Believable, UpTo, ResolvedBy;
    ResolvedBySnoc(answers, a, missing, c);
    ResolvedBySnoc(answers, b, missing, c);
  }

  lemma {:induction false} KeepTaken(answers: seq<Answer>, level: F.Level, x: Resolution, claims: seq<nat>, id: nat,
                                     missing: set<nat>, c: nat, tag: F.Level, entries: seq<L.Item>)
    requires WellFormed(x) && FirstTaken(answers + [UpTo(level, x, claims)], missing, c, tag, entries)
    ensures FirstTaken(answers + [UpTo(level, x, claims + [id])], missing, c, tag, entries)
  {
    TakeResolves(answers, level, x, claims, id, missing, c);
    FirstTakenMore(answers, UpTo(level, x, claims), UpTo(level, x, claims + [id]), missing, c, tag, entries);
  }

  /** The claim at hand, when nothing resolved the parent before. */
  lemma {:induction false} NewlyTaken(answers: seq<Answer>, level: F.Level, x: Resolution, claims: seq<nat>, id: nat,
                                      missing: set<nat>)
    requires WellFormed(x) && id in missing && Believable(x, id)
    requires !ResolvedBy(answers + [UpTo(level, x, claims)], missing, id)
    ensures var stated := F.Worse(level, Stated(x, id));
            FirstTaken(answers + [UpTo(level, x, claims + [id])], missing, id, stated, Relabel(Entries(x, id), stated))
  {
    var stated := F.Worse(level, Stated(x, id));
    var b := UpTo(level, x, claims + [id]);
    UpToMore(level, x, claims, id, missing, id);
    ResolvedBySnoc(answers, UpTo(level, x, claims), missing, id);
    assert TakenFrom(b, id, stated, Relabel(Entries(x, id), stated));
    FirstTakenSnoc(answers, b, missing, id, stated, Relabel(Entries(x, id), stated));
  }

  lemma {:induction false} TakeRemote(m: Merge, local: map<nat, seq<L.Item>>, answers: seq<Answer>, level: F.Level,
                                      x: Resolution, claims: seq<nat>, id: nat, missing: set<nat>)
    requires RemoteTaken(m, local, answers + [UpTo(level, x, claims)], missing) && WellFormed(x)
    requires local.Keys !! missing
    ensures RemoteTaken(TakeClaim(m, level, x, id, missing), local, answers + [UpTo(level, x, claims + [id])], missing)
  {
    hide WellFormed, Believable, FirstTaken, ResolvedBy, UpTo, Relabel, F.Worse;
    var a, b, n := UpTo(level, x, claims), UpTo(level, x, claims + [id]), TakeClaim(m, level, x, id, missing);
    forall c ensures ResolvedBy(answers + [b], missing, c) <==>
               ResolvedBy(answers + [a], missing, c) || (c == id && id in missing && Believable(x, id)) {
      TakeResolves(answers, level, x, claims, id, missing, c);
    }
    forall c | c in n.parents && c in n.children && c !in local
      ensures FirstTaken(answers + [b], missing, c, n.parents[c], n.children[c]) {
      if c in m.parents && c in m.children && n.parents[c] == m.parents[c] && n.children[c] == m.children[c] {
        KeepTaken(answers, level, x, claims, id, missing, c, n.parents[c], n.children[c]);
      } else {
        NewlyTaken(answers, level, x, claims, id, missing);
      }
    }
  }

  lemma {:induction false} TakeJudged(m: Merge, local: map<nat, seq<L.Item>>, here: F.Level, answers: seq<Answer>,
                                      level: F.Level, x: Resolution, claims: seq<nat>, id: nat, missing: set<nat>)
    requires Judged(m, here, answers + [UpTo(level, x, claims)], missing) && WellFormed(x) && local.Keys !! missing
    requires RemoteTaken(m, local, answers + [UpTo(level, x, claims)], missing)
    ensures Judged(TakeClaim(m, level, x, id, missing), here, answers + [UpTo(level, x, claims + [id])], missing)
  {
    var a, b := UpTo(level, x, claims), UpTo(level, x, claims + [id]);
    AllHonestSnoc(answers, a, missing);
    AllHonestSnoc(answers, b, missing);
    HonestMore(level, x, claims, id, answers, missing);
    ResolvedBySnoc(answers, a, missing, id);
    UpToMore(level, x, claims, id, missing, id);
  }

  lemma {:induction false} TakeGathered(m: Merge, local: map<nat, seq<L.Item>>, here: F.Level, answers: seq<Answer>,
                                        level: F.Level, x: Resolution, claims: seq<nat>, id: nat, missing: set<nat>)
    requires Gathered(m, local, here, answers + [UpTo(level, x, claims)], missing) && WellFormed(x)
    requires local.Keys !! missing && F.Valid(level)
    ensures Gathered(TakeClaim(m, level, x, id, missing), local, here, answers + [UpTo(level, x, claims + [id])],
                     missing)
  {
    hide RemoteTaken, AllHonest, Listed;
    TakeListed(m, level, x, id, missing);
    TakeRemote(m, local, answers, level, x, claims, id, missing);
    TakeJudged(m, local, here, answers, level, x, claims, id, missing);
  }

  /** Two answers that mean the same. */
  ghost predicate SameClaims(a: Answer, b: Answer) {
    && Usable(a) && Usable(b) && a.freshness == b.freshness
    && Claimed(a.resolution.value) == Claimed(b.resolution.value)
    && b.resolution.value == a.resolution.value.(resolved := b.resolution.value.resolved)
  }

  lemma {:induction false} SameRemote(m: Merge, local: map<nat, seq<L.Item>>, answers: seq<Answer>, a: Answer,
                                      b: Answer, missing: set<nat>)
    requires RemoteTaken(m, local, answers + [b], missing) && SameClaims(a, b)
    ensures RemoteTaken(m, local, answers + [a], missing)
  {
    forall id ensures ResolvedBy(answers + [a], missing, id) <==> ResolvedBy(answers + [b], missing, id) {
      ResolvedBySnoc(answers, a, missing, id);
      ResolvedBySnoc(answers, b, missing, id);
      SameResolves(a, b, missing, id);
    }
    forall id | id in m.parents && id in m.children && id !in local
      ensures FirstTaken(answers + [a], missing, id, m.parents[id], m.children[id]) {
      SameResolves(a, b, missing, id);
      SameTaken(a, b, id, m.parents[id], m.children[id]);
      FirstTakenMore(answers, b, a, missing, id, m.parents[id], m.children[id]);
    }
  }

  lemma {:induction false} SameResolves(a: Answer, b: Answer, missing: set<nat>, id: nat)
    requires SameClaims(a, b)
    ensures Resolves(a, missing, id) <==> Resolves(b, missing, id)
  {}

  lemma {:induction false} SameTaken(a: Answer, b: Answer, id: nat, level: F.Level, entries: seq<L.Item>)
    requires SameClaims(a, b)
    ensures TakenFrom(a, id, level, entries) <==> TakenFrom(b, id, level, entries)
  {}

  lemma {:induction false} SameGathered(m: Merge, local: map<nat, seq<L.Item>>, here: F.Level, answers: seq<Answer>,
                                        a: Answer, b: Answer, missing: set<nat>)
    requires Gathered(m, local, here, answers + [b], missing) && SameClaims(a, b)
    ensures Gathered(m, local, here, answers + [a], missing)
  {
    SameHonest(answers, a, b, missing);
    AllHonestSnoc(answers, a, missing);
    AllHonestSnoc(answers, b, missing);
    hide AllHonest, Honest, SameClaims, RemoteTaken, Listed, LocalKept;
    SameRemote(m, local, answers, a, b, missing);
  }

  lemma {:induction false} SameHonest(before: seq<Answer>, a: Answer, b: Answer, missing: set<nat>)
    requires SameClaims(a, b)
    ensures Honest(a, before, missing) <==> Honest(b, before, missing)
  {
    assert forall id :: Believable(a.resolution.value, id) == Believable(b.resolution.value, id);
  }

  lemma {:induction false} StartRemote(m: Merge, local: map<nat, seq<L.Item>>, answers: seq<Answer>, a: Answer,
                                       missing: set<nat>)
    requires RemoteTaken(m, local, answers, missing) && (Usable(a) ==> Claimed(a.resolution.value) == {})
    ensures RemoteTaken(m, local, answers + [a], missing)
  {
    forall id ensures ResolvedBy(answers + [a], missing, id) <==> ResolvedBy(answers, missing, id) {
      ResolvedBySnoc(answers, a, missing, id);
    }
    forall id | id in m.parents && id in m.children && id !in local
      ensures FirstTaken(answers + [a], missing, id, m.parents[id], m.children[id]) {
      FirstTakenSnoc(answers, a, missing, id, m.parents[id], m.children[id]);
    }
  }

  /** An answer before its claims are read, or one that is not usable, resolves nothing. */
  lemma {:induction false} StartGathered(m: Merge, n: Merge, local: map<nat, seq<L.Item>>, here: F.Level,
                                         answers: seq<Answer>, a: Answer, missing: set<nat>)
    requires Gathered(m, local, here, answers, missing) && (Usable(a) ==> Claimed(a.resolution.value) == {})
    requires n == m.(allLive := m.allLive && Usable(a) && a.freshness.Live? && a.resolution.value.freshness.Live?)
    ensures Gathered(n, local, here, answers + [a], missing)
  {
    AllHonestSnoc(answers, a, missing);
    StartRemote(m, local, answers, a, missing);
    assert Honest(a, answers, missing) <==> Usable(a) && a.freshness.Live? && a.resolution.value.freshness.Live?;
    hide AllHonest, Honest, RemoteTaken, Listed, LocalKept;
    OnlyJudgementMoved(m, n, local, here, answers + [a], missing);
  }

  lemma {:induction false} OnlyJudgementMoved(m: Merge, n: Merge, local: map<nat, seq<L.Item>>, here: F.Level,
                                              answers: seq<Answer>, missing: set<nat>)
    requires n == m.(allLive := n.allLive) && RemoteTaken(m, local, answers, missing) && Listed(m)
    requires LocalKept(m, local, here)
    ensures RemoteTaken(n, local, answers, missing) && Listed(n) && LocalKept(n, local, here)
  {}

  ghost predicate ValidAnswers(answers: seq<Answer>) {
    forall k :: 0 <= k < |answers| && answers[k].Body? ==> F.Valid(answers[k].freshness)
  }

  /** The local parents, in the order a map iteration happens to give. */
  method Here(local: map<nat, seq<L.Item>>, here: F.Level, ghost missing: set<nat>) returns (m: Merge)
    requires F.Valid(here)
    ensures m.parents.Keys == local.Keys && Gathered(m, local, here, [], missing)
  {
    hide *;
    m := Merge(map[], map[], [], here.Live?);
    var done: set<nat> := {};
    NoneListed(local, here);
    while done != local.Keys
      invariant done <= local.Keys && m.allLive == here.Live?
      invariant Taken(m, local, done, here)
      decreases local.Keys - done
    {
      var id :| id in local && id !in done;
      OneTaken(m, local, done, here, id);
      m := m.(parents := m.parents[id := here], children := m.children[id := L.Labelled(local[id], here)],
              resolved := m.resolved + [id]);
      done := done + {id};
    }
    LocalGathered(m, local, here, missing);
  }

  /** The local parents taken over so far. */
  ghost predicate Taken(m: Merge, local: map<nat, seq<L.Item>>, done: set<nat>, here: F.Level) {
    && Listed(m) && m.parents.Keys == done
    && forall id :: id in m.parents ==>
        id in m.children && id in local && m.parents[id] == here && m.children[id] == L.Labelled(local[id], here)
  }

  lemma {:induction false} NoneListed(local: map<nat, seq<L.Item>>, here: F.Level)
    ensures Taken(Merge(map[], map[], [], here.Live?), local, {}, here)
  {}

  lemma {:induction false} OneTaken(m: Merge, local: map<nat, seq<L.Item>>, done: set<nat>, here: F.Level, id: nat)
    requires Taken(m, local, done, here) && id in local && id !in done && F.Valid(here)
    ensures var entries := L.Labelled(local[id], here);
            Taken(m.(parents := m.parents[id := here], children := m.children[id := entries],
                     resolved := m.resolved + [id]), local, done + {id}, here)
  {
    AddListed(m, id, here, L.Labelled(local[id], here));
  }

  lemma {:induction false} LocalGathered(m: Merge, local: map<nat, seq<L.Item>>, here: F.Level, missing: set<nat>)
    requires Taken(m, local, local.Keys, here) && m.allLive == here.Live?
    ensures m.parents.Keys == local.Keys && Gathered(m, local, here, [], missing)
  {}

  lemma {:induction false} AddListed(m: Merge, id: nat, level: F.Level, entries: seq<L.Item>)
    requires Listed(m) && id !in m.parents && F.Valid(level)
    ensures Listed(m.(parents := m.parents[id := level], children := m.children[id := entries],
                      resolved := m.resolved + [id]))
  {
    assert Elems(m.resolved + [id]) == Elems(m.resolved) + {id};
    forall i | 0 <= i < |m.resolved| ensures m.resolved[i] in m.parents {
      assert m.resolved[i] in Elems(m.resolved);
    }
  }

  /** The claims of an answer in the order they are read. */
  method Claims(x: Resolution) returns (claims: seq<nat>)
    ensures Elems(claims) == Claimed(x)
  {
    if x.resolved.Some? {
      return x.resolved.value;
    }
    claims := [];
    var todo := x.children.Keys;
    while todo != {}
      invariant todo <= x.children.Keys && Elems(claims) == x.children.Keys - todo
      decreases |todo|
    {
      var id :| id in todo;
      assert Elems(claims + [id]) == Elems(claims) + {id};
      claims := claims + [id];
      todo := todo - {id};
    }
  }

  /** Merging one target's answer. */
  method MergeAnswer(start: Merge, a: Answer, missing: set<nat>, ghost local: map<nat, seq<L.Item>>,
                     ghost here: F.Level, ghost before: seq<Answer>)
    returns (m: Merge)
    requires Gathered(start, local, here, before, missing) && local.Keys !! missing
    requires a.Body? ==> F.Valid(a.freshness)
    ensures Gathered(m, local, here, before + [a], missing)
  {
    hide Gathered, Claimed;
    m := start;
    if !Usable(a) {
      StartGathered(m, m.(allLive := false), local, here, before, a, missing);
      m := m.(allLive := false);
      return;
    }
    var level, x := a.freshness, a.resolution.value;
    StartUnread(start, local, here, before, level, x, missing);
    if !level.Live? || !x.freshness.Live? {
      m := m.(allLive := false);
    }
    var claims := Claims(x);
    for j := 0 to |claims|
      invariant Gathered(m, local, here, before + [UpTo(level, x, claims[..j])], missing)
    {
      var id := claims[j];
      assert claims[..j + 1] == claims[..j] + [id];
      TakeGathered(m, local, here, before, level, x, claims[..j], id, missing);
      if id !in missing {
        m := m.(allLive := false);
        continue;
      }
      if id in m.parents {
        continue;
      }
      var stated := Stated(x, id);
      if !F.Valid(stated) {
        m := m.(allLive := false);
        continue;
      }
      stated := F.Worse(level, stated);
      var entries, valid := Relabelled(Entries(x, id), stated);
      if !valid {
        m := m.(allLive := false);
        continue;
      }
      m := m.(children := m.children[id := entries], parents := m.parents[id := stated], resolved := m.resolved + [id]);
    }
    assert claims[..|claims|] == claims;
    AllRead(m, local, here, before, a, claims, missing);
  }

  lemma {:induction false} StartUnread(m: Merge, local: map<nat, seq<L.Item>>, here: F.Level, before: seq<Answer>,
                                       level: F.Level, x: Resolution, missing: set<nat>)
    requires Gathered(m, local, here, before, missing) && WellFormed(x)
    ensures Gathered(m.(allLive := m.allLive && level.Live? && x.freshness.Live?), local, here,
                     before + [UpTo(level, x, [])], missing)
  {
    StartGathered(m, m.(allLive := m.allLive && level.Live? && x.freshness.Live?), local, here, before,
                  UpTo(level, x, []), missing);
  }

  lemma {:induction false} AllRead(m: Merge, local: map<nat, seq<L.Item>>, here: F.Level, before: seq<Answer>,
                                   a: Answer, claims: seq<nat>, missing: set<nat>)
    requires Usable(a) && Elems(claims) == Claimed(a.resolution.value)
    requires Gathered(m, local, here, before + [UpTo(a.freshness, a.resolution.value, claims)], missing)
    ensures Gathered(m, local, here, before + [a], missing)
  {
    SameGathered(m, local, here, before, a, UpTo(a.freshness, a.resolution.value, claims), missing);
  }

  /** Relabels the entries of a parent and stops at the first invalid one. */
  method Relabelled(entries: seq<L.Item>, level: F.Level) returns (r: seq<L.Item>, valid: bool)
    ensures valid <==> AllValid(entries)
    ensures valid ==> r == Relabel(entries, level)
  {
    r, valid := [], true;
    for i := 0 to |entries|
      invariant AllValid(entries[..i]) && r == Relabel(entries[..i], level)
    {
      if !entries[i].valid {
        return r, false;
      }
      assert entries[..i + 1][..i] == entries[..i];
      r := r + [entries[i].(freshness := F.Worse(entries[i].freshness, level))];
    }
    assert entries[..|entries|] == entries;
  }

  /* ---------- the reply ---------- */

  /** The entries without those whose id occurred before. */
  function Unique(entries: seq<L.Item>): seq<L.Item> {
    if entries == [] then []
    else
      var n := |entries| - 1;
      Unique(entries[..n]) + if entries[n].id in L.ItemIds(entries[..n]) then [] else [entries[n]]
  }

  /** Every child id is kept exactly once. */
  lemma {:induction false} UniqueKeepsIds(entries: seq<L.Item>)
    ensures L.UniqueIds(Unique(entries)) && L.ItemIds(Unique(entries)) == L.ItemIds(entries)
  {
    if entries != [] {
      var n := |entries| - 1;
      var front, last := entries[..n], entries[n];
      UniqueKeepsIds(front);
      assert entries == front + [last];
      L.ItemIdsSnoc(front, last);
      L.ItemIdsSnoc(Unique(front), last);
      forall i | 0 <= i < |Unique(front)| ensures Unique(front)[i].id in L.ItemIds(front) {
        assert Unique(front)[i] in Unique(front);
      }
    }
  }

  ghost predicate FirstOfItsId(it: L.Item, entries: seq<L.Item>) {
    exists i :: 0 <= i < |entries| && entries[i] == it && forall k :: 0 <= k < i ==> entries[k].id != it.id
  }

  lemma {:induction false} FirstInMore(it: L.Item, front: seq<L.Item>, last: L.Item)
    requires FirstOfItsId(it, front)
    ensures FirstOfItsId(it, front + [last])
  {
    var entries := front + [last];
    var i :| 0 <= i < |front| && front[i] == it && forall k :: 0 <= k < i ==> front[k].id != it.id;
    assert entries[i] == it && forall k :: 0 <= k < i ==> entries[k].id != it.id;
  }

  lemma {:induction false} NewIsFirst(front: seq<L.Item>, last: L.Item)
    requires last.id !in L.ItemIds(front)
    ensures FirstOfItsId(last, front + [last])
  {
    var entries := front + [last];
    forall k | 0 <= k < |front| ensures entries[k].id != last.id {
      assert front[k] in front;
    }
    assert entries[|front|] == last;
  }

  /** ... as its first entry. */
  lemma {:induction false} UniqueKeepsFirst(entries: seq<L.Item>, it: L.Item)
    requires it in Unique(entries)
    ensures FirstOfItsId(it, entries)
  {
    hide FirstOfItsId, L.ItemIds;
    var n := |entries| - 1;
    var front := entries[..n];
    assert entries == front + [entries[n]];
    if it in Unique(front) {
      UniqueKeepsFirst(front, it);
      FirstInMore(it, front, entries[n]);
    } else {
      NewIsFirst(front, entries[n]);
    }
  }

  method Deduplicated(entries: seq<L.Item>) returns (unique: seq<L.Item>)
    ensures unique == Unique(entries)
  {
    unique := [];
    var seen: set<nat> := {};
    for i := 0 to |entries|
      invariant unique == Unique(entries[..i]) && seen == L.ItemIds(entries[..i])
    {
      assert entries[..i + 1][..i] == entries[..i] && entries[..i + 1] == entries[..i] + [entries[i]];
      L.ItemIdsSnoc(entries[..i], entries[i]);
      if entries[i].id !in seen {
        seen := seen + {entries[i].id};
        unique := unique + [entries[i]];
      }
    }
    assert entries[..|entries|] == entries;
  }

  ghost predicate AllUnique(children: map<nat, seq<L.Item>>, from: map<nat, seq<L.Item>>, done: set<nat>) {
    && children.Keys == from.Keys
    && forall id :: id in from ==> id in children && children[id] == if id in done then Unique(from[id]) else from[id]
  }

  method DeduplicateAll(from: map<nat, seq<L.Item>>) returns (children: map<nat, seq<L.Item>>)
    ensures AllUnique(children, from, from.Keys)
  {
    children := from;
    var done: set<nat> := {};
    while done != from.Keys
      invariant done <= from.Keys && AllUnique(children, from, done)
      decreases from.Keys - done
    {
      var id :| id in from && id !in done;
      var unique := Deduplicated(children[id]);
      children := children[id := unique];
      done := done + {id};
    }
  }

  /** Resolved parents keep their label; the others get this one. */
  ghost predicate Labels(parents: map<nat, F.Level>, known: map<nat, F.Level>, ids: set<nat>, otherwise: F.Level) {
    && parents.Keys == known.Keys + ids
    && (forall id :: id in known ==> parents[id] == known[id])
    && (forall id :: id in parents && id !in known ==> parents[id] == otherwise)
  }

  /** The freshness is the worst of the local one and those of the requested parents. */
  ghost predicate Worst(freshness: F.Level, here: F.Level, parents: map<nat, F.Level>, ids: set<nat>) {
    && F.Rank(here) <= F.Rank(freshness)
    && (forall id :: id in ids && id in parents ==> F.Rank(parents[id]) <= F.Rank(freshness))
    && (freshness == here || exists id :: id in ids && id in parents && parents[id] == freshness)
  }

  method LabelParents(ids: seq<nat>, known: map<nat, F.Level>, allLive: bool, here: F.Level)
    returns (parents: map<nat, F.Level>, freshness: F.Level)
    ensures Labels(parents, known, Elems(ids), if allLive then F.Live else F.Unavailable)
    ensures Worst(freshness, here, parents, Elems(ids))
  {
    hide Labels, Worst, Elems;
    NothingLabelled(known, here, if allLive then F.Live else F.Unavailable);
    assert ids[..0] == [];
    parents, freshness := known, here;
    for i := 0 to |ids|
      invariant Labels(parents, known, Elems(ids[..i]), if allLive then F.Live else F.Unavailable)
      invariant Worst(freshness, here, parents, Elems(ids[..i]))
    {
      var id := ids[i];
      ElemsSnoc(ids[..i], id);
      assert ids[..i + 1] == ids[..i] + [id];
      LabelOneMore(parents, known, Elems(ids[..i]), id, if allLive then F.Live else F.Unavailable);
      LabelsCover(parents, known, Elems(ids[..i]), if allLive then F.Live else F.Unavailable);
      WorstOneMore(freshness, here, parents, Elems(ids[..i]), id, if allLive then F.Live else F.Unavailable);
      assert parents[id := F.Live][id := F.Unavailable] == parents[id := F.Unavailable];
      if id !in parents {
        parents := parents[id := F.Live];
        if !allLive {
          parents := parents[id := F.Unavailable];
        }
      }
      freshness := F.Worse(freshness, parents[id]);
    }
    assert ids[..|ids|] == ids;
  }

  lemma {:induction false} NothingLabelled(known: map<nat, F.Level>, here: F.Level, otherwise: F.Level)
    ensures Labels(known, known, Elems([]), otherwise) && Worst(here, here, known, Elems([]))
  {}

  lemma {:induction false} LabelsCover(parents: map<nat, F.Level>, known: map<nat, F.Level>, done: set<nat>,
                                       otherwise: F.Level)
    requires Labels(parents, known, done, otherwise)
    ensures done <= parents.Keys
  {}

  lemma {:induction false} LabelOneMore(parents: map<nat, F.Level>, known: map<nat, F.Level>, done: set<nat>, id: nat,
                                        otherwise: F.Level)
    requires Labels(parents, known, done, otherwise)
    ensures Labels(if id in parents then parents else parents[id := otherwise], known, done + {id}, otherwise)
  {}

  lemma {:induction false} WorstOneMore(freshness: F.Level, here: F.Level, parents: map<nat, F.Level>, done: set<nat>,
                                        id: nat, otherwise: F.Level)
    requires Worst(freshness, here, parents, done) && done <= parents.Keys
    ensures var more := if id in parents then parents else parents[id := otherwise];
            Worst(F.Worse(freshness, more[id]), here, more, done + {id})
  {
    var more := if id in parents then parents else parents[id := otherwise];
    if freshness != here {
      var k :| k in done && k in parents && parents[k] == freshness;
      assert k in more && more[k] == freshness;
    }
  }

  /** The answers that were asked for: the targets are asked when the request is not itself a hop and a parent is
      missing here. */
  ghost function Heard(missing: set<nat>, federate: bool, answers: seq<Answer>): seq<Answer> {
    if federate && missing != {} then answers else []
  }

  /** Everyone who could have resolved a parent that is still unknown has answered properly. */
  ghost predicate EveryoneAnswered(here: F.Level, federate: bool, answers: seq<Answer>, missing: set<nat>) {
    here.Live? && (federate ==> AllHonest(answers, missing))
  }

  /** Every requested parent has a label. An unresolved one is labelled live, which stands for known to be absent,
      exactly when everyone answered. */
  ghost predicate Labelled(parents: map<nat, F.Level>, resolved: seq<nat>, ids: seq<nat>, here: F.Level, everyone: bool,
                           local: set<nat>) {
    && parents.Keys == Elems(ids)
    && (forall id :: id in parents && id !in Elems(resolved) ==>
            parents[id] == if everyone then F.Live else F.Unavailable)
    && (forall id :: id in local && id in parents ==> parents[id] == here)
  }

  /** The children of a parent are those stored here, or those of the first answer that resolves it, each once. */
  ghost predicate Traced(children: map<nat, seq<L.Item>>, parents: map<nat, F.Level>, local: map<nat, seq<L.Item>>,
                         here: F.Level, heard: seq<Answer>, missing: set<nat>) {
    forall id :: id in children && id in parents ==>
               TracedAt(children[id], parents[id], id, local, here, heard, missing)
  }

  ghost predicate TracedAt(entries: seq<L.Item>, level: F.Level, id: nat, local: map<nat, seq<L.Item>>, here: F.Level,
                           heard: seq<Answer>, missing: set<nat>) {
    if id in local then entries == Unique(L.Labelled(local[id], here))
    else exists sent :: FirstTaken(heard, missing, id, level, sent) && entries == Unique(sent)
  }

  lemma {:induction false} TracesBack(children: map<nat, seq<L.Item>>, parents: map<nat, F.Level>, m: Merge,
                                      ids: seq<nat>, local: map<nat, seq<L.Item>>, here: F.Level, heard: seq<Answer>,
                                      missing: set<nat>)
    requires AllUnique(children, m.children, m.children.Keys) && Gathered(m, local, here, heard, missing)
    requires Labels(parents, m.parents, Elems(ids), if m.allLive then F.Live else F.Unavailable)
    ensures Traced(children, parents, local, here, heard, missing)
  {
    hide FirstTaken, AllHonest, ResolvedBy, Unique;
    forall id | id in children && id in parents
      ensures TracedAt(children[id], parents[id], id, local, here, heard, missing) {
      if id !in local {
        assert FirstTaken(heard, missing, id, parents[id], m.children[id]);
      }
    }
  }

  ghost predicate Answered(r: Response, ids: seq<nat>, local: map<nat, seq<L.Item>>, here: F.Level, federate: bool,
                           answers: seq<Answer>) {
    var missing := Elems(ids) - local.Keys;
    && r.Resolved? && Distinct(r.resolved) && r.children.Keys == Elems(r.resolved)
    && (forall id :: id in Elems(r.resolved) <==>
            id in local || ResolvedBy(Heard(missing, federate, answers), missing, id))
    && Labelled(r.parents, r.resolved, ids, here, EveryoneAnswered(here, federate, answers, missing), local.Keys)
    && Worst(r.freshness, here, r.parents, Elems(ids))
    && (forall id :: id in r.children ==> L.UniqueIds(r.children[id]))
  }

  method ResolveGraph(ids: seq<nat>, depth: int, local: map<nat, seq<L.Item>>, here: F.Level, federate: bool,
                      answers: seq<Answer>) returns (r: Response)
    requires F.Valid(here) && local.Keys <= Elems(ids) && ValidAnswers(answers)
    ensures r.BadRequest? <==> |ids| > 100 || !Distinct(ids) || (depth != 0 && depth != 1)
    ensures r.Resolved? ==> Answered(r, ids, local, here, federate, answers)
    ensures r.Resolved? ==>
                Traced(r.children, r.parents, local, here, Heard(Elems(ids) - local.Keys, federate, answers),
                       Elems(ids) - local.Keys)
  {
    hide *;
    var rejected := Rejected(ids, depth);
    if rejected {
      return BadRequest;
    }
    ghost var missing := Elems(ids) - local.Keys;
    var m := Here(local, here, missing);
    var absent: set<nat> := set id | id in ids && id !in local;
    MissingIds(ids, local, absent);
    if federate && absent != {} {
      for k := 0 to |answers|
        invariant Gathered(m, local, here, answers[..k], missing)
      {
        assert answers[..k + 1] == answers[..k] + [answers[k]];
        ValidAnswer(answers, k);
        m := MergeAnswer(m, answers[k], absent, local, here, answers[..k]);
      }
      assert answers[..|answers|] == answers;
    }
    HeardAll(missing, federate, answers);
    var parents, freshness := LabelParents(ids, m.parents, m.allLive, here);
    var children := DeduplicateAll(m.children);
    r := Resolved(children, parents, m.resolved, freshness);
    Reply(r, m, ids, local, here, federate, answers);
    TracesBack(children, parents, m, ids, local, here, Heard(missing, federate, answers), missing);
  }

  method Rejected(ids: seq<nat>, depth: int) returns (rejected: bool)
    ensures rejected <==> |ids| > 100 || !Distinct(ids) || (depth != 0 && depth != 1)
  {
    if |ids| > 100 {
      return true;
    }
    var seen: set<nat> := {};
    for i := 0 to |ids|
      invariant Distinct(ids[..i]) && seen == Elems(ids[..i])
    {
      if ids[i] in seen {
        var k :| 0 <= k < i && ids[..i][k] == ids[i];
        assert ids[k] == ids[i];
        return true;
      }
      assert ids[..i + 1] == ids[..i] + [ids[i]];
      seen := seen + {ids[i]};
    }
    assert ids[..|ids|] == ids;
    return depth != 0 && depth != 1;
  }

  lemma {:induction false} MissingIds(ids: seq<nat>, local: map<nat, seq<L.Item>>, absent: set<nat>)
    requires forall id :: id in absent <==> id in ids && id !in local
    ensures absent == Elems(ids) - local.Keys && local.Keys !! absent
  {}

  lemma {:induction false} ValidAnswer(answers: seq<Answer>, k: nat)
    requires ValidAnswers(answers) && k < |answers|
    ensures answers[k].Body? ==> F.Valid(answers[k].freshness)
  {}

  lemma {:induction false} HeardAll(missing: set<nat>, federate: bool, answers: seq<Answer>)
    ensures Heard(missing, federate, answers) == if federate && missing != {} then answers else []
  {}

  lemma {:induction false} AllUniqueIds(children: map<nat, seq<L.Item>>, from: map<nat, seq<L.Item>>)
    requires AllUnique(children, from, from.Keys)
    ensures forall id :: id in children ==> L.UniqueIds(children[id])
  {
    forall id | id in children ensures L.UniqueIds(children[id]) {
      UniqueKeepsIds(from[id]);
    }
  }

  lemma {:induction false} KnownAreRequested(m: Merge, ids: seq<nat>, local: map<nat, seq<L.Item>>, heard: seq<Answer>)
    requires RemoteTaken(m, local, heard, Elems(ids) - local.Keys) && local.Keys <= Elems(ids)
    ensures m.parents.Keys <= Elems(ids)
  {
    forall id | id in m.parents ensures id in Elems(ids) {
      if id !in local {
        ResolvedWasMissing(heard, Elems(ids) - local.Keys, id);
      }
    }
  }

  /** What counts is whether everyone that was asked answered; with nothing missing here there is nobody to ask. */
  lemma {:induction false} EveryoneHeard(here: F.Level, federate: bool, answers: seq<Answer>, missing: set<nat>)
    requires missing != {}
    ensures EveryoneAnswered(here, federate, answers, missing) <==>
                here.Live? && AllHonest(Heard(missing, federate, answers), missing)
  {}

  lemma {:induction false} LabelsAnswer(parents: map<nat, F.Level>, m: Merge, ids: seq<nat>,
                                        local: map<nat, seq<L.Item>>, here: F.Level, everyone: bool)
    requires Labels(parents, m.parents, Elems(ids), if m.allLive then F.Live else F.Unavailable)
    requires m.parents.Keys <= Elems(ids)
    requires Listed(m) && LocalKept(m, local, here)
    requires m.parents.Keys != Elems(ids) ==> m.allLive == everyone
    ensures Labelled(parents, m.resolved, ids, here, everyone, local.Keys)
  {}

  lemma {:induction false} EveryoneDecides(m: Merge, ids: seq<nat>, local: map<nat, seq<L.Item>>, here: F.Level,
                                           federate: bool, answers: seq<Answer>)
    requires local.Keys <= Elems(ids)
    requires Gathered(m, local, here, Heard(Elems(ids) - local.Keys, federate, answers), Elems(ids) - local.Keys)
    ensures m.parents.Keys <= Elems(ids)
    ensures m.parents.Keys != Elems(ids) ==>
                m.allLive == EveryoneAnswered(here, federate, answers, Elems(ids) - local.Keys)
  {
    hide Heard, AllHonest, EveryoneAnswered, ResolvedBy, FirstTaken;
    var missing := Elems(ids) - local.Keys;
    KnownAreRequested(m, ids, local, Heard(missing, federate, answers));
    if m.parents.Keys != Elems(ids) {
      var id :| id in Elems(ids) && id !in m.parents;
      assert id in missing;
      EveryoneHeard(here, federate, answers, missing);
    }
  }

  lemma {:induction false} Reply(r: Response, m: Merge, ids: seq<nat>, local: map<nat, seq<L.Item>>, here: F.Level,
                                 federate: bool, answers: seq<Answer>)
    requires r.Resolved? && r.resolved == m.resolved && local.Keys <= Elems(ids)
    requires Gathered(m, local, here, Heard(Elems(ids) - local.Keys, federate, answers), Elems(ids) - local.Keys)
    requires Labels(r.parents, m.parents, Elems(ids), if m.allLive then F.Live else F.Unavailable)
    requires Worst(r.freshness, here, r.parents, Elems(ids))
    requires AllUnique(r.children, m.children, m.children.Keys)
    ensures Answered(r, ids, local, here, federate, answers)
  {
    hide Labelled, Worst, Labels, EveryoneAnswered, LocalKept, L.UniqueIds, ResolvedBy, FirstTaken, AllHonest, Heard,
             Unique, Distinct;
    AllUniqueIds(r.children, m.children);
    EveryoneDecides(m, ids, local, here, federate, answers);
    LabelsAnswer(r.parents, m, ids, local, here, EveryoneAnswered(here, federate, answers, Elems(ids) - local.Keys));
  }

  lemma {:induction false} ResolvedWasMissing(answers: seq<Answer>, missing: set<nat>, id: nat)
    requires ResolvedBy(answers, missing, id)
    ensures id in missing
  {}
}

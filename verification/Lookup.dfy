/** Looking resources up by id, here and on the federation targets. What could not be looked up is reported as
    unavailable; only what every server could answer for is reported as absent. */
module Lookup {
  import opened Model
  import opened Seqs
  import F = Freshness

  /** A returned resource: valid when it passes the check of required fields, freshness as the server labelled it. */
  datatype Item = Item(id: nat, valid: bool, freshness: F.Level, rest: int)

  /** A target's answer; items is None when the body does not decode. */
  datatype Answer = CallFailed | Body(freshness: F.Level, items: Option<seq<Item>>)

  datatype Response =
    | BadRequest
    | InvalidRow
    | Incomplete
    | Partial(items: seq<Item>, unavailable: seq<nat>, freshness: F.Level)
    | Full(items: seq<Item>, freshness: F.Level)

  const MAX_IDS := 1000

  /** The ids of some items. */
  function ItemIds(items: seq<Item>): set<nat> {
    set it | it in items :: it.id
  }

  predicate Acceptable(it: Item, ids: seq<nat>) {
    it.id in ids && it.valid
  }

  /** The target answered live, with nothing but valid, requested, live items. */
  ghost predicate CleanlyLive(a: Answer, ids: seq<nat>) {
    && a.Body? && a.freshness.Live? && a.items.Some?
    && forall it :: it in a.items.value ==> Acceptable(it, ids) && F.Rank(it.freshness) == 0
  }

  /** The target answered with an acceptable item of this id. */
  ghost predicate Supplies(a: Answer, ids: seq<nat>, id: nat) {
    a.Body? && a.items.Some? && exists it :: it in a.items.value && Acceptable(it, ids) && it.id == id
  }

  ghost predicate Supplied(answers: seq<Answer>, ids: seq<nat>, id: nat) {
    exists k :: 0 <= k < |answers| && Supplies(answers[k], ids, id)
  }

  ghost predicate AllClean(answers: seq<Answer>, ids: seq<nat>) {
    forall k :: 0 <= k < |answers| ==> CleanlyLive(answers[k], ids)
  }

  /** The item is what a target sent, labelled with the worse of the target's and its own freshness. */
  ghost predicate CameFrom(it: Item, answers: seq<Answer>, ids: seq<nat>) {
    exists k :: 0 <= k < |answers| && SentIn(it, answers[k], ids)
  }

  ghost predicate SentIn(it: Item, a: Answer, ids: seq<nat>) {
    && a.Body? && a.items.Some?
    && exists sent :: (sent in a.items.value && Acceptable(sent, ids)
                       && it == sent.(freshness := F.Worse(a.freshness, sent.freshness)))
  }

  ghost predicate UniqueIds(items: seq<Item>) {
    forall i, j :: 0 <= i < j < |items| ==> items[i].id != items[j].id
  }

  function Labelled(items: seq<Item>, freshness: F.Level): (r: seq<Item>)
    ensures |r| == |items| && forall i :: 0 <= i < |r| ==> r[i] == items[i].(freshness := freshness)
  {
    if items == [] then [] else [items[0].(freshness := freshness)] + Labelled(items[1..], freshness)
  }

  function Missing(ids: seq<nat>, found: set<nat>): seq<nat> {
    Filter(NotIn(found), ids)
  }

  function NotIn(found: set<nat>): nat -> bool {
    (id: nat) => id !in found
  }

  /** What the merging loops have gathered. */
  datatype Merge = Merge(items: seq<Item>, found: set<nat>, uncertain: bool, freshness: F.Level)

  /** An item a target sent within an answer of this freshness. */
  function TakeItem(m: Merge, level: F.Level, it: Item, ids: seq<nat>): Merge {
    if !Acceptable(it, ids) then m.(uncertain := true)
    else
      var tag := F.Worse(level, it.freshness);
      var n := m.(freshness := F.Worse(m.freshness, tag), uncertain := m.uncertain || !tag.Live?);
      if it.id in m.found then n
      else n.(items := m.items + [it.(freshness := tag)], found := m.found + {it.id})
  }

  /** Local rows first, then what the answers supplied; items have unique requested ids. */
  ghost predicate Merged(m: Merge, local: seq<Item>, here: F.Level, answers: seq<Answer>, ids: seq<nat>) {
    && m.found == ItemIds(m.items) && UniqueIds(m.items)
    && |local| <= |m.items| && m.items[..|local|] == Labelled(local, here)
    && (forall i :: |local| <= i < |m.items| ==> CameFrom(m.items[i], answers, ids))
    && (forall id :: id in m.found <==> id in ItemIds(local) || Supplied(answers, ids, id))
  }

  /** The level is one that the answer or one of its acceptable items carries. */
  ghost predicate Carries(a: Answer, ids: seq<nat>, f: F.Level) {
    || LevelOf(a) == f
    || (a.Body? && a.items.Some? && exists it :: it in a.items.value && Acceptable(it, ids) && it.freshness == f)
  }

  ghost predicate Carried(f: F.Level, here: F.Level, answers: seq<Answer>, ids: seq<nat>) {
    f == here || exists k :: 0 <= k < |answers| && Carries(answers[k], ids, f)
  }

  /** The answer is as bad as the worst of its parts, and certain only if every part is live. */
  ghost predicate Judged(m: Merge, here: F.Level, answers: seq<Answer>, ids: seq<nat>) {
    && (m.uncertain <==> !here.Live? || !AllClean(answers, ids))
    && F.Valid(m.freshness) && F.Rank(here) <= F.Rank(m.freshness)
    && (forall k :: 0 <= k < |answers| ==> F.Rank(LevelOf(answers[k])) <= F.Rank(m.freshness))
    && (forall i :: 0 <= i < |m.items| ==> F.Rank(m.items[i].freshness) <= F.Rank(m.freshness))
    && (!m.uncertain ==> m.freshness.Live?)
    && Carried(m.freshness, here, answers, ids)
  }

  function LevelOf(a: Answer): F.Level {
    if a.CallFailed? then F.Unavailable else a.freshness
  }

  ghost predicate ValidAnswers(answers: seq<Answer>) {
    forall k :: 0 <= k < |answers| && answers[k].Body? ==> F.Valid(answers[k].freshness)
  }

  ghost predicate Sound(m: Merge, local: seq<Item>, here: F.Level, answers: seq<Answer>, ids: seq<nat>) {
    Merged(m, local, here, answers, ids) && Judged(m, here, answers, ids)
  }

  lemma {:induction false} SuppliedSnoc(answers: seq<Answer>, a: Answer, ids: seq<nat>, id: nat)
    ensures Supplied(answers + [a], ids, id) <==> Supplied(answers, ids, id) || Supplies(a, ids, id)
  {
    var more := answers + [a];
    if Supplied(answers, ids, id) {
      var k :| 0 <= k < |answers| && Supplies(answers[k], ids, id);
      assert more[k] == answers[k];
    } else if Supplies(a, ids, id) {
      assert more[|answers|] == a;
    }
  }

  lemma {:induction false} CarriedSnoc(f: F.Level, here: F.Level, answers: seq<Answer>, a: Answer, ids: seq<nat>)
    ensures Carried(f, here, answers + [a], ids) <==> Carried(f, here, answers, ids) || Carries(a, ids, f)
  {
    var more := answers + [a];
    if Carried(f, here, answers, ids) && f != here {
      var k :| 0 <= k < |answers| && Carries(answers[k], ids, f);
      assert more[k] == answers[k];
    } else if Carries(a, ids, f) {
      assert more[|answers|] == a;
    }
  }

  lemma {:induction false} CarriesMore(level: F.Level, some: seq<Item>, it: Item, ids: seq<nat>, f: F.Level)
    ensures Carries(Body(level, Some(some + [it])), ids, f)
         <==> Carries(Body(level, Some(some)), ids, f) || (Acceptable(it, ids) && it.freshness == f)
  {
    assert it in some + [it];
    assert forall x :: x in some ==> x in some + [it];
  }

  lemma {:induction false} AllCleanSnoc(answers: seq<Answer>, a: Answer, ids: seq<nat>)
    ensures AllClean(answers + [a], ids) <==> AllClean(answers, ids) && CleanlyLive(a, ids)
  {
    var more := answers + [a];
    assert more[|answers|] == a;
    assert forall k :: 0 <= k < |answers| ==> more[k] == answers[k];
  }

  lemma {:induction false} CameFromEarlier(it: Item, answers: seq<Answer>, a: Answer, ids: seq<nat>)
    ensures CameFrom(it, answers + [a], ids) <==> CameFrom(it, answers, ids) || SentIn(it, a, ids)
  {
    var more := answers + [a];
    if CameFrom(it, answers, ids) {
      var k :| 0 <= k < |answers| && SentIn(it, answers[k], ids);
      assert more[k] == answers[k];
    } else if SentIn(it, a, ids) {
      assert more[|answers|] == a;
    }
  }

  lemma {:induction false} ItemIdsSnoc(items: seq<Item>, it: Item)
    ensures ItemIds(items + [it]) == ItemIds(items) + {it.id}
  {
    forall id ensures id in ItemIds(items + [it]) <==> id in ItemIds(items) || id == it.id {
      if id in ItemIds(items) {
        var old_ :| old_ in items && old_.id == id;
        assert old_ in items + [it];
      }
      assert it in items + [it];
    }
  }

  lemma {:induction false} LocalMerged(local: seq<Item>, here: F.Level, ids: seq<nat>)
    requires UniqueIds(local) && F.Valid(here)
    ensures Sound(Merge(Labelled(local, here), ItemIds(local), !here.Live?, here), local, here, [], ids)
  {
    var items := Labelled(local, here);
    assert items[..|local|] == items;
    forall id ensures id in ItemIds(items) <==> id in ItemIds(local) {
      if id in ItemIds(local) {
        var i :| 0 <= i < |local| && local[i].id == id;
        assert items[i] in items;
      }
      if id in ItemIds(items) {
        var i :| 0 <= i < |items| && items[i].id == id;
        assert local[i] in local;
      }
    }
  }

  /** An answer without items adds nothing to the merge. */
  lemma {:induction false} EmptyMerged(m: Merge, n: Merge, local: seq<Item>, here: F.Level, answers: seq<Answer>,
                                       a: Answer, ids: seq<nat>)
    requires Merged(m, local, here, answers, ids) && (a.Body? && a.items.Some? ==> a.items.value == [])
    requires n.items == m.items && n.found == m.found
    ensures Merged(n, local, here, answers + [a], ids)
  {
    forall i | |local| <= i < |n.items| ensures CameFrom(n.items[i], answers + [a], ids) {
      CameFromEarlier(m.items[i], answers, a, ids);
    }
    forall id ensures id in n.found <==> id in ItemIds(local) || Supplied(answers + [a], ids, id) {
      SuppliedSnoc(answers, a, ids, id);
    }
  }

  lemma {:induction false} EmptyJudged(m: Merge, n: Merge, here: F.Level, answers: seq<Answer>, a: Answer,
                                       ids: seq<nat>)
    requires Judged(m, here, answers, ids) && (a.Body? ==> F.Valid(a.freshness))
    requires a.Body? && a.items.Some? ==> a.items.value == []
    requires n.items == m.items && n.freshness == F.Worse(m.freshness, LevelOf(a))
    requires n.uncertain == (m.uncertain || !LevelOf(a).Live? || (a.Body? && a.items.None?))
    ensures Judged(n, here, answers + [a], ids)
  {
    AllCleanSnoc(answers, a, ids);
    CarriedSnoc(n.freshness, here, answers, a, ids);
    assert forall k :: 0 <= k < |answers| ==> (answers + [a])[k] == answers[k];
  }

  /** Taking one more item of the answer at hand. */
  lemma {:induction false} TakeMerged(m: Merge, local: seq<Item>, here: F.Level, answers: seq<Answer>, level: F.Level,
                                      some: seq<Item>, it: Item, ids: seq<nat>)
    requires Merged(m, local, here, answers + [Body(level, Some(some))], ids)
    ensures Merged(TakeItem(m, level, it, ids), local, here, answers + [Body(level, Some(some + [it]))], ids)
  {
    var a, b, n := Body(level, Some(some)), Body(level, Some(some + [it])), TakeItem(m, level, it, ids);
    forall i | |local| <= i < |n.items| ensures CameFrom(n.items[i], answers + [b], ids) {
      CameFromEarlier(n.items[i], answers, a, ids);
      CameFromEarlier(n.items[i], answers, b, ids);
      if i < |m.items| {
        assert n.items[i] == m.items[i];
        if SentIn(m.items[i], a, ids) {
          SentInMore(m.items[i], level, some, it, ids);
        }
      } else {
        assert it in b.items.value;
      }
    }
    forall id ensures Supplied(answers + [b], ids, id) <==>
               Supplied(answers + [a], ids, id) || (Acceptable(it, ids) && it.id == id) {
      SuppliedSnoc(answers, a, ids, id);
      SuppliedSnoc(answers, b, ids, id);
      SuppliesMore(level, some, it, ids, id);
    }
    ItemIdsSnoc(m.items, it.(freshness := F.Worse(level, it.freshness)));
    TakeKeepsUnique(m, level, it, ids);
  }

  lemma {:induction false} TakeKeepsUnique(m: Merge, level: F.Level, it: Item, ids: seq<nat>)
    requires m.found == ItemIds(m.items) && UniqueIds(m.items)
    ensures UniqueIds(TakeItem(m, level, it, ids).items)
  {
    forall i | 0 <= i < |m.items| ensures m.items[i].id in m.found {
      assert m.items[i] in m.items;
    }
  }

  lemma {:induction false} SentInMore(x: Item, level: F.Level, some: seq<Item>, it: Item, ids: seq<nat>)
    requires SentIn(x, Body(level, Some(some)), ids)
    ensures SentIn(x, Body(level, Some(some + [it])), ids)
  {
    var sent :| sent in some && Acceptable(sent, ids) && x == sent.(freshness := F.Worse(level, sent.freshness));
    assert sent in some + [it];
  }

  lemma {:induction false} SuppliesMore(level: F.Level, some: seq<Item>, it: Item, ids: seq<nat>, id: nat)
    ensures Supplies(Body(level, Some(some + [it])), ids, id) <==>
                Supplies(Body(level, Some(some)), ids, id) || (Acceptable(it, ids) && it.id == id)
  {
    assert it in some + [it];
    if Supplies(Body(level, Some(some)), ids, id) {
      var x :| x in some && Acceptable(x, ids) && x.id == id;
      assert x in some + [it];
    }
  }

  lemma {:induction false} CleanMore(level: F.Level, some: seq<Item>, it: Item, ids: seq<nat>)
    ensures CleanlyLive(Body(level, Some(some + [it])), ids)
         <==> CleanlyLive(Body(level, Some(some)), ids) && Acceptable(it, ids) && F.Rank(it.freshness) == 0
  {
    assert it in some + [it];
    assert forall x :: x in some ==> x in some + [it];
  }

  lemma {:induction false} TakeCarried(f: F.Level, here: F.Level, answers: seq<Answer>, level: F.Level, some: seq<Item>,
                                       it: Item, ids: seq<nat>)
    requires Carried(f, here, answers + [Body(level, Some(some))], ids)
    ensures Carried(f, here, answers + [Body(level, Some(some + [it]))], ids)
    ensures Acceptable(it, ids) ==>
              Carried(F.Worse(f, F.Worse(level, it.freshness)), here, answers + [Body(level, Some(some + [it]))], ids)
  {
    var g := F.Worse(f, F.Worse(level, it.freshness));
    forall x | x == f || x == g
      ensures x == f || Acceptable(it, ids) ==> Carried(x, here, answers + [Body(level, Some(some + [it]))], ids)
    {
      CarriedSnoc(x, here, answers, Body(level, Some(some)), ids);
      CarriedSnoc(x, here, answers, Body(level, Some(some + [it])), ids);
      CarriesMore(level, some, it, ids, x);
    }
  }

  lemma {:induction false} TakeJudged(m: Merge, here: F.Level, answers: seq<Answer>, level: F.Level, some: seq<Item>,
                                      it: Item, ids: seq<nat>)
    requires Judged(m, here, answers + [Body(level, Some(some))], ids) && F.Valid(level)
    ensures Judged(TakeItem(m, level, it, ids), here, answers + [Body(level, Some(some + [it]))], ids)
  {
    var a, b := Body(level, Some(some)), Body(level, Some(some + [it]));
    AllCleanSnoc(answers, a, ids);
    AllCleanSnoc(answers, b, ids);
    CleanMore(level, some, it, ids);
    TakeCarried(m.freshness, here, answers, level, some, it, ids);
    hide Carried;
    forall k | 0 <= k < |answers + [b]| ensures LevelOf((answers + [b])[k]) == LevelOf((answers + [a])[k]) {}
    assert (answers + [a])[|answers|] == a;
  }

  /** The targets are asked when the request is not itself a hop and something is missing here. */
  ghost predicate Asked(ids: seq<nat>, local: seq<Item>, federate: bool) {
    federate && exists id :: id in ids && id !in ItemIds(local)
  }

  /** The answers that were asked for. */
  ghost function Heard(ids: seq<nat>, local: seq<Item>, federate: bool, answers: seq<Answer>): seq<Answer> {
    if Asked(ids, local, federate) then answers else []
  }

  /** Merging the local rows with the targets' answers. A row the database returns is found once. */
  method Gather(ids: seq<nat>, local: seq<Item>, here: F.Level, federate: bool, answers: seq<Answer>)
    returns (items: seq<Item>, found: set<nat>, uncertain: bool, freshness: F.Level)
    requires F.Valid(here) && UniqueIds(local) && ValidAnswers(answers)
    requires forall i :: 0 <= i < |local| ==> Acceptable(local[i], ids)
    ensures Sound(Merge(items, found, uncertain, freshness), local, here, Heard(ids, local, federate, answers), ids)
  {
    hide Merged, Judged, UniqueIds, CleanlyLive;
    items, found, uncertain, freshness := Labelled(local, here), ItemIds(local), !here.Live?, here;
    LocalMerged(local, here, ids);
    if !federate || forall i :: 0 <= i < |ids| ==> ids[i] in found {
      return;
    }
    for k := 0 to |answers|
      invariant Sound(Merge(items, found, uncertain, freshness), local, here, answers[..k], ids)
    {
      var answer := answers[k];
      assert answers[..k + 1] == answers[..k] + [answer];
      if answer.CallFailed? {
        StartAnswer(Merge(items, found, uncertain, freshness), local, here, answers[..k], answer, ids);
        uncertain := true;
        freshness := F.Worse(freshness, F.Unavailable);
        continue;
      }
      var level := answer.freshness;
      var opened_ := if answer.items.None? then answer else Body(level, Some([]));
      StartAnswer(Merge(items, found, uncertain, freshness), local, here, answers[..k], opened_, ids);
      freshness := F.Worse(freshness, level);
      uncertain := uncertain || !level.Live?;
      if answer.items.None? {
        uncertain := true;
        continue;
      }
      var remote := answer.items.value;
      for j := 0 to |remote|
        invariant Sound(Merge(items, found, uncertain, freshness), local, here,
                        answers[..k] + [Body(level, Some(remote[..j]))], ids)
      {
        var it := remote[j];
        assert remote[..j + 1] == remote[..j] + [it];
        TakeMerged(Merge(items, found, uncertain, freshness), local, here, answers[..k], level, remote[..j], it, ids);
        TakeJudged(Merge(items, found, uncertain, freshness), here, answers[..k], level, remote[..j], it, ids);
        if it.id !in ids || !it.valid {
          uncertain := true;
          continue;
        }
        var tag := F.Worse(level, it.freshness);
        freshness := F.Worse(freshness, tag);
        uncertain := uncertain || !tag.Live?;
        if it.id !in found {
          items := items + [it.(freshness := tag)];
          found := found + {it.id};
        }
      }
      assert remote[..|remote|] == remote;
    }
    assert answers[..|answers|] == answers;
  }

  lemma {:induction false} StartAnswer(m: Merge, local: seq<Item>, here: F.Level, answers: seq<Answer>, a: Answer,
                                       ids: seq<nat>)
    requires Sound(m, local, here, answers, ids) && (a.Body? ==> F.Valid(a.freshness))
    requires a.Body? && a.items.Some? ==> a.items.value == []
    ensures var n := m.(freshness := F.Worse(m.freshness, LevelOf(a)),
                        uncertain := m.uncertain || !LevelOf(a).Live? || (a.Body? && a.items.None?));
            Sound(n, local, here, answers + [a], ids)
  {
    var n := m.(freshness := F.Worse(m.freshness, LevelOf(a)),
                uncertain := m.uncertain || !LevelOf(a).Live? || (a.Body? && a.items.None?));
    EmptyMerged(m, n, local, here, answers, a, ids);
    EmptyJudged(m, n, here, answers, a, ids);
  }

  /** Everyone who could know an id that was not found has answered, live and with nothing but valid items. */
  ghost predicate EveryoneAnswered(ids: seq<nat>, here: F.Level, federate: bool, answers: seq<Answer>) {
    here.Live? && (federate ==> AllClean(answers, ids))
  }

  /** The items of a reply: unique, requested, local ones first, and every id that any server could supply. */
  ghost predicate FoundAll(items: seq<Item>, freshness: F.Level, ids: seq<nat>, local: seq<Item>, here: F.Level,
                           heard: seq<Answer>) {
    && UniqueIds(items) && ItemIds(items) <= Elems(ids)
    && |local| <= |items| && items[..|local|] == Labelled(local, here)
    && (forall i :: |local| <= i < |items| ==> CameFrom(items[i], heard, ids))
    && (forall id :: id in ItemIds(items) <==> id in ItemIds(local) || Supplied(heard, ids, id))
    && (forall i :: 0 <= i < |items| ==> F.Rank(items[i].freshness) <= F.Rank(freshness))
    && F.Rank(here) <= F.Rank(freshness) && Carried(freshness, here, heard, ids)
    && (forall k :: 0 <= k < |heard| ==> F.Rank(LevelOf(heard[k])) <= F.Rank(freshness))
  }

  ghost predicate SomeMissing(ids: seq<nat>, items: set<nat>) {
    exists id :: id in ids && id !in items
  }

  /** A requested id that is not stored here and that no target that was asked has supplied. */
  ghost predicate SomeUnsupplied(ids: seq<nat>, local: seq<Item>, federate: bool, answers: seq<Answer>) {
    exists id :: id in ids && id !in ItemIds(local) && !Supplied(Heard(ids, local, federate, answers), ids, id)
  }

  lemma {:induction false} MissingIsUnsupplied(m: Merge, ids: seq<nat>, local: seq<Item>, here: F.Level, federate: bool,
                                               answers: seq<Answer>)
    requires Sound(m, local, here, Heard(ids, local, federate, answers), ids)
    ensures SomeMissing(ids, m.found) <==> SomeUnsupplied(ids, local, federate, answers)
  {
    hide Judged, Heard, Supplied, ItemIds;
  }

  lemma {:induction false} NoneMissing(ids: seq<nat>, found: set<nat>, requested: set<nat>)
    requires requested == Elems(ids) && found <= requested && !SomeMissing(ids, found)
    ensures |found| == |requested|
  {
    assert found == requested;
  }

  lemma {:induction false} SoundReply(m: Merge, ids: seq<nat>, local: seq<Item>, here: F.Level, heard: seq<Answer>)
    requires Sound(m, local, here, heard, ids)
    requires forall i :: 0 <= i < |local| ==> Acceptable(local[i], ids)
    ensures FoundAll(m.items, m.freshness, ids, local, here, heard) && m.found == ItemIds(m.items)
  {
    forall id | id in ItemIds(m.items) ensures id in Elems(ids) {
      if id in ItemIds(local) {
        var it :| it in local && it.id == id;
      } else {
        var k :| 0 <= k < |heard| && Supplies(heard[k], ids, id);
      }
    }
  }

  /** With an id missing, the merge is uncertain exactly when someone who could know it has not answered properly. */
  lemma {:induction false} UncertainWhenMissing(m: Merge, ids: seq<nat>, local: seq<Item>, here: F.Level,
                                                federate: bool, answers: seq<Answer>)
    requires Sound(m, local, here, Heard(ids, local, federate, answers), ids) && SomeMissing(ids, m.found)
    ensures m.uncertain <==> !EveryoneAnswered(ids, here, federate, answers)
  {
    var id :| id in ids && id !in m.found;
    assert id !in ItemIds(local);
  }

  lemma {:induction false} FewerFound(ids: seq<nat>, found: set<nat>, requested: set<nat>)
    requires requested == Elems(ids) && found <= requested && SomeMissing(ids, found)
    ensures |found| < |requested|
  {
    var id :| id in ids && id !in found;
    assert requested == found + (requested - found) && id in requested - found;
  }

  method BatchGet(ids: seq<nat>, partial: bool, local: seq<Item>, here: F.Level, federate: bool, answers: seq<Answer>)
    returns (r: Response)
    requires F.Valid(here) && UniqueIds(local) && ValidAnswers(answers)
    ensures r.BadRequest? <==> |ids| > 1000 || !Distinct(ids)
    ensures r.InvalidRow? <==> !r.BadRequest? && exists i :: 0 <= i < |local| && !Acceptable(local[i], ids)
    ensures r.Partial? ==>
                partial && FoundAll(r.items, r.freshness, ids, local, here, Heard(ids, local, federate, answers))
    ensures r.Full? ==>
                !partial && FoundAll(r.items, r.freshness, ids, local, here, Heard(ids, local, federate, answers))
    // what is neither found nor reported unavailable does not exist anywhere
    ensures r.Partial? ==> forall id :: id in r.unavailable <==>
              id in ids && id !in ItemIds(r.items) && !EveryoneAnswered(ids, here, federate, answers)
    ensures r.Full? ==> !SomeMissing(ids, ItemIds(r.items)) || EveryoneAnswered(ids, here, federate, answers)
    ensures r.Partial? <==> !r.BadRequest? && !r.InvalidRow? && partial
    // refused only when an id is missing and someone who could know it has not answered properly
    ensures r.Incomplete? <==>
              (!r.BadRequest? && !r.InvalidRow? && !partial && SomeUnsupplied(ids, local, federate, answers)
               && !EveryoneAnswered(ids, here, federate, answers))
  {
    var requested: set<nat> := {};
    if |ids| > MAX_IDS {
      return BadRequest;
    }
    for i := 0 to |ids|
      invariant requested == Elems(ids[..i]) && Distinct(ids[..i])
    {
      if ids[i] in requested {
        assert !Distinct(ids) by {
          var k :| 0 <= k < i && ids[..i][k] == ids[i];
        }
        return BadRequest;
      }
      assert ids[..i + 1] == ids[..i] + [ids[i]];
      requested := requested + {ids[i]};
    }
    assert ids[..|ids|] == ids;
    for i := 0 to |local|
      invariant forall k :: 0 <= k < i ==> Acceptable(local[k], ids)
    {
      if local[i].id !in requested || !local[i].valid {
        return InvalidRow;
      }
    }
    var items, found, uncertain, freshness := Gather(ids, local, here, federate, answers);
    r := Reply(ids, partial, local, here, federate, answers, requested, items, found, uncertain, freshness);
  }

  method Reply(ids: seq<nat>, partial: bool, ghost local: seq<Item>, ghost here: F.Level, ghost federate: bool,
               ghost answers: seq<Answer>, requested: set<nat>, items: seq<Item>, found: set<nat>, uncertain: bool,
               freshness: F.Level) returns (r: Response)
    requires Sound(Merge(items, found, uncertain, freshness), local, here, Heard(ids, local, federate, answers), ids)
    requires requested == Elems(ids) && forall i :: 0 <= i < |local| ==> Acceptable(local[i], ids)
    ensures r.Partial? || r.Full? || r.Incomplete?
    ensures r.Partial? <==> partial
    ensures r.Partial? ==> r == Partial(items, if uncertain then Missing(ids, found) else [], freshness)
    ensures r.Full? ==> r == Full(items, freshness)
    ensures !r.Incomplete? ==> FoundAll(items, freshness, ids, local, here, Heard(ids, local, federate, answers))
    ensures r.Partial? ==> forall id :: id in r.unavailable <==>
              id in ids && id !in ItemIds(items) && !EveryoneAnswered(ids, here, federate, answers)
    ensures r.Full? ==> !SomeMissing(ids, ItemIds(items)) || EveryoneAnswered(ids, here, federate, answers)
    ensures r.Incomplete? <==>
              !partial && SomeUnsupplied(ids, local, federate, answers)
                && !EveryoneAnswered(ids, here, federate, answers)
  {
    ghost var m := Merge(items, found, uncertain, freshness);
    SoundReply(m, ids, local, here, Heard(ids, local, federate, answers));
    MissingIsUnsupplied(m, ids, local, here, federate, answers);
    if SomeMissing(ids, found) {
      UncertainWhenMissing(m, ids, local, here, federate, answers);
      FewerFound(ids, found, requested);
    } else {
      NoneMissing(ids, found, requested);
    }
    hide SomeUnsupplied, Sound, Merged, Judged, EveryoneAnswered, FoundAll, Heard;
    if partial {
      var unavailable: seq<nat> := [];
      if uncertain {
        unavailable := ListMissing(ids, found);
      }
      return Partial(items, unavailable, freshness);
    }
    if |found| < |requested| && uncertain {
      return Incomplete;
    }
    return Full(items, freshness);
  }

  method ListMissing(ids: seq<nat>, found: set<nat>) returns (unavailable: seq<nat>)
    ensures unavailable == Missing(ids, found)
  {
    unavailable := [];
    for i := 0 to |ids|
      invariant unavailable == Missing(ids[..i], found)
    {
      assert ids[..i + 1] == ids[..i] + [ids[i]];
      FilterSnoc(NotIn(found), ids[..i], ids[i]);
      if ids[i] !in found {
        unavailable := unavailable + [ids[i]];
      }
    }
    assert ids[..|ids|] == ids;
  }
}

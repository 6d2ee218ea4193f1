/** Which evidence settles a warning event, on the inventory itself: its own age, or the row of the resource it refers
    to. Both when the event is written and in the periodic pass. */
module Recoveries {
  import opened Model
  import opened EventRecovery
  import opened Inventory
  import opened Changes
  import T = Tombstones

  /** t is the latest of the four timestamps of the event, and after the zero time. */
  ghost predicate LastSeen(s: Summary, t: int) {
    && t > 0
    && (s.lastTimestamp == Some(t) || s.eventTime == Some(t) || s.seriesLastObserved == Some(t)
        || s.deprecatedLast == Some(t))
    && (s.lastTimestamp.Some? ==> s.lastTimestamp.value <= t) && (s.eventTime.Some? ==> s.eventTime.value <= t)
    && (s.seriesLastObserved.Some? ==> s.seriesLastObserved.value <= t)
    && (s.deprecatedLast.Some? ==> s.deprecatedLast.value <= t)
  }

  lemma {:induction false} OccurrenceIsLastSeen(s: Summary)
    ensures Occurrence(s) > 0 ==> LastSeen(s, Occurrence(s))
    ensures forall t :: LastSeen(s, t) ==> Occurrence(s) == t
  {
    var stamps := Stamps(s);
    assert stamps[0] in stamps && stamps[1] in stamps && stamps[2] in stamps && stamps[3] in stamps;
  }

  /** Ten minutes or more have passed since the last occurrence. */
  ghost predicate LongAgo(s: Summary, now: int) {
    exists t :: LastSeen(s, t) && t + 600_000_000_000 <= now * 1000
  }

  /** The row of the same cluster and namespace with this uid, observed when or after the event last occurred. */
  ghost predicate SeenSince(rows: map<ResourceId, Row>, r: Resource, uid: string) {
    var about := StableId(r.cluster, uid);
    && about in rows && rows[about].resource.relations.namespace == r.relations.namespace
    && exists t :: LastSeen(r.summary, t) && t <= rows[about].observedAt * 1000
  }

  predicate Gone(row: Row) {
    row.deletedAt.Some?
  }

  predicate Healthy(row: Row) {
    var kind := row.resource.relations.kind;
    && row.deletedAt.None? && row.resource.state == OK
    && (kind == "Pod" || kind == "Deployment" || kind == "StatefulSet" || kind == "ReplicaSet" || kind == "DaemonSet"
        || kind == "Job" || kind == "PersistentVolumeClaim")
  }

  function Closed(r: Resource, reason: string, lifecycle: string): Resource {
    r.(state := OK, reason := reason, summary := r.summary.(lifecycle := Some(lifecycle)))
  }

  /** What the evidence makes of an event that refers to this uid, None if it refers to nothing. */
  ghost predicate Judged(rows: map<ResourceId, Row>, r: Resource, uid: Option<string>, now: int, after: Resource) {
    if LongAgo(r.summary, now)
    then after == Closed(r, "Historical event: no occurrence in the last 10 minutes", "inactive")
    else if uid.Some? && SeenSince(rows, r, uid.value) && Gone(rows[StableId(r.cluster, uid.value)])
    then after == Closed(r, "Historical event: referenced resource has been deleted", "resolved")
    else if uid.Some? && SeenSince(rows, r, uid.value) && Healthy(rows[StableId(r.cluster, uid.value)])
    then
      var kind := rows[StableId(r.cluster, uid.value)].resource.relations.kind;
      after == Closed(r, "Historical event: referenced " + kind + " is healthy", "resolved")
    else after == r
  }

  lemma {:induction false} NoneSeen(s: Summary)
    ensures forall t :: LastSeen(s, t) ==> t > 0
  {}

  lemma {:induction false} LongAgoIsInactive(s: Summary, now: int)
    ensures Inactive(s, now * NANOS_PER_MICRO) <==> LongAgo(s, now)
  {
    OccurrenceIsLastSeen(s);
    assert Occurrence(s) >= 0;
    hide LastSeen;
    if Occurrence(s) > 0 {
      assert LastSeen(s, Occurrence(s));
    } else {
      assert forall t :: LastSeen(s, t) ==> t > 0 by {
        NoneSeen(s);
      }
    }
  }

  lemma {:induction false} HealthyReason(kind: string)
    ensures var reason := "Historical event: referenced " + kind + " is healthy";
            reason != "" && Lifecycle(reason) == "resolved"
  {
    var reason := "Historical event: referenced " + kind + " is healthy";
    assert reason[18] == 'r' && INACTIVE_REASON[18] == 'n';
  }

  lemma {:induction false} OtherReasons()
    ensures INACTIVE_REASON != "" && Lifecycle(INACTIVE_REASON) == "inactive"
    ensures DELETED_REASON != "" && Lifecycle(DELETED_REASON) == "resolved"
  {
    assert DELETED_REASON[18] == 'r' && INACTIVE_REASON[18] == 'n';
  }

  /** What Recovery finds in the row an event refers to. */
  lemma {:induction false} RecoveryJudges(rows: map<ResourceId, Row>, r: Resource, uid: string, now: int)
    requires var about := StableId(r.cluster, uid);
             about in rows && rows[about].resource.relations.namespace == r.relations.namespace
    ensures var row := rows[StableId(r.cluster, uid)];
            var reason := Recovery(r.summary, row.resource.state, row.resource.relations.kind,
                                   row.observedAt * NANOS_PER_MICRO, !row.Live(), now * NANOS_PER_MICRO);
            Judged(rows, r, Some(uid), now, if reason != "" then Resolved(r, reason) else r)
  {
    var row := rows[StableId(r.cluster, uid)];
    LongAgoIsInactive(r.summary, now);
    OccurrenceIsLastSeen(r.summary);
    HealthyReason(row.resource.relations.kind);
    OtherReasons();
    hide Inactive, LongAgo, Occurrence, LastSeen, Lifecycle;
    if Occurrence(r.summary) > 0 {
      assert LastSeen(r.summary, Occurrence(r.summary));
    }
    assert SeenSince(rows, r, uid) <==>
             Occurrence(r.summary) > 0 && Occurrence(r.summary) <= row.observedAt * NANOS_PER_MICRO;
  }

  /** Without a row to look at only the event's age counts. */
  lemma {:induction false} AgeJudges(rows: map<ResourceId, Row>, r: Resource, uid: Option<string>, now: int)
    requires uid.None? || !SeenSince(rows, r, uid.value)
    ensures Judged(rows, r, uid, now,
                   if Inactive(r.summary, now * NANOS_PER_MICRO) then Resolved(r, INACTIVE_REASON) else r)
  {
    LongAgoIsInactive(r.summary, now);
    OtherReasons();
    hide Inactive, LongAgo, Occurrence, LastSeen, Lifecycle, SeenSince;
  }

  /* ---------- the pass ---------- */

  /** The uid the pass looks for: the first of the two that is present. */
  function PresentUid(s: Summary): Option<string> {
    if s.regardingUid.Some? then s.regardingUid else s.involvedUid
  }

  /** A live event that is not ok is judged by the pass unless another transaction has locked its row, and nothing else
      is touched. */
  lemma {:induction false} PassDecides(s: Stock, busy: set<ResourceId>, now: int, id: ResourceId)
    requires id in s.rows
    ensures var row, after := s.rows[id], Inventory.ResolveEvents(s, busy, now).rows;
            && id in after && after[id] == row.(resource := after[id].resource)
            && var r := row.resource;
               if r.relations.kind == "Event" && (r.relations.group == "core" || r.relations.group == "events.k8s.io")
                  && r.state != OK && row.deletedAt.None? && id !in busy
               then Judged(s.rows, r, PresentUid(r.summary), now, after[id].resource)
               else after[id] == row
  {
    hide Judged, Recovery, Resolved, QueueRecovered;
    var r := s.rows[id].resource;
    PassReasonJudges(s.rows, s.rows[id], now);
  }

  lemma {:induction false} PassReasonJudges(rows: map<ResourceId, Row>, row: Row, now: int)
    ensures var reason := PassReason(rows, row, now);
            Judged(rows, row.resource, PresentUid(row.resource.summary), now,
                   if reason != "" then Resolved(row.resource, reason) else row.resource)
  {
    var r := row.resource;
    var uid := PresentUid(r.summary);
    hide Judged, Resolved, Inactive, Occurrence, LastSeen;
    if uid.Some? && StableId(r.cluster, uid.value) in rows
       && rows[StableId(r.cluster, uid.value)].resource.relations.namespace == r.relations.namespace {
      RecoveryJudges(rows, r, uid.value, now);
    } else {
      AgeJudges(rows, r, uid, now);
      NothingToSee(r.summary, now);
    }
  }

  lemma {:induction false} NothingToSee(s: Summary, now: int)
    ensures Recovery(s, Unknown, "", 0, false, now * NANOS_PER_MICRO)
         == if Inactive(s, now * NANOS_PER_MICRO) then INACTIVE_REASON else ""
    ensures INACTIVE_REASON != ""
  {
    OtherReasons();
  }

  /* ---------- an upsert ---------- */

  /** The uid an upsert looks for: the first of the two that is not empty. */
  function NamedUid(s: Summary): Option<string> {
    if s.regardingUid.Some? && s.regardingUid.value != "" then s.regardingUid
    else if s.involvedUid.Some? && s.involvedUid.value != "" then s.involvedUid
    else None
  }

  /** The same version of the event is stored as settled, with a reason. */
  predicate SettledBefore(rows: map<ResourceId, Row>, r: Resource) {
    && r.Id() in rows && rows[r.Id()].deletedAt.None? && rows[r.Id()].resource.state == OK
    && rows[r.Id()].resource.resourceVersion == r.resourceVersion && rows[r.Id()].resource.reason != ""
    && (rows[r.Id()].resource.summary.lifecycle == Some("resolved")
        || rows[r.Id()].resource.summary.lifecycle == Some("inactive"))
  }

  /** What an upsert that is not held back stores: of anything but a warning event the resource as it is; of one that is
      settled already in this version the same reason; of any other what the evidence says. */
  lemma {:induction false} UpsertDecides(s: Stock, o: Observation, now: int)
    requires o.action == Upsert && !T.Held(s, o)
    ensures var r, after := o.resource, Perform(s, Ingest(o, now)).rows;
            && r.Id() in after && after[r.Id()].deletedAt == r.deletedAt && after[r.Id()].observedAt == o.At()
            && after[r.Id()].shard == o.shard
            && if !(r.relations.kind == "Event" && (r.relations.group == "core" || r.relations.group == "events.k8s.io")
                    && r.state != OK)
               then after[r.Id()].resource == r
               else if SettledBefore(s.rows, r)
               then
                 var known := s.rows[r.Id()].resource.reason;
                 after[r.Id()].resource
                   == Closed(r, known, if "Historical event: no occurrence in the last 10 minutes" <= known
                                       then "inactive" else "resolved")
               else Judged(s.rows, r, NamedUid(r.summary), now, after[r.Id()].resource)
  {
    var r := o.resource;
    UpsertStores(s, o, now);
    hide Judged, Perform, ApplyResource, RoundToMicros, T.Held;
    if WarningEvent(r) && !SettledBefore(s.rows, r) {
      WriteReasonJudges(s.rows, r, now);
    }
  }

  lemma {:induction false} UpsertStores(s: Stock, o: Observation, now: int)
    requires o.action == Upsert && !T.Held(s, o)
    ensures var r, after := o.resource, Perform(s, Ingest(o, now)).rows;
            && r.Id() in after
            && after[r.Id()] == Row(ResolveEvent(s.rows, r, now), o.shard, o.At(), r.deletedAt)
  {
    hide ShouldNotify, Queue, ResolveEvent, RoundToMicros;
    ResolvedKeepsIdentity(s.rows, o.resource, now);
  }

  lemma {:induction false} WriteReasonJudges(rows: map<ResourceId, Row>, r: Resource, now: int)
    requires !SettledBefore(rows, r)
    ensures var reason := WriteReason(rows, r, now);
            Judged(rows, r, NamedUid(r.summary), now, if reason != "" then Resolved(r, reason) else r)
  {
    var uid := NamedUid(r.summary);
    OtherReasons();
    hide Judged, Resolved, Inactive, Occurrence, LastSeen, Recovery;
    assert uid.Some? ==> uid.value == Reference(r.summary) != "";
    assert uid.None? ==> Reference(r.summary) == "";
    if uid.Some? && StableId(r.cluster, uid.value) in rows
       && rows[StableId(r.cluster, uid.value)].resource.relations.namespace == r.relations.namespace {
      RecoveryJudges(rows, r, uid.value, now);
      InactiveFirst(r.summary, rows[StableId(r.cluster, uid.value)], now);
    } else {
      AgeJudges(rows, r, uid, now);
    }
  }

  lemma {:induction false} InactiveFirst(s: Summary, row: Row, now: int)
    ensures Inactive(s, now * NANOS_PER_MICRO) ==>
              Recovery(s, row.resource.state, row.resource.relations.kind, row.observedAt * NANOS_PER_MICRO,
                       !row.Live(),
                       now * NANOS_PER_MICRO) == INACTIVE_REASON
  {}
}

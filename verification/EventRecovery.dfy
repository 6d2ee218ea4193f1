/** When a Kubernetes warning event no longer describes a problem. Instants are nanoseconds; 0 is the zero time. */
module EventRecovery {
  import opened Model

  const PROBLEM_WINDOW := 600 * 1_000_000_000
  const INACTIVE_REASON := "Historical event: no occurrence in the last 10 minutes"
  const DELETED_REASON := "Historical event: referenced resource has been deleted"

  /** The kinds whose health proves that an event about them has recovered. */
  const PROVING_KINDS := {"Pod", "Deployment", "StatefulSet", "ReplicaSet", "DaemonSet", "Job", "PersistentVolumeClaim"}

  function Stamps(s: Summary): seq<Option<int>> {
    [s.lastTimestamp, s.eventTime, s.seriesLastObserved, s.deprecatedLast]
  }

  /** The latest occurrence a summary gives evidence of, or 0. */
  function Occurrence(s: Summary): (latest: int)
    ensures latest >= 0
    ensures latest > 0 ==> Some(latest) in Stamps(s)
    ensures forall t :: t in Stamps(s) && t.Some? ==> t.value <= latest
  {
    Later(s.deprecatedLast, Later(s.seriesLastObserved, Later(s.eventTime, Later(s.lastTimestamp, 0))))
  }

  function Later(t: Option<int>, latest: int): int {
    if t.Some? && t.value > latest then t.value else latest
  }

  method FindOccurrence(s: Summary) returns (latest: int)
    ensures latest == Occurrence(s)
  {
    var stamps := Stamps(s);
    latest := 0;
    for i := 0 to |stamps|
      invariant latest >= 0 && (latest > 0 ==> Some(latest) in stamps[..i])
      invariant forall j :: 0 <= j < i && stamps[j].Some? ==> stamps[j].value <= latest
    {
      if stamps[i].Some? && stamps[i].value > latest {
        latest := stamps[i].value;
      }
    }
    assert stamps[..|stamps|] == stamps;
  }

  predicate Inactive(s: Summary, now: int) {
    Occurrence(s) != 0 && Occurrence(s) <= now - PROBLEM_WINDOW
  }

  function Inactivity(s: Summary, now: int): string {
    if Inactive(s, now) then INACTIVE_REASON else ""
  }

  function Lifecycle(reason: string): string {
    if INACTIVE_REASON <= reason then "inactive" else "resolved"
  }

  predicate EventGroup(group: string) {
    group == "core" || group == "events.k8s.io"
  }

  predicate WarningEvent(r: Resource) {
    r.relations.kind == "Event" && EventGroup(r.relations.group) && r.state != OK
  }

  function TextOf(o: Option<string>): string {
    if o.Some? then o.value else ""
  }

  /** The uid an event refers to when it is written: the first non-empty one. */
  function Reference(s: Summary): string {
    if TextOf(s.regardingUid) != "" then s.regardingUid.value else TextOf(s.involvedUid)
  }

  /** The uid an event refers to in the recovery pass: the first one that is present, even if empty. */
  function CoalescedReference(s: Summary): string {
    if s.regardingUid.Some? then s.regardingUid.value else TextOf(s.involvedUid)
  }

  function Recovery(s: Summary, state: State, kind: string, observed: int, deleted: bool, now: int): string {
    if Inactive(s, now) then INACTIVE_REASON
    else if Occurrence(s) == 0 || observed < Occurrence(s) then ""
    else if deleted then DELETED_REASON
    else if state != OK then ""
    else if kind in PROVING_KINDS then "Historical event: referenced " + kind + " is healthy"
    else ""
  }

  /** An event is declared recovered only on evidence: it is old, or the resource it names was observed
      after its last occurrence and is gone or healthy. */
  lemma {:induction false} RecoveryNeedsEvidence(s: Summary, state: State, kind: string, observed: int, deleted: bool,
                                                 now: int)
    ensures Recovery(s, state, kind, observed, deleted, now) != "" <==>
            Occurrence(s) > 0 &&
            (Occurrence(s) + PROBLEM_WINDOW <= now ||
             (Occurrence(s) <= observed && (deleted || (state == OK && kind in PROVING_KINDS))))
  {
    assert |"Historical event: referenced " + kind + " is healthy"| > 0;
    assert |INACTIVE_REASON| > 0 && |DELETED_REASON| > 0;
  }
}

/** The entities both controllers share: findings, RemediationJobs ("rjobs") and the
    batch Jobs that carry an investigation. Times and durations are integers. */
module Types {

  type Time = int
  type UID = nat

  datatype Option<+T> = None | Some(value: T)

  /** `Blank` is the empty phase of an object no controller has touched yet. */
  datatype Phase =
    | Blank
    | Pending
    | Dispatched
    | Running
    | Succeeded
    | Failed
    | Cancelled
    | PermanentlyFailed
    | Suppressed

  /** A name within a namespace. */
  datatype Ref = Ref(name: string, namespace: string)

  datatype Finding = Finding(
    kind: string,
    name: string,
    namespace: string,
    parent: string,
    errors: string,
    details: string,
    chainDepth: int)

  datatype RJob = RJob(
    name: string,
    uid: UID,
    created: Time,
    source: Ref,
    fingerprint: string,
    finding: Finding,
    node: string,
    maxRetries: int,
    phase: Phase,
    retryCount: int,
    jobRef: string,
    dispatchedAt: Option<Time>,
    completedAt: Option<Time>,
    groupID: string,
    groupLabel: string,
    role: string,
    sinkURL: string,
    prMerged: bool,
    prMergedAt: Option<Time>)

  /** A batch Job as the builder makes it. `own` and `correlated` are the findings the
      agent is asked to investigate; `fp12` is the fingerprint label. */
  datatype Job = Job(
    name: string,
    rjobLabel: string,
    fp12: string,
    ownerName: string,
    ownerUID: UID,
    created: Time,
    active: int,
    succeeded: int,
    failed: int,
    backoffLimit: Option<int>,
    own: Finding,
    correlated: seq<Finding>)

  const ROLE_PRIMARY := "primary"
  const ROLE_CORRELATED := "correlated"

  /** Higher rank means higher in the ownership hierarchy. */
  function KindHierarchyRank(kind: string): nat {
    if kind == "Deployment" then 10
    else if kind == "StatefulSet" then 9
    else if kind == "DaemonSet" then 8
    else if kind == "Job" then 7
    else if kind == "ReplicaSet" then 6
    else if kind == "Pod" then 1
    else if kind == "PersistentVolumeClaim" then 1
    else 0
  }
}

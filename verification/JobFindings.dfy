/** How a failed agent Job becomes a finding about the watcher itself. */
module JobFindings {
  import opened Types

  datatype OwnerRef = OwnerRef(kind: string, name: string, uid: UID)

  /** A batch Job as the Job provider reads it. */
  datatype WatchedJob = WatchedJob(
    skipped: bool,
    refs: seq<OwnerRef>,
    mechanic: bool,
    suspended: bool,
    failed: int,
    active: int,
    completed: bool)

  datatype Extraction = Nothing | ExtractError | Extracted(chainDepth: int)

  const REMEDIATION_JOB := "RemediationJob"

  /** One more than the depth of the first RemediationJob owner that is still there, else one.
      Reading a name in `failing` is an API error. */
  function ChainDepth(rjobs: map<string, RJob>, failing: set<string>, refs: seq<OwnerRef>): Option<int> {
    if refs == [] then Some(1)
    else if refs[0].kind != REMEDIATION_JOB then ChainDepth(rjobs, failing, refs[1..])
    else if refs[0].name in failing then None
    else if refs[0].name in rjobs then Some(rjobs[refs[0].name].finding.chainDepth + 1)
    else Some(1)
  }

  /** Given up retrying: some pod failed, none is active, and the Job did not complete. Jobs annotated
      to be skipped, owned by a CronJob or suspended are never findings. */
  predicate GivenUp(w: WatchedJob) {
    && !w.skipped
    && (forall r :: r in w.refs ==> r.kind != "CronJob")
    && !w.suspended
    && w.failed != 0 && w.active == 0 && !w.completed
  }

  method GetChainDepthFromOwner(rjobs: map<string, RJob>, failing: set<string>, refs: seq<OwnerRef>) returns (depth: Option<int>)
    ensures depth == ChainDepth(rjobs, failing, refs)
  {
    for i := 0 to |refs|
      invariant ChainDepth(rjobs, failing, refs) == ChainDepth(rjobs, failing, refs[i..])
    {
      assert refs[i..][1..] == refs[i + 1..];
      if refs[i].kind != REMEDIATION_JOB {
        continue;
      }
      if refs[i].name in failing {
        return None;
      }
      if refs[i].name !in rjobs {
        return Some(1);
      }
      return Some(rjobs[refs[i].name].finding.chainDepth + 1);
    }
    return Some(1);
  }

  /** The first owner reference to a RemediationJob decides: an error if it cannot be read, one more than its
      depth if it is there, one if it is gone. */
  lemma {:induction false} FirstOwnerDecides(rjobs: map<string, RJob>, failing: set<string>, refs: seq<OwnerRef>, i: nat)
    requires i < |refs| && refs[i].kind == "RemediationJob"
    requires forall k :: 0 <= k < i ==> refs[k].kind != "RemediationJob"
    ensures ChainDepth(rjobs, failing, refs) ==
            if refs[i].name in failing then None
            else Some(1 + if refs[i].name in rjobs then rjobs[refs[i].name].finding.chainDepth else 0)
  {
    if i > 0 {
      FirstOwnerDecides(rjobs, failing, refs[1..], i - 1);
    }
  }

  lemma {:induction false} NoOwnerNoDepth(rjobs: map<string, RJob>, failing: set<string>, refs: seq<OwnerRef>)
    requires forall k :: 0 <= k < |refs| ==> refs[k].kind != "RemediationJob"
    ensures ChainDepth(rjobs, failing, refs) == Some(1)
  {
    if refs != [] {
      NoOwnerNoDepth(rjobs, failing, refs[1..]);
    }
  }

  /** What the Job provider reports of a Job: a depth above zero only for the watcher's own, and then
      one above a live owner's. */
  function Extract(w: WatchedJob, rjobs: map<string, RJob>, failing: set<string>): Extraction {
    if !GivenUp(w) then Nothing
    else if !w.mechanic then Extracted(0)
    else match ChainDepth(rjobs, failing, w.refs) case None => ExtractError case Some(d) => Extracted(d)
  }

  method ExtractFinding(w: WatchedJob, rjobs: map<string, RJob>, failing: set<string>) returns (e: Extraction)
    ensures e == Extract(w, rjobs, failing)
    ensures e.Nothing? <==> || w.skipped || w.suspended || w.completed || w.failed == 0 || w.active != 0
                            || exists r :: r in w.refs && r.kind == "CronJob"
    ensures e.Extracted? ==> if w.mechanic then ChainDepth(rjobs, failing, w.refs) == Some(e.chainDepth) else e.chainDepth == 0
    ensures e.ExtractError? <==> !e.Nothing? && w.mechanic && ChainDepth(rjobs, failing, w.refs).None?
    ensures e.Extracted? && w.mechanic && (forall n :: n in rjobs ==> rjobs[n].finding.chainDepth >= 0) ==> e.chainDepth >= 1
  {
    if w.skipped {
      return Nothing;
    }
    for i := 0 to |w.refs|
      invariant forall k :: 0 <= k < i ==> w.refs[k].kind != "CronJob"
    {
      if w.refs[i].kind == "CronJob" {
        return Nothing;
      }
    }
    if w.suspended {
      return Nothing;
    }
    if w.failed == 0 || w.active != 0 || w.completed {
      return Nothing;
    }
    if !w.mechanic {
      return Extracted(0);
    }
    var depth := GetChainDepthFromOwner(rjobs, failing, w.refs);
    if depth.None? {
      return ExtractError;
    }
    DepthPositive(rjobs, failing, w.refs);
    return Extracted(depth.value);
  }

  lemma {:induction false} DepthPositive(rjobs: map<string, RJob>, failing: set<string>, refs: seq<OwnerRef>)
    ensures (forall n :: n in rjobs ==> rjobs[n].finding.chainDepth >= 0) && ChainDepth(rjobs, failing, refs).Some?
            ==> ChainDepth(rjobs, failing, refs).value >= 1
  {
    if refs != [] {
      DepthPositive(rjobs, failing, refs[1..]);
    }
  }
}

/**
  Failure classification of a pod: `internal/detect/detect.go`, lines 13-107.

  The early-return loops are methods proved against `Classification`; that function is then
  shown to pick the least candidate failure, ordered by tier and then by list position.
 */
module Detect {
  import opened Wrappers
  import opened Text

  // ----- the part of a pod that the operator looks at -----

  datatype Waiting = Waiting(reason: string, message: string)

  datatype Terminated = Terminated(reason: string, exitCode: int)

  datatype ContainerStatus = ContainerStatus(
    name: string,
    restartCount: int,
    waiting: Option<Waiting>,          // State.Waiting
    terminated: Option<Terminated>,    // State.Terminated
    lastTerminated: Option<Terminated> // LastTerminationState.Terminated
  )

  datatype Condition = Condition(kind: string, status: string, reason: string)

  /** One container of the pod's spec, with the resource quantities that are set. */
  datatype ContainerSpec = ContainerSpec(
    name: string,
    cpuRequest: Option<string>,
    cpuLimit: Option<string>,
    memoryRequest: Option<string>,
    memoryLimit: Option<string>
  )

  datatype Pod = Pod(
    namespace: string,
    name: string,
    phase: string,
    conditions: seq<Condition>,
    containers: seq<ContainerStatus>,
    initContainers: seq<ContainerStatus>,
    specContainers: seq<ContainerSpec>,
    specInitContainers: seq<ContainerSpec>
  )

  datatype FailureType =
    CrashLoopBackOff | OOMKilled | ImagePullBackOff | InitContainerError | PendingScheduling
  {
    function Text(): string {
      match this
      case CrashLoopBackOff => "CrashLoopBackOff"
      case OOMKilled => "OOMKilled"
      case ImagePullBackOff => "ImagePullBackOff"
      case InitContainerError => "InitContainerError"
      case PendingScheduling => "PendingScheduling"
    }
  }

  /** A classified failure and the container it is attributed to ("" when there is none). */
  datatype Finding = Finding(failure: FailureType, container: string)

  // ----- the tests applied to one container status -----

  predicate KilledByOom(cs: ContainerStatus) {
    cs.lastTerminated.Some? && cs.lastTerminated.value.reason == "OOMKilled"
  }

  predicate InitContainerFailure(ics: ContainerStatus) {
    if ics.terminated.Some? && ics.terminated.value.exitCode != 0 then true
    else if ics.waiting.Some? then
      var r := ics.waiting.value.reason;
      if Contains(r, "Error") then true
      else
        r == "CreateContainerConfigError" || r == "ErrImagePull" || r == "ImagePullBackOff"
        || r == "InvalidImageName" || r == "CrashLoopBackOff"
    else false
  }

  function WaitingFailure(cs: ContainerStatus): Option<FailureType> {
    if cs.waiting.None? then None
    else
      match cs.waiting.value.reason
      case "ImagePullBackOff" => Some(ImagePullBackOff)
      case "ErrImagePull" => Some(ImagePullBackOff)
      case "CrashLoopBackOff" => Some(CrashLoopBackOff)
      case _ => None
  }

  predicate FailsWhileWaiting(cs: ContainerStatus) {
    WaitingFailure(cs).Some?
  }

  predicate MissesConfig(cs: ContainerStatus) {
    cs.waiting.Some? && cs.waiting.value.reason == "CreateContainerConfigError"
  }

  predicate IsScheduledCondition(c: Condition) {
    c.kind == "PodScheduled"
  }

  predicate RefusesScheduling(c: Condition) {
    c.status == "False" && (c.reason == "FailedScheduling" || c.reason == "Unschedulable")
  }

  // ----- first-match search -----

  /** Position of the first element satisfying `p`, or |xs| when there is none. */
  function First<T>(xs: seq<T>, p: T -> bool): (i: nat)
    ensures i <= |xs|
    ensures forall j :: 0 <= j < i ==> !p(xs[j])
    ensures i < |xs| ==> p(xs[i])
  {
    if xs == [] || p(xs[0]) then 0 else 1 + First(xs[1..], p)
  }

  // ----- what the loops compute -----

  function PendingContainer(pod: Pod): Option<string> {
    if pod.phase != "Pending" then None
    else
      var c := First(pod.conditions, IsScheduledCondition);
      if c < |pod.conditions| && RefusesScheduling(pod.conditions[c]) then Some("")
      else
        var i := First(pod.initContainers, MissesConfig);
        if i < |pod.initContainers| then Some(pod.initContainers[i].name)
        else
          var j := First(pod.containers, MissesConfig);
          if j < |pod.containers| then Some(pod.containers[j].name) else None
  }

  function Classification(pod: Pod): Option<Finding> {
    var a := First(pod.containers, KilledByOom);
    if a < |pod.containers| then Some(Finding(OOMKilled, pod.containers[a].name))
    else
      var b := First(pod.initContainers, KilledByOom);
      if b < |pod.initContainers| then Some(Finding(OOMKilled, pod.initContainers[b].name))
      else
        var c := First(pod.initContainers, InitContainerFailure);
        if c < |pod.initContainers| then Some(Finding(InitContainerError, pod.initContainers[c].name))
        else
          var d := First(pod.containers, FailsWhileWaiting);
          if d < |pod.containers| then
            Some(Finding(WaitingFailure(pod.containers[d]).value, pod.containers[d].name))
          else
            var p := PendingContainer(pod);
            if p.Some? then Some(Finding(PendingScheduling, p.value)) else None
  }

  // ----- the loops themselves -----

  method ClassifyPendingScheduling(pod: Pod) returns (name: string, ok: bool)
    ensures ok == PendingContainer(pod).Some?
    ensures name == if ok then PendingContainer(pod).value else ""
    ensures forall container :: ok && name == container <==> IsPending(pod, container)
  {
    forall container ensures PendingContainer(pod) == Some(container) <==> IsPending(pod, container) {
      PendingExactly(pod, container);
    }
    if pod.phase != "Pending" {
      return "", false;
    }
    var scheduled: Option<Condition> := None;
    for i := 0 to |pod.conditions|
      invariant scheduled.None?
      invariant forall j :: 0 <= j < i ==> !IsScheduledCondition(pod.conditions[j])
    {
      if pod.conditions[i].kind == "PodScheduled" {
        scheduled := Some(pod.conditions[i]);
        break;
      }
    }
    if scheduled.Some? && scheduled.value.status == "False" {
      match scheduled.value.reason {
        case "FailedScheduling" => return "", true;
        case "Unschedulable" => return "", true;
        case _ =>
      }
    }
    for i := 0 to |pod.initContainers|
      invariant forall j :: 0 <= j < i ==> !MissesConfig(pod.initContainers[j])
    {
      if MissesConfig(pod.initContainers[i]) {
        return pod.initContainers[i].name, true;
      }
    }
    for i := 0 to |pod.containers|
      invariant forall j :: 0 <= j < i ==> !MissesConfig(pod.containers[j])
    {
      if MissesConfig(pod.containers[i]) {
        return pod.containers[i].name, true;
      }
    }
    return "", false;
  }

  /** Returns the primary failure; a nil pod is not actionable. */
  method Classify(pod: Option<Pod>) returns (finding: Option<Finding>)
    ensures finding == if pod.None? then None else Classification(pod.value)
    ensures pod.Some? ==> forall f :: finding == Some(f) <==> IsPrimary(pod.value, f)
  {
    if pod.Some? {
      forall f ensures Classification(pod.value) == Some(f) <==> IsPrimary(pod.value, f) {
        ClassifiedExactly(pod.value, f);
      }
    }
    if pod.None? {
      return None;
    }
    var containers, inits := pod.value.containers, pod.value.initContainers;
    for i := 0 to |containers|
      invariant forall j :: 0 <= j < i ==> !KilledByOom(containers[j])
    {
      if KilledByOom(containers[i]) {
        return Some(Finding(OOMKilled, containers[i].name));
      }
    }
    for i := 0 to |inits|
      invariant forall j :: 0 <= j < i ==> !KilledByOom(inits[j])
    {
      if KilledByOom(inits[i]) {
        return Some(Finding(OOMKilled, inits[i].name));
      }
    }
    for i := 0 to |inits|
      invariant forall j :: 0 <= j < i ==> !InitContainerFailure(inits[j])
    {
      if InitContainerFailure(inits[i]) {
        return Some(Finding(InitContainerError, inits[i].name));
      }
    }
    for i := 0 to |containers|
      invariant forall j :: 0 <= j < i ==> !FailsWhileWaiting(containers[j])
    {
      var failure := WaitingFailure(containers[i]);
      if failure.Some? {
        return Some(Finding(failure.value, containers[i].name));
      }
    }
    var name, ok := ClassifyPendingScheduling(pod.value);
    if ok {
      return Some(Finding(PendingScheduling, name));
    }
    return None;
  }

  // ----- the declarative choice -----

  /** A place in a pod where a failure can be recognised. */
  datatype Site = Site(tier: nat, position: nat)
  {
    predicate Before(other: Site) {
      tier < other.tier || (tier == other.tier && position < other.position)
    }
  }

  /**
    The failures a pod shows, each at its own site. Tiers 0 and 1 are out-of-memory kills,
    2 failed init containers, 3 containers waiting on a pull or a crash, 4 an unschedulable
    pod, 5 and 6 a missing container configuration while the pod is pending.
   */
  predicate Candidate(pod: Pod, site: Site) {
    var i := site.position;
    match site.tier
    case 0 => i < |pod.containers| && KilledByOom(pod.containers[i])
    case 1 => i < |pod.initContainers| && KilledByOom(pod.initContainers[i])
    case 2 => i < |pod.initContainers| && InitContainerFailure(pod.initContainers[i])
    case 3 => i < |pod.containers| && FailsWhileWaiting(pod.containers[i])
    case 4 =>
      && pod.phase == "Pending" && i < |pod.conditions|
      && IsScheduledCondition(pod.conditions[i]) && RefusesScheduling(pod.conditions[i])
      && forall j :: 0 <= j < i ==> !IsScheduledCondition(pod.conditions[j])
    case 5 => pod.phase == "Pending" && i < |pod.initContainers| && MissesConfig(pod.initContainers[i])
    case 6 => pod.phase == "Pending" && i < |pod.containers| && MissesConfig(pod.containers[i])
    case _ => false
  }

  function FindingAt(pod: Pod, site: Site): Finding
    requires Candidate(pod, site)
  {
    var i := site.position;
    match site.tier
    case 0 => Finding(OOMKilled, pod.containers[i].name)
    case 1 => Finding(OOMKilled, pod.initContainers[i].name)
    case 2 => Finding(InitContainerError, pod.initContainers[i].name)
    case 3 => Finding(WaitingFailure(pod.containers[i]).value, pod.containers[i].name)
    case 4 => Finding(PendingScheduling, "")
    case 5 => Finding(PendingScheduling, pod.initContainers[i].name)
    case _ => Finding(PendingScheduling, pod.containers[i].name)
  }

  ghost predicate Least(pod: Pod, site: Site) {
    && Candidate(pod, site)
    && forall other | Candidate(pod, other) :: site == other || site.Before(other)
  }

  /** Where `Classification` stops looking; None when it looks everywhere in vain. */
  function ChosenSite(pod: Pod): Option<Site> {
    var a := First(pod.containers, KilledByOom);
    var b := First(pod.initContainers, KilledByOom);
    var c := First(pod.initContainers, InitContainerFailure);
    var d := First(pod.containers, FailsWhileWaiting);
    var e := First(pod.conditions, IsScheduledCondition);
    var f := First(pod.initContainers, MissesConfig);
    var g := First(pod.containers, MissesConfig);
    if a < |pod.containers| then Some(Site(0, a))
    else if b < |pod.initContainers| then Some(Site(1, b))
    else if c < |pod.initContainers| then Some(Site(2, c))
    else if d < |pod.containers| then Some(Site(3, d))
    else if pod.phase != "Pending" then None
    else if e < |pod.conditions| && RefusesScheduling(pod.conditions[e]) then Some(Site(4, e))
    else if f < |pod.initContainers| then Some(Site(5, f))
    else if g < |pod.containers| then Some(Site(6, g))
    else None
  }

  lemma FirstPrecedes<T>(xs: seq<T>, p: T -> bool, i: nat)
    requires i < |xs| && p(xs[i])
    ensures First(xs, p) <= i
  {
  }

  /** Every candidate is at or after the chosen site. */
  lemma ChosenSitePrecedes(pod: Pod, other: Site)
    requires Candidate(pod, other)
    ensures var s := ChosenSite(pod); s.Some? && (s.value == other || s.value.Before(other))
  {
    var i := other.position;
    match other.tier {
      case 0 => FirstPrecedes(pod.containers, KilledByOom, i);
      case 1 => FirstPrecedes(pod.initContainers, KilledByOom, i);
      case 2 => FirstPrecedes(pod.initContainers, InitContainerFailure, i);
      case 3 => FirstPrecedes(pod.containers, FailsWhileWaiting, i);
      case 4 => FirstPrecedes(pod.conditions, IsScheduledCondition, i);
      case 5 => FirstPrecedes(pod.initContainers, MissesConfig, i);
      case _ => FirstPrecedes(pod.containers, MissesConfig, i);
    }
  }

  /** The classifier reports exactly the least candidate, and nothing when there is none. */
  lemma ClassificationIsLeastCandidate(pod: Pod)
    ensures Classification(pod).None? <==> forall site :: !Candidate(pod, site)
    ensures Classification(pod).Some? ==>
              exists site :: Least(pod, site) && Classification(pod).value == FindingAt(pod, site)
  {
    forall other | Candidate(pod, other)
      ensures var s := ChosenSite(pod); s.Some? && (s.value == other || s.value.Before(other))
    {
      ChosenSitePrecedes(pod, other);
    }
    if ChosenSite(pod).Some? {
      assert Least(pod, ChosenSite(pod).value);
    }
  }

  // ----- exactly when each failure type is reported, on the fields of a pod -----

  predicate LastDiedOf(cs: ContainerStatus, reason: string) {
    cs.lastTerminated.Some? && cs.lastTerminated.value.reason == reason
  }

  predicate WaitsWith(cs: ContainerStatus, reasons: set<string>) {
    cs.waiting.Some? && cs.waiting.value.reason in reasons
  }

  ghost predicate SaysError(reason: string) {
    exists before, after :: reason == before + "Error" + after
  }

  ghost predicate InitBroke(ics: ContainerStatus) {
    || (ics.terminated.Some? && ics.terminated.value.exitCode != 0)
    || (ics.waiting.Some? && SaysError(ics.waiting.value.reason))
    || WaitsWith(ics, {"CreateContainerConfigError", "ErrImagePull", "ImagePullBackOff", "InvalidImageName",
                       "CrashLoopBackOff"})
  }

  predicate PullsOrCrashes(cs: ContainerStatus) {
    WaitsWith(cs, {"ImagePullBackOff", "ErrImagePull", "CrashLoopBackOff"})
  }

  /** Container `i`, the first whose last run was killed for memory, app containers before init containers. */
  ghost predicate FirstOom(pod: Pod, i: nat) {
    var all := pod.containers + pod.initContainers;
    i < |all| && LastDiedOf(all[i], "OOMKilled") && forall j :: 0 <= j < i ==> !LastDiedOf(all[j], "OOMKilled")
  }

  /** The first init container that broke. */
  ghost predicate FirstInitError(pod: Pod, i: nat) {
    var inits := pod.initContainers;
    i < |inits| && InitBroke(inits[i]) && forall j :: 0 <= j < i ==> !InitBroke(inits[j])
  }

  /** The first app container that waits with one of the three reasons. */
  ghost predicate FirstWaiting(pod: Pod, i: nat) {
    var cs := pod.containers;
    i < |cs| && PullsOrCrashes(cs[i]) && forall j :: 0 <= j < i ==> !PullsOrCrashes(cs[j])
  }

  /** The first of all scheduling conditions says that no node takes the pod. */
  ghost predicate Unschedulable(pod: Pod) {
    exists i | 0 <= i < |pod.conditions| ::
      && pod.conditions[i].kind == "PodScheduled" && pod.conditions[i].status == "False"
      && pod.conditions[i].reason in {"FailedScheduling", "Unschedulable"}
      && forall j :: 0 <= j < i ==> pod.conditions[j].kind != "PodScheduled"
  }

  /** Container `i`, the first that lacks its configuration, init containers before app containers. */
  ghost predicate FirstUnconfigured(pod: Pod, i: nat) {
    var all, lacks := pod.initContainers + pod.containers, {"CreateContainerConfigError"};
    i < |all| && WaitsWith(all[i], lacks) && forall j :: 0 <= j < i ==> !WaitsWith(all[j], lacks)
  }

  /** A pod still to be placed or configured, and the container that is to blame, if any. */
  ghost predicate IsPending(pod: Pod, container: string) {
    && pod.phase == "Pending"
    && if Unschedulable(pod) then container == ""
       else exists i: nat :: FirstUnconfigured(pod, i) && container == (pod.initContainers + pod.containers)[i].name
  }

  ghost predicate ShowsOom(pod: Pod) {
    exists i: nat :: FirstOom(pod, i)
  }

  ghost predicate ShowsInitError(pod: Pod) {
    exists i: nat :: FirstInitError(pod, i)
  }

  ghost predicate ShowsWaiting(pod: Pod) {
    exists i: nat :: FirstWaiting(pod, i)
  }

  /** What the operator is to report of a pod, failure type by failure type. */
  ghost predicate IsPrimary(pod: Pod, f: Finding) {
    match f.failure
    case OOMKilled => exists i: nat :: FirstOom(pod, i) && f.container == (pod.containers + pod.initContainers)[i].name
    case InitContainerError =>
      !ShowsOom(pod) && exists i: nat :: FirstInitError(pod, i) && f.container == pod.initContainers[i].name
    case CrashLoopBackOff =>
      && !ShowsOom(pod) && !ShowsInitError(pod)
      && exists i: nat :: FirstWaiting(pod, i) && f.container == pod.containers[i].name
                     && pod.containers[i].waiting.value.reason == "CrashLoopBackOff"
    case ImagePullBackOff =>
      && !ShowsOom(pod) && !ShowsInitError(pod)
      && exists i: nat :: FirstWaiting(pod, i) && f.container == pod.containers[i].name
                     && pod.containers[i].waiting.value.reason in {"ImagePullBackOff", "ErrImagePull"}
    case PendingScheduling =>
      !ShowsOom(pod) && !ShowsInitError(pod) && !ShowsWaiting(pod) && IsPending(pod, f.container)
  }

  lemma ErrorOccurs(reason: string)
    ensures Contains(reason, "Error") <==> SaysError(reason)
  {
    if SaysError(reason) {
      var before, after :| reason == before + "Error" + after;
      assert OccursAt(reason, "Error", |before|);
    }
    if Contains(reason, "Error") {
      var i :| 0 <= i <= |reason| && OccursAt(reason, "Error", i);
      assert reason == reason[..i] + "Error" + reason[i + 5..];
    }
  }

  lemma TestsReadFields(cs: ContainerStatus)
    ensures KilledByOom(cs) <==> LastDiedOf(cs, "OOMKilled")
    ensures InitContainerFailure(cs) <==> InitBroke(cs)
    ensures FailsWhileWaiting(cs) <==> PullsOrCrashes(cs)
    ensures MissesConfig(cs) <==> WaitsWith(cs, {"CreateContainerConfigError"})
  {
    if cs.waiting.Some? {
      ErrorOccurs(cs.waiting.value.reason);
    }
  }

  lemma OomTiers(pod: Pod)
    ensures var n, a, b := |pod.containers|, First(pod.containers, KilledByOom), First(pod.initContainers, KilledByOom);
            if a < n then FirstOom(pod, a)
            else if b < |pod.initContainers| then FirstOom(pod, n + b)
            else !ShowsOom(pod)
  {
    var n, all := |pod.containers|, pod.containers + pod.initContainers;
    forall i | 0 <= i < n ensures all[i] == pod.containers[i] {}
    forall i | 0 <= i < |pod.initContainers| ensures all[n + i] == pod.initContainers[i] {}
  }

  lemma InitErrorTier(pod: Pod)
    ensures var c := First(pod.initContainers, InitContainerFailure);
            if c < |pod.initContainers| then FirstInitError(pod, c) else !ShowsInitError(pod)
  {
    forall i | 0 <= i < |pod.initContainers|
      ensures InitContainerFailure(pod.initContainers[i]) <==> InitBroke(pod.initContainers[i])
    {
      TestsReadFields(pod.initContainers[i]);
    }
  }

  lemma WaitingTier(pod: Pod)
    ensures var d := First(pod.containers, FailsWhileWaiting);
            if d < |pod.containers| then FirstWaiting(pod, d) else !ShowsWaiting(pod)
  {
    forall i | 0 <= i < |pod.containers|
      ensures FailsWhileWaiting(pod.containers[i]) <==> PullsOrCrashes(pod.containers[i])
    {
      TestsReadFields(pod.containers[i]);
    }
  }

  lemma SchedulingTier(pod: Pod)
    ensures var e := First(pod.conditions, IsScheduledCondition);
            e < |pod.conditions| && RefusesScheduling(pod.conditions[e]) <==> Unschedulable(pod)
  {
    var e := First(pod.conditions, IsScheduledCondition);
    if Unschedulable(pod) {
      var i :| 0 <= i < |pod.conditions|
        && pod.conditions[i].kind == "PodScheduled" && pod.conditions[i].status == "False"
        && pod.conditions[i].reason in {"FailedScheduling", "Unschedulable"}
        && forall j :: 0 <= j < i ==> pod.conditions[j].kind != "PodScheduled";
      assert e == i;
    }
  }

  lemma ConfigTiers(pod: Pod)
    ensures var n, f := |pod.initContainers|, First(pod.initContainers, MissesConfig);
            var g := First(pod.containers, MissesConfig);
            if f < n then FirstUnconfigured(pod, f)
            else if g < |pod.containers| then FirstUnconfigured(pod, n + g)
            else forall i: nat :: !FirstUnconfigured(pod, i)
  {
    var n, all := |pod.initContainers|, pod.initContainers + pod.containers;
    forall i | 0 <= i < n ensures all[i] == pod.initContainers[i] {}
    forall i | 0 <= i < |pod.containers| ensures all[n + i] == pod.containers[i] {}
  }

  /** The helper names a container exactly when that one keeps the pod pending. */
  lemma PendingExactly(pod: Pod, container: string)
    ensures PendingContainer(pod) == Some(container) <==> IsPending(pod, container)
  {
    SchedulingTier(pod);
    ConfigTiers(pod);
  }

  lemma OomExactly(pod: Pod, f: Finding)
    requires f.failure == OOMKilled
    ensures Classification(pod) == Some(f) <==> IsPrimary(pod, f)
  {
    OomTiers(pod);
  }

  lemma InitErrorExactly(pod: Pod, f: Finding)
    requires f.failure == InitContainerError
    ensures Classification(pod) == Some(f) <==> IsPrimary(pod, f)
  {
    OomTiers(pod);
    InitErrorTier(pod);
  }

  lemma WaitingExactly(pod: Pod, f: Finding)
    requires f.failure == CrashLoopBackOff || f.failure == ImagePullBackOff
    ensures Classification(pod) == Some(f) <==> IsPrimary(pod, f)
  {
    OomTiers(pod);
    InitErrorTier(pod);
    WaitingTier(pod);
  }

  lemma PendingTierExactly(pod: Pod, f: Finding)
    requires f.failure == PendingScheduling
    ensures Classification(pod) == Some(f) <==> IsPrimary(pod, f)
  {
    OomTiers(pod);
    InitErrorTier(pod);
    WaitingTier(pod);
    PendingExactly(pod, f.container);
  }

  /** The classifier reports a finding exactly when that is the primary failure of the pod. */
  lemma ClassifiedExactly(pod: Pod, f: Finding)
    ensures Classification(pod) == Some(f) <==> IsPrimary(pod, f)
  {
    match f.failure {
      case OOMKilled => OomExactly(pod, f);
      case InitContainerError => InitErrorExactly(pod, f);
      case PendingScheduling => PendingTierExactly(pod, f);
      case _ => WaitingExactly(pod, f);
    }
  }

  /** A missing configuration of an init container is already an init failure. */
  lemma MissingConfigIsInitFailure(ics: ContainerStatus)
    requires MissesConfig(ics)
    ensures InitContainerFailure(ics)
  {
  }

  /** A pending-scheduling finding names no container or an app container, never an init site. */
  lemma PendingNeverFromInitContainer(pod: Pod, site: Site)
    requires Least(pod, site) && FindingAt(pod, site).failure == PendingScheduling
    ensures site.tier == 4 || site.tier == 6
    ensures site.tier == 4 ==> FindingAt(pod, site).container == ""
  {
    if site.tier == 5 {
      MissingConfigIsInitFailure(pod.initContainers[site.position]);
      var earlier := Site(2, site.position);
      assert Candidate(pod, earlier) && earlier.Before(site);
    }
  }

  /** On its own, the pending-scheduling helper does name an init container. */
  lemma PendingHelperAloneNamesInitContainer()
    ensures exists pod ::
              && PendingContainer(pod) == Some("setup")
              && pod.containers == [] && |pod.initContainers| == 1
              && pod.initContainers[0].name == "setup"
              && Classification(pod) == Some(Finding(InitContainerError, "setup"))
  {
    var ics := ContainerStatus("setup", 0, Some(Waiting("CreateContainerConfigError", "")), None, None);
    MissingConfigIsInitFailure(ics);
    var pod := Pod("ns", "web", "Pending", [], [], [ics], [], []);
    assert First(pod.initContainers, MissesConfig) == 0;
    assert !KilledByOom(pod.initContainers[0]);
    assert First(pod.initContainers, KilledByOom) == 1;
    assert PendingContainer(pod) == Some("setup");
  }

  // ----- names of diagnosis objects -----

  /** The text that is hashed into an object name, detect.go line 149. */
  function NameInput(namespace: string, podName: string, failure: string): string {
    namespace + "/" + podName + "/" + failure
  }

  /** `hash` stands for the first eight hexadecimal digits of SHA-256. */
  function DiagnosisName(hash: string -> string, namespace: string, podName: string, failure: string): string {
    "diag-" + hash(NameInput(namespace, podName, failure))
  }

  datatype NameParts = NameParts(namespace: string, podName: string, failure: string)

  /** Splits a hashed text at its first and at its last slash. */
  function SplitName(s: string): Option<NameParts> {
    var i, j := IndexOf(s, '/'), LastIndexOf(s, '/');
    if i < j < |s| then Some(NameParts(s[..i], s[i + 1..j], s[j + 1..])) else None
  }

  lemma SplitOfSlashFree(namespace: string, podName: string, failure: string)
    requires '/' !in namespace && '/' !in failure
    ensures SplitName(NameInput(namespace, podName, failure)) == Some(NameParts(namespace, podName, failure))
  {
    var s := NameInput(namespace, podName, failure);
    var k := |namespace| + 1 + |podName|;
    assert s == namespace + ['/'] + (podName + "/" + failure);
    SplitFirst(s, namespace, '/', podName + "/" + failure);
    assert s[k] == '/' && s[k + 1..] == failure;
    LastIndexIsUnique(s, '/', k);
    assert s[|namespace| + 1..k] == podName;
  }

  /** The last part of a split text contains no slash, and neither does the first. */
  lemma SplitPartsAreSlashFree(s: string)
    requires SplitName(s).Some?
    ensures '/' !in SplitName(s).value.namespace && '/' !in SplitName(s).value.failure
  {
  }

  /** The split recovers the three parts exactly when the outer two contain no slash. */
  lemma NameInputRoundTrip(namespace: string, podName: string, failure: string)
    ensures SplitName(NameInput(namespace, podName, failure)) == Some(NameParts(namespace, podName, failure))
       <==> '/' !in namespace && '/' !in failure
  {
    if '/' !in namespace && '/' !in failure {
      SplitOfSlashFree(namespace, podName, failure);
    } else if SplitName(NameInput(namespace, podName, failure)).Some? {
      SplitPartsAreSlashFree(NameInput(namespace, podName, failure));
    }
  }

  /** Hence two hashed texts agree only when all three parts do. */
  lemma NameInputIsInjective(a: NameParts, b: NameParts)
    requires NameInput(a.namespace, a.podName, a.failure) == NameInput(b.namespace, b.podName, b.failure)
    requires '/' !in a.namespace && '/' !in a.failure && '/' !in b.namespace && '/' !in b.failure
    ensures a == b
  {
    NameInputRoundTrip(a.namespace, a.podName, a.failure);
    NameInputRoundTrip(b.namespace, b.podName, b.failure);
  }

  /** Without the restriction two different triples can share one hashed text. */
  lemma NameInputNeedsSlashFreeParts()
    ensures NameInput("a/b", "c", "f") == NameInput("a", "b/c", "f")
    ensures NameInput("a", "b", "c/f") == NameInput("a", "b/c", "f")
  {
    assert NameInput("a/b", "c", "f") == "a/b/c/f";
  }

  /** The types go by the names that Kubernetes gives such failures, or by the operator's own. */
  lemma FailureTexts()
    ensures CrashLoopBackOff.Text() == "CrashLoopBackOff" && OOMKilled.Text() == "OOMKilled"
    ensures ImagePullBackOff.Text() == "ImagePullBackOff"
    ensures InitContainerError.Text() == "InitContainerError" && PendingScheduling.Text() == "PendingScheduling"
  {
  }

  lemma FailureTextHasNoSlash(failure: FailureType)
    ensures '/' !in failure.Text()
  {
  }

  lemma FailureTextIsInjective(a: FailureType, b: FailureType)
    requires a.Text() == b.Text()
    ensures a == b
  {
  }
}

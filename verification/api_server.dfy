/**
  The API server as the reconciler sees it: diagnosis objects under optimistic locking, with the
  status subresource enabled (`config/crd/clusterdiagnoses.yaml`, lines 20-21), and the four
  mutations the reconciler sends (`internal/controller/pod_controller.go`).
 */
module ApiServer {
  import opened Wrappers
  import opened Resources

  /** Nanoseconds on one monotone clock. */
  type Time = int

  const SECOND: int := 1_000_000_000

  const STAMP_KEY := "health.k8sai.io/last-llm-call"

  datatype Key = Key(namespace: string, name: string)

  datatype TargetRef = TargetRef(kind: string, namespace: string, name: string)

  datatype Spec = Spec(target: TargetRef, failure: string)

  /** An annotation that is an RFC 3339 text of a whole second (section 5.6), or any other text. */
  datatype Annotation = Instant(seconds: int) | Other(text: string)

  datatype Status = Status(
    phase: string,
    rootCause: string,
    severity: string,
    recommendedFix: string,
    model: string,
    lastUpdated: Option<int>,  // whole seconds, as the server stores them
    message: string,
    observedFingerprint: string,
    resourceUsage: Option<ResourceUsage>,
    remediations: seq<string>
  )

  const NEW_STATUS := Status("", "", "", "", "", None, "", "", None, [])

  datatype ClusterDiagnosis = ClusterDiagnosis(
    rev: nat,
    spec: Spec,
    annotations: map<string, Annotation>,
    status: Status
  )

  // ----- the mutations -----

  /** The part of a status that one successful model call determines. */
  datatype Bundle = Bundle(
    rootCause: string,
    severity: string,
    recommendedFix: string,
    model: string,
    lastUpdated: Option<int>,
    fingerprint: string,
    resourceUsage: Option<ResourceUsage>,
    remediations: seq<string>
  )

  function BundleOf(st: Status): Bundle {
    Bundle(st.rootCause, st.severity, st.recommendedFix, st.model, st.lastUpdated,
           st.observedFingerprint, st.resourceUsage, st.remediations)
  }

  datatype Op =
    | MarkAnalyzing
    | Publish(bundle: Bundle)
    | MarkError(message: string)
    | Stamp(at: Time)

  /** The closure passed to a retry loop, applied to a local copy of the object. */
  function Mutate(op: Op, cur: ClusterDiagnosis): ClusterDiagnosis {
    match op
    case MarkAnalyzing =>
      cur.(status := cur.status.(phase := "Analyzing", message := ""))
    case Publish(b) =>
      cur.(status := cur.status.(
        phase := "Ready",
        rootCause := b.rootCause,
        severity := b.severity,
        recommendedFix := b.recommendedFix,
        model := b.model,
        lastUpdated := b.lastUpdated,
        observedFingerprint := b.fingerprint,
        message := "",
        resourceUsage := b.resourceUsage,
        remediations := b.remediations))
    case MarkError(m) =>
      cur.(status := cur.status.(phase := "Error", message := m))
    case Stamp(at) =>
      cur.(annotations := cur.annotations[STAMP_KEY := Instant(at / SECOND)])
  }

  /** The status shows that bundle, field by field. */
  predicate Carries(st: Status, b: Bundle) {
    && st.rootCause == b.rootCause && st.severity == b.severity
    && st.recommendedFix == b.recommendedFix && st.model == b.model
    && st.lastUpdated == b.lastUpdated && st.observedFingerprint == b.fingerprint
    && st.resourceUsage == b.resourceUsage && st.remediations == b.remediations
  }

  /** What a reader finds after a mutation was carried out on an object, field by field but for the revision. */
  predicate CarriedOut(op: Op, before: ClusterDiagnosis, after: ClusterDiagnosis) {
    var stamp := "health.k8sai.io/last-llm-call";
    && after.spec == before.spec
    && (!op.Stamp? ==> after.annotations == before.annotations)
    && match op
       case MarkAnalyzing =>
         && after.status.phase == "Analyzing" && after.status.message == ""
         && Carries(after.status, BundleOf(before.status))
       case Publish(b) => after.status.phase == "Ready" && after.status.message == "" && Carries(after.status, b)
       case MarkError(m) =>
         && after.status.phase == "Error" && after.status.message == m
         && Carries(after.status, BundleOf(before.status))
       case Stamp(at) =>
         && after.status == before.status && after.annotations - {stamp} == before.annotations - {stamp}
         && stamp in after.annotations && after.annotations[stamp] == Instant(at / 1_000_000_000)
  }

  /** That is exactly what the closure makes of the object. */
  lemma MutateIsCarriedOut(op: Op, before: ClusterDiagnosis, after: ClusterDiagnosis)
    ensures CarriedOut(op, before, after) <==> after == Mutate(op, before).(rev := after.rev)
  {
    if op.Stamp? && CarriedOut(op, before, after) {
      var notes := Mutate(op, before).annotations;
      forall k ensures k in after.annotations <==> k in notes {
        assert k != STAMP_KEY ==> (k in after.annotations <==> k in after.annotations - {STAMP_KEY});
      }
      forall k | k in notes ensures after.annotations[k] == notes[k] {
        assert k != STAMP_KEY ==> k in after.annotations - {STAMP_KEY};
      }
      assert after.annotations == notes;
    }
  }

  // ----- requests -----

  datatype Request =
    | CreateRequest(key: Key, spec: Spec)
    | UpdateRequest(key: Key, op: Op, base: ClusterDiagnosis)  // the object read, and the mutation made to it

  /** A request that timed out for its sender and may still be carried out. */
  datatype InFlight = InFlight(request: Request, call: nat)

  datatype Version = Version(key: Key, cd: ClusterDiagnosis)

  /** A write that the server carried out. */
  datatype Commit =
    | Created(key: Key, cd: ClusterDiagnosis)
    | Updated(key: Key, op: Op, before: ClusterDiagnosis, after: ClusterDiagnosis)

  datatype Server = Server(
    rev: nat,                  // stamps every write
    live: map<Key, ClusterDiagnosis>,
    versions: set<Version>,    // everything ever stored: what a cache may return
    pending: multiset<InFlight>,
    commits: set<Commit>
  )

  const NEW_SERVER := Server(0, map[], {}, multiset{}, {})

  /** Optimistic locking: a name must be free to be created, a revision current to be replaced. */
  predicate Admissible(sv: Server, r: Request) {
    match r
    case CreateRequest(key, _) => key !in sv.live
    case UpdateRequest(key, _, base) => key in sv.live && sv.live[key].rev == base.rev
  }

  /** A status write takes only the status of the sent object, any other write all but the status. */
  function Merge(op: Op, live: ClusterDiagnosis, sent: ClusterDiagnosis, rev: nat): ClusterDiagnosis {
    if op.Stamp? then ClusterDiagnosis(rev, sent.spec, sent.annotations, live.status)
    else ClusterDiagnosis(rev, live.spec, live.annotations, sent.status)
  }

  function Stored(sv: Server, r: Request): ClusterDiagnosis
    requires Admissible(sv, r)
  {
    match r
    case CreateRequest(_, spec) => ClusterDiagnosis(sv.rev + 1, spec, map[], NEW_STATUS)
    case UpdateRequest(key, op, base) => Merge(op, sv.live[key], Mutate(op, base), sv.rev + 1)
  }

  function CommitOf(sv: Server, r: Request): Commit
    requires Admissible(sv, r)
  {
    match r
    case CreateRequest(key, _) => Created(key, Stored(sv, r))
    case UpdateRequest(key, op, _) => Updated(key, op, sv.live[key], Stored(sv, r))
  }

  function Perform(sv: Server, r: Request): Server
    requires Admissible(sv, r)
  {
    sv.(rev := sv.rev + 1,
        live := sv.live[r.key := Stored(sv, r)],
        versions := sv.versions + {Version(r.key, Stored(sv, r))},
        commits := sv.commits + {CommitOf(sv, r)})
  }

  function Delete(sv: Server, key: Key): Server {
    sv.(rev := sv.rev + 1, live := sv.live - {key})
  }

  /** Someone else, a user or another tool, sets an annotation. */
  function Annotate(sv: Server, key: Key, name: string, note: Annotation): Server
    requires key in sv.live
  {
    var cd := sv.live[key].(rev := sv.rev + 1, annotations := sv.live[key].annotations[name := note]);
    sv.(rev := sv.rev + 1, live := sv.live[key := cd], versions := sv.versions + {Version(key, cd)})
  }

  function Land(sv: Server, f: InFlight): Server
    requires Admissible(sv, f.request)
  {
    Perform(sv, f.request).(pending := sv.pending - multiset{f})
  }

  function Defer(sv: Server, f: InFlight): Server {
    sv.(pending := sv.pending + multiset{f})
  }

  // ----- what a caller is told, and what happened -----

  datatype Fate = Lost | Applied | Late

  datatype Reply =
    | Accepted
    | Refused               // conflict, not found, or already exists
    | TimedOut(fate: Fate)  // a timeout leaves the fate open
    | Broken(fate: Fate)    // so does any other error

  predicate ReplyFits(sv: Server, r: Request, reply: Reply) {
    match reply
    case Accepted => Admissible(sv, r)
    case Refused => !Admissible(sv, r)
    case TimedOut(fate) => fate.Applied? ==> Admissible(sv, r)
    case Broken(fate) => fate.Applied? ==> Admissible(sv, r)
  }

  function AfterFate(sv: Server, f: InFlight, fate: Fate): Server
    requires fate.Applied? ==> Admissible(sv, f.request)
  {
    match fate
    case Lost => sv
    case Applied => Perform(sv, f.request)
    case Late => Defer(sv, f)
  }

  function AfterReply(sv: Server, f: InFlight, reply: Reply): Server
    requires ReplyFits(sv, f.request, reply)
  {
    match reply
    case Accepted => Perform(sv, f.request)
    case Refused => sv
    case TimedOut(fate) => AfterFate(sv, f, fate)
    case Broken(fate) => AfterFate(sv, f, fate)
  }

  // ----- what every operation of the server keeps -----

  /** The object a request was computed from is one the server stored. */
  predicate Grounded(sv: Server, r: Request) {
    r.UpdateRequest? ==> Version(r.key, r.base) in sv.versions
  }

  /** Revisions grow and identify what was stored under them. */
  ghost predicate Consistent(sv: Server) {
    && (forall key | key in sv.live :: Version(key, sv.live[key]) in sv.versions)
    && (forall v | v in sv.versions :: v.cd.rev <= sv.rev)
    && (forall v, w | v in sv.versions && w in sv.versions && v.cd.rev == w.cd.rev :: v == w)
    && (forall f | f in sv.pending :: Grounded(sv, f.request))
  }

  lemma PerformKeepsConsistent(sv: Server, r: Request)
    requires Consistent(sv) && Admissible(sv, r)
    ensures Consistent(Perform(sv, r))
  {
  }

  lemma LandKeepsConsistent(sv: Server, f: InFlight)
    requires Consistent(sv) && Admissible(sv, f.request)
    ensures Consistent(Land(sv, f))
  {
    PerformKeepsConsistent(sv, f.request);
  }

  lemma AnnotateKeepsConsistent(sv: Server, key: Key, name: string, note: Annotation)
    requires Consistent(sv) && key in sv.live
    ensures Consistent(Annotate(sv, key, name, note))
  {
  }

  lemma AfterReplyKeepsConsistent(sv: Server, f: InFlight, reply: Reply)
    requires Consistent(sv) && Grounded(sv, f.request) && ReplyFits(sv, f.request, reply)
    ensures Consistent(AfterReply(sv, f, reply))
  {
    if Admissible(sv, f.request) {
      PerformKeepsConsistent(sv, f.request);
    }
  }

  /** A write is carried out only on the very object it was computed from. */
  lemma AdmissibleMeansUnchanged(sv: Server, r: Request)
    requires Consistent(sv) && Grounded(sv, r) && r.UpdateRequest? && Admissible(sv, r)
    ensures sv.live[r.key] == r.base
  {
  }

  /**
    So what is stored is the mutation of the then-current object, under a new revision, even
    though it was computed from an earlier read and only one subresource was taken from it.
   */
  lemma StoredIsMutationOfCurrent(sv: Server, r: Request)
    requires Consistent(sv) && Grounded(sv, r) && r.UpdateRequest? && Admissible(sv, r)
    ensures Stored(sv, r) == Mutate(r.op, sv.live[r.key]).(rev := sv.rev + 1)
    ensures CarriedOut(r.op, sv.live[r.key], Stored(sv, r))
  {
    AdmissibleMeansUnchanged(sv, r);
    MutateIsCarriedOut(r.op, sv.live[r.key], Stored(sv, r));
  }

  // ----- writes that can no longer land -----

  /** An update is dead once the object it was computed from has been replaced or deleted. */
  predicate Dead(sv: Server, r: Request) {
    && r.UpdateRequest?
    && r.base.rev <= sv.rev
    && (r.key in sv.live ==> r.base.rev < sv.live[r.key].rev)
  }

  lemma DeadIsNotAdmissible(sv: Server, r: Request)
    requires Dead(sv, r)
    ensures !Admissible(sv, r)
  {
  }

  /** Any write to a key kills every update of that key that was computed before. */
  lemma PerformKills(sv: Server, r: Request, other: Request)
    requires Consistent(sv) && Admissible(sv, r)
    requires other.UpdateRequest? && other.key == r.key && Grounded(sv, other)
    ensures Dead(Perform(sv, r), other)
  {
  }

  /** Death is final: no write brings a dead update back, not even re-creating its object. */
  lemma DeadStaysDead(sv: Server, r: Request, other: Request)
    requires Dead(sv, other) && Admissible(sv, r)
    ensures Dead(Perform(sv, r), other)
  {
  }

  lemma AnnotateKeepsDead(sv: Server, key: Key, name: string, note: Annotation, other: Request)
    requires Dead(sv, other) && key in sv.live
    ensures Dead(Annotate(sv, key, name, note), other)
  {
  }
}

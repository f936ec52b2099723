/**
  The pod reconciler as a transition system: `internal/controller/pod_controller.go`, lines 48-229.

  Any number of workers each run one reconcile at a time against one API server. Every call to
  the server, to the model or to the clock is one step; between the steps of a worker the others
  move, time passes, objects are deleted and delayed writes land. A label carries the choices the
  environment makes, so a run is a sequence of labels.
 */
module Machine {
  import opened Wrappers
  import opened Detect
  import opened Fingerprints
  import opened Resources
  import opened DiagnosisJson
  import opened ApiServer

  const MIN_BETWEEN_LLM: int := 300 * SECOND
  const MAX_ATTEMPTS: nat := 8

  /** What a deployment fixes. */
  datatype Config = Config(
    workers: nat,
    apiReader: bool,                            // whether getDiagnosis bypasses the cache
    hash: string -> string,                     // behind object names
    legit: Diagnosis -> bool,                   // what the model provider may answer
    remedies: FailureType -> seq<string>
  )

  /** A failing pod as it was read, with its classification. */
  datatype Job = Job(pod: Pod, failure: FailureType, container: string)

  function KeyOf(cfg: Config, job: Job): Key {
    Key(job.pod.namespace, DiagnosisName(cfg.hash, job.pod.namespace, job.pod.name, job.failure.Text()))
  }

  function SpecOf(job: Job): Spec {
    Spec(TargetRef("Pod", job.pod.namespace, job.pod.name), job.failure.Text())
  }

  function FingerprintOf(job: Job): string {
    FingerprintText(job.pod, job.container)
  }

  /** What a publish writes: the answer to one model call about one job started at `since`. */
  function BundleFrom(cfg: Config, job: Job, since: Time, d: Diagnosis): Bundle {
    Bundle(d.rootCause, d.severity, d.recommendedFix, d.model, Some(since / SECOND), FingerprintOf(job),
           UsageOf(job.pod, job.container), cfg.remedies(job.failure))
  }

  /** A status shows the answer to a model call about that job, field by field. */
  ghost predicate Shows(cfg: Config, st: Status, job: Job, since: Time, d: Diagnosis) {
    && st.rootCause == d.rootCause && st.severity == d.severity
    && st.recommendedFix == d.recommendedFix && st.model == d.model
    && st.lastUpdated == Some(since / 1_000_000_000)
    && st.observedFingerprint == FingerprintText(job.pod, job.container)
    && IsUsageOf(job.pod, job.container, st.resourceUsage)
    && st.remediations == cfg.remedies(job.failure)
  }

  lemma CarriedShows(cfg: Config, st: Status, job: Job, since: Time, d: Diagnosis)
    ensures Carries(st, BundleFrom(cfg, job, since, d)) <==> Shows(cfg, st, job, since, d)
  {
    UsageReadsFirstNamed(job.pod, job.container, st.resourceUsage);
  }

  // ----- workers -----

  datatype Exit = Success | Requeue(after: int) | Failure(message: string)

  /** Where a worker stands, named after the call it makes next. */
  datatype Pc =
    | Idle
    | CacheRead                                        // line 77
    | Creating                                         // line 96
    | Recheck                                          // line 98
    | Reread                                           // line 106
    | Gate(seen: ClusterDiagnosis)                     // lines 113-124
    | Read(op: Op, attempt: nat)                       // lines 193, 213
    | Write(op: Op, attempt: nat, base: ClusterDiagnosis) // lines 197, 218
    | Gathering                                        // line 134
    | Asking                                           // line 139, before the call
    | Listening                                        // line 139, during the call
    | Stamping                                         // line 159

  datatype Worker = Worker(
    pc: Pc,
    job: Job,      // of the current or the last reconcile
    since: Time,   // line 126
    call: nat,     // number of the current or the last retry loop
    slept: nat,    // milliseconds of back-off in the current or the last reconcile
    exit: Exit     // of the last completed reconcile
  )

  const NO_POD := Pod("", "", "", [], [], [], [], [])
  const NEW_WORKER := Worker(Idle, Job(NO_POD, PendingScheduling, ""), 0, 0, 0, Success)

  /** A successful model call. */
  datatype Answered = Answered(job: Job, since: Time, diagnosis: Diagnosis)

  datatype Metrics = Metrics(
    marked: nat,        // MarkAnalyzing loops that returned nil
    ready: nat,         // diagnoses_total with phase ready
    errors: nat,        // diagnoses_total with phase error
    readyFailed: nat,   // Publish loops that returned an error
    died: nat,          // workers lost between marking and one of the three outcomes
    started: nat,       // Reconcile calls
    crashed: nat,       // Reconcile calls that never returned
    observedError: nat,
    observedSkipped: nat,
    observedSuccess: nat,
    cooldowns: nat      // exits at the cooldown gate
  )

  datatype State = State(
    now: Time,
    server: Server,
    workers: seq<Worker>,
    calls: nat,              // retry loops entered so far
    settled: set<nat>,       // retry loops that returned nil
    answers: set<Answered>,
    metrics: Metrics
  )

  function Init(cfg: Config, now: Time): State {
    State(now, NEW_SERVER, seq(cfg.workers, i => NEW_WORKER), 0, {}, {},
          Metrics(0, 0, 0, 0, 0, 0, 0, 0, 0, 0, 0))
  }

  // ----- the gates -----

  datatype Verdict = Current | CoolDown(after: int) | Proceed

  /** The diagnosis is ready, and for that container state. */
  predicate IsReadyFor(cd: ClusterDiagnosis, fingerprint: string) {
    cd.status.phase == "Ready" && cd.status.observedFingerprint == fingerprint
  }

  function GateVerdict(seen: ClusterDiagnosis, fingerprint: string, now: Time): Verdict {
    if seen.status.phase == "Ready" && seen.status.observedFingerprint == fingerprint then Current
    else if STAMP_KEY in seen.annotations && seen.annotations[STAMP_KEY].Instant? then
      var elapsed := now - seen.annotations[STAMP_KEY].seconds * SECOND;
      if elapsed < MIN_BETWEEN_LLM then CoolDown(MIN_BETWEEN_LLM - elapsed) else Proceed
    else Proceed
  }

  // ----- labels -----

  datatype PodReply = PodMissing | PodError(message: string) | PodFound(pod: Pod)

  datatype ReadReply = Absent | ReadError(message: string) | Found(cd: ClusterDiagnosis)

  datatype AskReply = Refusal(message: string) | Diagnosed(diagnosis: Diagnosis)

  datatype Label =
    | Tick(d: nat)
    | Remove(key: Key)
    | Annotating(key: Key, name: string, note: Annotation) // by someone else, any annotation but the stamp
    | Landing(f: InFlight)
    | Crash(w: nat, late: bool)               // `late`: the request on the wire is still carried out
    | PodGet(w: nat, pod: PodReply)
    | CacheGet(w: nat, read: ReadReply)
    | CreateCall(w: nat, reply: Reply)
    | FreshGet(w: nat, read: ReadReply)
    | CheckGate(w: nat)
    | UpdateCall(w: nat, reply: Reply)
    | GatherCall(w: nat, error: Option<string>)
    | Ask(w: nat)
    | Answer(w: nat, answer: AskReply)
    | ReadClock(w: nat)

  predicate IsWorkerLabel(l: Label) {
    !l.Tick? && !l.Remove? && !l.Annotating? && !l.Landing?
  }

  /** The worker that takes a step, if any. */
  function Mover(l: Label): Option<nat> {
    if IsWorkerLabel(l) then Some(l.w) else None
  }

  /** The request a worker is about to send. */
  function RequestOf(cfg: Config, x: Worker): Request
    requires x.pc.Creating? || x.pc.Write?
  {
    if x.pc.Creating? then CreateRequest(KeyOf(cfg, x.job), SpecOf(x.job))
    else UpdateRequest(KeyOf(cfg, x.job), x.pc.op, x.pc.base)
  }

  predicate ReadFits(cfg: Config, sv: Server, key: Key, uncached: bool, read: ReadReply) {
    match read
    case Absent => uncached ==> key !in sv.live
    case ReadError(_) => true
    case Found(cd) => if uncached then key in sv.live && sv.live[key] == cd else Version(key, cd) in sv.versions
  }

  predicate WorkerEnabled(cfg: Config, s: State, x: Worker, l: Label)
    requires IsWorkerLabel(l)
  {
    match l
    case Crash(_, late) => !x.pc.Idle? && (late ==> x.pc.Creating? || x.pc.Write?)
    case PodGet(_, _) => x.pc.Idle?
    case CacheGet(_, read) => x.pc.CacheRead? && ReadFits(cfg, s.server, KeyOf(cfg, x.job), false, read)
    case CreateCall(_, reply) => x.pc.Creating? && ReplyFits(s.server, RequestOf(cfg, x), reply)
    case FreshGet(_, read) =>
      && (x.pc.Recheck? || x.pc.Reread? || x.pc.Read?)
      && ReadFits(cfg, s.server, KeyOf(cfg, x.job), cfg.apiReader, read)
    case CheckGate(_) => x.pc.Gate?
    case UpdateCall(_, reply) => x.pc.Write? && ReplyFits(s.server, RequestOf(cfg, x), reply)
    case GatherCall(_, _) => x.pc.Gathering?
    case Ask(_) => x.pc.Asking?
    case Answer(_, answer) => x.pc.Listening? && (answer.Diagnosed? ==> cfg.legit(answer.diagnosis))
    case ReadClock(_) => x.pc.Stamping?
  }

  predicate Enabled(cfg: Config, s: State, l: Label) {
    match l
    case Tick(_) => true
    case Remove(key) => key in s.server.live
    case Annotating(key, name, _) => key in s.server.live && name != STAMP_KEY
    case Landing(f) => f in s.server.pending && Admissible(s.server, f.request)
    case _ => l.w < |s.workers| && WorkerEnabled(cfg, s, s.workers[l.w], l)
  }

  // ----- pieces of a step -----

  /** Worker `w` moves: the others stay where they are and recorded facts are never withdrawn. */
  ghost predicate Moves(s: State, t: State, w: nat)
    requires w < |s.workers|
  {
    && |t.workers| == |s.workers| && t.workers == s.workers[w := t.workers[w]]
    && t.now == s.now && s.answers <= t.answers && s.settled <= t.settled && s.calls <= t.calls
  }

  /** As above, without a word to the server or the model. */
  ghost predicate MovesLocally(s: State, t: State, w: nat)
    requires w < |s.workers|
  {
    Moves(s, t, w) && t.server == s.server && t.answers == s.answers
  }

  function Put(s: State, w: nat, x: Worker): (t: State)
    requires w < |s.workers|
    ensures MovesLocally(s, t, w)
  {
    s.(workers := s.workers[w := x])
  }

  function Goto(s: State, w: nat, pc: Pc): (t: State)
    requires w < |s.workers|
    ensures MovesLocally(s, t, w)
  {
    Put(s, w, s.workers[w].(pc := pc))
  }

  /** Which of the three observations a result is counted under, lines 52-59. */
  function Observe(m: Metrics, exit: Exit): Metrics {
    if exit.Failure? then m.(observedError := m.observedError + 1)
    else if exit.Requeue? && exit.after > 0 then m.(observedSkipped := m.observedSkipped + 1)
    else m.(observedSuccess := m.observedSuccess + 1)
  }

  /** The reconcile of `w` returns. */
  function Finish(s: State, w: nat, exit: Exit): (t: State)
    requires w < |s.workers|
    ensures MovesLocally(s, t, w)
  {
    Put(s, w, s.workers[w].(pc := Idle, exit := exit)).(metrics := Observe(s.metrics, exit))
  }

  function EnterLoop(s: State, w: nat, op: Op): (t: State)
    requires w < |s.workers|
    ensures MovesLocally(s, t, w)
  {
    Put(s, w, s.workers[w].(pc := Read(op, 0), call := s.calls)).(calls := s.calls + 1)
  }

  function CountReady(s: State): State {
    s.(metrics := s.metrics.(ready := s.metrics.ready + 1))
  }

  function CountError(s: State): State {
    s.(metrics := s.metrics.(errors := s.metrics.errors + 1))
  }

  /** What follows a retry loop that returned nil. */
  function LoopDone(s: State, w: nat, op: Op): (t: State)
    requires w < |s.workers|
    ensures MovesLocally(s, t, w)
  {
    var u := s.(settled := s.settled + {s.workers[w].call});
    match op
    case MarkAnalyzing => Goto(u.(metrics := u.metrics.(marked := u.metrics.marked + 1)), w, Gathering)
    case Publish(_) => Goto(CountReady(u), w, Stamping)
    case MarkError(m) => Finish(CountError(u), w, Failure(m))
    case Stamp(_) => Finish(u, w, Success)
  }

  /** What follows a retry loop that returned an error; `fail` ignores the error of its own loop. */
  function LoopFailed(s: State, w: nat, op: Op, message: string): (t: State)
    requires w < |s.workers|
    ensures MovesLocally(s, t, w)
  {
    match op
    case MarkAnalyzing => Finish(s, w, Failure(message))
    case Publish(_) =>
      Finish(s.(metrics := s.metrics.(readyFailed := s.metrics.readyFailed + 1)), w, Failure(message))
    case MarkError(m) => Finish(CountError(s), w, Failure(m))
    case Stamp(_) => Finish(s, w, Failure(message))
  }

  /** Lines 208 and 229; the last error, which the code appends, is left out. */
  function Exhausted(op: Op): string {
    if op.Stamp? then "metadata update retries exhausted" else "status update retries exhausted"
  }

  /** A conflict or a timeout: back off, then read again unless the attempts are used up. */
  function Retry(s: State, w: nat, op: Op, attempt: nat): (t: State)
    requires w < |s.workers|
    ensures MovesLocally(s, t, w)
  {
    var u := Put(s, w, s.workers[w].(slept := s.workers[w].slept + 25 * (attempt + 1)));
    if attempt + 1 < MAX_ATTEMPTS then Goto(u, w, Read(op, attempt + 1))
    else LoopFailed(u, w, op, Exhausted(op))
  }

  // ----- steps -----

  predicate InAttempt(pc: Pc) {
    || pc.Gathering? || pc.Asking? || pc.Listening?
    || ((pc.Read? || pc.Write?) && (pc.op.Publish? || pc.op.MarkError?))
  }

  function CrashStep(cfg: Config, s: State, w: nat, late: bool): (t: State)
    requires Enabled(cfg, s, Crash(w, late))
    ensures Moves(s, t, w)
  {
    var x := s.workers[w];
    var m := s.metrics.(crashed := s.metrics.crashed + 1);
    Goto(s, w, Idle).(
      server := if late then Defer(s.server, InFlight(RequestOf(cfg, x), x.call)) else s.server,
      metrics := if InAttempt(x.pc) then m.(died := m.died + 1) else m)
  }

  function PodStep(cfg: Config, s: State, w: nat, reply: PodReply): (t: State)
    requires Enabled(cfg, s, PodGet(w, reply))
    ensures Moves(s, t, w)
  {
    var x := s.workers[w].(slept := 0);
    var u := Put(s, w, x).(metrics := s.metrics.(started := s.metrics.started + 1));
    match reply
    case PodMissing => Finish(u, w, Success)
    case PodError(message) => Finish(u, w, Failure(message))
    case PodFound(pod) =>
      var finding := Classification(pod);
      if finding.None? then Finish(u, w, Success)
      else Put(u, w, x.(pc := CacheRead, job := Job(pod, finding.value.failure, finding.value.container)))
  }

  function CacheStep(cfg: Config, s: State, w: nat, read: ReadReply): (t: State)
    requires Enabled(cfg, s, CacheGet(w, read))
    ensures Moves(s, t, w)
  {
    match read
    case Absent => Goto(s, w, Creating)
    case ReadError(message) => Finish(s, w, Failure(message))
    case Found(cd) => Goto(s, w, Gate(cd))
  }

  /** An error of SetControllerReference ends the reconcile just as a broken, lost create does. */
  function CreateStep(cfg: Config, s: State, w: nat, reply: Reply): (t: State)
    requires Enabled(cfg, s, CreateCall(w, reply))
    ensures Moves(s, t, w)
  {
    var x := s.workers[w];
    var u := s.(server := AfterReply(s.server, InFlight(RequestOf(cfg, x), x.call), reply));
    match reply
    case Accepted => Goto(u, w, Reread)
    case Refused => Goto(u, w, Recheck)
    case TimedOut(_) => Finish(u, w, Failure("create timed out"))
    case Broken(_) => Finish(u, w, Failure("create failed"))
  }

  function FreshStep(cfg: Config, s: State, w: nat, read: ReadReply): (t: State)
    requires Enabled(cfg, s, FreshGet(w, read))
    ensures Moves(s, t, w)
  {
    var pc := s.workers[w].pc;
    match read
    case Found(cd) =>
      (match pc
       case Recheck => Goto(s, w, Reread)
       case Reread => Goto(s, w, Gate(cd))
       case _ => Goto(s, w, Write(pc.op, pc.attempt, cd)))
    case Absent =>
      if pc.Read? then LoopFailed(s, w, pc.op, "not found") else Finish(s, w, Failure("not found"))
    case ReadError(message) =>
      if pc.Read? then LoopFailed(s, w, pc.op, message) else Finish(s, w, Failure(message))
  }

  function GateStep(cfg: Config, s: State, w: nat): (t: State)
    requires Enabled(cfg, s, CheckGate(w))
    ensures Moves(s, t, w)
  {
    var x := s.workers[w];
    match GateVerdict(x.pc.seen, FingerprintOf(x.job), s.now)
    case Current => Finish(s, w, Success)
    case CoolDown(after) =>
      Finish(s.(metrics := s.metrics.(cooldowns := s.metrics.cooldowns + 1)), w, Requeue(after))
    case Proceed => EnterLoop(Put(s, w, x.(since := s.now)), w, MarkAnalyzing)
  }

  function UpdateStep(cfg: Config, s: State, w: nat, reply: Reply): (t: State)
    requires Enabled(cfg, s, UpdateCall(w, reply))
    ensures Moves(s, t, w)
  {
    var x := s.workers[w];
    var u := s.(server := AfterReply(s.server, InFlight(RequestOf(cfg, x), x.call), reply));
    match reply
    case Accepted => LoopDone(u, w, x.pc.op)
    case Refused =>
      if KeyOf(cfg, x.job) in s.server.live then Retry(u, w, x.pc.op, x.pc.attempt)
      else LoopFailed(u, w, x.pc.op, "not found")
    case TimedOut(_) => Retry(u, w, x.pc.op, x.pc.attempt)
    case Broken(_) => LoopFailed(u, w, x.pc.op, "update failed")
  }

  function AnswerStep(cfg: Config, s: State, w: nat, answer: AskReply): (t: State)
    requires Enabled(cfg, s, Answer(w, answer))
    ensures Moves(s, t, w)
  {
    var x := s.workers[w];
    match answer
    case Refusal(message) => EnterLoop(s, w, MarkError(message))
    case Diagnosed(d) =>
      EnterLoop(s.(answers := s.answers + {Answered(x.job, x.since, d)}), w,
                Publish(BundleFrom(cfg, x.job, x.since, d)))
  }

  function Step(cfg: Config, s: State, l: Label): State
    requires Enabled(cfg, s, l)
  {
    match l
    case Tick(d) => s.(now := s.now + d)
    case Remove(key) => s.(server := Delete(s.server, key))
    case Annotating(key, name, note) => s.(server := Annotate(s.server, key, name, note))
    case Landing(f) => s.(server := Land(s.server, f))
    case Crash(w, late) => CrashStep(cfg, s, w, late)
    case PodGet(w, reply) => PodStep(cfg, s, w, reply)
    case CacheGet(w, read) => CacheStep(cfg, s, w, read)
    case CreateCall(w, reply) => CreateStep(cfg, s, w, reply)
    case FreshGet(w, read) => FreshStep(cfg, s, w, read)
    case CheckGate(w) => GateStep(cfg, s, w)
    case UpdateCall(w, reply) => UpdateStep(cfg, s, w, reply)
    case GatherCall(w, error) =>
      if error.Some? then EnterLoop(s, w, MarkError(error.value)) else Goto(s, w, Asking)
    case Ask(w) => Goto(s, w, Listening)
    case Answer(w, answer) => AnswerStep(cfg, s, w, answer)
    case ReadClock(w) => EnterLoop(s, w, Stamp(s.now))
  }

  // ----- runs -----

  ghost predicate ValidRun(cfg: Config, s: State, run: seq<Label>)
    decreases |run|, 0
  {
    run == [] ||
    (var front, last := run[..|run| - 1], run[|run| - 1];
     ValidRun(cfg, s, front) && Enabled(cfg, Exec(cfg, s, front), last))
  }

  /** The state after a run. */
  ghost function Exec(cfg: Config, s: State, run: seq<Label>): State
    requires ValidRun(cfg, s, run)
    decreases |run|, 1
  {
    if run == [] then s
    else
      var front, last := run[..|run| - 1], run[|run| - 1];
      Step(cfg, Exec(cfg, s, front), last)
  }

  /** A state some run of the deployment reaches. */
  ghost predicate Reachable(cfg: Config, s: State) {
    exists start: Time, run: seq<Label> ::
      ValidRun(cfg, Init(cfg, start), run) && Exec(cfg, Init(cfg, start), run) == s
  }

  /** A run goes on with any enabled step. */
  lemma SnocRun(cfg: Config, s: State, run: seq<Label>, l: Label)
    requires ValidRun(cfg, s, run) && Enabled(cfg, Exec(cfg, s, run), l)
    ensures ValidRun(cfg, s, run + [l])
    ensures Exec(cfg, s, run + [l]) == Step(cfg, Exec(cfg, s, run), l)
  {
    assert (run + [l])[..|run|] == run;
  }

  /** What a step leads to from a reachable state is reachable. */
  lemma StepIsReachable(cfg: Config, s: State, l: Label)
    requires Reachable(cfg, s) && Enabled(cfg, s, l)
    ensures Reachable(cfg, Step(cfg, s, l))
  {
    var start: Time, run: seq<Label> :|
      ValidRun(cfg, Init(cfg, start), run) && Exec(cfg, Init(cfg, start), run) == s;
    SnocRun(cfg, Init(cfg, start), run, l);
  }

  lemma {:induction false} RunIsReachable(cfg: Config, s: State, run: seq<Label>)
    requires Reachable(cfg, s) && ValidRun(cfg, s, run)
    ensures Reachable(cfg, Exec(cfg, s, run))
  {
    if run != [] {
      RunIsReachable(cfg, s, run[..|run| - 1]);
      StepIsReachable(cfg, Exec(cfg, s, run[..|run| - 1]), run[|run| - 1]);
    }
  }
}

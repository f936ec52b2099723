/**
  What holds in every reachable state of the machine, for any number of workers.
 */
module Invariants {
  import opened Wrappers
  import opened Detect
  import opened DiagnosisJson
  import opened ApiServer
  import opened Machine

  // ----- how far a single step reaches -----

  function WireOf(cfg: Config, x: Worker): InFlight
    requires x.pc.Creating? || x.pc.Write?
  {
    InFlight(RequestOf(cfg, x), x.call)
  }

  /** The server after a step. */
  function ServerAfter(cfg: Config, s: State, l: Label): Server
    requires Enabled(cfg, s, l)
  {
    match l
    case Remove(key) => Delete(s.server, key)
    case Annotating(key, name, note) => Annotate(s.server, key, name, note)
    case Landing(f) => Land(s.server, f)
    case Crash(w, late) => if late then Defer(s.server, WireOf(cfg, s.workers[w])) else s.server
    case CreateCall(w, reply) => AfterReply(s.server, WireOf(cfg, s.workers[w]), reply)
    case UpdateCall(w, reply) => AfterReply(s.server, WireOf(cfg, s.workers[w]), reply)
    case _ => s.server
  }

  lemma StepServer(cfg: Config, s: State, l: Label)
    requires Enabled(cfg, s, l)
    ensures Step(cfg, s, l).server == ServerAfter(cfg, s, l)
  {
  }

  /** A step moves the clock and the sets of facts forward and touches no worker but its own. */
  lemma StepFrame(cfg: Config, s: State, l: Label)
    requires Enabled(cfg, s, l)
    ensures var t := Step(cfg, s, l);
            && s.now <= t.now && s.answers <= t.answers && s.settled <= t.settled && s.calls <= t.calls
            && s.server.versions <= t.server.versions
            && |t.workers| == |s.workers|
            && (forall i | 0 <= i < |s.workers| && (IsWorkerLabel(l) ==> i != l.w) :: t.workers[i] == s.workers[i])
  {
  }

  // ----- the facts behind each stored object and each request -----

  const NO_BUNDLE := BundleOf(NEW_STATUS)

  /** A bundle is backed by one successful model call about a job with that key. */
  ghost predicate Backed(cfg: Config, answers: set<Answered>, key: Key, b: Bundle) {
    exists a | a in answers :: IsBehind(cfg, a, key, b)
  }

  predicate IsBehind(cfg: Config, a: Answered, key: Key, b: Bundle) {
    && KeyOf(cfg, a.job) == key
    && b == BundleFrom(cfg, a.job, a.since, a.diagnosis)
    && cfg.legit(a.diagnosis)
    && IsClassified(a.job)
  }

  predicate IsClassified(job: Job) {
    Classification(job.pod) == Some(Finding(job.failure, job.container))
  }

  /** The spec names the pod and the failure that the key was derived from. */
  predicate SpecFits(cfg: Config, key: Key, spec: Spec) {
    && spec.target.kind == "Pod"
    && '/' !in spec.failure
    && key == Key(spec.target.namespace,
                  DiagnosisName(cfg.hash, spec.target.namespace, spec.target.name, spec.failure))
  }

  ghost predicate OpOk(cfg: Config, now: Time, answers: set<Answered>, key: Key, op: Op) {
    && (op.Publish? ==> Backed(cfg, answers, key, op.bundle))
    && (op.Stamp? ==> op.at <= now)
  }

  ghost predicate RequestOk(cfg: Config, now: Time, answers: set<Answered>, r: Request) {
    match r
    case CreateRequest(key, spec) => SpecFits(cfg, key, spec)
    case UpdateRequest(key, op, _) => OpOk(cfg, now, answers, key, op)
  }

  predicate PhaseOk(st: Status) {
    && (st.phase == "" || st.phase == "Analyzing" || st.phase == "Ready" || st.phase == "Error")
    && (st.phase != "Error" ==> st.message == "")
    && (st.phase == "Ready" ==> BundleOf(st) != NO_BUNDLE)
    && (st.phase == "" ==> BundleOf(st) == NO_BUNDLE)
  }

  predicate StampOk(now: Time, annotations: map<string, Annotation>) {
    STAMP_KEY in annotations ==>
      annotations[STAMP_KEY].Instant? && annotations[STAMP_KEY].seconds * SECOND <= now
  }

  ghost predicate StoredOk(cfg: Config, now: Time, answers: set<Answered>, key: Key, cd: ClusterDiagnosis) {
    && SpecFits(cfg, key, cd.spec)
    && (BundleOf(cd.status) == NO_BUNDLE || Backed(cfg, answers, key, BundleOf(cd.status)))
    && PhaseOk(cd.status)
    && StampOk(now, cd.annotations)
  }

  lemma PublishedIsPresent(cfg: Config, answers: set<Answered>, key: Key, b: Bundle)
    requires Backed(cfg, answers, key, b)
    ensures b != NO_BUNDLE
  {
  }

  /** Every mutation leaves a well-formed object well formed. */
  lemma MutateKeepsStoredOk(cfg: Config, now: Time, answers: set<Answered>, key: Key, op: Op,
                            cd: ClusterDiagnosis, rev: nat)
    requires StoredOk(cfg, now, answers, key, cd) && OpOk(cfg, now, answers, key, op)
    ensures StoredOk(cfg, now, answers, key, Mutate(op, cd).(rev := rev))
  {
    if op.Publish? {
      PublishedIsPresent(cfg, answers, key, op.bundle);
      assert BundleOf(Mutate(op, cd).status) == op.bundle;
    } else {
      assert BundleOf(Mutate(op, cd).status) == BundleOf(cd.status);
    }
  }

  // ----- the server -----

  ghost predicate ServerOk(cfg: Config, now: Time, answers: set<Answered>, sv: Server) {
    && Consistent(sv)
    && (forall v | v in sv.versions :: StoredOk(cfg, now, answers, v.key, v.cd))
    && (forall f | f in sv.pending :: RequestOk(cfg, now, answers, f.request))
  }

  lemma BackedGrows(cfg: Config, a: set<Answered>, b: set<Answered>)
    requires a <= b
    ensures forall key, bundle | Backed(cfg, a, key, bundle) :: Backed(cfg, b, key, bundle)
  {
  }

  lemma ServerOkGrows(cfg: Config, now: Time, later: Time, a: set<Answered>, b: set<Answered>, sv: Server)
    requires ServerOk(cfg, now, a, sv) && now <= later && a <= b
    ensures ServerOk(cfg, later, b, sv)
  {
    BackedGrows(cfg, a, b);
  }

  lemma StoredRequestIsOk(cfg: Config, now: Time, answers: set<Answered>, sv: Server, r: Request)
    requires ServerOk(cfg, now, answers, sv) && Admissible(sv, r)
    requires Grounded(sv, r) && RequestOk(cfg, now, answers, r)
    ensures StoredOk(cfg, now, answers, r.key, Stored(sv, r))
  {
    if r.UpdateRequest? {
      StoredIsMutationOfCurrent(sv, r);
      assert Version(r.key, sv.live[r.key]) in sv.versions;
      MutateKeepsStoredOk(cfg, now, answers, r.key, r.op, sv.live[r.key], sv.rev + 1);
    }
  }

  lemma PerformKeepsServerOk(cfg: Config, now: Time, answers: set<Answered>, sv: Server, r: Request)
    requires ServerOk(cfg, now, answers, sv) && Admissible(sv, r)
    requires Grounded(sv, r) && RequestOk(cfg, now, answers, r)
    ensures ServerOk(cfg, now, answers, Perform(sv, r))
  {
    PerformKeepsConsistent(sv, r);
    StoredRequestIsOk(cfg, now, answers, sv, r);
  }

  lemma AfterReplyKeepsServerOk(cfg: Config, now: Time, answers: set<Answered>, sv: Server, f: InFlight, reply: Reply)
    requires ServerOk(cfg, now, answers, sv) && ReplyFits(sv, f.request, reply)
    requires Grounded(sv, f.request) && RequestOk(cfg, now, answers, f.request)
    ensures ServerOk(cfg, now, answers, AfterReply(sv, f, reply))
  {
    AfterReplyKeepsConsistent(sv, f, reply);
    if Admissible(sv, f.request) {
      PerformKeepsServerOk(cfg, now, answers, sv, f.request);
    }
  }

  // ----- the workers -----

  ghost predicate WorkerOk(cfg: Config, now: Time, answers: set<Answered>, versions: set<Version>, x: Worker) {
    && (!x.pc.Idle? ==> IsClassified(x.job))
    && (x.pc.Gate? ==> Version(KeyOf(cfg, x.job), x.pc.seen) in versions)
    && (x.pc.Write? ==> Version(KeyOf(cfg, x.job), x.pc.base) in versions)
    && (x.pc.Read? || x.pc.Write? ==>
          x.pc.attempt < MAX_ATTEMPTS && OpOk(cfg, now, answers, KeyOf(cfg, x.job), x.pc.op))
  }

  ghost predicate WorkersOk(cfg: Config, s: State) {
    forall i | 0 <= i < |s.workers| :: WorkerOk(cfg, s.now, s.answers, s.server.versions, s.workers[i])
  }

  lemma SpecOfFits(cfg: Config, job: Job)
    ensures SpecFits(cfg, KeyOf(cfg, job), SpecOf(job))
  {
    FailureTextHasNoSlash(job.failure);
  }

  /** A worker that is well placed sends only well-founded requests. */
  lemma WireIsOk(cfg: Config, s: State, x: Worker)
    requires WorkerOk(cfg, s.now, s.answers, s.server.versions, x)
    requires x.pc.Creating? || x.pc.Write?
    ensures Grounded(s.server, RequestOf(cfg, x))
    ensures RequestOk(cfg, s.now, s.answers, RequestOf(cfg, x))
  {
    SpecOfFits(cfg, x.job);
  }

  lemma WorkerOkGrows(cfg: Config, s: State, t: State, x: Worker)
    requires WorkerOk(cfg, s.now, s.answers, s.server.versions, x)
    requires s.now <= t.now && s.answers <= t.answers && s.server.versions <= t.server.versions
    ensures WorkerOk(cfg, t.now, t.answers, t.server.versions, x)
  {
    BackedGrows(cfg, s.answers, t.answers);
  }

  ghost predicate Inv(cfg: Config, s: State) {
    && ServerOk(cfg, s.now, s.answers, s.server)
    && WorkersOk(cfg, s)
  }

  lemma DeleteKeepsServerOk(cfg: Config, now: Time, answers: set<Answered>, sv: Server, key: Key)
    requires ServerOk(cfg, now, answers, sv)
    ensures ServerOk(cfg, now, answers, Delete(sv, key))
  {
  }

  lemma AnnotateKeepsServerOk(cfg: Config, now: Time, answers: set<Answered>, sv: Server, key: Key, name: string,
                              note: Annotation)
    requires ServerOk(cfg, now, answers, sv) && key in sv.live && name != STAMP_KEY
    ensures ServerOk(cfg, now, answers, Annotate(sv, key, name, note))
  {
    AnnotateKeepsConsistent(sv, key, name, note);
    assert Version(key, sv.live[key]) in sv.versions;
  }

  lemma DeferKeepsServerOk(cfg: Config, now: Time, answers: set<Answered>, sv: Server, f: InFlight)
    requires ServerOk(cfg, now, answers, sv)
    requires Grounded(sv, f.request) && RequestOk(cfg, now, answers, f.request)
    ensures ServerOk(cfg, now, answers, Defer(sv, f))
  {
  }

  lemma LandKeepsServerOk(cfg: Config, now: Time, answers: set<Answered>, sv: Server, f: InFlight)
    requires ServerOk(cfg, now, answers, sv) && f in sv.pending && Admissible(sv, f.request)
    ensures ServerOk(cfg, now, answers, Land(sv, f))
  {
    PerformKeepsServerOk(cfg, now, answers, sv, f.request);
    LandKeepsConsistent(sv, f);
  }

  lemma StepKeepsServerOk(cfg: Config, s: State, l: Label)
    requires Inv(cfg, s) && Enabled(cfg, s, l)
    ensures ServerOk(cfg, s.now, s.answers, ServerAfter(cfg, s, l))
  {
    match l {
      case Remove(key) => DeleteKeepsServerOk(cfg, s.now, s.answers, s.server, key);
      case Annotating(key, name, note) => AnnotateKeepsServerOk(cfg, s.now, s.answers, s.server, key, name, note);
      case Landing(f) => LandKeepsServerOk(cfg, s.now, s.answers, s.server, f);
      case Crash(w, late) =>
        if late {
          WireIsOk(cfg, s, s.workers[w]);
          DeferKeepsServerOk(cfg, s.now, s.answers, s.server, WireOf(cfg, s.workers[w]));
        }
      case CreateCall(w, reply) =>
        WireIsOk(cfg, s, s.workers[w]);
        AfterReplyKeepsServerOk(cfg, s.now, s.answers, s.server, WireOf(cfg, s.workers[w]), reply);
      case UpdateCall(w, reply) =>
        WireIsOk(cfg, s, s.workers[w]);
        AfterReplyKeepsServerOk(cfg, s.now, s.answers, s.server, WireOf(cfg, s.workers[w]), reply);
      case _ =>
    }
  }

  /** The answer just received backs the bundle about to be published. */
  lemma NewAnswerBacks(cfg: Config, s: State, w: nat, d: Diagnosis)
    requires Inv(cfg, s) && Enabled(cfg, s, Answer(w, Diagnosed(d)))
    ensures var x := s.workers[w];
            Backed(cfg, s.answers + {Answered(x.job, x.since, d)}, KeyOf(cfg, x.job),
                   BundleFrom(cfg, x.job, x.since, d))
  {
    var x := s.workers[w];
    var a := Answered(x.job, x.since, d);
    assert IsBehind(cfg, a, KeyOf(cfg, x.job), BundleFrom(cfg, x.job, x.since, d));
  }

  /** A worker with an acceptable place to go to is well placed there. */
  lemma GotoIsOk(cfg: Config, s: State, t: State, w: nat)
    requires w < |s.workers| && w < |t.workers|
    requires WorkerOk(cfg, s.now, s.answers, s.server.versions, s.workers[w])
    requires s.now <= t.now && s.answers <= t.answers && s.server.versions <= t.server.versions
    requires t.workers[w].job == s.workers[w].job && !s.workers[w].pc.Idle?
    requires var pc := t.workers[w].pc;
             !pc.Gate? && !pc.Write? && (pc.Read? ==>
               pc.attempt < MAX_ATTEMPTS && OpOk(cfg, t.now, t.answers, KeyOf(cfg, t.workers[w].job), pc.op))
    ensures WorkerOk(cfg, t.now, t.answers, t.server.versions, t.workers[w])
  {
  }

  /** A retry loop goes on with its own mutation or leaves for a place that needs no facts. */
  lemma AfterUpdate(cfg: Config, s: State, w: nat, reply: Reply)
    requires Enabled(cfg, s, UpdateCall(w, reply))
    ensures var x, y := s.workers[w], UpdateStep(cfg, s, w, reply).workers[w];
            && y.job == x.job
            && (|| y.pc.Idle? || y.pc.Gathering? || y.pc.Stamping?
                || (y.pc == Read(x.pc.op, x.pc.attempt + 1) && x.pc.attempt + 1 < MAX_ATTEMPTS))
  {
  }

  lemma UpdateMoverIsOk(cfg: Config, s: State, w: nat, reply: Reply)
    requires Inv(cfg, s) && Enabled(cfg, s, UpdateCall(w, reply))
    ensures var t := UpdateStep(cfg, s, w, reply);
            WorkerOk(cfg, t.now, t.answers, t.server.versions, t.workers[w])
  {
    var t := UpdateStep(cfg, s, w, reply);
    assert s.server.versions <= t.server.versions;
    assert t.answers == s.answers && t.now == s.now;
    AfterUpdate(cfg, s, w, reply);
    GotoIsOk(cfg, s, t, w);
  }

  /** What a read returns was stored at some time. */
  lemma ReadIsStored(cfg: Config, sv: Server, key: Key, uncached: bool, read: ReadReply)
    requires Consistent(sv) && ReadFits(cfg, sv, key, uncached, read) && read.Found?
    ensures Version(key, read.cd) in sv.versions
  {
  }

  /** Where a worker goes that has read the object. */
  lemma AfterFound(cfg: Config, s: State, w: nat, cd: ClusterDiagnosis)
    requires Enabled(cfg, s, FreshGet(w, Found(cd)))
    ensures var x, t := s.workers[w], FreshStep(cfg, s, w, Found(cd));
            && t.now == s.now && t.answers == s.answers && t.server == s.server && t.workers[w].job == x.job
            && (x.pc.Recheck? ==> t.workers[w].pc == Reread)
            && (x.pc.Reread? ==> t.workers[w].pc == Gate(cd))
            && (x.pc.Read? ==> t.workers[w].pc == Write(x.pc.op, x.pc.attempt, cd))
  {
  }

  lemma FoundMoverIsOk(cfg: Config, s: State, w: nat, cd: ClusterDiagnosis)
    requires Enabled(cfg, s, FreshGet(w, Found(cd)))
    requires WorkerOk(cfg, s.now, s.answers, s.server.versions, s.workers[w])
    requires Version(KeyOf(cfg, s.workers[w].job), cd) in s.server.versions
    ensures var t := FreshStep(cfg, s, w, Found(cd));
            WorkerOk(cfg, t.now, t.answers, t.server.versions, t.workers[w])
  {
    AfterFound(cfg, s, w, cd);
  }

  lemma FreshMoverIsOk(cfg: Config, s: State, w: nat, read: ReadReply)
    requires Enabled(cfg, s, FreshGet(w, read)) && WorkerOk(cfg, s.now, s.answers, s.server.versions, s.workers[w])
    requires read.Found? ==> Version(KeyOf(cfg, s.workers[w].job), read.cd) in s.server.versions
    ensures var t := FreshStep(cfg, s, w, read);
            WorkerOk(cfg, t.now, t.answers, t.server.versions, t.workers[w])
  {
    if read.Found? {
      FoundMoverIsOk(cfg, s, w, read.cd);
    } else {
      assert FreshStep(cfg, s, w, read).workers[w].pc.Idle?;
    }
  }

  lemma AnswerMoverIsOk(cfg: Config, s: State, w: nat, answer: AskReply)
    requires Inv(cfg, s) && Enabled(cfg, s, Answer(w, answer))
    ensures var t := AnswerStep(cfg, s, w, answer);
            WorkerOk(cfg, t.now, t.answers, t.server.versions, t.workers[w])
  {
    if answer.Diagnosed? {
      NewAnswerBacks(cfg, s, w, answer.diagnosis);
    }
  }

  lemma CreateMoverIsOk(cfg: Config, s: State, w: nat, reply: Reply)
    requires Inv(cfg, s) && Enabled(cfg, s, CreateCall(w, reply))
    ensures var t := CreateStep(cfg, s, w, reply);
            WorkerOk(cfg, t.now, t.answers, t.server.versions, t.workers[w])
  {
    var t := CreateStep(cfg, s, w, reply);
    GotoIsOk(cfg, s, t, w);
  }

  lemma PodMoverIsOk(cfg: Config, s: State, w: nat, reply: PodReply)
    requires Inv(cfg, s) && Enabled(cfg, s, PodGet(w, reply))
    ensures var t := PodStep(cfg, s, w, reply);
            WorkerOk(cfg, t.now, t.answers, t.server.versions, t.workers[w])
  {
  }

  lemma CacheMoverIsOk(cfg: Config, s: State, w: nat, read: ReadReply)
    requires Inv(cfg, s) && Enabled(cfg, s, CacheGet(w, read))
    ensures var t := CacheStep(cfg, s, w, read);
            WorkerOk(cfg, t.now, t.answers, t.server.versions, t.workers[w])
  {
  }

  lemma GateMoverIsOk(cfg: Config, s: State, w: nat)
    requires Inv(cfg, s) && Enabled(cfg, s, CheckGate(w))
    ensures var t := GateStep(cfg, s, w);
            WorkerOk(cfg, t.now, t.answers, t.server.versions, t.workers[w])
  {
  }

  lemma CrashMoverIsOk(cfg: Config, s: State, w: nat, late: bool)
    requires Inv(cfg, s) && Enabled(cfg, s, Crash(w, late))
    ensures var t := CrashStep(cfg, s, w, late);
            WorkerOk(cfg, t.now, t.answers, t.server.versions, t.workers[w])
  {
  }

  /** The worker that moved is still well placed. */
  lemma MoverIsOk(cfg: Config, s: State, l: Label)
    requires Inv(cfg, s) && Enabled(cfg, s, l) && IsWorkerLabel(l)
    ensures var t := Step(cfg, s, l);
            WorkerOk(cfg, t.now, t.answers, t.server.versions, t.workers[l.w])
  {
    match l {
      case Crash(w, late) => CrashMoverIsOk(cfg, s, w, late);
      case PodGet(w, reply) => PodMoverIsOk(cfg, s, w, reply);
      case CacheGet(w, read) => CacheMoverIsOk(cfg, s, w, read);
      case CheckGate(w) => GateMoverIsOk(cfg, s, w);
      case CreateCall(w, reply) => CreateMoverIsOk(cfg, s, w, reply);
      case FreshGet(w, read) =>
        if read.Found? {
          ReadIsStored(cfg, s.server, KeyOf(cfg, s.workers[w].job), cfg.apiReader, read);
        }
        FreshMoverIsOk(cfg, s, w, read);
      case UpdateCall(w, reply) => UpdateMoverIsOk(cfg, s, w, reply);
      case Answer(w, answer) => AnswerMoverIsOk(cfg, s, w, answer);
      case _ =>
    }
  }

  lemma StepKeepsInv(cfg: Config, s: State, l: Label)
    requires Inv(cfg, s) && Enabled(cfg, s, l)
    ensures Inv(cfg, Step(cfg, s, l))
  {
    var t := Step(cfg, s, l);
    StepFrame(cfg, s, l);
    StepServer(cfg, s, l);
    StepKeepsServerOk(cfg, s, l);
    ServerOkGrows(cfg, s.now, t.now, s.answers, t.answers, t.server);
    forall i | 0 <= i < |t.workers|
      ensures WorkerOk(cfg, t.now, t.answers, t.server.versions, t.workers[i])
    {
      if IsWorkerLabel(l) && i == l.w {
        MoverIsOk(cfg, s, l);
      } else {
        WorkerOkGrows(cfg, s, t, s.workers[i]);
      }
    }
  }

  lemma {:induction false} RunKeepsInv(cfg: Config, s: State, run: seq<Label>)
    requires Inv(cfg, s) && ValidRun(cfg, s, run)
    ensures Inv(cfg, Exec(cfg, s, run))
  {
    if run != [] {
      var front := run[..|run| - 1];
      RunKeepsInv(cfg, s, front);
      StepKeepsInv(cfg, Exec(cfg, s, front), run[|run| - 1]);
    }
  }

  lemma InitHasInv(cfg: Config, now: Time)
    ensures Inv(cfg, Init(cfg, now))
  {
  }

  lemma ReachableHasInv(cfg: Config, s: State)
    requires Reachable(cfg, s)
    ensures Inv(cfg, s)
  {
    var start: Time, run: seq<Label> :|
      ValidRun(cfg, Init(cfg, start), run) && Exec(cfg, Init(cfg, start), run) == s;
    InitHasInv(cfg, start);
    RunKeepsInv(cfg, Init(cfg, start), run);
  }
}

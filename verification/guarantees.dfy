/**
  What a reader of the stored diagnoses may rely on, in every reachable state.
 */
module Guarantees {
  import opened Wrappers
  import opened Detect
  import opened Fingerprints
  import opened DiagnosisJson
  import opened ApiServer
  import opened Machine
  import opened Invariants

  // ----- the bundle -----

  /** Some model that answers through the JSON parser gives only what the parser lets through. */
  ghost predicate AnswersThroughParser(cfg: Config, decode: Decoder) {
    forall d | cfg.legit(d) :: exists raw :: ParseDiagnosisJSON(decode, raw) == Some(d)
  }

  ghost predicate ShowsAnswer(cfg: Config, answers: set<Answered>, key: Key, st: Status) {
    exists a | a in answers :: IsShown(cfg, a, key, st)
  }

  /** One successful model call about a job with that key, shown field by field. */
  ghost predicate IsShown(cfg: Config, a: Answered, key: Key, st: Status) {
    && KeyOf(cfg, a.job) == key && Shows(cfg, st, a.job, a.since, a.diagnosis)
    && cfg.legit(a.diagnosis) && IsClassified(a.job)
  }

  predicate ShowsBlank(st: Status) {
    && st.rootCause == "" && st.severity == "" && st.recommendedFix == "" && st.model == ""
    && st.lastUpdated.None? && st.observedFingerprint == "" && st.resourceUsage.None? && st.remediations == []
  }

  /**
    Every stored diagnosis is either empty or comes whole from one successful model call for that
    key. A ready one is present, and only an error carries a message.
   */
  lemma BundleComesWhole(cfg: Config, start: Time, run: seq<Label>, key: Key)
    requires ValidRun(cfg, Init(cfg, start), run)
    requires key in Exec(cfg, Init(cfg, start), run).server.live
    ensures var s := Exec(cfg, Init(cfg, start), run);
            var st := s.server.live[key].status;
            && (ShowsBlank(st) || ShowsAnswer(cfg, s.answers, key, st))
            && (st.phase == "Ready" ==> ShowsAnswer(cfg, s.answers, key, st))
            && (st.phase != "Error" ==> st.message == "")
  {
    var s := Exec(cfg, Init(cfg, start), run);
    InitHasInv(cfg, start);
    RunKeepsInv(cfg, Init(cfg, start), run);
    assert Version(key, s.server.live[key]) in s.server.versions;
    var st := s.server.live[key].status;
    if BundleOf(st) != NO_BUNDLE {
      var a :| a in s.answers && IsBehind(cfg, a, key, BundleOf(st));
      CarriedShows(cfg, st, a.job, a.since, a.diagnosis);
    }
  }

  /** With such a model a ready diagnosis has one of the four severities. */
  lemma ReadyHasSeverity(cfg: Config, decode: Decoder, start: Time, run: seq<Label>, key: Key)
    requires ValidRun(cfg, Init(cfg, start), run) && AnswersThroughParser(cfg, decode)
    requires var sv := Exec(cfg, Init(cfg, start), run).server;
             key in sv.live && sv.live[key].status.phase == "Ready"
    ensures IsSeverity(Exec(cfg, Init(cfg, start), run).server.live[key].status.severity)
  {
    var s := Exec(cfg, Init(cfg, start), run);
    BundleComesWhole(cfg, start, run, key);
    var a :| a in s.answers && IsShown(cfg, a, key, s.server.live[key].status);
    var raw :| ParseDiagnosisJSON(decode, raw) == Some(a.diagnosis);
  }

  // ----- publishes -----

  predicate IsPublishOf(c: Commit, key: Key, b: Bundle) {
    c.Updated? && c.key == key && c.op == Publish(b)
  }

  ghost predicate WasPublished(sv: Server, key: Key, b: Bundle) {
    exists c | c in sv.commits :: IsPublishOf(c, key, b)
  }

  /** Every non-empty bundle ever stored was put there by a publish that the server carried out. */
  ghost predicate PublishesOk(sv: Server) {
    forall v | v in sv.versions ::
      BundleOf(v.cd.status) == NO_BUNDLE || WasPublished(sv, v.key, BundleOf(v.cd.status))
  }

  lemma WasPublishedGrows(sv: Server, more: Server)
    requires sv.commits <= more.commits
    ensures forall key, b | WasPublished(sv, key, b) :: WasPublished(more, key, b)
  {
  }

  lemma PerformKeepsPublishesOk(sv: Server, r: Request)
    requires Consistent(sv) && Grounded(sv, r) && Admissible(sv, r) && PublishesOk(sv)
    ensures PublishesOk(Perform(sv, r))
  {
    var more := Perform(sv, r);
    WasPublishedGrows(sv, more);
    var stored := Stored(sv, r);
    if r.UpdateRequest? {
      StoredIsMutationOfCurrent(sv, r);
      var cur := sv.live[r.key];
      assert Version(r.key, cur) in sv.versions;
      if r.op.Publish? {
        assert BundleOf(stored.status) == r.op.bundle;
        assert IsPublishOf(CommitOf(sv, r), r.key, r.op.bundle);
      } else {
        assert BundleOf(stored.status) == BundleOf(cur.status);
      }
    }
  }

  lemma ReplyKeepsPublishesOk(sv: Server, f: InFlight, reply: Reply)
    requires Consistent(sv) && Grounded(sv, f.request) && ReplyFits(sv, f.request, reply) && PublishesOk(sv)
    ensures PublishesOk(AfterReply(sv, f, reply))
  {
    if Admissible(sv, f.request) {
      PerformKeepsPublishesOk(sv, f.request);
    }
    assert Defer(sv, f).commits == sv.commits;
    WasPublishedGrows(sv, Defer(sv, f));
  }

  lemma StepKeepsPublishesOk(cfg: Config, s: State, l: Label)
    requires Inv(cfg, s) && Enabled(cfg, s, l) && PublishesOk(s.server)
    ensures PublishesOk(ServerAfter(cfg, s, l))
  {
    match l {
      case Remove(key) => WasPublishedGrows(s.server, Delete(s.server, key));
      case Annotating(key, name, note) =>
        WasPublishedGrows(s.server, Annotate(s.server, key, name, note));
        assert Version(key, s.server.live[key]) in s.server.versions;
      case Landing(f) =>
        PerformKeepsPublishesOk(s.server, f.request);
        WasPublishedGrows(Perform(s.server, f.request), Land(s.server, f));
      case Crash(w, late) =>
        if late {
          WasPublishedGrows(s.server, Defer(s.server, WireOf(cfg, s.workers[w])));
        }
      case CreateCall(w, reply) =>
        WireIsOk(cfg, s, s.workers[w]);
        ReplyKeepsPublishesOk(s.server, WireOf(cfg, s.workers[w]), reply);
      case UpdateCall(w, reply) =>
        WireIsOk(cfg, s, s.workers[w]);
        ReplyKeepsPublishesOk(s.server, WireOf(cfg, s.workers[w]), reply);
      case _ =>
    }
  }

  lemma {:induction false} RunKeepsPublishesOk(cfg: Config, s: State, run: seq<Label>)
    requires Inv(cfg, s) && PublishesOk(s.server) && ValidRun(cfg, s, run)
    ensures PublishesOk(Exec(cfg, s, run).server)
  {
    if run != [] {
      var front := run[..|run| - 1];
      RunKeepsPublishesOk(cfg, s, front);
      RunKeepsInv(cfg, s, front);
      StepKeepsPublishesOk(cfg, Exec(cfg, s, front), run[|run| - 1]);
      StepServer(cfg, Exec(cfg, s, front), run[|run| - 1]);
    }
  }

  // ----- exits with nothing to do -----

  /** The fields of a job's pod view whose separators the fingerprint text relies on. */
  predicate CleanText(job: Job) {
    IsClear(job.pod, job.container)
  }

  /** A publish for that key, of an answer about a pod view that showed that container state. */
  ghost predicate PublishedFor(cfg: Config, s: State, key: Key, observed: Option<Observed>) {
    exists a | a in s.answers ::
      && KeyOf(cfg, a.job) == key
      && ObservedState(a.job.pod, a.job.container) == observed
      && WasPublished(s.server, key, BundleFrom(cfg, a.job, a.since, a.diagnosis))
  }

  /**
    Whenever the ready gate ends a reconcile, even on a stale copy, an earlier publish for the
    same key was made from the very container state seen now. Only this pod view and those behind
    the answers for the same key need clean text.
   */
  lemma SkipsAreJustified(cfg: Config, start: Time, run: seq<Label>, w: nat)
    requires ValidRun(cfg, Init(cfg, start), run)
    requires var s := Exec(cfg, Init(cfg, start), run);
             && w < |s.workers| && s.workers[w].pc.Gate?
             && GateVerdict(s.workers[w].pc.seen, FingerprintOf(s.workers[w].job), s.now).Current?
             && CleanText(s.workers[w].job)
             && forall a | a in s.answers && KeyOf(cfg, a.job) == KeyOf(cfg, s.workers[w].job) :: CleanText(a.job)
    ensures var s := Exec(cfg, Init(cfg, start), run);
            var job := s.workers[w].job;
            PublishedFor(cfg, s, KeyOf(cfg, job), ObservedState(job.pod, job.container))
  {
    var s := Exec(cfg, Init(cfg, start), run);
    InitHasInv(cfg, start);
    RunKeepsInv(cfg, Init(cfg, start), run);
    RunKeepsPublishesOk(cfg, Init(cfg, start), run);
    var x := s.workers[w];
    var key, b := KeyOf(cfg, x.job), BundleOf(x.pc.seen.status);
    assert Version(key, x.pc.seen) in s.server.versions;
    var a :| a in s.answers && IsBehind(cfg, a, key, b);
    EqualFingerprints(a.job.pod, a.job.container, x.job.pod, x.job.container);
  }

  // ----- one object per target -----

  /** The live objects of a deployment are named after the targets they describe. */
  lemma OneObjectPerTarget(cfg: Config, start: Time, run: seq<Label>, k1: Key, k2: Key)
    requires ValidRun(cfg, Init(cfg, start), run)
    requires var sv := Exec(cfg, Init(cfg, start), run).server;
             k1 in sv.live && k2 in sv.live && sv.live[k1].spec == sv.live[k2].spec
    ensures k1 == k2
  {
    var s := Exec(cfg, Init(cfg, start), run);
    InitHasInv(cfg, start);
    RunKeepsInv(cfg, Init(cfg, start), run);
    assert Version(k1, s.server.live[k1]) in s.server.versions;
    assert Version(k2, s.server.live[k2]) in s.server.versions;
  }

  /** The spec names the pod and the failure of that job. */
  predicate IsTargetOf(job: Job, spec: Spec) {
    && spec.target.kind == "Pod" && spec.target.namespace == job.pod.namespace && spec.target.name == job.pod.name
    && spec.failure == job.failure.Text()
  }

  /** Every live object is named after the target in its spec. */
  lemma NamedAfterTarget(cfg: Config, start: Time, run: seq<Label>, key: Key)
    requires ValidRun(cfg, Init(cfg, start), run)
    requires key in Exec(cfg, Init(cfg, start), run).server.live
    ensures var spec := Exec(cfg, Init(cfg, start), run).server.live[key].spec;
            && spec.target.kind == "Pod" && key.namespace == spec.target.namespace
            && key.name == "diag-" + cfg.hash(spec.target.namespace + "/" + spec.target.name + "/" + spec.failure)
  {
    var s := Exec(cfg, Init(cfg, start), run);
    InitHasInv(cfg, start);
    RunKeepsInv(cfg, Init(cfg, start), run);
    assert Version(key, s.server.live[key]) in s.server.versions;
  }

  function PartsOfSpec(spec: Spec): NameParts {
    NameParts(spec.target.namespace, spec.target.name, spec.failure)
  }

  /** Two targets whose hashed texts differ although their hashes do not. */
  predicate Collide(cfg: Config, a: NameParts, b: NameParts) {
    var s, t := NameInput(a.namespace, a.podName, a.failure), NameInput(b.namespace, b.podName, b.failure);
    s != t && cfg.hash(s) == cfg.hash(t)
  }

  /**
    The object found under a job's key describes that job's pod and failure, provided the hashes
    of the two do not collide and namespaces contain no slash.
   */
  lemma ObjectDescribesTarget(cfg: Config, start: Time, run: seq<Label>, job: Job)
    requires ValidRun(cfg, Init(cfg, start), run)
    requires KeyOf(cfg, job) in Exec(cfg, Init(cfg, start), run).server.live
    requires var spec := Exec(cfg, Init(cfg, start), run).server.live[KeyOf(cfg, job)].spec;
             !Collide(cfg, PartsOfSpec(spec), PartsOfSpec(SpecOf(job)))
    requires '/' !in job.pod.namespace
    ensures IsTargetOf(job, Exec(cfg, Init(cfg, start), run).server.live[KeyOf(cfg, job)].spec)
  {
    var s := Exec(cfg, Init(cfg, start), run);
    var key := KeyOf(cfg, job);
    InitHasInv(cfg, start);
    RunKeepsInv(cfg, Init(cfg, start), run);
    assert Version(key, s.server.live[key]) in s.server.versions;
    SameNameSameTarget(cfg, key, s.server.live[key].spec, job);
  }

  lemma SameNameSameTarget(cfg: Config, key: Key, spec: Spec, job: Job)
    requires SpecFits(cfg, key, spec) && key == KeyOf(cfg, job)
    requires !Collide(cfg, PartsOfSpec(spec), PartsOfSpec(SpecOf(job))) && '/' !in job.pod.namespace
    ensures spec == SpecOf(job)
  {
    var a, b := PartsOfSpec(spec), PartsOfSpec(SpecOf(job));
    FailureTextHasNoSlash(job.failure);
    var s := cfg.hash(NameInput(a.namespace, a.podName, a.failure));
    var t := cfg.hash(NameInput(b.namespace, b.podName, b.failure));
    assert ("diag-" + s)[5..] == s && ("diag-" + t)[5..] == t;
    NameInputIsInjective(a, b);
  }

  /** An answer about the object's own target: its job has the spec that the object has. */
  ghost predicate BackedForTarget(cfg: Config, s: State, key: Key, cd: ClusterDiagnosis) {
    exists a | a in s.answers :: IsShown(cfg, a, key, cd.status) && IsTargetOf(a.job, cd.spec)
  }

  /**
    A stored diagnosis is about the target that its object names: the model was asked about that
    pod and failure, provided no target asked about under that name collides with it.
   */
  lemma BundleDescribesTarget(cfg: Config, start: Time, run: seq<Label>, key: Key)
    requires ValidRun(cfg, Init(cfg, start), run)
    requires var s := Exec(cfg, Init(cfg, start), run);
             && key in s.server.live && !ShowsBlank(s.server.live[key].status)
             && forall a | a in s.answers && KeyOf(cfg, a.job) == key ::
                  && '/' !in a.job.pod.namespace
                  && !Collide(cfg, PartsOfSpec(s.server.live[key].spec), PartsOfSpec(SpecOf(a.job)))
    ensures var s := Exec(cfg, Init(cfg, start), run); BackedForTarget(cfg, s, key, s.server.live[key])
  {
    var s := Exec(cfg, Init(cfg, start), run);
    BundleComesWhole(cfg, start, run, key);
    var a :| a in s.answers && IsShown(cfg, a, key, s.server.live[key].status);
    ObjectDescribesTarget(cfg, start, run, a.job);
  }

  lemma PerformKeepsSpecs(sv: Server, r: Request, key: Key)
    requires Consistent(sv) && Grounded(sv, r) && Admissible(sv, r) && key in sv.live
    ensures key in Perform(sv, r).live && Perform(sv, r).live[key].spec == sv.live[key].spec
  {
    if r.UpdateRequest? {
      StoredIsMutationOfCurrent(sv, r);
    }
  }

  lemma ReplyKeepsSpecs(sv: Server, f: InFlight, reply: Reply, key: Key)
    requires Consistent(sv) && Grounded(sv, f.request) && ReplyFits(sv, f.request, reply) && key in sv.live
    ensures key in AfterReply(sv, f, reply).live && AfterReply(sv, f, reply).live[key].spec == sv.live[key].spec
  {
    if Admissible(sv, f.request) {
      PerformKeepsSpecs(sv, f.request, key);
    }
  }

  lemma ServerKeepsSpecs(cfg: Config, s: State, l: Label, key: Key)
    requires Inv(cfg, s) && Enabled(cfg, s, l) && key in s.server.live && l != Remove(key)
    ensures var sv := ServerAfter(cfg, s, l); key in sv.live && sv.live[key].spec == s.server.live[key].spec
  {
    match l {
      case Landing(f) => PerformKeepsSpecs(s.server, f.request, key);
      case CreateCall(w, reply) =>
        WireIsOk(cfg, s, s.workers[w]);
        ReplyKeepsSpecs(s.server, WireOf(cfg, s.workers[w]), reply, key);
      case UpdateCall(w, reply) =>
        WireIsOk(cfg, s, s.workers[w]);
        ReplyKeepsSpecs(s.server, WireOf(cfg, s.workers[w]), reply, key);
      case _ =>
    }
  }

  /** Until it is deleted, an object lives on and describes the same target. */
  lemma SpecNeverChanges(cfg: Config, s: State, l: Label, key: Key)
    requires Inv(cfg, s) && Enabled(cfg, s, l) && key in s.server.live && l != Remove(key)
    ensures var sv := Step(cfg, s, l).server; key in sv.live && sv.live[key].spec == s.server.live[key].spec
  {
    StepServer(cfg, s, l);
    ServerKeepsSpecs(cfg, s, l, key);
  }

  /** So its target and failure type are the same throughout its life. */
  lemma {:induction false} TargetForLife(cfg: Config, s: State, run: seq<Label>, key: Key)
    requires Inv(cfg, s) && ValidRun(cfg, s, run) && key in s.server.live && Remove(key) !in run
    ensures var sv := Exec(cfg, s, run).server; key in sv.live && sv.live[key].spec == s.server.live[key].spec
  {
    if run != [] {
      var front := run[..|run| - 1];
      TargetForLife(cfg, s, front, key);
      RunKeepsInv(cfg, s, front);
      SpecNeverChanges(cfg, Exec(cfg, s, front), run[|run| - 1], key);
    }
  }

  // ----- annotations of others -----

  /** Nobody else sets that annotation of that object, and the object is not deleted. */
  ghost predicate LeavesNote(run: seq<Label>, key: Key, name: string) {
    forall l | l in run :: l != Remove(key) && !(l.Annotating? && l.key == key && l.name == name)
  }

  function NoteOf(sv: Server, key: Key, name: string): Option<Annotation>
    requires key in sv.live
  {
    if name in sv.live[key].annotations then Some(sv.live[key].annotations[name]) else None
  }

  lemma PerformKeepsNotes(sv: Server, r: Request, key: Key, name: string)
    requires Consistent(sv) && Grounded(sv, r) && Admissible(sv, r) && key in sv.live && name != STAMP_KEY
    ensures key in Perform(sv, r).live && NoteOf(Perform(sv, r), key, name) == NoteOf(sv, key, name)
  {
    if r.UpdateRequest? {
      StoredIsMutationOfCurrent(sv, r);
    }
  }

  lemma ReplyKeepsNotes(sv: Server, f: InFlight, reply: Reply, key: Key, name: string)
    requires Consistent(sv) && Grounded(sv, f.request) && ReplyFits(sv, f.request, reply)
    requires key in sv.live && name != STAMP_KEY
    ensures key in AfterReply(sv, f, reply).live
    ensures NoteOf(AfterReply(sv, f, reply), key, name) == NoteOf(sv, key, name)
  {
    if Admissible(sv, f.request) {
      PerformKeepsNotes(sv, f.request, key, name);
    }
  }

  lemma StepKeepsNotes(cfg: Config, s: State, l: Label, key: Key, name: string)
    requires Inv(cfg, s) && Enabled(cfg, s, l) && key in s.server.live && name != STAMP_KEY
    requires LeavesNote([l], key, name)
    ensures key in ServerAfter(cfg, s, l).live
    ensures NoteOf(ServerAfter(cfg, s, l), key, name) == NoteOf(s.server, key, name)
  {
    assert l in [l];
    match l {
      case Landing(f) => PerformKeepsNotes(s.server, f.request, key, name);
      case CreateCall(w, reply) =>
        WireIsOk(cfg, s, s.workers[w]);
        ReplyKeepsNotes(s.server, WireOf(cfg, s.workers[w]), reply, key, name);
      case UpdateCall(w, reply) =>
        WireIsOk(cfg, s, s.workers[w]);
        ReplyKeepsNotes(s.server, WireOf(cfg, s.workers[w]), reply, key, name);
      case _ =>
    }
  }

  /**
    What someone else writes into an annotation of their own is never lost: over every run of any
    number of workers it stays, until its writer changes it or the object is deleted.
   */
  lemma {:induction false} NotesSurvive(cfg: Config, s: State, run: seq<Label>, key: Key, name: string)
    requires Inv(cfg, s) && ValidRun(cfg, s, run) && key in s.server.live && name != STAMP_KEY
    requires LeavesNote(run, key, name)
    ensures key in Exec(cfg, s, run).server.live
    ensures NoteOf(Exec(cfg, s, run).server, key, name) == NoteOf(s.server, key, name)
  {
    if run != [] {
      var front, l := run[..|run| - 1], run[|run| - 1];
      assert l in run && forall m | m in front :: m in run;
      NotesSurvive(cfg, s, front, key, name);
      RunKeepsInv(cfg, s, front);
      StepServer(cfg, Exec(cfg, s, front), l);
      StepKeepsNotes(cfg, Exec(cfg, s, front), l, key, name);
    }
  }
}

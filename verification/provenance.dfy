/**
  Where the contents of a stored diagnosis come from, in every run: each field of its status, each
  error message and each stamp is traced to the step of the run that first gave it.
  `internal/controller/pod_controller.go`, lines 63-180.
 */
module Provenance {
  import opened Wrappers
  import opened Detect
  import opened ApiServer
  import opened Machine
  import opened Invariants
  import opened Guarantees

  // ----- what the labels of a run say -----

  /** The job that worker `w` last set out for: the pod it read and what that is classified as. */
  ghost function JobOf(run: seq<Label>, w: nat): Option<Job> {
    if run == [] then None
    else
      var l := run[|run| - 1];
      if l.PodGet? && l.w == w then
        if l.pod.PodFound? && Classification(l.pod.pod).Some? then
          var f := Classification(l.pod.pod).value;
          Some(Job(l.pod.pod, f.failure, f.container))
        else None
      else JobOf(run[..|run| - 1], w)
  }

  /** The clock when it last checked the gates. */
  ghost function GateClock(cfg: Config, s: State, run: seq<Label>, w: nat): Option<Time>
    requires ValidRun(cfg, s, run)
    decreases |run|
  {
    if run == [] then None
    else
      var front := run[..|run| - 1];
      if run[|run| - 1] == CheckGate(w) then Some(Exec(cfg, s, front).now) else GateClock(cfg, s, front, w)
  }

  /** A step, taken after that run, from which a worker goes on to that mutation of that object. */
  ghost predicate Gives(cfg: Config, s: State, run: seq<Label>, l: Label, key: Key, op: Op)
    requires ValidRun(cfg, s, run)
  {
    && IsWorkerLabel(l) && JobOf(run, l.w).Some? && key == KeyOf(cfg, JobOf(run, l.w).value)
    && match op
       case MarkAnalyzing => l.CheckGate?
       case MarkError(m) => l == GatherCall(l.w, Some(m)) || l == Answer(l.w, Refusal(m))
       case Publish(_) => l.Answer? && l.answer.Diagnosed?
       case Stamp(at) => l.ReadClock? && at == Exec(cfg, s, run).now
  }

  ghost predicate WasGiven(cfg: Config, s: State, run: seq<Label>, key: Key, op: Op)
    requires ValidRun(cfg, s, run)
    decreases |run|
  {
    run != [] &&
    (var front := run[..|run| - 1];
     WasGiven(cfg, s, front, key, op) || Gives(cfg, s, front, run[|run| - 1], key, op))
  }

  // ----- what the workers know -----

  predicate HasOp(pc: Pc) {
    pc.Read? || pc.Write?
  }

  predicate IsPastGate(pc: Pc) {
    HasOp(pc) || pc.Gathering? || pc.Asking? || pc.Listening? || pc.Stamping?
  }

  /** The mutation that a step leads a worker to. */
  predicate LeadsTo(s: State, l: Label, op: Op) {
    match op
    case MarkAnalyzing => false
    case MarkError(m) => (l.GatherCall? && l.error == Some(m)) || (l.Answer? && l.answer == Refusal(m))
    case Publish(_) => l.Answer? && l.answer.Diagnosed?
    case Stamp(at) => l.ReadClock? && at == s.now
  }

  /** A worker goes on with its job, its gate clock and its mutation, or takes up the one it was led to. */
  predicate GoesOn(s: State, x: Worker, l: Label, y: Worker) {
    || y.pc.Idle?
    || (&& !x.pc.Idle? && y.job == x.job && y.since == x.since
        && (IsPastGate(y.pc) ==> IsPastGate(x.pc))
        && (HasOp(y.pc) ==> (HasOp(x.pc) && y.pc.op == x.pc.op) || LeadsTo(s, l, y.pc.op)))
  }

  lemma UpdateGoesOn(cfg: Config, s: State, w: nat, reply: Reply)
    requires Enabled(cfg, s, UpdateCall(w, reply))
    ensures GoesOn(s, s.workers[w], UpdateCall(w, reply), UpdateStep(cfg, s, w, reply).workers[w])
  {
  }

  lemma FreshGoesOn(cfg: Config, s: State, w: nat, read: ReadReply)
    requires Enabled(cfg, s, FreshGet(w, read))
    ensures GoesOn(s, s.workers[w], FreshGet(w, read), FreshStep(cfg, s, w, read).workers[w])
  {
  }

  lemma AnswerGoesOn(cfg: Config, s: State, w: nat, answer: AskReply)
    requires Enabled(cfg, s, Answer(w, answer))
    ensures GoesOn(s, s.workers[w], Answer(w, answer), AnswerStep(cfg, s, w, answer).workers[w])
  {
  }

  lemma MoverGoesOn(cfg: Config, s: State, l: Label)
    requires Enabled(cfg, s, l) && IsWorkerLabel(l) && !l.PodGet? && !l.CheckGate?
    ensures l.w < |Step(cfg, s, l).workers|
    ensures GoesOn(s, s.workers[l.w], l, Step(cfg, s, l).workers[l.w])
  {
    match l {
      case UpdateCall(w, reply) => UpdateGoesOn(cfg, s, w, reply);
      case FreshGet(w, read) => FreshGoesOn(cfg, s, w, read);
      case Answer(w, answer) => AnswerGoesOn(cfg, s, w, answer);
      case _ =>
    }
  }

  lemma PodSetsOut(cfg: Config, s: State, w: nat, reply: PodReply)
    requires Enabled(cfg, s, PodGet(w, reply))
    ensures var y := PodStep(cfg, s, w, reply).workers[w];
            y.pc.Idle? || (y.pc == CacheRead && reply.PodFound? && y.job.pod == reply.pod && IsClassified(y.job))
  {
  }

  lemma GateStarts(cfg: Config, s: State, w: nat)
    requires Enabled(cfg, s, CheckGate(w))
    ensures var x, y := s.workers[w], GateStep(cfg, s, w).workers[w];
            y.pc.Idle? || (y.job == x.job && y.since == s.now && y.pc == Read(MarkAnalyzing, 0))
  {
  }

  /** What a worker works with is what the run has given it. */
  ghost predicate IsKnown(cfg: Config, s: State, run: seq<Label>, w: nat, x: Worker)
    requires ValidRun(cfg, s, run)
  {
    && (!x.pc.Idle? ==> JobOf(run, w) == Some(x.job))
    && (IsPastGate(x.pc) ==> GateClock(cfg, s, run, w) == Some(x.since))
    && (HasOp(x.pc) ==> WasGiven(cfg, s, run, KeyOf(cfg, x.job), x.pc.op))
  }

  /** The run has another step. */
  ghost predicate OneMore(cfg: Config, s: State, run: seq<Label>, l: Label, more: seq<Label>) {
    && ValidRun(cfg, s, run) && ValidRun(cfg, s, more) && more == run + [l] && more[..|run|] == run
    && Enabled(cfg, Exec(cfg, s, run), l)
  }

  lemma GoingOnIsKnown(cfg: Config, s: State, run: seq<Label>, l: Label, more: seq<Label>, x: Worker, y: Worker)
    requires OneMore(cfg, s, run, l, more) && IsWorkerLabel(l) && !l.PodGet? && !l.CheckGate?
    requires IsKnown(cfg, s, run, l.w, x) && GoesOn(Exec(cfg, s, run), x, l, y)
    ensures IsKnown(cfg, s, more, l.w, y)
  {
    if HasOp(y.pc) && LeadsTo(Exec(cfg, s, run), l, y.pc.op) {
      assert Gives(cfg, s, run, l, KeyOf(cfg, x.job), y.pc.op);
    }
  }

  lemma SettingOutIsKnown(cfg: Config, s: State, run: seq<Label>, w: nat, reply: PodReply, more: seq<Label>)
    requires OneMore(cfg, s, run, PodGet(w, reply), more)
    ensures w < |Exec(cfg, s, more).workers| && IsKnown(cfg, s, more, w, Exec(cfg, s, more).workers[w])
  {
    PodSetsOut(cfg, Exec(cfg, s, run), w, reply);
  }

  lemma GatedIsKnown(cfg: Config, s: State, run: seq<Label>, w: nat, more: seq<Label>)
    requires OneMore(cfg, s, run, CheckGate(w), more) && IsKnown(cfg, s, run, w, Exec(cfg, s, run).workers[w])
    ensures w < |Exec(cfg, s, more).workers| && IsKnown(cfg, s, more, w, Exec(cfg, s, more).workers[w])
  {
    GateStarts(cfg, Exec(cfg, s, run), w);
  }

  lemma MoverIsKnown(cfg: Config, s: State, run: seq<Label>, l: Label, more: seq<Label>)
    requires OneMore(cfg, s, run, l, more) && IsWorkerLabel(l)
    requires IsKnown(cfg, s, run, l.w, Exec(cfg, s, run).workers[l.w])
    ensures l.w < |Exec(cfg, s, more).workers|
    ensures IsKnown(cfg, s, more, l.w, Exec(cfg, s, more).workers[l.w])
  {
    var mid := Exec(cfg, s, run);
    if l.PodGet? {
      SettingOutIsKnown(cfg, s, run, l.w, l.pod, more);
    } else if l.CheckGate? {
      GatedIsKnown(cfg, s, run, l.w, more);
    } else {
      MoverGoesOn(cfg, mid, l);
      GoingOnIsKnown(cfg, s, run, l, more, mid.workers[l.w], Exec(cfg, s, more).workers[l.w]);
    }
  }

  lemma OtherIsKnown(cfg: Config, s: State, run: seq<Label>, l: Label, more: seq<Label>, w: nat, x: Worker)
    requires OneMore(cfg, s, run, l, more) && Mover(l) != Some(w) && IsKnown(cfg, s, run, w, x)
    ensures IsKnown(cfg, s, more, w, x)
  {
  }

  // ----- what the server stores -----

  ghost predicate StatusExplained(cfg: Config, s: State, run: seq<Label>, key: Key, st: Status)
    requires ValidRun(cfg, s, run)
  {
    || (st.phase == "" && st.message == "")
    || (st.phase == "Analyzing" && st.message == "" && WasGiven(cfg, s, run, key, MarkAnalyzing))
    || (st.phase == "Ready" && st.message == "")
    || (st.phase == "Error" && WasGiven(cfg, s, run, key, MarkError(st.message)))
  }

  ghost predicate StampExplained(cfg: Config, s: State, run: seq<Label>, key: Key, note: Annotation)
    requires ValidRun(cfg, s, run)
  {
    note.Instant? && exists at :: WasGiven(cfg, s, run, key, Stamp(at)) && note.seconds == at / 1_000_000_000
  }

  ghost predicate VersionExplained(cfg: Config, s: State, run: seq<Label>, v: Version)
    requires ValidRun(cfg, s, run)
  {
    && StatusExplained(cfg, s, run, v.key, v.cd.status)
    && (STAMP_KEY in v.cd.annotations ==> StampExplained(cfg, s, run, v.key, v.cd.annotations[STAMP_KEY]))
  }

  ghost predicate RequestGiven(cfg: Config, s: State, run: seq<Label>, r: Request)
    requires ValidRun(cfg, s, run)
  {
    r.UpdateRequest? ==> WasGiven(cfg, s, run, r.key, r.op)
  }

  ghost predicate ServerExplained(cfg: Config, s: State, run: seq<Label>, sv: Server)
    requires ValidRun(cfg, s, run)
  {
    && (forall v | v in sv.versions :: VersionExplained(cfg, s, run, v))
    && (forall f | f in sv.pending :: RequestGiven(cfg, s, run, f.request))
  }

  /** What is carried out on an explained object leaves one. */
  lemma CarriedOutIsExplained(cfg: Config, s: State, run: seq<Label>, key: Key, op: Op,
                              before: ClusterDiagnosis, after: ClusterDiagnosis)
    requires ValidRun(cfg, s, run) && WasGiven(cfg, s, run, key, op)
    requires VersionExplained(cfg, s, run, Version(key, before)) && CarriedOut(op, before, after)
    ensures VersionExplained(cfg, s, run, Version(key, after))
  {
    if op.Stamp? {
      assert after.annotations[STAMP_KEY].seconds == op.at / 1_000_000_000;
    }
  }

  lemma PerformKeepsExplained(cfg: Config, s: State, run: seq<Label>, sv: Server, r: Request)
    requires ValidRun(cfg, s, run) && Consistent(sv) && Grounded(sv, r) && Admissible(sv, r)
    requires ServerExplained(cfg, s, run, sv) && RequestGiven(cfg, s, run, r)
    ensures ServerExplained(cfg, s, run, Perform(sv, r))
  {
    assert VersionExplained(cfg, s, run, Version(r.key, Stored(sv, r))) by {
      if r.UpdateRequest? {
        StoredIsMutationOfCurrent(sv, r);
        assert Version(r.key, sv.live[r.key]) in sv.versions;
        CarriedOutIsExplained(cfg, s, run, r.key, r.op, sv.live[r.key], Stored(sv, r));
      }
    }
  }

  lemma DeferKeepsExplained(cfg: Config, s: State, run: seq<Label>, sv: Server, f: InFlight)
    requires ValidRun(cfg, s, run) && ServerExplained(cfg, s, run, sv) && RequestGiven(cfg, s, run, f.request)
    ensures ServerExplained(cfg, s, run, Defer(sv, f))
  {
  }

  lemma ReplyKeepsExplained(cfg: Config, s: State, run: seq<Label>, sv: Server, f: InFlight, reply: Reply)
    requires ValidRun(cfg, s, run) && Consistent(sv) && Grounded(sv, f.request) && ReplyFits(sv, f.request, reply)
    requires ServerExplained(cfg, s, run, sv) && RequestGiven(cfg, s, run, f.request)
    ensures ServerExplained(cfg, s, run, AfterReply(sv, f, reply))
  {
    DeferKeepsExplained(cfg, s, run, sv, f);
    if Admissible(sv, f.request) {
      PerformKeepsExplained(cfg, s, run, sv, f.request);
    }
  }

  lemma AnnotateKeepsExplained(cfg: Config, s: State, run: seq<Label>, sv: Server, key: Key, name: string,
                               note: Annotation)
    requires ValidRun(cfg, s, run) && Consistent(sv) && key in sv.live && name != STAMP_KEY
    requires ServerExplained(cfg, s, run, sv)
    ensures ServerExplained(cfg, s, run, Annotate(sv, key, name, note))
  {
    assert VersionExplained(cfg, s, run, Version(key, sv.live[key]));
  }

  /** A worker that is known sends what it was given. */
  lemma WireIsGiven(cfg: Config, s: State, run: seq<Label>, w: nat, x: Worker)
    requires ValidRun(cfg, s, run) && IsKnown(cfg, s, run, w, x) && (x.pc.Creating? || x.pc.Write?)
    ensures RequestGiven(cfg, s, run, RequestOf(cfg, x))
  {
  }

  lemma StepKeepsExplained(cfg: Config, s: State, run: seq<Label>, l: Label)
    requires ValidRun(cfg, s, run) && Enabled(cfg, Exec(cfg, s, run), l)
    requires Inv(cfg, Exec(cfg, s, run)) && ServerExplained(cfg, s, run, Exec(cfg, s, run).server)
    requires IsWorkerLabel(l) ==> IsKnown(cfg, s, run, l.w, Exec(cfg, s, run).workers[l.w])
    ensures ServerExplained(cfg, s, run, ServerAfter(cfg, Exec(cfg, s, run), l))
  {
    var t := Exec(cfg, s, run);
    match l {
      case Annotating(key, name, note) => AnnotateKeepsExplained(cfg, s, run, t.server, key, name, note);
      case Landing(f) => PerformKeepsExplained(cfg, s, run, t.server, f.request);
      case Crash(w, late) =>
        if late {
          WireIsGiven(cfg, s, run, w, t.workers[w]);
          DeferKeepsExplained(cfg, s, run, t.server, WireOf(cfg, t.workers[w]));
        }
      case CreateCall(w, reply) =>
        WireIsOk(cfg, t, t.workers[w]);
        WireIsGiven(cfg, s, run, w, t.workers[w]);
        ReplyKeepsExplained(cfg, s, run, t.server, WireOf(cfg, t.workers[w]), reply);
      case UpdateCall(w, reply) =>
        WireIsOk(cfg, t, t.workers[w]);
        WireIsGiven(cfg, s, run, w, t.workers[w]);
        ReplyKeepsExplained(cfg, s, run, t.server, WireOf(cfg, t.workers[w]), reply);
      case _ =>
    }
  }

  lemma GivenStays(cfg: Config, s: State, run: seq<Label>, l: Label, more: seq<Label>)
    requires OneMore(cfg, s, run, l, more)
    ensures forall key, op | WasGiven(cfg, s, run, key, op) :: WasGiven(cfg, s, more, key, op)
  {
  }

  lemma StatusStaysExplained(cfg: Config, s: State, run: seq<Label>, l: Label, more: seq<Label>, v: Version)
    requires OneMore(cfg, s, run, l, more) && VersionExplained(cfg, s, run, v)
    ensures VersionExplained(cfg, s, more, v)
  {
    GivenStays(cfg, s, run, l, more);
  }

  lemma ServerStaysExplained(cfg: Config, s: State, run: seq<Label>, l: Label, more: seq<Label>, sv: Server)
    requires OneMore(cfg, s, run, l, more) && ServerExplained(cfg, s, run, sv)
    ensures ServerExplained(cfg, s, more, sv)
  {
    GivenStays(cfg, s, run, l, more);
    forall v | v in sv.versions ensures VersionExplained(cfg, s, more, v) {
      StatusStaysExplained(cfg, s, run, l, more, v);
    }
  }

  ghost predicate AllKnown(cfg: Config, s: State, run: seq<Label>)
    requires ValidRun(cfg, s, run)
  {
    forall w: nat | w < |Exec(cfg, s, run).workers| :: IsKnown(cfg, s, run, w, Exec(cfg, s, run).workers[w])
  }

  lemma AllStayKnown(cfg: Config, s: State, run: seq<Label>, l: Label, more: seq<Label>)
    requires OneMore(cfg, s, run, l, more) && AllKnown(cfg, s, run)
    ensures AllKnown(cfg, s, more)
  {
    var mid := Exec(cfg, s, run);
    StepFrame(cfg, mid, l);
    forall w: nat | w < |Exec(cfg, s, more).workers|
      ensures IsKnown(cfg, s, more, w, Exec(cfg, s, more).workers[w])
    {
      if Mover(l) == Some(w) {
        MoverIsKnown(cfg, s, run, l, more);
      } else {
        OtherIsKnown(cfg, s, run, l, more, w, mid.workers[w]);
      }
    }
  }

  lemma {:induction false} RunExplains(cfg: Config, start: Time, run: seq<Label>)
    requires ValidRun(cfg, Init(cfg, start), run)
    ensures AllKnown(cfg, Init(cfg, start), run)
    ensures ServerExplained(cfg, Init(cfg, start), run, Exec(cfg, Init(cfg, start), run).server)
  {
    var s := Init(cfg, start);
    if run != [] {
      var front, l := run[..|run| - 1], run[|run| - 1];
      RunExplains(cfg, start, front);
      InitHasInv(cfg, start);
      RunKeepsInv(cfg, s, front);
      assert OneMore(cfg, s, front, l, run);
      AllStayKnown(cfg, s, front, l, run);
      StepKeepsExplained(cfg, s, front, l);
      StepServer(cfg, Exec(cfg, s, front), l);
      ServerStaysExplained(cfg, s, front, l, run, Exec(cfg, s, run).server);
    }
  }

  // ----- what a reader of the objects can conclude -----

  /** At a step of the run a worker got that answer, about the pod it had read, after the gates it passed then. */
  ghost predicate WasHeard(cfg: Config, s: State, run: seq<Label>, a: Answered)
    requires ValidRun(cfg, s, run)
    decreases |run|
  {
    run != [] &&
    (var front, l := run[..|run| - 1], run[|run| - 1];
     || WasHeard(cfg, s, front, a)
     || (&& l.Answer? && l.answer == Diagnosed(a.diagnosis)
         && JobOf(front, l.w) == Some(a.job) && GateClock(cfg, s, front, l.w) == Some(a.since)))
  }

  lemma NewAnswers(cfg: Config, s: State, l: Label, a: Answered)
    requires Enabled(cfg, s, l) && a in Step(cfg, s, l).answers && a !in s.answers
    ensures l.Answer? && l.answer == Diagnosed(a.diagnosis)
    ensures a.job == s.workers[l.w].job && a.since == s.workers[l.w].since && s.workers[l.w].pc.Listening?
  {
  }

  /** Every recorded answer is one that a worker got. */
  lemma {:induction false} AnswersWereHeard(cfg: Config, start: Time, run: seq<Label>)
    requires ValidRun(cfg, Init(cfg, start), run)
    ensures forall a | a in Exec(cfg, Init(cfg, start), run).answers :: WasHeard(cfg, Init(cfg, start), run, a)
  {
    if run != [] {
      var front, l := run[..|run| - 1], run[|run| - 1];
      var s := Init(cfg, start);
      AnswersWereHeard(cfg, start, front);
      RunExplains(cfg, start, front);
      forall a | a in Exec(cfg, s, run).answers ensures WasHeard(cfg, s, run, a) {
        if a !in Exec(cfg, s, front).answers {
          NewAnswers(cfg, Exec(cfg, s, front), l, a);
        }
      }
    }
  }

  /** The status shows an answer that a worker got for that object, field by field. */
  ghost predicate ShowsHeard(cfg: Config, s: State, run: seq<Label>, key: Key, st: Status)
    requires ValidRun(cfg, s, run)
  {
    exists a | a in Exec(cfg, s, run).answers ::
      WasHeard(cfg, s, run, a) && KeyOf(cfg, a.job) == key && Shows(cfg, st, a.job, a.since, a.diagnosis)
  }

  /**
    In every run, what an object says of a diagnosis is blank or, field by field, one answer that a
    worker got for that object, with what it had read of the pod and the clock of its gates.
   */
  lemma DiagnosisWasHeard(cfg: Config, start: Time, run: seq<Label>, key: Key)
    requires ValidRun(cfg, Init(cfg, start), run)
    requires key in Exec(cfg, Init(cfg, start), run).server.live
    ensures var st := Exec(cfg, Init(cfg, start), run).server.live[key].status;
            && (|| ShowsHeard(cfg, Init(cfg, start), run, key, st)
                || (&& st.rootCause == st.severity == st.recommendedFix == st.model == st.observedFingerprint == ""
                    && st.lastUpdated.None? && st.resourceUsage.None? && st.remediations == []))
            && (st.phase == "Ready" ==> ShowsHeard(cfg, Init(cfg, start), run, key, st))
  {
    var s := Exec(cfg, Init(cfg, start), run);
    var st := s.server.live[key].status;
    BundleComesWhole(cfg, start, run, key);
    AnswersWereHeard(cfg, start, run);
  }

  /**
    In every run, an object in error shows a gather error or a refusal that a worker got for that
    object, and no other object shows a message.
   */
  lemma ErrorWasHeard(cfg: Config, start: Time, run: seq<Label>, key: Key)
    requires ValidRun(cfg, Init(cfg, start), run)
    requires key in Exec(cfg, Init(cfg, start), run).server.live
    ensures var st := Exec(cfg, Init(cfg, start), run).server.live[key].status;
            if st.phase == "Error" then WasGiven(cfg, Init(cfg, start), run, key, MarkError(st.message))
            else st.message == ""
    ensures Exec(cfg, Init(cfg, start), run).server.live[key].status.phase == "Analyzing" ==>
              WasGiven(cfg, Init(cfg, start), run, key, MarkAnalyzing)
  {
    var s := Exec(cfg, Init(cfg, start), run);
    RunExplains(cfg, start, run);
    InitHasInv(cfg, start);
    RunKeepsInv(cfg, Init(cfg, start), run);
    assert VersionExplained(cfg, Init(cfg, start), run, Version(key, s.server.live[key]));
  }

  /** In every run, a stamp is a second that a worker read from the clock on its way to stamp that object. */
  lemma StampWasRead(cfg: Config, start: Time, run: seq<Label>, key: Key)
    requires ValidRun(cfg, Init(cfg, start), run)
    requires key in Exec(cfg, Init(cfg, start), run).server.live
    ensures var notes := Exec(cfg, Init(cfg, start), run).server.live[key].annotations;
            "health.k8sai.io/last-llm-call" in notes ==>
              StampExplained(cfg, Init(cfg, start), run, key, notes["health.k8sai.io/last-llm-call"])
  {
    var s := Exec(cfg, Init(cfg, start), run);
    RunExplains(cfg, start, run);
    InitHasInv(cfg, start);
    RunKeepsInv(cfg, Init(cfg, start), run);
    assert VersionExplained(cfg, Init(cfg, start), run, Version(key, s.server.live[key]));
  }
}

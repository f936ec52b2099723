/**
  Convergence: one undisturbed, fault-free reconcile of a failing pod leads from any reachable
  state to a ready diagnosis for the container state seen, and later ones change nothing.
  `internal/controller/pod_controller.go`, lines 63-169.
 */
module Progress {
  import opened Wrappers
  import opened Detect
  import opened DiagnosisJson
  import opened ApiServer
  import opened Machine
  import opened Invariants

  /** The visit of one worker to one pod view, and the answer the model would give about it. */
  datatype Visit = Visit(w: nat, pod: Pod, finding: Finding, diagnosis: Diagnosis)
  {
    function Job(): Job {
      Machine.Job(pod, finding.failure, finding.container)
    }
  }

  ghost predicate VisitOk(cfg: Config, s: State, v: Visit) {
    && v.w < |s.workers|
    && Classification(v.pod) == Some(v.finding)
    && cfg.legit(v.diagnosis)
  }

  /** What a reader sees when nothing fails: the object as it is, or its absence. */
  function TrueRead(s: State, key: Key): ReadReply {
    if key in s.server.live then Found(s.server.live[key]) else Absent
  }

  /** The worker's next step when nothing fails. */
  function CleanLabel(cfg: Config, s: State, v: Visit): Label
    requires v.w < |s.workers|
  {
    var key := KeyOf(cfg, v.Job());
    match s.workers[v.w].pc
    case Idle => PodGet(v.w, PodFound(v.pod))
    case CacheRead => CacheGet(v.w, TrueRead(s, key))
    case Creating => CreateCall(v.w, Accepted)
    case Recheck => FreshGet(v.w, TrueRead(s, key))
    case Reread => FreshGet(v.w, TrueRead(s, key))
    case Gate(_) => CheckGate(v.w)
    case Read(_, _) => FreshGet(v.w, TrueRead(s, key))
    case Write(_, _, _) => UpdateCall(v.w, Accepted)
    case Gathering => GatherCall(v.w, None)
    case Asking => Ask(v.w)
    case Listening => Answer(v.w, Diagnosed(v.diagnosis))
    case Stamping => ReadClock(v.w)
  }

  /** A run in which only that worker moves, without faults, while time passes. */
  ghost predicate Clean(cfg: Config, s: State, v: Visit, run: seq<Label>)
    requires ValidRun(cfg, s, run)
    decreases |run|
  {
    run == [] ||
    (var front, l := run[..|run| - 1], run[|run| - 1];
     && Clean(cfg, s, v, front)
     && v.w < |Exec(cfg, s, front).workers|
     && (l.Tick? || l == CleanLabel(cfg, Exec(cfg, s, front), v)))
  }

  /** As above, within a single reconcile: the worker never sets out a second time. */
  ghost predicate CleanVisit(cfg: Config, s: State, v: Visit, run: seq<Label>)
    requires ValidRun(cfg, s, run)
    decreases |run|
  {
    run == [] ||
    (var front, l := run[..|run| - 1], run[|run| - 1];
     && CleanVisit(cfg, s, v, front)
     && v.w < |Exec(cfg, s, front).workers|
     && (l.Tick? || (l == CleanLabel(cfg, Exec(cfg, s, front), v) && !Exec(cfg, s, front).workers[v.w].pc.Idle?)))
  }

  // ----- where the visit stands -----

  predicate CoolingDown(cd: ClusterDiagnosis, now: Time) {
    && STAMP_KEY in cd.annotations && cd.annotations[STAMP_KEY].Instant?
    && now - cd.annotations[STAMP_KEY].seconds * SECOND < MIN_BETWEEN_LLM
  }

  /** The cooldown does not stand in the way of a new diagnosis. */
  predicate MayProceed(s: State, key: Key, fingerprint: string) {
    key in s.server.live ==>
      IsReadyFor(s.server.live[key], fingerprint) || !CoolingDown(s.server.live[key], s.now)
  }

  ghost predicate OnTrack(cfg: Config, s: State, v: Visit) {
    && VisitOk(cfg, s, v)
    && var x, key, fp := s.workers[v.w], KeyOf(cfg, v.Job()), FingerprintOf(v.Job());
    && x.job == v.Job()
    && (x.pc.Creating? ==> key !in s.server.live)
    && (x.pc.CacheRead? || x.pc.Creating? || x.pc.Reread? || x.pc.Gate? ==> MayProceed(s, key, fp))
    && !x.pc.Recheck?
    && (!x.pc.CacheRead? && !x.pc.Creating? ==> key in s.server.live)
    && (x.pc.Gate? ==> x.pc.seen == s.server.live[key])
    && (x.pc.Write? ==> x.pc.base == s.server.live[key])
    && (x.pc.Read? || x.pc.Write? ==>
          && !x.pc.op.MarkError?
          && (x.pc.op.Publish? ==> x.pc.op.bundle.fingerprint == fp)
          && (x.pc.op.Stamp? ==> IsReadyFor(s.server.live[key], fp)))
    && (x.pc.Stamping? || x.pc.Idle? ==> IsReadyFor(s.server.live[key], fp))
    && (x.pc.Idle? ==> x.exit == Success)
  }

  function LoopMeasure(op: Op): nat {
    match op
    case MarkAnalyzing => 10
    case Publish(_) => 5
    case MarkError(_) => 5
    case Stamp(_) => 2
  }

  /** How many more steps the visit can take. */
  function Measure(pc: Pc): nat {
    match pc
    case Idle => 0
    case CacheRead => 15
    case Creating => 14
    case Recheck => 14
    case Reread => 13
    case Gate(_) => 12
    case Read(op, _) => LoopMeasure(op) + 1
    case Write(op, _, _) => LoopMeasure(op)
    case Gathering => 9
    case Asking => 8
    case Listening => 7
    case Stamping => 4
  }

  lemma TickKeepsOnTrack(cfg: Config, s: State, v: Visit, d: nat)
    requires OnTrack(cfg, s, v)
    ensures OnTrack(cfg, Step(cfg, s, Tick(d)), v)
  {
  }

  lemma SetOut(cfg: Config, s: State, v: Visit)
    requires VisitOk(cfg, s, v) && s.workers[v.w].pc.Idle?
    requires MayProceed(s, KeyOf(cfg, v.Job()), FingerprintOf(v.Job()))
    ensures Enabled(cfg, s, CleanLabel(cfg, s, v))
    ensures OnTrack(cfg, Step(cfg, s, CleanLabel(cfg, s, v)), v)
    ensures Step(cfg, s, CleanLabel(cfg, s, v)).workers[v.w].pc.CacheRead?
  {
  }

  lemma TrueReadFits(cfg: Config, s: State, key: Key)
    requires Inv(cfg, s)
    ensures forall uncached :: ReadFits(cfg, s.server, key, uncached, TrueRead(s, key))
  {
    if key in s.server.live {
      assert Version(key, s.server.live[key]) in s.server.versions;
    }
  }

  lemma CleanIsEnabled(cfg: Config, s: State, v: Visit)
    requires Inv(cfg, s) && OnTrack(cfg, s, v) && !s.workers[v.w].pc.Idle?
    ensures Enabled(cfg, s, CleanLabel(cfg, s, v))
  {
    TrueReadFits(cfg, s, KeyOf(cfg, v.Job()));
  }

  /** The step leads to a place that is on track and closer to the end. */
  ghost predicate Advances(cfg: Config, s: State, v: Visit, t: State) {
    && OnTrack(cfg, s, v)
    && OnTrack(cfg, t, v) && Measure(t.workers[v.w].pc) < Measure(s.workers[v.w].pc)
  }

  lemma CacheAdvances(cfg: Config, s: State, v: Visit, read: ReadReply)
    requires OnTrack(cfg, s, v) && s.workers[v.w].pc.CacheRead?
    requires read == TrueRead(s, KeyOf(cfg, v.Job())) && Enabled(cfg, s, CacheGet(v.w, read))
    ensures Advances(cfg, s, v, CacheStep(cfg, s, v.w, read))
  {
  }

  lemma CreateAdvances(cfg: Config, s: State, v: Visit)
    requires OnTrack(cfg, s, v) && s.workers[v.w].pc.Creating?
    requires Enabled(cfg, s, CreateCall(v.w, Accepted))
    ensures Advances(cfg, s, v, CreateStep(cfg, s, v.w, Accepted))
  {
  }

  lemma ReadAdvances(cfg: Config, s: State, v: Visit, read: ReadReply)
    requires OnTrack(cfg, s, v) && (s.workers[v.w].pc.Reread? || s.workers[v.w].pc.Read?)
    requires read == TrueRead(s, KeyOf(cfg, v.Job())) && Enabled(cfg, s, FreshGet(v.w, read))
    ensures Advances(cfg, s, v, FreshStep(cfg, s, v.w, read))
  {
  }

  lemma GateAdvances(cfg: Config, s: State, v: Visit)
    requires OnTrack(cfg, s, v) && s.workers[v.w].pc.Gate? && Enabled(cfg, s, CheckGate(v.w))
    ensures Advances(cfg, s, v, GateStep(cfg, s, v.w))
  {
  }

  lemma GatherAdvances(cfg: Config, s: State, v: Visit)
    requires OnTrack(cfg, s, v) && s.workers[v.w].pc.Gathering?
    ensures Advances(cfg, s, v, Goto(s, v.w, Asking))
  {
  }

  lemma AskAdvances(cfg: Config, s: State, v: Visit)
    requires OnTrack(cfg, s, v) && s.workers[v.w].pc.Asking?
    ensures Advances(cfg, s, v, Goto(s, v.w, Listening))
  {
  }

  lemma AnswerAdvances(cfg: Config, s: State, v: Visit)
    requires OnTrack(cfg, s, v) && s.workers[v.w].pc.Listening?
    requires Enabled(cfg, s, Answer(v.w, Diagnosed(v.diagnosis)))
    ensures Advances(cfg, s, v, AnswerStep(cfg, s, v.w, Diagnosed(v.diagnosis)))
  {
  }

  lemma ClockAdvances(cfg: Config, s: State, v: Visit)
    requires OnTrack(cfg, s, v) && s.workers[v.w].pc.Stamping?
    ensures Advances(cfg, s, v, EnterLoop(s, v.w, Stamp(s.now)))
  {
  }

  /** The update that is accepted stores the mutation of the current object. */
  lemma AcceptedUpdate(cfg: Config, s: State, v: Visit)
    requires Inv(cfg, s) && OnTrack(cfg, s, v) && s.workers[v.w].pc.Write?
    requires Enabled(cfg, s, UpdateCall(v.w, Accepted))
    ensures var key, t := KeyOf(cfg, v.Job()), UpdateStep(cfg, s, v.w, Accepted);
            && key in t.server.live
            && t.server.live[key] == Mutate(s.workers[v.w].pc.op, s.server.live[key]).(rev := s.server.rev + 1)
  {
    WireIsOk(cfg, s, s.workers[v.w]);
    StoredIsMutationOfCurrent(s.server, RequestOf(cfg, s.workers[v.w]));
  }

  lemma PublishMakesReady(b: Bundle, cd: ClusterDiagnosis, rev: nat)
    ensures IsReadyFor(Mutate(Publish(b), cd).(rev := rev), b.fingerprint)
  {
  }

  lemma StampKeepsReady(at: Time, cd: ClusterDiagnosis, rev: nat, fingerprint: string)
    requires IsReadyFor(cd, fingerprint)
    ensures IsReadyFor(Mutate(Stamp(at), cd).(rev := rev), fingerprint)
  {
  }

  /** Where the worker is after an accepted update. */
  lemma AfterAccepted(cfg: Config, s: State, w: nat)
    requires Enabled(cfg, s, UpdateCall(w, Accepted)) && !s.workers[w].pc.op.MarkError?
    ensures var x, y, op := s.workers[w], UpdateStep(cfg, s, w, Accepted).workers[w], s.workers[w].pc.op;
            && y.job == x.job
            && (op.MarkAnalyzing? ==> y.pc == Gathering)
            && (op.Publish? ==> y.pc == Stamping)
            && (op.Stamp? ==> y.pc == Idle && y.exit == Success)
  {
  }

  /** A publish and a stamp leave the diagnosis ready. */
  lemma MutationMakesReady(cfg: Config, s: State, v: Visit, rev: nat)
    requires OnTrack(cfg, s, v) && s.workers[v.w].pc.Write? && !s.workers[v.w].pc.op.MarkAnalyzing?
    ensures var op, cd := s.workers[v.w].pc.op, s.server.live[KeyOf(cfg, v.Job())];
            IsReadyFor(Mutate(op, cd).(rev := rev), FingerprintOf(v.Job()))
  {
    var op, cd := s.workers[v.w].pc.op, s.server.live[KeyOf(cfg, v.Job())];
    if op.Publish? {
      PublishMakesReady(op.bundle, cd, rev);
    } else {
      StampKeepsReady(op.at, cd, rev, FingerprintOf(v.Job()));
    }
  }

  lemma MarkAdvances(cfg: Config, s: State, v: Visit)
    requires OnTrack(cfg, s, v) && s.workers[v.w].pc.Write? && s.workers[v.w].pc.op.MarkAnalyzing?
    requires Enabled(cfg, s, UpdateCall(v.w, Accepted))
    ensures Advances(cfg, s, v, UpdateStep(cfg, s, v.w, Accepted))
  {
    AfterAccepted(cfg, s, v.w);
  }

  lemma ReadyAdvances(cfg: Config, s: State, v: Visit)
    requires OnTrack(cfg, s, v) && s.workers[v.w].pc.Write? && !s.workers[v.w].pc.op.MarkAnalyzing?
    requires Enabled(cfg, s, UpdateCall(v.w, Accepted))
    requires var key, sv := KeyOf(cfg, v.Job()), UpdateStep(cfg, s, v.w, Accepted).server;
             key in sv.live && IsReadyFor(sv.live[key], FingerprintOf(v.Job()))
    ensures Advances(cfg, s, v, UpdateStep(cfg, s, v.w, Accepted))
  {
    AfterAccepted(cfg, s, v.w);
  }

  lemma UpdateAdvances(cfg: Config, s: State, v: Visit)
    requires Inv(cfg, s) && OnTrack(cfg, s, v) && s.workers[v.w].pc.Write?
    requires Enabled(cfg, s, UpdateCall(v.w, Accepted))
    ensures Advances(cfg, s, v, UpdateStep(cfg, s, v.w, Accepted))
  {
    if s.workers[v.w].pc.op.MarkAnalyzing? {
      MarkAdvances(cfg, s, v);
    } else {
      AcceptedUpdate(cfg, s, v);
      MutationMakesReady(cfg, s, v, s.server.rev + 1);
      ReadyAdvances(cfg, s, v);
    }
  }

  lemma FirstStepsAdvance(cfg: Config, s: State, v: Visit)
    requires OnTrack(cfg, s, v) && Enabled(cfg, s, CleanLabel(cfg, s, v))
    requires var pc := s.workers[v.w].pc; pc.CacheRead? || pc.Creating? || pc.Reread? || pc.Gate? || pc.Read?
    ensures Advances(cfg, s, v, Step(cfg, s, CleanLabel(cfg, s, v)))
  {
    match s.workers[v.w].pc {
      case CacheRead => CacheAdvances(cfg, s, v, TrueRead(s, KeyOf(cfg, v.Job())));
      case Creating => CreateAdvances(cfg, s, v);
      case Gate(_) => GateAdvances(cfg, s, v);
      case _ => ReadAdvances(cfg, s, v, TrueRead(s, KeyOf(cfg, v.Job())));
    }
  }

  lemma ModelStepAdvances(cfg: Config, s: State, v: Visit)
    requires OnTrack(cfg, s, v) && Enabled(cfg, s, CleanLabel(cfg, s, v))
    requires var pc := s.workers[v.w].pc; pc.Gathering? || pc.Asking? || pc.Listening? || pc.Stamping?
    ensures Advances(cfg, s, v, Step(cfg, s, CleanLabel(cfg, s, v)))
  {
    match s.workers[v.w].pc {
      case Gathering => GatherAdvances(cfg, s, v);
      case Asking => AskAdvances(cfg, s, v);
      case Listening => AnswerAdvances(cfg, s, v);
      case _ => ClockAdvances(cfg, s, v);
    }
  }

  /** Each fault-free step stays on track and brings the end closer. */
  lemma CleanStepAdvances(cfg: Config, s: State, v: Visit)
    requires Inv(cfg, s) && OnTrack(cfg, s, v) && !s.workers[v.w].pc.Idle?
    requires Enabled(cfg, s, CleanLabel(cfg, s, v))
    ensures Advances(cfg, s, v, Step(cfg, s, CleanLabel(cfg, s, v)))
  {
    match s.workers[v.w].pc {
      case Write(_, _, _) => UpdateAdvances(cfg, s, v);
      case Gathering => ModelStepAdvances(cfg, s, v);
      case Asking => ModelStepAdvances(cfg, s, v);
      case Listening => ModelStepAdvances(cfg, s, v);
      case Stamping => ModelStepAdvances(cfg, s, v);
      case _ => FirstStepsAdvance(cfg, s, v);
    }
  }

  lemma {:induction false} CleanRunOnTrack(cfg: Config, s: State, v: Visit, run: seq<Label>)
    requires Inv(cfg, s) && OnTrack(cfg, s, v) && ValidRun(cfg, s, run) && CleanVisit(cfg, s, v, run)
    ensures OnTrack(cfg, Exec(cfg, s, run), v)
  {
    if run != [] {
      var front, l := run[..|run| - 1], run[|run| - 1];
      var mid := Exec(cfg, s, front);
      CleanRunOnTrack(cfg, s, v, front);
      RunKeepsInv(cfg, s, front);
      if l.Tick? {
        TickKeepsOnTrack(cfg, mid, v, l.d);
      } else {
        CleanStepAdvances(cfg, mid, v);
      }
    }
  }

  // ----- convergence -----

  /** The worker sets out for that pod view, which nothing forbids to diagnose. */
  ghost predicate SetsOut(cfg: Config, s: State, v: Visit, t: State) {
    && Reachable(cfg, s) && VisitOk(cfg, s, v) && s.workers[v.w].pc.Idle?
    && MayProceed(s, KeyOf(cfg, v.Job()), FingerprintOf(v.Job()))
    && Enabled(cfg, s, CleanLabel(cfg, s, v)) && t == Step(cfg, s, CleanLabel(cfg, s, v))
  }

  lemma SettingOutIsOnTrack(cfg: Config, s: State, v: Visit, t: State)
    requires SetsOut(cfg, s, v, t)
    ensures Inv(cfg, t) && OnTrack(cfg, t, v) && !t.workers[v.w].pc.Idle?
  {
    ReachableHasInv(cfg, s);
    StepKeepsInv(cfg, s, CleanLabel(cfg, s, v));
    SetOut(cfg, s, v);
  }

  /** The visit, fault-free all along, is over in state `u`. */
  ghost predicate Ends(cfg: Config, t: State, v: Visit, run: seq<Label>, u: State) {
    && ValidRun(cfg, t, run) && CleanVisit(cfg, t, v, run) && u == Exec(cfg, t, run)
    && v.w < |u.workers| && u.workers[v.w].pc.Idle?
  }

  /**
    From any reachable state, be the object missing, abandoned in Analyzing, in Error or ready for
    an older state: when a fault-free visit ends, the diagnosis is ready for the state it saw.
   */
  lemma CleanVisitConverges(cfg: Config, s: State, v: Visit, t: State, run: seq<Label>, u: State)
    requires SetsOut(cfg, s, v, t) && Ends(cfg, t, v, run, u)
    ensures var key := KeyOf(cfg, v.Job());
            key in u.server.live && IsReadyFor(u.server.live[key], FingerprintOf(v.Job()))
    ensures u.workers[v.w].exit == Success
  {
    SettingOutIsOnTrack(cfg, s, v, t);
    CleanRunOnTrack(cfg, t, v, run);
  }

  /** Such a visit never gets stuck: from every point of it the end is reached. */
  lemma {:induction false} CleanVisitEnds(cfg: Config, s: State, v: Visit) returns (run: seq<Label>)
    requires Inv(cfg, s) && OnTrack(cfg, s, v)
    ensures ValidRun(cfg, s, run) && Ends(cfg, s, v, run, Exec(cfg, s, run))
    ensures |run| <= Measure(s.workers[v.w].pc)
    decreases Measure(s.workers[v.w].pc)
  {
    if s.workers[v.w].pc.Idle? {
      run := [];
    } else {
      var l := CleanLabel(cfg, s, v);
      CleanIsEnabled(cfg, s, v);
      CleanStepAdvances(cfg, s, v);
      StepKeepsInv(cfg, s, l);
      var t := Step(cfg, s, l);
      var rest := CleanVisitEnds(cfg, t, v);
      run := [l] + rest;
      Prepend(cfg, s, v, l, rest);
    }
  }

  lemma {:induction false} Prepend(cfg: Config, s: State, v: Visit, l: Label, rest: seq<Label>)
    requires v.w < |s.workers| && !s.workers[v.w].pc.Idle?
    requires l == CleanLabel(cfg, s, v) && Enabled(cfg, s, l)
    requires ValidRun(cfg, Step(cfg, s, l), rest) && CleanVisit(cfg, Step(cfg, s, l), v, rest)
    ensures ValidRun(cfg, s, [l] + rest) && CleanVisit(cfg, s, v, [l] + rest)
    ensures Exec(cfg, s, [l] + rest) == Exec(cfg, Step(cfg, s, l), rest)
  {
    var run := [l] + rest;
    if rest == [] {
      SnocRun(cfg, s, [], l);
      assert run == [] + [l] && run[..|run| - 1] == [];
    } else {
      var front := rest[..|rest| - 1];
      Prepend(cfg, s, v, l, front);
      assert run[..|run| - 1] == [l] + front;
    }
  }

  // ----- nothing to do -----

  /** The diagnosis is ready for that pod view, and the visiting worker is not past the gate. */
  ghost predicate Settled(cfg: Config, s: State, v: Visit) {
    && VisitOk(cfg, s, v)
    && var x, key := s.workers[v.w], KeyOf(cfg, v.Job());
    && key in s.server.live && IsReadyFor(s.server.live[key], FingerprintOf(v.Job()))
    && (x.pc.Idle? || (x.job == v.Job() && (x.pc.CacheRead? || x.pc == Gate(s.server.live[key]))))
  }

  /** No write, no late write, no model call, no retry loop. */
  predicate SameWorld(s: State, t: State) {
    t.server == s.server && t.answers == s.answers && t.calls == s.calls
  }

  lemma CleanStaysSettled(cfg: Config, s: State, v: Visit, l: Label)
    requires Settled(cfg, s, v) && Enabled(cfg, s, l) && (l.Tick? || l == CleanLabel(cfg, s, v))
    ensures Settled(cfg, Step(cfg, s, l), v) && SameWorld(s, Step(cfg, s, l)) && !l.Ask?
  {
  }

  /** Settled as before, and nothing was written or asked on the way. */
  ghost predicate StillSettled(cfg: Config, s: State, t: State, v: Visit, run: seq<Label>) {
    Settled(cfg, t, v) && SameWorld(s, t) && forall l | l in run :: !l.Ask?
  }

  lemma StaysSettled(cfg: Config, s: State, t: State, v: Visit, run: seq<Label>, l: Label)
    requires StillSettled(cfg, s, t, v, run)
    requires Enabled(cfg, t, l) && (l.Tick? || l == CleanLabel(cfg, t, v))
    ensures StillSettled(cfg, s, Step(cfg, t, l), v, run + [l])
  {
    CleanStaysSettled(cfg, t, v, l);
  }

  /** However many fault-free visits to the same pod view follow, they write and ask nothing. */
  lemma {:induction false} SettledVisitsDoNothing(cfg: Config, s: State, v: Visit, run: seq<Label>)
    requires Settled(cfg, s, v) && ValidRun(cfg, s, run) && Clean(cfg, s, v, run)
    ensures StillSettled(cfg, s, Exec(cfg, s, run), v, run)
  {
    if run != [] {
      var front, l := run[..|run| - 1], run[|run| - 1];
      assert run == front + [l];
      SettledVisitsDoNothing(cfg, s, v, front);
      StaysSettled(cfg, s, Exec(cfg, s, front), v, front, l);
    }
  }

  /** A converged visit leaves a settled state behind. */
  lemma ConvergedIsSettled(cfg: Config, s: State, v: Visit, t: State, run: seq<Label>, u: State)
    requires SetsOut(cfg, s, v, t) && Ends(cfg, t, v, run, u)
    ensures Settled(cfg, u, v)
  {
    SettingOutIsOnTrack(cfg, s, v, t);
    CleanRunOnTrack(cfg, t, v, run);
  }
}

/**
  What a carried-out stamp guarantees, for any number of workers, and when exactly a further model
  call is possible: `internal/controller/pod_controller.go`, lines 118-167.
 */
module AfterStamp {
  import opened Wrappers
  import opened ApiServer
  import opened Machine
  import opened Invariants
  import opened Refinement
  import opened SettledCalls
  import opened Cooldown
  import opened Paths

  // ----- after a stamp -----

  /** The stored stamp, if there is one. */
  function StampOf(sv: Server, key: Key): Option<Annotation>
    requires key in sv.live
  {
    if STAMP_KEY in sv.live[key].annotations then Some(sv.live[key].annotations[STAMP_KEY]) else None
  }

  predicate IsNewer(note: Annotation, bound: Time) {
    note.Instant? && note.seconds * SECOND > bound
  }

  /** A write of this mutation leaves no stamp that is not newer than `bound`. */
  predicate OpIsNewer(op: Op, bound: Time) {
    op.Stamp? ==> IsNewer(Instant(op.at / SECOND), bound)
  }

  /** A stamp taken now, cut to whole seconds, is newer than `bound`; later ones are as well. */
  predicate ClockIsNewer(now: Time, bound: Time) {
    (now / SECOND) * SECOND > bound
  }

  ghost predicate WiresAreNewer(sv: Server, key: Key, bound: Time) {
    forall f | f in sv.pending && f.request.UpdateRequest? && f.request.key == key ::
      Dead(sv, f.request) || OpIsNewer(f.request.op, bound)
  }

  predicate WorkerIsNewer(cfg: Config, x: Worker, key: Key, bound: Time) {
    KeyOf(cfg, x.job) == key && (x.pc.Read? || x.pc.Write?) ==> OpIsNewer(x.pc.op, bound)
  }

  /** No stamp on its way to that object is older than `bound`, and none taken from now on will be. */
  ghost predicate OnlyNewerStamps(cfg: Config, s: State, key: Key, bound: Time) {
    && ClockIsNewer(s.now, bound)
    && WiresAreNewer(s.server, key, bound)
    && (forall i | 0 <= i < |s.workers| :: WorkerIsNewer(cfg, s.workers[i], key, bound))
  }

  ghost predicate NobodyArmed(cfg: Config, s: State, key: Key) {
    forall i | 0 <= i < |s.workers| :: !Armed(cfg, s.workers[i], key)
  }

  // what a step does to the stamps on their way

  lemma PendingStaysNewer(cfg: Config, s: State, l: Label, key: Key, bound: Time)
    requires Enabled(cfg, s, l) && OnlyNewerStamps(cfg, s, key, bound)
    ensures WiresAreNewer(ServerAfter(cfg, s, l), key, bound)
  {
    var sv := ServerAfter(cfg, s, l);
    forall f | f in sv.pending && f.request.UpdateRequest? && f.request.key == key
      ensures Dead(sv, f.request) || OpIsNewer(f.request.op, bound)
    {
      if f !in s.server.pending {
        NewWires(cfg, s, l, f);
        assert WorkerIsNewer(cfg, s.workers[l.w], key, bound);
      } else if Dead(s.server, f.request) {
        ServerStepKeepsDead(cfg, s, l, f.request);
      }
    }
  }

  lemma FreshStaysNewer(cfg: Config, s: State, w: nat, read: ReadReply, key: Key, bound: Time)
    requires Enabled(cfg, s, FreshGet(w, read)) && WorkerIsNewer(cfg, s.workers[w], key, bound)
    ensures WorkerIsNewer(cfg, FreshStep(cfg, s, w, read).workers[w], key, bound)
  {
  }

  lemma MoverStaysNewer(cfg: Config, s: State, l: Label, key: Key, bound: Time)
    requires Enabled(cfg, s, l) && IsWorkerLabel(l)
    requires WorkerIsNewer(cfg, s.workers[l.w], key, bound) && ClockIsNewer(s.now, bound)
    ensures WorkerIsNewer(cfg, Step(cfg, s, l).workers[l.w], key, bound)
  {
    match l {
      case UpdateCall(w, reply) => AfterUpdate(cfg, s, w, reply);
      case FreshGet(w, read) => FreshStaysNewer(cfg, s, w, read, key, bound);
      case _ =>
    }
  }

  lemma StepKeepsNewer(cfg: Config, s: State, l: Label, key: Key, bound: Time)
    requires Enabled(cfg, s, l) && OnlyNewerStamps(cfg, s, key, bound)
    ensures OnlyNewerStamps(cfg, Step(cfg, s, l), key, bound)
  {
    StepFrame(cfg, s, l);
    StepServer(cfg, s, l);
    PendingStaysNewer(cfg, s, l, key, bound);
    if IsWorkerLabel(l) {
      MoverStaysNewer(cfg, s, l, key, bound);
    }
  }

  // what a step does to the stored stamp

  /** The object keeps its stamp, or has one newer than `bound`. */
  predicate LeavesStamp(sv: Server, after: Server, key: Key, bound: Time)
    requires key in sv.live
  {
    && key in after.live
    && var note := StampOf(after, key);
    note == StampOf(sv, key) || (note.Some? && IsNewer(note.value, bound))
  }

  lemma PerformLeavesStamp(sv: Server, r: Request, key: Key, bound: Time)
    requires Consistent(sv) && Grounded(sv, r) && Admissible(sv, r) && key in sv.live
    requires r.key == key && r.UpdateRequest? ==> OpIsNewer(r.op, bound)
    ensures LeavesStamp(sv, Perform(sv, r), key, bound)
  {
    if r.UpdateRequest? {
      StoredIsMutationOfCurrent(sv, r);
    }
  }

  lemma ReplyLeavesStamp(sv: Server, f: InFlight, reply: Reply, key: Key, bound: Time)
    requires Consistent(sv) && Grounded(sv, f.request) && ReplyFits(sv, f.request, reply) && key in sv.live
    requires f.request.key == key && f.request.UpdateRequest? ==> OpIsNewer(f.request.op, bound)
    ensures LeavesStamp(sv, AfterReply(sv, f, reply), key, bound)
  {
    if Admissible(sv, f.request) {
      PerformLeavesStamp(sv, f.request, key, bound);
    }
  }

  lemma LandingLeavesStamp(sv: Server, f: InFlight, key: Key, bound: Time)
    requires Consistent(sv) && WiresAreNewer(sv, key, bound)
    requires f in sv.pending && Admissible(sv, f.request) && key in sv.live
    ensures LeavesStamp(sv, Land(sv, f), key, bound)
  {
    if f.request.UpdateRequest? && Dead(sv, f.request) {
      DeadIsNotAdmissible(sv, f.request);
    }
    PerformLeavesStamp(sv, f.request, key, bound);
  }

  lemma CreateLeavesStamp(cfg: Config, s: State, w: nat, reply: Reply, key: Key, bound: Time)
    requires Consistent(s.server) && Enabled(cfg, s, CreateCall(w, reply)) && key in s.server.live
    ensures LeavesStamp(s.server, AfterReply(s.server, WireOf(cfg, s.workers[w]), reply), key, bound)
  {
    ReplyLeavesStamp(s.server, WireOf(cfg, s.workers[w]), reply, key, bound);
  }

  lemma UpdateLeavesStamp(cfg: Config, s: State, w: nat, reply: Reply, key: Key, bound: Time)
    requires Consistent(s.server) && Enabled(cfg, s, UpdateCall(w, reply)) && key in s.server.live
    requires Grounded(s.server, RequestOf(cfg, s.workers[w])) && WorkerIsNewer(cfg, s.workers[w], key, bound)
    ensures LeavesStamp(s.server, AfterReply(s.server, WireOf(cfg, s.workers[w]), reply), key, bound)
  {
    ReplyLeavesStamp(s.server, WireOf(cfg, s.workers[w]), reply, key, bound);
  }

  lemma NoteLeavesStamp(sv: Server, other: Key, name: string, note: Annotation, key: Key, bound: Time)
    requires other in sv.live && key in sv.live && name != STAMP_KEY
    ensures LeavesStamp(sv, Annotate(sv, other, name, note), key, bound)
  {
  }

  /** A step leaves the stamp of an object alone, or replaces it by one newer than `bound`. */
  lemma ServerLeavesStamp(cfg: Config, s: State, l: Label, key: Key, bound: Time)
    requires Inv(cfg, s) && Enabled(cfg, s, l) && OnlyNewerStamps(cfg, s, key, bound)
    requires key in s.server.live && l != Remove(key)
    ensures LeavesStamp(s.server, ServerAfter(cfg, s, l), key, bound)
  {
    match l {
      case Annotating(other, name, note) => NoteLeavesStamp(s.server, other, name, note, key, bound);
      case Landing(f) => LandingLeavesStamp(s.server, f, key, bound);
      case CreateCall(w, reply) => CreateLeavesStamp(cfg, s, w, reply, key, bound);
      case UpdateCall(w, reply) =>
        WireIsOk(cfg, s, s.workers[w]);
        UpdateLeavesStamp(cfg, s, w, reply, key, bound);
      case _ =>
    }
  }

  // the stamp keeps everybody from asking

  /** Five minutes have passed since `bound`. */
  predicate IsLate(s: State, bound: Time) {
    s.now > bound + MIN_BETWEEN_LLM
  }

  /** The stored stamp and all that can replace it are newer than `bound`, and nobody is past the gate. */
  ghost predicate Calm(cfg: Config, s: State, key: Key, bound: Time) {
    && key in s.server.live
    && (var note := StampOf(s.server, key); note.Some? && IsNewer(note.value, bound))
    && OnlyNewerStamps(cfg, s, key, bound)
    && NobodyArmed(cfg, s, key)
  }

  ghost predicate Quiet(cfg: Config, s: State, key: Key, bound: Time) {
    IsLate(s, bound) || Calm(cfg, s, key, bound)
  }

  /** Unless it is late, a calm state has a young stamp. */
  lemma CalmIsYoung(cfg: Config, s: State, key: Key, bound: Time)
    requires Calm(cfg, s, key, bound) && !IsLate(s, bound)
    ensures Young(s, key)
  {
  }

  lemma StepKeepsDisarmed(cfg: Config, s: State, l: Label, key: Key)
    requires Enabled(cfg, s, l) && Young(s, key) && FreshGate(cfg, s, l, key) && NobodyArmed(cfg, s, key)
    ensures NobodyArmed(cfg, Step(cfg, s, l), key)
  {
    StepFrame(cfg, s, l);
    if IsWorkerLabel(l) {
      MoverDisarms(cfg, s, l, key);
    }
  }

  lemma StepKeepsQuiet(cfg: Config, s: State, l: Label, key: Key, bound: Time)
    requires Inv(cfg, s) && Enabled(cfg, s, l) && l != Remove(key)
    requires Quiet(cfg, s, key, bound) && FreshGate(cfg, s, l, key)
    ensures Quiet(cfg, Step(cfg, s, l), key, bound)
  {
    StepFrame(cfg, s, l);
    if !IsLate(s, bound) {
      StepServer(cfg, s, l);
      CalmIsYoung(cfg, s, key, bound);
      ServerLeavesStamp(cfg, s, l, key, bound);
      StepKeepsNewer(cfg, s, l, key, bound);
      StepKeepsDisarmed(cfg, s, l, key);
    }
  }


  lemma {:induction false} RunKeepsQuiet(cfg: Config, s: State, run: seq<Label>, key: Key, bound: Time)
    requires Inv(cfg, s) && ValidRun(cfg, s, run) && NotRemoved(run, key) && FreshGates(cfg, s, run, key)
    requires Quiet(cfg, s, key, bound)
    ensures Quiet(cfg, Exec(cfg, s, run), key, bound)
  {
    if run != [] {
      var front, l := run[..|run| - 1], run[|run| - 1];
      assert l in run && forall m | m in front :: m in run;
      RunKeepsQuiet(cfg, s, front, key, bound);
      RunKeepsInv(cfg, s, front);
      StepKeepsQuiet(cfg, Exec(cfg, s, front), l, key, bound);
    }
  }

  lemma AskingIsLate(cfg: Config, s: State, v: nat, key: Key, bound: Time)
    requires Quiet(cfg, s, key, bound) && Enabled(cfg, s, Ask(v)) && AsksFor(cfg, s, Ask(v), key)
    ensures IsLate(s, bound)
  {
  }

  // ----- a stamp that is carried out -----

  /** The step that carries out a stamp with clock reading `at`: at once, after a timeout, or late. */
  ghost predicate CarriesStamp(cfg: Config, s: State, l: Label, key: Key, at: Time) {
    && Reachable(cfg, s) && Enabled(cfg, s, l)
    && ActionOf(cfg, s, l) == Some(Apply(key, Stamp(at)))
  }

  /** No worker on that key is between the gate and its model call, or on its way to write an older stamp. */
  ghost predicate NobodyInTheWay(cfg: Config, s: State, key: Key, at: Time) {
    && NobodyArmed(cfg, s, key)
    && forall i | 0 <= i < |s.workers| :: WorkerIsNewer(cfg, s.workers[i], key, (at / SECOND) * SECOND - 1)
  }

  /** Carrying a write out kills every other update of that object, late stamps included. */
  lemma PerformClearsWires(sv: Server, r: Request, key: Key)
    requires Consistent(sv) && Admissible(sv, r) && r.key == key
    ensures forall f | f in sv.pending && f.request.UpdateRequest? && f.request.key == key ::
              Dead(Perform(sv, r), f.request)
  {
    forall f | f in sv.pending && f.request.UpdateRequest? && f.request.key == key
      ensures Dead(Perform(sv, r), f.request)
    {
      PerformKills(sv, r, f.request);
    }
  }

  /** The server after carrying that update out, but for the requests still on the wire. */
  predicate CarriesOut(sv: Server, r: Request, key: Key, op: Op, after: Server) {
    && r.UpdateRequest? && r.key == key && r.op == op && Grounded(sv, r) && Admissible(sv, r)
    && after.live == Perform(sv, r).live && after.rev == Perform(sv, r).rev
    && forall f | f in after.pending :: f in sv.pending
  }

  lemma LandingCarriesOut(sv: Server, f: InFlight, key: Key, op: Op)
    requires Consistent(sv) && f in sv.pending && Admissible(sv, f.request)
    requires f.request.UpdateRequest? && f.request.key == key && f.request.op == op
    ensures CarriesOut(sv, f.request, key, op, Land(sv, f))
  {
  }

  lemma ReplyCarriesOut(sv: Server, f: InFlight, reply: Reply, key: Key, op: Op)
    requires ReplyFits(sv, f.request, reply) && Grounded(sv, f.request)
    requires ActionOfReply(sv, f.request, reply) == Some(Apply(key, op))
    ensures CarriesOut(sv, f.request, key, op, AfterReply(sv, f, reply))
  {
  }

  /** The request behind an action on the object. */
  lemma CarriedRequest(cfg: Config, s: State, l: Label, key: Key, op: Op) returns (r: Request)
    requires Consistent(s.server) && WorkersOk(cfg, s)
    requires Enabled(cfg, s, l) && ActionOf(cfg, s, l) == Some(Apply(key, op))
    ensures CarriesOut(s.server, r, key, op, ServerAfter(cfg, s, l))
  {
    if l.Landing? {
      r := l.f.request;
      LandingCarriesOut(s.server, l.f, key, op);
    } else {
      WireIsOk(cfg, s, s.workers[l.w]);
      r := RequestOf(cfg, s.workers[l.w]);
      ReplyCarriesOut(s.server, WireOf(cfg, s.workers[l.w]), l.reply, key, op);
    }
  }

  /** The stamp that is carried out is not from the future. */
  lemma StampIsPast(cfg: Config, s: State, l: Label, key: Key, at: Time)
    requires Inv(cfg, s) && Enabled(cfg, s, l) && ActionOf(cfg, s, l) == Some(Apply(key, Stamp(at)))
    ensures at <= s.now
  {
    if l.UpdateCall? {
      WireIsOk(cfg, s, s.workers[l.w]);
    }
  }

  /** The object bears that stamp, and no other write to it is still to come. */
  lemma StampIsStored(cfg: Config, s: State, l: Label, key: Key, at: Time)
    requires Inv(cfg, s) && Enabled(cfg, s, l) && ActionOf(cfg, s, l) == Some(Apply(key, Stamp(at)))
    ensures var sv := ServerAfter(cfg, s, l);
            && key in sv.live && StampOf(sv, key) == Some(Instant(at / SECOND))
            && WiresAreNewer(sv, key, (at / SECOND) * SECOND - 1)
  {
    var r := CarriedRequest(cfg, s, l, key, Stamp(at));
    StoredIsMutationOfCurrent(s.server, r);
    PerformClearsWires(s.server, r, key);
  }

  /** The worker whose stamp was carried out is not in the way afterwards either. */
  lemma StamperStaysAway(cfg: Config, s: State, w: nat, reply: Reply, key: Key, at: Time)
    requires Enabled(cfg, s, UpdateCall(w, reply)) && NobodyInTheWay(cfg, s, key, at) && at <= s.now
    ensures var y := Step(cfg, s, UpdateCall(w, reply)).workers[w];
            !Armed(cfg, y, key) && WorkerIsNewer(cfg, y, key, (at / SECOND) * SECOND - 1)
  {
    UpdateDisarms(cfg, s, w, reply, key);
    MoverStaysNewer(cfg, s, UpdateCall(w, reply), key, (at / SECOND) * SECOND - 1);
  }

  lemma OthersStayAway(cfg: Config, s: State, l: Label, key: Key, at: Time)
    requires Enabled(cfg, s, l) && NobodyInTheWay(cfg, s, key, at) && at <= s.now
    requires IsWorkerLabel(l) ==> l.UpdateCall?
    ensures NobodyInTheWay(cfg, Step(cfg, s, l), key, at)
  {
    StepFrame(cfg, s, l);
    if l.UpdateCall? {
      StamperStaysAway(cfg, s, l.w, l.reply, key, at);
    }
  }

  lemma CarriedIsCalm(cfg: Config, s: State, l: Label, key: Key, at: Time)
    requires Enabled(cfg, s, l) && NobodyInTheWay(cfg, s, key, at) && at <= s.now
    requires ActionOf(cfg, s, l) == Some(Apply(key, Stamp(at)))
    requires var sv := ServerAfter(cfg, s, l);
             && key in sv.live && StampOf(sv, key) == Some(Instant(at / SECOND))
             && WiresAreNewer(sv, key, (at / SECOND) * SECOND - 1)
    ensures Calm(cfg, Step(cfg, s, l), key, (at / SECOND) * SECOND - 1)
  {
    StepFrame(cfg, s, l);
    StepServer(cfg, s, l);
    OthersStayAway(cfg, s, l, key, at);
  }

  lemma StampStartsCalm(cfg: Config, s: State, l: Label, key: Key, at: Time)
    requires Inv(cfg, s) && Enabled(cfg, s, l)
    requires ActionOf(cfg, s, l) == Some(Apply(key, Stamp(at))) && NobodyInTheWay(cfg, s, key, at)
    ensures Calm(cfg, Step(cfg, s, l), key, (at / SECOND) * SECOND - 1)
  {
    StampIsPast(cfg, s, l, key, at);
    StampIsStored(cfg, s, l, key, at);
    CarriedIsCalm(cfg, s, l, key, at);
  }

  // ----- the guarantee, and when a further model call is possible -----

  /** A run, with current gates and without deleting the object, at whose end worker `v` can ask in time. */
  ghost predicate LeadsToAsk(cfg: Config, s: State, run: seq<Label>, v: nat, key: Key, deadline: Time) {
    && ValidRun(cfg, s, run) && NotRemoved(run, key) && FreshGates(cfg, s, run, key)
    && var t := Exec(cfg, s, run);
    t.now <= deadline && Enabled(cfg, t, Ask(v)) && AsksFor(cfg, t, Ask(v), key)
  }

  ghost predicate CanAskBy(cfg: Config, s: State, key: Key, deadline: Time) {
    exists run, v :: LeadsToAsk(cfg, s, run, v, key, deadline)
  }

  lemma CalmMeansNoAsk(cfg: Config, s: State, key: Key, bound: Time, deadline: Time)
    requires Inv(cfg, s) && Calm(cfg, s, key, bound) && deadline <= bound + MIN_BETWEEN_LLM
    ensures !CanAskBy(cfg, s, key, deadline)
  {
    if CanAskBy(cfg, s, key, deadline) {
      var run, v :| LeadsToAsk(cfg, s, run, v, key, deadline);
      RunKeepsQuiet(cfg, s, run, key, bound);
      AskingIsLate(cfg, Exec(cfg, s, run), v, key, bound);
    }
  }

  /**
    For any number of workers: once a stamp with clock reading `at` has been carried out while
    nobody else was in the way, no run with current gates and without deleting the object leads to
    a model call before five minutes after the second of `at`, and so none up to at + 5 min - 1 s.
   */
  lemma NoAskDuringCooldown(cfg: Config, s: State, l: Label, key: Key, at: Time)
    requires CarriesStamp(cfg, s, l, key, at) && NobodyInTheWay(cfg, s, key, at)
    ensures !CanAskBy(cfg, Step(cfg, s, l), key, (at / SECOND) * SECOND + MIN_BETWEEN_LLM - 1)
    ensures !CanAskBy(cfg, Step(cfg, s, l), key, at + MIN_BETWEEN_LLM - SECOND)
  {
    var t, bound := Step(cfg, s, l), (at / SECOND) * SECOND - 1;
    ReachableHasInv(cfg, s);
    StepKeepsInv(cfg, s, l);
    StampStartsCalm(cfg, s, l, key, at);
    CalmMeansNoAsk(cfg, t, key, bound, bound + MIN_BETWEEN_LLM);
    CalmMeansNoAsk(cfg, t, key, bound, at + MIN_BETWEEN_LLM - SECOND);
  }

  /** A worker that is alone has nobody in its way. */
  lemma OneWorkerIsAlone(cfg: Config, s: State, reply: Reply, at: Time)
    requires |s.workers| == 1 && Enabled(cfg, s, UpdateCall(0, reply)) && s.workers[0].pc.op == Stamp(at)
    ensures NobodyInTheWay(cfg, s, KeyOf(cfg, s.workers[0].job), at)
  {
  }

  /** The stamp, if any, does not send a reconcile away at that time. */
  predicate IsExpired(note: Option<Annotation>, now: Time) {
    note.Some? && note.value.Instant? ==> now - note.value.seconds * SECOND >= MIN_BETWEEN_LLM
  }

  /** An idle worker, and a pod view for that object that is not the one it is ready for. */
  ghost predicate HasWork(cfg: Config, s: State, w: nat, job: Job) {
    && w < |s.workers| && s.workers[w].pc.Idle? && IsClassified(job)
    && KeyOf(cfg, job) in s.server.live
    && !IsReadyFor(s.server.live[KeyOf(cfg, job)], FingerprintOf(job))
  }

  /** The gates let such a pod view pass once the stamp has expired. */
  lemma ExpiredLetsPass(cd: ClusterDiagnosis, fingerprint: string, sv: Server, key: Key, now: Time)
    requires key in sv.live && cd == sv.live[key]
    requires !IsReadyFor(cd, fingerprint) && IsExpired(StampOf(sv, key), now)
    ensures GateVerdict(cd, fingerprint, now).Proceed?
  {
  }

  lemma AskingLeadsToAsk(cfg: Config, p: Walk, w: nat, job: Job, key: Key, deadline: Time)
    requires IsWalk(cfg, p, key) && key == KeyOf(cfg, job) && At(p, w, job, Asking) && p.end.now <= deadline
    ensures CanAskBy(cfg, p.start, key, deadline)
  {
    assert LeadsToAsk(cfg, p.start, p.run, w, key, deadline);
  }

  /** Once the stamp has expired, such a worker can come to a model call at once. */
  lemma ExpiredLetsAsk(cfg: Config, p: Walk, w: nat, job: Job, key: Key, deadline: Time)
    requires IsWalk(cfg, p, key) && key == KeyOf(cfg, job) && HasWork(cfg, p.end, w, job)
    requires IsExpired(StampOf(p.end.server, key), p.end.now) && p.end.now <= deadline
    ensures CanAskBy(cfg, p.start, key, deadline)
  {
    ExpiredLetsPass(p.end.server.live[key], FingerprintOf(job), p.end.server, key, p.end.now);
    var a := VisitExisting(cfg, p, w, job, key);
    var b := MarkAndGather(cfg, a, w, job, key);
    AskingLeadsToAsk(cfg, b, w, job, key, deadline);
  }

  /** As long as it takes for the stamp to expire, it can wait. */
  lemma WaitingLetsAsk(cfg: Config, s: State, w: nat, job: Job, deadline: Time)
    requires Reachable(cfg, s) && HasWork(cfg, s, w, job)
    requires s.now <= deadline && IsExpired(StampOf(s.server, KeyOf(cfg, job)), deadline)
    ensures CanAskBy(cfg, s, KeyOf(cfg, job), deadline)
  {
    var p := Begin(cfg, s, KeyOf(cfg, job));
    var q := LetPass(cfg, p, KeyOf(cfg, job), deadline - s.now);
    ExpiredLetsAsk(cfg, q, w, job, KeyOf(cfg, job), deadline);
  }

  /**
    The exact time of the next model call for a stamped object: it can start by a deadline if and
    only if the stamp has expired by then.
   */
  lemma AskIffStampExpired(cfg: Config, s: State, w: nat, job: Job, seconds: int, deadline: Time)
    requires Reachable(cfg, s) && HasWork(cfg, s, w, job) && s.now <= deadline
    requires StampOf(s.server, KeyOf(cfg, job)) == Some(Instant(seconds))
    requires NobodyArmed(cfg, s, KeyOf(cfg, job))
    requires OnlyNewerStamps(cfg, s, KeyOf(cfg, job), seconds * SECOND - 1)
    ensures CanAskBy(cfg, s, KeyOf(cfg, job), deadline) <==> seconds * SECOND + MIN_BETWEEN_LLM <= deadline
  {
    if seconds * SECOND + MIN_BETWEEN_LLM <= deadline {
      WaitingLetsAsk(cfg, s, w, job, deadline);
    } else {
      ReachableHasInv(cfg, s);
      CalmMeansNoAsk(cfg, s, KeyOf(cfg, job), seconds * SECOND - 1, deadline);
    }
  }

  /** Over a run an object keeps its stamp, or gets one newer than `bound`. */
  lemma {:induction false} StampIsOldOrNewer(cfg: Config, s: State, run: seq<Label>, key: Key, bound: Time)
    requires Inv(cfg, s) && key in s.server.live && OnlyNewerStamps(cfg, s, key, bound)
    requires ValidRun(cfg, s, run) && NotRemoved(run, key)
    ensures var t := Exec(cfg, s, run);
            OnlyNewerStamps(cfg, t, key, bound) && LeavesStamp(s.server, t.server, key, bound)
  {
    if run != [] {
      var front, l := run[..|run| - 1], run[|run| - 1];
      var mid := Exec(cfg, s, front);
      assert l in run && forall m | m in front :: m in run;
      StampIsOldOrNewer(cfg, s, front, key, bound);
      RunKeepsInv(cfg, s, front);
      StepServer(cfg, mid, l);
      ServerLeavesStamp(cfg, mid, l, key, bound);
      StepKeepsNewer(cfg, mid, l, key, bound);
    }
  }

  lemma {:induction false} TimeGrows(cfg: Config, s: State, run: seq<Label>)
    requires ValidRun(cfg, s, run)
    ensures s.now <= Exec(cfg, s, run).now
  {
    if run != [] {
      TimeGrows(cfg, s, run[..|run| - 1]);
      StepFrame(cfg, Exec(cfg, s, run[..|run| - 1]), run[|run| - 1]);
    }
  }

  /** A moment at which a diagnosis may be made, no earlier stamp being still on its way. */
  ghost predicate WindowOpens(cfg: Config, s: State, key: Key) {
    && Reachable(cfg, s) && key in s.server.live && IsExpired(StampOf(s.server, key), s.now)
    && OnlyNewerStamps(cfg, s, key, s.now - SECOND)
  }

  /**
    When attempts are repeated inside the window: from a moment `s` at which the gate lets an
    attempt pass, to a later one at which nobody is between the gate and the model call, whatever
    the attempts in between came to, another model call is possible up to s + 5 min - 1 s if and
    only if none of them had its stamp carried out.
   */
  lemma RepeatIffNotStamped(cfg: Config, s: State, run: seq<Label>, w: nat, job: Job, deadline: Time)
    requires WindowOpens(cfg, s, KeyOf(cfg, job))
    requires ValidRun(cfg, s, run) && NotRemoved(run, KeyOf(cfg, job))
    requires HasWork(cfg, Exec(cfg, s, run), w, job) && NobodyArmed(cfg, Exec(cfg, s, run), KeyOf(cfg, job))
    requires Exec(cfg, s, run).now <= deadline <= s.now + MIN_BETWEEN_LLM - SECOND
    ensures CanAskBy(cfg, Exec(cfg, s, run), KeyOf(cfg, job), deadline)
       <==> StampOf(Exec(cfg, s, run).server, KeyOf(cfg, job)) == StampOf(s.server, KeyOf(cfg, job))
  {
    var t, key := Exec(cfg, s, run), KeyOf(cfg, job);
    ReachableHasInv(cfg, s);
    RunIsReachable(cfg, s, run);
    StampIsOldOrNewer(cfg, s, run, key, s.now - SECOND);
    TimeGrows(cfg, s, run);
    if StampOf(t.server, key) == StampOf(s.server, key) {
      WaitingLetsAsk(cfg, t, w, job, deadline);
    } else {
      RunKeepsInv(cfg, s, run);
      CalmMeansNoAsk(cfg, t, key, s.now - SECOND, deadline);
    }
  }
}

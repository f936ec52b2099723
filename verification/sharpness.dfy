/**
  The bounds are sharp and the hypotheses needed: runs in which the longest back-off happens, a
  failed attempt is repeated at once, a second worker asks during the cooldown, a stamp moves
  backwards, and a stale gate lets a model call through.
 */
module Sharpness {
  import opened Wrappers
  import opened DiagnosisJson
  import opened ApiServer
  import opened Machine
  import opened Invariants
  import opened Accounting
  import opened Cooldown
  import opened AfterStamp
  import opened Reconciler
  import opened Paths

  // ----- the longest back-off -----

  /** The walk was continued by `w`, which now stands there having slept that long in all. */
  ghost predicate SleptAt(cfg: Config, p: Walk, q: Walk, w: nat, job: Job, pc: Pc, slept: nat) {
    && Onward(cfg, p, q, w, KeyOf(cfg, job)) && At(q, w, job, pc) && q.end.workers[w].slept == slept
    && KeyOf(cfg, job) in q.end.server.live && q.starts == p.starts
  }

  lemma SleptOn(cfg: Config, p: Walk, r: Walk, q: Walk, w: nat, job: Job, pc: Pc, slept: nat)
    requires Onward(cfg, p, r, w, KeyOf(cfg, job)) && r.starts == p.starts && SleptAt(cfg, r, q, w, job, pc, slept)
    ensures SleptAt(cfg, p, q, w, job, pc, slept)
  {
  }

  /** An update call times out without effect. */
  lemma TimeOut(cfg: Config, p: Walk, w: nat, job: Job, op: Op, attempt: nat, base: ClusterDiagnosis) returns (q: Walk)
    requires IsWalk(cfg, p, KeyOf(cfg, job)) && At(p, w, job, Write(op, attempt, base))
    requires KeyOf(cfg, job) in p.end.server.live
    ensures SleptAt(cfg, p, q, w, job, AfterAttempts(op, attempt + 1), p.end.workers[w].slept + 25 * (attempt + 1))
  {
    var l := UpdateCall(w, TimedOut(Lost));
    q := Extend(cfg, p, KeyOf(cfg, job), l);
    StepServer(cfg, p.end, l);
    StepFrame(cfg, p.end, l);
    AfterWrite(cfg, p.end, w, TimedOut(Lost));
  }

  /** One attempt that times out. */
  lemma TimedOutAttempt(cfg: Config, p: Walk, w: nat, job: Job, op: Op, attempt: nat) returns (q: Walk)
    requires IsWalk(cfg, p, KeyOf(cfg, job)) && At(p, w, job, Read(op, attempt))
    requires KeyOf(cfg, job) in p.end.server.live
    ensures SleptAt(cfg, p, q, w, job, AfterAttempts(op, attempt + 1), p.end.workers[w].slept + 25 * (attempt + 1))
  {
    var r := ReadForUpdate(cfg, p, w, job, KeyOf(cfg, job), op, attempt);
    q := TimeOut(cfg, r, w, job, op, attempt, p.end.server.live[KeyOf(cfg, job)]);
    SleptOn(cfg, p, r, q, w, job, AfterAttempts(op, attempt + 1), p.end.workers[w].slept + 25 * (attempt + 1));
  }

  /** Where a loop is after so many attempts that timed out. */
  function AfterAttempts(op: Op, n: nat): Pc {
    if n < MAX_ATTEMPTS then Read(op, n) else Idle
  }

  /** One attempt more times out. */
  lemma OneMoreAttempt(cfg: Config, p: Walk, r: Walk, w: nat, job: Job, op: Op, n: nat, slept: nat) returns (q: Walk)
    requires n > 0 && SleptAt(cfg, p, r, w, job, Read(op, n - 1), slept)
    ensures SleptAt(cfg, p, q, w, job, AfterAttempts(op, n), slept + 25 * n)
  {
    q := TimedOutAttempt(cfg, r, w, job, op, n - 1);
    SleptOn(cfg, p, r, q, w, job, AfterAttempts(op, n), slept + 25 * n);
  }

  lemma NoAttempt(cfg: Config, p: Walk, w: nat, job: Job, pc: Pc)
    requires IsWalk(cfg, p, KeyOf(cfg, job)) && At(p, w, job, pc) && KeyOf(cfg, job) in p.end.server.live
    ensures SleptAt(cfg, p, p, w, job, pc, p.end.workers[w].slept)
  {
  }

  /** The first `n` attempts of a loop time out. */
  lemma {:induction false} TimedOutAttempts(cfg: Config, p: Walk, w: nat, job: Job, op: Op, n: nat) returns (q: Walk)
    requires IsWalk(cfg, p, KeyOf(cfg, job)) && At(p, w, job, Read(op, 0)) && n <= MAX_ATTEMPTS
    requires KeyOf(cfg, job) in p.end.server.live
    ensures SleptAt(cfg, p, q, w, job, AfterAttempts(op, n), p.end.workers[w].slept + Backoff(n))
  {
    if n == 0 {
      q := p;
      NoAttempt(cfg, p, w, job, Read(op, 0));
    } else {
      var r := TimedOutAttempts(cfg, p, w, job, op, n - 1);
      q := OneMoreAttempt(cfg, p, r, w, job, op, n, p.end.workers[w].slept + Backoff(n - 1));
    }
  }

  /** An attempt that is accepted. */
  lemma AcceptedAttempt(cfg: Config, p: Walk, w: nat, job: Job, op: Op, attempt: nat) returns (q: Walk)
    requires IsWalk(cfg, p, KeyOf(cfg, job)) && At(p, w, job, Read(op, attempt))
    requires KeyOf(cfg, job) in p.end.server.live
    ensures SleptAt(cfg, p, q, w, job, AfterLoop(op), p.end.workers[w].slept)
  {
    var key := KeyOf(cfg, job);
    var r := ReadForUpdate(cfg, p, w, job, key, op, attempt);
    q := WriteUpdate(cfg, r, w, job, key, op, attempt, p.end.server.live[key]);
    SleptOn(cfg, p, r, q, w, job, AfterLoop(op), p.end.workers[w].slept);
  }

  /** The seven attempts of a loop that can fail without failing the loop do, and the last is accepted. */
  lemma SlowLoop(cfg: Config, p: Walk, w: nat, job: Job, op: Op) returns (q: Walk)
    requires IsWalk(cfg, p, KeyOf(cfg, job)) && At(p, w, job, Read(op, 0)) && KeyOf(cfg, job) in p.end.server.live
    ensures SleptAt(cfg, p, q, w, job, AfterLoop(op), p.end.workers[w].slept + 700)
  {
    BackoffTotals();
    var r := TimedOutAttempts(cfg, p, w, job, op, 7);
    q := AcceptedAttempt(cfg, r, w, job, op, 7);
    SleptOn(cfg, p, r, q, w, job, AfterLoop(op), p.end.workers[w].slept + 700);
  }

  /** From gathering to the publish loop. */
  lemma GatherAndAsk(cfg: Config, p: Walk, w: nat, job: Job, d: Diagnosis) returns (q: Walk, op: Op)
    requires IsWalk(cfg, p, KeyOf(cfg, job)) && At(p, w, job, Gathering) && cfg.legit(d)
    requires KeyOf(cfg, job) in p.end.server.live
    ensures SleptAt(cfg, p, q, w, job, Read(op, 0), p.end.workers[w].slept) && op.Publish?
  {
    var key := KeyOf(cfg, job);
    var a := GatherContext(cfg, p, w, job, key);
    var b := StartAsking(cfg, a, w, job, key);
    q, op := HearAnswer(cfg, b, w, job, key, Diagnosed(d));
  }

  /** From the mark to the stamp, both loops as slow as they can be. */
  lemma SlowAnalysis(cfg: Config, p: Walk, w: nat, job: Job, d: Diagnosis) returns (q: Walk)
    requires IsWalk(cfg, p, KeyOf(cfg, job)) && At(p, w, job, Read(MarkAnalyzing, 0)) && cfg.legit(d)
    requires KeyOf(cfg, job) in p.end.server.live
    ensures SleptAt(cfg, p, q, w, job, Stamping, p.end.workers[w].slept + 1400)
  {
    var a := SlowLoop(cfg, p, w, job, MarkAnalyzing);
    var b, op := GatherAndAsk(cfg, a, w, job, d);
    q := SlowLoop(cfg, b, w, job, op);
  }

  /** Whatever pod fails first, the very first reconcile, about it, can sleep the full 2300 milliseconds. */
  lemma BackoffBoundIsReached(cfg: Config, start: Time, job: Job, d: Diagnosis) returns (t: State)
    requires cfg.workers > 0 && IsClassified(job) && cfg.legit(d)
    ensures Reachable(cfg, t) && t.metrics.started == 1
    ensures 0 < |t.workers| && t.workers[0].job == job
    ensures t.workers[0].pc.Idle? && t.workers[0].slept == 2300
  {
    var key := KeyOf(cfg, job);
    BackoffTotals();
    InitIsReachable(cfg, start);
    var a := Begin(cfg, Init(cfg, start), key);
    var b := VisitNew(cfg, a, 0, job, key);
    var c := SlowAnalysis(cfg, b, 0, job, d);
    var e := TakeTime(cfg, c, 0, job, key);
    var f := TimedOutAttempts(cfg, e, 0, job, Stamp(c.end.now), 8);
    StartsAreCounted(cfg, start, f.run);
    t := f.end;
  }

  // ----- a failed attempt is repeated at once -----

  /** Marks leave the annotations alone, and an error is one. */
  lemma MarksAlone(before: Server, after: Server, key: Key, op: Op)
    requires Applies(before, after, key, op) && (op.MarkAnalyzing? || op.MarkError?)
    ensures key in after.live && after.live[key].annotations == before.live[key].annotations
    ensures op.MarkError? ==> after.live[key].status.phase == "Error"
  {
  }

  /** Up to the model's refusal. */
  lemma MeetRefusal(cfg: Config, p: Walk, w: nat, job: Job, key: Key, message: string) returns (q: Walk)
    requires IsWalk(cfg, p, key) && At(p, w, job, Read(MarkAnalyzing, 0))
    requires key == KeyOf(cfg, job) && key in p.end.server.live
    ensures Onward(cfg, p, q, w, key) && q.asks == p.asks + 1
    ensures q.run != [] && q.run[|q.run| - 1] == Answer(w, Refusal(message))
    ensures At(q, w, job, Read(MarkError(message), 0)) && key in q.end.server.live
    ensures q.end.server.live[key].annotations == p.end.server.live[key].annotations
  {
    var a := MarkAndGather(cfg, p, w, job, key);
    MarksAlone(p.end.server, a.end.server, key, MarkAnalyzing);
    var b := StartAsking(cfg, a, w, job, key);
    var op;
    q, op := HearAnswer(cfg, b, w, job, key, Refusal(message));
  }

  /** The error is recorded, and the reconcile over. */
  lemma RecordError(cfg: Config, p: Walk, w: nat, job: Job, key: Key, message: string) returns (q: Walk)
    requires IsWalk(cfg, p, key) && At(p, w, job, Read(MarkError(message), 0))
    requires key == KeyOf(cfg, job) && key in p.end.server.live
    ensures Onward(cfg, p, q, w, key) && q.asks == p.asks
    ensures At(q, w, job, Idle) && key in q.end.server.live
    ensures q.end.server.live[key].annotations == p.end.server.live[key].annotations
    ensures q.end.server.live[key].status.phase == "Error"
  {
    q := RunLoop(cfg, p, w, job, key, MarkError(message));
    MarksAlone(p.end.server, q.end.server, key, MarkError(message));
  }

  /**
    With a single worker, current gates and no deletion: an attempt asks and is refused, and the
    next one is about to ask again at the very same time.
   */
  lemma FailedAttemptIsRepeated(cfg: Config, start: Time, job: Job, message: string) returns (r: Walk, q: Walk)
    requires cfg.workers == 1 && IsClassified(job)
    ensures IsWalk(cfg, q, KeyOf(cfg, job)) && q.start == Init(cfg, start) && r.run <= q.run
    ensures r.run != [] && r.run[|r.run| - 1] == Answer(0, Refusal(message))
    ensures q.asks == 1 && q.end.now == start
    ensures Enabled(cfg, q.end, Ask(0)) && AsksFor(cfg, q.end, Ask(0), KeyOf(cfg, job))
  {
    var key := KeyOf(cfg, job);
    InitIsReachable(cfg, start);
    var a := Begin(cfg, Init(cfg, start), key);
    var b := VisitNew(cfg, a, 0, job, key);
    r := MeetRefusal(cfg, b, 0, job, key, message);
    var c := RecordError(cfg, r, 0, job, key, message);
    var e := VisitExisting(cfg, c, 0, job, key);
    q := MarkAndGather(cfg, e, 0, job, key);
  }

  // ----- two workers past the gate -----

  lemma TwoPastGate(cfg: Config, start: Time, job: Job) returns (q: Walk)
    requires cfg.workers >= 2 && IsClassified(job)
    ensures IsWalk(cfg, q, KeyOf(cfg, job)) && q.start == Init(cfg, start)
    ensures q.asks == 0 && q.end.now == start && KeyOf(cfg, job) in q.end.server.live
    ensures At(q, 0, job, Read(MarkAnalyzing, 0)) && At(q, 1, job, Read(MarkAnalyzing, 0))
  {
    var key := KeyOf(cfg, job);
    InitIsReachable(cfg, start);
    var a := Begin(cfg, Init(cfg, start), key);
    var b := VisitNew(cfg, a, 0, job, key);
    q := VisitExisting(cfg, b, 1, job, key);
  }

  /** An analysis up to the clock reading for its stamp. */
  lemma AnalyzeToStamp(cfg: Config, p: Walk, w: nat, job: Job, d: Diagnosis) returns (q: Walk)
    requires IsWalk(cfg, p, KeyOf(cfg, job)) && At(p, w, job, Read(MarkAnalyzing, 0)) && cfg.legit(d)
    requires KeyOf(cfg, job) in p.end.server.live
    ensures Onward(cfg, p, q, w, KeyOf(cfg, job)) && q.asks == p.asks + 1
    ensures KeyOf(cfg, job) in q.end.server.live && At(q, w, job, Stamping)
  {
    var a := MarkAndGather(cfg, p, w, job, KeyOf(cfg, job));
    var op;
    q, op := AskAndPublish(cfg, a, w, job, KeyOf(cfg, job), d);
  }

  /** The stamp itself, carried out at once. */
  lemma WriteStamp(cfg: Config, p: Walk, w: nat, job: Job, at: Time) returns (q: Walk)
    requires IsWalk(cfg, p, KeyOf(cfg, job)) && At(p, w, job, Read(Stamp(at), 0))
    requires KeyOf(cfg, job) in p.end.server.live
    ensures Onward(cfg, p, q, w, KeyOf(cfg, job)) && q.asks == p.asks
    ensures KeyOf(cfg, job) in q.end.server.live && At(q, w, job, Idle)
    ensures StampOf(q.end.server, KeyOf(cfg, job)) == Some(Instant(at / SECOND))
  {
    q := RunLoop(cfg, p, w, job, KeyOf(cfg, job), Stamp(at));
  }

  /**
    With a second worker past the gate the cooldown does not hold: the first one has asked,
    published and stamped, every gate was current, and the second is about to ask at that time.
   */
  lemma SecondWorkerAsks(cfg: Config, start: Time, job: Job, d: Diagnosis) returns (q: Walk)
    requires cfg.workers >= 2 && IsClassified(job) && cfg.legit(d)
    ensures IsWalk(cfg, q, KeyOf(cfg, job)) && q.start == Init(cfg, start) && q.asks == 1 && q.end.now == start
    ensures KeyOf(cfg, job) in q.end.server.live
    ensures StampOf(q.end.server, KeyOf(cfg, job)) == Some(Instant(start / SECOND))
    ensures Enabled(cfg, q.end, Ask(1)) && AsksFor(cfg, q.end, Ask(1), KeyOf(cfg, job))
  {
    var key := KeyOf(cfg, job);
    var a := TwoPastGate(cfg, start, job);
    var b := MarkAndGather(cfg, a, 1, job, key);
    OthersStay(cfg, a, b, 1, key, 0, job, Read(MarkAnalyzing, 0));
    var c := AnalyzeToStamp(cfg, b, 0, job, d);
    OthersStay(cfg, b, c, 0, key, 1, job, Asking);
    var e := TakeTime(cfg, c, 0, job, key);
    OthersStay(cfg, c, e, 0, key, 1, job, Asking);
    q := WriteStamp(cfg, e, 0, job, start);
    OthersStay(cfg, e, q, 0, key, 1, job, Asking);
  }

  /** Both have published, and the first has read the clock for its stamp. */
  lemma BothPublished(cfg: Config, start: Time, job: Job, d: Diagnosis) returns (q: Walk)
    requires cfg.workers >= 2 && IsClassified(job) && cfg.legit(d)
    ensures IsWalk(cfg, q, KeyOf(cfg, job)) && q.start == Init(cfg, start) && q.end.now == start
    ensures KeyOf(cfg, job) in q.end.server.live
    ensures At(q, 0, job, Read(Stamp(start), 0)) && At(q, 1, job, Stamping)
  {
    var key := KeyOf(cfg, job);
    var a := TwoPastGate(cfg, start, job);
    var b := AnalyzeToStamp(cfg, a, 0, job, d);
    OthersStay(cfg, a, b, 0, key, 1, job, Read(MarkAnalyzing, 0));
    var c := TakeTime(cfg, b, 0, job, key);
    OthersStay(cfg, b, c, 0, key, 1, job, Read(MarkAnalyzing, 0));
    q := AnalyzeToStamp(cfg, c, 1, job, d);
    OthersStay(cfg, c, q, 1, key, 0, job, Read(Stamp(start), 0));
  }

  /** The second reads it a second later. */
  lemma BothAboutToStamp(cfg: Config, start: Time, job: Job, d: Diagnosis) returns (q: Walk)
    requires cfg.workers >= 2 && IsClassified(job) && cfg.legit(d)
    ensures IsWalk(cfg, q, KeyOf(cfg, job)) && q.start == Init(cfg, start) && KeyOf(cfg, job) in q.end.server.live
    ensures At(q, 0, job, Read(Stamp(start), 0)) && At(q, 1, job, Read(Stamp(start + SECOND), 0))
  {
    var key := KeyOf(cfg, job);
    var a := BothPublished(cfg, start, job, d);
    var b := LetPass(cfg, a, key, SECOND);
    assert At(b, 0, job, Read(Stamp(start), 0)) && At(b, 1, job, Stamping) && b.end.now == start + SECOND;
    q := TakeTime(cfg, b, 1, job, key);
    OthersStay(cfg, b, q, 1, key, 0, job, Read(Stamp(start), 0));
  }

  lemma SecondLater(at: Time)
    ensures (at + SECOND) / SECOND == at / SECOND + 1
  {
  }

  /** Nor do stamps only grow: the one stored at `p` is a second older at `q`, later in the same run. */
  lemma StampMovesBack(cfg: Config, start: Time, job: Job, d: Diagnosis) returns (p: Walk, q: Walk)
    requires cfg.workers >= 2 && IsClassified(job) && cfg.legit(d)
    ensures IsWalk(cfg, p, KeyOf(cfg, job)) && p.start == Init(cfg, start)
    ensures IsWalk(cfg, q, KeyOf(cfg, job)) && q.start == Init(cfg, start) && p.run <= q.run
    ensures KeyOf(cfg, job) in p.end.server.live && KeyOf(cfg, job) in q.end.server.live
    ensures StampOf(p.end.server, KeyOf(cfg, job)) == Some(Instant(start / SECOND + 1))
    ensures StampOf(q.end.server, KeyOf(cfg, job)) == Some(Instant(start / SECOND))
  {
    var a := BothAboutToStamp(cfg, start, job, d);
    p := WriteStamp(cfg, a, 1, job, start + SECOND);
    OthersStay(cfg, a, p, 1, KeyOf(cfg, job), 0, job, Read(Stamp(start), 0));
    SecondLater(start);
    q := WriteStamp(cfg, p, 0, job, start);
  }

  // ----- a stamp that lands late -----

  /** Marking and publishing leave the annotations alone, and a publish shows its fingerprint. */
  lemma StatusAlone(before: Server, after: Server, key: Key, op: Op)
    requires Applies(before, after, key, op) && !op.Stamp?
    ensures key in after.live && after.live[key].annotations == before.live[key].annotations
    ensures op.Publish? ==> after.live[key].status.observedFingerprint == op.bundle.fingerprint
  {
  }

  /** A first visit up to the clock reading, after which the object is ready and not yet stamped. */
  lemma PublishedUnstamped(cfg: Config, start: Time, job: Job, d: Diagnosis) returns (q: Walk)
    requires cfg.workers > 0 && IsClassified(job) && cfg.legit(d)
    ensures IsWalk(cfg, q, KeyOf(cfg, job)) && q.start == Init(cfg, start) && q.end.now == start
    ensures |q.end.workers| == cfg.workers && At(q, 0, job, Read(Stamp(start), 0))
    ensures KeyOf(cfg, job) in q.end.server.live
    ensures var cd := q.end.server.live[KeyOf(cfg, job)];
            STAMP_KEY !in cd.annotations && cd.status.observedFingerprint == FingerprintOf(job)
  {
    var key := KeyOf(cfg, job);
    InitIsReachable(cfg, start);
    var a := Begin(cfg, Init(cfg, start), key);
    var b := VisitNew(cfg, a, 0, job, key);
    var c := MarkAndGather(cfg, b, 0, job, key);
    StatusAlone(b.end.server, c.end.server, key, MarkAnalyzing);
    var e, op := AskAndPublish(cfg, c, 0, job, key, d);
    StatusAlone(c.end.server, e.end.server, key, op);
    q := TakeTime(cfg, e, 0, job, key);
  }

  /** The write of the stamp times out and stays on the wire. */
  lemma LeaveOnWire(cfg: Config, p: Walk, w: nat, job: Job, key: Key, at: Time) returns (q: Walk, f: InFlight)
    requires IsWalk(cfg, p, key) && At(p, w, job, Read(Stamp(at), 0))
    requires key == KeyOf(cfg, job) && key in p.end.server.live
    ensures Onward(cfg, p, q, w, key) && At(q, w, job, Read(Stamp(at), 1))
    ensures q.end.server.live == p.end.server.live && f in q.end.server.pending
    ensures f.request == UpdateRequest(key, Stamp(at), p.end.server.live[key])
  {
    var r := ReadForUpdate(cfg, p, w, job, key, Stamp(at), 0);
    var l := UpdateCall(w, TimedOut(Late));
    f := WireOf(cfg, r.end.workers[w]);
    q := Extend(cfg, r, key, l);
    StepServer(cfg, r.end, l);
    StepFrame(cfg, r.end, l);
    AfterWrite(cfg, r.end, w, TimedOut(Late));
  }

  /** The worker dies. */
  lemma Die(cfg: Config, p: Walk, w: nat, key: Key) returns (q: Walk)
    requires IsWalk(cfg, p, key) && w < |p.end.workers| && !p.end.workers[w].pc.Idle?
    ensures Onward(cfg, p, q, w, key) && q.end.server == p.end.server && q.end.workers[w].pc.Idle?
  {
    q := Extend(cfg, p, key, Crash(w, false));
  }

  /** The delayed write is carried out. */
  lemma LandStamp(cfg: Config, p: Walk, key: Key, f: InFlight, at: Time) returns (q: Walk)
    requires IsWalk(cfg, p, key) && key in p.end.server.live && f in p.end.server.pending
    requires f.request == UpdateRequest(key, Stamp(at), p.end.server.live[key])
    ensures CarriesStamp(cfg, p.end, Landing(f), key, at)
    ensures IsWalk(cfg, q, key) && q.start == p.start && q.run == p.run + [Landing(f)]
    ensures q.end.workers == p.end.workers && q.end.now == p.end.now && key in q.end.server.live
    ensures StampOf(q.end.server, key) == Some(Instant(at / SECOND))
  {
    q := Extend(cfg, p, key, Landing(f));
  }

  /**
    One worker, current gates, no deletion, and still a model call during the cooldown: the stamp
    lands after its own sender, having died meanwhile, has passed the gate for a new view of the pod.
   */
  lemma LateStampLetsAskThrough(cfg: Config, start: Time, job: Job, next: Job, d: Diagnosis)
    returns (p: Walk, l: Label, q: Walk)
    requires cfg.workers == 1 && cfg.legit(d) && IsClassified(job) && IsClassified(next)
    requires KeyOf(cfg, job) == KeyOf(cfg, next) && FingerprintOf(job) != FingerprintOf(next)
    ensures IsWalk(cfg, p, KeyOf(cfg, job)) && p.start == Init(cfg, start)
    ensures CarriesStamp(cfg, p.end, l, KeyOf(cfg, job), start) && !NobodyInTheWay(cfg, p.end, KeyOf(cfg, job), start)
    ensures IsWalk(cfg, q, KeyOf(cfg, job)) && q.start == Init(cfg, start) && p.run + [l] <= q.run
    ensures q.end.now == start && Young(q.end, KeyOf(cfg, job))
    ensures Enabled(cfg, q.end, Ask(0)) && AsksFor(cfg, q.end, Ask(0), KeyOf(cfg, job))
  {
    var key := KeyOf(cfg, job);
    var a := PublishedUnstamped(cfg, start, job, d);
    var b, f := LeaveOnWire(cfg, a, 0, job, key, start);
    var c := Die(cfg, b, 0, key);
    p := VisitExisting(cfg, c, 0, next, key);
    l := Landing(f);
    assert Armed(cfg, p.end.workers[0], key);
    var e := LandStamp(cfg, p, key, f, start);
    q := MarkAndGather(cfg, e, 0, next, key);
    StatusAlone(e.end.server, q.end.server, key, MarkAnalyzing);
    JustStamped(start);
  }

  lemma JustStamped(now: Time)
    ensures now - (now / SECOND) * SECOND < MIN_BETWEEN_LLM
  {
  }

  // ----- a stale gate -----

  /** A run with one enabled step more; its gates need not be current. */
  lemma Continue(cfg: Config, s: State, run: seq<Label>, l: Label) returns (longer: seq<Label>, t: State)
    requires ValidRun(cfg, s, run) && Enabled(cfg, Exec(cfg, s, run), l)
    ensures longer == run + [l] && ValidRun(cfg, s, longer)
    ensures t == Exec(cfg, s, longer) == Step(cfg, Exec(cfg, s, run), l)
  {
    SnocRun(cfg, s, run, l);
    longer := run + [l];
    t := Exec(cfg, s, longer);
  }

  /** A worker that finds a stale copy in its cache passes the gate, while the object stays as it is. */
  lemma PassOnStaleCopy(cfg: Config, s: State, w: nat, job: Job, stale: ClusterDiagnosis)
    returns (run: seq<Label>, t: State)
    requires w < |s.workers| && s.workers[w].pc.Idle? && IsClassified(job)
    requires Version(KeyOf(cfg, job), stale) in s.server.versions
    requires GateVerdict(stale, FingerprintOf(job), s.now).Proceed?
    ensures ValidRun(cfg, s, run) && t == Exec(cfg, s, run)
    ensures t.server == s.server && t.now == s.now
    ensures w < |t.workers| && t.workers[w].job == job && t.workers[w].pc == Read(MarkAnalyzing, 0)
  {
    run, t := Continue(cfg, s, [], PodGet(w, PodFound(job.pod)));
    AfterPod(cfg, s, w, PodFound(job.pod));
    run, t := FindAndPass(cfg, s, run, t, w, job, stale);
  }

  lemma FindAndPass(cfg: Config, s: State, run: seq<Label>, t: State, w: nat, job: Job, stale: ClusterDiagnosis)
    returns (longer: seq<Label>, u: State)
    requires ValidRun(cfg, s, run) && t == Exec(cfg, s, run)
    requires w < |t.workers| && t.workers[w].job == job && t.workers[w].pc == CacheRead
    requires Version(KeyOf(cfg, job), stale) in t.server.versions
    requires GateVerdict(stale, FingerprintOf(job), t.now).Proceed?
    ensures ValidRun(cfg, s, longer) && u == Exec(cfg, s, longer)
    ensures u.server == t.server && u.now == t.now
    ensures w < |u.workers| && u.workers[w].job == job && u.workers[w].pc == Read(MarkAnalyzing, 0)
  {
    longer, u := Continue(cfg, s, run, CacheGet(w, Found(stale)));
    longer, u := Continue(cfg, s, longer, CheckGate(w));
  }

  /**
    Young stamp or not: whenever the cache still holds a version of the object that passes the
    gate, an idle worker can go on to a model call at once. So the bounds on model calls do rest
    on current gate reads.
   */
  lemma StaleGateLetsAskThrough(cfg: Config, s: State, w: nat, job: Job, stale: ClusterDiagnosis)
    returns (first: seq<Label>, mid: State, second: Walk)
    requires Reachable(cfg, s) && w < |s.workers| && s.workers[w].pc.Idle? && IsClassified(job)
    requires Young(s, KeyOf(cfg, job)) && Version(KeyOf(cfg, job), stale) in s.server.versions
    requires GateVerdict(stale, FingerprintOf(job), s.now).Proceed?
    ensures ValidRun(cfg, s, first) && mid == Exec(cfg, s, first)
    ensures IsWalk(cfg, second, KeyOf(cfg, job)) && second.start == mid
    ensures second.end.now == s.now && Young(second.end, KeyOf(cfg, job))
    ensures Enabled(cfg, second.end, Ask(w)) && AsksFor(cfg, second.end, Ask(w), KeyOf(cfg, job))
  {
    first, mid := PassOnStaleCopy(cfg, s, w, job, stale);
    RunIsReachable(cfg, s, first);
    var p := Begin(cfg, mid, KeyOf(cfg, job));
    second := MarkAndGather(cfg, p, w, job, KeyOf(cfg, job));
  }

  /** The first visit of a pod, without faults, up to its stamp. */
  lemma FirstVisit(cfg: Config, start: Time, job: Job, d: Diagnosis) returns (stale: ClusterDiagnosis, q: Walk)
    requires cfg.workers > 0 && IsClassified(job) && cfg.legit(d)
    ensures IsWalk(cfg, q, KeyOf(cfg, job)) && q.end.now == start && At(q, 0, job, Idle)
    ensures KeyOf(cfg, job) in q.end.server.live
    ensures StampOf(q.end.server, KeyOf(cfg, job)) == Some(Instant(start / SECOND))
    ensures Version(KeyOf(cfg, job), stale) in q.end.server.versions
    ensures stale.status == NEW_STATUS && stale.annotations == map[]
  {
    var key := KeyOf(cfg, job);
    InitIsReachable(cfg, start);
    var a := Begin(cfg, Init(cfg, start), key);
    var b := VisitNew(cfg, a, 0, job, key);
    stale := b.end.server.live[key];
    LiveIsCached(cfg, b.end, key);
    var c := AnalyzeToStamp(cfg, b, 0, job, d);
    var e := TakeTime(cfg, c, 0, job, key);
    q := WriteStamp(cfg, e, 0, job, start);
  }

  /** Such a state is reached after the very first visit of any pod: the object as created is stale then. */
  lemma StaleGateHappens(cfg: Config, start: Time, job: Job, d: Diagnosis)
    returns (s: State, stale: ClusterDiagnosis)
    requires cfg.workers > 0 && IsClassified(job) && cfg.legit(d)
    ensures Reachable(cfg, s) && 0 < |s.workers| && s.workers[0].pc.Idle?
    ensures Young(s, KeyOf(cfg, job)) && Version(KeyOf(cfg, job), stale) in s.server.versions
    ensures GateVerdict(stale, FingerprintOf(job), s.now).Proceed?
  {
    var q;
    stale, q := FirstVisit(cfg, start, job, d);
    s := q.end;
    JustStamped(start);
  }
}

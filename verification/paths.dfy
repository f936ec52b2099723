/**
  Runs built step by step: how a worker goes through a visit when nothing fails, as the material
  for statements that something does happen.
 */
module Paths {
  import opened Wrappers
  import opened DiagnosisJson
  import opened ApiServer
  import opened Machine
  import opened Invariants
  import opened Cooldown
  import opened Counters
  import opened Reconciler

  ghost predicate NotRemoved(run: seq<Label>, key: Key) {
    forall l | l in run :: l != Remove(key)
  }

  /** How many reconciles start in a run. */
  function PodGets(run: seq<Label>): nat {
    if run == [] then 0 else PodGets(run[..|run| - 1]) + Weight(run[|run| - 1].PodGet?)
  }

  /** That is what the counter of started reconciles counts. */
  lemma {:induction false} StartsAreCounted(cfg: Config, start: Time, run: seq<Label>)
    requires ValidRun(cfg, Init(cfg, start), run)
    ensures Exec(cfg, Init(cfg, start), run).metrics.started == PodGets(run)
  {
    if run != [] {
      var front, l := run[..|run| - 1], run[|run| - 1];
      var mid := Exec(cfg, Init(cfg, start), front);
      StartsAreCounted(cfg, start, front);
      StepCounts(cfg, mid, l);
      assert Counter(Started, Step(cfg, mid, l).metrics) == Counter(Started, mid.metrics) + Weight(l.PodGet?);
    }
  }

  /** A run with its end, the number of model calls for one object in it, and of started reconciles. */
  datatype Walk = Walk(start: State, run: seq<Label>, end: State, asks: nat, starts: nat)

  /** From a reachable state on, with current gates for that object, which is never deleted. */
  ghost predicate IsWalk(cfg: Config, p: Walk, key: Key) {
    && ValidRun(cfg, p.start, p.run) && p.end == Exec(cfg, p.start, p.run) && Reachable(cfg, p.end)
    && FreshGates(cfg, p.start, p.run, key) && NotRemoved(p.run, key)
    && p.asks == Asks(cfg, p.start, p.run, key, None) && p.starts == PodGets(p.run)
  }

  lemma Begin(cfg: Config, s: State, key: Key) returns (p: Walk)
    requires Reachable(cfg, s)
    ensures p == Walk(s, [], s, 0, 0) && IsWalk(cfg, p, key)
  {
    p := Walk(s, [], s, 0, 0);
  }

  lemma InitIsReachable(cfg: Config, start: Time)
    ensures Reachable(cfg, Init(cfg, start))
  {
    assert ValidRun(cfg, Init(cfg, start), []) && Exec(cfg, Init(cfg, start), []) == Init(cfg, start);
  }

  /** One step more. */
  lemma Extend(cfg: Config, p: Walk, key: Key, l: Label) returns (q: Walk)
    requires IsWalk(cfg, p, key) && Enabled(cfg, p.end, l)
    requires FreshGate(cfg, p.end, l, key) && l != Remove(key)
    ensures IsWalk(cfg, q, key)
    ensures q == Walk(p.start, p.run + [l], Step(cfg, p.end, l), p.asks + Weight(AsksFor(cfg, p.end, l, key)),
                      p.starts + Weight(l.PodGet?))
  {
    q := Walk(p.start, p.run + [l], Step(cfg, p.end, l), p.asks + Weight(AsksFor(cfg, p.end, l, key)),
              p.starts + Weight(l.PodGet?));
    SnocRun(cfg, p.start, p.run, l);
    StepIsReachable(cfg, p.end, l);
    assert q.run[..|q.run| - 1] == p.run;
    assert forall m | m in q.run :: m in p.run || m == l;
  }

  /** Worker `w`, busy with that job, stands there. */
  predicate At(p: Walk, w: nat, job: Job, pc: Pc) {
    w < |p.end.workers| && p.end.workers[w].job == job && p.end.workers[w].pc == pc
  }

  /** The walk was continued by worker `w` alone, while no time passed. */
  ghost predicate Onward(cfg: Config, p: Walk, q: Walk, w: nat, key: Key) {
    && IsWalk(cfg, q, key) && q.start == p.start && p.run <= q.run
    && w < |p.end.workers| == |q.end.workers| && q.end.workers == p.end.workers[w := q.end.workers[w]]
    && q.end.now == p.end.now && p.end.server.versions <= q.end.server.versions
  }

  /** No model call for the object and no reconcile has started in between. */
  predicate NothingStarted(p: Walk, q: Walk) {
    q.asks == p.asks && q.starts == p.starts
  }

  /** The other workers stand where they stood. */
  lemma OthersStay(cfg: Config, p: Walk, q: Walk, w: nat, key: Key, v: nat, job: Job, pc: Pc)
    requires Onward(cfg, p, q, w, key) && At(p, v, job, pc) && v != w
    ensures At(q, v, job, pc)
  {
  }

  /** A stored object is among the versions a cache may return. */
  lemma LiveIsCached(cfg: Config, s: State, key: Key)
    requires Reachable(cfg, s) && key in s.server.live
    ensures Version(key, s.server.live[key]) in s.server.versions
  {
    ReachableHasInv(cfg, s);
  }

  // ----- the calls of a visit -----

  lemma SetOutFor(cfg: Config, p: Walk, w: nat, job: Job, key: Key) returns (q: Walk)
    requires IsWalk(cfg, p, key) && w < |p.end.workers| && p.end.workers[w].pc.Idle? && IsClassified(job)
    ensures Onward(cfg, p, q, w, key) && q.asks == p.asks && q.starts == p.starts + 1 && q.end.server == p.end.server
    ensures At(q, w, job, CacheRead) && q.end.workers[w].slept == 0
  {
    q := Extend(cfg, p, key, PodGet(w, PodFound(job.pod)));
    AfterPod(cfg, p.end, w, PodFound(job.pod));
  }

  lemma FindCopy(cfg: Config, p: Walk, w: nat, job: Job, key: Key, copy: ClusterDiagnosis) returns (q: Walk)
    requires IsWalk(cfg, p, key) && At(p, w, job, CacheRead) && key == KeyOf(cfg, job)
    requires Version(key, copy) in p.end.server.versions
    ensures Onward(cfg, p, q, w, key) && NothingStarted(p, q) && q.end.server == p.end.server
    ensures At(q, w, job, Gate(copy)) && q.end.workers[w].slept == p.end.workers[w].slept
  {
    q := Extend(cfg, p, key, CacheGet(w, Found(copy)));
    AfterCache(cfg, p.end, w, Found(copy));
  }

  lemma FindNone(cfg: Config, p: Walk, w: nat, job: Job, key: Key) returns (q: Walk)
    requires IsWalk(cfg, p, key) && At(p, w, job, CacheRead)
    ensures Onward(cfg, p, q, w, key) && NothingStarted(p, q) && q.end.server == p.end.server
    ensures At(q, w, job, Creating) && q.end.workers[w].slept == p.end.workers[w].slept
  {
    q := Extend(cfg, p, key, CacheGet(w, Absent));
    AfterCache(cfg, p.end, w, Absent);
  }

  lemma CreateObject(cfg: Config, p: Walk, w: nat, job: Job, key: Key) returns (q: Walk)
    requires IsWalk(cfg, p, key) && At(p, w, job, Creating) && key == KeyOf(cfg, job) && key !in p.end.server.live
    ensures Onward(cfg, p, q, w, key) && NothingStarted(p, q)
    ensures key in q.end.server.live
    ensures var cd := q.end.server.live[key]; cd.status == NEW_STATUS && cd.annotations == map[]
    ensures At(q, w, job, Reread) && q.end.workers[w].slept == p.end.workers[w].slept
  {
    q := Extend(cfg, p, key, CreateCall(w, Accepted));
    AfterCreate(cfg, p.end, w, Accepted);
  }

  lemma ReadBack(cfg: Config, p: Walk, w: nat, job: Job, key: Key) returns (q: Walk)
    requires IsWalk(cfg, p, key) && At(p, w, job, Reread) && key == KeyOf(cfg, job) && key in p.end.server.live
    ensures Onward(cfg, p, q, w, key) && NothingStarted(p, q) && q.end.server == p.end.server
    ensures At(q, w, job, Gate(p.end.server.live[key])) && q.end.workers[w].slept == p.end.workers[w].slept
  {
    var l := FreshGet(w, Found(p.end.server.live[key]));
    LiveIsCached(cfg, p.end, key);
    q := Extend(cfg, p, key, l);
    AfterRead(cfg, p.end, w, l.read);
    StepServer(cfg, p.end, l);
  }

  /** The gates, checked on the object as it is. */
  lemma PassGate(cfg: Config, p: Walk, w: nat, job: Job, key: Key) returns (q: Walk)
    requires IsWalk(cfg, p, key) && key == KeyOf(cfg, job) && key in p.end.server.live
    requires At(p, w, job, Gate(p.end.server.live[key]))
    requires GateVerdict(p.end.server.live[key], FingerprintOf(job), p.end.now).Proceed?
    ensures Onward(cfg, p, q, w, key) && NothingStarted(p, q) && q.end.server == p.end.server
    ensures At(q, w, job, Read(MarkAnalyzing, 0)) && q.end.workers[w].slept == p.end.workers[w].slept
  {
    q := Extend(cfg, p, key, CheckGate(w));
    AfterGate(cfg, p.end, w);
    StepServer(cfg, p.end, CheckGate(w));
  }

  lemma ReadForUpdate(cfg: Config, p: Walk, w: nat, job: Job, key: Key, op: Op, attempt: nat) returns (q: Walk)
    requires IsWalk(cfg, p, key) && At(p, w, job, Read(op, attempt))
    requires key == KeyOf(cfg, job) && key in p.end.server.live
    ensures Onward(cfg, p, q, w, key) && NothingStarted(p, q) && q.end.server == p.end.server
    ensures At(q, w, job, Write(op, attempt, p.end.server.live[key]))
    ensures q.end.workers[w].slept == p.end.workers[w].slept
  {
    var l := FreshGet(w, Found(p.end.server.live[key]));
    LiveIsCached(cfg, p.end, key);
    q := Extend(cfg, p, key, l);
    AfterRead(cfg, p.end, w, l.read);
    StepServer(cfg, p.end, l);
  }

  /** Where a worker goes when a retry loop returns nil. */
  function AfterLoop(op: Op): Pc {
    match op
    case MarkAnalyzing => Gathering
    case Publish(_) => Stamping
    case MarkError(_) => Idle
    case Stamp(_) => Idle
  }

  lemma WriteUpdate(cfg: Config, p: Walk, w: nat, job: Job, key: Key, op: Op, attempt: nat, base: ClusterDiagnosis)
    returns (q: Walk)
    requires IsWalk(cfg, p, key) && At(p, w, job, Write(op, attempt, base)) && key == KeyOf(cfg, job)
    requires key in p.end.server.live && p.end.server.live[key] == base
    ensures Onward(cfg, p, q, w, key) && NothingStarted(p, q)
    ensures Applies(p.end.server, q.end.server, key, op)
    ensures At(q, w, job, AfterLoop(op)) && q.end.workers[w].slept == p.end.workers[w].slept
  {
    var l := UpdateCall(w, Accepted);
    assert Admissible(p.end.server, RequestOf(cfg, p.end.workers[w]));
    q := Extend(cfg, p, key, l);
    AfterWrite(cfg, p.end, w, Accepted);
    AcceptedApplies(cfg, p.end, w);
    StepFrame(cfg, p.end, l);
  }

  lemma GatherContext(cfg: Config, p: Walk, w: nat, job: Job, key: Key) returns (q: Walk)
    requires IsWalk(cfg, p, key) && At(p, w, job, Gathering)
    ensures Onward(cfg, p, q, w, key) && NothingStarted(p, q) && q.end.server == p.end.server
    ensures At(q, w, job, Asking) && q.end.workers[w].slept == p.end.workers[w].slept
  {
    q := Extend(cfg, p, key, GatherCall(w, None));
  }

  lemma StartAsking(cfg: Config, p: Walk, w: nat, job: Job, key: Key) returns (q: Walk)
    requires IsWalk(cfg, p, key) && At(p, w, job, Asking) && key == KeyOf(cfg, job)
    ensures Onward(cfg, p, q, w, key) && q.asks == p.asks + 1 && q.starts == p.starts && q.end.server == p.end.server
    ensures At(q, w, job, Listening) && q.end.workers[w].slept == p.end.workers[w].slept
  {
    q := Extend(cfg, p, key, Ask(w));
  }

  lemma HearAnswer(cfg: Config, p: Walk, w: nat, job: Job, key: Key, answer: AskReply) returns (q: Walk, op: Op)
    requires IsWalk(cfg, p, key) && At(p, w, job, Listening)
    requires answer.Diagnosed? ==> cfg.legit(answer.diagnosis)
    ensures Onward(cfg, p, q, w, key) && NothingStarted(p, q) && q.end.server == p.end.server
    ensures At(q, w, job, Read(op, 0)) && q.end.workers[w].slept == p.end.workers[w].slept
    ensures answer.Refusal? ==> op == MarkError(answer.message)
    ensures answer.Diagnosed? ==> op.Publish? && op.bundle.fingerprint == FingerprintOf(job)
    ensures q.run == p.run + [Answer(w, answer)]
  {
    op := OpOfAnswer(cfg, p.end.workers[w], answer);
    q := Extend(cfg, p, key, Answer(w, answer));
    AfterAnswer(cfg, p.end, w, answer);
    StepServer(cfg, p.end, Answer(w, answer));
  }

  lemma TakeTime(cfg: Config, p: Walk, w: nat, job: Job, key: Key) returns (q: Walk)
    requires IsWalk(cfg, p, key) && At(p, w, job, Stamping)
    ensures Onward(cfg, p, q, w, key) && NothingStarted(p, q) && q.end.server == p.end.server
    ensures At(q, w, job, Read(Stamp(p.end.now), 0)) && q.end.workers[w].slept == p.end.workers[w].slept
  {
    q := Extend(cfg, p, key, ReadClock(w));
  }

  /** Time passes. */
  lemma LetPass(cfg: Config, p: Walk, key: Key, d: nat) returns (q: Walk)
    requires IsWalk(cfg, p, key)
    ensures IsWalk(cfg, q, key) && q.start == p.start && p.run <= q.run && NothingStarted(p, q)
    ensures q.end == p.end.(now := p.end.now + d)
  {
    q := Extend(cfg, p, key, Tick(d));
  }

  // ----- larger pieces -----

  /** A retry loop whose first attempt is accepted. */
  lemma RunLoop(cfg: Config, p: Walk, w: nat, job: Job, key: Key, op: Op) returns (q: Walk)
    requires IsWalk(cfg, p, key) && At(p, w, job, Read(op, 0))
    requires key == KeyOf(cfg, job) && key in p.end.server.live
    ensures Onward(cfg, p, q, w, key) && NothingStarted(p, q)
    ensures Applies(p.end.server, q.end.server, key, op)
    ensures At(q, w, job, AfterLoop(op))
  {
    var r := ReadForUpdate(cfg, p, w, job, key, op, 0);
    q := WriteUpdate(cfg, r, w, job, key, op, 0, p.end.server.live[key]);
  }

  /** From the mark to the moment before the model call. */
  lemma MarkAndGather(cfg: Config, p: Walk, w: nat, job: Job, key: Key) returns (q: Walk)
    requires IsWalk(cfg, p, key) && At(p, w, job, Read(MarkAnalyzing, 0))
    requires key == KeyOf(cfg, job) && key in p.end.server.live
    ensures Onward(cfg, p, q, w, key) && NothingStarted(p, q)
    ensures Applies(p.end.server, q.end.server, key, MarkAnalyzing)
    ensures At(q, w, job, Asking)
  {
    var r := RunLoop(cfg, p, w, job, key, MarkAnalyzing);
    q := GatherContext(cfg, r, w, job, key);
  }

  /** From setting out to the mark, the object being found as it is. */
  lemma VisitExisting(cfg: Config, p: Walk, w: nat, job: Job, key: Key) returns (q: Walk)
    requires IsWalk(cfg, p, key) && w < |p.end.workers| && p.end.workers[w].pc.Idle? && IsClassified(job)
    requires key == KeyOf(cfg, job) && key in p.end.server.live
    requires GateVerdict(p.end.server.live[key], FingerprintOf(job), p.end.now).Proceed?
    ensures Onward(cfg, p, q, w, key) && q.asks == p.asks && q.starts == p.starts + 1 && q.end.server == p.end.server
    ensures At(q, w, job, Read(MarkAnalyzing, 0))
  {
    var a := SetOutFor(cfg, p, w, job, key);
    LiveIsCached(cfg, a.end, key);
    var b := FindCopy(cfg, a, w, job, key, p.end.server.live[key]);
    q := PassGate(cfg, b, w, job, key);
  }

  /** From setting out to the re-read, the object being created. */
  lemma CreateNew(cfg: Config, p: Walk, w: nat, job: Job, key: Key) returns (q: Walk)
    requires IsWalk(cfg, p, key) && w < |p.end.workers| && p.end.workers[w].pc.Idle? && IsClassified(job)
    requires key == KeyOf(cfg, job) && key !in p.end.server.live
    ensures Onward(cfg, p, q, w, key) && q.asks == p.asks && q.starts == p.starts + 1
    ensures key in q.end.server.live
    ensures var cd := q.end.server.live[key]; cd.status == NEW_STATUS && cd.annotations == map[]
    ensures At(q, w, job, Reread) && q.end.workers[w].slept == 0
  {
    var a := SetOutFor(cfg, p, w, job, key);
    var b := FindNone(cfg, a, w, job, key);
    q := CreateObject(cfg, b, w, job, key);
  }

  /** From setting out to the mark, the object being created. */
  lemma VisitNew(cfg: Config, p: Walk, w: nat, job: Job, key: Key) returns (q: Walk)
    requires IsWalk(cfg, p, key) && w < |p.end.workers| && p.end.workers[w].pc.Idle? && IsClassified(job)
    requires key == KeyOf(cfg, job) && key !in p.end.server.live
    ensures Onward(cfg, p, q, w, key) && q.asks == p.asks && q.starts == p.starts + 1
    ensures key in q.end.server.live
    ensures var cd := q.end.server.live[key]; cd.status == NEW_STATUS && cd.annotations == map[]
    ensures At(q, w, job, Read(MarkAnalyzing, 0)) && q.end.workers[w].slept == 0
  {
    var a := CreateNew(cfg, p, w, job, key);
    var b := ReadBack(cfg, a, w, job, key);
    q := PassGate(cfg, b, w, job, key);
  }

  /** From the model call to the clock reading for the stamp, the model having answered. */
  lemma AskAndPublish(cfg: Config, p: Walk, w: nat, job: Job, key: Key, d: Diagnosis) returns (q: Walk, op: Op)
    requires IsWalk(cfg, p, key) && At(p, w, job, Asking) && cfg.legit(d)
    requires key == KeyOf(cfg, job) && key in p.end.server.live
    ensures Onward(cfg, p, q, w, key) && q.asks == p.asks + 1 && q.starts == p.starts
    ensures op.Publish? && op.bundle.fingerprint == FingerprintOf(job)
    ensures Applies(p.end.server, q.end.server, key, op)
    ensures At(q, w, job, Stamping)
  {
    var a := StartAsking(cfg, p, w, job, key);
    var b;
    b, op := HearAnswer(cfg, a, w, job, key, Diagnosed(d));
    q := RunLoop(cfg, b, w, job, key, op);
  }
}

/**
  The reconciler's own methods, `internal/controller/pod_controller.go`, lines 48-229, run step by
  step against a shared cluster that anyone else may change in between. Each method is shown to
  take exactly the steps of the machine, so every interleaving of such workers is one of its runs.
 */
module Reconciler {
  import opened Wrappers
  import opened Detect
  import opened Fingerprints
  import opened Resources
  import opened DiagnosisJson
  import opened ApiServer
  import opened Machine
  import opened Invariants
  import opened Accounting
  import opened Counters
  import opened Refinement
  import opened Cooldown

  // ----- histories -----

  ghost predicate StepAt(cfg: Config, trace: seq<State>, run: seq<Label>, i: nat)
    requires i < |run| && |trace| == |run| + 1
  {
    Enabled(cfg, trace[i], run[i]) && trace[i + 1] == Step(cfg, trace[i], run[i])
  }

  /** `trace` lists the states that a run goes through, from an initial one on. */
  ghost predicate IsHistory(cfg: Config, trace: seq<State>, run: seq<Label>) {
    && |trace| == |run| + 1
    && (exists now :: trace[0] == Init(cfg, now))
    && (forall i {:trigger StepAt(cfg, trace, run, i)} | 0 <= i < |run| :: StepAt(cfg, trace, run, i))
  }

  lemma HistoryGrows(cfg: Config, trace: seq<State>, run: seq<Label>, l: Label)
    requires IsHistory(cfg, trace, run) && Enabled(cfg, trace[|run|], l)
    ensures IsHistory(cfg, trace + [Step(cfg, trace[|run|], l)], run + [l])
  {
    var more, longer := trace + [Step(cfg, trace[|run|], l)], run + [l];
    assert more[0] == trace[0];
    forall i | 0 <= i < |longer| ensures StepAt(cfg, more, longer, i) {
      if i < |run| {
        assert StepAt(cfg, trace, run, i);
      }
    }
  }

  lemma FrontIsHistory(cfg: Config, trace: seq<State>, run: seq<Label>)
    requires IsHistory(cfg, trace, run) && run != []
    ensures IsHistory(cfg, trace[..|run|], run[..|run| - 1])
  {
    var before, front := trace[..|run|], run[..|run| - 1];
    assert before[0] == trace[0];
    forall i | 0 <= i < |front| ensures StepAt(cfg, before, front, i) {
      assert StepAt(cfg, trace, run, i);
    }
  }

  /** A history is a run of the machine, so all that holds in every run holds here. */
  lemma {:induction false} HistoryIsRun(cfg: Config, trace: seq<State>, run: seq<Label>)
    requires IsHistory(cfg, trace, run)
    ensures ValidRun(cfg, trace[0], run) && Exec(cfg, trace[0], run) == trace[|run|]
    decreases |run|
  {
    if run != [] {
      FrontIsHistory(cfg, trace, run);
      HistoryIsRun(cfg, trace[..|run|], run[..|run| - 1]);
      assert StepAt(cfg, trace, run, |run| - 1);
    }
  }

  lemma HistoryIsReachable(cfg: Config, trace: seq<State>, run: seq<Label>)
    requires IsHistory(cfg, trace, run)
    ensures Reachable(cfg, trace[|run|])
  {
    HistoryIsRun(cfg, trace, run);
  }

  /** What has happened so far: the states passed through, and the steps between them. */
  datatype History = History(trace: seq<State>, run: seq<Label>)
  {
    /** Nothing of it is ever withdrawn. */
    predicate GrewTo(later: History) {
      trace <= later.trace && run <= later.run
    }

    /** After step `i`, an accepted update of that worker, the answer is in the status, field by field. */
    ghost predicate ShownAt(cfg: Config, w: nat, i: nat, job: Job, since: Time, d: Diagnosis) {
      && i < |run| && run[i] == UpdateCall(w, Accepted) && i + 1 < |trace|
      && var key, live := KeyOf(cfg, job), trace[i + 1].server.live;
      && key in live && live[key].status.phase == "Ready" && live[key].status.message == ""
      && Shows(cfg, live[key].status, job, since, d)
    }

    /** From step `from` on, that worker's error was stored, unless no update of it was accepted. */
    ghost predicate ErrorShownSince(w: nat, from: nat, key: Key, message: string) {
      NoneAccepted(w, from) || exists i | from <= i :: ErrorShownAt(w, i, key, message)
    }

    /** From step `from` on, an accepted call of that worker carried the mutation out. */
    ghost predicate WasApplied(w: nat, from: nat, key: Key, op: Op) {
      exists i | from <= i < |run| ::
        run[i] == UpdateCall(w, Accepted) && i + 1 < |trace| && AppliedAt(trace, i, key, op)
    }

    /** From step `from` on, no update of that worker was accepted. */
    ghost predicate NoneAccepted(w: nat, from: nat) {
      forall i | from <= i < |run| :: run[i] != UpdateCall(w, Accepted)
    }

    /** At step `j` the worker got that answer. */
    ghost predicate HeardAt(w: nat, j: nat, d: Diagnosis) {
      j < |run| && run[j] == Answer(w, Diagnosed(d))
    }

    /** From step `from` on, the worker got an answer and then published it whole. */
    ghost predicate PublishedSince(cfg: Config, w: nat, from: nat, job: Job, since: Time) {
      exists j, i, d | from <= j < i :: HeardAt(w, j, d) && ShownAt(cfg, w, i, job, since, d)
    }

    /** From step `from` on, the worker checked its gates at that time. */
    ghost predicate GatedSince(w: nat, from: nat, at: Time) {
      exists g | from <= g < |run| :: run[g] == CheckGate(w) && g < |trace| && trace[g].now == at
    }

    /** From step `from` on, the worker went the whole way from its gates to a published answer. */
    ghost predicate AnsweredSince(cfg: Config, w: nat, from: nat, job: Job, since: Time) {
      GatedSince(w, from, since) && PublishedSince(cfg, w, from, job, since)
    }

    /** And the worker read that pod. */
    ghost predicate PodReadSince(w: nat, from: nat, pod: Pod) {
      exists p | from <= p < |run| :: run[p] == PodGet(w, PodFound(pod))
    }

    /** After step `i`, an accepted update of that worker, the error is in the status, in so many words. */
    ghost predicate ErrorShownAt(w: nat, i: nat, key: Key, message: string) {
      && i < |run| && run[i] == UpdateCall(w, Accepted) && i + 1 < |trace|
      && var live := trace[i + 1].server.live;
      key in live && live[key].status.phase == "Error" && live[key].status.message == message
    }
  }

  lemma AppliedSooner(w: nat, h: History, from: nat, sooner: nat, key: Key, op: Op)
    requires h.WasApplied(w, from, key, op) && sooner <= from
    ensures h.WasApplied(w, sooner, key, op)
  {
    var i :| from <= i < |h.run| &&
      h.run[i] == UpdateCall(w, Accepted) && i + 1 < |h.trace| && AppliedAt(h.trace, i, key, op);
  }

  lemma NoneAcceptedYet(w: nat, h: History, k: History, from: nat)
    requires h.NoneAccepted(w, from) && h.GrewTo(k) && k.NoneAccepted(w, |h.run|)
    ensures k.NoneAccepted(w, from)
  {
    forall i | from <= i < |k.run| ensures k.run[i] != UpdateCall(w, Accepted) {
      if i < |h.run| {
        assert k.run[i] == h.run[i];
      }
    }
  }

  /** What holds since the last attempt holds since the first. */
  lemma LoopEndsLater(w: nat, h: History, k: History, from: nat, key: Key, op: Op)
    requires h.NoneAccepted(w, from) && h.GrewTo(k) && from <= |h.run|
    ensures k.NoneAccepted(w, |h.run|) ==> k.NoneAccepted(w, from)
    ensures k.WasApplied(w, |h.run|, key, op) ==> k.WasApplied(w, from, key, op)
  {
    if k.NoneAccepted(w, |h.run|) {
      NoneAcceptedYet(w, h, k, from);
    }
    if k.WasApplied(w, |h.run|, key, op) {
      AppliedSooner(w, k, |h.run|, from, key, op);
    }
  }

  lemma StaysPublished(cfg: Config, w: nat, h: History, k: History, from: nat, sooner: nat, job: Job, since: Time)
    requires h.PublishedSince(cfg, w, from, job, since) && h.GrewTo(k) && sooner <= from
    ensures k.PublishedSince(cfg, w, sooner, job, since)
  {
    var j, i, d :| from <= j < i && h.HeardAt(w, j, d) && h.ShownAt(cfg, w, i, job, since, d);
    assert k.HeardAt(w, j, d) && k.ShownAt(cfg, w, i, job, since, d);
  }

  lemma JustGated(w: nat, h: History, from: nat)
    requires from < |h.run| == |h.trace| - 1 && h.run[|h.run| - 1] == CheckGate(w)
    ensures h.GatedSince(w, from, h.trace[|h.run| - 1].now)
  {
  }

  lemma ReadThenAnswered(cfg: Config, w: nat, h: History, k: History, from: nat, pod: Pod, job: Job, since: Time)
    requires from < |h.run| && h.run[|h.run| - 1] == PodGet(w, PodFound(pod)) && h.GrewTo(k)
    ensures k.PodReadSince(w, from, pod)
    ensures k.AnsweredSince(cfg, w, |h.run|, job, since) ==> k.AnsweredSince(cfg, w, from, job, since)
  {
    assert k.run[|h.run| - 1] == PodGet(w, PodFound(pod));
    AnsweredSooner(cfg, w, k, |h.run|, from, job, since);
  }

  lemma AnsweredSooner(cfg: Config, w: nat, h: History, from: nat, sooner: nat, job: Job, since: Time)
    requires sooner <= from
    ensures h.AnsweredSince(cfg, w, from, job, since) ==> h.AnsweredSince(cfg, w, sooner, job, since)
  {
    if h.AnsweredSince(cfg, w, from, job, since) {
      StaysPublished(cfg, w, h, h, from, sooner, job, since);
    }
  }

  /** The state shared by all workers, with the history that led to it. */
  class Cluster {
    const cfg: Config
    var s: State
    ghost var run: seq<Label>
    ghost var trace: seq<State>

    ghost predicate Valid()
      reads this
    {
      IsHistory(cfg, trace, run) && trace[|run|] == s
    }

    ghost function Past(): History
      reads this
    {
      History(trace, run)
    }

    constructor (cfg: Config, now: Time)
      ensures Valid() && this.cfg == cfg && run == [] && s == Init(cfg, now)
    {
      this.cfg := cfg;
      s := Init(cfg, now);
      run := [];
      trace := [Init(cfg, now)];
    }

    /** One atomic step. */
    method Take(l: Label)
      requires Valid() && Enabled(cfg, s, l)
      modifies this
      ensures Valid() && run == old(run) + [l] && s == Step(cfg, old(s), l)
      ensures trace == old(trace) + [s]
    {
      HistoryGrows(cfg, trace, run, l);
      s := Step(cfg, s, l);
      run := run + [l];
      trace := trace + [s];
    }

    /** Any reply that the server can give to a request now. */
    method AnyReply(r: Request) returns (reply: Reply)
      ensures ReplyFits(s.server, r, reply)
    {
      reply := *;
      if !ReplyFits(s.server, r, reply) {
        reply := TimedOut(Lost);
      }
    }

    /** Anything anyone but worker `w` can do, any number of times. */
    method Interfere(w: nat)
      requires Valid() && w < |s.workers|
      modifies this
      ensures Valid() && old(run) <= run && old(trace) <= trace
      ensures |s.workers| == |old(s).workers| && s.workers[w] == old(s).workers[w]
      ensures forall i | |old(run)| <= i < |run| :: Mover(run[i]) != Some(w)
    {
      var steps: nat := *;
      while steps > 0
        invariant Valid() && old(run) <= run && old(trace) <= trace
        invariant |s.workers| == |old(s).workers| && s.workers[w] == old(s).workers[w]
        invariant forall i | |old(run)| <= i < |run| :: Mover(run[i]) != Some(w)
      {
        var l: Label := *;
        if Enabled(cfg, s, l) && Mover(l) != Some(w) {
          StepFrame(cfg, s, l);
          Take(l);
        }
        steps := steps - 1;
      }
    }
  }

  /** The kinds of error the code tells apart. */
  datatype ApiError = Conflict | NotFound | AlreadyExists | Timeout | OtherError

  /** Step `i` of the history carried the mutation out on the object as it was then. */
  ghost predicate AppliedAt(trace: seq<State>, i: nat, key: Key, op: Op)
    requires i + 1 < |trace|
  {
    Applies(trace[i].server, trace[i + 1].server, key, op)
  }

  /** One object changed, under a new revision, and the mutation was carried out on it. */
  predicate Applies(before: Server, after: Server, key: Key, op: Op) {
    && key in before.live && key in after.live && after.live[key].rev == before.rev + 1
    && after.live == before.live[key := after.live[key]]
    && CarriedOut(op, before.live[key], after.live[key])
  }

  lemma AcceptedApplies(cfg: Config, s: State, w: nat)
    requires Reachable(cfg, s) && Enabled(cfg, s, UpdateCall(w, Accepted))
    ensures Applies(s.server, Step(cfg, s, UpdateCall(w, Accepted)).server,
                    KeyOf(cfg, s.workers[w].job), s.workers[w].pc.op)
  {
    ReachableHasInv(cfg, s);
    AcceptedCallApplies(cfg, s, w);
  }

  lemma AcceptedIsApplied(cfg: Config, trace: seq<State>, run: seq<Label>, w: nat)
    requires IsHistory(cfg, trace, run) && Enabled(cfg, trace[|run|], UpdateCall(w, Accepted))
    ensures var s := trace[|run|];
            AppliedAt(trace + [Step(cfg, s, UpdateCall(w, Accepted))], |run|,
                      KeyOf(cfg, s.workers[w].job), s.workers[w].pc.op)
  {
    HistoryIsReachable(cfg, trace, run);
    AcceptedApplies(cfg, trace[|run|], w);
  }

  /** Where a worker is after its loop returned nil. */
  predicate AfterDone(x: Worker, y: Worker, op: Op) {
    && y.job == x.job && y.since == x.since
    && match op
       case MarkAnalyzing => y.pc.Gathering?
       case Publish(_) => y.pc.Stamping?
       case MarkError(m) => y.pc.Idle? && y.exit == Failure(m)
       case Stamp(_) => y.pc.Idle? && y.exit == Success
  }

  /** Where a worker is after its loop returned an error. */
  predicate AfterFailed(x: Worker, y: Worker, op: Op, message: string) {
    && y.job == x.job && y.since == x.since && y.pc.Idle?
    && y.exit == Failure(if op.MarkError? then op.message else message)
  }

  /** What a read call does to the worker that makes it. */
  predicate ReadDone(x: Worker, y: Worker, read: ReadReply)
    requires x.pc.Recheck? || x.pc.Reread? || x.pc.Read?
  {
    match x.pc
    case Read(op, attempt) =>
      if read.Found? then y == x.(pc := Write(op, attempt, read.cd))
      else y.slept == x.slept && AfterFailed(x, y, op, ReadMessage(read))
    case Recheck => if read.Found? then y == x.(pc := Reread) else Returned(x, y, Failure(ReadMessage(read)))
    case _ => if read.Found? then y == x.(pc := Gate(read.cd)) else Returned(x, y, Failure(ReadMessage(read)))
  }

  function ReadMessage(read: ReadReply): string {
    if read.ReadError? then read.message else "not found"
  }

  predicate Returned(x: Worker, y: Worker, exit: Exit) {
    y == x.(pc := Idle, exit := exit)
  }

  /** The error a reply to an update is reported as. */
  function ErrorOf(reply: Reply, present: bool): Option<ApiError> {
    match reply
    case Accepted => None
    case Refused => Some(if present then Conflict else NotFound)
    case TimedOut(_) => Some(Timeout)
    case Broken(_) => Some(OtherError)
  }

  /** What an update call does to the worker that makes it. */
  predicate WriteDone(x: Worker, y: Worker, err: Option<ApiError>)
    requires x.pc.Write?
  {
    var op, attempt := x.pc.op, x.pc.attempt;
    if err.None? then AfterDone(x, y, op) && y.slept == x.slept
    else if err.value.Conflict? || err.value.Timeout? then
      && y.slept == x.slept + 25 * (attempt + 1)
      && if attempt + 1 < MAX_ATTEMPTS then y == x.(pc := Read(op, attempt + 1), slept := y.slept)
         else AfterFailed(x, y, op, Exhausted(op))
    else
      && y.slept == x.slept
      && AfterFailed(x, y, op, if err.value.NotFound? then "not found" else "update failed")
  }

  lemma AfterRead(cfg: Config, s: State, w: nat, read: ReadReply)
    requires Enabled(cfg, s, FreshGet(w, read))
    ensures w < |Step(cfg, s, FreshGet(w, read)).workers|
    ensures ReadDone(s.workers[w], Step(cfg, s, FreshGet(w, read)).workers[w], read)
  {
  }

  lemma AfterWrite(cfg: Config, s: State, w: nat, reply: Reply)
    requires Enabled(cfg, s, UpdateCall(w, reply))
    ensures w < |Step(cfg, s, UpdateCall(w, reply)).workers|
    ensures var x := s.workers[w];
            WriteDone(x, Step(cfg, s, UpdateCall(w, reply)).workers[w],
                      ErrorOf(reply, KeyOf(cfg, x.job) in s.server.live))
  {
  }

  /** Where a worker that entered a loop as `x` is before attempt `n`, or past the last one. */
  predicate BeforeAttempt(x: Worker, y: Worker, op: Op, n: nat) {
    && n <= MAX_ATTEMPTS
    && y.slept == x.slept + Backoff(n)
    && if n < MAX_ATTEMPTS then y == x.(pc := Read(op, n), slept := y.slept)
       else AfterFailed(x, y, op, Exhausted(op))
  }

  /** How a worker that entered a loop as `x` is when that returns: past its mutation, or sent on in error. */
  predicate LeftLoop(x: Worker, y: Worker, op: Op, err: Option<string>) {
    && x.slept <= y.slept <= x.slept + 900
    && match err
       case None => AfterDone(x, y, op) && y.slept <= x.slept + 700
       case Some(message) => AfterFailed(x, y, op, message)
  }

  lemma AttemptRead(x: Worker, y: Worker, z: Worker, op: Op, n: nat, read: ReadReply)
    requires n < MAX_ATTEMPTS && BeforeAttempt(x, y, op, n) && ReadDone(y, z, read)
    ensures if read.Found? then z == y.(pc := Write(op, n, read.cd)) else LeftLoop(x, z, op, Some(ReadMessage(read)))
  {
    BackoffTotals();
    BackoffGrows(n, 7);
  }

  lemma AttemptWrite(x: Worker, y: Worker, z: Worker, op: Op, n: nat, base: ClusterDiagnosis, err: Option<ApiError>)
    requires n < MAX_ATTEMPTS && BeforeAttempt(x, y.(pc := Read(op, n)), op, n) && y.pc == Write(op, n, base)
    requires WriteDone(y, z, err)
    ensures err.None? ==> LeftLoop(x, z, op, None)
    ensures err.Some? && (err.value.Conflict? || err.value.Timeout?) ==> BeforeAttempt(x, z, op, n + 1)
    ensures err.Some? && !err.value.Conflict? && !err.value.Timeout? ==>
              LeftLoop(x, z, op, Some(if err.value.NotFound? then "not found" else "update failed"))
  {
    BackoffTotals();
    BackoffGrows(n, 7);
  }

  lemma AttemptsOver(x: Worker, y: Worker, op: Op)
    requires BeforeAttempt(x, y, op, MAX_ATTEMPTS)
    ensures LeftLoop(x, y, op, Some(Exhausted(op)))
  {
    BackoffTotals();
  }

  /** The remaining calls, in the same way. */
  predicate PodDone(y: Worker, reply: PodReply) {
    && y.slept == 0
    && match reply
       case PodMissing => y.pc.Idle? && y.exit == Success
       case PodError(message) => y.pc.Idle? && y.exit == Failure(message)
       case PodFound(pod) =>
         var finding := Classification(pod);
         if finding.None? then y.pc.Idle? && y.exit == Success
         else y.pc.CacheRead? && y.job == Job(pod, finding.value.failure, finding.value.container)
  }

  lemma AfterPod(cfg: Config, s: State, w: nat, reply: PodReply)
    requires Enabled(cfg, s, PodGet(w, reply))
    ensures w < |Step(cfg, s, PodGet(w, reply)).workers|
    ensures PodDone(Step(cfg, s, PodGet(w, reply)).workers[w], reply)
  {
  }

  predicate CacheDone(x: Worker, y: Worker, read: ReadReply) {
    match read
    case Absent => y == x.(pc := Creating)
    case ReadError(message) => Returned(x, y, Failure(message))
    case Found(cd) => y == x.(pc := Gate(cd))
  }

  lemma AfterCache(cfg: Config, s: State, w: nat, read: ReadReply)
    requires Enabled(cfg, s, CacheGet(w, read))
    ensures w < |Step(cfg, s, CacheGet(w, read)).workers|
    ensures CacheDone(s.workers[w], Step(cfg, s, CacheGet(w, read)).workers[w], read)
  {
  }

  function CreateErrorOf(reply: Reply): Option<ApiError> {
    match reply
    case Accepted => None
    case Refused => Some(AlreadyExists)
    case TimedOut(_) => Some(Timeout)
    case Broken(_) => Some(OtherError)
  }

  predicate CreateDone(x: Worker, y: Worker, err: Option<ApiError>) {
    if err.None? then y == x.(pc := Reread)
    else if err.value.AlreadyExists? then y == x.(pc := Recheck)
    else
      && (err.value.Timeout? || err.value.OtherError?)
      && Returned(x, y, Failure(if err.value.Timeout? then "create timed out" else "create failed"))
  }

  lemma AfterCreate(cfg: Config, s: State, w: nat, reply: Reply)
    requires Enabled(cfg, s, CreateCall(w, reply))
    ensures w < |Step(cfg, s, CreateCall(w, reply)).workers|
    ensures CreateDone(s.workers[w], Step(cfg, s, CreateCall(w, reply)).workers[w], CreateErrorOf(reply))
  {
  }

  /** The gates: what the copy says, and where it leads. */
  ghost predicate GateDone(x: Worker, y: Worker, verdict: Verdict, now: Time)
    requires x.pc.Gate?
  {
    && y.slept == x.slept && y.job == x.job
    && (verdict.Current? <==> IsReadyFor(x.pc.seen, FingerprintOf(x.job)))
    && match verdict
       case Current => Returned(x, y, Success)
       case CoolDown(after) => after > 0 && CoolsFor(x.pc.seen, now, after) && Returned(x, y, Requeue(after))
       case Proceed =>
         && (forall after | CoolsFor(x.pc.seen, now, after) :: after <= 0)
         && y.pc == Read(MarkAnalyzing, 0) && y.since == now
  }

  lemma AfterGate(cfg: Config, s: State, w: nat)
    requires Enabled(cfg, s, CheckGate(w))
    ensures w < |Step(cfg, s, CheckGate(w)).workers|
    ensures var x := s.workers[w];
            GateDone(x, Step(cfg, s, CheckGate(w)).workers[w],
                     GateVerdict(x.pc.seen, FingerprintOf(x.job), s.now), s.now)
    ensures Step(cfg, s, CheckGate(w)).now == s.now
  {
    GatesExactly(s.workers[w].pc.seen, FingerprintOf(s.workers[w].job), s.now);
  }

  /** The mutation that follows an answer of the model. */
  function OpOfAnswer(cfg: Config, x: Worker, answer: AskReply): Op {
    match answer
    case Refusal(message) => MarkError(message)
    case Diagnosed(d) => Publish(BundleFrom(cfg, x.job, x.since, d))
  }

  lemma AfterGather(cfg: Config, s: State, w: nat, err: Option<string>)
    requires Enabled(cfg, s, GatherCall(w, err))
    ensures var t := Step(cfg, s, GatherCall(w, err));
            && w < |t.workers|
            && t.workers[w].(call := 0)
            == s.workers[w].(pc := if err.None? then Asking else Read(MarkError(err.value), 0), call := 0)
  {
  }

  lemma AfterAsk(cfg: Config, s: State, w: nat)
    requires Enabled(cfg, s, Ask(w))
    ensures Step(cfg, s, Ask(w)).workers == s.workers[w := s.workers[w].(pc := Listening)]
  {
  }

  lemma AfterAnswer(cfg: Config, s: State, w: nat, answer: AskReply)
    requires Enabled(cfg, s, Answer(w, answer))
    ensures var t := Step(cfg, s, Answer(w, answer));
            && w < |t.workers|
            && t.workers[w].(call := 0)
            == s.workers[w].(pc := Read(OpOfAnswer(cfg, s.workers[w], answer), 0), call := 0)
  {
  }

  lemma AfterClock(cfg: Config, s: State, w: nat)
    requires Enabled(cfg, s, ReadClock(w))
    ensures var t := Step(cfg, s, ReadClock(w));
            w < |t.workers| && t.workers[w].(call := 0) == s.workers[w].(pc := Read(Stamp(s.now), 0), call := 0)
  {
  }

  /** Of the three observations, the one with that name has grown by one. */
  predicate IsCountedAs(m: Metrics, n: Metrics, observed: string) {
    && n.observedError == m.observedError + One(observed == "error")
    && n.observedSkipped == m.observedSkipped + One(observed == "skipped")
    && n.observedSuccess == m.observedSuccess + One(observed == "success")
  }

  function ObservationOf(exit: Exit): string {
    match exit
    case Failure(_) => "error"
    case Requeue(_) => "skipped"
    case Success => "success"
  }

  /** The step on which a worker returns, taken in state `s`, calls for that result. */
  ghost predicate IsDue(cfg: Config, s: State, l: Label, exit: Exit)
    requires Enabled(cfg, s, l) && IsWorkerLabel(l)
  {
    var x := s.workers[l.w];
    match l
    case PodGet(_, reply) =>
      if reply.PodError? then exit == Failure(reply.message)
      else exit == Success && (reply.PodFound? ==> forall f :: !IsPrimary(reply.pod, f))
    case CacheGet(_, read) => read.ReadError? && exit == Failure(read.message)
    case CreateCall(_, reply) => (reply.TimedOut? || reply.Broken?) && exit.Failure?
    case FreshGet(_, read) =>
      && !read.Found?
      && exit == Failure(if x.pc.Read? && x.pc.op.MarkError? then x.pc.op.message
                         else if read.Absent? then "not found" else read.message)
    case CheckGate(_) =>
      if IsReadyFor(x.pc.seen, FingerprintOf(x.job)) then exit == Success
      else exit.Requeue? && exit.after > 0 && CoolsFor(x.pc.seen, s.now, exit.after)
    case UpdateCall(_, reply) =>
      && (reply.TimedOut? || (reply.Refused? && KeyOf(cfg, x.job) in s.server.live) ==> x.pc.attempt == 7)
      && (match x.pc.op
          case MarkError(m) => exit == Failure(m)
          case Stamp(_) => if reply.Accepted? then exit == Success else exit.Failure?
          case _ => !reply.Accepted? && exit.Failure?)
    case _ => false
  }

  lemma PodReturnIsDue(cfg: Config, s: State, w: nat, reply: PodReply)
    requires Enabled(cfg, s, PodGet(w, reply)) && PodStep(cfg, s, w, reply).workers[w].pc.Idle?
    ensures IsDue(cfg, s, PodGet(w, reply), PodStep(cfg, s, w, reply).workers[w].exit)
  {
    if reply.PodFound? {
      forall f ensures !IsPrimary(reply.pod, f) {
        ClassifiedExactly(reply.pod, f);
      }
    }
  }

  lemma FreshReturnIsDue(cfg: Config, s: State, w: nat, read: ReadReply)
    requires Enabled(cfg, s, FreshGet(w, read)) && FreshStep(cfg, s, w, read).workers[w].pc.Idle?
    ensures IsDue(cfg, s, FreshGet(w, read), FreshStep(cfg, s, w, read).workers[w].exit)
  {
  }

  lemma GateReturnIsDue(cfg: Config, s: State, w: nat)
    requires Enabled(cfg, s, CheckGate(w)) && GateStep(cfg, s, w).workers[w].pc.Idle?
    ensures IsDue(cfg, s, CheckGate(w), GateStep(cfg, s, w).workers[w].exit)
  {
    GatesExactly(s.workers[w].pc.seen, FingerprintOf(s.workers[w].job), s.now);
  }

  lemma UpdateReturnIsDue(cfg: Config, s: State, w: nat, reply: Reply)
    requires Inv(cfg, s) && Enabled(cfg, s, UpdateCall(w, reply)) && UpdateStep(cfg, s, w, reply).workers[w].pc.Idle?
    ensures IsDue(cfg, s, UpdateCall(w, reply), UpdateStep(cfg, s, w, reply).workers[w].exit)
  {
    assert s.workers[w].pc.attempt < MAX_ATTEMPTS;
  }

  /** A worker returns only when that is due, with the result that is. */
  lemma ReturnIsDue(cfg: Config, s: State, l: Label)
    requires Inv(cfg, s) && Enabled(cfg, s, l) && IsWorkerLabel(l) && !l.Crash?
    requires l.w < |Step(cfg, s, l).workers| && Step(cfg, s, l).workers[l.w].pc.Idle?
    ensures IsDue(cfg, s, l, Step(cfg, s, l).workers[l.w].exit)
  {
    match l {
      case PodGet(w, reply) => PodReturnIsDue(cfg, s, w, reply);
      case FreshGet(w, read) => FreshReturnIsDue(cfg, s, w, read);
      case CheckGate(w) => GateReturnIsDue(cfg, s, w);
      case UpdateCall(w, reply) => UpdateReturnIsDue(cfg, s, w, reply);
      case _ =>
    }
  }

  lemma ReturnCounts(cfg: Config, s: State, l: Label)
    requires Enabled(cfg, s, l) && IsWorkerLabel(l) && !l.Crash?
    requires l.w < |Step(cfg, s, l).workers| && Step(cfg, s, l).workers[l.w].pc.Idle?
    ensures IsCountedAs(s.metrics, Step(cfg, s, l).metrics, ObservationOf(Step(cfg, s, l).workers[l.w].exit))
  {
    var m, t := s.metrics, Step(cfg, s, l);
    StepCounts(cfg, s, l);
    var exit := t.workers[l.w].exit;
    assert Counter(ReturnedError, t.metrics) == Counter(ReturnedError, m) + One(exit.Failure?);
    assert Counter(ReturnedRequeue, t.metrics) == Counter(ReturnedRequeue, m) + One(exit.Requeue?);
    assert Counter(ReturnedSuccess, t.metrics) == Counter(ReturnedSuccess, m) + One(exit.Success?);
  }

  /** The step on which a worker returns is counted under the observation of its result. */
  lemma ReturnIsCounted(cfg: Config, trace: seq<State>, run: seq<Label>, w: nat)
    requires IsHistory(cfg, trace, run) && run != []
    requires Mover(run[|run| - 1]) == Some(w) && !run[|run| - 1].Crash?
    requires w < |trace[|run|].workers| && trace[|run|].workers[w].pc.Idle?
    ensures IsCountedAs(trace[|run| - 1].metrics, trace[|run|].metrics,
                        ObservationOf(trace[|run|].workers[w].exit))
  {
    assert StepAt(cfg, trace, run, |run| - 1);
    ReturnCounts(cfg, trace[|run| - 1], run[|run| - 1]);
  }

  /** And it calls for that result. */
  lemma LastReturnIsDue(cfg: Config, trace: seq<State>, run: seq<Label>, w: nat)
    requires IsHistory(cfg, trace, run) && run != []
    requires Mover(run[|run| - 1]) == Some(w) && !run[|run| - 1].Crash?
    requires w < |trace[|run|].workers| && trace[|run|].workers[w].pc.Idle?
    ensures Enabled(cfg, trace[|run| - 1], run[|run| - 1])
    ensures IsDue(cfg, trace[|run| - 1], run[|run| - 1], trace[|run|].workers[w].exit)
  {
    var n := |run| - 1;
    FrontIsHistory(cfg, trace, run);
    HistoryIsReachable(cfg, trace[..n + 1], run[..n]);
    ReachableHasInv(cfg, trace[n]);
    assert StepAt(cfg, trace, run, n);
    ReturnIsDue(cfg, trace[n], run[n]);
  }

  class PodReconciler {
    const c: Cluster
    const w: nat

    constructor (c: Cluster, w: nat)
      ensures this.c == c && this.w == w
    {
      this.c := c;
      this.w := w;
    }

    ghost predicate Ready()
      reads c
    {
      c.Valid() && w < |c.s.workers|
    }

    /** The last step in the history was taken by this worker, alive. */
    ghost predicate JustMoved()
      reads c
    {
      Ready() && c.run != [] && Mover(c.run[|c.run| - 1]) == Some(w) && !c.run[|c.run| - 1].Crash?
    }

    /** The history goes on from there. */
    ghost predicate Extends(run: seq<Label>, trace: seq<State>)
      reads c
    {
      run <= c.run && trace <= c.trace
    }

    function Me(): Worker
      requires w < |c.s.workers|
      reads c
    {
      c.s.workers[w]
    }

    // ----- calls -----

    /** A current read of the diagnosis, or whatever the server says instead. */
    method GetDiagnosis() returns (read: ReadReply)
      requires Ready() && (Me().pc.Recheck? || Me().pc.Reread? || Me().pc.Read?)
      modifies c
      ensures JustMoved() && Extends(old(c.run), old(c.trace)) && old(c.run) < c.run
      ensures ReadDone(old(Me()), Me(), read) && c.Past().NoneAccepted(w, |old(c.run)|)
    {
      c.Interfere(w);
      read := *;
      if !ReadFits(c.cfg, c.s.server, KeyOf(c.cfg, Me().job), c.cfg.apiReader, read) {
        read := ReadError("read failed");
      }
      AfterRead(c.cfg, c.s, w, read);
      c.Take(FreshGet(w, read));
    }

    /** Sends the mutated copy; the server applies the part its endpoint is responsible for. */
    method Update(sent: ClusterDiagnosis) returns (err: Option<ApiError>)
      requires Ready() && Me().pc.Write? && sent == Mutate(Me().pc.op, Me().pc.base)
      modifies c
      ensures JustMoved() && Extends(old(c.run), old(c.trace)) && old(c.run) < c.run
      ensures WriteDone(old(Me()), Me(), err)
      ensures err.None? ==> c.Past().WasApplied(w, |c.run| - 1, KeyOf(c.cfg, old(Me()).job), old(Me()).pc.op)
      ensures err.Some? ==> c.Past().NoneAccepted(w, |old(c.run)|)
    {
      c.Interfere(w);
      assert c.Past().NoneAccepted(w, |old(c.run)|);
      var reply := c.AnyReply(RequestOf(c.cfg, Me()));
      err := ErrorOf(reply, KeyOf(c.cfg, Me().job) in c.s.server.live);
      AfterWrite(c.cfg, c.s, w, reply);
      if reply.Accepted? {
        AcceptedIsApplied(c.cfg, c.trace, c.run, w);
      }
      c.Take(UpdateCall(w, reply));
    }

    // ----- the two retry loops -----

    /** How a loop ends: with its mutation applied, or with none accepted and the worker sent on in error. */
    ghost predicate LoopEnded(x: Worker, run: seq<Label>, trace: seq<State>, op: Op, err: Option<string>)
      reads c
    {
      && JustMoved() && Extends(run, trace) && LeftLoop(x, Me(), op, err)
      && (if err.None? then c.Past().WasApplied(w, |run|, KeyOf(c.cfg, x.job), op)
          else c.Past().NoneAccepted(w, |run|))
    }

    /** One attempt of either loop: None to go on with the next, otherwise what the loop returns. */
    method Attempt(ghost x: Worker, op: Op, attempt: nat) returns (outcome: Option<Option<string>>)
      requires Ready() && attempt < MAX_ATTEMPTS && BeforeAttempt(x, Me(), op, attempt)
      modifies c
      ensures JustMoved() && Extends(old(c.run), old(c.trace))
      ensures outcome.None? ==> BeforeAttempt(x, Me(), op, attempt + 1) && c.Past().NoneAccepted(w, |old(c.run)|)
      ensures outcome.Some? ==> LoopEnded(x, old(c.run), old(c.trace), op, outcome.value)
    {
      ghost var y := Me();
      var read := GetDiagnosis();
      ghost var z, k := Me(), c.Past();
      AttemptRead(x, y, z, op, attempt, read);
      if !read.Found? {
        return Some(Some(ReadMessage(read)));
      }
      var cur := Mutate(op, read.cd);
      var last := Update(cur);
      AttemptWrite(x, z, Me(), op, attempt, read.cd, last);
      if last.None? {
        AppliedSooner(w, c.Past(), |c.run| - 1, |old(c.run)|, KeyOf(c.cfg, x.job), op);
        return Some(None);
      }
      NoneAcceptedYet(w, k, c.Past(), |old(c.run)|);
      if last.value.Conflict? || last.value.Timeout? {
        return None;
      }
      return Some(Some(if last.value.NotFound? then "not found" else "update failed"));
    }

    method PatchDiagnosisStatus(op: Op) returns (err: Option<string>)
      requires Ready() && Me().pc == Read(op, 0) && !op.Stamp?
      modifies c
      ensures LoopEnded(old(Me()), old(c.run), old(c.trace), op, err)
    {
      ghost var x := Me();
      for attempt := 0 to MAX_ATTEMPTS
        invariant Ready() && Extends(old(c.run), old(c.trace)) && (attempt > 0 ==> JustMoved())
        invariant c.Past().NoneAccepted(w, |old(c.run)|)
        invariant BeforeAttempt(x, Me(), op, attempt)
      {
        ghost var h := c.Past();
        var outcome := Attempt(x, op, attempt);
        LoopEndsLater(w, h, c.Past(), |old(c.run)|, KeyOf(c.cfg, x.job), op);
        if outcome.Some? {
          return outcome.value;
        }
      }
      AttemptsOver(x, Me(), op);
      return Some("status update retries exhausted");
    }

    method PatchDiagnosisMeta(op: Op) returns (err: Option<string>)
      requires Ready() && Me().pc == Read(op, 0) && op.Stamp?
      modifies c
      ensures LoopEnded(old(Me()), old(c.run), old(c.trace), op, err)
    {
      ghost var x := Me();
      for attempt := 0 to MAX_ATTEMPTS
        invariant Ready() && Extends(old(c.run), old(c.trace)) && (attempt > 0 ==> JustMoved())
        invariant c.Past().NoneAccepted(w, |old(c.run)|)
        invariant BeforeAttempt(x, Me(), op, attempt)
      {
        ghost var h := c.Past();
        var outcome := Attempt(x, op, attempt);
        LoopEndsLater(w, h, c.Past(), |old(c.run)|, KeyOf(c.cfg, x.job), op);
        if outcome.Some? {
          return outcome.value;
        }
      }
      AttemptsOver(x, Me(), op);
      return Some("metadata update retries exhausted");
    }

    lemma AppliedErrorIsStored(from: nat, key: Key, message: string)
      requires c.Past().WasApplied(w, from, key, MarkError(message))
      ensures exists i | from <= i :: c.Past().ErrorShownAt(w, i, key, message)
    {
      var i :| from <= i < |c.run| && c.run[i] == UpdateCall(w, Accepted) && i + 1 < |c.trace| &&
        AppliedAt(c.trace, i, key, MarkError(message));
      assert c.Past().ErrorShownAt(w, i, key, message);
    }

    /** Records the error in the status and returns it; whether it could be recorded makes no difference. */
    method Fail(message: string) returns (result: Exit)
      requires Ready() && Me().pc == Read(MarkError(message), 0)
      modifies c
      ensures JustMoved() && Extends(old(c.run), old(c.trace))
      ensures Me().pc.Idle? && Me().exit == result == Failure(message)
      ensures Me().slept <= old(Me()).slept + 900
      ensures c.Past().ErrorShownSince(w, |old(c.run)|, KeyOf(c.cfg, old(Me()).job), message)
    {
      ghost var key := KeyOf(c.cfg, Me().job);
      var err := PatchDiagnosisStatus(MarkError(message));
      if err.None? {
        AppliedErrorIsStored(|old(c.run)|, key, message);
      }
      return Failure(message);
    }

    // ----- the remaining calls -----

    method GetPod() returns (reply: PodReply)
      requires Ready() && Me().pc.Idle?
      modifies c
      ensures JustMoved() && Extends(old(c.run), old(c.trace))
      ensures PodDone(Me(), reply) && c.run[|c.run| - 1] == PodGet(w, reply)
    {
      c.Interfere(w);
      reply := *;
      AfterPod(c.cfg, c.s, w, reply);
      c.Take(PodGet(w, reply));
    }

    method GetCached() returns (read: ReadReply)
      requires Ready() && Me().pc.CacheRead?
      modifies c
      ensures JustMoved() && Extends(old(c.run), old(c.trace))
      ensures CacheDone(old(Me()), Me(), read)
    {
      c.Interfere(w);
      read := *;
      if !ReadFits(c.cfg, c.s.server, KeyOf(c.cfg, Me().job), false, read) {
        read := ReadError("read failed");
      }
      AfterCache(c.cfg, c.s, w, read);
      c.Take(CacheGet(w, read));
    }

    method Create(cd: Spec) returns (err: Option<ApiError>)
      requires Ready() && Me().pc.Creating? && cd == SpecOf(Me().job)
      modifies c
      ensures JustMoved() && Extends(old(c.run), old(c.trace))
      ensures CreateDone(old(Me()), Me(), err)
    {
      c.Interfere(w);
      var reply := c.AnyReply(RequestOf(c.cfg, Me()));
      err := CreateErrorOf(reply);
      AfterCreate(c.cfg, c.s, w, reply);
      c.Take(CreateCall(w, reply));
    }

    /** The two gates, on the copy that was read and on the clock at that moment. */
    method PassGates(cd: ClusterDiagnosis, fp: string) returns (verdict: Verdict)
      requires Ready() && Me().pc == Gate(cd) && fp == FingerprintOf(Me().job) && Me().slept == 0
      modifies c
      ensures JustMoved() && Extends(old(c.run), old(c.trace))
      ensures GateDone(old(Me()), Me(), verdict, c.s.now)
      ensures old(c.run) < c.run && c.run[|c.run| - 1] == CheckGate(w)
      ensures verdict.Proceed? ==> c.Past().GatedSince(w, |old(c.run)|, Me().since)
    {
      c.Interfere(w);
      var now := c.s.now;
      verdict := Proceed;
      if cd.status.phase == "Ready" && cd.status.observedFingerprint == fp {
        verdict := Current;
      } else if STAMP_KEY in cd.annotations {
        match cd.annotations[STAMP_KEY] {
          case Instant(seconds) =>
            var elapsed := now - seconds * SECOND;
            if elapsed < MIN_BETWEEN_LLM {
              verdict := CoolDown(MIN_BETWEEN_LLM - elapsed);
            }
          case Other(_) =>
        }
      }
      GoThroughGate(verdict);
    }

    /** The step that the gates make, for the verdict they give now. */
    method GoThroughGate(ghost verdict: Verdict)
      requires Ready() && Me().pc.Gate? && verdict == GateVerdict(Me().pc.seen, FingerprintOf(Me().job), c.s.now)
      modifies c
      ensures JustMoved() && Extends(old(c.run), old(c.trace))
      ensures GateDone(old(Me()), Me(), verdict, c.s.now)
      ensures old(c.run) < c.run && c.run[|c.run| - 1] == CheckGate(w)
      ensures forall from | 0 <= from <= |old(c.run)| && verdict.Proceed? :: c.Past().GatedSince(w, from, Me().since)
    {
      AfterGate(c.cfg, c.s, w);
      c.Take(CheckGate(w));
      forall from | 0 <= from <= |old(c.run)| ensures c.Past().GatedSince(w, from, c.s.now) {
        JustGated(w, c.Past(), from);
      }
    }

    method Gather() returns (err: Option<string>)
      requires Ready() && Me().pc.Gathering?
      modifies c
      ensures JustMoved() && Extends(old(c.run), old(c.trace))
      ensures Me().(call := 0)
           == old(Me()).(pc := if err.None? then Asking else Read(MarkError(err.value), 0), call := 0)
    {
      c.Interfere(w);
      err := *;
      AfterGather(c.cfg, c.s, w, err);
      c.Take(GatherCall(w, err));
    }

    method Diagnose() returns (answer: AskReply)
      requires Ready() && Me().pc.Asking?
      modifies c
      ensures JustMoved() && Extends(old(c.run), old(c.trace))
      ensures var x := old(Me());
              Me().(call := 0) == x.(pc := Read(OpOfAnswer(c.cfg, x, answer), 0), call := 0)
      ensures answer.Diagnosed? ==> c.cfg.legit(answer.diagnosis)
      ensures old(c.run) < c.run && c.run[|c.run| - 1] == Answer(w, answer)
    {
      c.Interfere(w);
      AfterAsk(c.cfg, c.s, w);
      c.Take(Ask(w));
      c.Interfere(w);
      answer := *;
      if answer.Diagnosed? && !c.cfg.legit(answer.diagnosis) {
        answer := Refusal("no diagnosis");
      }
      AfterAnswer(c.cfg, c.s, w, answer);
      c.Take(Answer(w, answer));
    }

    method StampNow() returns (at: Time)
      requires Ready() && Me().pc.Stamping?
      modifies c
      ensures JustMoved() && Extends(old(c.run), old(c.trace))
      ensures Me().(call := 0) == old(Me()).(pc := Read(Stamp(at), 0), call := 0)
    {
      c.Interfere(w);
      at := c.s.now;
      AfterClock(c.cfg, c.s, w);
      c.Take(ReadClock(w));
    }

    // ----- the reconcile -----

    /** The copy of the diagnosis that the gates are checked on, or the result to return. */
    method FindOrCreate() returns (found: Option<ClusterDiagnosis>, result: Exit)
      requires Ready() && Me().pc.CacheRead? && Me().slept == 0
      modifies c
      ensures JustMoved() && Extends(old(c.run), old(c.trace)) && Me().slept == 0 && Me().job == old(Me()).job
      ensures found.Some? ==> Me().pc == Gate(found.value)
      ensures found.None? ==> Me().pc.Idle? && Me().exit == result && result.Failure?
    {
      var read := GetCached();
      if read.Absent? {
        var err := Create(SpecOf(Me().job));
        if err.Some? {
          if err.value.AlreadyExists? {
            read := GetDiagnosis();
            if !read.Found? {
              return None, Failure(ReadMessage(read));
            }
          } else {
            return None, Failure(if err.value.Timeout? then "create timed out" else "create failed");
          }
        }
        read := GetDiagnosis();
        if !read.Found? {
          return None, Failure(ReadMessage(read));
        }
      } else if read.ReadError? {
        return None, Failure(read.message);
      }
      return Some(read.cd), Success;
    }

    /** What the closure of lines 144-155 writes, but for phase and message. */
    method MakeBundle(job: Job, now: Time, d: Diagnosis) returns (bundle: Bundle)
      ensures bundle == BundleFrom(c.cfg, job, now, d)
      ensures bundle.rootCause == d.rootCause && bundle.severity == d.severity
      ensures bundle.recommendedFix == d.recommendedFix && bundle.model == d.model
      ensures bundle.lastUpdated == Some(now / 1_000_000_000)
      ensures bundle.fingerprint == FingerprintText(job.pod, job.container)
      ensures IsUsageOf(job.pod, job.container, bundle.resourceUsage)
      ensures bundle.remediations == c.cfg.remedies(job.failure)
    {
      var fp := Fingerprint(job.pod, job.container);
      var usage := BuildResourceUsage(Some(job.pod), job.container);
      bundle := Bundle(d.rootCause, d.severity, d.recommendedFix, d.model, Some(now / SECOND), fp, usage,
                       c.cfg.remedies(job.failure));
    }

    lemma HeardThenApplied(from: nat, job: Job, since: Time, d: Diagnosis)
      requires from > 0 && c.Past().HeardAt(w, from - 1, d)
      requires c.Past().WasApplied(w, from, KeyOf(c.cfg, job), Publish(BundleFrom(c.cfg, job, since, d)))
      ensures c.Past().PublishedSince(c.cfg, w, from - 1, job, since)
    {
      var key, b := KeyOf(c.cfg, job), BundleFrom(c.cfg, job, since, d);
      var i :| from <= i < |c.run| &&
        c.run[i] == UpdateCall(w, Accepted) && i + 1 < |c.trace| && AppliedAt(c.trace, i, key, Publish(b));
      CarriedShows(c.cfg, c.trace[i + 1].server.live[key].status, job, since, d);
      assert c.Past().ShownAt(c.cfg, w, i, job, since, d);
    }

    /** Stamps the cooldown with the clock as it then is. */
    method StampCooldown() returns (result: Exit)
      requires Ready() && Me().pc.Stamping?
      modifies c
      ensures JustMoved() && Extends(old(c.run), old(c.trace))
      ensures Me().pc.Idle? && Me().exit == result && !result.Requeue?
      ensures Me().slept <= old(Me()).slept + 900
      ensures result.Success? ==> Me().job == old(Me()).job && Me().since == old(Me()).since
    {
      var ts := StampNow();
      var err := PatchDiagnosisMeta(Stamp(ts));
      if err.Some? {
        return Failure(err.value);
      }
      return Success;
    }

    /** Publishes the answer it has just got and, once that has succeeded, stamps the cooldown. */
    method PublishAndStamp(d: Diagnosis) returns (result: Exit)
      requires JustMoved() && c.Past().HeardAt(w, |c.run| - 1, d) && Me().slept <= 700
      requires Me().pc == Read(Publish(BundleFrom(c.cfg, Me().job, Me().since, d)), 0)
      modifies c
      ensures JustMoved() && Extends(old(c.run), old(c.trace))
      ensures Me().pc.Idle? && Me().exit == result && !result.Requeue?
      ensures Me().slept <= 2300
      ensures result.Success? ==> Me().job == old(Me()).job && Me().since == old(Me()).since
      ensures result.Success? ==> c.Past().PublishedSince(c.cfg, w, |old(c.run)| - 1, Me().job, Me().since)
    {
      ghost var from := |c.run|;
      var bundle := MakeBundle(Me().job, Me().since, d);
      var err := PatchDiagnosisStatus(Publish(bundle));
      if err.Some? {
        return Failure(err.value);
      }
      HeardThenApplied(from, Me().job, Me().since, d);
      ghost var h, job, since := c.Past(), Me().job, Me().since;
      result := StampCooldown();
      StaysPublished(c.cfg, w, h, c.Past(), from - 1, from - 1, job, since);
    }

    /** From the model call to the stamp. */
    method Conclude() returns (result: Exit)
      requires Ready() && Me().pc.Asking? && Me().slept <= 700
      modifies c
      ensures JustMoved() && Extends(old(c.run), old(c.trace)) && Me().slept <= 2300
      ensures Me().pc.Idle? && Me().exit == result && !result.Requeue?
      ensures result.Success? ==> Me().job == old(Me()).job && Me().since == old(Me()).since
      ensures result.Success? ==> c.Past().PublishedSince(c.cfg, w, |old(c.run)|, Me().job, Me().since)
    {
      var answer := Diagnose();
      if answer.Refusal? {
        result := Fail(answer.message);
        return;
      }
      ghost var from := |c.run| - 1;
      result := PublishAndStamp(answer.diagnosis);
      if result.Success? {
        StaysPublished(c.cfg, w, c.Past(), c.Past(), from, |old(c.run)|, Me().job, Me().since);
      }
    }

    /** From gathering to the stamp. */
    method GatherAndConclude() returns (result: Exit)
      requires Ready() && Me().pc.Gathering? && Me().slept <= 700
      modifies c
      ensures JustMoved() && Extends(old(c.run), old(c.trace)) && Me().slept <= 2300
      ensures Me().pc.Idle? && Me().exit == result && !result.Requeue?
      ensures result.Success? ==> Me().job == old(Me()).job && Me().since == old(Me()).since
      ensures result.Success? ==> c.Past().PublishedSince(c.cfg, w, |old(c.run)|, Me().job, Me().since)
    {
      var err := Gather();
      if err.Some? {
        result := Fail(err.value);
        return;
      }
      ghost var from := |c.run|;
      result := Conclude();
      if result.Success? {
        StaysPublished(c.cfg, w, c.Past(), c.Past(), from, |old(c.run)|, Me().job, Me().since);
      }
    }

    /** From the analysis mark to the stamp. */
    method Analyze() returns (result: Exit)
      requires Ready() && Me().pc == Read(MarkAnalyzing, 0) && Me().slept == 0
      modifies c
      ensures JustMoved() && Extends(old(c.run), old(c.trace)) && Me().slept <= 2300
      ensures Me().pc.Idle? && Me().exit == result && !result.Requeue?
      ensures result.Success? ==> Me().job == old(Me()).job && Me().since == old(Me()).since
      ensures result.Success? ==> c.Past().PublishedSince(c.cfg, w, |old(c.run)|, Me().job, Me().since)
    {
      var err := PatchDiagnosisStatus(MarkAnalyzing);
      if err.Some? {
        return Failure(err.value);
      }
      ghost var from := |c.run|;
      result := GatherAndConclude();
      if result.Success? {
        StaysPublished(c.cfg, w, c.Past(), c.Past(), from, |old(c.run)|, Me().job, Me().since);
      }
    }

    /** From the gates to the stamp. */
    method AnalyzeUnlessGated(cd: ClusterDiagnosis, fp: string) returns (result: Exit)
      requires Ready() && Me().pc == Gate(cd) && fp == FingerprintOf(Me().job) && Me().slept == 0
      modifies c
      ensures JustMoved() && Extends(old(c.run), old(c.trace)) && Me().pc.Idle? && Me().exit == result
      ensures Me().slept <= 2300
      ensures result.Requeue? ==> result.after > 0
      ensures result.Success? ==> Me().job == old(Me()).job
      ensures result.Success? && !c.run[|c.run| - 1].CheckGate? ==>
        c.Past().AnsweredSince(c.cfg, w, |old(c.run)|, Me().job, Me().since)
    {
      var verdict := PassGates(cd, fp);
      if verdict.Current? {
        return Success;
      }
      if verdict.CoolDown? {
        return Requeue(verdict.after);
      }
      ghost var from := |c.run|;
      result := Analyze();
      if result.Success? {
        StaysPublished(c.cfg, w, c.Past(), c.Past(), from, |old(c.run)|, Me().job, Me().since);
      }
    }

    /** What is done about a classified pod. */
    method Treat(pod: Pod, finding: Finding) returns (result: Exit)
      requires Ready() && Me().pc.CacheRead? && Me().slept == 0
      requires Me().job == Job(pod, finding.failure, finding.container)
      modifies c
      ensures JustMoved() && Extends(old(c.run), old(c.trace)) && Me().pc.Idle? && Me().exit == result
      ensures Me().slept <= 2300
      ensures result.Requeue? ==> result.after > 0
      ensures result.Success? ==> Me().job == old(Me()).job
      ensures result.Success? && !c.run[|c.run| - 1].CheckGate? ==>
        c.Past().AnsweredSince(c.cfg, w, |old(c.run)|, Me().job, Me().since)
    {
      var found, early := FindOrCreate();
      if found.None? {
        return early;
      }
      var fp := Fingerprint(pod, finding.container);
      ghost var from := |c.run|;
      result := AnalyzeUnlessGated(found.value, fp);
      AnsweredSooner(c.cfg, w, c.Past(), from, |old(c.run)|, Me().job, Me().since);
    }

    /** In a reachable state, the last step calls for that result, and is counted under that name and no other. */
    ghost predicate ReturnedDuly(result: Exit, observed: string)
      reads c
    {
      && JustMoved() && |c.trace| == |c.run| + 1 && c.trace[|c.run|] == c.s && Reachable(c.cfg, c.s)
      && var n := |c.run| - 1;
      && Enabled(c.cfg, c.trace[n], c.run[n]) && IsDue(c.cfg, c.trace[n], c.run[n], result)
      && IsCountedAs(c.trace[n].metrics, c.s.metrics, observed)
    }

    lemma DulyReturned()
      requires JustMoved() && Me().pc.Idle?
      ensures ReturnedDuly(Me().exit, ObservationOf(Me().exit))
    {
      HistoryIsReachable(c.cfg, c.trace, c.run);
      LastReturnIsDue(c.cfg, c.trace, c.run, w);
      ReturnIsCounted(c.cfg, c.trace, c.run, w);
    }

    /** It had nothing to do or, from step `from` on, went from the pod through the gates to a published answer. */
    ghost predicate HasSucceeded(from: nat)
      reads c
    {
      && JustMoved()
      && (|| c.run[|c.run| - 1].PodGet? || c.run[|c.run| - 1].CheckGate?
          || (&& c.Past().PodReadSince(w, from, Me().job.pod)
              && c.Past().AnsweredSince(c.cfg, w, from, Me().job, Me().since)))
    }

    method ReconcileInner() returns (result: Exit)
      requires Ready() && Me().pc.Idle?
      modifies c
      ensures JustMoved() && Extends(old(c.run), old(c.trace)) && Me().pc.Idle? && Me().exit == result
      ensures Me().slept <= 2300
      ensures result.Requeue? ==> result.after > 0
      ensures result.Success? ==> HasSucceeded(|old(c.run)|)
    {
      var reply := GetPod();
      if !reply.PodFound? {
        return if reply.PodMissing? then Success else Failure(reply.message);
      }
      var finding := Classify(Some(reply.pod));
      if finding.None? {
        return Success;
      }
      ghost var h := c.Past();
      result := Treat(reply.pod, finding.value);
      ReadThenAnswered(c.cfg, w, h, c.Past(), |old(c.run)|, reply.pod, Me().job, Me().since);
    }

    /**
      Runs one reconcile and says under which observation it is counted: the step on which it
      returns is the one that adds to that counter and to no other observation. Whatever the
      server, the model and the other workers do, the worker ends idle with the result returned.
     */
    method Reconcile() returns (result: Exit, observed: string)
      requires Ready() && Me().pc.Idle?
      modifies c
      ensures JustMoved() && Extends(old(c.run), old(c.trace)) && Me().pc.Idle? && Me().exit == result
      ensures Me().slept <= 2300
      ensures observed == "error" <==> result.Failure?
      ensures observed == "skipped" <==> result.Requeue?
      ensures observed == "success" <==> result.Success?
      ensures result.Success? ==> HasSucceeded(|old(c.run)|)
      ensures ReturnedDuly(result, observed)
    {
      result := ReconcileInner();
      if result.Failure? {
        observed := "error";
      } else if result.Requeue? && result.after > 0 {
        observed := "skipped";
      } else {
        observed := "success";
      }
      assert observed == ObservationOf(result);
      DulyReturned();
    }
  }
}

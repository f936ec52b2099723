/**
  What each counter counts: `internal/controller/pod_controller.go`, lines 48-61, 126-180.
 */
module Counters {
  import opened ApiServer
  import opened Machine
  import opened Invariants
  import opened SettledCalls
  import opened Accounting

  /** What can happen in a step that some counter counts, said without the counters. */
  datatype Event =
    | MarkAccepted
    | PublishAccepted
    | PublishFailed
    | ErrorRecorded   // or the attempt to record it given up
    | DiedInAttempt
    | Started
    | Died
    | ReturnedError
    | ReturnedRequeue
    | ReturnedSuccess
    | SentAwayByCooldown

  /** A retry loop returns nil. */
  predicate IsAccepted(s: State, l: Label)
    requires IsWorkerLabel(l) ==> l.w < |s.workers|
  {
    l.UpdateCall? && l.reply.Accepted? && s.workers[l.w].pc.Write?
  }

  /** The retry loop of the worker that moved is over, and the worker still alive. */
  predicate LoopIsOver(s: State, l: Label, t: State)
    requires IsWorkerLabel(l) ==> l.w < |s.workers| && l.w < |t.workers|
  {
    IsWorkerLabel(l) && !l.Crash? && InLoop(s.workers[l.w]) && !InLoop(t.workers[l.w])
  }

  /** The worker that moved has returned from its reconcile. */
  predicate HasReturned(l: Label, t: State)
    requires IsWorkerLabel(l) ==> l.w < |t.workers|
  {
    IsWorkerLabel(l) && !l.Crash? && t.workers[l.w].pc.Idle?
  }

  predicate Happens(e: Event, s: State, l: Label, t: State)
    requires IsWorkerLabel(l) ==> l.w < |s.workers| && l.w < |t.workers|
  {
    match e
    case MarkAccepted => IsAccepted(s, l) && s.workers[l.w].pc.op.MarkAnalyzing?
    case PublishAccepted => IsAccepted(s, l) && s.workers[l.w].pc.op.Publish?
    case PublishFailed => LoopIsOver(s, l, t) && s.workers[l.w].pc.op.Publish? && !IsAccepted(s, l)
    case ErrorRecorded => LoopIsOver(s, l, t) && s.workers[l.w].pc.op.MarkError?
    case DiedInAttempt => l.Crash? && InAttempt(s.workers[l.w].pc)
    case Started => l.PodGet?
    case Died => l.Crash?
    case ReturnedError => HasReturned(l, t) && t.workers[l.w].exit.Failure?
    case ReturnedRequeue => HasReturned(l, t) && t.workers[l.w].exit.Requeue?
    case ReturnedSuccess => HasReturned(l, t) && t.workers[l.w].exit.Success?
    case SentAwayByCooldown =>
      l.CheckGate? && s.workers[l.w].pc.Gate? &&
      GateVerdict(s.workers[l.w].pc.seen, FingerprintOf(s.workers[l.w].job), s.now).CoolDown?
  }

  function Counter(e: Event, m: Metrics): nat {
    match e
    case MarkAccepted => m.marked
    case PublishAccepted => m.ready
    case PublishFailed => m.readyFailed
    case ErrorRecorded => m.errors
    case DiedInAttempt => m.died
    case Started => m.started
    case Died => m.crashed
    case ReturnedError => m.observedError
    case ReturnedRequeue => m.observedSkipped
    case ReturnedSuccess => m.observedSuccess
    case SentAwayByCooldown => m.cooldowns
  }

  ghost predicate Counts(s: State, l: Label, t: State) {
    (IsWorkerLabel(l) ==> l.w < |s.workers| && l.w < |t.workers|) &&
    forall e :: Counter(e, t.metrics) == Counter(e, s.metrics) + One(Happens(e, s, l, t))
  }

  lemma CrashCounts(cfg: Config, s: State, w: nat, late: bool)
    requires Enabled(cfg, s, Crash(w, late))
    ensures Counts(s, Crash(w, late), CrashStep(cfg, s, w, late))
  {
  }

  lemma PodCounts(cfg: Config, s: State, w: nat, reply: PodReply)
    requires Enabled(cfg, s, PodGet(w, reply))
    ensures Counts(s, PodGet(w, reply), PodStep(cfg, s, w, reply))
  {
  }

  lemma CacheCounts(cfg: Config, s: State, w: nat, read: ReadReply)
    requires Enabled(cfg, s, CacheGet(w, read))
    ensures Counts(s, CacheGet(w, read), CacheStep(cfg, s, w, read))
  {
  }

  lemma CreateCounts(cfg: Config, s: State, w: nat, reply: Reply)
    requires Enabled(cfg, s, CreateCall(w, reply))
    ensures Counts(s, CreateCall(w, reply), CreateStep(cfg, s, w, reply))
  {
  }

  lemma FreshCounts(cfg: Config, s: State, w: nat, read: ReadReply)
    requires Enabled(cfg, s, FreshGet(w, read))
    ensures Counts(s, FreshGet(w, read), FreshStep(cfg, s, w, read))
  {
  }

  lemma GateCounts(cfg: Config, s: State, w: nat)
    requires Enabled(cfg, s, CheckGate(w))
    ensures Counts(s, CheckGate(w), GateStep(cfg, s, w))
  {
  }

  lemma AcceptedCounts(cfg: Config, s: State, w: nat)
    requires Enabled(cfg, s, UpdateCall(w, Accepted))
    ensures Counts(s, UpdateCall(w, Accepted), UpdateStep(cfg, s, w, Accepted))
  {
  }

  lemma FailedCounts(s: State, t: State, w: nat, op: Op, message: string, l: Label)
    requires w < |s.workers| && InLoop(s.workers[w]) && s.workers[w].pc.op == op && l.UpdateCall? && l.w == w
    requires !l.reply.Accepted? && t.metrics == s.metrics && w < |t.workers|
    ensures Counts(s, l, LoopFailed(t, w, op, message))
  {
  }

  lemma RetryCounts(s: State, t: State, w: nat, reply: Reply)
    requires w < |s.workers| && s.workers[w].pc.Write? && !reply.Accepted?
    requires t.metrics == s.metrics && t.workers == s.workers
    ensures Counts(s, UpdateCall(w, reply), Retry(t, w, s.workers[w].pc.op, s.workers[w].pc.attempt))
  {
    var x := s.workers[w];
    var u := Put(t, w, x.(slept := x.slept + 25 * (x.pc.attempt + 1)));
    FailedCounts(s, u, w, x.pc.op, Exhausted(x.pc.op), UpdateCall(w, reply));
  }

  lemma RefusedCounts(cfg: Config, s: State, w: nat, reply: Reply)
    requires Enabled(cfg, s, UpdateCall(w, reply)) && !reply.Accepted?
    ensures Counts(s, UpdateCall(w, reply), UpdateStep(cfg, s, w, reply))
  {
    var x := s.workers[w];
    var t := s.(server := AfterReply(s.server, InFlight(RequestOf(cfg, x), x.call), reply));
    RetryCounts(s, t, w, reply);
    FailedCounts(s, t, w, x.pc.op, if reply.Refused? then "not found" else "update failed", UpdateCall(w, reply));
  }

  lemma AnswerCounts(cfg: Config, s: State, w: nat, answer: AskReply)
    requires Enabled(cfg, s, Answer(w, answer))
    ensures Counts(s, Answer(w, answer), AnswerStep(cfg, s, w, answer))
  {
  }

  /** Every step adds one to the counters of what happens in it, and nothing to the others. */
  lemma StepCounts(cfg: Config, s: State, l: Label)
    requires Enabled(cfg, s, l)
    ensures Counts(s, l, Step(cfg, s, l))
  {
    match l {
      case Crash(w, late) => CrashCounts(cfg, s, w, late);
      case PodGet(w, reply) => PodCounts(cfg, s, w, reply);
      case CacheGet(w, read) => CacheCounts(cfg, s, w, read);
      case CreateCall(w, reply) => CreateCounts(cfg, s, w, reply);
      case FreshGet(w, read) => FreshCounts(cfg, s, w, read);
      case CheckGate(w) => GateCounts(cfg, s, w);
      case UpdateCall(w, reply) =>
        if reply.Accepted? {
          AcceptedCounts(cfg, s, w);
        } else {
          RefusedCounts(cfg, s, w, reply);
        }
      case Answer(w, answer) => AnswerCounts(cfg, s, w, answer);
      case _ =>
    }
  }

  /** How often something happens in a run. */
  ghost function Tally(cfg: Config, s: State, run: seq<Label>, e: Event): nat
    requires ValidRun(cfg, s, run)
    decreases |run|
  {
    if run == [] then 0
    else
      var front, l := run[..|run| - 1], run[|run| - 1];
      var mid := Exec(cfg, s, front);
      StepFrame(cfg, mid, l);
      Tally(cfg, s, front, e) + One(Happens(e, mid, l, Step(cfg, mid, l)))
  }

  /** In every run each counter is the number of times that its event has happened. */
  lemma {:induction false} CountersCount(cfg: Config, start: Time, run: seq<Label>, e: Event)
    requires ValidRun(cfg, Init(cfg, start), run)
    ensures Counter(e, Exec(cfg, Init(cfg, start), run).metrics) == Tally(cfg, Init(cfg, start), run, e)
  {
    if run != [] {
      var front, l := run[..|run| - 1], run[|run| - 1];
      CountersCount(cfg, start, front, e);
      StepCounts(cfg, Exec(cfg, Init(cfg, start), front), l);
    }
  }

  /** The balances, said of the events themselves: in every run. */
  lemma EventsBalance(cfg: Config, start: Time, run: seq<Label>)
    requires ValidRun(cfg, Init(cfg, start), run)
    ensures var s, ws := Init(cfg, start), Exec(cfg, Init(cfg, start), run).workers;
            && Tally(cfg, s, run, MarkAccepted)
            == Tally(cfg, s, run, PublishAccepted) + Tally(cfg, s, run, ErrorRecorded)
               + Tally(cfg, s, run, PublishFailed) + Tally(cfg, s, run, DiedInAttempt) + Count(ws, Attempting)
            && Tally(cfg, s, run, Started)
            == Tally(cfg, s, run, ReturnedError) + Tally(cfg, s, run, ReturnedRequeue)
               + Tally(cfg, s, run, ReturnedSuccess) + Tally(cfg, s, run, Died) + Count(ws, Busy)
            && Tally(cfg, s, run, ReturnedRequeue) == Tally(cfg, s, run, SentAwayByCooldown)
  {
    var t := Exec(cfg, Init(cfg, start), run);
    RunsBalance(cfg, start, run);
    forall e ensures Counter(e, t.metrics) == Tally(cfg, Init(cfg, start), run, e) {
      CountersCount(cfg, start, run, e);
    }
    TalliesAre(cfg, start, run, t.metrics);
  }

  /** The tallies, counter by counter. */
  lemma TalliesAre(cfg: Config, start: Time, run: seq<Label>, m: Metrics)
    requires ValidRun(cfg, Init(cfg, start), run)
    requires forall e :: Counter(e, m) == Tally(cfg, Init(cfg, start), run, e)
    ensures var s := Init(cfg, start);
            && Tally(cfg, s, run, MarkAccepted) == m.marked && Tally(cfg, s, run, PublishAccepted) == m.ready
            && Tally(cfg, s, run, ErrorRecorded) == m.errors && Tally(cfg, s, run, PublishFailed) == m.readyFailed
            && Tally(cfg, s, run, DiedInAttempt) == m.died && Tally(cfg, s, run, Started) == m.started
            && Tally(cfg, s, run, Died) == m.crashed && Tally(cfg, s, run, ReturnedError) == m.observedError
            && Tally(cfg, s, run, ReturnedRequeue) == m.observedSkipped
            && Tally(cfg, s, run, ReturnedSuccess) == m.observedSuccess
            && Tally(cfg, s, run, SentAwayByCooldown) == m.cooldowns
  {
    assert Counter(MarkAccepted, m) == m.marked && Counter(PublishAccepted, m) == m.ready;
    assert Counter(ErrorRecorded, m) == m.errors && Counter(PublishFailed, m) == m.readyFailed;
    assert Counter(DiedInAttempt, m) == m.died && Counter(Started, m) == m.started;
    assert Counter(Died, m) == m.crashed && Counter(ReturnedError, m) == m.observedError;
    assert Counter(ReturnedRequeue, m) == m.observedSkipped && Counter(ReturnedSuccess, m) == m.observedSuccess;
    assert Counter(SentAwayByCooldown, m) == m.cooldowns;
  }
}

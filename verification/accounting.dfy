/**
  What the metrics add up to, and how long a reconcile can sleep in back-off, over every run.
 */
module Accounting {
  import opened ApiServer
  import opened Machine

  // ----- counting workers -----

  /** The workers between marking and an outcome, or those inside any reconcile. */
  datatype Group = Attempting | Busy
  {
    predicate Has(pc: Pc) {
      match this
      case Attempting => InAttempt(pc)
      case Busy => !pc.Idle?
    }
  }

  function Count(ws: seq<Worker>, g: Group): nat {
    if ws == [] then 0 else One(g.Has(ws[0].pc)) + Count(ws[1..], g)
  }

  function One(b: bool): nat {
    if b then 1 else 0
  }

  /** Moving one worker changes a count by what that worker stops or starts contributing. */
  lemma {:induction false} CountUpdate(ws: seq<Worker>, w: nat, x: Worker, g: Group)
    requires w < |ws|
    ensures Count(ws[w := x], g) + One(g.Has(ws[w].pc)) == Count(ws, g) + One(g.Has(x.pc))
  {
    if w == 0 {
      assert ws[0 := x][1..] == ws[1..];
    } else {
      CountUpdate(ws[1..], w - 1, x, g);
      assert ws[w := x][1..] == ws[1..][w - 1 := x];
    }
  }

  lemma {:induction false} CountNone(ws: seq<Worker>, g: Group)
    requires forall i :: 0 <= i < |ws| ==> !g.Has(ws[i].pc)
    ensures Count(ws, g) == 0
  {
    if ws != [] {
      CountNone(ws[1..], g);
    }
  }

  // ----- the balances -----

  /**
    Attempts that marked Analyzing are ready, failed, failed to publish, lost or still under way;
    reconciles that started have been observed once, were lost or are still under way.
   */
  ghost predicate Balanced(s: State) {
    && MarksBalance(s)
    && StartsBalance(s)
    && s.metrics.observedSkipped == s.metrics.cooldowns
  }

  ghost predicate MarksBalance(s: State) {
    var m := s.metrics;
    m.marked == m.ready + m.errors + m.readyFailed + m.died + Count(s.workers, Attempting)
  }

  ghost predicate StartsBalance(s: State) {
    var m := s.metrics;
    m.started == m.observedError + m.observedSkipped + m.observedSuccess + m.crashed + Count(s.workers, Busy)
  }

  /** What the mover itself contributes to both balances does not change. */
  ghost predicate Keeps(s: State, t: State, w: nat)
    requires w < |s.workers| && w < |t.workers|
  {
    var m, n := s.metrics, t.metrics;
    var p, q := s.workers[w].pc, t.workers[w].pc;
    && n.marked + m.ready + m.errors + m.readyFailed + m.died + One(InAttempt(p))
    == m.marked + n.ready + n.errors + n.readyFailed + n.died + One(InAttempt(q))
    && n.started + m.observedError + m.observedSkipped + m.observedSuccess + m.crashed + One(!p.Idle?)
    == m.started + n.observedError + n.observedSkipped + n.observedSuccess + n.crashed + One(!q.Idle?)
    && n.observedSkipped + m.cooldowns == m.observedSkipped + n.cooldowns
  }

  lemma GateKeeps(cfg: Config, s: State, w: nat)
    requires Enabled(cfg, s, CheckGate(w))
    ensures Keeps(s, GateStep(cfg, s, w), w)
  {
  }

  lemma LoopDoneKeeps(s: State, w: nat, op: Op)
    requires w < |s.workers| && s.workers[w].pc.Write? && s.workers[w].pc.op == op
    ensures Keeps(s, LoopDone(s, w, op), w)
  {
  }

  lemma LoopFailedKeeps(s: State, w: nat, op: Op, message: string)
    requires w < |s.workers| && (s.workers[w].pc.Write? || s.workers[w].pc.Read?) && s.workers[w].pc.op == op
    ensures Keeps(s, LoopFailed(s, w, op, message), w)
  {
  }

  lemma RetryKeeps(s: State, w: nat, op: Op, attempt: nat)
    requires w < |s.workers| && s.workers[w].pc.Write? && s.workers[w].pc.op == op
    ensures Keeps(s, Retry(s, w, op, attempt), w)
  {
    var x := s.workers[w];
    LoopFailedKeeps(Put(s, w, x.(slept := x.slept + 25 * (attempt + 1))), w, op, Exhausted(op));
  }

  lemma UpdateKeeps(cfg: Config, s: State, w: nat, reply: Reply)
    requires Enabled(cfg, s, UpdateCall(w, reply))
    ensures Keeps(s, UpdateStep(cfg, s, w, reply), w)
  {
    var x := s.workers[w];
    var t := s.(server := AfterReply(s.server, InFlight(RequestOf(cfg, x), x.call), reply));
    LoopDoneKeeps(t, w, x.pc.op);
    LoopFailedKeeps(t, w, x.pc.op, if reply.Refused? then "not found" else "update failed");
    RetryKeeps(t, w, x.pc.op, x.pc.attempt);
  }

  lemma FreshKeeps(cfg: Config, s: State, w: nat, read: ReadReply)
    requires Enabled(cfg, s, FreshGet(w, read))
    ensures Keeps(s, FreshStep(cfg, s, w, read), w)
  {
  }

  lemma PodKeeps(cfg: Config, s: State, w: nat, reply: PodReply)
    requires Enabled(cfg, s, PodGet(w, reply))
    ensures Keeps(s, PodStep(cfg, s, w, reply), w)
  {
  }

  lemma CrashKeeps(cfg: Config, s: State, w: nat, late: bool)
    requires Enabled(cfg, s, Crash(w, late))
    ensures Keeps(s, CrashStep(cfg, s, w, late), w)
  {
  }

  lemma CreateKeeps(cfg: Config, s: State, w: nat, reply: Reply)
    requires Enabled(cfg, s, CreateCall(w, reply))
    ensures Keeps(s, CreateStep(cfg, s, w, reply), w)
  {
  }

  lemma OtherMoverKeeps(cfg: Config, s: State, l: Label)
    requires Enabled(cfg, s, l)
    requires l.CacheGet? || l.GatherCall? || l.Ask? || l.Answer? || l.ReadClock?
    ensures Keeps(s, Step(cfg, s, l), l.w) && Moves(s, Step(cfg, s, l), l.w)
  {
  }

  lemma MoverKeeps(cfg: Config, s: State, l: Label)
    requires Enabled(cfg, s, l) && IsWorkerLabel(l)
    ensures Keeps(s, Step(cfg, s, l), l.w) && Moves(s, Step(cfg, s, l), l.w)
  {
    match l {
      case Crash(w, late) => CrashKeeps(cfg, s, w, late);
      case CreateCall(w, reply) => CreateKeeps(cfg, s, w, reply);
      case PodGet(w, reply) => PodKeeps(cfg, s, w, reply);
      case FreshGet(w, read) => FreshKeeps(cfg, s, w, read);
      case CheckGate(w) => GateKeeps(cfg, s, w);
      case UpdateCall(w, reply) => UpdateKeeps(cfg, s, w, reply);
      case _ => OtherMoverKeeps(cfg, s, l);
    }
  }

  lemma StepKeepsBalance(cfg: Config, s: State, l: Label)
    requires Balanced(s) && Enabled(cfg, s, l)
    ensures Balanced(Step(cfg, s, l))
  {
    if IsWorkerLabel(l) {
      var t := Step(cfg, s, l);
      MoverKeeps(cfg, s, l);
      CountUpdate(s.workers, l.w, t.workers[l.w], Attempting);
      CountUpdate(s.workers, l.w, t.workers[l.w], Busy);
    }
  }

  lemma NobodyAttempts(ws: seq<Worker>)
    requires forall i :: 0 <= i < |ws| ==> ws[i].pc.Idle?
    ensures Count(ws, Attempting) == 0
  {
    CountNone(ws, Attempting);
  }

  lemma NobodyIsBusy(ws: seq<Worker>)
    requires forall i :: 0 <= i < |ws| ==> ws[i].pc.Idle?
    ensures Count(ws, Busy) == 0
  {
    CountNone(ws, Busy);
  }

  lemma ZeroBalances(s: State)
    requires s.metrics == Metrics(0, 0, 0, 0, 0, 0, 0, 0, 0, 0, 0)
    requires Count(s.workers, Attempting) == 0 && Count(s.workers, Busy) == 0
    ensures Balanced(s)
  {
  }

  lemma InitBalances(cfg: Config, start: Time)
    ensures Balanced(Init(cfg, start))
  {
    var ws := Init(cfg, start).workers;
    NobodyAttempts(ws);
    NobodyIsBusy(ws);
    ZeroBalances(Init(cfg, start));
  }

  /** Both balances hold after every finite run of any number of workers. */
  lemma {:induction false} RunsBalance(cfg: Config, start: Time, run: seq<Label>)
    requires ValidRun(cfg, Init(cfg, start), run)
    ensures Balanced(Exec(cfg, Init(cfg, start), run))
  {
    if run == [] {
      InitBalances(cfg, start);
    } else {
      var front := run[..|run| - 1];
      RunsBalance(cfg, start, front);
      StepKeepsBalance(cfg, Exec(cfg, Init(cfg, start), front), run[|run| - 1]);
    }
  }

  /** With no worker under way, every finished attempt has exactly one of the three outcomes. */
  lemma QuietBalance(cfg: Config, start: Time, run: seq<Label>)
    requires ValidRun(cfg, Init(cfg, start), run)
    requires var ws := Exec(cfg, Init(cfg, start), run).workers; forall i :: 0 <= i < |ws| ==> ws[i].pc.Idle?
    ensures var m := Exec(cfg, Init(cfg, start), run).metrics;
            && m.marked - m.died == m.ready + m.errors + m.readyFailed
            && m.started - m.crashed == m.observedError + m.observedSkipped + m.observedSuccess
            && m.observedSkipped == m.cooldowns
  {
    RunsBalance(cfg, start, run);
    var s := Exec(cfg, Init(cfg, start), run);
    assert forall i :: 0 <= i < |s.workers| ==> s.workers[i].pc.Idle?;
    NobodyAttempts(s.workers);
    NobodyIsBusy(s.workers);
  }

  // ----- back-off -----

  /** Milliseconds slept by the first `attempts` attempts of a loop. */
  function Backoff(attempts: nat): nat {
    if attempts == 0 then 0 else Backoff(attempts - 1) + 25 * attempts
  }

  lemma BackoffTotals()
    ensures Backoff(7) == 700 && Backoff(8) == 900
  {
    assert Backoff(4) == 250;
  }

  lemma {:induction false} BackoffGrows(a: nat, b: nat)
    requires a <= b
    ensures Backoff(a) <= Backoff(b)
  {
    if a < b {
      BackoffGrows(a, b - 1);
    }
  }

  /** What a reconcile can have slept before its loop for that mutation. */
  function Allowance(op: Op): nat {
    match op
    case MarkAnalyzing => 0
    case Publish(_) => 700
    case MarkError(_) => 700
    case Stamp(_) => 1400
  }

  predicate SleptOk(x: Worker) {
    match x.pc
    case Idle => x.slept <= 2300
    case Read(op, attempt) => attempt < MAX_ATTEMPTS && x.slept <= Allowance(op) + Backoff(attempt)
    case Write(op, attempt, _) => attempt < MAX_ATTEMPTS && x.slept <= Allowance(op) + Backoff(attempt)
    case Gathering => x.slept <= 700
    case Asking => x.slept <= 700
    case Listening => x.slept <= 700
    case Stamping => x.slept <= 1400
    case _ => x.slept == 0
  }

  lemma LoopSleeps(x: Worker)
    requires SleptOk(x) && (x.pc.Read? || x.pc.Write?)
    ensures x.slept <= Allowance(x.pc.op) + 700 && x.slept + 25 * (x.pc.attempt + 1) <= Allowance(x.pc.op) + 900
    ensures x.pc.attempt + 1 < MAX_ATTEMPTS ==>
              x.slept + 25 * (x.pc.attempt + 1) <= Allowance(x.pc.op) + Backoff(x.pc.attempt + 1)
  {
    BackoffTotals();
    BackoffGrows(x.pc.attempt, 7);
    BackoffGrows(x.pc.attempt + 1, 8);
  }

  lemma LoopDoneSleeps(s: State, w: nat)
    requires w < |s.workers| && s.workers[w].pc.Write? && SleptOk(s.workers[w])
    ensures SleptOk(LoopDone(s, w, s.workers[w].pc.op).workers[w])
  {
    LoopSleeps(s.workers[w]);
  }

  lemma LoopFailedSleeps(s: State, w: nat, op: Op, message: string)
    requires w < |s.workers| && s.workers[w].slept <= 2300
    ensures SleptOk(LoopFailed(s, w, op, message).workers[w])
  {
  }

  lemma RetrySleeps(s: State, w: nat)
    requires w < |s.workers| && s.workers[w].pc.Write? && SleptOk(s.workers[w])
    ensures SleptOk(Retry(s, w, s.workers[w].pc.op, s.workers[w].pc.attempt).workers[w])
  {
    LoopSleeps(s.workers[w]);
  }

  lemma UpdateSleeps(cfg: Config, s: State, w: nat, reply: Reply)
    requires Enabled(cfg, s, UpdateCall(w, reply)) && SleptOk(s.workers[w])
    ensures SleptOk(UpdateStep(cfg, s, w, reply).workers[w])
  {
    var x := s.workers[w];
    var t := s.(server := AfterReply(s.server, InFlight(RequestOf(cfg, x), x.call), reply));
    LoopSleeps(x);
    LoopDoneSleeps(t, w);
    RetrySleeps(t, w);
    LoopFailedSleeps(t, w, x.pc.op, if reply.Refused? then "not found" else "update failed");
  }

  lemma FreshSleeps(cfg: Config, s: State, w: nat, read: ReadReply)
    requires Enabled(cfg, s, FreshGet(w, read)) && SleptOk(s.workers[w])
    ensures SleptOk(FreshStep(cfg, s, w, read).workers[w])
  {
    if s.workers[w].pc.Read? {
      LoopSleeps(s.workers[w]);
    }
  }

  lemma MoverSleeps(cfg: Config, s: State, l: Label)
    requires Enabled(cfg, s, l) && IsWorkerLabel(l) && SleptOk(s.workers[l.w])
    ensures SleptOk(Step(cfg, s, l).workers[l.w])
  {
    match l {
      case UpdateCall(w, reply) => UpdateSleeps(cfg, s, w, reply);
      case FreshGet(w, read) => FreshSleeps(cfg, s, w, read);
      case Crash(w, _) => BoundOfSlept(s.workers[w]);
      case _ =>
    }
  }

  /** In every run no reconcile sleeps more than 2300 milliseconds, whatever the server answers. */
  lemma {:induction false} BackoffBound(cfg: Config, start: Time, run: seq<Label>, i: nat)
    requires ValidRun(cfg, Init(cfg, start), run) && i < cfg.workers
    ensures var s := Exec(cfg, Init(cfg, start), run);
            i < |s.workers| && SleptOk(s.workers[i]) && s.workers[i].slept <= 2300
  {
    if run != [] {
      var front, l := run[..|run| - 1], run[|run| - 1];
      var s := Exec(cfg, Init(cfg, start), front);
      BackoffBound(cfg, start, front, i);
      if IsWorkerLabel(l) {
        assert Moves(s, Step(cfg, s, l), l.w);
        if l.w == i {
          MoverSleeps(cfg, s, l);
        }
      }
      BoundOfSlept(Exec(cfg, Init(cfg, start), run).workers[i]);
    }
  }

  lemma BoundOfSlept(x: Worker)
    requires SleptOk(x)
    ensures x.slept <= 2300
  {
    if x.pc.Read? || x.pc.Write? {
      LoopSleeps(x);
    }
  }
}

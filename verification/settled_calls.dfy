/**
  Once a retry loop has returned nil, none of its earlier attempts that timed out can still land.
 */
module SettledCalls {
  import opened ApiServer
  import opened Machine
  import opened Invariants

  predicate InLoop(x: Worker) {
    x.pc.Read? || x.pc.Write?
  }

  /** Loops are numbered apart, and the numbers of running loops are not those of settled ones. */
  ghost predicate CallsOk(s: State) {
    && (forall n | n in s.settled :: n < s.calls)
    && (forall i | 0 <= i < |s.workers| && InLoop(s.workers[i]) ::
          s.workers[i].call < s.calls && s.workers[i].call !in s.settled)
    && (forall i, j | 0 <= i < j < |s.workers| && InLoop(s.workers[i]) && InLoop(s.workers[j]) ::
          s.workers[i].call != s.workers[j].call)
  }

  /** What a settled loop left on the wire is dead, and a running loop left it for its own key. */
  ghost predicate WiresOk(cfg: Config, s: State) {
    && (forall f | f in s.server.pending && f.request.UpdateRequest? ::
          f.call < s.calls && (f.call in s.settled ==> Dead(s.server, f.request)))
    && (forall f, i | f in s.server.pending && f.request.UpdateRequest? && 0 <= i < |s.workers|
          && InLoop(s.workers[i]) && s.workers[i].call == f.call ::
          f.request.key == KeyOf(cfg, s.workers[i].job))
  }

  lemma UpdateCallKeepsCallsOk(cfg: Config, s: State, w: nat, reply: Reply)
    requires CallsOk(s) && Enabled(cfg, s, UpdateCall(w, reply))
    ensures CallsOk(UpdateStep(cfg, s, w, reply))
  {
    var x, t := s.workers[w], UpdateStep(cfg, s, w, reply);
    AfterUpdate(cfg, s, w, reply);
    LoopNumbers(cfg, s, w, reply);
  }

  /** Only an accepted update settles its loop; every other reply leaves the numbers alone. */
  lemma LoopNumbers(cfg: Config, s: State, w: nat, reply: Reply)
    requires Enabled(cfg, s, UpdateCall(w, reply))
    ensures var x, t := s.workers[w], UpdateStep(cfg, s, w, reply);
            && t.calls == s.calls && t.workers[w].call == x.call
            && t.settled == (if reply.Accepted? then s.settled + {x.call} else s.settled)
            && (reply.Accepted? ==> !InLoop(t.workers[w]))
  {
  }

  lemma StepKeepsCallsOk(cfg: Config, s: State, l: Label)
    requires CallsOk(s) && Enabled(cfg, s, l)
    ensures CallsOk(Step(cfg, s, l))
  {
    if l.UpdateCall? {
      UpdateCallKeepsCallsOk(cfg, s, l.w, l.reply);
    } else {
      OtherNumbers(cfg, s, l);
    }
  }

  /** Any other step may open one loop, under a number of its own. */
  lemma OtherNumbers(cfg: Config, s: State, l: Label)
    requires Enabled(cfg, s, l) && !l.UpdateCall?
    ensures var t := Step(cfg, s, l);
            && t.settled == s.settled
            && (forall i | 0 <= i < |s.workers| && (IsWorkerLabel(l) ==> i != l.w) :: t.workers[i] == s.workers[i])
            && (IsWorkerLabel(l) ==>
                  || (t.calls == s.calls && (InLoop(t.workers[l.w]) ==>
                        && InLoop(s.workers[l.w]) && t.workers[l.w].call == s.workers[l.w].call
                        && t.workers[l.w].job == s.workers[l.w].job))
                  || (t.calls == s.calls + 1 && t.workers[l.w].call == s.calls))
            && (!IsWorkerLabel(l) ==> t.calls == s.calls && t.workers == s.workers)
            && |t.workers| == |s.workers|
  {
  }

  // ----- the wires -----

  /** No step of the server revives a dead update. */
  lemma ServerStepKeepsDead(cfg: Config, s: State, l: Label, r: Request)
    requires Enabled(cfg, s, l) && Dead(s.server, r)
    ensures Dead(ServerAfter(cfg, s, l), r)
  {
    match l {
      case Annotating(key, name, note) => AnnotateKeepsDead(s.server, key, name, note, r);
      case Landing(f) => DeadStaysDead(s.server, f.request, r);
      case CreateCall(w, reply) => ReplyKeepsDead(s.server, WireOf(cfg, s.workers[w]), reply, r);
      case UpdateCall(w, reply) => ReplyKeepsDead(s.server, WireOf(cfg, s.workers[w]), reply, r);
      case _ =>
    }
  }

  lemma ReplyKeepsDead(sv: Server, f: InFlight, reply: Reply, r: Request)
    requires ReplyFits(sv, f.request, reply) && Dead(sv, r)
    ensures Dead(AfterReply(sv, f, reply), r)
  {
    if Admissible(sv, f.request) {
      DeadStaysDead(sv, f.request, r);
    }
  }

  /** Only a worker's own request is ever added to the wire. */
  lemma NewWires(cfg: Config, s: State, l: Label, f: InFlight)
    requires Enabled(cfg, s, l) && f in ServerAfter(cfg, s, l).pending && f !in s.server.pending
    ensures (l.Crash? || l.CreateCall? || l.UpdateCall?)
    ensures (s.workers[l.w].pc.Creating? || s.workers[l.w].pc.Write?) && f == WireOf(cfg, s.workers[l.w])
    ensures l.UpdateCall? ==> !l.reply.Accepted?
  {
  }

  lemma StepKeepsWiresOk(cfg: Config, s: State, l: Label)
    requires Inv(cfg, s) && CallsOk(s) && WiresOk(cfg, s) && Enabled(cfg, s, l)
    ensures WiresOk(cfg, Step(cfg, s, l))
  {
    var t := Step(cfg, s, l);
    StepServer(cfg, s, l);
    StepFrame(cfg, s, l);
    if l.UpdateCall? {
      LoopNumbers(cfg, s, l.w, l.reply);
      AfterUpdate(cfg, s, l.w, l.reply);
    } else {
      OtherNumbers(cfg, s, l);
    }
    forall f | f in t.server.pending && f.request.UpdateRequest?
      ensures f.call < t.calls && (f.call in t.settled ==> Dead(t.server, f.request))
    {
      WireStaysOk(cfg, s, l, f);
    }
    forall f, i | f in t.server.pending && f.request.UpdateRequest? && 0 <= i < |t.workers|
      && InLoop(t.workers[i]) && t.workers[i].call == f.call
      ensures f.request.key == KeyOf(cfg, t.workers[i].job)
    {
      WireKeepsKey(cfg, s, l, f, i);
    }
  }

  lemma WireStaysOk(cfg: Config, s: State, l: Label, f: InFlight)
    requires Consistent(s.server) && CallsOk(s) && WiresOk(cfg, s) && Enabled(cfg, s, l)
    requires f in ServerAfter(cfg, s, l).pending && f.request.UpdateRequest?
    ensures var t := Step(cfg, s, l);
            f.call < t.calls && (f.call in t.settled ==> Dead(ServerAfter(cfg, s, l), f.request))
  {
    if l.UpdateCall? {
      LoopNumbers(cfg, s, l.w, l.reply);
    } else {
      OtherNumbers(cfg, s, l);
    }
    if f !in s.server.pending {
      NewWires(cfg, s, l, f);
    } else if f.call in s.settled {
      ServerStepKeepsDead(cfg, s, l, f.request);
    } else if l.UpdateCall? && l.reply.Accepted? && f.call == s.workers[l.w].call {
      PerformKills(s.server, RequestOf(cfg, s.workers[l.w]), f.request);
    }
  }

  lemma WireKeepsKey(cfg: Config, s: State, l: Label, f: InFlight, i: nat)
    requires CallsOk(s) && WiresOk(cfg, s) && Enabled(cfg, s, l)
    requires f in ServerAfter(cfg, s, l).pending && f.request.UpdateRequest? && i < |s.workers|
    requires var t := Step(cfg, s, l); InLoop(t.workers[i]) && t.workers[i].call == f.call
    ensures f.request.key == KeyOf(cfg, Step(cfg, s, l).workers[i].job)
  {
    if l.UpdateCall? {
      LoopNumbers(cfg, s, l.w, l.reply);
      AfterUpdate(cfg, s, l.w, l.reply);
      StepFrame(cfg, s, l);
    } else {
      OtherNumbers(cfg, s, l);
    }
    if f !in s.server.pending {
      NewWires(cfg, s, l, f);
    }
  }

  // ----- every run -----

  lemma {:induction false} RunKeepsCalls(cfg: Config, s: State, run: seq<Label>)
    requires Inv(cfg, s) && CallsOk(s) && WiresOk(cfg, s) && ValidRun(cfg, s, run)
    ensures var t := Exec(cfg, s, run); Inv(cfg, t) && CallsOk(t) && WiresOk(cfg, t)
  {
    if run != [] {
      var front := run[..|run| - 1];
      var mid := Exec(cfg, s, front);
      RunKeepsCalls(cfg, s, front);
      StepKeepsInv(cfg, mid, run[|run| - 1]);
      StepKeepsCallsOk(cfg, mid, run[|run| - 1]);
      StepKeepsWiresOk(cfg, mid, run[|run| - 1]);
    }
  }

  lemma {:induction false} DeadForever(cfg: Config, s: State, run: seq<Label>, r: Request)
    requires ValidRun(cfg, s, run) && Dead(s.server, r)
    ensures Dead(Exec(cfg, s, run).server, r)
  {
    if run != [] {
      var front := run[..|run| - 1];
      var mid := Exec(cfg, s, front);
      DeadForever(cfg, s, front, r);
      ServerStepKeepsDead(cfg, mid, run[|run| - 1], r);
      StepServer(cfg, mid, run[|run| - 1]);
    }
  }

  /**
    In every run of any number of workers: when a loop has returned nil, whatever its earlier
    attempts left on the wire never lands, however the run goes on.
   */
  lemma SettledLoopsNeverLand(cfg: Config, start: Time, run: seq<Label>, more: seq<Label>, f: InFlight)
    requires ValidRun(cfg, Init(cfg, start), run)
    requires var s := Exec(cfg, Init(cfg, start), run);
             && f in s.server.pending && f.request.UpdateRequest? && f.call in s.settled
             && ValidRun(cfg, s, more)
    ensures var s := Exec(cfg, Init(cfg, start), run);
            !Enabled(cfg, Exec(cfg, s, more), Landing(f))
  {
    var s := Exec(cfg, Init(cfg, start), run);
    InitHasInv(cfg, start);
    RunKeepsCalls(cfg, Init(cfg, start), run);
    DeadForever(cfg, s, more, f.request);
    DeadIsNotAdmissible(Exec(cfg, s, more).server, f.request);
  }
}

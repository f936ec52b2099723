/**
  Where cooldown stamps come from: an attempt that fails never stamps.
  `internal/controller/pod_controller.go`, lines 134-167.
 */
module StampOrigin {
  import opened ApiServer
  import opened Machine
  import opened Invariants

  /** The worker is about to stamp, or has a stamp on its way. */
  predicate Stamps(x: Worker) {
    x.pc.Stamping? || ((x.pc.Read? || x.pc.Write?) && x.pc.op.Stamp?)
  }

  /** The step on which the worker's publish loop for that job returns nil. */
  predicate PublishAccepted(s: State, l: Label, w: nat, job: Job) {
    && l == UpdateCall(w, Accepted) && w < |s.workers|
    && s.workers[w].pc.Write? && s.workers[w].pc.op.Publish? && s.workers[w].job == job
  }

  /** A worker starts over when it sets out anew and when it dies. */
  predicate StartsOver(l: Label, w: nat) {
    (l.PodGet? || l.Crash?) && l.w == w
  }

  // ----- one step -----

  /** An update leads to the stamp only if it ends a publish loop that returns nil. */
  lemma OnlyPublishLeadsToStamp(cfg: Config, s: State, w: nat, reply: Reply)
    requires Enabled(cfg, s, UpdateCall(w, reply))
    ensures UpdateStep(cfg, s, w, reply).workers[w].pc.Stamping? ==>
              reply.Accepted? && s.workers[w].pc.op.Publish?
  {
  }

  lemma UpdateToStamp(cfg: Config, s: State, w: nat, reply: Reply)
    requires Enabled(cfg, s, UpdateCall(w, reply)) && Stamps(UpdateStep(cfg, s, w, reply).workers[w])
    ensures UpdateStep(cfg, s, w, reply).workers[w].job == s.workers[w].job
    ensures PublishAccepted(s, UpdateCall(w, reply), w, s.workers[w].job) || Stamps(s.workers[w])
  {
    AfterUpdate(cfg, s, w, reply);
    OnlyPublishLeadsToStamp(cfg, s, w, reply);
  }

  lemma FreshToStamp(cfg: Config, s: State, w: nat, read: ReadReply)
    requires Enabled(cfg, s, FreshGet(w, read)) && Stamps(FreshStep(cfg, s, w, read).workers[w])
    ensures FreshStep(cfg, s, w, read).workers[w].job == s.workers[w].job
    ensures Stamps(s.workers[w])
  {
  }

  /** The only ways to stand at the stamp: to have stood there, or to have just published. */
  lemma WaysToStamp(cfg: Config, s: State, l: Label, w: nat)
    requires Enabled(cfg, s, l) && w < |s.workers| && Stamps(Step(cfg, s, l).workers[w])
    ensures Step(cfg, s, l).workers[w].job == s.workers[w].job && !StartsOver(l, w)
    ensures PublishAccepted(s, l, w, s.workers[w].job) || Stamps(s.workers[w])
  {
    StepFrame(cfg, s, l);
    if IsWorkerLabel(l) && l.w == w {
      match l {
        case UpdateCall(_, reply) => UpdateToStamp(cfg, s, w, reply);
        case FreshGet(_, read) => FreshToStamp(cfg, s, w, read);
        case _ =>
      }
    }
  }

  // ----- runs -----

  /** Since it last started over, the worker's publish loop for that job has returned nil. */
  ghost predicate HasPublished(cfg: Config, s: State, run: seq<Label>, w: nat, job: Job)
    requires ValidRun(cfg, s, run)
    decreases |run|
  {
    run != [] &&
    (var front, l := run[..|run| - 1], run[|run| - 1];
     || PublishAccepted(Exec(cfg, s, front), l, w, job)
     || (!StartsOver(l, w) && HasPublished(cfg, s, front, w, job)))
  }

  /** In every run, whoever stands at the stamp has published in this very attempt. */
  lemma {:induction false} StampFollowsPublish(cfg: Config, start: Time, run: seq<Label>, w: nat)
    requires ValidRun(cfg, Init(cfg, start), run) && w < cfg.workers
    ensures var t := Exec(cfg, Init(cfg, start), run);
            && |t.workers| == cfg.workers
            && (Stamps(t.workers[w]) ==> HasPublished(cfg, Init(cfg, start), run, w, t.workers[w].job))
  {
    if run != [] {
      var front, l := run[..|run| - 1], run[|run| - 1];
      var mid := Exec(cfg, Init(cfg, start), front);
      StampFollowsPublish(cfg, start, front, w);
      StepFrame(cfg, mid, l);
      if Stamps(Step(cfg, mid, l).workers[w]) {
        WaysToStamp(cfg, mid, l, w);
      }
    }
  }

  /** The worker's publish loop returns nil nowhere in the run. */
  ghost predicate NeverPublishes(cfg: Config, s: State, run: seq<Label>, w: nat)
    requires ValidRun(cfg, s, run)
    decreases |run|
  {
    run == [] ||
    (var front, l := run[..|run| - 1], run[|run| - 1];
     && NeverPublishes(cfg, s, front, w)
     && (forall job :: !PublishAccepted(Exec(cfg, s, front), l, w, job)))
  }

  /**
    So an attempt that ends at gathering, at the model, or in a publish loop that returns an error
    never comes to the stamp, whatever became of its publishes that timed out.
   */
  lemma {:induction false} FailedAttemptsNeverStamp(cfg: Config, s: State, run: seq<Label>, w: nat)
    requires w < |s.workers| && !Stamps(s.workers[w])
    requires ValidRun(cfg, s, run) && NeverPublishes(cfg, s, run, w)
    ensures |Exec(cfg, s, run).workers| == |s.workers| && !Stamps(Exec(cfg, s, run).workers[w])
  {
    if run != [] {
      var front, l := run[..|run| - 1], run[|run| - 1];
      var mid := Exec(cfg, s, front);
      FailedAttemptsNeverStamp(cfg, s, front, w);
      StepFrame(cfg, mid, l);
      if Stamps(Step(cfg, mid, l).workers[w]) {
        WaysToStamp(cfg, mid, l, w);
      }
    }
  }

  // ----- stored stamps -----

  /** After the run, worker `w` is sending a stamp of that second, having published in this attempt. */
  ghost predicate SendsStamp(cfg: Config, s: State, run: seq<Label>, w: nat, key: Key, seconds: int)
    requires ValidRun(cfg, s, run)
  {
    var ws := Exec(cfg, s, run).workers;
    && w < |ws| && ws[w].pc.Write? && ws[w].pc.op.Stamp? && ws[w].pc.op.at / SECOND == seconds
    && KeyOf(cfg, ws[w].job) == key && HasPublished(cfg, s, run, w, ws[w].job)
  }

  /** At some point of the run, somebody was. */
  ghost predicate WasEarned(cfg: Config, s: State, run: seq<Label>, key: Key, seconds: int)
    requires ValidRun(cfg, s, run)
    decreases |run|
  {
    || (exists w :: SendsStamp(cfg, s, run, w, key, seconds))
    || (run != [] && WasEarned(cfg, s, run[..|run| - 1], key, seconds))
  }

  ghost predicate VersionEarned(cfg: Config, s: State, run: seq<Label>, v: Version)
    requires ValidRun(cfg, s, run)
  {
    STAMP_KEY in v.cd.annotations ==>
      && v.cd.annotations[STAMP_KEY].Instant?
      && WasEarned(cfg, s, run, v.key, v.cd.annotations[STAMP_KEY].seconds)
  }

  ghost predicate RequestEarned(cfg: Config, s: State, run: seq<Label>, r: Request)
    requires ValidRun(cfg, s, run)
  {
    r.UpdateRequest? && r.op.Stamp? ==> WasEarned(cfg, s, run, r.key, r.op.at / SECOND)
  }

  ghost predicate AllEarned(cfg: Config, s: State, run: seq<Label>, sv: Server)
    requires ValidRun(cfg, s, run)
  {
    && (forall v | v in sv.versions :: VersionEarned(cfg, s, run, v))
    && (forall f | f in sv.pending :: RequestEarned(cfg, s, run, f.request))
  }

  /** What a worker sends after a run was earned in that run. */
  lemma WireIsEarned(cfg: Config, start: Time, run: seq<Label>, w: nat)
    requires ValidRun(cfg, Init(cfg, start), run)
    requires var ws := Exec(cfg, Init(cfg, start), run).workers;
             w < |ws| && (ws[w].pc.Creating? || ws[w].pc.Write?)
    ensures var x := Exec(cfg, Init(cfg, start), run).workers[w];
            RequestEarned(cfg, Init(cfg, start), run, RequestOf(cfg, x))
  {
    var s := Init(cfg, start);
    var x := Exec(cfg, s, run).workers[w];
    SameCount(cfg, s, run);
    StampFollowsPublish(cfg, start, run, w);
    if x.pc.Write? && x.pc.op.Stamp? {
      assert SendsStamp(cfg, s, run, w, KeyOf(cfg, x.job), x.pc.op.at / SECOND);
    }
  }

  lemma {:induction false} SameCount(cfg: Config, s: State, run: seq<Label>)
    requires ValidRun(cfg, s, run)
    ensures |Exec(cfg, s, run).workers| == |s.workers|
  {
    if run != [] {
      SameCount(cfg, s, run[..|run| - 1]);
      StepFrame(cfg, Exec(cfg, s, run[..|run| - 1]), run[|run| - 1]);
    }
  }

  lemma PerformKeepsEarned(cfg: Config, s: State, run: seq<Label>, sv: Server, r: Request)
    requires ValidRun(cfg, s, run) && Consistent(sv) && Grounded(sv, r) && Admissible(sv, r)
    requires AllEarned(cfg, s, run, sv) && RequestEarned(cfg, s, run, r)
    ensures AllEarned(cfg, s, run, Perform(sv, r))
  {
    var stored := Version(r.key, Stored(sv, r));
    assert VersionEarned(cfg, s, run, stored) by {
      if r.UpdateRequest? {
        StoredIsMutationOfCurrent(sv, r);
        assert VersionEarned(cfg, s, run, Version(r.key, sv.live[r.key]));
      }
    }
  }

  lemma DeferKeepsEarned(cfg: Config, s: State, run: seq<Label>, sv: Server, f: InFlight)
    requires ValidRun(cfg, s, run)
    requires AllEarned(cfg, s, run, sv) && RequestEarned(cfg, s, run, f.request)
    ensures AllEarned(cfg, s, run, Defer(sv, f))
  {
  }

  lemma ReplyKeepsEarned(cfg: Config, s: State, run: seq<Label>, sv: Server, f: InFlight, reply: Reply)
    requires ValidRun(cfg, s, run) && Consistent(sv) && Grounded(sv, f.request) && ReplyFits(sv, f.request, reply)
    requires AllEarned(cfg, s, run, sv) && RequestEarned(cfg, s, run, f.request)
    ensures AllEarned(cfg, s, run, AfterReply(sv, f, reply))
  {
    DeferKeepsEarned(cfg, s, run, sv, f);
    if Admissible(sv, f.request) {
      PerformKeepsEarned(cfg, s, run, sv, f.request);
    }
  }

  lemma AnnotateKeepsEarned(cfg: Config, s: State, run: seq<Label>, sv: Server, key: Key, name: string,
                            note: Annotation)
    requires ValidRun(cfg, s, run) && Consistent(sv) && key in sv.live && name != STAMP_KEY
    requires AllEarned(cfg, s, run, sv)
    ensures AllEarned(cfg, s, run, Annotate(sv, key, name, note))
  {
    assert VersionEarned(cfg, s, run, Version(key, sv.live[key]));
  }

  /** A step stores and defers only what was earned by the time it is taken. */
  lemma StepKeepsEarned(cfg: Config, start: Time, run: seq<Label>, l: Label)
    requires ValidRun(cfg, Init(cfg, start), run) && Enabled(cfg, Exec(cfg, Init(cfg, start), run), l)
    requires Inv(cfg, Exec(cfg, Init(cfg, start), run))
    requires AllEarned(cfg, Init(cfg, start), run, Exec(cfg, Init(cfg, start), run).server)
    ensures AllEarned(cfg, Init(cfg, start), run, ServerAfter(cfg, Exec(cfg, Init(cfg, start), run), l))
  {
    var s := Init(cfg, start);
    var t := Exec(cfg, s, run);
    match l {
      case Annotating(key, name, note) => AnnotateKeepsEarned(cfg, s, run, t.server, key, name, note);
      case Landing(f) => PerformKeepsEarned(cfg, s, run, t.server, f.request);
      case Crash(w, late) =>
        if late {
          WireIsEarned(cfg, start, run, w);
          DeferKeepsEarned(cfg, s, run, t.server, WireOf(cfg, t.workers[w]));
        }
      case CreateCall(w, reply) =>
        WireIsOk(cfg, t, t.workers[w]);
        WireIsEarned(cfg, start, run, w);
        ReplyKeepsEarned(cfg, s, run, t.server, WireOf(cfg, t.workers[w]), reply);
      case UpdateCall(w, reply) =>
        WireIsOk(cfg, t, t.workers[w]);
        WireIsEarned(cfg, start, run, w);
        ReplyKeepsEarned(cfg, s, run, t.server, WireOf(cfg, t.workers[w]), reply);
      case _ =>
    }
  }

  /** What was earned in the first part of a run was earned in the run. */
  lemma EarnedStays(cfg: Config, s: State, run: seq<Label>, sv: Server)
    requires ValidRun(cfg, s, run) && run != [] && AllEarned(cfg, s, run[..|run| - 1], sv)
    ensures AllEarned(cfg, s, run, sv)
  {
  }

  lemma {:induction false} RunKeepsEarned(cfg: Config, start: Time, run: seq<Label>)
    requires ValidRun(cfg, Init(cfg, start), run)
    ensures AllEarned(cfg, Init(cfg, start), run, Exec(cfg, Init(cfg, start), run).server)
  {
    if run != [] {
      var front, l := run[..|run| - 1], run[|run| - 1];
      var s := Init(cfg, start);
      RunKeepsEarned(cfg, start, front);
      InitHasInv(cfg, start);
      RunKeepsInv(cfg, s, front);
      StepKeepsEarned(cfg, start, front, l);
      StepServer(cfg, Exec(cfg, s, front), l);
      EarnedStays(cfg, s, run, Exec(cfg, s, run).server);
    }
  }

  /**
    In every run, each stamp an object carries was sent by a worker whose publish loop had returned
    nil in the same attempt: a failed attempt leaves no stamp, and so starts no cooldown.
   */
  lemma StampedMeansPublished(cfg: Config, start: Time, run: seq<Label>, key: Key)
    requires ValidRun(cfg, Init(cfg, start), run)
    requires var sv := Exec(cfg, Init(cfg, start), run).server;
             key in sv.live && STAMP_KEY in sv.live[key].annotations
    ensures var notes := Exec(cfg, Init(cfg, start), run).server.live[key].annotations;
            notes[STAMP_KEY].Instant? && WasEarned(cfg, Init(cfg, start), run, key, notes[STAMP_KEY].seconds)
  {
    var s := Exec(cfg, Init(cfg, start), run);
    InitHasInv(cfg, start);
    RunKeepsInv(cfg, Init(cfg, start), run);
    RunKeepsEarned(cfg, start, run);
    assert VersionEarned(cfg, Init(cfg, start), run, Version(key, s.server.live[key]));
  }
}

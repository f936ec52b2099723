/**
  How often the model is called while the stored stamp is young, for any number of workers:
  `internal/controller/pod_controller.go`, lines 113-124. The bounds need gate reads that are
  current when they are checked, since the gate may otherwise pass on a copy from before the stamp.
 */
module Cooldown {
  import opened Wrappers
  import opened ApiServer
  import opened Machine
  import opened Invariants

  /** The stored stamp is younger than five minutes. */
  predicate Young(s: State, key: Key) {
    && key in s.server.live
    && var notes := s.server.live[key].annotations;
    && STAMP_KEY in notes && notes[STAMP_KEY].Instant?
    && s.now - notes[STAMP_KEY].seconds * SECOND < MIN_BETWEEN_LLM
  }

  predicate ChecksGate(cfg: Config, s: State, l: Label, key: Key)
    requires Enabled(cfg, s, l)
  {
    l.CheckGate? && KeyOf(cfg, s.workers[l.w].job) == key
  }

  /** A gate for that key is checked on the object as it is. */
  predicate FreshGate(cfg: Config, s: State, l: Label, key: Key)
    requires Enabled(cfg, s, l)
  {
    ChecksGate(cfg, s, l, key) ==> key in s.server.live && s.server.live[key] == s.workers[l.w].pc.seen
  }

  predicate AsksFor(cfg: Config, s: State, l: Label, key: Key)
    requires Enabled(cfg, s, l)
  {
    l.Ask? && KeyOf(cfg, s.workers[l.w].job) == key
  }

  ghost predicate FreshGates(cfg: Config, s: State, run: seq<Label>, key: Key)
    requires ValidRun(cfg, s, run)
    decreases |run|
  {
    run == [] ||
    (var front := run[..|run| - 1];
     FreshGates(cfg, s, front, key) && FreshGate(cfg, Exec(cfg, s, front), run[|run| - 1], key))
  }

  /** The stamp is young before every step of the run. */
  ghost predicate StaysYoung(cfg: Config, s: State, run: seq<Label>, key: Key)
    requires ValidRun(cfg, s, run)
    decreases |run|
  {
    run == [] ||
    (var front := run[..|run| - 1];
     StaysYoung(cfg, s, front, key) && Young(Exec(cfg, s, front), key))
  }

  /** How many model calls for that key a run starts, by one worker or, with None, by any. */
  ghost function Asks(cfg: Config, s: State, run: seq<Label>, key: Key, asker: Option<nat>): nat
    requires ValidRun(cfg, s, run)
    decreases |run|
  {
    if run == [] then 0
    else
      var front, l := run[..|run| - 1], run[|run| - 1];
      Asks(cfg, s, front, key, asker)
      + if AsksFor(cfg, Exec(cfg, s, front), l, key) && (asker.None? || asker.value == l.w) then 1 else 0
  }

  // ----- any number of workers -----

  /** Past the gate for that key, and not yet asking. */
  predicate Armed(cfg: Config, x: Worker, key: Key) {
    && KeyOf(cfg, x.job) == key
    && (|| x.pc.Gathering? || x.pc.Asking?
        || ((x.pc.Read? || x.pc.Write?) && x.pc.op.MarkAnalyzing?))
  }

  function Weight(b: bool): nat {
    if b then 1 else 0
  }

  function ArmedCount(cfg: Config, ws: seq<Worker>, key: Key): (n: nat)
    ensures n <= |ws|
  {
    if ws == [] then 0 else Weight(Armed(cfg, ws[0], key)) + ArmedCount(cfg, ws[1..], key)
  }

  lemma {:induction false} ArmedUpdate(cfg: Config, ws: seq<Worker>, w: nat, x: Worker, key: Key)
    requires w < |ws|
    ensures ArmedCount(cfg, ws[w := x], key) + Weight(Armed(cfg, ws[w], key))
         == ArmedCount(cfg, ws, key) + Weight(Armed(cfg, x, key))
  {
    if w == 0 {
      assert ws[0 := x][1..] == ws[1..];
    } else {
      ArmedUpdate(cfg, ws[1..], w - 1, x, key);
      assert ws[w := x][1..] == ws[1..][w - 1 := x];
    }
  }

  lemma YoungGateStops(cfg: Config, s: State, w: nat, key: Key)
    requires Enabled(cfg, s, CheckGate(w)) && KeyOf(cfg, s.workers[w].job) == key
    requires Young(s, key) && FreshGate(cfg, s, CheckGate(w), key)
    ensures GateStep(cfg, s, w).workers[w].pc.Idle?
  {
  }

  /** Under a young stamp nobody becomes armed, and asking disarms. */
  lemma MoverDisarms(cfg: Config, s: State, l: Label, key: Key)
    requires Enabled(cfg, s, l) && IsWorkerLabel(l) && Young(s, key) && FreshGate(cfg, s, l, key)
    ensures Weight(Armed(cfg, Step(cfg, s, l).workers[l.w], key)) + Weight(AsksFor(cfg, s, l, key))
         <= Weight(Armed(cfg, s.workers[l.w], key))
  {
    match l {
      case CheckGate(w) =>
        if KeyOf(cfg, s.workers[w].job) == key {
          YoungGateStops(cfg, s, w, key);
        }
      case UpdateCall(w, reply) => UpdateDisarms(cfg, s, w, reply, key);
      case PodGet(w, reply) => PodDisarms(cfg, s, w, reply, key);
      case FreshGet(w, read) => FreshDisarms(cfg, s, w, read, key);
      case _ =>
    }
  }

  lemma PodDisarms(cfg: Config, s: State, w: nat, reply: PodReply, key: Key)
    requires Enabled(cfg, s, PodGet(w, reply))
    ensures !Armed(cfg, PodStep(cfg, s, w, reply).workers[w], key)
  {
  }

  lemma FreshDisarms(cfg: Config, s: State, w: nat, read: ReadReply, key: Key)
    requires Enabled(cfg, s, FreshGet(w, read))
    ensures Armed(cfg, FreshStep(cfg, s, w, read).workers[w], key) ==> Armed(cfg, s.workers[w], key)
  {
  }

  lemma UpdateDisarms(cfg: Config, s: State, w: nat, reply: Reply, key: Key)
    requires Enabled(cfg, s, UpdateCall(w, reply))
    ensures Armed(cfg, UpdateStep(cfg, s, w, reply).workers[w], key) ==> Armed(cfg, s.workers[w], key)
  {
  }

  /** Each worker starts at most one more model call while the stamp stays young. */
  lemma {:induction false} OneAskEach(cfg: Config, s: State, run: seq<Label>, key: Key, w: nat)
    requires ValidRun(cfg, s, run) && StaysYoung(cfg, s, run, key) && FreshGates(cfg, s, run, key)
    requires w < |s.workers|
    ensures |Exec(cfg, s, run).workers| == |s.workers|
    ensures Asks(cfg, s, run, key, Some(w)) + Weight(Armed(cfg, Exec(cfg, s, run).workers[w], key))
         <= Weight(Armed(cfg, s.workers[w], key))
    ensures Asks(cfg, s, run, key, Some(w)) <= 1
  {
    if run != [] {
      var front, l := run[..|run| - 1], run[|run| - 1];
      var mid := Exec(cfg, s, front);
      OneAskEach(cfg, s, front, key, w);
      if IsWorkerLabel(l) {
        assert Moves(mid, Step(cfg, mid, l), l.w);
        MoverDisarms(cfg, mid, l, key);
      }
    }
  }

  /** So no more model calls start than workers were past the gate, and never more than N. */
  lemma {:induction false} AtMostOneAskPerWorker(cfg: Config, s: State, run: seq<Label>, key: Key)
    requires ValidRun(cfg, s, run) && StaysYoung(cfg, s, run, key) && FreshGates(cfg, s, run, key)
    ensures Asks(cfg, s, run, key, None) + ArmedCount(cfg, Exec(cfg, s, run).workers, key)
         <= ArmedCount(cfg, s.workers, key)
    ensures Asks(cfg, s, run, key, None) <= |s.workers|
  {
    if run != [] {
      var front, l := run[..|run| - 1], run[|run| - 1];
      var mid := Exec(cfg, s, front);
      AtMostOneAskPerWorker(cfg, s, front, key);
      if IsWorkerLabel(l) {
        assert Moves(mid, Step(cfg, mid, l), l.w);
        MoverDisarms(cfg, mid, l, key);
        ArmedUpdate(cfg, mid.workers, l.w, Step(cfg, mid, l).workers[l.w], key);
      }
    }
  }

  // ----- what the gates say, on the fields of the copy -----

  /** The copy carries a stamp that is exactly five minutes old after that much longer. */
  predicate CoolsFor(seen: ClusterDiagnosis, now: Time, after: int) {
    var stamp := "health.k8sai.io/last-llm-call";
    && stamp in seen.annotations && seen.annotations[stamp].Instant?
    && now + after == seen.annotations[stamp].seconds * 1_000_000_000 + 300_000_000_000
  }

  /** The gates send a reconcile away when it is current, and put it off exactly until the stamp is five minutes old. */
  lemma GatesExactly(seen: ClusterDiagnosis, fingerprint: string, now: Time)
    ensures GateVerdict(seen, fingerprint, now).Current? <==> IsReadyFor(seen, fingerprint)
    ensures forall after :: GateVerdict(seen, fingerprint, now) == CoolDown(after) <==>
              !IsReadyFor(seen, fingerprint) && CoolsFor(seen, now, after) && after > 0
  {
  }

  /**
    Every requeue delay lies in (0, 5 min] and is the shortest that helps: a rerun on the same object
    is put off at every earlier instant, by what is left of the delay, and passes at that instant.
   */
  lemma RequeueDelays(cfg: Config, s: State, w: nat, after: int)
    requires Reachable(cfg, s) && Enabled(cfg, s, CheckGate(w))
    requires GateVerdict(s.workers[w].pc.seen, FingerprintOf(s.workers[w].job), s.now) == CoolDown(after)
    ensures 0 < after <= 300_000_000_000 && CoolsFor(s.workers[w].pc.seen, s.now, after)
    ensures var x := s.workers[w];
            && (forall later | s.now <= later < s.now + after ::
                  GateVerdict(x.pc.seen, FingerprintOf(x.job), later) == CoolDown(s.now + after - later))
            && GateVerdict(x.pc.seen, FingerprintOf(x.job), s.now + after) == Proceed
  {
    ReachableHasInv(cfg, s);
    var x := s.workers[w];
    assert Version(KeyOf(cfg, x.job), x.pc.seen) in s.server.versions;
    GatesExactly(x.pc.seen, FingerprintOf(x.job), s.now);
    forall later | s.now <= later < s.now + after
      ensures GateVerdict(x.pc.seen, FingerprintOf(x.job), later) == CoolDown(s.now + after - later)
    {
      GatesExactly(x.pc.seen, FingerprintOf(x.job), later);
    }
  }
}

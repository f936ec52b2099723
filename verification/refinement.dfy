/**
  The read-mutate-update loops, with their conflicts, ambiguous timeouts, deletions and late
  writes, refine a machine that only ever creates, deletes or atomically mutates an object.
 */
module Refinement {
  import opened Wrappers
  import opened ApiServer
  import opened Machine
  import opened Invariants

  // ----- the simple machine -----

  /** An object without its revision. */
  datatype Facts = Facts(spec: Spec, annotations: map<string, Annotation>, status: Status)

  type Board = map<Key, Facts>

  datatype Action =
    | Create(key: Key, spec: Spec)
    | Apply(key: Key, op: Op)
    | Note(key: Key, name: string, note: Annotation)  // by someone else
    | Erase(key: Key)

  function FactsOf(cd: ClusterDiagnosis): Facts {
    Facts(cd.spec, cd.annotations, cd.status)
  }

  function ApplyTo(op: Op, f: Facts): Facts {
    FactsOf(Mutate(op, ClusterDiagnosis(0, f.spec, f.annotations, f.status)))
  }

  predicate Allowed(b: Board, a: Action) {
    match a
    case Create(key, _) => key !in b
    case Apply(key, _) => key in b
    case Note(key, _, _) => key in b
    case Erase(key) => key in b
  }

  function Act(b: Board, a: Action): Board
    requires Allowed(b, a)
  {
    match a
    case Create(key, spec) => b[key := Facts(spec, map[], NEW_STATUS)]
    case Apply(key, op) => b[key := ApplyTo(op, b[key])]
    case Note(key, name, note) => b[key := b[key].(annotations := b[key].annotations[name := note])]
    case Erase(key) => b - {key}
  }

  /** The actions lead from one board to the other. */
  ghost predicate Leads(b: Board, actions: seq<Action>, c: Board)
    decreases |actions|
  {
    if actions == [] then b == c
    else Allowed(b, actions[0]) && Leads(Act(b, actions[0]), actions[1..], c)
  }

  lemma {:induction false} LeadsOn(b: Board, actions: seq<Action>, c: Board, a: Action)
    requires Leads(b, actions, c) && Allowed(c, a)
    ensures Leads(b, actions + [a], Act(c, a))
    decreases |actions|
  {
    if actions == [] {
      assert [a][1..] == [];
    } else {
      LeadsOn(Act(b, actions[0]), actions[1..], c, a);
      assert (actions + [a])[1..] == actions[1..] + [a];
    }
  }

  // ----- the mapping -----

  function BoardOf(sv: Server): Board {
    map key | key in sv.live :: FactsOf(sv.live[key])
  }

  function ActionOfRequest(r: Request): Action {
    match r
    case CreateRequest(key, spec) => Create(key, spec)
    case UpdateRequest(key, op, _) => Apply(key, op)
  }

  function ActionOfReply(sv: Server, r: Request, reply: Reply): Option<Action> {
    if reply == Accepted || reply == TimedOut(Applied) || reply == Broken(Applied)
    then Some(ActionOfRequest(r)) else None
  }

  /** The one action a step carries out, or None when the board stays as it is. */
  function ActionOf(cfg: Config, s: State, l: Label): Option<Action>
    requires Enabled(cfg, s, l)
  {
    match l
    case Remove(key) => Some(Erase(key))
    case Annotating(key, name, note) => Some(Note(key, name, note))
    case Landing(f) => Some(ActionOfRequest(f.request))
    case CreateCall(w, reply) => ActionOfReply(s.server, RequestOf(cfg, s.workers[w]), reply)
    case UpdateCall(w, reply) => ActionOfReply(s.server, RequestOf(cfg, s.workers[w]), reply)
    case _ => None
  }

  lemma PerformRefines(sv: Server, r: Request)
    requires Consistent(sv) && Grounded(sv, r) && Admissible(sv, r)
    ensures Allowed(BoardOf(sv), ActionOfRequest(r))
    ensures BoardOf(Perform(sv, r)) == Act(BoardOf(sv), ActionOfRequest(r))
  {
    if r.UpdateRequest? {
      StoredIsMutationOfCurrent(sv, r);
      assert FactsOf(Stored(sv, r)) == ApplyTo(r.op, FactsOf(sv.live[r.key]));
    }
  }

  lemma DeleteRefines(sv: Server, key: Key)
    requires key in sv.live
    ensures BoardOf(Delete(sv, key)) == Act(BoardOf(sv), Erase(key))
  {
  }

  lemma AnnotateRefines(sv: Server, key: Key, name: string, note: Annotation)
    requires key in sv.live
    ensures BoardOf(Annotate(sv, key, name, note)) == Act(BoardOf(sv), Note(key, name, note))
  {
  }

  lemma LandRefines(sv: Server, f: InFlight)
    requires Consistent(sv) && f in sv.pending && Admissible(sv, f.request)
    ensures Allowed(BoardOf(sv), ActionOfRequest(f.request))
    ensures BoardOf(Land(sv, f)) == Act(BoardOf(sv), ActionOfRequest(f.request))
  {
    PerformRefines(sv, f.request);
    assert Land(sv, f).live == Perform(sv, f.request).live;
  }

  lemma ReplyRefines(sv: Server, f: InFlight, reply: Reply)
    requires Consistent(sv) && Grounded(sv, f.request) && ReplyFits(sv, f.request, reply)
    ensures var a := ActionOfReply(sv, f.request, reply);
            if a.None? then BoardOf(AfterReply(sv, f, reply)) == BoardOf(sv)
            else Allowed(BoardOf(sv), a.value) && BoardOf(AfterReply(sv, f, reply)) == Act(BoardOf(sv), a.value)
  {
    if ActionOfReply(sv, f.request, reply).Some? {
      PerformRefines(sv, f.request);
    }
  }

  lemma ServerRefines(cfg: Config, s: State, l: Label)
    requires Inv(cfg, s) && Enabled(cfg, s, l)
    ensures var a, sv := ActionOf(cfg, s, l), ServerAfter(cfg, s, l);
            if a.None? then BoardOf(sv) == BoardOf(s.server)
            else Allowed(BoardOf(s.server), a.value) && BoardOf(sv) == Act(BoardOf(s.server), a.value)
  {
    match l {
      case Remove(key) => DeleteRefines(s.server, key);
      case Annotating(key, name, note) => AnnotateRefines(s.server, key, name, note);
      case Landing(f) => LandRefines(s.server, f);
      case Crash(w, late) =>
        if late {
          assert ServerAfter(cfg, s, l).live == s.server.live;
        }
      case CreateCall(w, reply) =>
        WireIsOk(cfg, s, s.workers[w]);
        ReplyRefines(s.server, WireOf(cfg, s.workers[w]), reply);
      case UpdateCall(w, reply) =>
        WireIsOk(cfg, s, s.workers[w]);
        ReplyRefines(s.server, WireOf(cfg, s.workers[w]), reply);
      case _ =>
    }
  }

  /** Every step is one atomic action on the objects as they are then, or leaves them alone. */
  lemma StepRefines(cfg: Config, s: State, l: Label)
    requires Inv(cfg, s) && Enabled(cfg, s, l)
    ensures var a, t := ActionOf(cfg, s, l), Step(cfg, s, l);
            if a.None? then BoardOf(t.server) == BoardOf(s.server)
            else Allowed(BoardOf(s.server), a.value) && BoardOf(t.server) == Act(BoardOf(s.server), a.value)
  {
    StepServer(cfg, s, l);
    ServerRefines(cfg, s, l);
  }

  ghost function Actions(cfg: Config, s: State, run: seq<Label>): seq<Action>
    requires ValidRun(cfg, s, run)
    decreases |run|
  {
    if run == [] then []
    else
      var front := run[..|run| - 1];
      var a := ActionOf(cfg, Exec(cfg, s, front), run[|run| - 1]);
      Actions(cfg, s, front) + if a.Some? then [a.value] else []
  }

  /** Every run, of any number of workers, is a run of the simple machine. */
  lemma {:induction false} RunRefines(cfg: Config, s: State, run: seq<Label>)
    requires Inv(cfg, s) && ValidRun(cfg, s, run)
    ensures Leads(BoardOf(s.server), Actions(cfg, s, run), BoardOf(Exec(cfg, s, run).server))
  {
    if run != [] {
      var front := run[..|run| - 1];
      var mid := Exec(cfg, s, front);
      var l := run[|run| - 1];
      RunRefines(cfg, s, front);
      RunKeepsInv(cfg, s, front);
      StepRefines(cfg, mid, l);
      var a := ActionOf(cfg, mid, l);
      if a.Some? {
        LeadsOn(BoardOf(s.server), Actions(cfg, s, front), BoardOf(mid.server), a.value);
      } else {
        assert Actions(cfg, s, front) + [] == Actions(cfg, s, front);
      }
    }
  }

  // ----- what the atomic mutations leave alone -----

  /** No mutation touches fields that another one writes, the diagnosis bundle included. */
  lemma MutationsKeepOtherFields(op: Op, f: Facts)
    ensures ApplyTo(op, f).spec == f.spec
    ensures !op.Stamp? ==> ApplyTo(op, f).annotations == f.annotations
    ensures op.Stamp? ==>
      && ApplyTo(op, f).status == f.status
      && ApplyTo(op, f).annotations - {STAMP_KEY} == f.annotations - {STAMP_KEY}
      && ApplyTo(op, f).annotations[STAMP_KEY] == Instant(op.at / SECOND)
    ensures op.MarkAnalyzing? ==> ApplyTo(op, f).status.phase == "Analyzing" && ApplyTo(op, f).status.message == ""
    ensures op.MarkError? ==> ApplyTo(op, f).status.phase == "Error" && ApplyTo(op, f).status.message == op.message
    ensures op.Publish? ==> ApplyTo(op, f).status.phase == "Ready" && ApplyTo(op, f).status.message == ""
    ensures op.MarkAnalyzing? || op.MarkError? ==>
      BundleOf(ApplyTo(op, f).status) == BundleOf(f.status)
    ensures op.Publish? ==> BundleOf(ApplyTo(op, f).status) == op.bundle
  {
  }

  /** Carrying a mutation out twice, as an ambiguous timeout may, is carrying it out once. */
  lemma MutationsAreIdempotent(op: Op, f: Facts)
    ensures ApplyTo(op, ApplyTo(op, f)) == ApplyTo(op, f)
  {
  }

  /**
    The call on which a retry loop returns nil carries the loop's mutation out, atomically, on the
    object as it is at that moment.
   */
  lemma AcceptedCallApplies(cfg: Config, s: State, w: nat)
    requires Inv(cfg, s) && Enabled(cfg, s, UpdateCall(w, Accepted))
    ensures var key, op := KeyOf(cfg, s.workers[w].job), s.workers[w].pc.op;
            && key in s.server.live
            && Step(cfg, s, UpdateCall(w, Accepted)).server.live
            == s.server.live[key := Mutate(op, s.server.live[key]).(rev := s.server.rev + 1)]
            && CarriedOut(op, s.server.live[key], Step(cfg, s, UpdateCall(w, Accepted)).server.live[key])
  {
    WireIsOk(cfg, s, s.workers[w]);
    StoredIsMutationOfCurrent(s.server, RequestOf(cfg, s.workers[w]));
    StepServer(cfg, s, UpdateCall(w, Accepted));
  }

  /**
    A write that lands late does to the stored object exactly what its sender computed: that
    object is still the version that was read, whatever was deleted or re-created in between.
   */
  lemma LateWriteHitsTheVersionRead(cfg: Config, s: State, f: InFlight)
    requires Inv(cfg, s) && Enabled(cfg, s, Landing(f)) && f.request.UpdateRequest?
    ensures s.server.live[f.request.key] == f.request.base
    ensures Step(cfg, s, Landing(f)).server.live[f.request.key]
         == Mutate(f.request.op, f.request.base).(rev := s.server.rev + 1)
    ensures CarriedOut(f.request.op, f.request.base, Step(cfg, s, Landing(f)).server.live[f.request.key])
  {
    StoredIsMutationOfCurrent(s.server, f.request);
    AdmissibleMeansUnchanged(s.server, f.request);
  }
}

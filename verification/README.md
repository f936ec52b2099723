# Verification of the pod-diagnosis operator

A Dafny model of the operator that watches failing pods, asks a language model about them and
keeps the answer in a `ClusterDiagnosis` object, with proofs about every run of any number of its
workers. `dafny verify dfyconfig.toml` checks everything.

## What is modelled

**The server** (`api_server.dfy`). Diagnosis objects live under a key and carry a revision; a
global counter stamps every write. A create needs a free name, an update the current revision.
The status subresource is enabled, so a status write stores only the status of the object sent
and any other write stores everything but the status. A call is accepted, refused, timed out or
broken, and after the last two its write may be lost, applied, or still on the wire and applied
at any later moment at which the server would admit it.

**The reconciler as a protocol** (`machine.dfy`). Every call to the server, the model or the
clock is one step of a state machine. Any number of workers interleave; between their steps time
passes, objects are deleted (and re-created by the workers), others write annotations of their
own, delayed writes land, and a worker may die anywhere. The read at line 77 returns any version
ever stored, or an error, or nothing. A run is a finite sequence of labels, each of which names the
step and the choice the environment made.

**The reconciler as code** (`reconciler.dfy`). The same methods as the source, with its retry
loops, over a shared `Cluster` object whose state anyone else may change between two calls. They
take exactly the steps of the machine, so whatever holds in every run of the machine holds here.
Longer methods are cut at their calls, and the body that both retry loops have is one method.

**The properties of the protocol.** `invariants.dfy` (what every step keeps), `refinement.dfy`
(the loops refine atomic actions), `settled_calls.dfy` (late writes), `guarantees.dfy` (what a
reader may rely on), `provenance.dfy` (which step each stored field comes from), `stamp_origin.dfy`, `cooldown.dfy` and `after_stamp.dfy` (where stamps come
from and how often the model is called), `progress.dfy` (convergence and idling),
`accounting.dfy` and `counters.dfy` (metrics and back-off), and `paths.dfy` with `sharpness.dfy`
(runs that reach the bounds and need the hypotheses).

**The code around it.** `detect.dfy` and `fingerprint.dfy` (classification, names, fingerprint
text), `resources.dfy`, `event_summary.dfy`, `diagnosis_json.dfy`, `rate_limit.dfy` and
`deep_copy.dfy`; `text.dfy` holds the string operations they share.

### Hypotheses that are part of a statement

- Names keep only 32 bits of a hash: `Guarantees.ObjectDescribesTarget` and
  `Guarantees.BundleDescribesTarget` assume that the targets at hand do not collide. The
  invariants need no such assumption.
- The fingerprint text can be decoded exactly under `Fingerprints.Readable`; statements that
  conclude from equal texts to equal container states assume it for the pods involved.
- The bounds on model calls assume that a gate is checked on the object as it then is
  (`Cooldown.FreshGates`); `Sharpness.StaleGateLetsAskThrough` shows what happens otherwise.
- `AfterStamp.NoAskDuringCooldown` is about any number of workers, none of which is between the
  gate and its model call, or on its way to write an older stamp, when the stamp is carried out;
  and about an object that is not deleted. `Sharpness.SecondWorkerAsks` and
  `Sharpness.StampMovesBack` show that both conditions matter. A single worker meets them when its
  own call carries the stamp out, but need not when the stamp lands late
  (`Sharpness.LateStampLetsAskThrough`).
- The limiter bounds what it lets through in every trace (`RateLimit.WindowBound`). The calls that
  follow can bunch up: how late they come enters their bound (`RateLimit.CallsBound`), which is
  attained for every lag (`RateLimit.CallsBoundIsMet`).
- Convergence is about one undisturbed visit: nobody else moves, no call fails, reads are current,
  and the stamp is absent, unreadable or expired.

### Where the code differs from its comments

- The comment on `Fingerprint` (`internal/detect/detect.go`, line 109) says that it hashes the
  container state. The code returns the state as plain text; the model does the same.
- `docs/troubleshooting.md`, line 17, says that repeat model calls are rate-limited per diagnosis.
  Only attempts that published are: a failed one leaves no stamp
  (`StampOrigin.FailedAttemptsNeverStamp`), so the next may ask again at the same time
  (`Sharpness.FailedAttemptIsRepeated`). Exactly when a repeat is possible inside the window is
  stated by `AfterStamp.RepeatIffNotStamped`.

## Model

| member | source | states |
|---|---|---|
| `ApiServer.AdmissibleMeansUnchanged` | internal/controller/pod_controller.go:191-206 | An update passes the conflict check only while the stored object is the very one that was read, whatever was deleted or re-created in between. |
| `ApiServer.MutateIsCarriedOut` | internal/controller/pod_controller.go:126-177 | Each closure makes exactly this of an object: Analyzing with an empty message; Ready with an empty message and every field of the bundle in its own place; Error with that message; or the stamp. Everything else stays, field by field. |
| `ApiServer.StoredIsMutationOfCurrent` | internal/controller/pod_controller.go:196-197 | What an admitted update stores is the closure applied to the then-current object under a new revision, field by field, although it was computed from an earlier read and the endpoint takes one subresource only. |
| `ApiServer.AfterReplyKeepsConsistent` | config/crd/clusterdiagnoses.yaml:20-21 | Whatever a call is answered, revisions keep growing and identify what was stored under them. |
| `ApiServer.PerformKills` | internal/controller/pod_controller.go:201-204 | A write to a key makes every earlier-computed update of that key inadmissible. |
| `ApiServer.DeadStaysDead` | internal/controller/pod_controller.go:201-204 | No later write revives such an update, not even a re-creation of the object. |
| `SettledCalls.NewWires` | internal/controller/pod_controller.go:189-229 | A request still to be carried out comes only from the worker's own create, update or death on the wire, and never from an update that was accepted. |
| `Invariants.StepFrame` | internal/controller/pod_controller.go:63-169 | Every step moves time and recorded facts forward and leaves all other workers where they are. |
| `Invariants.MutateKeepsStoredOk` | internal/controller/pod_controller.go:127-177 | Each of the four closures keeps a stored object well formed: bundle empty or backed by an answer, phase and message consistent, stamp not in the future. |
| `Invariants.AfterUpdate` | internal/controller/pod_controller.go:191-208 | After any answer a loop either retries its own mutation with the next attempt number, below the limit, or has been left. |
| `Invariants.StepKeepsInv` | internal/controller/pod_controller.go:63-229 | Every step of any worker, every deletion and every late write keeps the invariant. |
| `Invariants.RunKeepsInv` | internal/controller/pod_controller.go:63-229 | So does every run. |
| `Invariants.ReachableHasInv` | internal/controller/pod_controller.go:63-229 | Every reachable state satisfies the invariant. |
| `Refinement.StepRefines` | internal/controller/pod_controller.go:189-229 | Each step either leaves the objects alone or carries out one atomic create, delete, MarkAnalyzing, Publish, MarkError, Stamp, or annotation by someone else, on the objects as they then are. |
| `Refinement.RunRefines` | internal/controller/pod_controller.go:189-229 | Every run of any number of workers is a run of the machine that has only those atomic actions. |
| `Refinement.MutationsKeepOtherFields` | internal/controller/pod_controller.go:126-177 | No mutation loses a field another writer owns: status writes keep spec, annotations and, unless publishing, the bundle; the stamp keeps status and all other annotations. Phase and message become those of the mutation. |
| `Refinement.MutationsAreIdempotent` | internal/controller/pod_controller.go:201-204 | Repeating a mutation after an ambiguous timeout has the effect of one. |
| `Refinement.AcceptedCallApplies` | internal/controller/pod_controller.go:197-200 | The call on which a loop returns nil changes exactly its object, by exactly its mutation, field by field and atomically. |
| `Refinement.LateWriteHitsTheVersionRead` | internal/controller/pod_controller.go:191-206 | A timed-out write that lands late still finds the version it was computed from and applies its mutation to that. |
| `SettledCalls.RunKeepsCalls` | internal/controller/pod_controller.go:189-229 | In every run, what a settled loop left on the wire is dead and loops never share a number. |
| `SettledCalls.DeadForever` | internal/controller/pod_controller.go:201-204 | A dead update stays dead however the run continues. |
| `SettledCalls.SettledLoopsNeverLand` | internal/controller/pod_controller.go:189-229 | Once a loop has returned nil, none of its earlier attempts that timed out can land at any later point of any continuation. |
| `Guarantees.BundleComesWhole` | internal/controller/pod_controller.go:144-155 | The diagnosis fields are all blank or show one successful model call for that key, each the field of its own; a Ready diagnosis shows one, and only an Error carries a message. |
| `Guarantees.ReadyHasSeverity` | internal/llm/provider.go:91-99 | With a provider that answers through the JSON parser, every Ready diagnosis has one of the four severities. |
| `Guarantees.RunKeepsPublishesOk` | internal/controller/pod_controller.go:144-157 | Every non-empty bundle ever stored was put there by a publish that the server carried out. |
| `Guarantees.SkipsAreJustified` | internal/controller/pod_controller.go:113-116 | Whenever the ready gate ends a reconcile, even on a stale cached copy, an earlier publish for the same key was made from the identical observed container state; only that pod view and those behind the answers for that key need clean text. |
| `Guarantees.OneObjectPerTarget` | internal/controller/pod_controller.go:74-111 | Racing creators leave at most one live object per namespace, pod and failure type. |
| `Guarantees.NamedAfterTarget` | internal/detect/detect.go:147-151 | Every live object is named after the namespace, pod and failure type in its spec. |
| `Guarantees.ObjectDescribesTarget` | internal/controller/pod_controller.go:74-92 | The object found under a job's name describes that job's pod and failure, unless the two hashes collide. |
| `Guarantees.SpecNeverChanges` | internal/controller/pod_controller.go:84-91 | No step but its deletion removes an object, and none changes its target or failure type. |
| `Guarantees.TargetForLife` | internal/controller/pod_controller.go:84-91 | Over every run without its deletion an object keeps its target and failure type. |
| `Guarantees.BundleDescribesTarget` | internal/controller/pod_controller.go:74-92 | A stored diagnosis shows a model call about the very pod and failure that its object names, unless hashes collide. |
| `Guarantees.NotesSurvive` | internal/controller/pod_controller.go:210-229 | An annotation that someone else wrote is never lost to the metadata loop, over every run of any number of workers. |
| `Provenance.DiagnosisWasHeard` | internal/controller/pod_controller.go:63-157 | In every run, what an object says of a diagnosis is blank or, field by field, one recorded answer that a worker got for that key, with the usage, fingerprint and remediations of the pod it had last read and the time at which it had last checked its gates. |
| `Provenance.AnswersWereHeard` | internal/controller/pod_controller.go:126-139 | Every recorded answer was given in a step of the run to a worker whose last pod read and last gate check are those recorded with it. |
| `Provenance.ErrorWasHeard` | internal/controller/pod_controller.go:134-180 | In every run, an object in Error shows a gather error or a refusal that a worker got for that key, and no other object shows a message; one in Analyzing was marked by a worker that had passed its gates. |
| `Provenance.StampWasRead` | internal/controller/pod_controller.go:159-165 | In every run, a stored stamp is a second that a worker read from the clock for that key. |
| `StampOrigin.OnlyPublishLeadsToStamp` | internal/controller/pod_controller.go:155-160 | A worker reaches the stamp only when its publish loop returned nil. |
| `StampOrigin.WaysToStamp` | internal/controller/pod_controller.go:155-165 | A worker stands at the stamp only if it stood there before or its publish loop has just returned nil. |
| `StampOrigin.StampFollowsPublish` | internal/controller/pod_controller.go:144-165 | In every run, whoever stands at the stamp or sends one has had its publish loop return nil since it last set out or died. |
| `StampOrigin.FailedAttemptsNeverStamp` | internal/controller/pod_controller.go:134-157 | An attempt that ends at gathering, at the model, or in a failed publish loop never comes to the stamp, even if one of its timed-out publishes was applied. |
| `StampOrigin.StampedMeansPublished` | internal/controller/pod_controller.go:158-167 | In every run, each stored stamp was sent by a worker whose publish loop had returned nil in that same attempt: a failed attempt starts no cooldown. |
| `Cooldown.MoverDisarms` | internal/controller/pod_controller.go:118-124 | Under a young stamp nobody newly passes the gate, and each model call uses up one earlier pass. |
| `Cooldown.OneAskEach` | internal/controller/pod_controller.go:76-139 | While the stored stamp stays younger than five minutes, each worker starts at most one further model call. |
| `Cooldown.AtMostOneAskPerWorker` | internal/controller/pod_controller.go:76-139 | So N workers start at most N, and no more than were past the gate at the start. |
| `Cooldown.GatesExactly` | internal/controller/pod_controller.go:113-124 | A reconcile is over exactly when the copy is Ready for the fingerprint, and otherwise put off exactly by what is missing to five minutes since the stamp, if anything is. |
| `Cooldown.RequeueDelays` | internal/controller/pod_controller.go:118-124 | Every requeue delay lies in (0, 5 min] and is the shortest that helps: on the same object a rerun is put off at every earlier instant, by what is then left, and passes at that instant. |
| `AfterStamp.ServerLeavesStamp` | internal/controller/pod_controller.go:160-165 | A step leaves an object's stamp alone or replaces it by one newer than a bound that all stamps under way respect. |
| `AfterStamp.NoAskDuringCooldown` | internal/controller/pod_controller.go:118-167 | For any number of workers: once a stamp taken at time s is carried out, at once, after a timeout or late, with nobody in the way, no model call for that object starts until strictly after s + 5 min - 1 s, the second being what truncation loses. |
| `AfterStamp.OneWorkerIsAlone` | internal/controller/pod_controller.go:118-167 | A deployment with one worker, whose stamp is carried out by its own update call, always meets the condition of the previous row. |
| `AfterStamp.AskIffStampExpired` | internal/controller/pod_controller.go:118-124 | For a stamped object and a pod view it is not ready for, a model call can start by a deadline if and only if the stamp expires by then. |
| `AfterStamp.RepeatIffNotStamped` | internal/controller/pod_controller.go:113-167 | From a moment at which the gate lets an attempt pass, whatever the attempts until later come to, another model call inside the window is possible if and only if none of them had its stamp carried out. |
| `Progress.CleanStepAdvances` | internal/controller/pod_controller.go:63-169 | Every fault-free step of a visit keeps it on track to a ready diagnosis and brings the end closer. |
| `Progress.CleanVisitEnds` | internal/controller/pod_controller.go:63-169 | From every point of a fault-free visit the end is reached, within fifteen steps of the worker. |
| `Progress.CleanVisitConverges` | internal/controller/pod_controller.go:63-169 | From every reachable state, be the object missing, abandoned in Analyzing, in Error or ready for an older state, a fault-free visit ends Ready with the current fingerprint and without error. |
| `Progress.SettledVisitsDoNothing` | internal/controller/pod_controller.go:113-116 | However many undisturbed visits of the same pod view follow, they write nothing, call nothing and open no retry loop. |
| `Progress.ConvergedIsSettled` | internal/controller/pod_controller.go:113-169 | A converged visit leaves the state from which the previous row starts. |
| `Accounting.MoverKeeps` | internal/controller/pod_controller.go:48-61 | Each step moves a worker and the counters so that both balances stay what they were. |
| `Counters.StepCounts` | internal/controller/pod_controller.go:48-61 | Every step adds one to the counters of what happens in it, and nothing to the others. |
| `Counters.CountersCount` | internal/controller/pod_controller.go:48-61 | In every run each counter is the number of its events: accepted marks, accepted publishes, failed publish loops, finished error records, deaths, starts, and returns with each of the three results. |
| `Counters.EventsBalance` | internal/controller/pod_controller.go:126-180 | In every run, accepted marks equal accepted publishes plus finished error records plus failed publish loops plus deaths in an attempt plus attempts under way; started reconciles equal the returns with each result plus deaths plus those under way; and requeues are exactly the cooldown exits. |
| `Accounting.RunsBalance` | internal/controller/pod_controller.go:126-180 | The counters keep the same balances. |
| `Accounting.QuietBalance` | internal/controller/pod_controller.go:48-61 | With nobody under way, the outcome counters add up to the attempts that did not die, and the observations to the reconciles that did not; `Counters.CountersCount` says what each of them counts. |
| `Accounting.BackoffBound` | internal/controller/pod_controller.go:189-229 | Whatever the server answers, no reconcile sleeps more than 2300 ms in back-off, and every loop stays below eight attempts. |
| `Sharpness.BackoffBoundIsReached` | internal/controller/pod_controller.go:189-229 | For every failing pod there is a run whose first and only reconcile, of that pod, sleeps exactly 2300 ms. |
| `Sharpness.FailedAttemptIsRepeated` | internal/controller/pod_controller.go:139-142 | With one worker, current gates and no deletion there is a run in which an attempt is refused by the model and the next one asks again at the very same time. |
| `Sharpness.SecondWorkerAsks` | internal/controller/pod_controller.go:118-167 | With two workers past the gate, one has asked, published and stamped, every gate was current, and the other can still ask at that time. |
| `Sharpness.StampMovesBack` | internal/controller/pod_controller.go:159-165 | Two workers can store their stamps in the wrong order, so that the stored stamp moves backwards. |
| `Sharpness.LateStampLetsAskThrough` | internal/controller/pod_controller.go:118-167 | For a stamp that lands late one worker is not enough: with current gates and no deletion there is a run in which the only worker dies after sending its stamp, sets out for a new view of the pod, has the stamp land when it is past the gate, and asks at the stamp's own time. |
| `Sharpness.StaleGateLetsAskThrough` | internal/controller/pod_controller.go:77-139 | As long as the cache holds a version that passes the gate, a worker can start a model call while the stored stamp is young. |
| `Sharpness.StaleGateHappens` | internal/controller/pod_controller.go:77-124 | The first fault-free visit of any failing pod ends in such a state. |
| `Reconciler.HistoryIsRun` | internal/controller/pod_controller.go:63-229 | What the methods do to the shared cluster is a run of the machine. |
| `Reconciler.ReturnIsDue` | internal/controller/pod_controller.go:48-229 | A worker returns only on a step that calls for it, with the result that step calls for: no failure to report, an error of a read, a create, gathering, the model or a loop that gave up, the two gates, or the stamp stored; a conflict or a timeout ends a loop only in its eighth attempt. |
| `Reconciler.Cluster.Interfere` | internal/controller/pod_controller.go:63-229 | Between two calls of a worker anyone else may take any number of steps; the worker itself stays where it is. |
| `Reconciler.PodReconciler.GetDiagnosis` | internal/controller/pod_controller.go:182-187 | One read; afterwards the worker holds the object it returned, or has left its loop with the read's error. |
| `Reconciler.PodReconciler.Update` | internal/controller/pod_controller.go:197-206 | One update call; nil only if its mutation was applied at that very step, a conflict or timeout costs 25 ms times the attempt number. |
| `Reconciler.PodReconciler.PatchDiagnosisStatus` | internal/controller/pod_controller.go:189-208 | It returns nil exactly when one of its updates was accepted; its mutation was then applied, field by field and atomically, to the then-current object between call and return, after at most 700 ms of sleep. On an error it has slept at most 900 ms. |
| `Reconciler.PodReconciler.PatchDiagnosisMeta` | internal/controller/pod_controller.go:210-229 | The same for the metadata loop. |
| `Reconciler.PodReconciler.Fail` | internal/controller/pod_controller.go:171-180 | Returns the error it was given whatever becomes of the status write; if an update of it was accepted, the object was then in Error with exactly that message. |
| `Reconciler.PodReconciler.PassGates` | internal/controller/pod_controller.go:113-124 | The two gates, in order, on the copy that was read: returned without error exactly when it is Ready for the fingerprint, put off exactly until its stamp is five minutes old, or at the analysis mark with the clock as it then is. |
| `Reconciler.PodReconciler.FindOrCreate` | internal/controller/pod_controller.go:76-111 | Ends with a copy to check the gates on, or with the error returned; never with a requeue. |
| `Reconciler.PodReconciler.MakeBundle` | internal/controller/pod_controller.go:144-154 | Each field of the bundle is the part of its own: four from the answer, the gate clock in seconds, the fingerprint, the usage of the first container of that name, and the remediations. |
| `Reconciler.PodReconciler.Analyze` | internal/controller/pod_controller.go:126-168 | From the mark to the stamp in at most 2300 ms of back-off; on success one model answer got during the call was then published in it, atomically, and the status showed it field by field. |
| `Reconciler.PodReconciler.Reconcile` | internal/controller/pod_controller.go:48-169 | One whole reconcile under arbitrary interference: ends idle in a reachable state, on a step that calls for its result and adds one to the observation that the result names and to no other. A success that is not due to the pod read or the ready gate means that during the call the worker read that pod, checked its gates at the recorded time, got an answer and published it, field by field. |
| `Detect.ClassifyPendingScheduling` | internal/detect/detect.go:42-70 | The loops compute the first refusal of scheduling or missing configuration in their order, and report it exactly when the fields of the pod show it. |
| `Detect.Classify` | internal/detect/detect.go:73-107 | The early-return loops compute `Classification` and report exactly the primary failure that the fields of the pod show; a nil pod has no finding. |
| `Detect.ClassifiedExactly` | internal/detect/detect.go:24-107 | On the fields alone: OOMKilled for the first last-termination with that reason, else InitContainerError for the first init container with a non-zero exit, an "Error" in its waiting reason or one of five reasons, else CrashLoopBackOff or ImagePullBackOff by the reason of the first app container that waits with one of the three, else PendingScheduling; each exactly then, with that container. |
| `Detect.PendingExactly` | internal/detect/detect.go:42-70 | A pod counts as pending exactly when its phase is Pending and its first scheduling condition refuses it or, failing that, a container lacks its configuration, of which the first is named. |
| `Detect.ClassificationIsLeastCandidate` | internal/detect/detect.go:24-107 | The result is exactly the least candidate failure by priority tier and list position, and there is none iff no candidate exists. |
| `Detect.PendingNeverFromInitContainer` | internal/detect/detect.go:59-105 | A PendingScheduling finding never comes from an init container. |
| `Detect.PendingHelperAloneNamesInitContainer` | internal/detect/detect.go:42-70 | The helper by itself does name one; the earlier tiers prevent it. |
| `Detect.NameInputRoundTrip` | internal/detect/detect.go:147-151 | The hashed text can be split into its three parts exactly when namespace and failure type contain no slash. |
| `Detect.NameInputIsInjective` | internal/detect/detect.go:147-151 | Then different triples have different hashed texts. |
| `Detect.NameInputNeedsSlashFreeParts` | internal/detect/detect.go:149 | Otherwise two different triples can share one. |
| `Detect.FailureTexts` | internal/detect/detect.go:16-22 | The five types have the texts that are stored in specs. |
| `Detect.FailureTextIsInjective` | internal/detect/detect.go:16-22 | Different failure types have different texts, so equal specs mean equal types. |
| `Fingerprints.WriteContainerFingerprint` | internal/detect/detect.go:129-145 | The writes to the builder append the fingerprint text of that container. |
| `Fingerprints.Fingerprint` | internal/detect/detect.go:110-127 | The first status with that name, app containers first, gives the text; without one it is the "missing" text. |
| `Fingerprints.TextInFull` | internal/detect/detect.go:110-145 | The fingerprint is the name, restart count, waiting state and last termination of the first status with that name, each behind its own mark. |
| `Fingerprints.FingerprintReadsFields` | internal/detect/detect.go:110-145 | Two clear views of named containers have one fingerprint exactly when name, restart count, waiting state and last termination agree. |
| `Fingerprints.ContainerTextRoundTrip` | internal/detect/detect.go:129-145 | The text decodes back to all its fields, signed decimals and optional parts included, exactly when the name has no bar, the waiting reason no colon and the message not the marker that opens the termination part. |
| `Fingerprints.ContainerTextIsInjective` | internal/detect/detect.go:129-145 | Then different container states have different texts. |
| `Fingerprints.RestrictionsAreNeeded` | internal/detect/detect.go:129-145 | Dropping any of the three restrictions lets two different states share a text. |
| `Fingerprints.FingerprintOfClassified` | internal/detect/detect.go:73-126 | With unique, non-empty names the classified container's fingerprint is that of the status at the least candidate site; a finding without a container has the "missing" text. |
| `Fingerprints.MissingTextIsNoContainerText` | internal/detect/detect.go:126 | The "missing" text equals no real container's fingerprint. |
| `Fingerprints.MissingTextNamesPod` | internal/detect/detect.go:126 | Without a status of that name the text can be split into the pod's namespace and its name. |
| `Fingerprints.EqualFingerprints` | internal/detect/detect.go:110-145 | Equal fingerprints of two well-formed pod views mean the same observed state. |
| `Resources.BuildResourceUsage` | internal/collect/collect.go:119-158 | The quantities of the first container with that name, app containers first; nil when none is set or no container has the name. |
| `Resources.UsageReadsFirstNamed` | internal/collect/collect.go:123-157 | What is reported is exactly this: of all containers, app containers first, the first with that name is read; each quantity lands in its own field; and nothing is reported when none is set or no container has the name. |
| `EventSummary.NewerIsStrictWeakOrder` | internal/collect/collect.go:58-68 | The comparison with its event-time fallback is a strict weak order. |
| `EventSummary.NewerComparesInstants` | internal/collect/collect.go:58-68 | One event counts as newer exactly when its last timestamp or, where that is zero, its event time is later. |
| `EventSummary.SummarizeEvents` | internal/collect/collect.go:57-77 | The slice is permuted without loss; min(limit, n) lines of kind, reason and message are returned, newest first by last timestamp or else event time, and no omitted event is newer than a kept one. |
| `EventSummary.KeptAreNewest` | internal/collect/collect.go:57-77 | Every event newer than some kept one is kept as often as it occurs, however ties were ordered. |
| `RateLimit.Limiter.Reserve` | internal/llm/ratelimit.go:24-26 | A token bucket of one: the call is let through at the earliest instant a token is due, or refused with the bucket untouched when that exceeds the caller's patience. |
| `RateLimit.Limiter.Cancel` | internal/llm/ratelimit.go:24-26 | A cancelled wait gives its token back exactly when its time has not passed and no later one is reserved. |
| `RateLimit.TraceKeepsOk` | internal/llm/ratelimit.go:22-29 | However joining, giving up and calling of many callers interleave, all reservations that are or were used lie a token apart. |
| `RateLimit.GivingUpUndoesJoining` | internal/llm/ratelimit.go:24-26 | A wait given up before its time costs nobody anything: with no one behind it, the next caller fares as if that one had never joined. |
| `RateLimit.GivingUpLateCostsToken` | internal/llm/ratelimit.go:24-26 | After its time the token is lost: the next caller is let through no sooner than a whole token later. |
| `RateLimit.CallsBound` | internal/llm/ratelimit.go:22-45 | A window of d ticks sees at most 1 + floor((d + lag) / token) calls to the inner provider, where no call comes later than the lag after its grant. |
| `RateLimit.CallsBoundIsMet` | internal/llm/ratelimit.go:22-45 | The bound with its lag is exact: for every span and every lag there is a trace that attains it. |
| `RateLimit.WindowBound` | internal/llm/ratelimit.go:22-45 | In every trace of any number of callers and in every window of t seconds, the limiter lets at most 1 + floor(t * rpm / 60) calls through, however late these are then made. |
| `RateLimit.PromptCallsBound` | internal/llm/ratelimit.go:22-45 | And the inner provider sees at most that many calls in a window whose calls follow their grants at once. |
| `RateLimit.BackToBackCalls` | internal/llm/ratelimit.go:43 | A caller that always comes back at once attains the bound without any lag. |
| `RateLimit.Shared.Interfere` | internal/llm/ratelimit.go:22-29 | Between two actions of one caller the others may do anything; its own reservation stays. |
| `RateLimit.RateLimitedProvider.Diagnose` | internal/llm/ratelimit.go:22-29 | Among arbitrary other callers: the error of the wait without any call, having only joined or also given up, be it before its grant or later; otherwise exactly one call of the inner provider, for that very context and no sooner than granted, whose answer is returned. Without a limiter always the latter. |
| `RateLimit.WrapWithLLMRateLimit` | internal/llm/ratelimit.go:33-45 | The limiter's rate is the effective LLM_RPM, and there is none when that is not positive, so that every answer then passes through unchanged. |
| `RateLimit.RpmExactly` | internal/llm/ratelimit.go:34-42 | Plain digits with or without a sign, whatever the space around them, are the rate: 120 when they do not fit 64 bits, and no limit exactly when the number is not positive. |
| `RateLimit.RpmOfOther` | internal/llm/ratelimit.go:34-39 | Anything else leaves 120 in force. |
| `RateLimit.RpmOf` | internal/llm/ratelimit.go:34-42 | Any 64-bit decimal in LLM_RPM, spaces around it or not, is the rate in force; zero and negatives switch limiting off. |
| `RateLimit.RpmFallsBack` | internal/llm/ratelimit.go:34-39 | Any letter, point or other character that no signed decimal contains leaves 120 in force. |
| `RateLimit.RpmOfBlank` | internal/llm/ratelimit.go:34-39 | So does a blank variable. |
| `RateLimit.RpmOutOfRange` | internal/llm/ratelimit.go:34-39 | So does a decimal that does not fit 64 bits, a negative one included. |
| `DiagnosisJson.Normalize` | internal/llm/provider.go:91-99 | The severity becomes one of the four; nothing else changes. |
| `DiagnosisJson.NormalizeReadsSeverity` | internal/llm/provider.go:91-99 | Surrounding space and case of a severity do not matter, and every text that is none of the four counts as medium. |
| `DiagnosisJson.SeverityIsRead` | internal/llm/provider.go:91-99 | A severity is read exactly when it is spelled, in letters of any case and with any space around it; every other text, a blank one included, is medium. |
| `DiagnosisJson.ParseDiagnosisJSON` | internal/llm/provider.go:68-83 | Whatever the decoder does, an accepted reply has one of the four severities. |
| `DiagnosisJson.WrappedObjectIsRecovered` | internal/llm/provider.go:74-81 | An object wrapped in brace-free prose is read as the object alone would be. |
| `DiagnosisJson.ReplyRoundTrip` | internal/llm/provider.go:68-83 | A diagnosis with a proper severity, encoded as an object and wrapped in space or brace-free prose, comes back as it was encoded. |
| `DiagnosisJson.AcceptedTextIsInReply` | internal/llm/provider.go:68-83 | No diagnosis is made up: an accepted reply contains, in one piece, the text it was decoded from. |
| `DiagnosisJson.TwoObjectsAreRefused` | internal/llm/provider.go:74-82 | A reply with two objects is refused although each would be read alone. |
| `DeepCopy.ClusterDiagnosis.DeepCopyMetaInto` | api/v1alpha1/zz_generated.deepcopy.go:12 | Labels and annotations are copied into maps of their own, nil for nil. |
| `DeepCopy.ClusterDiagnosis.DeepCopySpecInto` | api/v1alpha1/zz_generated.deepcopy.go:35-43 | Equal spec with a collection time of its own. |
| `DeepCopy.ClusterDiagnosis.DeepCopyStatusInto` | api/v1alpha1/zz_generated.deepcopy.go:53-77 | Equal status whose time, conditions, usage and remediations are all newly allocated, nil and empty slices kept apart. |
| `DeepCopy.ClusterDiagnosis.DeepCopyInto` | api/v1alpha1/zz_generated.deepcopy.go:9-15 | The target equals the source and shares nothing mutable with anything older. |
| `DeepCopy.DeepCopyDiagnosis` | api/v1alpha1/zz_generated.deepcopy.go:18-25 | Nil for nil, otherwise such a copy. |
| `DeepCopy.CopyItems` | api/v1alpha1/zz_generated.deepcopy.go:84-90 | The copied items equal the source's one by one, are new, and share nothing with each other. |
| `DeepCopy.ClusterDiagnosisList.DeepCopyInto` | api/v1alpha1/zz_generated.deepcopy.go:80-91 | The same for lists of any length, with nil and empty item slices kept apart. |
| `DeepCopy.DeepCopyList` | api/v1alpha1/zz_generated.deepcopy.go:93-100 | Nil for nil, otherwise a new list that is such a copy. |
| `DeepCopy.ListCopyIsEqual` | api/v1alpha1/zz_generated.deepcopy.go:80-91 | The copy of a list has the value of the list. |
| `DeepCopy.ListCopyIsNew` | api/v1alpha1/zz_generated.deepcopy.go:80-91 | All that the copy reaches, through its items as well, is new. |
| `DeepCopy.ValueDependsOnReach` | api/v1alpha1/zz_generated.deepcopy.go:9-77 | A diagnosis keeps its value under any change outside the objects it reaches. |
| `DeepCopy.ListValueDependsOnReach` | api/v1alpha1/zz_generated.deepcopy.go:80-91 | A list keeps its value under any change outside the objects it reaches. |
| `DeepCopy.CopyIsApart` | api/v1alpha1/zz_generated.deepcopy.go:9-77 | A copy reaches no object that any older diagnosis reaches. |
| `DeepCopy.ChangeCopy` | api/v1alpha1/zz_generated.deepcopy.go:18-25 | Whatever is done to a copy and to what it reaches, the original keeps its value. |
| `DeepCopy.ChangeSource` | api/v1alpha1/zz_generated.deepcopy.go:18-25 | Whatever is done to the original, the copy keeps the value it had. |
| `DeepCopy.ChangeCopiedItem` | api/v1alpha1/zz_generated.deepcopy.go:80-91 | Whatever is done to an item of a copied list, the source list keeps its value. |
| `DeepCopy.ChangeBesideItem` | api/v1alpha1/zz_generated.deepcopy.go:80-91 | And so does every other item of the copy. |
| `DeepCopy.ChangeSourceItem` | api/v1alpha1/zz_generated.deepcopy.go:80-91 | Whatever is done to an item of the source list, the copy keeps the value the list had. |

## Left out

- HTTP and SDK providers, prompts and their transport: a model call is an arbitrary answer, of
  which a deployment may say what it can be (`Config.legit`).
- JSON decoding: a parameter of the parser, any function from text to an optional diagnosis.
- SHA-256 and the hexadecimal text of a name: a parameter, any function from text to text.
- RFC 3339 texts: an annotation is an instant in whole seconds or some other text, which the gate
  ignores like a text that does not parse.
- Collecting events, logs and the pod's YAML: one call that succeeds or fails; `trimRunes` and the
  prompt builder would add only one-branch facts.
- Remediation texts: a fixed function of the failure type.
- Owner references, RBAC, leader election, the work queue and watches: a reconcile may start at
  any moment for any pod view; a failure to set the owner reference ends a reconcile like a broken
  create that is lost.
- Writers other than the operator, except for annotations under names of their own: nobody else
  changes a spec, a status or the stamp.
- The moment of a back-off: its milliseconds are charged in the step of the call that causes it.
- The server's omission of writes that change nothing: every accepted write gets a new revision.
- Object fields the operator never writes, such as status conditions, in the protocol; the deep
  copies do cover them.
- Machine integers: restart counts, exit codes and counters are unbounded integers, and times do
  not saturate as a Go duration does after 292 years.
- Several clocks: all workers read one clock that never goes back.
- Prometheus registration and histograms, and the provider wrapper that only records durations:
  only the counts are kept.
- Unicode: a text is a sequence of code points, so invalid UTF-8 is not modelled. Trimming removes
  all of Go's spaces; lower-casing is exact as far as it yields ASCII letters, and other letters
  keep their case.
- `cmd/manager` and `cmd/diagctl`: wiring, argument parsing and printing.
- The text of errors: a loop that gives up names its kind but not the last error it wraps.
- RateLimit.Limiter.Reserve: the rate is exact, whereas the library computes tokens in floating point.
- RateLimit.WrapWithLLMRateLimit: without a limit the source returns the inner provider itself, the model a wrapper without a limiter, which calls it directly.
- EventSummary.SortNewestFirst: stands for the library's sort with a simple one; nothing relies on how it orders equally recent events.
- AfterStamp.NoAskDuringCooldown: says nothing about stale gate reads, workers past the gate when the stamp is carried out (another one, or the sender of a stamp that lands late) and older stamps under way, where the statement is false (`Sharpness.StaleGateLetsAskThrough`, `Sharpness.SecondWorkerAsks`, `Sharpness.LateStampLetsAskThrough`, `Sharpness.StampMovesBack`), nor about an object that is deleted and loses its stamp.
- DeepCopy.ClusterDiagnosis.DeepCopyMetaInto: of the object metadata it copies name, namespace, resource version, labels and annotations; owner references, finalizers, the deletion time and the other fields are copied by the library's own `ObjectMeta` code, which is not part of this model.
- Progress.CleanVisitConverges: says nothing about visits that are disturbed or whose calls fail.

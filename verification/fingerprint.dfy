/**
  The fingerprint text that decides whether a diagnosis is still current:
  `internal/detect/detect.go`, lines 109-145.
 */
module Fingerprints {
  import opened Wrappers
  import opened Text
  import opened Detect

  /** What the text is made from. */
  datatype Observed = Observed(
    name: string,
    restarts: int,
    waiting: Option<Waiting>,
    last: Option<Terminated>
  )

  function Observe(cs: ContainerStatus): Observed {
    Observed(cs.name, cs.restartCount, cs.waiting, cs.lastTerminated)
  }

  // ----- the text -----

  function TerminatedText(last: Option<Terminated>): string {
    if last.None? then "" else "|T:" + (last.value.reason + [':'] + Itoa(last.value.exitCode))
  }

  function StateText(waiting: Option<Waiting>, last: Option<Terminated>): string {
    var t := TerminatedText(last);
    if waiting.None? then t else "|W:" + (waiting.value.reason + [':'] + (waiting.value.message + t))
  }

  function ContainerText(o: Observed): string {
    o.name + ['|'] + (Itoa(o.restarts) + StateText(o.waiting, o.last))
  }

  function MissingText(pod: Pod): string {
    pod.namespace + "/" + pod.name + "|missing"
  }

  /** Position of the first status with that name, or the length of the list. */
  function FirstNamed(statuses: seq<ContainerStatus>, container: string): (i: nat)
    ensures i <= |statuses|
    ensures forall j :: 0 <= j < i ==> statuses[j].name != container
    ensures i < |statuses| ==> statuses[i].name == container
  {
    if statuses == [] || statuses[0].name == container then 0
    else 1 + FirstNamed(statuses[1..], container)
  }

  lemma FirstNamedIs(statuses: seq<ContainerStatus>, container: string, i: nat)
    requires i <= |statuses| && forall j :: 0 <= j < i ==> statuses[j].name != container
    requires i < |statuses| ==> statuses[i].name == container
    ensures FirstNamed(statuses, container) == i
  {
  }

  /** The status a fingerprint is taken from: app containers first, then init containers. */
  function NamedStatus(pod: Pod, container: string): Option<ContainerStatus> {
    var i := FirstNamed(pod.containers, container);
    if i < |pod.containers| then Some(pod.containers[i])
    else
      var j := FirstNamed(pod.initContainers, container);
      if j < |pod.initContainers| then Some(pod.initContainers[j]) else None
  }

  /** What the fingerprint of a pod is taken from; None is the "missing" text. */
  function ObservedState(pod: Pod, container: string): Option<Observed> {
    var cs := NamedStatus(pod, container);
    if cs.None? then None else Some(Observe(cs.value))
  }

  function FingerprintText(pod: Pod, container: string): string {
    var o := ObservedState(pod, container);
    if o.None? then MissingText(pod) else ContainerText(o.value)
  }

  // ----- the builder and the methods that append to it -----

  class Builder {
    var text: string

    constructor ()
      ensures text == ""
    {
      text := "";
    }

    method WriteString(s: string)
      modifies this
      ensures text == old(text) + s
    {
      text := text + s;
    }

    method WriteByte(c: char)
      modifies this
      ensures text == old(text) + [c]
    {
      text := text + [c];
    }
  }

  /** Concatenation is associative, spelled out for the pieces that are appended. */
  lemma Regroup3(a: string, b: string, c: string, d: string)
    ensures a + b + c + d == a + (b + c + d)
  {
  }

  lemma Regroup4(a: string, b: string, c: string, d: string, e: string)
    ensures a + b + c + d + e == a + (b + c + d + e)
  {
  }

  lemma RegroupState(w: string, reason: string, colon: string, message: string, t: string)
    ensures w + reason + colon + message + t == w + (reason + colon + (message + t))
  {
  }

  lemma RegroupAll(start: string, name: string, bar: string, digits: string, w: string, t: string)
    ensures start + (name + bar + digits) + w + t == start + (name + bar + (digits + (w + t)))
  {
  }

  lemma EmptyStart(s: string)
    ensures "" + s == s
  {
  }

  method WriteContainerFingerprint(b: Builder, cs: ContainerStatus)
    modifies b
    ensures b.text == old(b.text) + ContainerText(Observe(cs))
    ensures old(b.text) == "" ==> b.text == ContainerText(Observe(cs))
  {
    ghost var start, w, t, digits := b.text, "", "", Itoa(cs.restartCount);
    b.WriteString(cs.name);
    b.WriteByte('|');
    b.WriteString(Itoa(cs.restartCount));
    Regroup3(start, cs.name, ['|'], digits);
    ghost var head := b.text;
    if cs.waiting.Some? {
      b.WriteString("|W:");
      b.WriteString(cs.waiting.value.reason);
      b.WriteString(":");
      b.WriteString(cs.waiting.value.message);
      w := "|W:" + cs.waiting.value.reason + [':'] + cs.waiting.value.message;
      Regroup4(head, "|W:", cs.waiting.value.reason, [':'], cs.waiting.value.message);
      RegroupState("|W:", cs.waiting.value.reason, [':'], cs.waiting.value.message,
                   TerminatedText(cs.lastTerminated));
    }
    assert b.text == head + w;
    ghost var middle := b.text;
    if cs.lastTerminated.Some? {
      b.WriteString("|T:");
      b.WriteString(cs.lastTerminated.value.reason);
      b.WriteString(":");
      b.WriteString(Itoa(cs.lastTerminated.value.exitCode));
      t := "|T:" + cs.lastTerminated.value.reason + [':'] + Itoa(cs.lastTerminated.value.exitCode);
      Regroup4(middle, "|T:", cs.lastTerminated.value.reason, [':'], Itoa(cs.lastTerminated.value.exitCode));
      Regroup3("|T:", cs.lastTerminated.value.reason, [':'], Itoa(cs.lastTerminated.value.exitCode));
    }
    assert t == TerminatedText(cs.lastTerminated);
    assert w + t == StateText(cs.waiting, cs.lastTerminated);
    RegroupAll(start, cs.name, ['|'], digits, w, t);
    EmptyStart(ContainerText(Observe(cs)));
  }

  method Fingerprint(pod: Pod, container: string) returns (text: string)
    ensures text == FingerprintText(pod, container)
  {
    var b := new Builder();
    for i := 0 to |pod.containers|
      invariant b.text == "" && fresh(b)
      invariant forall j :: 0 <= j < i ==> pod.containers[j].name != container
    {
      if pod.containers[i].name != container {
        continue;
      }
      WriteContainerFingerprint(b, pod.containers[i]);
      FirstNamedIs(pod.containers, container, i);
      return b.text;
    }
    FirstNamedIs(pod.containers, container, |pod.containers|);
    for i := 0 to |pod.initContainers|
      invariant b.text == "" && fresh(b)
      invariant forall j :: 0 <= j < i ==> pod.initContainers[j].name != container
    {
      if pod.initContainers[i].name != container {
        continue;
      }
      WriteContainerFingerprint(b, pod.initContainers[i]);
      FirstNamedIs(pod.initContainers, container, i);
      return b.text;
    }
    FirstNamedIs(pod.initContainers, container, |pod.initContainers|);
    return MissingText(pod);
  }

  // ----- reading the text back -----

  /** "reason:code", split at the last colon. */
  function ReadTerminated(s: string): Option<Terminated> {
    var i := LastIndexOf(s, ':');
    if i == |s| then None
    else
      var code := ParseInt(s[i + 1..]);
      if code.None? then None else Some(Terminated(s[..i], code.value))
  }

  function ReadLast(name: string, restarts: int, waiting: Option<Waiting>, tail: string): (r: Option<Observed>)
    ensures r.Some? ==> r.value.name == name && r.value.restarts == restarts && r.value.waiting == waiting
  {
    if tail == "" then Some(Observed(name, restarts, waiting, None))
    else if "|T:" <= tail then
      var last := ReadTerminated(tail[3..]);
      if last.None? then None else Some(Observed(name, restarts, waiting, last))
    else None
  }

  function ReadTail(name: string, restarts: int, tail: string): (r: Option<Observed>)
    ensures r.Some? ==> r.value.name == name && r.value.restarts == restarts
  {
    if "|W:" <= tail then
      var body := tail[3..];
      var c := IndexOf(body, ':');
      if c == |body| then None
      else
        var rest := body[c + 1..];
        var k := Find(rest, "|T:");
        ReadLast(name, restarts, Some(Waiting(body[..c], rest[..k])), rest[k..])
    else ReadLast(name, restarts, None, tail)
  }

  /** The inverse of `ContainerText`. */
  function ReadContainer(s: string): (r: Option<Observed>)
    ensures r.Some? ==> r.value.name == s[..IndexOf(s, '|')]
  {
    var p := IndexOf(s, '|');
    if p == |s| then None
    else
      var rest := s[p + 1..];
      var q := IndexOf(rest, '|');
      var restarts := ParseInt(rest[..q]);
      if restarts.None? then None else ReadTail(s[..p], restarts.value, rest[q..])
  }

  /** The fields whose separators cannot be confused; the termination reason is unrestricted. */
  predicate Readable(o: Observed) {
    && '|' !in o.name
    && (o.waiting.Some? ==> ':' !in o.waiting.value.reason && !Contains(o.waiting.value.message, "|T:"))
  }

  // ----- round trip -----

  lemma ReadTerminatedText(t: Terminated)
    ensures ReadTerminated(t.reason + [':'] + Itoa(t.exitCode)) == Some(t)
  {
    var code := Itoa(t.exitCode);
    var s := t.reason + [':'] + code;
    assert s[|t.reason| + 1..] == code && s[..|t.reason|] == t.reason;
    ItoaCharacters(t.exitCode);
    LastIndexIsUnique(s, ':', |t.reason|);
    ParseIntOfItoa(t.exitCode);
  }

  lemma ReadLastText(name: string, restarts: int, waiting: Option<Waiting>, last: Option<Terminated>)
    ensures ReadLast(name, restarts, waiting, TerminatedText(last)) == Some(Observed(name, restarts, waiting, last))
  {
    if last.Some? {
      DropPrefix(TerminatedText(last), "|T:", last.value.reason + [':'] + Itoa(last.value.exitCode));
      ReadTerminatedText(last.value);
    }
  }

  /** Where a terminated part follows a message, it is the first place where "|T:" occurs. */
  lemma FindTerminatedText(message: string, last: Option<Terminated>)
    requires !Contains(message, "|T:")
    ensures Find(message + TerminatedText(last), "|T:") == |message|
  {
    var t := TerminatedText(last);
    var s := message + t;
    forall k | 0 <= k < |message| ensures !OccursAt(s, "|T:", k) {
      assert !OccursAt(message, "|T:", k);
      if k + 3 <= |message| {
        assert s[k..k + 3] == message[k..k + 3];
      } else if k + 3 <= |s| {
        assert s[|message|] == '|' && s[k..k + 3][|message| - k] == '|';
      }
    }
    if last.Some? {
      assert s[|message|..|message| + 3] == "|T:";
      assert OccursAt(s, "|T:", |message|);
    } else {
      assert s == message;
    }
  }

  lemma ReadTailWithWaiting(name: string, restarts: int, w: Waiting, last: Option<Terminated>)
    requires ':' !in w.reason && !Contains(w.message, "|T:")
    ensures ReadTail(name, restarts, StateText(Some(w), last)) == Some(Observed(name, restarts, Some(w), last))
  {
    var t := TerminatedText(last);
    var rest := w.message + t;
    var body := w.reason + [':'] + rest;
    DropPrefix(StateText(Some(w), last), "|W:", body);
    SplitFirst(body, w.reason, ':', rest);
    FindTerminatedText(w.message, last);
    DropPrefix(rest, w.message, t);
    ReadLastText(name, restarts, Some(w), last);
  }

  lemma ReadTailWithoutWaiting(name: string, restarts: int, last: Option<Terminated>)
    ensures ReadTail(name, restarts, StateText(None, last)) == Some(Observed(name, restarts, None, last))
  {
    ReadLastText(name, restarts, None, last);
    var t := StateText(None, last);
    assert t == "" || t[1] == 'T';
  }

  lemma UnreadableWaiting(name: string, restarts: int, w: Waiting, last: Option<Terminated>)
    requires ':' in w.reason || Contains(w.message, "|T:")
    ensures ReadTail(name, restarts, StateText(Some(w), last)) != Some(Observed(name, restarts, Some(w), last))
  {
    var t := TerminatedText(last);
    var rest := w.message + t;
    var body := w.reason + [':'] + rest;
    DropPrefix(StateText(Some(w), last), "|W:", body);
    if ':' in w.reason {
      IndexInsidePrefix(body, w.reason, ':');
    } else {
      SplitFirst(body, w.reason, ':', rest);
      var i :| 0 <= i <= |w.message| && OccursAt(w.message, "|T:", i);
      assert rest[i..i + 3] == w.message[i..i + 3];
      assert OccursAt(rest, "|T:", i);
    }
  }

  lemma StateTextStartsWithBar(waiting: Option<Waiting>, last: Option<Terminated>)
    ensures var t := StateText(waiting, last); t == "" || t == ['|'] + t[1..]
  {
  }

  /** Reading the head of the text: the name and the restart count. */
  lemma ReadHead(o: Observed)
    requires '|' !in o.name
    ensures ReadContainer(ContainerText(o)) == ReadTail(o.name, o.restarts, StateText(o.waiting, o.last))
  {
    var digits := Itoa(o.restarts);
    var tail := StateText(o.waiting, o.last);
    SplitFirst(ContainerText(o), o.name, '|', digits + tail);
    ReadDigits(digits, tail, o.restarts);
    StateTextStartsWithBar(o.waiting, o.last);
  }

  lemma ReadDigits(digits: string, tail: string, n: int)
    requires digits == Itoa(n) && (tail == "" || tail == ['|'] + tail[1..])
    ensures var rest := digits + tail;
            var q := IndexOf(rest, '|');
            q == |digits| && rest[..q] == digits && rest[q..] == tail && ParseInt(rest[..q]) == Some(n)
  {
    ItoaCharacters(n);
    ParseIntOfItoa(n);
    DropPrefix(digits + tail, digits, tail);
    if tail != "" {
      assert digits + tail == digits + ['|'] + tail[1..];
      SplitFirst(digits + tail, digits, '|', tail[1..]);
    } else {
      assert digits + tail == digits;
    }
  }

  lemma UnreadableName(o: Observed)
    requires '|' in o.name
    ensures ReadContainer(ContainerText(o)) != Some(o)
  {
    IndexInsidePrefix(ContainerText(o), o.name, '|');
  }

  lemma ReadableState(o: Observed)
    requires '|' !in o.name
    ensures ReadTail(o.name, o.restarts, StateText(o.waiting, o.last)) == Some(o) <==> Readable(o)
  {
    if o.waiting.None? {
      ReadTailWithoutWaiting(o.name, o.restarts, o.last);
    } else if Readable(o) {
      ReadTailWithWaiting(o.name, o.restarts, o.waiting.value, o.last);
    } else {
      UnreadableWaiting(o.name, o.restarts, o.waiting.value, o.last);
    }
  }

  /** The text can be read back to its fields exactly when those fields are readable. */
  lemma ContainerTextRoundTrip(o: Observed)
    ensures ReadContainer(ContainerText(o)) == Some(o) <==> Readable(o)
  {
    if '|' in o.name {
      UnreadableName(o);
    } else {
      ReadHead(o);
      ReadableState(o);
    }
  }

  /** So equal texts come from equal container states. */
  lemma ContainerTextIsInjective(a: Observed, b: Observed)
    requires Readable(a) && Readable(b) && ContainerText(a) == ContainerText(b)
    ensures a == b
  {
    ContainerTextRoundTrip(a);
    ContainerTextRoundTrip(b);
  }

  /** Each restriction is needed: dropping any one lets two different states share a text. */
  lemma RestrictionsAreNeeded(last: Option<Terminated>)
    ensures ContainerText(Observed("a|1|W:x:", 2, None, last))
         == ContainerText(Observed("a", 1, Some(Waiting("x", "|2")), last))
    ensures ContainerText(Observed("a", 1, Some(Waiting("x:y", "z")), last))
         == ContainerText(Observed("a", 1, Some(Waiting("x", "y:z")), last))
    ensures ContainerText(Observed("a", 1, Some(Waiting("x", "y|T:Error:3")), None))
         == ContainerText(Observed("a", 1, Some(Waiting("x", "y")), Some(Terminated("Error", 3))))
  {
    var t := TerminatedText(last);
    assert "a|1|W:x:" + ['|'] + ("2" + t) == "a" + ['|'] + ("1" + ("|W:" + ("x" + [':'] + ("|2" + t))));
    assert "x:y" + [':'] + ("z" + t) == "x" + [':'] + ("y:z" + t);
    assert "y|T:Error:3" + "" == "y" + ("|T:" + ("Error" + [':'] + "3"));
  }

  // ----- the fingerprint of the container that was classified -----

  /** Names a pod may carry: non-empty, slash-free and unique over both container lists. */
  predicate WellNamed(pod: Pod) {
    var all := pod.containers + pod.initContainers;
    && '|' !in pod.namespace && '|' !in pod.name
    && (forall i :: 0 <= i < |all| ==> all[i].name != "" && '/' !in all[i].name)
    && (forall i, j :: 0 <= i < j < |all| ==> all[i].name != all[j].name)
  }

  /** The status at a candidate site; conditions have none. */
  function StatusAt(pod: Pod, site: Site): Option<ContainerStatus>
    requires Candidate(pod, site)
  {
    var i := site.position;
    match site.tier
    case 1 => Some(pod.initContainers[i])
    case 2 => Some(pod.initContainers[i])
    case 4 => None
    case 5 => Some(pod.initContainers[i])
    case _ => Some(pod.containers[i])
  }

  /** The two lists seen as one. */
  lemma AllStatuses(pod: Pod)
    ensures var all := pod.containers + pod.initContainers;
            && (forall j :: 0 <= j < |pod.containers| ==> all[j] == pod.containers[j])
            && (forall j :: 0 <= j < |pod.initContainers| ==> all[|pod.containers| + j] == pod.initContainers[j])
  {
  }

  lemma AppStatusIsUnique(pod: Pod, i: nat)
    requires WellNamed(pod) && i < |pod.containers|
    ensures NamedStatus(pod, pod.containers[i].name) == Some(pod.containers[i])
  {
    var all := pod.containers + pod.initContainers;
    forall j | 0 <= j < i ensures pod.containers[j].name != pod.containers[i].name {
      assert all[j].name != all[i].name;
    }
    FirstNamedIs(pod.containers, pod.containers[i].name, i);
  }

  lemma InitStatusIsUnique(pod: Pod, i: nat)
    requires WellNamed(pod) && i < |pod.initContainers|
    ensures NamedStatus(pod, pod.initContainers[i].name) == Some(pod.initContainers[i])
  {
    var all, n := pod.containers + pod.initContainers, |pod.containers|;
    var name := pod.initContainers[i].name;
    AllStatuses(pod);
    forall j | 0 <= j < n ensures pod.containers[j].name != name {
      assert all[j].name != all[n + i].name;
    }
    FirstNamedIs(pod.containers, name, n);
    forall j | 0 <= j < i ensures pod.initContainers[j].name != name {
      assert all[n + j].name != all[n + i].name;
    }
    FirstNamedIs(pod.initContainers, name, i);
  }

  lemma NothingIsUnnamed(pod: Pod)
    requires WellNamed(pod)
    ensures NamedStatus(pod, "").None?
  {
    AllStatuses(pod);
  }

  lemma FingerprintAtSite(pod: Pod, site: Site)
    requires WellNamed(pod) && Candidate(pod, site)
    ensures NamedStatus(pod, FindingAt(pod, site).container) == StatusAt(pod, site)
  {
    match site.tier {
      case 1 => InitStatusIsUnique(pod, site.position);
      case 2 => InitStatusIsUnique(pod, site.position);
      case 4 => NothingIsUnnamed(pod);
      case 5 => InitStatusIsUnique(pod, site.position);
      case _ => AppStatusIsUnique(pod, site.position);
    }
  }

  /**
    The classified container's fingerprint is taken from the very status that was classified,
    and a finding without a container has the "missing" fingerprint.
   */
  lemma FingerprintOfClassified(pod: Pod)
    requires WellNamed(pod) && Classification(pod).Some?
    ensures var container := Classification(pod).value.container;
            exists site | Least(pod, site) ::
              && FindingAt(pod, site) == Classification(pod).value
              && FingerprintText(pod, container)
              == if StatusAt(pod, site).None? then MissingText(pod)
                 else ContainerText(Observe(StatusAt(pod, site).value))
  {
    ClassificationIsLeastCandidate(pod);
    var site :| Least(pod, site) && Classification(pod).value == FindingAt(pod, site);
    FingerprintAtSite(pod, site);
  }

  /** The "missing" text is no container's text. */
  lemma MissingTextIsNoContainerText(pod: Pod, o: Observed)
    requires '|' !in pod.namespace && '|' !in pod.name && '/' !in o.name
    ensures MissingText(pod) != ContainerText(o)
  {
    var head := pod.namespace + "/" + pod.name;
    var s := MissingText(pod);
    assert head[|pod.namespace|] == '/' && s == head + ['|'] + "missing";
    SplitFirst(s, head, '|', "missing");
    var text := ContainerText(o);
    if '|' in o.name {
      IndexInsidePrefix(text, o.name, '|');
    } else {
      SplitFirst(text, o.name, '|', Itoa(o.restarts) + StateText(o.waiting, o.last));
    }
    assert '/' in s[..IndexOf(s, '|')];
    forall i | 0 <= i < IndexOf(text, '|') ensures text[i] != '/' {
      assert text[i] == o.name[i];
    }
    assert '/' !in text[..IndexOf(text, '|')];
  }

  /** What one pod view shows of a container can be told apart in text. */
  predicate IsClear(pod: Pod, container: string) {
    && '|' !in pod.namespace && '|' !in pod.name
    && var o := ObservedState(pod, container); o.Some? ==> Readable(o.value) && '/' !in o.value.name
  }

  /**
    Of two clear views that show a container of that name each, the fingerprints agree exactly when
    four things do: name, restart count, waiting state and the last termination.
   */
  lemma FingerprintReadsFields(p: Pod, c: string, cs: ContainerStatus, q: Pod, d: string, ds: ContainerStatus)
    requires IsClear(p, c) && IsClear(q, d)
    requires IsFirstNamed(p, c, cs) && IsFirstNamed(q, d, ds)
    ensures FingerprintText(p, c) == FingerprintText(q, d) <==>
            && cs.name == ds.name && cs.restartCount == ds.restartCount
            && cs.waiting == ds.waiting && cs.lastTerminated == ds.lastTerminated
  {
    FirstNamedIsRead(p, c, cs);
    FirstNamedIsRead(q, d, ds);
    if FingerprintText(p, c) == FingerprintText(q, d) {
      ContainerTextIsInjective(Observe(cs), Observe(ds));
    }
  }

  /** Of all statuses, app containers first, the first with that name. */
  ghost predicate IsFirstNamed(pod: Pod, container: string, cs: ContainerStatus) {
    var all := pod.containers + pod.initContainers;
    exists i | 0 <= i < |all| ::
      all[i] == cs && cs.name == container && forall j :: 0 <= j < i ==> all[j].name != container
  }

  lemma FirstNamedIsRead(pod: Pod, container: string, cs: ContainerStatus)
    requires IsFirstNamed(pod, container, cs)
    ensures NamedStatus(pod, container) == Some(cs)
  {
    var n, all := |pod.containers|, pod.containers + pod.initContainers;
    var i :| 0 <= i < |all| && all[i] == cs && cs.name == container
      && forall j :: 0 <= j < i ==> all[j].name != container;
    forall j | 0 <= j < n && j < i ensures pod.containers[j].name != container {
      assert all[j].name != container;
    }
    FirstNamedIs(pod.containers, container, if i < n then i else n);
    if i >= n {
      forall j | 0 <= j < i - n ensures pod.initContainers[j].name != container {
        assert all[n + j].name != container;
      }
      FirstNamedIs(pod.initContainers, container, i - n);
    }
  }

  function WaitingPart(w: Option<Waiting>): string {
    if w.None? then "" else "|W:" + w.value.reason + ":" + w.value.message
  }

  function LastPart(t: Option<Terminated>): string {
    if t.None? then "" else "|T:" + t.value.reason + ":" + Itoa(t.value.exitCode)
  }

  /** The text in full, part by part, of the status with that name. */
  lemma TextInFull(pod: Pod, container: string, cs: ContainerStatus)
    requires IsFirstNamed(pod, container, cs)
    ensures FingerprintText(pod, container)
         == cs.name + "|" + Itoa(cs.restartCount) + WaitingPart(cs.waiting) + LastPart(cs.lastTerminated)
  {
    FirstNamedIsRead(pod, container, cs);
    var t := TerminatedText(cs.lastTerminated);
    assert LastPart(cs.lastTerminated) == t;
    assert StateText(cs.waiting, cs.lastTerminated) == WaitingPart(cs.waiting) + t by {
      if cs.waiting.Some? {
        RegroupState("|W:", cs.waiting.value.reason, [':'], cs.waiting.value.message, t);
      }
    }
    EmptyStart(cs.name + ['|'] + (Itoa(cs.restartCount) + (WaitingPart(cs.waiting) + t)));
    RegroupAll("", cs.name, ['|'], Itoa(cs.restartCount), WaitingPart(cs.waiting), t);
    EmptyStart(cs.name + ['|'] + Itoa(cs.restartCount));
  }

  /** Without such a container the text names the pod: its namespace up to the slash, then its own name. */
  lemma MissingTextNamesPod(pod: Pod, container: string)
    requires forall cs | cs in pod.containers + pod.initContainers :: cs.name != container
    requires '/' !in pod.namespace
    ensures var s := FingerprintText(pod, container);
            var i, j := IndexOf(s, '/'), LastIndexOf(s, '|');
            i < j < |s| && s[..i] == pod.namespace && s[i + 1..j] == pod.name && s[j..] == "|missing"
  {
    var s := MissingText(pod);
    var j := |pod.namespace| + 1 + |pod.name|;
    assert NamedStatus(pod, container).None? by {
      AllStatuses(pod);
    }
    assert s == pod.namespace + ['/'] + (pod.name + "|missing");
    SplitFirst(s, pod.namespace, '/', pod.name + "|missing");
    assert s[j] == '|' && s[j + 1..] == "missing";
    LastIndexIsUnique(s, '|', j);
    assert s[|pod.namespace| + 1..j] == pod.name;
  }

  /** Two clear views with one fingerprint show the same container state. */
  lemma EqualFingerprints(p: Pod, c: string, q: Pod, d: string)
    requires IsClear(p, c) && IsClear(q, d)
    requires FingerprintText(p, c) == FingerprintText(q, d)
    ensures ObservedState(p, c) == ObservedState(q, d)
  {
    var a, b := ObservedState(p, c), ObservedState(q, d);
    if a.Some? && b.Some? {
      ContainerTextIsInjective(a.value, b.value);
    } else if a.Some? {
      MissingTextIsNoContainerText(q, a.value);
    } else if b.Some? {
      MissingTextIsNoContainerText(p, b.value);
    }
  }
}

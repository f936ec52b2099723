/**
  The throttle in front of the model: `internal/llm/ratelimit.go`, lines 14-45.

  The limiter is a token bucket of capacity one. Time is counted in ticks of 1/rpm nanosecond,
  so that a bucket refilled at rpm tokens a minute gains one unit a tick and a token is worth
  exactly `TOKEN` units, with nothing rounded. Any number of callers share it: while one of them
  waits for its token, others join, give up and are let through.
 */
module RateLimit {
  import opened Wrappers
  import opened Text
  import opened DiagnosisJson

  const TOKEN: nat := 60_000_000_000
  const DEFAULT_RPM := 120

  function Min(a: int, b: int): int {
    if a < b then a else b
  }

  function Max(a: int, b: int): int {
    if a < b then b else a
  }

  // ----- the limiter -----

  class Limiter {
    const rpm: nat
    var tokens: int     // units in the bucket at `last`; negative while calls are reserved
    var last: int       // tick of the last change
    var lastEvent: int  // the latest reservation

    /** The debt of the bucket is paid off at the latest reservation, or already is. */
    ghost predicate Valid()
      reads this
    {
      rpm > 0 && tokens <= TOKEN && (lastEvent == last - tokens || tokens > 0)
    }

    /** The earliest tick at which the next call can be let through. */
    function NextFree(): int
      reads this
    {
      last - tokens + TOKEN
    }

    /** A new limiter starts with a full bucket. */
    constructor (rpm: nat, now: int)
      requires rpm > 0
      ensures Valid() && this.rpm == rpm && NextFree() == now == last
    {
      this.rpm := rpm;
      tokens := TOKEN;
      last := now;
      lastEvent := now - TOKEN;
    }

    /**
      Reserves one token at tick `now`, for later if need be. The reservation is refused, and the
      bucket left alone, when the wait would exceed `patience`, the time the context has left.
     */
    method Reserve(now: int, patience: int) returns (granted: Option<int>)
      requires Valid() && last <= now && patience >= 0
      modifies this
      ensures Valid() && last <= now
      ensures var at := Max(now, old(NextFree()));
              granted == if at - now <= patience then Some(at) else None
      ensures granted.None? ==> unchanged(this)
      ensures granted.Some? ==> NextFree() == granted.value + TOKEN
    {
      var available := Min(TOKEN, tokens + (now - last)) - TOKEN;
      var wait := if available < 0 then -available else 0;
      if wait > patience {
        return None;
      }
      tokens, last, lastEvent := available, now, now + wait;
      return Some(now + wait);
    }

    /**
      A context cancelled while waiting gives its reservation up. The token goes back to the bucket
      if its time has not passed and no later one has been reserved; otherwise it is never used.
     */
    method Cancel(grant: int, now: int)
      requires Valid() && last <= now
      requires now <= grant ==> grant + TOKEN == NextFree() || grant + 2 * TOKEN <= NextFree()
      modifies this
      ensures Valid() && last <= now
      ensures NextFree() == if now <= grant && grant + TOKEN == old(NextFree()) then grant else old(NextFree())
    {
      if grant < now {
        return;
      }
      var restored := TOKEN - (lastEvent - grant);
      if restored <= 0 {
        return;
      }
      tokens := Min(TOKEN, tokens + (now - last) + restored);
      last := now;
      if grant == lastEvent && grant - TOKEN >= now {
        lastEvent := grant - TOKEN;
      }
    }
  }

  // ----- any number of callers -----

  /** A call to the inner provider, made at `at` under a reservation for `grant`. */
  datatype Call = Call(grant: int, at: int)

  datatype Throttle = Throttle(now: int, next: int, waiting: map<nat, int>, calls: seq<Call>)

  datatype Event =
    | Join(caller: nat, at: int, patience: int)
    | GiveUp(caller: nat, at: int)
    | Proceed(caller: nat, at: int)

  predicate Can(t: Throttle, e: Event) {
    && t.now <= e.at
    && match e
       case Join(caller, _, patience) => caller !in t.waiting && patience >= 0
       case GiveUp(caller, _) => caller in t.waiting
       case Proceed(caller, at) => caller in t.waiting && t.waiting[caller] <= at
  }

  function Do(t: Throttle, e: Event): Throttle
    requires Can(t, e)
  {
    match e
    case Join(caller, at, patience) =>
      var grant := Max(at, t.next);
      if grant - at <= patience then Throttle(at, grant + TOKEN, t.waiting[caller := grant], t.calls)
      else t.(now := at)
    case GiveUp(caller, at) =>
      var grant := t.waiting[caller];
      var next := if at <= grant && grant + TOKEN == t.next then grant else t.next;
      Throttle(at, next, t.waiting - {caller}, t.calls)
    case Proceed(caller, at) =>
      Throttle(at, t.next, t.waiting - {caller}, t.calls + [Call(t.waiting[caller], at)])
  }

  ghost predicate IsTrace(t: Throttle, events: seq<Event>)
    decreases |events|
  {
    events == [] || (Can(t, events[0]) && IsTrace(Do(t, events[0]), events[1..]))
  }

  /** Where a trace leads. */
  ghost function After(t: Throttle, events: seq<Event>): Throttle
    requires IsTrace(t, events)
    decreases |events|
  {
    if events == [] then t else After(Do(t, events[0]), events[1..])
  }

  lemma {:induction false} TraceGrows(t: Throttle, events: seq<Event>, e: Event)
    requires IsTrace(t, events) && Can(After(t, events), e)
    ensures IsTrace(t, events + [e]) && After(t, events + [e]) == Do(After(t, events), e)
    decreases |events|
  {
    if events == [] {
      assert [e][1..] == [];
    } else {
      assert (events + [e])[1..] == events[1..] + [e];
      TraceGrows(Do(t, events[0]), events[1..], e);
    }
  }

  predicate Apart(g: int, h: int) {
    g + TOKEN <= h || h + TOKEN <= g
  }

  /** The one is the next after the other, or there is room for another between them. */
  predicate InSteps(g: int, h: int) {
    g + TOKEN == h || g + 2 * TOKEN <= h || h + TOKEN == g || h + 2 * TOKEN <= g
  }

  /** Those still to come follow each other and the next free one without gaps of a part of a token. */
  ghost predicate Aligned(t: Throttle) {
    && (forall c | c in t.waiting && t.now <= t.waiting[c] :: InSteps(t.waiting[c], t.next))
    && (forall c, d | c in t.waiting && d in t.waiting && c != d && t.now <= t.waiting[c] && t.now <= t.waiting[d] ::
          InSteps(t.waiting[c], t.waiting[d]))
  }

  /** All reservations that are or were used lie a token apart. */
  ghost predicate AllApart(t: Throttle) {
    && (forall c, d | c in t.waiting && d in t.waiting && c != d :: Apart(t.waiting[c], t.waiting[d]))
    && (forall c, i | c in t.waiting && 0 <= i < |t.calls| :: Apart(t.waiting[c], t.calls[i].grant))
    && (forall i, j | 0 <= i < j < |t.calls| :: Apart(t.calls[i].grant, t.calls[j].grant))
  }

  /** They lie before the next free one, and no call comes before its reservation. */
  ghost predicate Ok(t: Throttle) {
    && Aligned(t) && AllApart(t)
    && (forall c | c in t.waiting :: t.waiting[c] + TOKEN <= t.next)
    && (forall i | 0 <= i < |t.calls| :: t.calls[i].grant + TOKEN <= t.next && t.calls[i].grant <= t.calls[i].at)
  }

  lemma EventKeepsAligned(t: Throttle, e: Event)
    requires Ok(t) && Can(t, e)
    ensures Aligned(Do(t, e))
  {
  }

  lemma EventKeepsApart(t: Throttle, e: Event)
    requires Ok(t) && Can(t, e)
    ensures AllApart(Do(t, e))
  {
  }

  lemma EventKeepsOk(t: Throttle, e: Event)
    requires Ok(t) && Can(t, e)
    ensures Ok(Do(t, e))
  {
    EventKeepsAligned(t, e);
    EventKeepsApart(t, e);
  }

  lemma {:induction false} TraceKeepsOk(t: Throttle, events: seq<Event>)
    requires Ok(t) && IsTrace(t, events)
    ensures Ok(After(t, events))
    decreases |events|
  {
    if events != [] {
      EventKeepsOk(t, events[0]);
      TraceKeepsOk(Do(t, events[0]), events[1..]);
    }
  }

  // ----- the window bound -----

  /** How many calls are made in the closed window [from, to]. */
  function CallsIn(calls: seq<Call>, from: int, to: int): nat {
    if calls == [] then 0
    else
      var front, c := calls[..|calls| - 1], calls[|calls| - 1];
      CallsIn(front, from, to) + if from <= c.at <= to then 1 else 0
  }

  /** Calls of the window start their token's time in different slots. */
  function Slot(c: Call, from: int): int {
    (c.grant - from) / TOKEN
  }

  function Slots(calls: seq<Call>, from: int, to: int, origin: int): set<int> {
    if calls == [] then {}
    else
      var front, c := calls[..|calls| - 1], calls[|calls| - 1];
      Slots(front, from, to, origin) + if from <= c.at <= to then {Slot(c, origin)} else {}
  }

  lemma ApartSlots(c: Call, d: Call, origin: int)
    requires Apart(c.grant, d.grant)
    ensures Slot(c, origin) != Slot(d, origin)
  {
  }

  lemma {:induction false} SlotIsOfCall(calls: seq<Call>, from: int, to: int, origin: int, slot: int)
    requires slot in Slots(calls, from, to, origin)
    ensures exists i | 0 <= i < |calls| :: from <= calls[i].at <= to && slot == Slot(calls[i], origin)
  {
    var front, c := calls[..|calls| - 1], calls[|calls| - 1];
    if slot in Slots(front, from, to, origin) {
      SlotIsOfCall(front, from, to, origin, slot);
      var i :| 0 <= i < |front| && from <= front[i].at <= to && slot == Slot(front[i], origin);
      assert calls[i] == front[i];
    } else {
      assert slot == Slot(calls[|calls| - 1], origin);
    }
  }

  lemma {:induction false} OneSlotEach(calls: seq<Call>, from: int, to: int, origin: int)
    requires forall i, j | 0 <= i < j < |calls| :: Apart(calls[i].grant, calls[j].grant)
    ensures |Slots(calls, from, to, origin)| == CallsIn(calls, from, to)
  {
    if calls != [] {
      var front, c := calls[..|calls| - 1], calls[|calls| - 1];
      OneSlotEach(front, from, to, origin);
      if Slot(c, origin) in Slots(front, from, to, origin) {
        SlotIsOfCall(front, from, to, origin, Slot(c, origin));
        var i :| 0 <= i < |front| && from <= front[i].at <= to && Slot(c, origin) == Slot(front[i], origin);
        assert calls[i] == front[i];
        ApartSlots(calls[i], c, origin);
      }
    }
  }

  lemma {:induction false} FewBelow(s: set<int>, n: nat)
    requires forall x | x in s :: 0 <= x < n
    ensures |s| <= n
  {
    if n == 0 {
      assert forall x :: x !in s;
      assert s == {};
    } else {
      FewBelow(s - {n - 1}, n - 1);
    }
  }

  /**
    Whatever the callers do, a window of `span` ticks sees at most 1 + (span + lag) / TOKEN calls,
    when no call of the window comes later than `lag` ticks after its reservation.
   */
  lemma CallsBound(t: Throttle, from: int, span: nat, lag: nat)
    requires Ok(t) && CallsLag(t.calls, from, span, lag)
    ensures CallsIn(t.calls, from, from + span) <= 1 + (span + lag) / TOKEN
  {
    var slots := Slots(t.calls, from, from + span, from - lag);
    OneSlotEach(t.calls, from, from + span, from - lag);
    forall x | x in slots ensures 0 <= x < 1 + (span + lag) / TOKEN {
      SlotsInRange(t, from, span, lag, x);
    }
    FewBelow(slots, 1 + (span + lag) / TOKEN);
  }

  /** The calls of the window come at most `lag` ticks after their reservations. */
  ghost predicate CallsLag(calls: seq<Call>, from: int, span: nat, lag: nat) {
    forall i | 0 <= i < |calls| && from <= calls[i].at <= from + span :: calls[i].at - calls[i].grant <= lag
  }

  lemma SlotsInRange(t: Throttle, from: int, span: nat, lag: nat, x: int)
    requires Ok(t) && CallsLag(t.calls, from, span, lag) && x in Slots(t.calls, from, from + span, from - lag)
    ensures 0 <= x <= (span + lag) / TOKEN
  {
    SlotIsOfCall(t.calls, from, from + span, from - lag, x);
    var i :| 0 <= i < |t.calls| && from <= t.calls[i].at <= from + span && x == Slot(t.calls[i], from - lag);
    SlotInRange(t.calls[i], from, span, lag);
  }

  lemma SlotInRange(c: Call, from: int, span: nat, lag: nat)
    requires from <= c.at <= from + span && 0 <= c.at - c.grant <= lag
    ensures 0 <= Slot(c, from - lag) <= (span + lag) / TOKEN
  {
  }

  function NewThrottle(now: int): Throttle {
    Throttle(now, now, map[], [])
  }

  /** How many calls were let through for a tick in the closed window [from, to], whenever they are made. */
  function GrantsIn(calls: seq<Call>, from: int, to: int): nat {
    if calls == [] then 0
    else
      var front, c := calls[..|calls| - 1], calls[|calls| - 1];
      GrantsIn(front, from, to) + if from <= c.grant <= to then 1 else 0
  }

  /** The same calls, each made at the very tick it was let through for. */
  function Prompt(calls: seq<Call>): (r: seq<Call>)
    ensures |r| == |calls| && forall i :: 0 <= i < |r| ==> r[i] == Call(calls[i].grant, calls[i].grant)
  {
    seq(|calls|, i requires 0 <= i < |calls| => Call(calls[i].grant, calls[i].grant))
  }

  lemma {:induction false} PromptCallsIn(calls: seq<Call>, from: int, to: int)
    ensures CallsIn(Prompt(calls), from, to) == GrantsIn(calls, from, to)
  {
    if calls != [] {
      var front := calls[..|calls| - 1];
      assert Prompt(calls)[..|calls| - 1] == Prompt(front);
      PromptCallsIn(front, from, to);
    }
  }

  /** However late the calls come, the limiter lets at most 1 + span / TOKEN through for a window. */
  lemma GrantsBound(t: Throttle, from: int, span: nat)
    requires Ok(t)
    ensures GrantsIn(t.calls, from, from + span) <= 1 + span / TOKEN
  {
    var prompt := Throttle(t.now, t.next, map[], Prompt(t.calls));
    assert AllApart(prompt);
    CallsBound(prompt, from, span, 0);
    PromptCallsIn(t.calls, from, from + span);
  }

  /**
    In every trace of any number of callers and in every window of `seconds`, the limiter lets at
    most 1 + floor(seconds * rpm / 60) calls through.
   */
  lemma WindowBound(now: int, events: seq<Event>, rpm: nat, from: int, seconds: nat)
    requires IsTrace(NewThrottle(now), events) && rpm > 0
    ensures GrantsIn(After(NewThrottle(now), events).calls, from, from + seconds * 1_000_000_000 * rpm)
         <= 1 + (seconds * rpm) / 60
  {
    TraceKeepsOk(NewThrottle(now), events);
    GrantsBound(After(NewThrottle(now), events), from, seconds * 1_000_000_000 * rpm);
    SecondsToTokens(seconds, rpm);
  }

  /** And at most as many are made, when those of the window come without lag. */
  lemma PromptCallsBound(now: int, events: seq<Event>, rpm: nat, from: int, seconds: nat)
    requires IsTrace(NewThrottle(now), events) && rpm > 0
    requires CallsLag(After(NewThrottle(now), events).calls, from, seconds * 1_000_000_000 * rpm, 0)
    ensures CallsIn(After(NewThrottle(now), events).calls, from, from + seconds * 1_000_000_000 * rpm)
         <= 1 + (seconds * rpm) / 60
  {
    TraceKeepsOk(NewThrottle(now), events);
    CallsBound(After(NewThrottle(now), events), from, seconds * 1_000_000_000 * rpm, 0);
    SecondsToTokens(seconds, rpm);
  }

  lemma SecondsToTokens(seconds: nat, rpm: nat)
    ensures (seconds * 1_000_000_000 * rpm) / TOKEN == (seconds * rpm) / 60
  {
    assert seconds * 1_000_000_000 * rpm == (seconds * rpm) * 1_000_000_000;
    ScaledDivision(seconds * rpm);
  }

  lemma ScaledDivision(n: nat)
    ensures (n * 1_000_000_000) / TOKEN == n / 60
  {
    var q, r := n / 60, n % 60;
    assert n * 1_000_000_000 == q * TOKEN + r * 1_000_000_000;
  }

  /** `n` callers join at the same tick. */
  function Crowd(start: int, n: nat): seq<Event> {
    if n == 0 then [] else Crowd(start, n - 1) + [Join(n - 1, start, (n - 1) * TOKEN)]
  }

  /** The first `k` of them call at `open`, or when they are let through if that is later. */
  function Rush(start: int, open: int, k: nat): seq<Event> {
    if k == 0 then [] else Rush(start, open, k - 1) + [Proceed(k - 1, Max(open, start + (k - 1) * TOKEN))]
  }

  /** Of `n` callers the first `k` have called. */
  ghost predicate Rushing(t: Throttle, start: int, open: int, n: nat, k: nat) {
    && k <= n && |t.calls| == k
    && (forall c :: c in t.waiting <==> k <= c < n) && (forall c | c in t.waiting :: t.waiting[c] == start + c * TOKEN)
    && (forall i | 0 <= i < k :: t.calls[i] == Call(start + i * TOKEN, Max(open, start + i * TOKEN)))
    && t.now <= Max(open, start + k * TOKEN)
  }

  lemma {:induction false} CrowdWaits(start: int, open: int, n: nat)
    requires start <= open
    ensures IsTrace(NewThrottle(start), Crowd(start, n))
    ensures var t := After(NewThrottle(start), Crowd(start, n));
            Rushing(t, start, open, n, 0) && t.now == start && t.next == start + n * TOKEN
  {
    if n > 0 {
      CrowdWaits(start, open, n - 1);
      TraceGrows(NewThrottle(start), Crowd(start, n - 1), Join(n - 1, start, (n - 1) * TOKEN));
    }
  }

  lemma OneMoreRushes(t: Throttle, start: int, open: int, n: nat, k: nat)
    requires Rushing(t, start, open, n, k) && k < n && start <= open
    ensures var e := Proceed(k, Max(open, start + k * TOKEN));
            Can(t, e) && Rushing(Do(t, e), start, open, n, k + 1)
  {
  }

  lemma {:induction false} CrowdRushes(start: int, open: int, n: nat, k: nat)
    requires start <= open && k <= n
    ensures IsTrace(NewThrottle(start), Crowd(start, n) + Rush(start, open, k))
    ensures Rushing(After(NewThrottle(start), Crowd(start, n) + Rush(start, open, k)), start, open, n, k)
  {
    if k == 0 {
      CrowdWaits(start, open, n);
      assert Crowd(start, n) + [] == Crowd(start, n);
    } else {
      var before, e := Crowd(start, n) + Rush(start, open, k - 1), Proceed(k - 1, Max(open, start + (k - 1) * TOKEN));
      CrowdRushes(start, open, n, k - 1);
      OneMoreRushes(After(NewThrottle(start), before), start, open, n, k - 1);
      TraceGrows(NewThrottle(start), before, e);
      assert Crowd(start, n) + Rush(start, open, k) == before + [e];
    }
  }

  /**
    The bound with its lag is exact: for every span and every lag there are callers that attain it.
    They join together and call as early as the window allows, so that the first of them is late by
    the whole lag.
   */
  lemma CallsBoundIsMet(start: int, span: nat, lag: nat) returns (events: seq<Event>)
    ensures IsTrace(NewThrottle(start), events)
    ensures CallsLag(After(NewThrottle(start), events).calls, start + lag, span, lag)
    ensures CallsIn(After(NewThrottle(start), events).calls, start + lag, start + lag + span)
         == 1 + (span + lag) / TOKEN
  {
    var n := 1 + (span + lag) / TOKEN;
    events := Crowd(start, n) + Rush(start, start + lag, n);
    CrowdRushes(start, start + lag, n, n);
    var calls := After(NewThrottle(start), events).calls;
    forall i | 0 <= i < |calls|
      ensures start + lag <= calls[i].at <= start + lag + span && calls[i].at - calls[i].grant <= lag
    {
      InSpan(i, span + lag);
    }
    AllInWindow(calls, start + lag, start + lag + span);
  }

  lemma InSpan(i: nat, ticks: nat)
    requires i <= ticks / TOKEN
    ensures i * TOKEN <= ticks
  {
  }

  /** A caller that comes again as soon as it can, `n` times in all. */
  function BackToBack(start: int, n: nat): seq<Event> {
    if n == 0 then []
    else
      var at := start + (n - 1) * TOKEN;
      BackToBack(start, n - 1) + [Join(0, at, 0)] + [Proceed(0, at)]
  }

  /** It has been let through `n` times, once a token, and the next token is just due. */
  ghost predicate OnceAToken(t: Throttle, start: int, n: nat) {
    && t.waiting == map[] && t.next == start + n * TOKEN && t.now <= t.next && |t.calls| == n
    && (forall i | 0 <= i < n :: t.calls[i].grant == t.calls[i].at)
    && (forall i | 0 <= i < n :: start <= t.calls[i].at < start + n * TOKEN)
  }

  lemma OnceMore(t: Throttle, start: int, n: nat)
    requires OnceAToken(t, start, n)
    ensures var at := start + n * TOKEN;
            && Can(t, Join(0, at, 0)) && Can(Do(t, Join(0, at, 0)), Proceed(0, at))
            && OnceAToken(Do(Do(t, Join(0, at, 0)), Proceed(0, at)), start, n + 1)
  {
  }

  lemma {:induction false} BackToBackTrace(start: int, n: nat)
    ensures IsTrace(NewThrottle(start), BackToBack(start, n))
    ensures OnceAToken(After(NewThrottle(start), BackToBack(start, n)), start, n)
  {
    if n > 0 {
      var t0, at := NewThrottle(start), start + (n - 1) * TOKEN;
      var before := BackToBack(start, n - 1);
      BackToBackTrace(start, n - 1);
      OnceMore(After(t0, before), start, n - 1);
      TraceGrows(t0, before, Join(0, at, 0));
      TraceGrows(t0, before + [Join(0, at, 0)], Proceed(0, at));
    }
  }

  /** The bound is met: `n` calls without any lag in a window a tick short of `n` tokens. */
  lemma BackToBackCalls(start: int, n: nat)
    requires n > 0
    ensures IsTrace(NewThrottle(start), BackToBack(start, n))
    ensures var calls := After(NewThrottle(start), BackToBack(start, n)).calls;
            && CallsLag(calls, start, n * TOKEN - 1, 0)
            && CallsIn(calls, start, start + n * TOKEN - 1) == n == 1 + (n * TOKEN - 1) / TOKEN
  {
    BackToBackTrace(start, n);
    AllInWindow(After(NewThrottle(start), BackToBack(start, n)).calls, start, start + n * TOKEN - 1);
  }

  lemma {:induction false} AllInWindow(calls: seq<Call>, from: int, to: int)
    requires forall i | 0 <= i < |calls| :: from <= calls[i].at <= to
    ensures CallsIn(calls, from, to) == |calls|
  {
    if calls != [] {
      AllInWindow(calls[..|calls| - 1], from, to);
    }
  }

  /**
    A wait that is given up before its time costs nobody anything: while no one has joined behind it,
    whoever joins next is let through just as if that caller had never joined.
   */
  lemma GivingUpUndoesJoining(t: Throttle, caller: nat, at: int, patience: int, leave: int, next: Event)
    requires Can(t, Join(caller, at, patience)) && Max(at, t.next) - at <= patience
    requires at <= leave <= Max(at, t.next) && next.Join? && leave <= next.at
    requires Can(t.(now := leave), next)
    ensures var u := Do(Do(t, Join(caller, at, patience)), GiveUp(caller, leave));
            && u.waiting == t.waiting && u.calls == t.calls
            && Can(u, next) && Do(u, next) == Do(t.(now := leave), next)
  {
  }

  /** After its time the token is lost: whoever joins next is let through a whole token later, or when it joins. */
  lemma GivingUpLateCostsToken(t: Throttle, caller: nat, at: int, patience: int, leave: int, next: Event)
    requires Can(t, Join(caller, at, patience)) && Max(at, t.next) - at <= patience
    requires Max(at, t.next) < leave && next.Join? && leave <= next.at
    requires Can(t.(now := leave), next)
    ensures var u := Do(Do(t, Join(caller, at, patience)), GiveUp(caller, leave));
            var due := Max(next.at, Max(at, t.next) + 60_000_000_000);
            && Can(u, next)
            && Do(u, next).waiting
            == if due - next.at <= next.patience then t.waiting[next.caller := due] else t.waiting
  {
  }

  lemma OthersKeepWaiting(t: Throttle, e: Event, caller: nat)
    requires Can(t, e) && e.caller != caller && caller in t.waiting
    ensures caller in Do(t, e).waiting && Do(t, e).waiting[caller] == t.waiting[caller]
  {
  }

  // ----- the provider around the limiter -----

  /** The events of one caller. */
  function Own(events: seq<Event>, caller: nat): seq<Event> {
    if events == [] then []
    else
      var last := events[|events| - 1];
      Own(events[..|events| - 1], caller) + if last.caller == caller then [last] else []
  }

  lemma OwnGrows(events: seq<Event>, e: Event, caller: nat)
    ensures Own(events + [e], caller) == Own(events, caller) + if e.caller == caller then [e] else []
  {
    assert (events + [e])[..|events|] == events;
  }

  datatype FailureContext = FailureContext(
    namespace: string, pod: string, container: string, failureType: string, podSpecYAML: string,
    events: seq<string>, logsTail: string)

  /** An error is the inner provider's, or that of the wait. */
  datatype Answer = Diagnosed(diagnosis: Diagnosis) | InnerError(message: string) | WaitError

  datatype Exchange = Exchange(asked: FailureContext, answer: Answer)

  /** A provider that answers anything, and remembers what it was asked and what it answered. */
  class Inner {
    ghost var exchanges: seq<Exchange>

    constructor ()
      ensures exchanges == []
    {
      exchanges := [];
    }

    method Diagnose(fc: FailureContext) returns (r: Answer)
      modifies this
      ensures !r.WaitError? && exchanges == old(exchanges) + [Exchange(fc, r)]
    {
      r := *;
      if r.WaitError? {
        r := InnerError("");
      }
      exchanges := exchanges + [Exchange(fc, r)];
    }
  }

  /** The limiter that all callers share, with what has happened to it. */
  class Shared {
    const limiter: Limiter
    var t: Throttle
    ghost const start: int
    ghost var events: seq<Event>

    ghost predicate Valid()
      reads this, limiter
    {
      && limiter.Valid() && limiter.NextFree() == t.next && limiter.last <= t.now
      && IsTrace(NewThrottle(start), events) && t == After(NewThrottle(start), events)
    }

    constructor (rpm: nat, now: int)
      requires rpm > 0
      ensures Valid() && fresh(limiter) && limiter.rpm == rpm && t == NewThrottle(now) && events == []
    {
      limiter := new Limiter(rpm, now);
      t := NewThrottle(now);
      start, events := now, [];
    }

    /** One caller asks for a token. */
    method Take(caller: nat, now: int, patience: int) returns (granted: Option<int>)
      requires Valid() && Can(t, Join(caller, now, patience))
      modifies this, limiter
      ensures Valid() && events == old(events) + [Join(caller, now, patience)]
      ensures t == Do(old(t), Join(caller, now, patience))
      ensures granted == if caller in t.waiting then Some(t.waiting[caller]) else None
    {
      TraceGrows(NewThrottle(start), events, Join(caller, now, patience));
      granted := limiter.Reserve(now, patience);
      t, events := Do(t, Join(caller, now, patience)), events + [Join(caller, now, patience)];
    }

    /** One caller stops waiting. */
    method Return(caller: nat, now: int)
      requires Valid() && Can(t, GiveUp(caller, now))
      modifies this, limiter
      ensures Valid() && events == old(events) + [GiveUp(caller, now)]
      ensures t == Do(old(t), GiveUp(caller, now))
    {
      TraceKeepsOk(NewThrottle(start), events);
      TraceGrows(NewThrottle(start), events, GiveUp(caller, now));
      limiter.Cancel(t.waiting[caller], now);
      t, events := Do(t, GiveUp(caller, now)), events + [GiveUp(caller, now)];
    }

    /** One caller goes on to the inner provider. */
    method Use(caller: nat, now: int)
      requires Valid() && Can(t, Proceed(caller, now))
      modifies this
      ensures Valid() && events == old(events) + [Proceed(caller, now)]
      ensures t == Do(old(t), Proceed(caller, now))
    {
      TraceGrows(NewThrottle(start), events, Proceed(caller, now));
      t, events := Do(t, Proceed(caller, now)), events + [Proceed(caller, now)];
    }

    method Perform(e: Event)
      requires Valid() && Can(t, e)
      modifies this, limiter
      ensures Valid() && events == old(events) + [e] && t == Do(old(t), e)
    {
      match e {
        case Join(caller, now, patience) => var _ := Take(caller, now, patience);
        case GiveUp(caller, now) => Return(caller, now);
        case Proceed(caller, now) => Use(caller, now);
      }
    }

    /** Anything that callers other than this one can do, any number of times. */
    method Interfere(caller: nat)
      requires Valid() && caller in t.waiting
      modifies this, limiter
      ensures Valid() && old(events) <= events && Own(events, caller) == Own(old(events), caller)
      ensures caller in t.waiting && t.waiting[caller] == old(t).waiting[caller]
    {
      var steps: nat := *;
      while steps > 0
        invariant Valid() && old(events) <= events && Own(events, caller) == Own(old(events), caller)
        invariant caller in t.waiting && t.waiting[caller] == old(t).waiting[caller]
      {
        var e: Event := *;
        if Can(t, e) && e.caller != caller {
          OwnGrows(events, e, caller);
          OthersKeepWaiting(t, e, caller);
          Perform(e);
        }
        steps := steps - 1;
      }
    }
  }

  class RateLimitedProvider {
    const inner: Inner
    const shared: Shared?

    constructor (inner: Inner, shared: Shared?)
      ensures this.inner == inner && this.shared == shared
    {
      this.inner := inner;
      this.shared := shared;
    }

    /**
      Among arbitrary other callers: without a grant, or cancelled while waiting, the inner provider
      is not called, the error is that of the wait, and the caller leaves no other trace. Otherwise
      it is called exactly once, with that very context and no sooner than granted, and what it
      answers is returned.
     */
    method Diagnose(fc: FailureContext, caller: nat, now: int, patience: int) returns (r: Answer)
      requires shared != null ==> shared.Valid() && Can(shared.t, Join(caller, now, patience))
      modifies inner, shared, if shared == null then {} else {shared.limiter}
      ensures inner.exchanges == old(inner.exchanges) + if r.WaitError? then [] else [Exchange(fc, r)]
      ensures shared == null ==> !r.WaitError?
      ensures shared != null ==> shared.Valid() && old(shared.events) <= shared.events
      ensures shared != null ==>
        var mine, before := Own(shared.events, caller), Own(old(shared.events), caller);
        if r.WaitError? then
          || mine == before + [Join(caller, now, patience)]
          || exists at :: mine == before + [Join(caller, now, patience), GiveUp(caller, at)]
        else exists at :: mine == before + [Join(caller, now, patience), Proceed(caller, at)]
    {
      if shared != null {
        OwnGrows(shared.events, Join(caller, now, patience), caller);
        var grant := shared.Take(caller, now, patience);
        if grant.None? {
          return WaitError;
        }
        shared.Interfere(caller);
        var at: int := *;
        if at < shared.t.now {
          at := shared.t.now;
        }
        var cancelled: bool := *;
        if cancelled && now < grant.value {
          OwnGrows(shared.events, GiveUp(caller, at), caller);
          shared.Return(caller, at);
          return WaitError;
        }
        if at < grant.value {
          at := grant.value;
        }
        OwnGrows(shared.events, Proceed(caller, at), caller);
        shared.Use(caller, at);
      }
      r := inner.Diagnose(fc);
    }
  }

  /** The requests a minute that LLM_RPM asks for; None means no limiter at all. */
  function EffectiveRpm(env: string): Option<nat> {
    var s := TrimSpace(env);
    var n := Atoi(s);
    var rpm := if s != "" && n.Some? then n.value else DEFAULT_RPM;
    if rpm <= 0 then None else Some(rpm)
  }

  method WrapWithLLMRateLimit(inner: Inner, env: string, now: int) returns (p: RateLimitedProvider)
    ensures fresh(p) && p.inner == inner
    ensures p.shared == null <==> EffectiveRpm(env).None?
    ensures p.shared != null ==>
      && fresh(p.shared) && fresh(p.shared.limiter) && p.shared.Valid() && p.shared.events == []
      && Some(p.shared.limiter.rpm) == EffectiveRpm(env)
  {
    var rpm := DEFAULT_RPM;
    var s := TrimSpace(env);
    if s != "" {
      var n := Atoi(s);
      if n.Some? {
        rpm := n.value;
      }
    }
    if rpm <= 0 {
      p := new RateLimitedProvider(inner, null);
      return;
    }
    var lim := new Shared(rpm, now);
    p := new RateLimitedProvider(inner, lim);
  }

  /** Plain digits, with or without a sign in front. */
  predicate IsDecimal(s: string, sign: string, digits: string) {
    s == sign + digits && (sign == "" || sign == "+" || sign == "-") && digits != "" && AllDigits(digits)
  }

  lemma AtoiReadsDecimal(s: string, sign: string, digits: string)
    requires IsDecimal(s, sign, digits)
    ensures var v: int := DigitsValue(digits);
            var n := if sign == "-" then -v else v;
            Atoi(s) == if -0x8000_0000_0000_0000 <= n < 0x8000_0000_0000_0000 then Some(n) else None
  {
    if sign != "" {
      assert s[1..] == digits && s[0] == sign[0] && !IsDigit(s[0]);
      assert s[0] in s;
    } else {
      assert s == digits;
    }
  }

  /**
    The rate in force is the number in the variable, signed or not, whatever the space around it:
    120 when it does not fit 64 bits, and no limit exactly when it is not positive.
   */
  lemma RpmExactly(env: string, sign: string, digits: string)
    requires IsDecimal(TrimSpace(env), sign, digits)
    ensures var v: int := DigitsValue(digits);
            var n := if sign == "-" then -v else v;
            EffectiveRpm(env) == if !(-0x8000_0000_0000_0000 <= n < 0x8000_0000_0000_0000) then Some(120)
                                 else if n <= 0 then None else Some(n)
  {
    AtoiReadsDecimal(TrimSpace(env), sign, digits);
  }

  lemma ReadIsDecimal(s: string) returns (sign: string, digits: string)
    requires ParseInt(s).Some?
    ensures IsDecimal(s, sign, digits)
  {
    if AllDigits(s) {
      sign, digits := "", s;
    } else {
      sign, digits := s[..1], s[1..];
      assert sign == [s[0]];
    }
  }

  /** With anything else in the variable it is 120. */
  lemma RpmOfOther(env: string)
    requires forall sign, digits :: !IsDecimal(TrimSpace(env), sign, digits)
    ensures EffectiveRpm(env) == Some(120)
  {
    if ParseInt(TrimSpace(env)).Some? {
      var sign, digits := ReadIsDecimal(TrimSpace(env));
    }
  }

  /** A text with any character that no signed decimal contains is not one. */
  lemma NotADecimal(s: string, c: char)
    requires c in s && !IsDigit(c) && c != '-' && c != '+'
    ensures Atoi(s).None?
  {
    var i :| 0 <= i < |s| && s[i] == c;
    if i > 0 {
      assert s[1..][i - 1] == c;
    }
  }

  /** Anything with a letter, a point or another such character in it leaves 120 calls a minute in force. */
  lemma RpmFallsBack(env: string, c: char)
    requires c in env && !IsSpace(c) && !IsDigit(c) && c != '-' && c != '+'
    ensures EffectiveRpm(env) == Some(120)
  {
    TrimSpaceKeeps(env, c);
    NotADecimal(TrimSpace(env), c);
  }

  /** So does an empty or blank variable. */
  lemma RpmOfBlank(env: string)
    requires AllSpaces(env)
    ensures EffectiveRpm(env) == Some(120)
  {
    assert TrimLeft(env) == "";
  }

  /** And so does a decimal that does not fit 64 bits, a negative one included. */
  lemma RpmOutOfRange(n: int, env: string)
    requires TrimSpace(env) == Itoa(n) && !(-0x8000_0000_0000_0000 <= n < 0x8000_0000_0000_0000)
    ensures EffectiveRpm(env) == Some(120)
  {
    ParseIntOfItoa(n);
  }

  /** A 64-bit decimal, spaces around it or not, is the rate; zero and negatives disable limiting. */
  lemma RpmOf(n: int, env: string)
    requires TrimSpace(env) == Itoa(n) && -0x8000_0000_0000_0000 <= n < 0x8000_0000_0000_0000
    ensures EffectiveRpm(env) == if n <= 0 then None else Some(n)
  {
    AtoiOfItoa(n);
  }
}

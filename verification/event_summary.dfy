/**
  The event lines sent to the model: `summarizeEvents` in `internal/collect/collect.go`, lines 57-77.
 */
module EventSummary {

  /** Instants are integers and 0 is the zero time. */
  datatype Event = Event(kind: string, reason: string, message: string, lastTimestamp: int, eventTime: int)

  function EffectiveTime(e: Event): int {
    if e.lastTimestamp == 0 then e.eventTime else e.lastTimestamp
  }

  /** The comparison handed to sort.Slice: strictly newer events come first. */
  predicate Newer(a: Event, b: Event) {
    EffectiveTime(a) > EffectiveTime(b)
  }

  function Line(e: Event): string {
    e.kind + " " + e.reason + " " + e.message
  }

  function Kept(limit: int, n: nat): nat {
    if limit <= 0 then 0 else if limit < n then limit else n
  }

  /** The instant of an event is its last timestamp or, where that is the zero time, its event time. */
  predicate IsAt(e: Event, t: int) {
    (e.lastTimestamp != 0 ==> t == e.lastTimestamp) && (e.lastTimestamp == 0 ==> t == e.eventTime)
  }

  /** One event is newer than another exactly when its instant is later. */
  lemma NewerComparesInstants(a: Event, b: Event, t: int, u: int)
    requires IsAt(a, t) && IsAt(b, u)
    ensures Newer(a, b) <==> t > u
  {
  }

  /** The comparison is a strict weak order, which is what sort.Slice demands. */
  lemma NewerIsStrictWeakOrder(a: Event, b: Event, c: Event)
    ensures !Newer(a, a)
    ensures Newer(a, b) && Newer(b, c) ==> Newer(a, c)
    ensures !Newer(a, b) && !Newer(b, a) && !Newer(b, c) && !Newer(c, b) ==> !Newer(a, c) && !Newer(c, a)
  {
  }

  ghost predicate NewestFirst(events: seq<Event>) {
    forall i, j :: 0 <= i < j < |events| ==> !Newer(events[j], events[i])
  }

  method IndexOfNewest(items: array<Event>, from: nat) returns (m: nat)
    requires from < items.Length
    ensures from <= m < items.Length
    ensures forall j :: from <= j < items.Length ==> !Newer(items[j], items[m])
  {
    m := from;
    for j := from + 1 to items.Length
      invariant from <= m < items.Length
      invariant forall k :: from <= k < j ==> !Newer(items[k], items[m])
    {
      if Newer(items[j], items[m]) {
        m := j;
      }
    }
  }

  method Swap(items: array<Event>, i: nat, j: nat)
    requires i <= j < items.Length
    modifies items
    ensures items[..] == old(items[..])[i := old(items[j])][j := old(items[i])]
    ensures multiset(items[..]) == multiset(old(items[..]))
  {
    var t := items[i];
    items[i] := items[j];
    items[j] := t;
  }

  /**
    Stands for sort.Slice, which promises a sorted permutation and leaves the order of equally
    recent events open; callers may rely on no more than this contract.
   */
  method SortNewestFirst(items: array<Event>)
    modifies items
    ensures NewestFirst(items[..])
    ensures multiset(items[..]) == multiset(old(items[..]))
  {
    for i := 0 to items.Length
      invariant multiset(items[..]) == multiset(old(items[..]))
      invariant forall a, b :: 0 <= a < i && a < b < items.Length ==> !Newer(items[b], items[a])
    {
      var m := IndexOfNewest(items, i);
      Swap(items, i, m);
    }
  }

  /**
    Sorts the slice in place and renders its newest events. Nothing is lost from the slice, the
    kept events are its first ones, and no omitted event is newer than a kept one.
   */
  method SummarizeEvents(items: array<Event>, limit: int) returns (out: seq<string>)
    modifies items
    ensures multiset(items[..]) == multiset(old(items[..]))
    ensures |out| == if limit <= 0 then 0 else if limit < items.Length then limit else items.Length
    ensures forall i :: 0 <= i < |out| ==> out[i] == items[i].kind + " " + items[i].reason + " " + items[i].message
    ensures forall i, j, t, u | 0 <= i < |out| && i < j < items.Length && IsAt(items[i], t) && IsAt(items[j], u) ::
              u <= t
  {
    SortNewestFirst(items);
    ghost var sorted := items[..];
    out := [];
    for i := 0 to items.Length
      invariant items[..] == sorted
      invariant |out| == Kept(limit, i)
      invariant |out| < i ==> |out| >= limit
      invariant forall k :: 0 <= k < |out| ==> out[k] == Line(sorted[k])
    {
      if i >= limit {
        break;
      }
      out := out + [Line(items[i])];
    }
  }

  /**
    The kept events are a newest-k selection of the input, whatever order ties were given:
    every event newer than some kept one is kept as often as it occurs.
   */
  lemma KeptAreNewest(sorted: seq<Event>, k: nat, e: Event, i: nat)
    requires NewestFirst(sorted) && i < k <= |sorted| && Newer(e, sorted[i])
    ensures multiset(sorted[..k])[e] == multiset(sorted)[e]
  {
    assert sorted == sorted[..k] + sorted[k..];
    forall j | k <= j < |sorted| ensures sorted[j] != e {
      assert !Newer(sorted[j], sorted[i]);
    }
    assert e !in sorted[k..];
  }
}

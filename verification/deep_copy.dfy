/**
  Deep copies on the heap: `api/v1alpha1/zz_generated.deepcopy.go`, lines 9-100.

  A struct embedded in another is part of one object, here as a record of its plain fields beside
  its references. A pointer, a slice and a map are nullable references to an object of their own,
  so that nil and empty stay apart.
 */
module DeepCopy {
  import opened Wrappers
  import opened Resources

  // ----- what the references point to -----

  class TimeCell {
    var time: int

    constructor (time: int)
      ensures this.time == time
    {
      this.time := time;
    }
  }

  class UsageCell {
    var usage: ResourceUsage

    constructor (usage: ResourceUsage)
      ensures this.usage == usage
    {
      this.usage := usage;
    }
  }

  class StringMap {
    var entries: map<string, string>

    constructor (entries: map<string, string>)
      ensures this.entries == entries
    {
      this.entries := entries;
    }
  }

  /** A condition holds no reference: its transition time is a plain field. */
  datatype Condition = Condition(
    kind: string, status: string, observedGeneration: int, lastTransitionTime: int, reason: string, message: string)

  ghost function TimeOf(c: TimeCell?): Option<int>
    reads c
  {
    if c == null then None else Some(c.time)
  }

  ghost function UsageIn(c: UsageCell?): Option<ResourceUsage>
    reads c
  {
    if c == null then None else Some(c.usage)
  }

  ghost function EntriesOf(m: StringMap?): Option<map<string, string>>
    reads m
  {
    if m == null then None else Some(m.entries)
  }

  ghost function Elements<T>(a: array?<T>): Option<seq<T>>
    reads a
  {
    if a == null then None else Some(a[..])
  }

  method CopyTime(c: TimeCell?) returns (r: TimeCell?)
    ensures (r != null ==> fresh(r)) && TimeOf(r) == TimeOf(c)
  {
    if c == null {
      return null;
    }
    r := new TimeCell(c.time);
  }

  method CopyUsage(c: UsageCell?) returns (r: UsageCell?)
    ensures (r != null ==> fresh(r)) && UsageIn(r) == UsageIn(c)
  {
    if c == null {
      return null;
    }
    r := new UsageCell(c.usage);
  }

  method CopyMap(m: StringMap?) returns (r: StringMap?)
    ensures (r != null ==> fresh(r)) && EntriesOf(r) == EntriesOf(m)
  {
    if m == null {
      return null;
    }
    r := new StringMap(m.entries);
  }

  /** A new slice of the same length, filled element by element. */
  method CopySlice<T(0)>(a: array?<T>) returns (r: array?<T>)
    ensures (r != null ==> fresh(r)) && Elements(r) == Elements(a)
  {
    if a == null {
      return null;
    }
    r := new T[a.Length];
    for i := 0 to a.Length
      invariant r[..i] == a[..i]
    {
      r[i] := a[i];
    }
    assert r[..] == a[..];
  }

  // ----- a diagnosis -----

  datatype TypeMeta = TypeMeta(kind: string, apiVersion: string)

  datatype MetaFields = MetaFields(name: string, namespace: string, resourceVersion: string)

  datatype SpecFields = SpecFields(kind: string, namespace: string, name: string, failureType: string)

  datatype StatusFields = StatusFields(
    phase: string, rootCause: string, severity: string, recommendedFix: string, model: string,
    message: string, observedFingerprint: string)

  datatype MetaValue = MetaValue(
    fields: MetaFields, labels: Option<map<string, string>>, annotations: Option<map<string, string>>)

  datatype SpecValue = SpecValue(fields: SpecFields, collectedAt: Option<int>)

  datatype StatusValue = StatusValue(
    fields: StatusFields, lastUpdated: Option<int>, conditions: Option<seq<Condition>>,
    resourceUsage: Option<ResourceUsage>, remediations: Option<seq<string>>)

  datatype DiagnosisValue = DiagnosisValue(typeMeta: TypeMeta, meta: MetaValue, spec: SpecValue, status: StatusValue)

  class ClusterDiagnosis {
    var typeMeta: TypeMeta

    // ObjectMeta
    var meta: MetaFields
    var labels: StringMap?
    var annotations: StringMap?

    // Spec
    var spec: SpecFields
    var collectedAt: TimeCell?

    // Status
    var status: StatusFields
    var lastUpdated: TimeCell?
    var conditions: array?<Condition>
    var resourceUsage: UsageCell?
    var remediations: array?<string>

    constructor ()
    {
      typeMeta := TypeMeta("", "");
      meta := MetaFields("", "", "");
      spec := SpecFields("", "", "", "");
      status := StatusFields("", "", "", "", "", "", "");
      labels, annotations, collectedAt := null, null, null;
      lastUpdated, conditions, resourceUsage, remediations := null, null, null, null;
    }

    ghost function Meta(): MetaValue
      reads this, labels, annotations
    {
      MetaValue(meta, EntriesOf(labels), EntriesOf(annotations))
    }

    ghost function Spec(): SpecValue
      reads this, collectedAt
    {
      SpecValue(spec, TimeOf(collectedAt))
    }

    ghost function Status(): StatusValue
      reads this, lastUpdated, conditions, resourceUsage, remediations
    {
      StatusValue(status, TimeOf(lastUpdated), Elements(conditions), UsageIn(resourceUsage), Elements(remediations))
    }

    ghost function Value(): DiagnosisValue
      reads this, labels, annotations, collectedAt, lastUpdated, conditions, resourceUsage, remediations
    {
      DiagnosisValue(typeMeta, Meta(), Spec(), Status())
    }

    /** Every object the value depends on. */
    ghost function Reach(): set<object?>
      reads this
    {
      {this, labels, annotations, collectedAt, lastUpdated, conditions, resourceUsage, remediations}
    }

    method DeepCopyMetaInto(out: ClusterDiagnosis)
      modifies out`meta, out`labels, out`annotations
      ensures out.Meta() == old(Meta())
      ensures (out.labels != null ==> fresh(out.labels)) && (out.annotations != null ==> fresh(out.annotations))
    {
      var l := CopyMap(labels);
      var a := CopyMap(annotations);
      out.meta, out.labels, out.annotations := meta, l, a;
    }

    method DeepCopySpecInto(out: ClusterDiagnosis)
      modifies out`spec, out`collectedAt
      ensures out.Spec() == old(Spec())
      ensures out.collectedAt != null ==> fresh(out.collectedAt)
    {
      var t := CopyTime(collectedAt);
      out.spec, out.collectedAt := spec, t;
    }

    method DeepCopyStatusInto(out: ClusterDiagnosis)
      modifies out`status, out`lastUpdated, out`conditions, out`resourceUsage, out`remediations
      ensures out.Status() == old(Status())
      ensures (out.lastUpdated != null ==> fresh(out.lastUpdated)) && (out.conditions != null ==> fresh(out.conditions))
      ensures out.resourceUsage != null ==> fresh(out.resourceUsage)
      ensures out.remediations != null ==> fresh(out.remediations)
    {
      var t := CopyTime(lastUpdated);
      var c := CopySlice(conditions);
      var u := CopyUsage(resourceUsage);
      var r := CopySlice(remediations);
      out.status := status;
      out.lastUpdated, out.conditions, out.resourceUsage, out.remediations := t, c, u, r;
    }

    /** Fills `out` with an equal value that shares no reference with anything older. */
    method DeepCopyInto(out: ClusterDiagnosis)
      modifies out
      ensures out.Value() == old(Value())
      ensures fresh(out.Reach() - {out, null})
    {
      out.typeMeta := typeMeta;
      DeepCopyMetaInto(out);
      assert Spec() == old(Spec()) && Status() == old(Status());
      DeepCopySpecInto(out);
      assert Status() == old(Status()) && out.Meta() == old(Meta());
      DeepCopyStatusInto(out);
    }
  }

  /** The copy has the value its source had, and shares no reference with anything older. */
  twostate predicate IsCopy(d: ClusterDiagnosis, new copy: ClusterDiagnosis)
    reads copy, copy.labels, copy.annotations, copy.collectedAt
    reads copy.lastUpdated, copy.conditions, copy.resourceUsage, copy.remediations
  {
    copy.Value() == old(d.Value()) && fresh(copy.Reach() - {null})
  }

  method DeepCopyDiagnosis(source: ClusterDiagnosis?) returns (out: ClusterDiagnosis?)
    ensures source == null <==> out == null
    ensures source != null ==> IsCopy(source, out)
  {
    if source == null {
      return null;
    }
    out := new ClusterDiagnosis();
    source.DeepCopyInto(out);
  }

  // ----- a list -----

  /** The zeroed elements of a new slice of structs. */
  method MakeDiagnoses(n: nat) returns (a: array<ClusterDiagnosis>)
    ensures fresh(a) && a.Length == n
    ensures forall i :: 0 <= i < n ==> fresh(a[i])
    ensures forall i, j :: 0 <= i < j < n ==> a[i] != a[j]
  {
    var zeros: seq<ClusterDiagnosis> := [];
    for k := 0 to n
      invariant |zeros| == k
      invariant forall i :: 0 <= i < k ==> fresh(zeros[i])
      invariant forall i, j :: 0 <= i < j < k ==> zeros[i] != zeros[j]
    {
      var zero := new ClusterDiagnosis();
      zeros := zeros + [zero];
    }
    a := new ClusterDiagnosis[n](i requires 0 <= i < |zeros| => zeros[i]);
  }

  /** The value of a diagnosis depends on nothing outside its reach. */
  twostate lemma ValueDependsOnReach(d: ClusterDiagnosis)
    requires unchanged(d)
    requires d.labels != null ==> unchanged(d.labels)
    requires d.annotations != null ==> unchanged(d.annotations)
    requires d.collectedAt != null ==> unchanged(d.collectedAt)
    requires d.lastUpdated != null ==> unchanged(d.lastUpdated)
    requires d.conditions != null ==> unchanged(d.conditions)
    requires d.resourceUsage != null ==> unchanged(d.resourceUsage)
    requires d.remediations != null ==> unchanged(d.remediations)
    ensures d.Value() == old(d.Value()) && d.Reach() == old(d.Reach())
  {
  }

  /** No object is in both. */
  ghost predicate Disjoint(r: set<object?>, s: set<object?>) {
    forall o | o in r && o in s :: o == null
  }

  /** The two reach no object in common. */
  ghost predicate AreApart(a: ClusterDiagnosis, b: ClusterDiagnosis)
    reads a, b
  {
    Disjoint(a.Reach(), b.Reach())
  }

  /** The sets have no object in common, and `taken` holds them all. */
  ghost predicate AreTakenApart(reaches: seq<set<object?>>, taken: set<object?>) {
    && (forall i :: 0 <= i < |reaches| ==> reaches[i] <= taken)
    && forall i, j :: 0 <= i < j < |reaches| ==> Disjoint(reaches[i], reaches[j])
  }

  lemma TakeApart(reaches: seq<set<object?>>, taken: set<object?>, r: set<object?>)
    requires AreTakenApart(reaches, taken) && Disjoint(taken, r)
    ensures AreTakenApart(reaches + [r], taken + r)
  {
  }

  /** One item, which none of the objects taken so far may share. */
  method CopyItem(d: ClusterDiagnosis, out: ClusterDiagnosis, ghost taken: set<object?>)
    requires out !in taken
    modifies out
    ensures out.Value() == old(d.Value()) && fresh(out.Reach() - {out, null})
    ensures Disjoint(taken, out.Reach())
    ensures forall other: ClusterDiagnosis | old(allocated(other)) && out !in old(other.Reach()) ::
              other.Value() == old(other.Value()) && other.Reach() == old(other.Reach())
  {
    d.DeepCopyInto(out);
    forall other: ClusterDiagnosis | old(allocated(other)) && out !in old(other.Reach())
      ensures other.Value() == old(other.Value()) && other.Reach() == old(other.Reach())
    {
      ValueDependsOnReach(other);
    }
  }

  method CopyItems(source: array<ClusterDiagnosis>) returns (out: array<ClusterDiagnosis>)
    ensures fresh(out) && out.Length == source.Length
    ensures forall i :: 0 <= i < out.Length ==> IsCopy(source[i], out[i])
    ensures forall i, j :: 0 <= i < j < out.Length ==> AreApart(out[i], out[j])
  {
    out := MakeDiagnoses(source.Length);
    ghost var reaches: seq<set<object?>>, taken: set<object?> := [], {};
    for i := 0 to source.Length
      invariant |reaches| == i && AreTakenApart(reaches, taken)
      invariant forall j :: i <= j < out.Length ==> out[j] !in taken
      invariant forall j :: 0 <= j < out.Length ==> fresh(out[j])
      invariant forall j, k :: 0 <= j < k < out.Length ==> out[j] != out[k]
      invariant forall j :: 0 <= j < i ==> IsCopy(source[j], out[j]) && out[j].Reach() == reaches[j]
    {
      ValueDependsOnReach(source[i]);
      CopyItem(source[i], out[i], taken);
      TakeApart(reaches, taken, out[i].Reach());
      reaches, taken := reaches + [out[i].Reach()], taken + out[i].Reach();
    }
  }

  datatype ListMeta = ListMeta(resourceVersion: string, continueToken: string)

  datatype ListValue = ListValue(
    typeMeta: TypeMeta, listMeta: ListMeta, remainingItemCount: Option<int>, items: Option<seq<DiagnosisValue>>)

  class ClusterDiagnosisList {
    var typeMeta: TypeMeta
    var listMeta: ListMeta
    var remainingItemCount: TimeCell?
    var items: array?<ClusterDiagnosis>

    constructor ()
    {
      typeMeta, listMeta := TypeMeta("", ""), ListMeta("", "");
      remainingItemCount, items := null, null;
    }

    ghost function ItemValues(n: nat): (r: seq<DiagnosisValue>)
      requires items != null && n <= items.Length
      reads *
      ensures |r| == n && forall i :: 0 <= i < n ==> r[i] == items[i].Value()
    {
      if n == 0 then [] else ItemValues(n - 1) + [items[n - 1].Value()]
    }

    ghost function Value(): ListValue
      reads *
    {
      ListValue(typeMeta, listMeta, TimeOf(remainingItemCount),
                if items == null then None else Some(ItemValues(items.Length)))
    }

    /** Every object the value depends on, those the items reach included. */
    ghost function Reach(): set<object?>
      reads *
    {
      {this, remainingItemCount, items} +
      if items == null then {} else set i, o | 0 <= i < items.Length && o in items[i].Reach() :: o
    }

    /** Copies a list of any length, nil and empty included. */
    method DeepCopyInto(out: ClusterDiagnosisList)
      modifies out
      ensures IsListCopy(this, out)
    {
      var copies: array?<ClusterDiagnosis> := null;
      if items != null {
        copies := CopyItems(items);
      }
      var count := CopyTime(remainingItemCount);
      label copied:
      out.typeMeta, out.listMeta, out.remainingItemCount, out.items := typeMeta, listMeta, count, copies;
      if copies != null {
        forall i | 0 <= i < copies.Length
          ensures IsCopy(old(items[i]), copies[i])
        {
          ValueDependsOnReach@copied(copies[i]);
        }
        forall i, j | 0 <= i < j < copies.Length
          ensures AreApart(copies[i], copies[j])
        {
          assert old@copied(AreApart(copies[i], copies[j]));
        }
      }
    }
  }

  /** Equal plain fields, nil for nil, and for every item a copy of it that no other item shares anything with. */
  twostate predicate IsListCopy(source: ClusterDiagnosisList, new out: ClusterDiagnosisList)
    reads *
  {
    && out.typeMeta == old(source.typeMeta) && out.listMeta == old(source.listMeta)
    && TimeOf(out.remainingItemCount) == old(TimeOf(source.remainingItemCount))
    && (out.remainingItemCount != null ==> fresh(out.remainingItemCount))
    && (out.items == null <==> old(source.items) == null)
    && (out.items != null ==> fresh(out.items) && out.items.Length == old(source.items).Length)
    && (out.items != null ==> forall i :: 0 <= i < out.items.Length ==> IsCopy(old(source.items[i]), out.items[i]))
    && (out.items != null ==> forall i, j :: 0 <= i < j < out.items.Length ==> AreApart(out.items[i], out.items[j]))
  }

  method DeepCopyList(source: ClusterDiagnosisList?) returns (out: ClusterDiagnosisList?)
    ensures source == null <==> out == null
    ensures source != null ==> fresh(out) && IsListCopy(source, out)
  {
    if source == null {
      return null;
    }
    out := new ClusterDiagnosisList();
    label made:
    if source.items != null {
      forall i | 0 <= i < source.items.Length
        ensures source.items[i].Value() == old(source.items[i].Value())
      {
        ValueDependsOnReach(source.items[i]);
      }
    }
    source.DeepCopyInto(out);
    if source.items != null {
      forall i | 0 <= i < source.items.Length
        ensures IsCopy(old(source.items[i]), out.items[i])
      {
        assert IsCopy@made(old(source.items[i]), out.items[i]);
      }
    }
  }

  // ----- independence -----

  /** A copy reaches nothing that existed before it was made: no older diagnosis shares state with it. */
  twostate lemma CopyIsApart(source: ClusterDiagnosis, new copy: ClusterDiagnosis, older: ClusterDiagnosis)
    requires IsCopy(source, copy)
    ensures Disjoint(old(older.Reach()), copy.Reach())
  {
  }

  /** Nothing that a diagnosis reaches has changed. */
  twostate predicate ReachUnchanged(d: ClusterDiagnosis)
    reads *
  {
    && unchanged(d)
    && (d.labels != null ==> unchanged(d.labels)) && (d.annotations != null ==> unchanged(d.annotations))
    && (d.collectedAt != null ==> unchanged(d.collectedAt)) && (d.lastUpdated != null ==> unchanged(d.lastUpdated))
    && (d.conditions != null ==> unchanged(d.conditions))
    && (d.resourceUsage != null ==> unchanged(d.resourceUsage))
    && (d.remediations != null ==> unchanged(d.remediations))
  }

  /** Nor anything that a list reaches. */
  twostate predicate ListReachUnchanged(list: ClusterDiagnosisList)
    reads *
  {
    && unchanged(list)
    && (list.remainingItemCount != null ==> unchanged(list.remainingItemCount))
    && (list.items != null ==>
          && unchanged(list.items)
          && forall i :: 0 <= i < list.items.Length ==> ReachUnchanged(list.items[i]))
  }

  /** A list keeps its value as long as it keeps its items and they keep theirs. */
  twostate lemma ListValueDependsOnItems(list: ClusterDiagnosisList)
    requires unchanged(list) && (list.remainingItemCount != null ==> unchanged(list.remainingItemCount))
    requires list.items != null ==>
               && unchanged(list.items)
               && forall i :: 0 <= i < list.items.Length ==> list.items[i].Value() == old(list.items[i].Value())
    ensures list.Value() == old(list.Value())
  {
    if list.items != null {
      assert list.Value().items.value == old(list.Value()).items.value;
    }
  }

  /** A list keeps its value under any change outside the objects it reaches. */
  twostate lemma ListValueDependsOnReach(list: ClusterDiagnosisList)
    requires ListReachUnchanged(list)
    ensures list.Value() == old(list.Value())
  {
    if list.items != null {
      forall i | 0 <= i < list.items.Length
        ensures list.items[i].Value() == old(list.items[i].Value())
      {
        assert ReachUnchanged(list.items[i]);
        ValueDependsOnReach(list.items[i]);
      }
    }
    ListValueDependsOnItems(list);
  }

  /** A copied list has the value of its source. */
  twostate lemma ListCopyIsEqual(source: ClusterDiagnosisList, new out: ClusterDiagnosisList)
    requires IsListCopy(source, out)
    ensures out.Value() == old(source.Value())
  {
    if out.items != null {
      var a, b := out.Value().items.value, old(source.Value()).items.value;
      forall i | 0 <= i < out.items.Length
        ensures a[i] == b[i]
      {
        assert IsCopy(old(source.items[i]), out.items[i]);
      }
      assert a == b;
    }
  }

  /** All a copied list reaches is new, apart from itself: no older list shares state with it. */
  twostate lemma ListCopyIsNew(source: ClusterDiagnosisList, new out: ClusterDiagnosisList)
    requires IsListCopy(source, out)
    ensures fresh(out.Reach() - {null, out})
  {
    if out.items != null {
      forall i | 0 <= i < out.items.Length
        ensures fresh(out.items[i].Reach() - {null})
      {
        assert IsCopy(old(source.items[i]), out.items[i]);
      }
    }
  }

  /** Any change at all to a diagnosis and to what it reaches; callers know no more than the frame. */
  method Change(d: ClusterDiagnosis)
    modifies d, d.labels, d.annotations, d.collectedAt
    modifies d.lastUpdated, d.conditions, d.resourceUsage, d.remediations
  {
    d.typeMeta, d.meta, d.spec, d.status := *, *, *, *;
    if d.annotations != null {
      d.annotations.entries := *;
    }
    if d.remediations != null && d.remediations.Length > 0 {
      d.remediations[0] := *;
    }
    d.labels, d.resourceUsage := null, null;
  }

  /** The original keeps its value whatever is done to its copy. */
  method ChangeCopy(source: ClusterDiagnosis) returns (copy: ClusterDiagnosis?)
    ensures source.Value() == old(source.Value())
  {
    copy := DeepCopyDiagnosis(source);
    Change(copy);
  }

  /** The copy keeps the value the original had, whatever is done to the original. */
  method ChangeSource(source: ClusterDiagnosis) returns (copy: ClusterDiagnosis?)
    modifies source, source.labels, source.annotations, source.collectedAt
    modifies source.lastUpdated, source.conditions, source.resourceUsage, source.remediations
    ensures copy != null && copy.Value() == old(source.Value())
  {
    copy := DeepCopyDiagnosis(source);
    label copied:
    Change(source);
    ValueDependsOnReach@copied(copy);
  }

  /** Nothing is reached from both, said of each reference that could be shared. */
  ghost predicate RefersApart(d: ClusterDiagnosis, other: ClusterDiagnosis)
    reads d, other
  {
    && d != other
    && (other.labels != null ==> other.labels != d.labels && other.labels != d.annotations)
    && (other.annotations != null ==> other.annotations != d.labels && other.annotations != d.annotations)
    && (other.collectedAt != null ==> other.collectedAt != d.collectedAt && other.collectedAt != d.lastUpdated)
    && (other.lastUpdated != null ==> other.lastUpdated != d.collectedAt && other.lastUpdated != d.lastUpdated)
    && (other.conditions != null ==> other.conditions != d.conditions)
    && (other.resourceUsage != null ==> other.resourceUsage != d.resourceUsage)
    && (other.remediations != null ==> other.remediations != d.remediations)
  }

  /** Nothing is reached both from the diagnosis and from the list. */
  ghost predicate IsAwayFrom(d: ClusterDiagnosis, list: ClusterDiagnosisList)
    reads *
  {
    && (list.remainingItemCount != null ==>
          list.remainingItemCount != d.collectedAt && list.remainingItemCount != d.lastUpdated)
    && (list.items != null ==> forall k :: 0 <= k < list.items.Length ==> RefersApart(d, list.items[k]))
  }

  /** A list keeps its value whatever is done to a diagnosis it does not share anything with. */
  method ChangeAwayFrom(d: ClusterDiagnosis, list: ClusterDiagnosisList)
    requires IsAwayFrom(d, list)
    modifies d, d.labels, d.annotations, d.collectedAt
    modifies d.lastUpdated, d.conditions, d.resourceUsage, d.remediations
    ensures list.Value() == old(list.Value())
  {
    Change(d);
    if list.items != null {
      forall k | 0 <= k < list.items.Length
        ensures list.items[k].Value() == old(list.items[k].Value())
      {
        assert old(RefersApart(d, list.items[k]));
        ValueDependsOnReach(list.items[k]);
      }
    }
    ListValueDependsOnItems(list);
  }

  /** What is new is away from an older list. */
  twostate lemma NewIsAwayFromOlder(new d: ClusterDiagnosis, list: ClusterDiagnosisList)
    requires fresh(d.Reach() - {null}) && ListReachUnchanged(list)
    ensures IsAwayFrom(d, list)
  {
    if list.items != null {
      forall k | 0 <= k < list.items.Length
        ensures RefersApart(d, list.items[k])
      {
        assert ReachUnchanged(list.items[k]);
      }
    }
  }

  /** An older diagnosis is away from a list of new ones. */
  twostate lemma OlderIsAwayFromNew(d: ClusterDiagnosis, new list: ClusterDiagnosisList)
    requires unchanged(d)
    requires list.remainingItemCount != null ==> fresh(list.remainingItemCount)
    requires list.items != null ==>
               forall k :: 0 <= k < list.items.Length ==> fresh(list.items[k].Reach() - {null})
    ensures IsAwayFrom(d, list)
  {
  }

  /** A list keeps its value, whatever is done to an item of its copy. */
  method ChangeCopiedItem(source: ClusterDiagnosisList, i: nat) returns (copy: ClusterDiagnosisList?)
    requires source.items != null && i < source.items.Length
    ensures source.Value() == old(source.Value())
  {
    copy := DeepCopyList(source);
    assert IsCopy(old(source.items[i]), copy.items[i]);
    ListValueDependsOnReach(source);
    NewIsAwayFromOlder(copy.items[i], source);
    ChangeAwayFrom(copy.items[i], source);
  }

  /** What is apart from a changed diagnosis keeps its value. */
  method ChangeBeside(d: ClusterDiagnosis, other: ClusterDiagnosis)
    requires RefersApart(d, other)
    modifies d, d.labels, d.annotations, d.collectedAt
    modifies d.lastUpdated, d.conditions, d.resourceUsage, d.remediations
    ensures other.Value() == old(other.Value())
  {
    Change(d);
    ValueDependsOnReach(other);
  }

  lemma ApartRefersApart(a: ClusterDiagnosis, b: ClusterDiagnosis)
    requires AreApart(a, b)
    ensures RefersApart(a, b) && RefersApart(b, a)
  {
    assert a in a.Reach() && b in b.Reach();
  }

  /** The items of a copied list are apart from each other, so a change to one leaves the others alone. */
  method ChangeBesideItem(source: ClusterDiagnosisList, i: nat, j: nat) returns (copy: ClusterDiagnosisList?)
    requires source.items != null && i < source.items.Length && j < source.items.Length && i != j
    ensures copy != null && copy.items != null && j < copy.items.Length
    ensures copy.items[j].Value() == old(source.items[j].Value())
  {
    copy := DeepCopyList(source);
    var d, other := copy.items[i], copy.items[j];
    assert IsCopy(old(source.items[j]), other) && IsCopy(old(source.items[i]), d);
    if i < j {
      assert AreApart(d, other);
      ApartRefersApart(d, other);
    } else {
      assert AreApart(other, d);
      ApartRefersApart(other, d);
    }
    ChangeBeside(d, other);
  }

  /** The copy of a list keeps the value the list had, whatever is done to an item of the list. */
  method ChangeSourceItem(source: ClusterDiagnosisList, d: ClusterDiagnosis, i: nat)
    returns (copy: ClusterDiagnosisList?)
    requires source.items != null && i < source.items.Length && d == source.items[i]
    modifies d, d.labels, d.annotations, d.collectedAt
    modifies d.lastUpdated, d.conditions, d.resourceUsage, d.remediations
    ensures copy != null && copy.Value() == old(source.Value())
  {
    copy := DeepCopyList(source);
    ListCopyIsEqual(source, copy);
    forall k | copy.items != null && 0 <= k < copy.items.Length
      ensures fresh(copy.items[k].Reach() - {null})
    {
      assert IsCopy(old(source.items[k]), copy.items[k]);
    }
    OlderIsAwayFromNew(d, copy);
    ChangeAwayFrom(d, copy);
  }
}

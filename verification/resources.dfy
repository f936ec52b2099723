/**
  The requests and limits copied into a diagnosis: `internal/collect/collect.go`, lines 117-158.
 */
module Resources {
  import opened Wrappers
  import opened Detect

  datatype ResourceUsage = ResourceUsage(
    cpuRequest: string,
    cpuLimit: string,
    memoryRequest: string,
    memoryLimit: string
  )

  const NO_USAGE := ResourceUsage("", "", "", "")

  function SpecNamed(container: string): ContainerSpec -> bool {
    (c: ContainerSpec) => c.name == container
  }

  /** App containers are searched before init containers. */
  function NamedSpec(pod: Pod, container: string): Option<ContainerSpec> {
    var i := First(pod.specContainers, SpecNamed(container));
    if i < |pod.specContainers| then Some(pod.specContainers[i])
    else
      var j := First(pod.specInitContainers, SpecNamed(container));
      if j < |pod.specInitContainers| then Some(pod.specInitContainers[j]) else None
  }

  function TextOf(quantity: Option<string>): string {
    if quantity.None? then "" else quantity.value
  }

  function UsageOf(pod: Pod, container: string): Option<ResourceUsage> {
    var c := NamedSpec(pod, container);
    if c.None? then None
    else
      var u := ResourceUsage(TextOf(c.value.cpuRequest), TextOf(c.value.cpuLimit),
                             TextOf(c.value.memoryRequest), TextOf(c.value.memoryLimit));
      if u == NO_USAGE then None else Some(u)
  }

  /** Each of the four quantities is in the field of its own, and there is no usage when none is set. */
  predicate ReadsQuantities(c: ContainerSpec, usage: Option<ResourceUsage>) {
    && (usage.None? <==>
          && TextOf(c.cpuRequest) == "" && TextOf(c.cpuLimit) == ""
          && TextOf(c.memoryRequest) == "" && TextOf(c.memoryLimit) == "")
    && (usage.Some? ==>
          && usage.value.cpuRequest == TextOf(c.cpuRequest) && usage.value.cpuLimit == TextOf(c.cpuLimit)
          && usage.value.memoryRequest == TextOf(c.memoryRequest) && usage.value.memoryLimit == TextOf(c.memoryLimit))
  }

  ghost predicate IsFirstSpec(pod: Pod, container: string, k: nat) {
    var all := pod.specContainers + pod.specInitContainers;
    k < |all| && all[k].name == container && forall j :: 0 <= j < k ==> all[j].name != container
  }

  /** Of all containers, app containers first, the first with that name is read; without one there is no usage. */
  ghost predicate IsUsageOf(pod: Pod, container: string, usage: Option<ResourceUsage>) {
    var all := pod.specContainers + pod.specInitContainers;
    && ((forall c | c in all :: c.name != container) ==> usage.None?)
    && (forall k: nat | IsFirstSpec(pod, container, k) :: ReadsQuantities(all[k], usage))
  }

  lemma NamedSpecIsFirst(pod: Pod, container: string, k: nat)
    requires IsFirstSpec(pod, container, k)
    ensures NamedSpec(pod, container) == Some((pod.specContainers + pod.specInitContainers)[k])
  {
    var all, n := pod.specContainers + pod.specInitContainers, |pod.specContainers|;
    forall j | 0 <= j < n && j < k ensures pod.specContainers[j].name != container {
      assert all[j].name != container;
    }
    FirstSpecIs(pod.specContainers, container, if k < n then k else n);
    if k >= n {
      forall j | 0 <= j < k - n ensures pod.specInitContainers[j].name != container {
        assert all[n + j].name != container;
      }
      FirstSpecIs(pod.specInitContainers, container, k - n);
    }
  }

  /** What is reported of a container is exactly what the first container of that name sets. */
  lemma UsageReadsFirstNamed(pod: Pod, container: string, usage: Option<ResourceUsage>)
    ensures IsUsageOf(pod, container, usage) <==> usage == UsageOf(pod, container)
  {
    var all := pod.specContainers + pod.specInitContainers;
    if forall c | c in all :: c.name != container {
      FirstSpecIs(pod.specContainers, container, |pod.specContainers|);
      FirstSpecIs(pod.specInitContainers, container, |pod.specInitContainers|);
    } else {
      var k := FirstOfName(all, container);
      assert IsFirstSpec(pod, container, k);
      forall i: nat | IsFirstSpec(pod, container, i) ensures i == k {}
      NamedSpecIsFirst(pod, container, k);
    }
  }

  lemma FirstOfName(specs: seq<ContainerSpec>, container: string) returns (k: nat)
    requires exists c | c in specs :: c.name == container
    ensures k < |specs| && specs[k].name == container && forall j :: 0 <= j < k ==> specs[j].name != container
  {
    k := First(specs, SpecNamed(container));
    var c :| c in specs && c.name == container;
  }

  lemma FirstSpecIs(specs: seq<ContainerSpec>, container: string, i: nat)
    requires i <= |specs| && forall j :: 0 <= j < i ==> specs[j].name != container
    requires i < |specs| ==> specs[i].name == container
    ensures First(specs, SpecNamed(container)) == i
  {
  }

  method BuildResourceUsage(pod: Option<Pod>, container: string) returns (usage: Option<ResourceUsage>)
    ensures if pod.None? then usage.None? else IsUsageOf(pod.value, container, usage)
    ensures usage == if pod.None? then None else UsageOf(pod.value, container)
  {
    if pod.None? {
      return None;
    }
    UsageReadsFirstNamed(pod.value, container, UsageOf(pod.value, container));
    var specs, inits := pod.value.specContainers, pod.value.specInitContainers;
    var c: Option<ContainerSpec> := None;
    for i := 0 to |specs|
      invariant c.None? && forall j :: 0 <= j < i ==> specs[j].name != container
    {
      if specs[i].name == container {
        c := Some(specs[i]);
        FirstSpecIs(specs, container, i);
        break;
      }
    }
    if c.None? {
      FirstSpecIs(specs, container, |specs|);
      for i := 0 to |inits|
        invariant c.None? && forall j :: 0 <= j < i ==> inits[j].name != container
      {
        if inits[i].name == container {
          c := Some(inits[i]);
          FirstSpecIs(inits, container, i);
          break;
        }
      }
    }
    if c.None? {
      FirstSpecIs(inits, container, |inits|);
      return None;
    }
    var u := NO_USAGE;
    if c.value.cpuRequest.Some? {
      u := u.(cpuRequest := c.value.cpuRequest.value);
    }
    if c.value.cpuLimit.Some? {
      u := u.(cpuLimit := c.value.cpuLimit.value);
    }
    if c.value.memoryRequest.Some? {
      u := u.(memoryRequest := c.value.memoryRequest.value);
    }
    if c.value.memoryLimit.Some? {
      u := u.(memoryLimit := c.value.memoryLimit.value);
    }
    if u == NO_USAGE {
      return None;
    }
    return Some(u);
  }
}

/**
 Agent pools of an availability set: the indexes of their VMs, growth by a template
 deployment, and the clean-up of old deployments.
 */
module AgentPools {
  import opened Common
  import opened CaseFold
  import opened Instances
  import opened Lists

  // --------------------------------------------------------------- VM indexes

  /** A listed VM: whether it has an OS disk, the index read from its name, and its id. */
  datatype PoolVm = PoolVm(hasDisk: bool, index: Result<int>, id: string)

  /** What a VM adds: nothing without a disk, else its index and its id normalised, which may
      not be readable. */
  function Entry(vm: PoolVm): Result<Option<(int, string)>> {
    if !vm.hasDisk then Ok(None)
    else
      var id := Normalize(AZURE_PREFIX + vm.id);
      if vm.index.Err? || id.Err? then Err else Ok(Some((vm.index.value, id.value)))
  }

  lemma EntryIs(vm: PoolVm)
    ensures Entry(vm).Ok? <==> !vm.hasDisk || (vm.index.Ok? && AzureFormat("azure://" + vm.id))
    ensures Entry(vm).Ok? && vm.hasDisk ==> Entry(vm).value == Some((vm.index.value, Normalize("azure://" + vm.id).value))
    ensures !vm.hasDisk ==> Entry(vm) == Ok(None)
  {
  }

  type Found = Result<(seq<int>, map<int, string>)>

  /** The indexes in the order of the VMs, and for each the id of the last VM that has it; an
      error as soon as one VM cannot be read. */
  function Gather(vms: seq<PoolVm>, entry: PoolVm -> Result<Option<(int, string)>>): Found
    decreases |vms|
  {
    if vms == [] then Ok(([], map[]))
    else
      var before := Gather(vms[..|vms| - 1], entry);
      var e := entry(vms[|vms| - 1]);
      if before.Err? || e.Err? then Err
      else if e.value.None? then before
      else Ok((before.value.0 + [e.value.value.0], before.value.1[e.value.value.0 := e.value.value.1]))
  }

  function IndexesOf(vms: seq<PoolVm>): Found {
    Gather(vms, Entry)
  }

  /** The indexes are found if and only if every VM can be read. */
  lemma {:induction false} FoundIff(vms: seq<PoolVm>, entry: PoolVm -> Result<Option<(int, string)>>)
    ensures Gather(vms, entry).Ok? <==> forall vm <- vms :: entry(vm).Ok?
    decreases |vms|
  {
    if vms != [] {
      var n := |vms| - 1;
      FoundIff(vms[..n], entry);
      assert vms == vms[..n] + [vms[n]];
    }
  }

  predicate HasIndex(vms: seq<PoolVm>, entry: PoolVm -> Result<Option<(int, string)>>, k: int, index: int) {
    0 <= k < |vms| && entry(vms[k]).Ok? && entry(vms[k]).value.Some? && entry(vms[k]).value.value.0 == index
  }

  /** They are the indexes the VMs add. */
  lemma {:induction false} FoundAre(vms: seq<PoolVm>, entry: PoolVm -> Result<Option<(int, string)>>, index: int)
    requires Gather(vms, entry).Ok?
    ensures index in Gather(vms, entry).value.0 <==> exists k :: HasIndex(vms, entry, k, index)
    ensures index in Gather(vms, entry).value.1 <==> index in Gather(vms, entry).value.0
    decreases |vms|
  {
    if vms != [] {
      var n := |vms| - 1;
      FoundAre(vms[..n], entry, index);
      var last := HasIndex(vms, entry, n, index);
      assert index in Gather(vms, entry).value.0 <==> last || index in Gather(vms[..n], entry).value.0;
      if k :| HasIndex(vms[..n], entry, k, index) {
        assert HasIndex(vms, entry, k, index);
      }
      if k :| HasIndex(vms, entry, k, index) {
        assert k < n ==> HasIndex(vms[..n], entry, k, index);
      }
    }
  }

  /** The id kept for an index is that of the last VM which has it. */
  lemma {:induction false} LastIdIsKept(vms: seq<PoolVm>, entry: PoolVm -> Result<Option<(int, string)>>, index: int, k: nat)
    requires Gather(vms, entry).Ok? && HasIndex(vms, entry, k, index)
    requires forall j :: k < j < |vms| ==> !HasIndex(vms, entry, j, index)
    ensures index in Gather(vms, entry).value.1 && Gather(vms, entry).value.1[index] == entry(vms[k]).value.value.1
    decreases |vms|
  {
    var n := |vms| - 1;
    if k < n {
      assert !HasIndex(vms, entry, n, index);
      forall j | k < j < n ensures !HasIndex(vms[..n], entry, j, index) {
        assert !HasIndex(vms, entry, j, index);
      }
      LastIdIsKept(vms[..n], entry, index, k);
    }
  }

  function Adding(vms: seq<PoolVm>, entry: PoolVm -> Result<Option<(int, string)>>): set<int> {
    set k | 0 <= k < |vms| && entry(vms[k]).Ok? && entry(vms[k]).value.Some?
  }

  lemma {:induction false} FoundCount(vms: seq<PoolVm>, entry: PoolVm -> Result<Option<(int, string)>>)
    requires Gather(vms, entry).Ok?
    ensures |Gather(vms, entry).value.0| == |Adding(vms, entry)|
    decreases |vms|
  {
    if vms != [] {
      var n := |vms| - 1;
      FoundCount(vms[..n], entry);
      assert Adding(vms[..n], entry) == Adding(vms, entry) - {n};
    }
  }

  /** What is found: the indexes of the VMs with a disk, one for each of these. */
  lemma IndexesAre(vms: seq<PoolVm>, index: int)
    ensures IndexesOf(vms).Ok? <==> forall vm <- vms :: Entry(vm).Ok?
    ensures IndexesOf(vms).Ok? ==>
      && (index in IndexesOf(vms).value.0 <==> exists k :: HasIndex(vms, Entry, k, index))
      && (index in IndexesOf(vms).value.1 <==> index in IndexesOf(vms).value.0)
      && |IndexesOf(vms).value.0| == |Adding(vms, Entry)|
  {
    FoundIff(vms, Entry);
    if IndexesOf(vms).Ok? {
      FoundAre(vms, Entry, index);
      FoundCount(vms, Entry);
    }
  }

  lemma Unreadable(vms: seq<PoolVm>, k: nat)
    requires k < |vms| && Entry(vms[k]).Err?
    ensures IndexesOf(vms).Err?
  {
    FoundIff(vms, Entry);
    assert vms[k] in vms;
  }

  /** GetVMIndexes. */
  method GetVMIndexes(vms: seq<PoolVm>) returns (r: Result<seq<int>>, ids: map<int, string>)
    ensures r.Ok? <==> IndexesOf(vms).Ok?
    ensures r.Ok? ==>
      && multiset(r.value) == multiset(IndexesOf(vms).value.0) && ids == IndexesOf(vms).value.1
      && forall a, b :: 0 <= a < b < |r.value| ==> r.value[a] <= r.value[b]
  {
    var indexes: seq<int> := [];
    ids := map[];
    for i := 0 to |vms|
      invariant IndexesOf(vms[..i]) == Ok((indexes, ids))
    {
      assert vms[..i + 1][..i] == vms[..i];
      if !vms[i].hasDisk {
        continue;
      }
      if vms[i].index.Err? {
        Unreadable(vms, i);
        return Err, map[];
      }
      var resource := Normalize(AZURE_PREFIX + vms[i].id);
      if resource.Err? {
        Unreadable(vms, i);
        return Err, map[];
      }
      indexes := indexes + [vms[i].index.value];
      ids := ids[vms[i].index.value := resource.value];
    }
    assert vms[..|vms|] == vms;
    var sorted := Sort(indexes, (a, b) => a <= b);
    return Ok(sorted), ids;
  }

  // -------------------------------------------------------------- growth

  /** The offset and the count put into the template's parameters. */
  function Offset(indexes: seq<int>): int
    requires indexes != []
  {
    indexes[|indexes| - 1] + 1
  }

  function CountFor(indexes: seq<int>, delta: int): int
    requires indexes != []
  {
    var high := indexes[|indexes| - 1];
    |indexes| + delta + (if high != 0 then high + 1 - |indexes| else 0)
  }

  ghost predicate Ascending(indexes: seq<int>) {
    forall a, b :: 0 <= a < b < |indexes| ==> indexes[a] <= indexes[b]
  }

  /** Distinct, non-negative and in order: the indexes of a well-kept pool. */
  ghost predicate Tidy(indexes: seq<int>) {
    && (forall a, b :: 0 <= a < b < |indexes| ==> indexes[a] < indexes[b])
    && (forall i <- indexes :: i >= 0)
  }

  /** The template creates the VMs from the offset up to the count: no index in use is met,
      and there are exactly delta of them if and only if the highest index is not zero or
      the pool has one VM. */
  lemma TemplateRange(indexes: seq<int>, delta: int)
    requires indexes != [] && Ascending(indexes) && delta > 0
    ensures Offset(indexes) - 1 in indexes && forall i <- indexes :: i < Offset(indexes)
    ensures forall i :: Offset(indexes) <= i < CountFor(indexes, delta) ==> i !in indexes
    ensures CountFor(indexes, delta) - Offset(indexes) == delta <==> indexes[|indexes| - 1] != 0 || |indexes| == 1
  {
  }

  /** In a well-kept pool there are always exactly delta new VMs. */
  lemma FreshIndexes(indexes: seq<int>, delta: int)
    requires indexes != [] && Tidy(indexes) && delta > 0
    ensures CountFor(indexes, delta) - Offset(indexes) == delta
    ensures forall i :: Offset(indexes) <= i < CountFor(indexes, delta) ==> i !in indexes
  {
    if |indexes| > 1 {
      assert indexes[0] in indexes && indexes[0] < indexes[|indexes| - 1];
    }
    TemplateRange(indexes, delta);
  }

  /** The indexes once the deployment has made its VMs. */
  function Grown(indexes: seq<int>, delta: nat): seq<int>
    requires indexes != [] && CountFor(indexes, delta) >= Offset(indexes)
  {
    indexes + seq(CountFor(indexes, delta) - Offset(indexes), k => Offset(indexes) + k)
  }

  datatype PoolStep = Grow(delta: nat) | Lose(at: nat)

  /** Growth within the maximum; a VM leaves, but never the last one. */
  predicate CanTake(maxSize: int, indexes: seq<int>, step: PoolStep) {
    match step
    case Grow(delta) => indexes != [] && delta > 0 && |indexes| + delta <= maxSize && CountFor(indexes, delta) >= Offset(indexes)
    case Lose(at) => at < |indexes| && |indexes| > 1
  }

  function Take(maxSize: int, indexes: seq<int>, step: PoolStep): seq<int>
    requires CanTake(maxSize, indexes, step)
  {
    match step
    case Grow(delta) => Grown(indexes, delta)
    case Lose(at) => indexes[..at] + indexes[at + 1..]
  }

  predicate CanTakeAll(maxSize: int, indexes: seq<int>, steps: seq<PoolStep>)
    decreases |steps|
  {
    steps == [] || (CanTake(maxSize, indexes, steps[0]) && CanTakeAll(maxSize, Take(maxSize, indexes, steps[0]), steps[1..]))
  }

  function TakeAll(maxSize: int, indexes: seq<int>, steps: seq<PoolStep>): seq<int>
    requires CanTakeAll(maxSize, indexes, steps)
    decreases |steps|
  {
    if steps == [] then indexes else TakeAll(maxSize, Take(maxSize, indexes, steps[0]), steps[1..])
  }

  /** The net number of VMs the steps ask for. */
  function Net(steps: seq<PoolStep>): int
    decreases |steps|
  {
    if steps == [] then 0 else (if steps[0].Grow? then steps[0].delta else -1) + Net(steps[1..])
  }

  /** Over any sequence of growths and losses a well-kept pool stays so (no two VMs have one
      index at the same time), never outgrows its maximum, and has exactly as many VMs as asked for. */
  lemma {:induction false} PoolStaysTidy(maxSize: int, indexes: seq<int>, steps: seq<PoolStep>)
    requires indexes != [] && Tidy(indexes) && |indexes| <= maxSize && CanTakeAll(maxSize, indexes, steps)
    ensures
      var end := TakeAll(maxSize, indexes, steps);
      end != [] && Tidy(end) && |end| <= maxSize && |end| == |indexes| + Net(steps)
    decreases |steps|
  {
    if steps != [] {
      TakeTidy(maxSize, indexes, steps[0]);
      PoolStaysTidy(maxSize, Take(maxSize, indexes, steps[0]), steps[1..]);
    }
  }

  lemma TakeTidy(maxSize: int, indexes: seq<int>, step: PoolStep)
    requires indexes != [] && Tidy(indexes) && |indexes| <= maxSize && CanTake(maxSize, indexes, step)
    ensures
      var next := Take(maxSize, indexes, step);
      next != [] && Tidy(next) && |next| <= maxSize && |next| == |indexes| + if step.Grow? then step.delta else -1
  {
    if step.Grow? {
      FreshIndexes(indexes, step.delta);
      GrownTidy(indexes, step.delta);
    } else {
      var next := Take(maxSize, indexes, step);
      forall i | i in next ensures i in indexes {
        assert i in indexes[..step.at] || i in indexes[step.at + 1..];
      }
    }
  }

  lemma GrownTidy(indexes: seq<int>, delta: nat)
    requires indexes != [] && Tidy(indexes) && delta > 0 && CountFor(indexes, delta) - Offset(indexes) == delta
    ensures Tidy(Grown(indexes, delta)) && |Grown(indexes, delta)| == |indexes| + delta
  {
    var r := Grown(indexes, delta);
    var high := indexes[|indexes| - 1];
    assert high in indexes;
    forall a, b | 0 <= a < b < |r| ensures r[a] < r[b] {
      if a < |indexes| <= b {
        assert indexes[a] <= high;
      }
    }
  }

  // ------------------------------------------------------- old deployments

  datatype Deployment = Deployment(name: string, state: Option<string>, timestamp: int)

  const PREFIX := "cluster-autoscaler-"

  predicate Finished(d: Deployment) {
    d.state == Some("Succeeded") || d.state == Some("Failed")
  }

  predicate Named(d: Deployment) {
    PREFIX <= d.name
  }

  predicate Newer(a: Deployment, b: Deployment) {
    a.timestamp >= b.timestamp
  }

  /** A finished deployment made by the autoscaler. */
  predicate Ours(d: Deployment) {
    Finished(d) && Named(d)
  }

  ghost predicate DistinctNames(ds: seq<Deployment>) {
    forall a, b :: 0 <= a < b < |ds| ==> ds[a].name != ds[b].name
  }

  /** What a clean-up may choose to delete: all but the newest `max` of our deployments. */
  ghost predicate Outdated(all: seq<Deployment>, max: nat, chosen: seq<Deployment>) {
    LastOnes(all, Ours, Newer, max, chosen)
  }

  /** A finished deployment of the autoscaler, spelled out. */
  predicate MadeAndFinished(d: Deployment) {
    "cluster-autoscaler-" <= d.name && (d.state == Some("Succeeded") || d.state == Some("Failed"))
  }

  lemma OutdatedMeans(all: seq<Deployment>, max: nat, chosen: seq<Deployment>)
    requires Outdated(all, max, chosen)
    ensures forall d <- chosen :: d in all && MadeAndFinished(d)
    ensures forall kept <- all, gone <- chosen :: MadeAndFinished(kept) && kept !in chosen ==> kept.timestamp >= gone.timestamp
  {
    forall kept, gone | kept in all && gone in chosen && MadeAndFinished(kept) && kept !in chosen
      ensures kept.timestamp >= gone.timestamp
    {
      FilterMembers(all, Ours, kept);
      assert Newer(kept, gone);
    }
  }

  /** What is left of the deployments when `gone` are deleted, but for the broken ones. */
  function Surviving(all: seq<Deployment>, gone: seq<Deployment>, broken: set<string>): seq<Deployment> {
    Filter(all, d => d !in gone || d.name in broken)
  }

  lemma SurvivingNext(all: seq<Deployment>, gone: seq<Deployment>, d: Deployment, broken: set<string>)
    ensures Surviving(all, gone + [d], broken) ==
      if d.name in broken then Surviving(all, gone, broken) else Filter(Surviving(all, gone, broken), e => e != d)
  {
    if d.name in broken {
      FilterSame(all, e => e !in gone + [d] || e.name in broken, e => e !in gone || e.name in broken);
    } else {
      FilterFilter(all, e => e !in gone || e.name in broken, e => e != d, e => e !in gone + [d] || e.name in broken);
    }
  }

  /** When no delete fails at most `max` of our deployments remain. */
  lemma AtMostMaxRemain(all: seq<Deployment>, max: nat, chosen: seq<Deployment>)
    requires DistinctNames(all) && Outdated(all, max, chosen)
    ensures |Filter(Surviving(all, chosen, {}), Ours)| <= max
  {
    var broken: set<string> := {};
    RestCount(all, Ours, d => d !in chosen || d.name in broken, Newer, max, chosen);
  }

  /** The deployments of the resource group. */
  class ResourceGroup {
    var deployments: seq<Deployment>

    constructor (deployments: seq<Deployment>)
      ensures this.deployments == deployments
    {
      this.deployments := deployments;
    }

    /** Deletes a deployment, unless deleting it fails. */
    method Delete(d: Deployment, broken: set<string>) returns (failed: bool)
      modifies this
      ensures failed <==> d.name in broken
      ensures deployments == if failed then old(deployments) else Filter(old(deployments), e => e != d)
    {
      failed := d.name in broken;
      if !failed {
        deployments := FilterBackward(deployments, e => e != d);
      }
    }

    /** getAllSucceededAndFailedDeployments. */
    method FinishedDeployments() returns (r: seq<Deployment>)
      ensures r == Filter(deployments, Finished)
    {
      r := [];
      for i := |deployments| downto 0
        invariant r == Filter(deployments[i..], Finished)
      {
        if Finished(deployments[i]) {
          r := [deployments[i]] + r;
        }
      }
    }

    /** deleteOutdatedDeployments: all but the newest `max` finished deployments of the
        autoscaler are tried, even if some deletes fail, and nothing else is deleted. */
    method DeleteOutdatedDeployments(max: nat, listed: bool, broken: set<string>)
      returns (failed: bool, attempted: seq<Deployment>)
      requires DistinctNames(deployments)
      modifies this
      ensures !listed ==> failed && attempted == []
      ensures listed ==> Outdated(old(deployments), max, attempted)
      ensures listed ==> (failed <==> exists d <- attempted :: d.name in broken)
      ensures forall d <- attempted :: d in old(deployments) && MadeAndFinished(d)
      ensures forall kept <- old(deployments), gone <- attempted ::
        listed && MadeAndFinished(kept) && kept !in attempted ==> kept.timestamp >= gone.timestamp
      ensures deployments == Surviving(old(deployments), attempted, broken)
    {
      attempted := [];
      FilterAll(deployments, d => d !in attempted || d.name in broken);
      if !listed {
        return true, [];
      }
      var mine := FinishedDeployments();
      FilterFilter(deployments, Finished, Named, Ours);
      mine := FilterBackward(mine, Named);
      if |mine| <= max {
        return false, [];
      }
      var sorted := Sort(mine, Newer);
      assert |multiset(sorted)| == |multiset(mine)| && |multiset(sorted)| == |sorted|;
      CutIsLast(deployments, Ours, Newer, sorted, max);
      ghost var before := deployments;
      failed, attempted := DeleteEach(sorted[max..], broken);
      OutdatedMeans(before, max, attempted);
    }

    method DeleteEach(outdated: seq<Deployment>, broken: set<string>) returns (failed: bool, attempted: seq<Deployment>)
      modifies this
      ensures attempted == outdated && (failed <==> exists d <- outdated :: d.name in broken)
      ensures deployments == Surviving(old(deployments), outdated, broken)
    {
      failed, attempted := false, [];
      FilterAll(deployments, d => d !in attempted || d.name in broken);
      for i := 0 to |outdated|
        invariant attempted == outdated[..i] && (failed <==> exists d <- attempted :: d.name in broken)
        invariant deployments == Surviving(old(deployments), attempted, broken)
      {
        SurvivingNext(old(deployments), attempted, outdated[i], broken);
        var bad := Delete(outdated[i], broken);
        failed := failed || bad;
        attempted := attempted + [outdated[i]];
      }
    }
  }

  // -------------------------------------------------------------- the pool

  datatype PoolReply = Uninitialised | NotPositive | Unindexed | TooLarge | Crashed | Refused | Increased

  class AgentPool {
    const name: string
    const maxSize: int
    const group: ResourceGroup
    var curSize: int
    var lastRefresh: int
    var parameters: map<string, int>

    constructor (name: string, maxSize: int, group: ResourceGroup)
      ensures this.name == name && this.maxSize == maxSize && this.group == group
      ensures curSize == -1 && lastRefresh == ZERO_TIME && parameters == map[]
    {
      this.name, this.maxSize, this.group := name, maxSize, group;
      curSize, lastRefresh, parameters := -1, ZERO_TIME, map[];
    }

    /** The outcome the pool's VMs and the request call for. */
    function Expected(delta: int, vms: Option<seq<PoolVm>>, accepted: bool): PoolReply
      reads this
    {
      if curSize == -1 then Uninitialised
      else if delta <= 0 then NotPositive
      else if vms.None? || IndexesOf(vms.value).Err? then Unindexed
      else
        var size := |IndexesOf(vms.value).value.0|;
        if size + delta > maxSize then TooLarge
        else if size == 0 then Crashed
        else if !accepted then Refused
        else Increased
    }

    /** IncreaseSize; `vms` are the VMs in the cache, if the pool is known there, and
        `listed` and `broken` say how the clean-up of deployments goes. */
    method IncreaseSize(delta: int, vms: Option<seq<PoolVm>>, accepted: bool, now: int, max: nat, listed: bool, broken: set<string>)
      returns (reply: PoolReply, indexes: seq<int>, attempted: seq<Deployment>)
      requires DistinctNames(group.deployments)
      modifies this, group
      ensures reply == old(Expected(delta, vms, accepted))
      ensures reply.Uninitialised? <==> old(curSize) == -1
      ensures reply.NotPositive? <==> old(curSize) != -1 && delta <= 0
      ensures reply.Unindexed? ==> old(curSize) != -1 && delta > 0
      ensures reply.TooLarge? || reply.Crashed? || reply.Refused? || reply.Increased? ==>
        && old(curSize) != -1 && delta > 0 && vms.Some? && IndexesOf(vms.value).Ok?
        && multiset(indexes) == multiset(IndexesOf(vms.value).value.0)
        && (reply.TooLarge? <==> |indexes| + delta > maxSize)
        && (reply.Crashed? <==> |indexes| + delta <= maxSize && indexes == [])
        && (reply.Increased? || reply.Refused? ==> (reply.Increased? <==> accepted))
      ensures group.deployments == Surviving(old(group.deployments), attempted, broken)
      ensures if reply.Uninitialised? || reply.NotPositive? || !listed then attempted == []
              else Outdated(old(group.deployments), max, attempted)
      ensures reply.Refused? || reply.Increased? ==>
        && indexes != [] && Ascending(indexes) && multiset(indexes) == multiset(IndexesOf(vms.value).value.0)
        && parameters == old(parameters)[name + "Count" := CountFor(indexes, delta)][name + "Offset" := Offset(indexes)]
      ensures !reply.Refused? && !reply.Increased? ==> parameters == old(parameters)
      ensures if reply.Increased? then curSize == |indexes| + delta <= maxSize && lastRefresh == now
              else curSize == old(curSize) && lastRefresh == old(lastRefresh)
    {
      indexes, attempted := [], [];
      FilterAll(group.deployments, d => d !in attempted || d.name in broken);
      if curSize == -1 {
        return Uninitialised, indexes, attempted;
      }
      if delta <= 0 {
        return NotPositive, indexes, attempted;
      }
      var failed;
      failed, attempted := group.DeleteOutdatedDeployments(max, listed, broken);
      if vms.None? {
        return Unindexed, indexes, attempted;
      }
      var found, _ := GetVMIndexes(vms.value);
      if found.Err? {
        return Unindexed, indexes, attempted;
      }
      indexes := found.value;
      assert |multiset(indexes)| == |indexes| && |multiset(IndexesOf(vms.value).value.0)| == |IndexesOf(vms.value).value.0|;
      var size := |indexes|;
      if size + delta > maxSize {
        return TooLarge, indexes, attempted;
      }
      if size == 0 {
        return Crashed, indexes, attempted;
      }
      Deploy(indexes, delta, accepted, now);
      return if accepted then Increased else Refused, indexes, attempted;
    }

    /** The parameters are set before the deployment is sent, the size after it. */
    method Deploy(indexes: seq<int>, delta: int, accepted: bool, now: int)
      requires indexes != []
      modifies this
      ensures parameters == old(parameters)[name + "Count" := CountFor(indexes, delta)][name + "Offset" := Offset(indexes)]
      ensures if accepted then curSize == |indexes| + delta && lastRefresh == now
              else curSize == old(curSize) && lastRefresh == old(lastRefresh)
    {
      var size := |indexes|;
      var high := indexes[size - 1];
      var expected := size + delta;
      var count := expected;
      if high != 0 {
        count := count + (high + 1 - size);
      }
      parameters := parameters[name + "Count" := count];
      parameters := parameters[name + "Offset" := high + 1];
      if accepted {
        curSize, lastRefresh := expected, now;
      }
    }
  }
}

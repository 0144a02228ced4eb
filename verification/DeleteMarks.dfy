/**
 Proactive delete marks: DeleteInstances marks an accepted id as Deleting in the
 instance cache of its scale set and in the cluster-wide index; refreshes of either,
 regenerations, registrations and further deletes run beside it.
 */
module DeleteMarks {
  import opened Common
  import opened CaseFold
  import opened Instances
  import opened InstanceCaches
  import opened AzureCaches

  /** One scale set's instance cache, the cluster-wide index, the new indexes that running
      regenerations have collected but not yet stored, and the ids deletes have chosen. */
  datatype Sys = Sys(cache: Cache, index: Contents, pending: seq<Index>, chosen: seq<string>)

  /** The scale set: its settings, its group id, and the VM type of the cluster. */
  datatype Site = Site(settings: Settings, group: string, vmType: VmType)

  datatype Step =
    | ReadCache(read: Read)
    | Invalidate(at: int)
    | Lookup(id: string)                                            // FindForInstance
    | Consider(id: string, read: Read)                              // DeleteInstances looks at an id
    | MarkCache(id: string, read: Read)                             // setInstanceStatusByProviderID
    | MarkIndex(id: string, key: Option<string>)                    // setInstanceStateByProviderID
    | Collect(own: nat, listings: seq<seq<Instance>>, read: Read)   // regenerate asks every group
    | Commit(k: nat)                                                // regenerate stores its index
    | AddGroup(group: Group)
    | RemoveGroup(group: Group)

  const MARK := Status(Deleting, None)

  predicate IsDeleting(i: Instance) {
    i.status.Some? && i.status.value.state == Deleting
  }

  ghost predicate Enabled(site: Site, st: Sys, step: Step) {
    match step
    case MarkIndex(id, key) =>
      if key.Some? then AzureFormat(id) && key.value in st.index.owners && EqualFold(key.value, id)
      else !AzureFormat(id) || !Indexed(st.index, id)
    case Collect(own, listings, read) =>
      var (cache, o) := AfterRead(site.settings, st.cache, read);
      && own < |listings| == |st.index.registered| && EqualFold(st.index.registered[own].id, site.group)
      && !o.err && listings[own] == cache.instances
    case Commit(k) => k < |st.pending|
    case _ => true
  }

  /** DeleteInstances skips an id whose instance is found, without error, to be deleting. */
  predicate Skips(site: Site, c: Cache, id: string, read: Read) {
    var (next, o) := AfterRead(site.settings, c, read);
    var i := FirstWithId(next.instances, id);
    !o.err && i.Some? && IsDeleting(i.value)
  }

  ghost function Apply(site: Site, st: Sys, step: Step): Sys
    requires Enabled(site, st, step)
  {
    match step
    case ReadCache(read) => st.(cache := AfterRead(site.settings, st.cache, read).0)
    case Invalidate(at) => st.(cache := AfterInvalidate(site.settings, st.cache, at))
    case Lookup(id) => st.(index := AfterFind(st.index, site.vmType, id))
    case Consider(id, read) =>
      st.(cache := AfterRead(site.settings, st.cache, read).0,
          chosen := if Skips(site, st.cache, id, read) then st.chosen else st.chosen + [id])
    case MarkCache(id, read) => st.(cache := AfterMark(site.settings, st.cache, id, MARK, read))
    case MarkIndex(id, key) =>
      if key.None? then st else st.(index := st.index.(states := st.index.states[key.value := Deleting]))
    case Collect(own, listings, read) =>
      st.(cache := AfterRead(site.settings, st.cache, read).0,
          pending := st.pending + [IndexOf(st.index.registered, listings)])
    case Commit(k) =>
      st.(index := st.index.(owners := st.pending[k].owners, states := st.pending[k].states, unowned := {}),
          pending := st.pending[..k] + st.pending[k + 1..])
    case AddGroup(g) => st.(index := AfterRegister(st.index, g))
    case RemoveGroup(g) => st.(index := AfterUnregister(st.index, g))
  }

  ghost predicate CanRun(site: Site, st: Sys, steps: seq<Step>)
    decreases |steps|
  {
    steps == [] || (Enabled(site, st, steps[0]) && CanRun(site, Apply(site, st, steps[0]), steps[1..]))
  }

  ghost function Run(site: Site, st: Sys, steps: seq<Step>): Sys
    requires CanRun(site, st, steps)
    decreases |steps|
  {
    if steps == [] then st else Run(site, Apply(site, st, steps[0]), steps[1..])
  }

  // ------------------------------------------------------------ what a list keeps

  /** The listed VM leaves a Deleting mark in place: for a uniform scale set while its state
      is missing or Updating, or when it is Deleting with no extension failure put before
      it; for a flexible one only when it is Deleting. */
  predicate Keeps(s: Settings, flexible: bool, vm: Vm) {
    var state := if vm.properties.None? then None else vm.properties.value.state;
    if flexible then state == Some("Deleting")
    else
      || state.None? || state == Some("Updating")
      || (state == Some("Deleting")
          && !(s.detailedCse && vm.properties.value.view.Some? && vm.properties.value.view.value.cseFailed))
  }

  /** Exactly the VMs that keep the mark are built into a Deleting instance again. */
  lemma KeepsIff(s: Settings, flexible: bool, vm: Vm, instances: seq<Instance>)
    requires ProviderId(vm).Some?
    requires StatusIn(instances, ProviderId(vm).value).Some? && StatusIn(instances, ProviderId(vm).value).value.state == Deleting
    ensures IsDeleting(InstanceOf(s, flexible, vm, instances).value) <==> Keeps(s, flexible, vm)
  {
  }

  /** The list still shows the VM, once up to case, in a state that keeps the mark. */
  ghost predicate StillListed(s: Settings, flexible: bool, vms: seq<Vm>, id: string) {
    && (exists vm <- vms :: ProviderId(vm) == Some(id))
    && (forall vm <- vms :: ProviderId(vm).Some? && EqualFold(ProviderId(vm).value, id) ==>
          ProviderId(vm).value == id && Keeps(s, flexible, vm))
  }

  /** Every instance equal to the id up to case is Deleting. */
  ghost predicate OnlyDeleting(instances: seq<Instance>, id: string) {
    forall i <- instances :: EqualFold(i.id, id) ==> i.id == id && IsDeleting(i)
  }

  ghost predicate CacheMarked(instances: seq<Instance>, id: string) {
    Lists(instances, id) && OnlyDeleting(instances, id)
  }

  lemma BuildKeepsMark(s: Settings, flexible: bool, vms: seq<Vm>, instances: seq<Instance>, id: string)
    requires CacheMarked(instances, id) && StillListed(s, flexible, vms, id)
    ensures CacheMarked(Build(s, flexible, vms, instances), id)
  {
    var built := Build(s, flexible, vms, instances);
    forall i | i in built && EqualFold(i.id, id) ensures i.id == id && IsDeleting(i) {
      BuildIsExact(s, flexible, vms, instances, i);
      var vm :| vm in vms && InstanceOf(s, flexible, vm, instances) == Some(i);
      KeepsIff(s, flexible, vm, instances);
    }
    var vm :| vm in vms && ProviderId(vm) == Some(id);
    BuildIsExact(s, flexible, vms, instances, InstanceOf(s, flexible, vm, instances).value);
  }

  /** If the read brings in a list, the list still shows the VM. */
  ghost predicate GoodRead(site: Site, c: Cache, read: Read, id: string) {
    !Serves(site.settings, c, read) && CanList(site.settings, read.mode) && read.reply.Listed? ==>
      StillListed(site.settings, read.mode.Flexible?, read.reply.vms, id)
  }

  lemma ReadKeepsMark(site: Site, c: Cache, read: Read, id: string)
    requires CacheMarked(c.instances, id) && GoodRead(site, c, read, id)
    ensures CacheMarked(AfterRead(site.settings, c, read).0.instances, id)
  {
    if !Serves(site.settings, c, read) && CanList(site.settings, read.mode) && read.reply.Listed? {
      BuildKeepsMark(site.settings, read.mode.Flexible?, read.reply.vms, c.instances, id);
    }
  }

  // ------------------------------------------------------------------ the index

  /** The index knows the id, and every key equal to it up to case is Deleting. */
  ghost predicate IndexMarked(owners: map<string, Group>, states: map<string, InstanceState>, id: string) {
    && (exists k <- owners :: EqualFold(k, id))
    && KeysDeleting(owners, states, id)
  }

  ghost predicate KeysDeleting(owners: map<string, Group>, states: map<string, InstanceState>, id: string) {
    forall k <- owners :: EqualFold(k, id) ==> k in states && states[k] == Deleting
  }

  lemma {:induction false} AddInstancesKeepsMark(index: Index, g: Group, instances: seq<Instance>, id: string)
    requires KeysDeleting(index.owners, index.states, id) && OnlyDeleting(instances, id)
    ensures var r := AddInstances(index, g, instances); KeysDeleting(r.owners, r.states, id)
    decreases |instances|
  {
    if instances != [] {
      AddInstancesKeepsMark(index, g, instances[..|instances| - 1], id);
    }
  }

  lemma {:induction false} IndexOnlyDeleting(groups: seq<Group>, listings: seq<seq<Instance>>, id: string)
    requires |groups| == |listings| && forall l <- listings :: OnlyDeleting(l, id)
    ensures var r := IndexOf(groups, listings); KeysDeleting(r.owners, r.states, id)
    decreases |groups|
  {
    if groups != [] {
      var n := |groups| - 1;
      IndexOnlyDeleting(groups[..n], listings[..n], id);
      assert listings[n] in listings;
      AddInstancesKeepsMark(IndexOf(groups[..n], listings[..n]), groups[n], listings[n], id);
    }
  }

  lemma CollectKeepsMark(groups: seq<Group>, listings: seq<seq<Instance>>, own: nat, id: string)
    requires own < |groups| == |listings| && CacheMarked(listings[own], id)
    requires forall k :: 0 <= k < |listings| && k != own ==> OnlyDeleting(listings[k], id)
    ensures var r := IndexOf(groups, listings); IndexMarked(r.owners, r.states, id)
  {
    IndexOnlyDeleting(groups, listings, id);
    IndexIsExact(groups, listings, id);
    assert Lists(listings[own], id);
  }

  /** HasInstance then answers that the instance is gone, in whatever order it walks the
      index and in whatever case it is asked. */
  lemma MarkedIsGone(c: Contents, id: string, asked: string, answer: Presence)
    requires IndexMarked(c.owners, c.states, id) && EqualFold(asked, id) && AzureFormat(asked)
    ensures MayAnswer(c, asked, answer) <==> answer == Gone
  {
  }

  // ------------------------------------------------------------------- the mark

  /** Marked in the instance cache and in every index a regeneration is about to store. */
  ghost predicate HalfMarked(st: Sys, id: string) {
    CacheMarked(st.cache.instances, id) && forall x <- st.pending :: IndexMarked(x.owners, x.states, id)
  }

  ghost predicate Marked(st: Sys, id: string) {
    HalfMarked(st, id) && IndexMarked(st.index.owners, st.index.states, id)
  }

  /** What the step must not do: bring in a list that no longer shows the VM, fail to list
      just when the id itself is considered, find the id in another group, or replace or
      remove the group (registering it again with the same bounds changes nothing). */
  ghost predicate Benign(site: Site, st: Sys, step: Step, id: string)
    requires Enabled(site, st, step)
  {
    match step
    case ReadCache(read) => GoodRead(site, st.cache, read, id)
    case Consider(other, read) =>
      GoodRead(site, st.cache, read, id) && (other == id ==> !AfterRead(site.settings, st.cache, read).1.err)
    case MarkCache(_, read) => GoodRead(site, st.cache, read, id)
    case Collect(own, listings, read) =>
      && GoodRead(site, st.cache, read, id)
      && forall k :: 0 <= k < |listings| && k != own ==> forall i <- listings[k] :: !EqualFold(i.id, id)
    case AddGroup(g) => EqualFold(g.id, site.group) ==> AlreadyRegistered(st.index.registered, g)
    case RemoveGroup(g) => !EqualFold(g.id, site.group)
    case _ => true
  }

  ghost predicate BenignRun(site: Site, st: Sys, steps: seq<Step>, id: string)
    requires CanRun(site, st, steps)
    decreases |steps|
  {
    steps == [] || (Benign(site, st, steps[0], id) && BenignRun(site, Apply(site, st, steps[0]), steps[1..], id))
  }

  lemma {:induction false} WithStatusKeepsMark(instances: seq<Instance>, other: string, id: string)
    requires CacheMarked(instances, id)
    ensures CacheMarked(WithStatus(instances, other, MARK), id)
  {
    var k :| 0 <= k < |instances| && instances[k].id == id;
    var r := WithStatus(instances, other, MARK);
    assert r[k] in r && r[k].id == id;
    forall j | 0 <= j < |r| && EqualFold(r[j].id, id) ensures r[j].id == id && IsDeleting(r[j]) {
      WithStatusElement(instances, other, j);
      assert instances[j] in instances;
    }
  }

  lemma {:induction false} WithStatusElement(instances: seq<Instance>, id: string, j: nat)
    requires j < |instances|
    ensures
      var r := WithStatus(instances, id, MARK);
      r[j] == instances[j] || (r[j] == Instance(id, Some(MARK)) && instances[j].id == id)
    decreases |instances|
  {
    if instances[0].id != id && j > 0 {
      WithStatusElement(instances[1..], id, j - 1);
    }
  }

  lemma StepKeepsHalf(site: Site, st: Sys, step: Step, id: string)
    requires HalfMarked(st, id) && Enabled(site, st, step) && Benign(site, st, step, id)
    ensures HalfMarked(Apply(site, st, step), id)
  {
    match step
    case ReadCache(read) => ReadKeepsMark(site, st.cache, read, id);
    case Consider(other, read) => ReadKeepsMark(site, st.cache, read, id);
    case MarkCache(other, read) =>
      ReadKeepsMark(site, st.cache, read, id);
      WithStatusKeepsMark(AfterRead(site.settings, st.cache, read).0.instances, other, id);
    case Collect(own, listings, read) =>
      ReadKeepsMark(site, st.cache, read, id);
      CollectKeepsMark(st.index.registered, listings, own, id);
    case _ =>
  }

  lemma FindMarked(instances: seq<Instance>, id: string)
    requires CacheMarked(instances, id)
    ensures FirstWithId(instances, id).Some? && IsDeleting(FirstWithId(instances, id).value)
  {
  }

  /** One step keeps the mark, and a delete that meets the id does not choose it. */
  lemma StepKeepsMark(site: Site, st: Sys, step: Step, id: string)
    requires Marked(st, id) && Enabled(site, st, step) && Benign(site, st, step, id)
    ensures Marked(Apply(site, st, step), id)
    ensures st.chosen <= Apply(site, st, step).chosen && id !in Apply(site, st, step).chosen[|st.chosen|..]
  {
    StepKeepsHalf(site, st, step, id);
    if step.Consider? && step.id == id {
      ReadKeepsMark(site, st.cache, step.read, id);
      FindMarked(AfterRead(site.settings, st.cache, step.read).0.instances, id);
    }
  }

  lemma {:induction false} RunKeepsHalf(site: Site, st: Sys, steps: seq<Step>, id: string)
    requires HalfMarked(st, id) && CanRun(site, st, steps) && BenignRun(site, st, steps, id)
    ensures HalfMarked(Run(site, st, steps), id)
    decreases |steps|
  {
    if steps != [] {
      StepKeepsHalf(site, st, steps[0], id);
      RunKeepsHalf(site, Apply(site, st, steps[0]), steps[1..], id);
    }
  }

  /** A delete mark survives: over every run whose lists still show the VM as Deleting,
      Updating or without state, the id stays Deleting in both caches, HasInstance keeps
      answering (false, nil) in any case and order, and no later delete sends or counts
      the id again. */
  lemma {:induction false} MarkSurvives(site: Site, st: Sys, steps: seq<Step>, id: string)
    requires Marked(st, id) && CanRun(site, st, steps) && BenignRun(site, st, steps, id)
    ensures
      var end := Run(site, st, steps);
      && Marked(end, id)
      && (forall asked, answer :: EqualFold(asked, id) && AzureFormat(asked) ==>
            (MayAnswer(end.index, asked, answer) <==> answer == Gone))
      && st.chosen <= end.chosen && id !in end.chosen[|st.chosen|..]
    decreases |steps|
  {
    if steps != [] {
      StepKeepsMark(site, st, steps[0], id);
      MarkSurvives(site, Apply(site, st, steps[0]), steps[1..], id);
    } else {
      forall asked, answer | EqualFold(asked, id) && AzureFormat(asked)
        ensures MayAnswer(st.index, asked, answer) <==> answer == Gone
      {
        MarkedIsGone(st.index, id, asked, answer);
      }
    }
  }

  // --------------------------------------------------------------- setting the mark

  ghost predicate CaseDistinctInstances(instances: seq<Instance>) {
    forall i, j :: 0 <= i < j < |instances| ==> !EqualFold(instances[i].id, instances[j].id)
  }

  /** Of instances of which only the k-th is of a kind, the k-th replaced, only it is. */
  lemma OnlyReplaced(instances: seq<Instance>, k: nat, to: Instance, kind: string -> bool)
    requires k < |instances| && forall j :: 0 <= j < |instances| && j != k ==> !kind(instances[j].id)
    ensures forall i <- instances[k := to] :: kind(i.id) ==> i == to
  {
  }

  lemma WithStatusMarks(instances: seq<Instance>, id: string)
    requires CaseDistinctInstances(instances) && Lists(instances, id)
    ensures CacheMarked(WithStatus(instances, id, MARK), id)
  {
    var k :| 0 <= k < |instances| && instances[k].id == id;
    WithStatusAt(instances, k, id, MARK);
    var to := Instance(id, Some(MARK));
    forall j | 0 <= j < |instances| && j != k ensures !EqualFold(instances[j].id, id) {
      OtherClass(instances, j, k);
    }
    OnlyReplaced(instances, k, to, x => EqualFold(x, id));
    var marked := instances[k := to];
    assert marked[k] in marked;
  }

  lemma OtherClass(instances: seq<Instance>, j: nat, k: nat)
    requires CaseDistinctInstances(instances) && j < |instances| && k < |instances| && j != k
    ensures !EqualFold(instances[j].id, instances[k].id)
  {
    if j > k {
      assert !EqualFold(instances[k].id, instances[j].id);
    }
  }

  /** Marking an id of the instance cache, while no regeneration has an older answer in hand. */
  lemma MarkCacheMarks(site: Site, st: Sys, id: string, read: Read)
    requires st.pending == []
    requires
      var instances := AfterRead(site.settings, st.cache, read).0.instances;
      CaseDistinctInstances(instances) && Lists(instances, id)
    ensures HalfMarked(Apply(site, st, MarkCache(id, read)), id)
  {
    var instances := AfterRead(site.settings, st.cache, read).0.instances;
    WithStatusMarks(instances, id);
    var after := Apply(site, st, MarkCache(id, read));
    assert after.cache.instances == WithStatus(instances, id, MARK) && after.pending == [];
  }

  lemma OneKey(keys: set<string>, a: string, b: string, id: string)
    requires CaseDistinct(keys) && a in keys && b in keys && EqualFold(a, id) && EqualFold(b, id)
    ensures a == b
  {
    assert EqualFold(a, b);
  }

  lemma MarkIndexMarks(site: Site, st: Sys, id: string, key: string)
    requires HalfMarked(st, id) && Enabled(site, st, MarkIndex(id, Some(key))) && CaseDistinct(st.index.owners.Keys)
    ensures Marked(Apply(site, st, MarkIndex(id, Some(key))), id)
  {
    forall k | k in st.index.owners && EqualFold(k, id) ensures k == key {
      OneKey(st.index.owners.Keys, k, key, id);
    }
  }

  /** From the two marks on: `during` runs between them, `after` from then on. */
  lemma DeletedIdStaysGone(site: Site, st: Sys, id: string, read: Read, during: seq<Step>, key: string, after: seq<Step>)
    requires st.pending == []
    requires
      var instances := AfterRead(site.settings, st.cache, read).0.instances;
      CaseDistinctInstances(instances) && Lists(instances, id)
    requires
      var half := Apply(site, st, MarkCache(id, read));
      && CanRun(site, half, during) && BenignRun(site, half, during, id)
      && var mid := Run(site, half, during);
      && Enabled(site, mid, MarkIndex(id, Some(key))) && CaseDistinct(mid.index.owners.Keys)
      && var marked := Apply(site, mid, MarkIndex(id, Some(key)));
      && CanRun(site, marked, after) && BenignRun(site, marked, after, id)
    ensures
      var mid := Run(site, Apply(site, st, MarkCache(id, read)), during);
      var end := Run(site, Apply(site, mid, MarkIndex(id, Some(key))), after);
      && FirstWithId(end.cache.instances, id).Some? && IsDeleting(FirstWithId(end.cache.instances, id).value)
      && (forall asked, answer :: EqualFold(asked, id) && AzureFormat(asked) ==>
            (MayAnswer(end.index, asked, answer) <==> answer == Gone))
      && mid.chosen <= end.chosen && id !in end.chosen[|mid.chosen|..]
  {
    var half := Apply(site, st, MarkCache(id, read));
    MarkCacheMarks(site, st, id, read);
    RunKeepsHalf(site, half, during, id);
    var mid := Run(site, half, during);
    MarkIndexMarks(site, mid, id, key);
    var marked := Apply(site, mid, MarkIndex(id, Some(key)));
    MarkSurvives(site, marked, after, id);
    FindMarked(Run(site, marked, after).cache.instances, id);
  }

  // ------------------------------------------------------------- losing the mark

  ghost predicate OnlyInstance(instances: seq<Instance>, i: Instance) {
    forall j <- instances :: EqualFold(j.id, i.id) ==> j == i
  }

  /** No key but i's own equals it up to case, and its state is i's. */
  ghost predicate StateIs(index: Index, i: Instance) {
    && index.states.Keys <= index.owners.Keys
    && (forall k <- index.owners :: EqualFold(k, i.id) ==> k == i.id)
    && (i.id in index.owners ==>
          if i.status.Some? then i.id in index.states && index.states[i.id] == i.status.value.state
          else i.id !in index.states)
  }

  lemma {:induction false} AddInstancesState(index: Index, g: Group, instances: seq<Instance>, i: Instance)
    requires StateIs(index, i) && OnlyInstance(instances, i)
    ensures StateIs(AddInstances(index, g, instances), i)
    decreases |instances|
  {
    if instances != [] {
      AddInstancesState(index, g, instances[..|instances| - 1], i);
    }
  }

  lemma {:induction false} IndexState(groups: seq<Group>, listings: seq<seq<Instance>>, i: Instance)
    requires |groups| == |listings| && forall l <- listings :: OnlyInstance(l, i)
    ensures StateIs(IndexOf(groups, listings), i)
    decreases |groups|
  {
    if groups != [] {
      var n := |groups| - 1;
      IndexState(groups[..n], listings[..n], i);
      assert listings[n] in listings;
      AddInstancesState(IndexOf(groups[..n], listings[..n]), groups[n], listings[n], i);
    }
  }

  ghost predicate NoCommit(steps: seq<Step>) {
    forall step <- steps :: !step.Commit?
  }

  lemma {:induction false} PendingGrows(site: Site, st: Sys, steps: seq<Step>)
    requires CanRun(site, st, steps) && NoCommit(steps)
    ensures st.pending <= Run(site, st, steps).pending
    decreases |steps|
  {
    if steps != [] {
      assert steps[0] in steps;
      PendingGrows(site, Apply(site, st, steps[0]), steps[1..]);
    }
  }

  /** A regeneration that asked the groups and stores its answer only after other steps,
      among them any marks: HasInstance then reports the instance gone exactly when it was
      Deleting already when the group was asked, whatever was marked since. */
  lemma StoredAfterMarkIff(site: Site, st: Sys, own: nat, listings: seq<seq<Instance>>, asked: Read,
                           i: Instance, steps: seq<Step>, answer: Presence)
    requires Enabled(site, st, Collect(own, listings, asked)) && i in listings[own] && AzureFormat(i.id)
    requires forall l <- listings :: OnlyInstance(l, i)
    requires CanRun(site, Apply(site, st, Collect(own, listings, asked)), steps) && NoCommit(steps)
    ensures
      var late := Run(site, Apply(site, st, Collect(own, listings, asked)), steps);
      && Enabled(site, late, Commit(|st.pending|))
      && (MayAnswer(Apply(site, late, Commit(|st.pending|)).index, i.id, answer) <==>
            answer == if IsDeleting(i) then Gone else Present)
  {
    var index := IndexOf(st.index.registered, listings);
    PendingGrows(site, Apply(site, st, Collect(own, listings, asked)), steps);
    assert Apply(site, st, Collect(own, listings, asked)).pending[|st.pending|] == index;
    IndexState(st.index.registered, listings, i);
    IndexIsExact(st.index.registered, listings, i.id);
    assert Lists(listings[own], i.id);
    StateDecides(Apply(site, Run(site, Apply(site, st, Collect(own, listings, asked)), steps), Commit(|st.pending|)).index, i, answer);
  }

  lemma StateDecides(c: Contents, i: Instance, answer: Presence)
    requires StateIs(Index(c.owners, c.states), i) && i.id in c.owners && AzureFormat(i.id)
    ensures MayAnswer(c, i.id, answer) <==> answer == if IsDeleting(i) then Gone else Present
  {
  }
}

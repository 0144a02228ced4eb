/**
 azureCache: the registered node groups, the index from instance ids to groups,
 the instance states kept beside it, and the negative cache of unowned ids.
 */
module AzureCaches {
  import opened Common
  import opened CaseFold
  import opened Instances

  datatype Group = Group(id: string, minSize: int, maxSize: int)

  /** A listed scale set: its orchestration mode and the options in its tags. */
  datatype ScaleSetInfo = ScaleSetInfo(flexible: bool, options: map<string, string>)

  datatype VmType = VmssType | StandardType | OtherType

  const VM_PART := "/providers/Microsoft.Compute/virtualMachines/"
  const VM_DOT := 20

  /** The contents of the cache. */
  datatype Contents = Contents(
    scaleSets: map<string, ScaleSetInfo>,
    vmsPools: set<string>,
    registered: seq<Group>,
    owners: map<string, Group>,           // instanceToNodeGroup
    states: map<string, InstanceState>,   // instanceStates
    unowned: set<string>,                 // unownedInstances
    options: map<string, map<string, string>>)

  /** What the resource lists of fetchAzureResources give. */
  datatype Resources = Resources(scaleSets: Option<map<string, ScaleSetInfo>>, vmsListed: bool, vmsPools: Option<set<string>>)

  // ------------------------------------------------------------- the index

  datatype Index = Index(owners: map<string, Group>, states: map<string, InstanceState>)

  function AddInstance(index: Index, g: Group, i: Instance): Index {
    Index(index.owners[i.id := g],
          if i.status.Some? then index.states[i.id := i.status.value.state] else index.states)
  }

  function AddInstances(index: Index, g: Group, instances: seq<Instance>): Index
    decreases |instances|
  {
    if instances == [] then index
    else AddInstance(AddInstances(index, g, instances[..|instances| - 1]), g, instances[|instances| - 1])
  }

  function IndexOf(groups: seq<Group>, listings: seq<seq<Instance>>): Index
    requires |groups| == |listings|
    decreases |groups|
  {
    if groups == [] then Index(map[], map[])
    else
      var n := |groups| - 1;
      AddInstances(IndexOf(groups[..n], listings[..n]), groups[n], listings[n])
  }

  ghost predicate Lists(instances: seq<Instance>, id: string) {
    exists i <- instances :: i.id == id
  }

  lemma {:induction false} AddInstancesKeys(index: Index, g: Group, instances: seq<Instance>, id: string)
    ensures
      var r := AddInstances(index, g, instances);
      && (id in r.owners <==> id in index.owners || Lists(instances, id))
      && (Lists(instances, id) ==> r.owners[id] == g)
      && (!Lists(instances, id) && id in index.owners ==> r.owners[id] == index.owners[id])
      && (index.states.Keys <= index.owners.Keys ==> r.states.Keys <= r.owners.Keys)
    decreases |instances|
  {
    if instances != [] {
      var n := |instances| - 1;
      AddInstancesKeys(index, g, instances[..n], id);
      assert instances == instances[..n] + [instances[n]];
    }
  }

  /** The index holds exactly the listed ids, each owned by a group that lists it, and
      every id with a state has an owner. */
  lemma {:induction false} IndexIsExact(groups: seq<Group>, listings: seq<seq<Instance>>, id: string)
    requires |groups| == |listings|
    ensures
      var r := IndexOf(groups, listings);
      && (id in r.owners <==> exists k :: 0 <= k < |groups| && Lists(listings[k], id))
      && (id in r.owners ==> exists k :: 0 <= k < |groups| && Lists(listings[k], id) && r.owners[id] == groups[k])
      && r.states.Keys <= r.owners.Keys
    decreases |groups|
  {
    if groups != [] {
      var n := |groups| - 1;
      IndexIsExact(groups[..n], listings[..n], id);
      var before := IndexOf(groups[..n], listings[..n]);
      AddInstancesKeys(before, groups[n], listings[n], id);
      if id in before.owners {
        var k :| 0 <= k < n && Lists(listings[..n][k], id) && before.owners[id] == groups[..n][k];
        assert Lists(listings[k], id) && before.owners[id] == groups[k];
      }
      if exists k :: 0 <= k < |groups| && Lists(listings[k], id) {
        var k :| 0 <= k < |groups| && Lists(listings[k], id);
        if k < n {
          assert Lists(listings[..n][k], id);
        }
      }
    }
  }

  // ------------------------------------------------------ registered groups

  ghost predicate CaseDistinctGroups(gs: seq<Group>) {
    forall i, j :: 0 <= i < j < |gs| ==> !EqualFold(gs[i].id, gs[j].id)
  }

  /** The position of the first group whose id equals `id` up to case. */
  function FindGroup(gs: seq<Group>, id: string): (r: Option<nat>)
    ensures r.Some? ==> r.value < |gs| && EqualFold(gs[r.value].id, id)
    ensures forall i :: 0 <= i < (if r.Some? then r.value else |gs|) ==> !EqualFold(gs[i].id, id)
    decreases |gs|
  {
    if gs == [] then None
    else if EqualFold(gs[0].id, id) then Some(0)
    else
      var r := FindGroup(gs[1..], id);
      assert forall i :: 0 < i < |gs| ==> gs[i] == gs[1..][i - 1];
      if r.Some? then Some(r.value + 1) else None
  }

  predicate SameBounds(a: Group, b: Group) {
    a.minSize == b.minSize && a.maxSize == b.maxSize
  }

  predicate AlreadyRegistered(gs: seq<Group>, g: Group) {
    var i := FindGroup(gs, g.id);
    i.Some? && SameBounds(gs[i.value], g)
  }

  function AfterRegister(c: Contents, g: Group): Contents {
    var i := FindGroup(c.registered, g.id);
    if AlreadyRegistered(c.registered, g) then c
    else c.(registered := if i.Some? then c.registered[i.value := g] else c.registered + [g], unowned := {})
  }

  /** Registering a group whose bounds are those of the registered group of its name, whatever
      the case, changes nothing; otherwise it takes that group's place, or is added, and the
      negative cache is emptied. */
  lemma RegisterEffect(c: Contents, g: Group, x: Group)
    requires CaseDistinctGroups(c.registered)
    ensures
      var after := AfterRegister(c, g);
      if exists h <- c.registered :: EqualFold(h.id, g.id) && h.minSize == g.minSize && h.maxSize == g.maxSize then after == c
      else
        && after == c.(registered := after.registered, unowned := {})
        && (x in after.registered <==> x == g || (x in c.registered && !EqualFold(x.id, g.id)))
        && |after.registered| == |c.registered| + if exists h <- c.registered :: EqualFold(h.id, g.id) then 0 else 1
  {
    var at := FindGroup(c.registered, g.id);
    if at.Some? {
      assert c.registered[at.value] in c.registered;
      var after := c.registered[at.value := g];
      assert after[at.value] == g;
      if x in c.registered && !EqualFold(x.id, g.id) {
        var k :| 0 <= k < |c.registered| && c.registered[k] == x;
        assert after[k] == x;
      }
    }
  }

  function Without(gs: seq<Group>, id: string): seq<Group>
    decreases |gs|
  {
    if gs == [] then []
    else
      var n := |gs| - 1;
      Without(gs[..n], id) + (if EqualFold(gs[n].id, id) then [] else [gs[n]])
  }

  function AfterUnregister(c: Contents, g: Group): Contents {
    c.(registered := Without(c.registered, g.id))
  }

  // ----------------------------------------------------------- regeneration

  function AfterFetch(c: Contents, r: Resources): Contents {
    if r.scaleSets.None? then c
    else
      var c' := c.(scaleSets := r.scaleSets.value);
      if !r.vmsListed || r.vmsPools.None? then c' else c'.(vmsPools := r.vmsPools.value)
  }

  predicate Fetched(r: Resources) {
    r.scaleSets.Some? && r.vmsListed && r.vmsPools.Some?
  }

  predicate AllListed(listings: seq<Result<seq<Instance>>>) {
    forall l <- listings :: l.Ok?
  }

  function Listed(listings: seq<Result<seq<Instance>>>): seq<seq<Instance>>
    requires AllListed(listings)
  {
    seq(|listings|, i requires 0 <= i < |listings| => listings[i].value)
  }

  /** regenerate, given what each registered group's Nodes() answers. */
  function AfterRegenerate(c: Contents, r: Resources, listings: seq<Result<seq<Instance>>>): (Contents, bool)
    requires |listings| == |c.registered|
  {
    var c' := AfterFetch(c, r);
    if !Fetched(r) || !AllListed(listings) then (c', false)
    else
      var index := IndexOf(c.registered, Listed(listings));
      (c'.(owners := index.owners, states := index.states, unowned := {},
           options := map name | name in c'.scaleSets :: c'.scaleSets[name].options), true)
  }

  /** On an error the index, the states, the options and the negative cache stay as they
      were; on success the index is exactly what the registered groups list. */
  lemma RegenerateAllOrNothing(c: Contents, r: Resources, listings: seq<Result<seq<Instance>>>, id: string)
    requires |listings| == |c.registered|
    ensures
      var (after, ok) := AfterRegenerate(c, r, listings);
      && after.registered == c.registered
      && (ok <==> r.scaleSets.Some? && r.vmsListed && r.vmsPools.Some? && forall l <- listings :: l.Ok?)
      && after.scaleSets == (if r.scaleSets.Some? then r.scaleSets.value else c.scaleSets)
      && after.vmsPools == (if r.scaleSets.Some? && r.vmsListed && r.vmsPools.Some? then r.vmsPools.value else c.vmsPools)
      && (ok ==> after.options.Keys == after.scaleSets.Keys &&
                 forall name <- after.scaleSets :: after.options[name] == after.scaleSets[name].options)
      && (!ok ==> after.owners == c.owners && after.states == c.states && after.options == c.options && after.unowned == c.unowned)
      && (ok ==>
            && after.unowned == {} && after.states.Keys <= after.owners.Keys
            && (id in after.owners <==>
                  exists k :: 0 <= k < |c.registered| && listings[k].Ok? && Lists(listings[k].value, id))
            && (id in after.owners ==>
                  exists k :: 0 <= k < |c.registered| && listings[k].Ok? && Lists(listings[k].value, id)
                              && after.owners[id] == c.registered[k]))
  {
    if Fetched(r) && AllListed(listings) {
      IndexIsExact(c.registered, Listed(listings), id);
      var after := AfterRegenerate(c, r, listings).0;
      if id in after.owners {
        var k :| 0 <= k < |c.registered| && Lists(Listed(listings)[k], id) && after.owners[id] == c.registered[k];
        assert listings[k].Ok? && Lists(listings[k].value, id);
      }
      if k :| 0 <= k < |c.registered| && listings[k].Ok? && Lists(listings[k].value, id) {
        assert Lists(Listed(listings)[k], id);
      }
    }
  }

  // ------------------------------------------------------------------ lookups

  datatype Presence = NotAnId | Gone | Present | Unknown

  ghost predicate CaseDistinct(keys: set<string>) {
    forall a, b :: a in keys && b in keys && EqualFold(a, b) ==> a == b
  }

  /** The answers HasInstance may give, over all iteration orders of the index. */
  ghost predicate MayAnswer(c: Contents, id: string, answer: Presence) {
    if !AzureFormat(id) then answer == NotAnId
    else
      || (answer == Unknown && forall k <- c.owners :: !EqualFold(k, id))
      || (exists k <- c.owners :: EqualFold(k, id) && answer == StateAnswer(c, k))
  }

  function StateAnswer(c: Contents, key: string): Presence {
    if key in c.states && c.states[key] == Deleting then Gone else Present
  }

  /** setInstanceStateByProviderID marks one matching key, whichever is met first. */
  ghost predicate MayMark(c: Contents, id: string, state: InstanceState, after: Contents) {
    if !AzureFormat(id) then after == c
    else
      || (after == c && forall k <- c.owners :: !EqualFold(k, id))
      || (exists k <- c.owners :: EqualFold(k, id) && after == c.(states := c.states[k := state]))
  }

  /** The key that stands for an id decides the answer. */
  lemma AnswerOfKey(c: Contents, id: string, k: string, answer: Presence)
    requires CaseDistinct(c.owners.Keys) && AzureFormat(id) && k in c.owners && EqualFold(k, id)
    ensures MayAnswer(c, id, answer) <==> answer == StateAnswer(c, k)
  {
  }

  ghost predicate Indexed(c: Contents, id: string) {
    exists k <- c.owners :: EqualFold(k, id)
  }

  lemma AnswerUnlessIndexed(c: Contents, id: string, answer: Presence)
    requires AzureFormat(id) && !Indexed(c, id)
    ensures MayAnswer(c, id, answer) <==> answer == Unknown
  {
  }

  /** With case-distinct keys, HasInstance gives one answer for all ids equal up to case,
      whatever the iteration order. */
  lemma LookupIgnoresCaseAndOrder(c: Contents, a: string, b: string, ra: Presence, rb: Presence)
    requires CaseDistinct(c.owners.Keys) && AzureFormat(a) && AzureFormat(b) && EqualFold(a, b)
    requires MayAnswer(c, a, ra) && MayAnswer(c, b, rb)
    ensures ra == rb
  {
    if Indexed(c, a) {
      var k :| k in c.owners && EqualFold(k, a);
      AnswerOfKey(c, a, k, ra);
      AnswerOfKey(c, b, k, rb);
    } else {
      AnswerUnlessIndexed(c, a, ra);
      AnswerUnlessIndexed(c, b, rb);
    }
  }

  lemma AnswerAfterMark(c: Contents, k: string, other: string, answer: Presence)
    requires CaseDistinct(c.owners.Keys) && AzureFormat(other) && k in c.owners && !EqualFold(k, other)
    ensures MayAnswer(c.(states := c.states[k := Deleting]), other, answer) <==> MayAnswer(c, other, answer)
  {
  }

  /** Marking an id changes the answer for exactly the ids equal to it up to case. */
  lemma MarkIsLocal(c: Contents, id: string, after: Contents, other: string, answer: Presence)
    requires CaseDistinct(c.owners.Keys) && AzureFormat(id) && AzureFormat(other)
    requires MayMark(c, id, Deleting, after)
    ensures !EqualFold(id, other) ==> (MayAnswer(after, other, answer) <==> MayAnswer(c, other, answer))
    ensures EqualFold(id, other) ==>
      (MayAnswer(after, other, answer) <==> answer == if Indexed(c, id) then Gone else Unknown)
  {
    if Indexed(c, id) {
      var k :| k in c.owners && EqualFold(k, id) && after == c.(states := c.states[k := Deleting]);
      if EqualFold(id, other) {
        AnswerOfKey(after, other, k, answer);
      } else {
        AnswerAfterMark(c, k, other, answer);
      }
    } else if EqualFold(id, other) {
      AnswerUnlessIndexed(c, other, answer);
    }
  }

  // ------------------------------------------------------- the negative cache

  predicate AllUniform(c: Contents) {
    forall name <- c.scaleSets :: !c.scaleSets[name].flexible
  }

  /** virtualMachineRE at a position; the dot in it stands for any character. */
  predicate VmPartAt(id: string, k: nat) {
    && k + |VM_PART| < |id|
    && id[k..k + VM_DOT] == VM_PART[..VM_DOT] && id[k + VM_DOT + 1..k + |VM_PART|] == VM_PART[VM_DOT + 1..]
  }

  /** virtualMachineRE. */
  predicate IsVmId(id: string) {
    AZURE_PREFIX <= id && exists k | |AZURE_PREFIX| <= k < |id| :: VmPartAt(id, k)
  }

  /** The ids FindForInstance leaves out without looking at the index. */
  predicate Omitted(c: Contents, t: VmType, inst: string) {
    || (t.VmssType? && c.vmsPools == {} && AllUniform(c) && IsVmId(inst))
    || (t.StandardType? && !IsVmId(inst))
  }

  function AfterFind(c: Contents, t: VmType, id: string): Contents {
    var inst := Normalize(id);
    if inst.Ok? && Omitted(c, t, inst.value) then c.(unowned := c.unowned + {inst.value}) else c
  }

  /** The answers FindForInstance may give when unownedInstances is ignored. */
  ghost predicate MayFind(c: Contents, t: VmType, id: string, r: Result<Option<Group>>) {
    var inst := Normalize(id);
    if inst.Err? then r == Err
    else if Omitted(c, t, inst.value) then r == Ok(None)
    else r.Ok? && MayOwn(c, inst.value, r.value)
  }

  /** What a walk over the index may find for an id. */
  ghost predicate MayOwn(c: Contents, inst: string, group: Option<Group>) {
    || (group.None? && !Indexed(c, inst))
    || (exists k <- c.owners :: EqualFold(k, inst) && group == Some(c.owners[k]))
  }

  /** The answers it may give with the negative cache in front. */
  ghost predicate MayFindCached(c: Contents, t: VmType, id: string, r: Result<Option<Group>>) {
    var inst := Normalize(id);
    if inst.Ok? && inst.value in c.unowned then r == Ok(None) else MayFind(c, t, id, r)
  }

  /** The negative cache changes no answer for an id exactly when the id is not in it, is
      left out anyway, or is not in the index. */
  lemma TransparentIff(c: Contents, t: VmType, id: string)
    requires AzureFormat(id)
    ensures
      var inst := Normalize(id).value;
      (forall r :: MayFindCached(c, t, id, r) <==> MayFind(c, t, id, r)) <==>
        inst !in c.unowned || Omitted(c, t, inst) || !Indexed(c, inst)
  {
    var inst := Normalize(id).value;
    if inst in c.unowned && !Omitted(c, t, inst) && Indexed(c, inst) {
      var k :| k in c.owners && EqualFold(k, inst);
      var r := Ok(Some(c.owners[k]));
      assert MayOwn(c, inst, r.value);
      assert MayFind(c, t, id, r) && !MayFindCached(c, t, id, r);
    }
  }

  // ------------------------------------------------------------- what is found

  /** The id names a virtual machine: after azure:// comes, somewhere, the provider text, any
      character standing for its dot, and something after it. */
  ghost predicate NamesVm(id: string) {
    && |id| >= 8 && id[..8] == "azure://"
    && exists k :: 8 <= k && VmTextAt(id, k)
  }

  ghost predicate VmTextAt(id: string, k: nat) {
    k + 45 < |id| && id[k..k + 20] == "/providers/Microsoft" && id[k + 21..k + 45] == "Compute/virtualMachines/"
  }

  lemma VmTextIff(id: string, k: nat)
    ensures VmPartAt(id, k) <==> VmTextAt(id, k)
  {
    assert VM_PART[..20] == "/providers/Microsoft" && VM_PART[21..] == "Compute/virtualMachines/" && |VM_PART| == 45;
  }

  lemma NamesVmIff(id: string)
    ensures IsVmId(id) <==> NamesVm(id)
  {
    if k :| |AZURE_PREFIX| <= k < |id| && VmPartAt(id, k) {
      VmTextIff(id, k);
    }
    if k :| 8 <= k && VmTextAt(id, k) {
      VmTextIff(id, k);
    }
  }

  /** The owner of some key equal to the id up to case, if there is one. */
  ghost predicate OwnerFound(owners: map<string, Group>, inst: string, group: Option<Group>) {
    if group.None? then forall k <- owners :: !EqualFold(k, inst)
    else exists k <- owners :: EqualFold(k, inst) && owners[k] == group.value
  }

  /** The kinds of id that are unowned without a look at the index: on a standard cluster what
      is no virtual machine; on a VMSS cluster without VMs pools or flexible scale sets what is. */
  ghost predicate UnownedByKind(c: Contents, t: VmType, inst: string) {
    match t
    case StandardType => !NamesVm(inst)
    case VmssType => NamesVm(inst) && c.vmsPools == {} && forall name <- c.scaleSets :: !c.scaleSets[name].flexible
    case OtherType => false
  }

  /** With an empty negative cache FindForInstance fails exactly for ids not in Azure format;
      an id unowned by its kind has no group and is remembered; any other gets an owner from
      the index, if it has one, and nothing is remembered. */
  lemma FindAnswers(c: Contents, t: VmType, id: string, r: Result<Option<Group>>)
    requires MayFindCached(c, t, id, r)
    ensures r.Err? <==> !AzureFormat(id)
    ensures c.unowned == {} && r.Ok? ==>
      var inst := Normalize(id).value;
      if UnownedByKind(c, t, inst) then r.value.None? && AfterFind(c, t, id) == c.(unowned := {inst})
      else OwnerFound(c.owners, inst, r.value) && AfterFind(c, t, id) == c
  {
    if AzureFormat(id) {
      NamesVmIff(Normalize(id).value);
    }
  }

  ghost predicate NegativeOk(c: Contents, t: VmType) {
    forall u <- c.unowned :: Omitted(c, t, u)
  }

  /** The cache at mutex boundaries: a regeneration publishes the resource lists in one step
      (or ends there, if it fails) and stores the index of what its groups answered in
      another; anything may happen in between. */
  datatype CacheStep =
    | Find(id: string)
    | Register(group: Group)
    | Unregister(group: Group)
    | FetchLists(resources: Resources)
    | StoreIndex(groups: seq<Group>, listings: seq<seq<Instance>>)
    | Mark(key: string, state: InstanceState)
    | StoreScaleSet(name: string, info: ScaleSetInfo)

  predicate CanStep(c: Contents, step: CacheStep) {
    match step
    case StoreIndex(groups, listings) => |groups| == |listings|
    case Mark(key, _) => key in c.owners
    case _ => true
  }

  function AfterStore(c: Contents, groups: seq<Group>, listings: seq<seq<Instance>>): Contents
    requires |groups| == |listings|
  {
    var index := IndexOf(groups, listings);
    c.(owners := index.owners, states := index.states, unowned := {},
       options := map name | name in c.scaleSets :: c.scaleSets[name].options)
  }

  function CacheApply(c: Contents, t: VmType, step: CacheStep): Contents
    requires CanStep(c, step)
  {
    match step
    case Find(id) => AfterFind(c, t, id)
    case Register(g) => AfterRegister(c, g)
    case Unregister(g) => AfterUnregister(c, g)
    case FetchLists(r) => AfterFetch(c, r)
    case StoreIndex(groups, listings) => AfterStore(c, groups, listings)
    case Mark(key, state) => c.(states := c.states[key := state])
    case StoreScaleSet(name, info) => c.(scaleSets := c.scaleSets[name := info])
  }

  predicate CacheCanRun(c: Contents, t: VmType, steps: seq<CacheStep>)
    decreases |steps|
  {
    steps == [] || (CanStep(c, steps[0]) && CacheCanRun(CacheApply(c, t, steps[0]), t, steps[1..]))
  }

  function CacheRun(c: Contents, t: VmType, steps: seq<CacheStep>): Contents
    requires CacheCanRun(c, t, steps)
    decreases |steps|
  {
    if steps == [] then c else CacheRun(CacheApply(c, t, steps[0]), t, steps[1..])
  }

  /** A regeneration with nothing in between is these two steps, or the first if it fails. */
  lemma RegenerateIsTwoSteps(c: Contents, t: VmType, r: Resources, listings: seq<Result<seq<Instance>>>)
    requires |listings| == |c.registered|
    ensures
      var (after, ok) := AfterRegenerate(c, r, listings);
      var fetched := CacheApply(c, t, FetchLists(r));
      if ok then after == CacheApply(fetched, t, StoreIndex(c.registered, Listed(listings))) else after == fetched
  {
  }

  /** Registered ids are distinct up to case, and only indexed ids have a state. */
  ghost predicate CacheInv(c: Contents) {
    CaseDistinctGroups(c.registered) && c.states.Keys <= c.owners.Keys
  }

  lemma {:induction false} WithoutIsFilter(gs: seq<Group>, id: string)
    requires CaseDistinctGroups(gs)
    ensures CaseDistinctGroups(Without(gs, id))
    ensures forall g :: g in Without(gs, id) <==> g in gs && !EqualFold(g.id, id)
    decreases |gs|
  {
    if gs != [] {
      var n := |gs| - 1;
      WithoutIsFilter(gs[..n], id);
      assert gs == gs[..n] + [gs[n]];
      var kept := Without(gs[..n], id);
      forall i | 0 <= i < |kept| ensures !EqualFold(kept[i].id, gs[n].id) {
        assert kept[i] in gs[..n];
      }
    }
  }

  lemma CacheStepKeepsInv(c: Contents, t: VmType, step: CacheStep)
    requires CacheInv(c) && CanStep(c, step)
    ensures CacheInv(CacheApply(c, t, step))
  {
    match step
    case Register(g) =>
    case Unregister(g) => WithoutIsFilter(c.registered, g.id);
    case StoreIndex(groups, listings) => IndexIsExact(groups, listings, "");
    case _ =>
  }

  lemma {:induction false} CacheRunKeepsInv(c: Contents, t: VmType, steps: seq<CacheStep>)
    requires CacheInv(c) && CacheCanRun(c, t, steps)
    ensures CacheInv(CacheRun(c, t, steps))
    decreases |steps|
  {
    if steps != [] {
      CacheStepKeepsInv(c, t, steps[0]);
      CacheRunKeepsInv(CacheApply(c, t, steps[0]), t, steps[1..]);
    }
  }

  // ------------------------------------------------- when the negative cache is right

  /** New resource lists leave the negative cache right: it is empty, plays no part, or the
      lists show only uniform scale sets and no VMs pools. */
  predicate Harmless(c: Contents, t: VmType, step: CacheStep)
    requires CanStep(c, step)
  {
    var next := CacheApply(c, t, step);
    step.FetchLists? || step.StoreScaleSet? ==>
      c.unowned == {} || !t.VmssType? || (AllUniform(next) && next.vmsPools == {})
  }

  /** No harmful lists came in since the negative cache was last known to be right. */
  predicate Right(c: Contents, t: VmType, steps: seq<CacheStep>, right: bool)
    requires CacheCanRun(c, t, steps)
    decreases |steps|
  {
    if steps == [] then right
    else
      var next := CacheApply(c, t, steps[0]);
      Right(next, t, steps[1..], next.unowned == {} || (right && Harmless(c, t, steps[0])))
  }

  lemma StepKeepsNegative(c: Contents, t: VmType, step: CacheStep)
    requires NegativeOk(c, t) && CanStep(c, step) && Harmless(c, t, step)
    ensures NegativeOk(CacheApply(c, t, step), t)
  {
    var next := CacheApply(c, t, step);
    forall u | u in next.unowned ensures Omitted(next, t, u) {
      assert u in c.unowned ==> Omitted(c, t, u);
    }
  }

  lemma {:induction false} RunKeepsNegative(c: Contents, t: VmType, steps: seq<CacheStep>, right: bool)
    requires right ==> NegativeOk(c, t)
    requires CacheCanRun(c, t, steps) && Right(c, t, steps, right)
    ensures NegativeOk(CacheRun(c, t, steps), t)
    decreases |steps|
  {
    if steps != [] {
      var next := CacheApply(c, t, steps[0]);
      if right && Harmless(c, t, steps[0]) {
        StepKeepsNegative(c, t, steps[0]);
      }
      RunKeepsNegative(next, t, steps[1..], next.unowned == {} || (right && Harmless(c, t, steps[0])));
    }
  }

  /** In every state reachable by lookups, registrations, marks and regenerations, complete or
      not, FindForInstance answers as it would without the negative cache, unless harmful
      lists came in and no index was stored, nor any group registered anew, since. */
  lemma NegativeCacheIsTransparent(c: Contents, t: VmType, steps: seq<CacheStep>, id: string, r: Result<Option<Group>>)
    requires c.unowned == {} && CacheCanRun(c, t, steps) && Right(c, t, steps, true)
    ensures
      var end := CacheRun(c, t, steps);
      MayFindCached(end, t, id, r) <==> MayFind(end, t, id, r)
  {
    RunKeepsNegative(c, t, steps, true);
  }

  /** Lists that came in without an index, as a failed or half-done regeneration leaves them:
      the negative cache changes no answer for an id if and only if the id is not in it or not
      in the index, or it plays no part, or the lists are harmless. */
  lemma FetchTransparentIff(c: Contents, t: VmType, r: Resources, id: string)
    requires NegativeOk(c, t) && AzureFormat(id)
    ensures
      var after := AfterFetch(c, r);
      var inst := Normalize(id).value;
      (forall answer :: MayFindCached(after, t, id, answer) <==> MayFind(after, t, id, answer)) <==>
        inst !in c.unowned || !Indexed(c, inst) || !t.VmssType? || (AllUniform(after) && after.vmsPools == {})
  {
    var inst := Normalize(id).value;
    TransparentIff(AfterFetch(c, r), t, id);
    if inst in c.unowned {
      assert Omitted(c, t, inst);
    }
  }

  // ------------------------------------------------------------- the class

  class AzureCache {
    var scaleSets: map<string, ScaleSetInfo>
    var vmsPools: set<string>
    var registered: seq<Group>
    var owners: map<string, Group>
    var states: map<string, InstanceState>
    var unowned: set<string>
    var options: map<string, map<string, string>>

    function View(): Contents
      reads this
    {
      Contents(scaleSets, vmsPools, registered, owners, states, unowned, options)
    }

    constructor ()
      ensures View() == Contents(map[], {}, [], map[], map[], {}, map[])
      ensures CacheInv(View())
    {
      scaleSets, vmsPools, registered := map[], {}, [];
      owners, states, unowned, options := map[], map[], {}, map[];
    }

    method Register(group: Group) returns (changed: bool)
      modifies this`registered, this`unowned
      ensures View() == AfterRegister(old(View()), group)
      ensures changed == !AlreadyRegistered(old(registered), group)
      ensures if changed then unowned == {} && group in registered else View() == old(View())
    {
      for i := 0 to |registered|
        invariant View() == old(View())
        invariant forall k :: 0 <= k < i ==> !EqualFold(registered[k].id, group.id)
      {
        if EqualFold(registered[i].id, group.id) {
          if SameBounds(registered[i], group) {
            return false;
          }
          registered := registered[i := group];
          assert registered[i] == group;
          unowned := {};
          return true;
        }
      }
      registered := registered + [group];
      assert registered[|registered| - 1] == group;
      unowned := {};
      return true;
    }

    method Unregister(group: Group) returns (changed: bool)
      modifies this`registered
      ensures View() == AfterUnregister(old(View()), group)
      ensures changed <==> exists g <- old(registered) :: EqualFold(g.id, group.id)
    {
      var updated := [];
      changed := false;
      for i := 0 to |registered|
        invariant updated == Without(registered[..i], group.id)
        invariant changed <==> exists k :: 0 <= k < i && EqualFold(registered[k].id, group.id)
      {
        assert registered[..i + 1][..i] == registered[..i];
        if EqualFold(registered[i].id, group.id) {
          changed := true;
        } else {
          updated := updated + [registered[i]];
        }
      }
      assert registered[..|registered|] == registered;
      registered := updated;
    }

    /** HasInstance: the index is walked in any order. */
    method HasInstance(id: string) returns (answer: Presence)
      ensures MayAnswer(View(), id, answer)
      ensures answer == NotAnId <==> !AzureFormat(id)
      ensures answer == Unknown ==> forall k <- owners :: !EqualFold(k, id)
      ensures answer == Gone ==> exists k <- owners :: EqualFold(k, id) && k in states && states[k] == Deleting
      ensures answer == Present ==> exists k <- owners :: EqualFold(k, id) && !(k in states && states[k] == Deleting)
    {
      var resource := Normalize(id);
      if resource.Err? {
        return NotAnId;
      }
      NormalizeFolds(id);
      var rest := owners.Keys;
      while rest != {}
        invariant rest <= owners.Keys
        invariant forall k :: k in owners && k !in rest ==> !EqualFold(k, id)
        decreases |rest|
      {
        var key :| key in rest;
        if EqualFold(key, resource.value) {
          if key in states && states[key] == Deleting {
            return Gone;
          }
          return Present;
        }
        rest := rest - {key};
      }
      return Unknown;
    }

    /** getInstanceFromCache. */
    method GetInstanceFromCache(id: string) returns (group: Option<Group>)
      ensures MayOwn(View(), id, group)
    {
      var rest := owners.Keys;
      while rest != {}
        invariant rest <= owners.Keys
        invariant forall k :: k in owners && k !in rest ==> !EqualFold(k, id)
        decreases |rest|
      {
        var key :| key in rest;
        if EqualFold(key, id) {
          return Some(owners[key]);
        }
        rest := rest - {key};
      }
      return None;
    }

    /** The ids FindForInstance leaves out by their form and the kind of cluster. */
    method LeavesOut(inst: string, t: VmType) returns (omit: bool)
      ensures omit == Omitted(View(), t, inst)
    {
      if t.VmssType? && vmsPools == {} {
        if AllUniform(View()) {
          if IsVmId(inst) {
            return true;
          }
        }
      }
      if t.StandardType? {
        if !IsVmId(inst) {
          return true;
        }
      }
      return false;
    }

    method FindForInstance(id: string, t: VmType) returns (r: Result<Option<Group>>)
      modifies this`unowned
      ensures View() == AfterFind(old(View()), t, id)
      ensures MayFindCached(old(View()), t, id, r)
      ensures NegativeOk(old(View()), t) ==> MayFind(old(View()), t, id, r)
      ensures r.Err? <==> !AzureFormat(id)
      ensures old(unowned) == {} && r.Ok? ==>
        var inst := Normalize(id).value;
        if UnownedByKind(old(View()), t, inst) then r.value.None? && unowned == {inst}
        else OwnerFound(owners, inst, r.value) && unowned == {}
    {
      ghost var before := View();
      var resource := Normalize(id);
      if resource.Err? {
        return Err;
      }
      var inst := resource.value;
      if inst in unowned {
        assert unowned + {inst} == unowned;
        return Ok(None);
      }
      var omit := LeavesOut(inst, t);
      if omit {
        FindAnswers(before, t, id, Ok(None));
        unowned := unowned + {inst};
        return Ok(None);
      }
      var group := GetInstanceFromCache(inst);
      FindAnswers(before, t, id, Ok(group));
      return Ok(group);
    }

    method SetInstanceStateByProviderID(id: string, state: InstanceState)
      modifies this`states
      ensures MayMark(old(View()), id, state, View())
    {
      var resource := Normalize(id);
      if resource.Err? {
        return;
      }
      NormalizeFolds(id);
      var rest := owners.Keys;
      while rest != {}
        invariant rest <= owners.Keys && View() == old(View())
        invariant forall k :: k in owners && k !in rest ==> !EqualFold(k, id)
        decreases |rest|
      {
        var key :| key in rest;
        if EqualFold(key, resource.value) {
          states := states[key := state];
          return;
        }
        rest := rest - {key};
      }
    }

    /** One group's part of the new index. */
    method IndexGroup(index: Index, group: Group, instances: seq<Instance>) returns (r: Index)
      ensures r == AddInstances(index, group, instances)
    {
      r := index;
      for i := 0 to |instances|
        invariant r == AddInstances(index, group, instances[..i])
      {
        assert instances[..i + 1][..i] == instances[..i];
        r := Index(r.owners[instances[i].id := group], r.states);
        if instances[i].status.Some? {
          r := Index(r.owners, r.states[instances[i].id := instances[i].status.value.state]);
        }
      }
      assert instances[..|instances|] == instances;
    }

    method Regenerate(r: Resources, listings: seq<Result<seq<Instance>>>) returns (ok: bool)
      requires |listings| == |registered|
      modifies this
      ensures (View(), ok) == AfterRegenerate(old(View()), r, listings)
    {
      ok := FetchAzureResources(r);
      if !ok {
        return false;
      }
      var index := Index(map[], map[]);
      for i := 0 to |registered|
        invariant View() == AfterFetch(old(View()), r) && |listings| == |registered|
        invariant forall k :: 0 <= k < i ==> listings[k].Ok?
        invariant index == IndexOf(registered[..i], Listed(listings[..i]))
      {
        if listings[i].Err? {
          assert listings[i] in listings;
          return false;
        }
        assert registered[..i + 1][..i] == registered[..i];
        assert Listed(listings[..i + 1])[..i] == Listed(listings[..i]);
        index := IndexGroup(index, registered[i], listings[i].value);
      }
      assert registered[..|registered|] == registered && listings[..|listings|] == listings;
      owners, states, unowned := index.owners, index.states, {};
      options := map name | name in scaleSets :: scaleSets[name].options;
      return true;
    }

    /** fetchAzureResources: each list that comes in replaces its part of the cache. */
    method FetchAzureResources(r: Resources) returns (ok: bool)
      modifies this`scaleSets, this`vmsPools
      ensures View() == AfterFetch(old(View()), r) && ok == Fetched(r)
    {
      if r.scaleSets.None? {
        return false;
      }
      scaleSets := r.scaleSets.value;
      if !r.vmsListed {
        return false;
      }
      if r.vmsPools.None? {
        return false;
      }
      vmsPools := r.vmsPools.value;
      return true;
    }
  }
}

/** ARM templates of an availability-set cluster, made ready for a scale-up. */
module Templates {
  import opened Common
  import opened CaseFold
  import opened Lists

  const NSG_TYPE := "Microsoft.Network/networkSecurityGroups"
  const RT_TYPE := "Microsoft.Network/routeTables"
  const VM_TYPE := "Microsoft.Compute/virtualMachines"
  const VM_EXTENSION_TYPE := "Microsoft.Compute/virtualMachines/extensions"
  const NSG_ID := "nsgID"
  const RT_ID := "routeTableID"
  const MASTER := "variables('masterVMNamePrefix')"

  /** The parts of a VM's properties that are looked at; None where a part is missing. */
  datatype Properties = Properties(
    vmSize: Option<Option<string>>,           // hardwareProfile.vmSize
    customData: Option<Option<string>>,       // osProfile.customData
    imageReference: Option<Option<string>>)   // storageProfile.imageReference

  datatype Resource =
    | Malformed(text: string)
    | Resource(kind: Option<string>, name: Option<string>, dependsOn: Option<seq<string>>, properties: Option<Properties>)

  predicate Contains(s: string, pat: string) {
    FirstAt(s, pat, 0).Some?
  }

  predicate HasKind(r: Resource, kind: string) {
    r.Resource? && r.kind == Some(kind)
  }

  predicate IsMaster(r: Resource) {
    r.Resource? && r.name.Some? && Contains(r.name.value, MASTER)
  }

  predicate MasterExtension(r: Resource) {
    IsMaster(r) && HasKind(r, VM_EXTENSION_TYPE)
  }

  predicate NotExtension(r: Resource) {
    !MasterExtension(r)
  }

  /** What is taken out of a master VM; a missing profile ends the stripping there. */
  function StripProperties(p: Properties): Properties {
    if p.vmSize.None? then p
    else
      var q := p.(vmSize := Some(None));
      if q.customData.None? then q
      else
        var c := q.(customData := Some(None));
        if c.imageReference.None? then c else c.(imageReference := Some(None))
  }

  function Strip(r: Resource): Resource {
    if IsMaster(r) && HasKind(r, VM_TYPE) && r.properties.Some? then r.(properties := Some(StripProperties(r.properties.value)))
    else r
  }

  /** The dependency is on the network security group or the route table. */
  predicate OnRemoved(dependency: string) {
    Contains(dependency, NSG_TYPE) || Contains(dependency, NSG_ID) || Contains(dependency, RT_TYPE) || Contains(dependency, RT_ID)
  }

  predicate Unrelated(dependency: string) {
    !OnRemoved(dependency)
  }

  function Detach(r: Resource): Resource {
    if r.Malformed? || r.dependsOn.None? then r
    else
      var left := Filter(r.dependsOn.value, Unrelated);
      r.(dependsOn := if left == [] then None else Some(left))
  }

  function Detached(rs: seq<Resource>): (r: seq<Resource>)
    ensures |r| == |rs| && forall i :: 0 <= i < |rs| ==> r[i] == Detach(rs[i])
  {
    seq(|rs|, i requires 0 <= i < |rs| => Detach(rs[i]))
  }

  function Stripped(rs: seq<Resource>): (r: seq<Resource>)
    ensures |r| == |rs| && forall i :: 0 <= i < |rs| ==> r[i] == Strip(rs[i])
  {
    seq(|rs|, i requires 0 <= i < |rs| => Strip(rs[i]))
  }

  /** The template as it should be: in order, without master VM extensions, network security
      groups and route tables, and with nothing left that depends on the latter two. */
  function Normal(rs: seq<Resource>): seq<Resource>
    decreases |rs|
  {
    if rs == [] then []
    else
      var r := rs[0];
      (if MasterExtension(r) || HasKind(r, NSG_TYPE) || HasKind(r, RT_TYPE) then [] else [Detach(Strip(r))]) + Normal(rs[1..])
  }

  function Master(rs: seq<Resource>): seq<Resource> {
    Filter(Stripped(rs), NotExtension)
  }

  function Count(rs: seq<Resource>, kind: string): nat
    decreases |rs|
  {
    if rs == [] then 0 else Count(rs[..|rs| - 1], kind) + (if HasKind(rs[|rs| - 1], kind) then 1 else 0)
  }

  lemma {:induction false} CountFront(rs: seq<Resource>, kind: string)
    requires rs != []
    ensures Count(rs, kind) == (if HasKind(rs[0], kind) then 1 else 0) + Count(rs[1..], kind)
    decreases |rs|
  {
    var n := |rs| - 1;
    if n > 0 {
      CountFront(rs[..n], kind);
      assert rs[..n][1..] == rs[1..][..n - 1];
    }
  }

  lemma {:induction false} CountPrefix(rs: seq<Resource>, k: nat, kind: string)
    requires k <= |rs|
    ensures Count(rs[..k], kind) <= Count(rs, kind)
    decreases |rs| - k
  {
    if k < |rs| {
      CountPrefix(rs, k + 1, kind);
      assert rs[..k + 1][..k] == rs[..k];
    } else {
      assert rs[..k] == rs;
    }
  }

  /** What stays depends on neither removed kind, has no empty dependency list, and is
      neither of these kinds nor a master VM extension. */
  lemma {:induction false} NormalIsClean(rs: seq<Resource>, r: Resource)
    requires r in Normal(rs)
    ensures r.Resource? && r.dependsOn.Some? ==> r.dependsOn.value != [] && forall d <- r.dependsOn.value :: !OnRemoved(d)
    ensures !HasKind(r, NSG_TYPE) && !HasKind(r, RT_TYPE) && !MasterExtension(r)
    decreases |rs|
  {
    if r in Normal(rs[1..]) {
      NormalIsClean(rs[1..], r);
    } else {
      var s := Strip(rs[0]);
      if s.Resource? && s.dependsOn.Some? {
        forall d ensures d in Filter(s.dependsOn.value, Unrelated) ==> !OnRemoved(d) {
          FilterMembers(s.dependsOn.value, Unrelated, d);
        }
      }
    }
  }

  /** A dependency that mentions neither kind nor either id stays, as often and in the order
      it had; all others go. */
  lemma DetachKeeps(r: Resource, d: string)
    requires r.Resource? && r.dependsOn.Some?
    ensures
      var left := Detach(r).dependsOn;
      var mentions := Contains(d, "Microsoft.Network/networkSecurityGroups") || Contains(d, "nsgID")
                      || Contains(d, "Microsoft.Network/routeTables") || Contains(d, "routeTableID");
      && multiset(if left.Some? then left.value else [])[d] == (if mentions then 0 else multiset(r.dependsOn.value)[d])
      && (left.None? <==> forall e <- r.dependsOn.value :: OnRemoved(e))
      && Detach(r) == r.(dependsOn := left)
  {
    FilterCounts(r.dependsOn.value, Unrelated, d);
    var left := Filter(r.dependsOn.value, Unrelated);
    if left != [] {
      FilterMembers(r.dependsOn.value, Unrelated, left[0]);
    }
    forall e | e in r.dependsOn.value && !OnRemoved(e) ensures left != [] {
      FilterMembers(r.dependsOn.value, Unrelated, e);
    }
  }

  /** From a master VM the VM size is taken out if there is a hardware profile, then the custom
      data if there is an OS profile too, then the image reference if there is a storage
      profile as well; nothing else is changed, and no other resource. */
  lemma StripTakes(r: Resource)
    ensures !(r.Resource? && r.properties.Some? && IsMaster(r) && HasKind(r, "Microsoft.Compute/virtualMachines")) ==> Strip(r) == r
    ensures r.Resource? && r.properties.Some? && IsMaster(r) && HasKind(r, "Microsoft.Compute/virtualMachines") ==>
      var (p, q) := (r.properties.value, Strip(r).properties.value);
      && Strip(r) == r.(properties := Some(q))
      && q.vmSize == (if p.vmSize.Some? then Some(None) else None)
      && q.customData == (if p.vmSize.Some? && p.customData.Some? then Some(None) else p.customData)
      && q.imageReference ==
           (if p.vmSize.Some? && p.customData.Some? && p.imageReference.Some? then Some(None) else p.imageReference)
  {
  }

  /** What goes and what stays, one resource after the other. */
  lemma {:induction false} NormalAppend(a: seq<Resource>, b: seq<Resource>)
    ensures Normal(a + b) == Normal(a) + Normal(b)
    decreases |a|
  {
    if a == [] {
      assert a + b == b;
    } else {
      assert (a + b)[1..] == a[1..] + b;
      NormalAppend(a[1..], b);
    }
  }

  lemma NormalOne(r: Resource)
    ensures Normal([r]) ==
      if || HasKind(r, "Microsoft.Network/networkSecurityGroups") || HasKind(r, "Microsoft.Network/routeTables")
         || (HasKind(r, "Microsoft.Compute/virtualMachines/extensions") && r.name.Some? && Contains(r.name.value, "variables('masterVMNamePrefix')"))
      then [] else [Detach(Strip(r))]
  {
    assert Normal([r][1..]) == [];
  }

  // ---------------------------------------------------- the two passes compose

  predicate Stays(r: Resource) {
    !HasKind(r, NSG_TYPE) && !HasKind(r, RT_TYPE)
  }

  lemma {:induction false} PassesCompose(rs: seq<Resource>)
    ensures Filter(Detached(Master(rs)), Stays) == Normal(rs)
    decreases |rs|
  {
    if rs == [] {
      assert Detached(Master(rs)) == [];
    } else {
      PassesCompose(rs[1..]);
      var r := rs[0];
      assert Stripped(rs) == [Strip(r)] + Stripped(rs[1..]);
      assert Stripped(rs)[1..] == Stripped(rs[1..]);
      var rest := Master(rs[1..]);
      if MasterExtension(r) {
        assert Master(rs) == rest;
      } else {
        assert Master(rs) == [Strip(r)] + rest;
        assert Detached(Master(rs)) == [Detach(Strip(r))] + Detached(rest);
        assert Detached(Master(rs))[1..] == Detached(rest);
      }
    }
  }

  /** The first pass removes resources of no other kind than VM extensions. */
  lemma {:induction false} MasterCounts(rs: seq<Resource>, kind: string)
    requires kind != VM_EXTENSION_TYPE
    ensures Count(Master(rs), kind) == Count(rs, kind)
    decreases |rs|
  {
    if rs != [] {
      MasterCounts(rs[1..], kind);
      CountFront(rs, kind);
      var r := rs[0];
      assert Stripped(rs)[0] == Strip(r) && Stripped(rs)[1..] == Stripped(rs[1..]);
      if MasterExtension(r) {
        assert Master(rs) == Master(rs[1..]);
      } else {
        assert Master(rs) == [Strip(r)] + Master(rs[1..]);
        CountFront(Master(rs), kind);
      }
    }
  }

  // -------------------------------------------------------------- in place

  /** The first k elements have been changed by f, the others are as they were. */
  ghost predicate Partly<T(!new)>(s: seq<T>, k: nat, r: seq<T>, f: T -> T) {
    |r| == |s| && forall p :: 0 <= p < |s| ==> r[p] == if p < k then f(s[p]) else s[p]
  }

  lemma PartlyNext<T(!new)>(s: seq<T>, k: nat, r: seq<T>, f: T -> T)
    requires k < |s| && Partly(s, k, r, f)
    ensures r[k] == s[k] && Partly(s, k + 1, r[k := f(s[k])], f)
  {
  }

  /** `index` is the one position of the kind among the first k, or -1 for none. */
  ghost predicate OnlyAt(rs: seq<Resource>, k: nat, kind: string, index: int)
    requires k <= |rs|
  {
    && -1 <= index < k
    && (forall p :: 0 <= p < k ==> (HasKind(rs[p], kind) <==> p == index))
    && Count(rs[..k], kind) == if index == -1 then 0 else 1
  }

  lemma OnlyAtNext(rs: seq<Resource>, k: nat, kind: string, index: int)
    requires k < |rs| && OnlyAt(rs, k, kind, index) && (HasKind(rs[k], kind) ==> index == -1)
    ensures OnlyAt(rs, k + 1, kind, if HasKind(rs[k], kind) then k else index)
  {
    assert rs[..k + 1][..k] == rs[..k];
  }

  lemma SecondFound(rs: seq<Resource>, k: nat, kind: string, index: int)
    requires k < |rs| && OnlyAt(rs, k, kind, index) && HasKind(rs[k], kind) && index != -1
    ensures Count(rs, kind) >= 2
  {
    assert rs[..k + 1][..k] == rs[..k];
    CountPrefix(rs, k + 1, kind);
  }

  lemma RemovalIsFilter(rs: seq<Resource>, nsg: int, rt: int, drop: set<int>)
    requires OnlyAt(rs, |rs|, NSG_TYPE, nsg) && OnlyAt(rs, |rs|, RT_TYPE, rt)
    requires nsg != -1 && drop == if rt == -1 then {nsg} else {rt, nsg}
    ensures KeepPositions(Detached(rs), drop, 0) == Filter(Detached(rs), Stays)
  {
    var detached := Detached(rs);
    forall p | 0 <= p < |rs| ensures 0 + p in drop <==> !Stays(detached[p]) {
      assert HasKind(detached[p], NSG_TYPE) == HasKind(rs[p], NSG_TYPE) && HasKind(detached[p], RT_TYPE) == HasKind(rs[p], RT_TYPE);
    }
    PositionsAreFilter(detached, drop, 0, Stays);
  }

  /** The positions of the master VM extensions among the first k. */
  ghost predicate ExtensionsAt(rs: seq<Resource>, k: nat, indexes: seq<int>)
    requires k <= |rs|
  {
    && (forall p :: p in indexes <==> 0 <= p < k && MasterExtension(rs[p]))
    && (forall a, b :: 0 <= a < b < |indexes| ==> indexes[a] != indexes[b])
  }

  lemma ExtensionsNext(rs: seq<Resource>, k: nat, indexes: seq<int>)
    requires k < |rs| && ExtensionsAt(rs, k, indexes)
    ensures ExtensionsAt(rs, k + 1, if MasterExtension(rs[k]) then indexes + [k] else indexes)
  {
  }

  lemma ExtensionsAreFilter(rs: seq<Resource>, stripped: seq<Resource>, indexes: seq<int>)
    requires ExtensionsAt(rs, |rs|, indexes) && Partly(rs, |rs|, stripped, Strip)
    ensures KeepPositions(stripped, Members(indexes), 0) == Master(rs)
  {
    assert stripped == Stripped(rs);
    forall p | 0 <= p < |rs| ensures 0 + p in Members(indexes) <==> !NotExtension(stripped[p]) {
      assert MasterExtension(Strip(rs[p])) == MasterExtension(rs[p]);
    }
    PositionsAreFilter(stripped, Members(indexes), 0, NotExtension);
  }

  /** The loop of normalizeMasterResourcesForScaling. */
  method StripMasters(rs: seq<Resource>) returns (stripped: seq<Resource>, indexes: seq<int>)
    ensures Partly(rs, |rs|, stripped, Strip) && ExtensionsAt(rs, |rs|, indexes)
  {
    stripped, indexes := rs, [];
    for i := 0 to |rs|
      invariant Partly(rs, i, stripped, Strip) && ExtensionsAt(rs, i, indexes)
    {
      PartlyNext(rs, i, stripped, Strip);
      ExtensionsNext(rs, i, indexes);
      if MasterExtension(stripped[i]) {
        indexes := indexes + [i];
      }
      stripped := stripped[i := Strip(stripped[i])];
    }
  }

  /** The dependencies of one resource, cut out from the back. */
  method DetachOne(r: Resource) returns (d: Resource)
    ensures d == Detach(r)
  {
    if r.Malformed? || r.dependsOn.None? {
      return r;
    }
    var left := FilterBackward(r.dependsOn.value, Unrelated);
    if |left| > 0 {
      return r.(dependsOn := Some(left));
    }
    return r.(dependsOn := None);
  }

  /** Takes down the position of a resource of the kind; a second one is an error. */
  method Note(ghost rs: seq<Resource>, i: nat, kind: string, index: int, r: Resource) returns (second: bool, noted: int)
    requires i < |rs| && r == rs[i] && OnlyAt(rs, i, kind, index)
    ensures second ==> Count(rs, kind) >= 2
    ensures !second ==> OnlyAt(rs, i + 1, kind, noted)
  {
    if HasKind(r, kind) && index != -1 {
      SecondFound(rs, i, kind, index);
      return true, index;
    }
    OnlyAtNext(rs, i, kind, index);
    return false, if HasKind(r, kind) then i else index;
  }

  /** The loop of normalizeForK8sVMASScalingUp; it stops at a second resource of either kind. */
  method DetachEach(rs: seq<Resource>, nsgType: string, rtType: string)
    returns (ok: bool, detached: seq<Resource>, nsg: int, rt: int, ghost k: nat)
    ensures k <= |rs| && Partly(rs, k, detached, Detach)
    ensures ok ==> k == |rs| && OnlyAt(rs, k, nsgType, nsg) && OnlyAt(rs, k, rtType, rt)
    ensures !ok ==> Count(rs, nsgType) >= 2 || Count(rs, rtType) >= 2
  {
    detached, nsg, rt, k := rs, -1, -1, 0;
    for i := 0 to |rs|
      invariant k == i && Partly(rs, i, detached, Detach)
      invariant OnlyAt(rs, i, nsgType, nsg) && OnlyAt(rs, i, rtType, rt)
    {
      PartlyNext(rs, i, detached, Detach);
      var second;
      second, nsg := Note(rs, i, nsgType, nsg, detached[i]);
      if second {
        return false, detached, nsg, rt, k;
      }
      second, rt := Note(rs, i, rtType, rt, detached[i]);
      if second {
        return false, detached, nsg, rt, k;
      }
      var d := DetachOne(detached[i]);
      detached := detached[i := d];
      k := i + 1;
    }
    ok := true;
  }

  /** The last step: the positions noted are cut out. */
  method CutOut(ghost rs: seq<Resource>, detached: seq<Resource>, nsg: int, rt: int) returns (r: seq<Resource>)
    requires OnlyAt(rs, |rs|, NSG_TYPE, nsg) && OnlyAt(rs, |rs|, RT_TYPE, rt) && nsg != -1
    requires Partly(rs, |rs|, detached, Detach)
    ensures r == Filter(Detached(rs), Stays)
  {
    var indexes := if rt == -1 then [nsg] else [rt, nsg];
    assert detached == Detached(rs);
    assert HasKind(rs[nsg], NSG_TYPE);
    TypesDiffer();
    RemovalIsFilter(rs, nsg, rt, Members(indexes));
    r := RemoveIndexes(detached, indexes);
  }

  lemma TypesDiffer()
    ensures NSG_TYPE != RT_TYPE && NSG_TYPE != VM_EXTENSION_TYPE && RT_TYPE != VM_EXTENSION_TYPE
  {
  }

  class Template {
    var resources: seq<Resource>

    constructor (resources: seq<Resource>)
      ensures this.resources == resources
    {
      this.resources := resources;
    }

    /** normalizeMasterResourcesForScaling. */
    method NormalizeMaster()
      modifies this
      ensures resources == Master(old(resources))
    {
      var stripped, indexes := StripMasters(resources);
      ExtensionsAreFilter(resources, stripped, indexes);
      resources := RemoveIndexes(stripped, indexes);
    }

    /** normalizeForK8sVMASScalingUp: it succeeds exactly when the template has one network
        security group and at most one route table, and then leaves the normal template;
        on failure the master resources and the first k dependency lists are changed. */
    method NormalizeForScalingUp() returns (ok: bool, ghost k: nat)
      modifies this
      ensures ok <==> Count(old(resources), NSG_TYPE) == 1 && Count(old(resources), RT_TYPE) <= 1
      ensures ok ==> resources == Normal(old(resources))
      ensures !ok ==> k <= |Master(old(resources))| && Partly(Master(old(resources)), k, resources, Detach)
    {
      TypesDiffer();
      MasterCounts(resources, NSG_TYPE);
      MasterCounts(resources, RT_TYPE);
      PassesCompose(resources);
      NormalizeMaster();
      ghost var master := resources;
      var detached, nsg, rt;
      ok, detached, nsg, rt, k := DetachEach(resources, NSG_TYPE, RT_TYPE);
      resources := detached;
      assert master[..|master|] == master;
      if !ok || nsg == -1 {
        return false, k;
      }
      resources := CutOut(master, detached, nsg, rt);
    }
  }
}

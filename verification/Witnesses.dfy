/**
 Inputs on which the instance caches, the index, the id normalisation and the template
 arithmetic do not do what one would wish; the exact conditions are the lemmas called.
 */
module Witnesses {
  import opened Common
  import opened CaseFold
  import opened Instances
  import opened InstanceCaches
  import opened AzureCaches
  import opened DeleteMarks
  import opened AgentPools

  lemma OccursMiddle(x: string, pat: string, y: string)
    ensures Occurs(x + pat + y, pat, |x|)
  {
    assert (x + pat + y)[|x|..|x| + |pat|] == pat;
  }

  /** An id that ends with a resource group of one letter and the provider part has this
      letter captured. */
  lemma SpanAtEnd(id: string, a: nat, b: nat, j: nat)
    requires Occurs(id, SUBSCRIPTIONS, a) && Occurs(id, RESOURCE_GROUPS, b) && Occurs(id, PROVIDERS, j)
    requires a + |SUBSCRIPTIONS| <= b && j == b + |RESOURCE_GROUPS| + 1 && j + |PROVIDERS| == |id|
    ensures ResourceGroupSpan(id) == Some((j - 1, j))
  {
    assert LastAt(id, PROVIDERS, |id|) == Some(j);
    assert LastAt(id, RESOURCE_GROUPS, b) == Some(b);
  }

  /** The id of a subscription part and a group, after some text. */
  function IdOf(x: string, y: string, group: string): string {
    x + SUBSCRIPTIONS + y + RESOURCE_GROUPS + group + PROVIDERS
  }

  lemma PartsOccur(x: string, s: string, y: string, r: string, g: string, p: string)
    ensures
      var id := x + s + y + r + g + p;
      && Occurs(id, s, |x|) && Occurs(id, r, |x + s + y|) && Occurs(id, p, |x + s + y + r + g|)
      && id[|x + s + y + r|..|x + s + y + r + g|] == g
  {
    OccursMiddle(x, s, y + r + g + p);
    assert x + s + (y + r + g + p) == x + s + y + r + g + p;
    OccursMiddle(x + s + y, r, g + p);
    assert x + s + y + r + (g + p) == x + s + y + r + g + p;
    OccursMiddle(x + s + y + r + g, p, "");
    assert x + s + y + r + g + p + "" == x + s + y + r + g + p;
  }

  lemma SpanOfId(x: string, y: string, group: char)
    ensures
      var i := |x| + |SUBSCRIPTIONS| + |y| + |RESOURCE_GROUPS|;
      ResourceGroupSpan(IdOf(x, y, [group])) == Some((i, i + 1)) && IdOf(x, y, [group])[i..i + 1] == [group]
  {
    PartsOccur(x, SUBSCRIPTIONS, y, RESOURCE_GROUPS, [group], PROVIDERS);
    var b := |x| + |SUBSCRIPTIONS| + |y|;
    SpanAtEnd(IdOf(x, y, [group]), |x|, b, b + |RESOURCE_GROUPS| + 1);
  }

  /** With a subscription and a resource group both named A it is the subscription that is lowered. */
  lemma SubscriptionIsLowered()
    ensures AzureFormat(IdOf("", "A", "A")) && Normalize(IdOf("", "A", "A")) != Ok(Canonical(IdOf("", "A", "A")))
  {
    var id := IdOf("", "A", "A");
    SpanOfId("", "A", 'A');
    OccursMiddle("" + SUBSCRIPTIONS, "A", RESOURCE_GROUPS + "A" + PROVIDERS);
    assert "" + SUBSCRIPTIONS + "A" + (RESOURCE_GROUPS + "A" + PROVIDERS) == id;
    assert LowerChar('A') != 'A' && Lower("A")[0] != "A"[0];
    NormalizeCanonicalIff(id);
  }

  /** A lower-case resource group is left as it is. */
  lemma LowerStays(x: string, y: string)
    ensures AzureFormat(IdOf(x, y, "g")) && Normalize(IdOf(x, y, "g")) == Ok(IdOf(x, y, "g"))
  {
    var id := IdOf(x, y, "g");
    SpanOfId(x, y, 'g');
    var (i, j) := ResourceGroupSpan(id).value;
    assert Lower("g") == "g";
    NormalizeCanonicalIff(id);
    NothingToLower(id, i, j - i);
  }

  // ---------------------------------------------------- the negative cache

  const VM_ID := IdOf(AZURE_PREFIX, "s" + VM_PART + "v", "g")

  lemma VmIdIsOne()
    ensures IsVmId(VM_ID)
  {
    var head := AZURE_PREFIX + SUBSCRIPTIONS + "s";
    var tail := "v" + RESOURCE_GROUPS + "g" + PROVIDERS;
    VmIdParts(AZURE_PREFIX, SUBSCRIPTIONS, "s", VM_PART, "v", RESOURCE_GROUPS, "g", PROVIDERS);
    OccursMiddle(head, VM_PART, tail);
    assert VmPartAt(VM_ID, |head|) by {
      PartAt(head, VM_PART, tail, VM_DOT);
    }
  }

  lemma PartAt(head: string, part: string, tail: string, dot: nat)
    requires dot < |part|
    ensures
      var id := head + part + tail;
      && id[|head|..|head| + dot] == part[..dot] && id[|head| + dot + 1..|head| + |part|] == part[dot + 1..]
  {
  }

  lemma VmIdParts(a: string, s: string, y: string, m: string, v: string, r: string, g: string, p: string)
    ensures a + s + (y + m + v) + r + g + p == a + s + y + m + (v + r + g + p)
    ensures a <= a + s + (y + m + v) + r + g + p
  {
  }

  /** All scale sets were uniform and the VM was left out; a regeneration lists a flexible
      scale set and fails: the VM, which is in the index, is still answered as unowned. */
  lemma WrongAfterFailedRegeneration()
    ensures
      var g := Group("pool", 1, 5);
      var c := Contents(map[], {}, [g], map[VM_ID := g], map[], {VM_ID}, map[]);
      var after := AfterRegenerate(c, Resources(Some(map["flex" := ScaleSetInfo(true, map[])]), false, None), [Err]).0;
      && CacheInv(c) && NegativeOk(c, VmssType)
      && MayFindCached(after, VmssType, VM_ID, Ok(None)) && !MayFind(after, VmssType, VM_ID, Ok(None))
  {
    var g := Group("pool", 1, 5);
    var c := Contents(map[], {}, [g], map[VM_ID := g], map[], {VM_ID}, map[]);
    LowerStays(AZURE_PREFIX, "s" + VM_PART + "v");
    VmIdIsOne();
    var after := AfterRegenerate(c, Resources(Some(map["flex" := ScaleSetInfo(true, map[])]), false, None), [Err]).0;
    assert after.scaleSets["flex"].flexible && VM_ID in after.owners;
  }

  // ------------------------------------------------------------ delete marks

  function ListedAs(id: string, state: string, cseFailed: bool): Vm {
    Vm(id, Some(Properties(Some(state), Some(StatusView(None, cseFailed)))))
  }

  /** A VM marked Deleting: a flexible list that shows it Updating makes it Running again. */
  lemma FlexibleListLosesTheMark(s: Settings, id: string)
    requires id != "" && Normalize(id) == Ok(id)
    ensures
      var marked := [Instance(AZURE_PREFIX + id, Some(MARK))];
      InstanceOf(s, true, ListedAs(id, "Updating", false), marked) == Some(Instance(AZURE_PREFIX + id, Some(Status(Running, None))))
  {
    UpdatingIsRunning("PowerState/running", s.fastDelete);
  }

  lemma UpdatingIsRunning(power: string, fastDelete: bool)
    ensures StatusOf("Updating", power, fastDelete) == Status(Running, None)
  {
    assert "Updating"[0] != "Deleting"[0] && "Updating"[0] != "Creating"[0] && "Updating"[0] != "Failed"[0];
  }

  /** A uniform list that shows it Deleting with a failed extension makes it Creating. */
  lemma FailedExtensionLosesTheMark(s: Settings, id: string)
    requires id != "" && Normalize(id) == Ok(id) && s.detailedCse
    ensures
      var marked := [Instance(AZURE_PREFIX + id, Some(MARK))];
      InstanceOf(s, false, ListedAs(id, "Deleting", true), marked)
        == Some(Instance(AZURE_PREFIX + id, Some(Status(Creating, Some(ExtensionFailed)))))
  {
    assert "Updating"[0] != "Deleting"[0];
  }

  /** There is such an id. */
  lemma ListedId()
    ensures IdOf("", "s", "g") != "" && Normalize(IdOf("", "s", "g")) == Ok(IdOf("", "s", "g"))
  {
    LowerStays("", "s");
  }

  /** A scale set with one running VM, known to the index. */
  function OneVm(id: string): Sys {
    var g := Group("pool", 1, 5);
    Sys(Cache([Instance(id, Some(Status(Running, None)))], 0), Contents(map[], {}, [g], map[id := g], map[], {}, map[]), [], [])
  }

  const QUIET_READ := Read(0, None, Uniform, ListFailed, Clock(0, 0, 0))

  /** A regeneration asks the scale set about the running VM, a delete marks it, and the
      regeneration stores what it was told: the VM is reported present. */
  lemma LateStoreLosesTheMark(site: Site, id: string)
    requires site.settings.period > 0 && EqualFold("pool", site.group) && AzureFormat(id)
    ensures
      var collect := Collect(0, [OneVm(id).cache.instances], QUIET_READ);
      var marks := [MarkCache(id, QUIET_READ), MarkIndex(id, Some(id))];
      && Enabled(site, OneVm(id), collect)
      && var collected := Apply(site, OneVm(id), collect);
      && CanRun(site, collected, marks) && Enabled(site, Run(site, collected, marks), Commit(0))
      && MayAnswer(Apply(site, Run(site, collected, marks), Commit(0)).index, id, Present)
  {
    var st := OneVm(id);
    var collected := Apply(site, st, Collect(0, [st.cache.instances], QUIET_READ));
    MarksCanRun(site, collected, id);
    StoredAfterMarkIff(site, st, 0, [st.cache.instances], QUIET_READ, st.cache.instances[0],
                       [MarkCache(id, QUIET_READ), MarkIndex(id, Some(id))], Present);
  }

  lemma MarksCanRun(site: Site, st: Sys, id: string)
    requires AzureFormat(id) && id in st.index.owners
    ensures CanRun(site, st, [MarkCache(id, QUIET_READ), MarkIndex(id, Some(id))])
  {
    var (one, two) := (MarkCache(id, QUIET_READ), MarkIndex(id, Some(id)));
    assert [one, two][1..] == [two] && [two][1..] == [];
    assert Enabled(site, Apply(site, st, one), two);
  }

  // --------------------------------------------------------------- templates

  /** Two VMs of index 0: one more is asked for, the template makes two. */
  lemma TemplateMakesTooMany()
    ensures Ascending([0, 0]) && CountFor([0, 0], 1) - Offset([0, 0]) == 2
  {
  }
}

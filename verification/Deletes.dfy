/**
 DeleteInstances of a scale set, over its instance cache, the cluster-wide index and
 its size.
 */
module Deletes {
  import opened Common
  import opened CaseFold
  import opened Instances
  import opened InstanceCaches
  import opened AzureCaches
  import opened DeleteMarks
  import ScaleSets
  import CapacityProtocol

  predicate IsSpace(c: char) {
    c in " \t\n\r" || c as int == 11 || c as int == 12
  }

  /** strings.TrimSpace on ASCII. */
  function Trim(s: string): string
    decreases |s|
  {
    if s == [] then s
    else if IsSpace(s[0]) then Trim(s[1..])
    else if IsSpace(s[|s| - 1]) then Trim(s[..|s| - 1])
    else s
  }

  /** What follows the last slash. */
  function LastPart(s: string): (r: string)
    ensures |r| <= |s| && r == s[|s| - |r|..] && '/' !in r
    ensures |r| < |s| ==> s[|s| - |r| - 1] == '/'
    decreases |s|
  {
    if s == [] || s[|s| - 1] == '/' then []
    else LastPart(s[..|s| - 1]) + [s[|s| - 1]]
  }

  /** getLastSegment: the instance id sent to the API. */
  function LastSegment(id: string): Result<string> {
    var name := LastPart(Trim(id));
    if name == "" then Err else Ok(name)
  }

  lemma {:induction false} TrimFront(w: string, s: string)
    requires (forall c <- w :: IsSpace(c)) && s != "" && !IsSpace(s[0])
    ensures Trim(w + s) == Trim(s)
    decreases |w|
  {
    if w == "" {
      assert w + s == s;
    } else {
      assert (w + s)[1..] == w[1..] + s;
      TrimFront(w[1..], s);
    }
  }

  lemma {:induction false} TrimBack(s: string, w: string)
    requires (forall c <- w :: IsSpace(c)) && s != "" && !IsSpace(s[0]) && !IsSpace(s[|s| - 1])
    ensures Trim(s + w) == s
    decreases |w|
  {
    if w == "" {
      assert s + w == s;
    } else {
      assert (s + w)[..|s + w| - 1] == s + w[..|w| - 1];
      TrimBack(s, w[..|w| - 1]);
    }
  }

  lemma {:induction false} LastPartIs(p: string, name: string)
    requires '/' !in name && (p == "" || p[|p| - 1] == '/')
    ensures LastPart(p + name) == name
    decreases |name|
  {
    if name == "" {
      assert p + name == p;
    } else {
      assert (p + name)[..|p + name| - 1] == p + name[..|name| - 1];
      LastPartIs(p, name[..|name| - 1]);
    }
  }

  /** The name sent for an id is what follows its last slash, without the space around it. */
  lemma SegmentIs(before: string, path: string, name: string, after: string)
    requires (forall c <- before :: IsSpace(c)) && (forall c <- after :: IsSpace(c))
    requires '/' !in name && name != "" && !IsSpace(name[|name| - 1])
    requires path == "" || path[|path| - 1] == '/'
    requires !IsSpace((path + name)[0])
    ensures LastSegment(before + (path + name + after)) == Ok(name)
  {
    TrimFront(before, path + name + after);
    TrimBack(path + name, after);
    LastPartIs(path, name);
  }

  ghost predicate AllNamed(ids: seq<string>) {
    forall id <- ids :: LastSegment(id).Ok?
  }

  /** The instance ids, in order, of the provider ids. */
  ghost predicate Names(ids: seq<string>, instanceIds: seq<string>) {
    |instanceIds| == |ids| && forall k :: 0 <= k < |ids| ==> LastSegment(ids[k]) == Ok(instanceIds[k])
  }

  /** The first instance of this id, if there is one, is not known to be deleting. */
  ghost predicate NotDeleting(instances: seq<Instance>, id: string) {
    forall k :: 0 <= k < |instances| && instances[k].id == id && (forall j :: 0 <= j < k ==> instances[j].id != id) ==>
      instances[k].status.None? || instances[k].status.value.state != InstanceState.Deleting
  }

  /** The same, computed. */
  predicate Wanted(instances: seq<Instance>, id: string) {
    var i := FirstWithId(instances, id);
    i.None? || i.value.status.None? || i.value.status.value.state != InstanceState.Deleting
  }

  lemma WantedIff(instances: seq<Instance>, id: string)
    ensures Wanted(instances, id) <==> NotDeleting(instances, id)
  {
    if !NotDeleting(instances, id) {
      var k :| 0 <= k < |instances| && instances[k].id == id && (forall j :: 0 <= j < k ==> instances[j].id != id)
               && instances[k].status.Some? && instances[k].status.value.state == InstanceState.Deleting;
      FindAt(instances, k, id);
    } else if FirstWithId(instances, id).Some? {
      FoundFirst(instances, id);
    }
  }

  /** Of the first k ids those, in order, that are not known to be deleting. */
  ghost function Undeleted(instances: seq<Instance>, ids: seq<string>, k: nat): seq<string>
    requires k <= |ids|
  {
    if k == 0 then []
    else Undeleted(instances, ids, k - 1) + (if Wanted(instances, ids[k - 1]) then [ids[k - 1]] else [])
  }

  /** They are a filter by the instances: each such id, as often as it was given, in order. */
  lemma {:induction false} UndeletedIs(instances: seq<Instance>, ids: seq<string>, k: nat)
    requires k <= |ids|
    ensures forall id :: id in Undeleted(instances, ids, k) <==> id in ids[..k] && NotDeleting(instances, id)
    ensures k > 0 && NotDeleting(instances, ids[k - 1]) ==> Undeleted(instances, ids, k) == Undeleted(instances, ids, k - 1) + [ids[k - 1]]
    ensures k > 0 && !NotDeleting(instances, ids[k - 1]) ==> Undeleted(instances, ids, k) == Undeleted(instances, ids, k - 1)
  {
    if k > 0 {
      UndeletedIs(instances, ids, k - 1);
      WantedIff(instances, ids[k - 1]);
      assert ids[..k] == ids[..k - 1] + [ids[k - 1]];
    }
  }

  /** The cache is fresh for all these reads. */
  ghost predicate AllServed(s: Settings, c: Cache, looks: seq<Read>) {
    forall look <- looks :: c.lastRefresh + s.period > look.now
  }

  /** An id is skipped exactly when the read does not fail and its first instance is deleting. */
  lemma SkipsIff(site: Site, c: Cache, id: string, read: Read)
    ensures
      var (next, o) := AfterRead(site.settings, c, read);
      Skips(site, c, id, read) <==> !o.err && !Wanted(next.instances, id)
  {
  }

  lemma {:induction false} FoundFirst(instances: seq<Instance>, id: string)
    requires FirstWithId(instances, id).Some?
    ensures exists k :: 0 <= k < |instances| && instances[k].id == id && instances[k] == FirstWithId(instances, id).value
                        && forall j :: 0 <= j < k ==> instances[j].id != id
    decreases |instances|
  {
    if instances[0].id != id {
      FoundFirst(instances[1..], id);
      var k :| 0 <= k < |instances| - 1 && instances[1..][k].id == id && instances[1..][k] == FirstWithId(instances[1..], id).value
               && forall j :: 0 <= j < k ==> instances[1..][j].id != id;
      assert instances[k + 1] == instances[1..][k];
      assert forall j :: 0 < j < k + 1 ==> instances[j] == instances[1..][j - 1];
    }
  }

  /** Crashed: a method is called on the nil group of an id no group owns. */
  datatype DeleteReply = Crashed | Failed | Nothing | Refused | Sent(instanceIds: seq<string>)

  /** The steps of looking up and considering the first k ids one after the other. */
  ghost function LookSteps(ids: seq<string>, looks: seq<Read>, k: nat): seq<Step>
    requires k <= |ids| == |looks|
  {
    if k == 0 then []
    else LookSteps(ids, looks, k - 1) + [Lookup(ids[k - 1]), Consider(ids[k - 1], looks[k - 1])]
  }

  /** Nothing is marked. */
  ghost predicate OnlyLooks(steps: seq<Step>) {
    forall step <- steps :: step.Lookup? || step.Consider?
  }

  lemma {:induction false} LookStepsLook(ids: seq<string>, looks: seq<Read>, k: nat)
    requires k <= |ids| == |looks|
    ensures OnlyLooks(LookSteps(ids, looks, k))
  {
    if k > 0 {
      LookStepsLook(ids, looks, k - 1);
    }
  }

  /** The state after looking up and considering the first k ids one after the other. */
  ghost function AfterLooks(site: Site, st: Sys, ids: seq<string>, looks: seq<Read>, k: nat): Sys
    requires k <= |ids| == |looks|
  {
    if k == 0 then st
    else AfterLook(site, AfterLooks(site, st, ids, looks, k - 1), ids[k - 1], looks[k - 1])
  }

  ghost function AfterLook(site: Site, st: Sys, id: string, look: Read): Sys {
    Apply(site, Apply(site, st, Lookup(id)), Consider(id, look))
  }

  lemma {:induction false} LooksAreRun(site: Site, st: Sys, before: seq<Step>, ids: seq<string>, looks: seq<Read>, k: nat)
    requires k <= |ids| == |looks| && CanRun(site, st, before)
    ensures
      var steps := before + LookSteps(ids, looks, k);
      CanRun(site, st, steps) && Run(site, st, steps) == AfterLooks(site, Run(site, st, before), ids, looks, k)
  {
    if k == 0 {
      assert before + [] == before;
    } else {
      var (id, look) := (ids[k - 1], looks[k - 1]);
      LooksAreRun(site, st, before, ids, looks, k - 1);
      var steps := before + LookSteps(ids, looks, k - 1);
      Extend(site, st, steps, Lookup(id));
      Extend(site, st, steps + [Lookup(id)], Consider(id, look));
      assert steps + [Lookup(id)] + [Consider(id, look)] == before + LookSteps(ids, looks, k);
    }
  }

  ghost function MarkSteps(ids: seq<string>, marks: seq<Read>, keys: seq<Option<string>>): seq<Step>
    requires |ids| <= |marks| && |ids| == |keys|
    decreases |ids|
  {
    if ids == [] then []
    else
      var n := |ids| - 1;
      MarkSteps(ids[..n], marks, keys[..n]) + [MarkCache(ids[n], marks[n]), MarkIndex(ids[n], keys[n])]
  }

  lemma {:induction false} MarksPrefix(ids: seq<string>, marks: seq<Read>, keys: seq<Option<string>>, k: nat)
    requires k <= |ids| <= |marks| && |ids| == |keys|
    ensures MarkSteps(ids[..k], marks, keys[..k]) <= MarkSteps(ids, marks, keys)
    decreases |ids|
  {
    if k < |ids| {
      var n := |ids| - 1;
      MarksPrefix(ids[..n], marks, keys[..n], k);
      assert ids[..n][..k] == ids[..k] && keys[..n][..k] == keys[..k];
    } else {
      assert ids[..k] == ids && keys[..k] == keys;
    }
  }

  lemma {:induction false} Split(site: Site, st: Sys, a: seq<Step>, b: seq<Step>)
    requires CanRun(site, st, a + b)
    ensures CanRun(site, st, a) && CanRun(site, Run(site, st, a), b) && Run(site, Run(site, st, a), b) == Run(site, st, a + b)
    decreases |a|
  {
    if a == [] {
      assert a + b == b;
    } else {
      assert (a + b)[1..] == a[1..] + b;
      Split(site, Apply(site, st, a[0]), a[1..], b);
    }
  }

  /** The marks before the p-th id, its own two, and the run that follows these. */
  ghost function MarksBefore(picked: seq<string>, marks: seq<Read>, keys: seq<Option<string>>, p: nat): seq<Step>
    requires p < |picked| <= |marks| && |keys| == |picked|
  {
    MarkSteps(picked[..p], marks, keys[..p])
  }

  ghost function MarksOf(picked: seq<string>, marks: seq<Read>, keys: seq<Option<string>>, p: nat): seq<Step>
    requires p < |picked| <= |marks| && |keys| == |picked|
  {
    [MarkCache(picked[p], marks[p]), MarkIndex(picked[p], keys[p])]
  }

  lemma MarksApart(picked: seq<string>, marks: seq<Read>, keys: seq<Option<string>>, p: nat) returns (later: seq<Step>)
    requires p < |picked| <= |marks| && |keys| == |picked|
    ensures MarkSteps(picked, marks, keys) == MarksBefore(picked, marks, keys, p) + MarksOf(picked, marks, keys, p) + later
  {
    MarksPrefix(picked, marks, keys, p + 1);
    assert picked[..p + 1][..p] == picked[..p] && keys[..p + 1][..p] == keys[..p];
    later := MarkSteps(picked, marks, keys)[|MarksBefore(picked, marks, keys, p)| + 2..];
  }

  /** The trace of the marks, taken apart at the p-th id. */
  lemma MarksSplit(site: Site, st: Sys, picked: seq<string>, marks: seq<Read>, keys: seq<Option<string>>, p: nat, after: seq<Step>)
    returns (rest: seq<Step>)
    requires p < |picked| <= |marks| && |keys| == |picked|
    requires CanRun(site, st, MarkSteps(picked, marks, keys) + after)
    ensures
      var (first, own) := (MarksBefore(picked, marks, keys, p), MarksOf(picked, marks, keys, p));
      && MarkSteps(picked, marks, keys) + after == first + (own + rest)
      && CanRun(site, st, first) && CanRun(site, Run(site, st, first), own)
      && var marked := Run(site, Run(site, st, first), own);
      && CanRun(site, marked, rest) && Run(site, marked, rest) == Run(site, st, MarkSteps(picked, marks, keys) + after)
  {
    var (first, own) := (MarksBefore(picked, marks, keys, p), MarksOf(picked, marks, keys, p));
    var later := MarksApart(picked, marks, keys, p);
    rest := later + after;
    assert first + own + later + after == first + (own + rest);
    SplitTwice(site, st, first, own, rest);
  }

  lemma SplitTwice(site: Site, st: Sys, a: seq<Step>, b: seq<Step>, c: seq<Step>)
    requires CanRun(site, st, a + (b + c))
    ensures CanRun(site, st, a) && CanRun(site, Run(site, st, a), b)
    ensures
      var mid := Run(site, Run(site, st, a), b);
      CanRun(site, mid, c) && Run(site, mid, c) == Run(site, st, a + (b + c))
  {
    Split(site, st, a, b + c);
    Split(site, Run(site, st, a), b, c);
  }

  /** From the marks of DeleteInstances on: the p-th id it sent, if its scale set lists it when
      it is marked and no regeneration was under way, stays gone and is not sent again, over
      the marks of the other ids and any run after them that still shows the VM. */
  lemma PickedStaysGone(site: Site, st: Sys, picked: seq<string>, marks: seq<Read>, keys: seq<Option<string>>, p: nat, rest: seq<Step>)
    requires p < |picked| <= |marks| && |keys| == |picked| && keys[p].Some?
    requires
      var (first, own) := (MarksBefore(picked, marks, keys, p), MarksOf(picked, marks, keys, p));
      && CanRun(site, st, first) && CanRun(site, Run(site, st, first), own)
      && var at := Run(site, st, first);
      && var instances := AfterRead(site.settings, at.cache, marks[p]).0.instances;
      && at.pending == [] && CaseDistinctInstances(instances) && Lists(instances, picked[p]) && CaseDistinct(at.index.owners.Keys)
      && CanRun(site, Run(site, at, own), rest) && BenignRun(site, Run(site, at, own), rest, picked[p])
    ensures
      var at := Run(site, st, MarksBefore(picked, marks, keys, p));
      var end := Run(site, Run(site, at, MarksOf(picked, marks, keys, p)), rest);
      && FirstWithId(end.cache.instances, picked[p]).Some? && IsDeleting(FirstWithId(end.cache.instances, picked[p]).value)
      && (forall asked, answer :: EqualFold(asked, picked[p]) && AzureFormat(asked) ==>
            (MayAnswer(end.index, asked, answer) <==> answer == Gone))
      && at.chosen <= end.chosen && picked[p] !in end.chosen[|at.chosen|..]
  {
    var at := Run(site, st, MarksBefore(picked, marks, keys, p));
    MarkedStaysGone(site, at, picked[p], marks[p], keys[p].value, rest);
  }

  lemma MarkedStaysGone(site: Site, at: Sys, id: string, read: Read, key: string, rest: seq<Step>)
    requires CanRun(site, at, [MarkCache(id, read), MarkIndex(id, Some(key))])
    requires at.pending == [] && CaseDistinct(at.index.owners.Keys)
    requires
      var instances := AfterRead(site.settings, at.cache, read).0.instances;
      CaseDistinctInstances(instances) && Lists(instances, id)
    requires
      var marked := Run(site, at, [MarkCache(id, read), MarkIndex(id, Some(key))]);
      CanRun(site, marked, rest) && BenignRun(site, marked, rest, id)
    ensures
      var end := Run(site, Run(site, at, [MarkCache(id, read), MarkIndex(id, Some(key))]), rest);
      && FirstWithId(end.cache.instances, id).Some? && IsDeleting(FirstWithId(end.cache.instances, id).value)
      && (forall asked, answer :: EqualFold(asked, id) && AzureFormat(asked) ==>
            (MayAnswer(end.index, asked, answer) <==> answer == Gone))
      && at.chosen <= end.chosen && id !in end.chosen[|at.chosen|..]
  {
    TwoMarks(site, at, id, read, key);
    DeletedIdStaysGone(site, at, id, read, [], key, rest);
  }

  lemma TwoMarks(site: Site, at: Sys, id: string, read: Read, key: string)
    requires CanRun(site, at, [MarkCache(id, read), MarkIndex(id, Some(key))])
    ensures
      var half := Apply(site, at, MarkCache(id, read));
      && Enabled(site, half, MarkIndex(id, Some(key))) && half.index == at.index && half.chosen == at.chosen
      && Run(site, at, [MarkCache(id, read), MarkIndex(id, Some(key))]) == Apply(site, half, MarkIndex(id, Some(key)))
  {
    var (one, two) := (MarkCache(id, read), MarkIndex(id, Some(key)));
    assert [one, two][1..] == [two] && [two][1..] == [];
    var half := Apply(site, at, one);
    assert CanRun(site, half, [two]) && Run(site, at, [one, two]) == Run(site, half, [two]);
    assert Run(site, half, [two]) == Run(site, Apply(site, half, two), []);
  }

  lemma {:induction false} Extend(site: Site, st: Sys, steps: seq<Step>, step: Step)
    requires CanRun(site, st, steps) && Enabled(site, Run(site, st, steps), step)
    ensures CanRun(site, st, steps + [step])
    ensures Run(site, st, steps + [step]) == Apply(site, Run(site, st, steps), step)
    decreases |steps|
  {
    if steps == [] {
      assert [step][1..] == [];
    } else {
      assert (steps + [step])[1..] == steps[1..] + [step];
      Extend(site, Apply(site, st, steps[0]), steps[1..], step);
    }
  }

  /** Every answer a lookup of the id may give is a group of this name. */
  ghost predicate Owned(c: Contents, t: VmType, id: string, group: string) {
    forall r :: MayFindCached(c, t, id, r) ==> r.Ok? && r.value.Some? && EqualFold(r.value.value.id, group)
  }

  /** It then leaves the cache as it is. */
  lemma OwnedIsFound(c: Contents, t: VmType, id: string, group: string)
    requires Owned(c, t, id, group)
    ensures AfterFind(c, t, id) == c
  {
    var inst := Normalize(id);
    if inst.Ok? && Omitted(c, t, inst.value) {
      LeftOutIsUnowned(c, t, id);
    }
  }

  lemma LeftOutIsUnowned(c: Contents, t: VmType, id: string)
    requires Normalize(id).Ok? && Omitted(c, t, Normalize(id).value)
    ensures MayFindCached(c, t, id, Ok(None))
  {
  }

  ghost predicate AllOwned(c: Contents, t: VmType, ids: seq<string>, group: string) {
    forall id <- ids :: Owned(c, t, id, group)
  }

  lemma {:induction false} OwnedLooks(site: Site, st: Sys, ids: seq<string>, looks: seq<Read>, k: nat, group: string)
    requires k <= |ids| == |looks| && AllOwned(st.index, site.vmType, ids, group)
    ensures AfterLooks(site, st, ids, looks, k).index == st.index
  {
    if k > 0 {
      OwnedLooks(site, st, ids, looks, k - 1, group);
      OwnedLook(site, AfterLooks(site, st, ids, looks, k - 1), ids[k - 1], looks[k - 1], group);
    }
  }

  /** The instance cache after looking at the first k ids, and the ids chosen. */
  ghost function Looked(site: Site, c: Cache, ids: seq<string>, looks: seq<Read>, k: nat): (Cache, seq<string>)
    requires k <= |ids| == |looks|
  {
    if k == 0 then (c, [])
    else
      var (before, chosen) := Looked(site, c, ids, looks, k - 1);
      (AfterRead(site.settings, before, looks[k - 1]).0,
       if Skips(site, before, ids[k - 1], looks[k - 1]) then chosen else chosen + [ids[k - 1]])
  }

  lemma {:induction false} LookedIs(site: Site, st: Sys, ids: seq<string>, looks: seq<Read>, k: nat)
    requires k <= |ids| == |looks|
    ensures
      var after := AfterLooks(site, st, ids, looks, k);
      var looked := Looked(site, st.cache, ids, looks, k);
      after.cache == looked.0 && after.chosen == st.chosen + looked.1
  {
    if k > 0 {
      LookedIs(site, st, ids, looks, k - 1);
      LookIs(site, AfterLooks(site, st, ids, looks, k - 1), ids[k - 1], looks[k - 1]);
    }
  }

  lemma LookIs(site: Site, st: Sys, id: string, look: Read)
    ensures
      var after := AfterLook(site, st, id, look);
      && after.cache == AfterRead(site.settings, st.cache, look).0
      && after.chosen == if Skips(site, st.cache, id, look) then st.chosen else st.chosen + [id]
  {
  }

  lemma SameSuffix(a: seq<string>, b: seq<string>, c: seq<string>)
    requires a + b == a + c
    ensures b == c
  {
    assert b == (a + b)[|a|..] && c == (a + c)[|a|..];
  }

  /** Looks served by a fresh cache leave it as it is and choose exactly the ids not known to
      be deleting. */
  lemma {:induction false} ServedLooks(site: Site, c: Cache, ids: seq<string>, looks: seq<Read>, k: nat)
    requires k <= |ids| == |looks| && AllServed(site.settings, c, looks) && forall look <- looks :: look.size.None?
    ensures Looked(site, c, ids, looks, k) == (c, Undeleted(c.instances, ids, k))
  {
    if k > 0 {
      ServedLooks(site, c, ids, looks, k - 1);
      assert looks[k - 1] in looks;
      SkipsIff(site, c, ids[k - 1], looks[k - 1]);
      assert AfterRead(site.settings, c, looks[k - 1]) == (c, Outcome(false, false));
      assert Undeleted(c.instances, ids, k - 1) + [] == Undeleted(c.instances, ids, k - 1);
    }
  }

  lemma OwnedLook(site: Site, st: Sys, id: string, look: Read, group: string)
    requires Owned(st.index, site.vmType, id, group)
    ensures AfterLook(site, st, id, look).index == st.index
  {
    OwnedIsFound(st.index, site.vmType, id, group);
  }

  class Deleter {
    const site: Site
    const scale: ScaleSets.ScaleSet
    const cache: InstanceCache
    const index: AzureCache
    ghost var pending: seq<Index>
    ghost var chosen: seq<string>

    /** The instance cache is this scale set's own. */
    ghost predicate Wired() {
      cache.settings == site.settings
    }

    ghost predicate Valid()
      reads this, scale, scale.azure, scale.st.heap.Keys
    {
      scale.Valid() && Wired()
    }

    ghost function View(): Sys
      reads this, cache, index
    {
      Sys(cache.View(), index.View(), pending, chosen)
    }

    constructor (site: Site, scale: ScaleSets.ScaleSet, cache: InstanceCache, index: AzureCache)
      requires scale.Valid() && cache.settings == site.settings
      ensures Valid() && View() == Sys(cache.View(), index.View(), [], [])
    {
      this.site, this.scale, this.cache, this.index := site, scale, cache, index;
      pending, chosen := [], [];
    }

    /** GetNodeGroupForInstance; Nothing stands for no error, with the group's name. */
    method Owner(id: string, ghost common: string) returns (reply: DeleteReply, group: string)
      modifies index`unowned
      ensures View() == Apply(site, old(View()), Lookup(id))
      ensures reply.Failed? || reply.Crashed? || reply.Nothing?
      ensures Owned(old(index.View()), site.vmType, id, common) ==>
        index.View() == old(index.View()) && reply.Nothing? && EqualFold(group, common)
    {
      ghost var before := index.View();
      var r := index.FindForInstance(id, site.vmType);
      if Owned(before, site.vmType, id, common) {
        OwnedIsFound(before, site.vmType, id, common);
      }
      if r.Err? {
        return Failed, "";
      }
      if r.value.None? {
        return Crashed, "";
      }
      return Nothing, r.value.value.id;
    }

    /** One id of the first loop: chosen unless it is known to be deleting. */
    method Look(id: string, look: Read) returns (picked: bool)
      requires Wired() && look.size.None?
      modifies cache, this`chosen
      ensures picked == !Skips(site, old(cache.View()), id, look)
      ensures View() == Apply(site, old(View()), Consider(id, look))
    {
      var found := cache.GetInstanceByProviderID(id, look);
      picked := !(found.Ok? && found.value.Some? && IsDeleting(found.value.value));
      if picked {
        chosen := chosen + [id];
      }
    }

    /** verifyNodeGroup, and the id considered if it passes. */
    method VerifyAndLook(id: string, look: Read, group: string, ghost common: string)
      returns (reply: DeleteReply, take: bool)
      requires Wired() && look.size.None?
      modifies cache, index`unowned, this`chosen
      ensures reply.Failed? || reply.Crashed? || reply.Nothing?
      ensures View() == if reply.Nothing? then AfterLook(site, old(View()), id, look) else Apply(site, old(View()), Lookup(id))
      ensures chosen == if reply.Nothing? && take then old(chosen) + [id] else old(chosen)
      ensures EqualFold(group, common) && Owned(old(View()).index, site.vmType, id, common) ==> reply.Nothing?
    {
      take := false;
      var owner;
      reply, owner := Owner(id, common);
      if !reply.Nothing? {
        return;
      }
      if !EqualFold(owner, group) {
        return Failed, take;
      }
      take := Look(id, look);
      return Nothing, take;
    }

    /** The first loop of DeleteInstances; it goes through when one group owns all the ids,
        and otherwise stops at the n-th. */
    method SelectFrom(ids: seq<string>, looks: seq<Read>, group: string, ghost common: string)
      returns (reply: DeleteReply, picked: seq<string>, ghost n: nat)
      requires Wired() && |looks| == |ids| && (forall look <- looks :: look.size.None?)
      modifies cache, index`unowned, this`chosen
      ensures chosen == old(chosen) + picked && |picked| <= |ids|
      ensures reply.Crashed? || reply.Failed? || reply.Nothing?
      ensures reply.Nothing? ==> View() == AfterLooks(site, old(View()), ids, looks, |ids|)
      ensures !reply.Nothing? ==>
        n < |ids| && View() == Apply(site, AfterLooks(site, old(View()), ids, looks, n), Lookup(ids[n]))
      ensures !reply.Nothing? && EqualFold(group, common) ==>
        !Owned(AfterLooks(site, old(View()), ids, looks, n).index, site.vmType, ids[n], common)
    {
      picked, n := [], 0;
      for i := 0 to |ids|
        invariant View() == AfterLooks(site, old(View()), ids, looks, i)
        invariant chosen == old(chosen) + picked && |picked| <= i
      {
        var take;
        reply, take := VerifyAndLook(ids[i], looks[i], group, common);
        n := i;
        if !reply.Nothing? {
          return;
        }
        if take {
          picked := picked + [ids[i]];
        }
      }
      reply := Nothing;
    }

    /** The same, with the ids it picks. */
    method SelectAll(ids: seq<string>, looks: seq<Read>, group: string, ghost common: string)
      returns (reply: DeleteReply, picked: seq<string>, ghost n: nat)
      requires Wired() && |looks| == |ids| && (forall look <- looks :: look.size.None?)
      modifies cache, index`unowned, this`chosen
      ensures chosen == old(chosen) + picked && |picked| <= |ids|
      ensures reply.Crashed? || reply.Failed? || reply.Nothing?
      ensures reply.Nothing? ==> View() == AfterLooks(site, old(View()), ids, looks, |ids|)
      ensures !reply.Nothing? ==>
        n < |ids| && View() == Apply(site, AfterLooks(site, old(View()), ids, looks, n), Lookup(ids[n]))
      ensures !reply.Nothing? && EqualFold(group, common) ==>
        !Owned(AfterLooks(site, old(View()), ids, looks, n).index, site.vmType, ids[n], common)
      ensures reply.Nothing? ==> picked == Looked(site, old(cache.View()), ids, looks, |ids|).1
    {
      reply, picked, n := SelectFrom(ids, looks, group, common);
      LookedIs(site, old(View()), ids, looks, |ids|);
      if reply.Nothing? {
        SameSuffix(old(chosen), picked, Looked(site, old(cache.View()), ids, looks, |ids|).1);
      }
    }

    /** The group of the first id, then the loop. */
    method Select(ids: seq<string>, looks: seq<Read>, ghost common: string)
      returns (reply: DeleteReply, picked: seq<string>, ghost steps: seq<Step>)
      requires Wired() && ids != [] && |looks| == |ids| && forall look <- looks :: look.size.None?
      modifies cache, index`unowned, this`chosen
      ensures CanRun(site, old(View()), steps) && View() == Run(site, old(View()), steps) && OnlyLooks(steps)
      ensures chosen == old(chosen) + picked && |picked| <= |ids|
      ensures reply.Crashed? || reply.Failed? || (reply.Nothing? && steps == [Lookup(ids[0])] + LookSteps(ids, looks, |ids|))
      ensures AllOwned(old(index.View()), site.vmType, ids, common) ==> reply.Nothing?
      ensures reply.Nothing? ==> picked == Looked(site, old(cache.View()), ids, looks, |ids|).1
    {
      ghost var start := View();
      ghost var n;
      picked, steps := [], [] + [Lookup(ids[0])];
      Extend(site, start, [], Lookup(ids[0]));
      var group;
      reply, group := Owner(ids[0], common);
      if !reply.Nothing? {
        return;
      }
      ghost var from := View();
      reply, picked, n := SelectAll(ids, looks, group, common);
      ghost var k := if reply.Nothing? then |ids| else n;
      LooksAreRun(site, start, steps, ids, looks, k);
      LookStepsLook(ids, looks, k);
      steps := steps + LookSteps(ids, looks, k);
      if !reply.Nothing? {
        if AllOwned(start.index, site.vmType, ids, common) {
          OwnedLooks(site, from, ids, looks, n, common);
        }
        Extend(site, start, steps, Lookup(ids[n]));
        steps := steps + [Lookup(ids[n])];
      }
    }

    /** The instance ids of the chosen refs. */
    method InstanceIds(picked: seq<string>) returns (r: Result<seq<string>>)
      ensures r.Ok? <==> AllNamed(picked)
      ensures r.Ok? ==> Names(picked, r.value)
    {
      var instanceIds := [];
      for k := 0 to |picked|
        invariant |instanceIds| == k && forall j :: 0 <= j < k ==> LastSegment(picked[j]) == Ok(instanceIds[j])
      {
        var segment := LastSegment(picked[k]);
        if segment.Err? {
          return Err;
        }
        instanceIds := instanceIds + [segment.value];
      }
      return Ok(instanceIds);
    }

    /** One id marked in both caches. */
    method MarkOne(id: string, mark: Read, ghost start: Sys, ghost steps: seq<Step>) returns (ghost key: Option<string>)
      requires Wired() && mark.size.None? && CanRun(site, start, steps) && View() == Run(site, start, steps)
      modifies cache, index`states
      ensures
        var steps' := steps + [MarkCache(id, mark), MarkIndex(id, key)];
        CanRun(site, start, steps') && View() == Run(site, start, steps')
    {
      cache.SetInstanceStatusByProviderID(id, MARK, mark);
      Extend(site, start, steps, MarkCache(id, mark));
      ghost var before := index.View();
      index.SetInstanceStateByProviderID(id, Deleting);
      key := None;
      if AzureFormat(id) && Indexed(before, id) {
        ghost var k :| k in before.owners && EqualFold(k, id) && index.View() == before.(states := before.states[k := Deleting]);
        key := Some(k);
      }
      assert Enabled(site, Run(site, start, steps + [MarkCache(id, mark)]), MarkIndex(id, key));
      Extend(site, start, steps + [MarkCache(id, mark)], MarkIndex(id, key));
      assert steps + [MarkCache(id, mark)] + [MarkIndex(id, key)] == steps + [MarkCache(id, mark), MarkIndex(id, key)];
    }

    method MarkAll(picked: seq<string>, marks: seq<Read>, ghost start: Sys, ghost steps: seq<Step>)
      returns (ghost keys: seq<Option<string>>)
      requires Wired() && |picked| <= |marks| && (forall mark <- marks :: mark.size.None?)
      requires CanRun(site, start, steps) && View() == Run(site, start, steps)
      modifies cache, index`states
      ensures |keys| == |picked|
      ensures
        var steps' := steps + MarkSteps(picked, marks, keys);
        CanRun(site, start, steps') && View() == Run(site, start, steps')
    {
      keys := [];
      assert steps + [] == steps;
      for i := 0 to |picked|
        invariant |keys| == i
        invariant CanRun(site, start, steps + MarkSteps(picked[..i], marks, keys))
        invariant View() == Run(site, start, steps + MarkSteps(picked[..i], marks, keys))
      {
        ghost var done := MarkSteps(picked[..i], marks, keys);
        ghost var key := MarkOne(picked[i], marks[i], start, steps + done);
        ghost var pair := [MarkCache(picked[i], marks[i]), MarkIndex(picked[i], key)];
        assert picked[..i + 1][..i] == picked[..i] && (keys + [key])[..i] == keys;
        assert steps + done + pair == steps + (done + pair);
        keys := keys + [key];
      }
      assert picked[..|picked|] == picked;
    }

    /** A non-strict delete marks all its ids, a strict one none. */
    ghost function NoteSteps(picked: seq<string>, marks: seq<Read>, keys: seq<Option<string>>): seq<Step>
      requires |picked| <= |marks| && |picked| == |keys|
    {
      if scale.cfg.strict then [] else MarkSteps(picked, marks, keys)
    }

    /** What follows an accepted delete. */
    method Note(picked: seq<string>, marks: seq<Read>, hasUnregisteredNodes: bool, ghost start: Sys, ghost steps: seq<Step>)
      returns (ghost keys: seq<Option<string>>)
      requires Valid() && 0 < |picked| <= |marks| && (forall mark <- marks :: mark.size.None?)
      requires CanRun(site, start, steps) && View() == Run(site, start, steps)
      modifies cache, index`states
      modifies scale`curSize, scale`lastSizeRefresh, scale`deletes, scale`st
      ensures Valid() && |keys| == |picked|
      ensures
        var steps' := steps + NoteSteps(picked, marks, keys);
        CanRun(site, start, steps') && View() == Run(site, start, steps')
      ensures scale.st == CapacityProtocol.AfterDelete(scale.cfg, old(scale.st), |picked|, hasUnregisteredNodes)
    {
      scale.NoteDelete(|picked|, hasUnregisteredNodes);
      if scale.cfg.strict {
        keys := seq(|picked|, _ => None);
        assert steps + [] == steps;
      } else {
        keys := MarkAll(picked, marks, start, steps);
      }
    }

    /** The part of DeleteInstances before the request: the ids to send, with their names. */
    method Choose(ids: seq<string>, looks: seq<Read>, ghost common: string)
      returns (reply: DeleteReply, picked: seq<string>, instanceIds: seq<string>, ghost steps: seq<Step>)
      requires Wired() && |looks| == |ids| && forall look <- looks :: look.size.None?
      modifies cache, index`unowned, this`chosen
      ensures CanRun(site, old(View()), steps) && View() == Run(site, old(View()), steps) && OnlyLooks(steps)
      ensures chosen == old(chosen) + picked && |picked| <= |ids|
      ensures reply.Crashed? || reply.Failed? || reply.Nothing?
      ensures reply.Nothing? ==> Names(picked, instanceIds)
      ensures reply.Nothing? && picked != [] ==> ids != [] && steps == [Lookup(ids[0])] + LookSteps(ids, looks, |ids|)
      ensures AllOwned(old(index.View()), site.vmType, ids, common) && AllNamed(picked) ==> reply.Nothing?
      ensures (reply.Nothing? || AllOwned(old(index.View()), site.vmType, ids, common))
              && AllServed(cache.settings, old(cache.View()), looks) ==>
        picked == Undeleted(old(cache.instances), ids, |ids|)
    {
      reply, picked, instanceIds, steps := Nothing, [], [], [];
      if ids == [] {
        return;
      }
      if AllServed(cache.settings, cache.View(), looks) {
        ServedLooks(site, cache.View(), ids, looks, |ids|);
      }
      reply, picked, steps := Select(ids, looks, common);
      if reply.Nothing? {
        var names := InstanceIds(picked);
        if names.Err? {
          reply := Failed;
        } else {
          instanceIds := names.value;
        }
      }
    }

    /** DeleteInstances: what is sent is exactly what was chosen, each id once considered and
        not known to be deleting; only an accepted delete touches the size, by the number of
        ids sent, and only an accepted non-strict one marks, all of them, in both caches. */
    method DeleteInstances(ids: seq<string>, looks: seq<Read>, marks: seq<Read>, hasUnregisteredNodes: bool, accepted: bool,
                           ghost common: string)
      returns (reply: DeleteReply, picked: seq<string>, ghost steps: seq<Step>, ghost keys: seq<Option<string>>)
      requires Valid() && |looks| == |marks| == |ids|
      requires (forall look <- looks :: look.size.None?) && (forall mark <- marks :: mark.size.None?)
      modifies cache, index`unowned, index`states, this`chosen
      modifies scale`curSize, scale`lastSizeRefresh, scale`deletes, scale`st
      ensures Valid() && CanRun(site, old(View()), steps) && View() == Run(site, old(View()), steps)
      ensures chosen == old(chosen) + picked && |picked| <= |ids|
      ensures (reply.Nothing? || reply.Sent? || reply.Refused? || AllOwned(old(index.View()), site.vmType, ids, common))
              && AllServed(cache.settings, old(cache.View()), looks) ==>
        picked == Undeleted(old(cache.instances), ids, |ids|)
      ensures reply.Nothing? ==> picked == []
      ensures reply.Refused? ==> !accepted
      ensures AllOwned(old(index.View()), site.vmType, ids, common) && accepted && AllNamed(picked) && picked != [] ==> reply.Sent?
      ensures reply.Sent? ==>
        && accepted && picked != [] && Names(picked, reply.instanceIds) && |keys| == |picked|
        && steps == [Lookup(ids[0])] + LookSteps(ids, looks, |ids|) + NoteSteps(picked, marks, keys)
        && scale.st == CapacityProtocol.AfterDelete(scale.cfg, old(scale.st), |picked|, hasUnregisteredNodes)
      ensures !reply.Sent? ==>
        && scale.st == old(scale.st) && index.states == old(index.states)
        && OnlyLooks(steps)
    {
      ghost var start := View();
      var instanceIds;
      keys := [];
      reply, picked, instanceIds, steps := Choose(ids, looks, common);
      if !reply.Nothing? || picked == [] {
        return;
      }
      if !accepted {
        return Refused, picked, steps, keys;
      }
      keys := Note(picked, marks, hasUnregisteredNodes, start, steps);
      return Sent(instanceIds), picked, steps + NoteSteps(picked, marks, keys), keys;
    }
  }
}

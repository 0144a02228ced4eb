/**
 AzureManager: reconciliation of the registered node groups with the explicitly
 configured and the automatically discovered ones.
 */
module Managers {
  import opened Common
  import opened CaseFold
  import opened AzureCaches
  import opened Instances

  function GroupIds(gs: seq<Group>): set<string> {
    set g <- gs :: g.id
  }

  /** No two different ids are equal up to case. */
  ghost predicate NoCaseClash(ids: set<string>) {
    forall a, b :: a in ids && b in ids && EqualFold(a, b) ==> a == b
  }

  function RegisterAll(c: Contents, explicit: set<string>, found: seq<Group>): Contents
    decreases |found|
  {
    if found == [] then c
    else
      var n := |found| - 1;
      var c' := RegisterAll(c, explicit, found[..n]);
      if found[n].id in explicit then c' else AfterRegister(c', found[n])
  }

  /** Whether registering the groups one after the other changes anything. */
  predicate AnyRegistered(c: Contents, explicit: set<string>, found: seq<Group>)
    decreases |found|
  {
    found != [] &&
    var n := |found| - 1;
    || AnyRegistered(c, explicit, found[..n])
    || (found[n].id !in explicit && !AlreadyRegistered(RegisterAll(c, explicit, found[..n]).registered, found[n]))
  }

  /** One more group registered. */
  lemma RegisterNext(c: Contents, explicit: set<string>, found: seq<Group>, g: Group)
    ensures
      var before := RegisterAll(c, explicit, found);
      && RegisterAll(c, explicit, found + [g]) == (if g.id in explicit then before else AfterRegister(before, g))
      && (AnyRegistered(c, explicit, found + [g]) <==>
            AnyRegistered(c, explicit, found) || (g.id !in explicit && !AlreadyRegistered(before.registered, g)))
      && GroupIds(found + [g]) == GroupIds(found) + {g.id}
  {
    assert (found + [g])[..|found|] == found;
  }

  predicate Kept(explicit: set<string>, present: set<string>, g: Group) {
    g.id in present || g.id in explicit
  }

  function Prune(c: Contents, explicit: set<string>, present: set<string>, gs: seq<Group>): Contents
    decreases |gs|
  {
    if gs == [] then c
    else
      var n := |gs| - 1;
      var c' := Prune(c, explicit, present, gs[..n]);
      if Kept(explicit, present, gs[n]) then c' else AfterUnregister(c', gs[n])
  }

  /** Whether any of the groups is unregistered. */
  predicate AnyDropped(explicit: set<string>, present: set<string>, gs: seq<Group>)
    decreases |gs|
  {
    gs != [] && (AnyDropped(explicit, present, gs[..|gs| - 1]) || !Kept(explicit, present, gs[|gs| - 1]))
  }

  /** fetchAutoNodeGroups with the groups discovery found. */
  function AfterDiscovery(c: Contents, explicit: set<string>, found: seq<Group>): Contents {
    var c' := RegisterAll(c, explicit, found);
    Prune(c', explicit, GroupIds(found), c'.registered)
  }

  predicate DiscoveryChanges(c: Contents, explicit: set<string>, found: seq<Group>) {
    || AnyRegistered(c, explicit, found)
    || AnyDropped(explicit, GroupIds(found), RegisterAll(c, explicit, found).registered)
  }

  // ------------------------------------------------------------ exactness

  ghost predicate DistinctIds(gs: seq<Group>) {
    forall i, j :: 0 <= i < j < |gs| ==> gs[i].id != gs[j].id
  }

  /** All the ids in play. */
  ghost function Ids(c: Contents, explicit: set<string>, found: seq<Group>): set<string> {
    GroupIds(c.registered) + explicit + GroupIds(found)
  }

  ghost predicate Discovered(explicit: set<string>, found: seq<Group>, x: Group) {
    x in found && x.id !in explicit
  }

  /** The registered group equal to an id up to case. */
  function Member(gs: seq<Group>, id: string): Option<Group> {
    var i := FindGroup(gs, id);
    if i.Some? then Some(gs[i.value]) else None
  }

  lemma MemberIff(gs: seq<Group>, x: Group)
    requires CaseDistinctGroups(gs)
    ensures x in gs <==> Member(gs, x.id) == Some(x)
  {
    if x in gs {
      var k :| 0 <= k < |gs| && gs[k] == x;
      var i := FindGroup(gs, x.id);
      assert i.Some? && i.value == k;
    }
  }

  lemma MemberAt(gs: seq<Group>, k: nat, id: string)
    requires CaseDistinctGroups(gs) && k < |gs| && EqualFold(gs[k].id, id)
    ensures Member(gs, id) == Some(gs[k])
  {
    var i := FindGroup(gs, id);
    assert i.Some? && i.value == k;
  }

  lemma RegisterDistinct(c: Contents, g: Group)
    requires CaseDistinctGroups(c.registered)
    ensures CaseDistinctGroups(AfterRegister(c, g).registered)
  {
  }

  lemma RegisterOwn(c: Contents, g: Group, id: string)
    requires CaseDistinctGroups(c.registered) && EqualFold(id, g.id)
    ensures
      var was := Member(c.registered, id);
      Member(AfterRegister(c, g).registered, id) == if was.Some? && SameBounds(was.value, g) then was else Some(g)
  {
    RegisterDistinct(c, g);
    var at := FindGroup(c.registered, g.id);
    if at.Some? {
      MemberAt(c.registered, at.value, id);
      MemberAt(AfterRegister(c, g).registered, at.value, id);
    } else {
      MemberAt(AfterRegister(c, g).registered, |c.registered|, id);
    }
  }

  lemma RegisterOther(c: Contents, g: Group, id: string)
    requires CaseDistinctGroups(c.registered) && !EqualFold(id, g.id)
    ensures Member(AfterRegister(c, g).registered, id) == Member(c.registered, id)
  {
    RegisterDistinct(c, g);
    var i := FindGroup(c.registered, id);
    if i.Some? {
      MemberAt(AfterRegister(c, g).registered, i.value, id);
    }
  }

  lemma RegisterMember(c: Contents, g: Group, id: string)
    requires CaseDistinctGroups(c.registered)
    ensures CaseDistinctGroups(AfterRegister(c, g).registered)
    ensures
      var was := Member(c.registered, id);
      Member(AfterRegister(c, g).registered, id) ==
        if !EqualFold(id, g.id) || (was.Some? && SameBounds(was.value, g)) then was else Some(g)
  {
    RegisterDistinct(c, g);
    if EqualFold(id, g.id) {
      RegisterOwn(c, g, id);
    } else {
      RegisterOther(c, g, id);
    }
  }

  /** What registering the discovered groups leaves of one class of ids equal up to case. */
  lemma {:induction false} RegisterAllMember(c: Contents, explicit: set<string>, found: seq<Group>, id: string)
    requires CaseDistinctGroups(c.registered)
    ensures
      var after := RegisterAll(c, explicit, found).registered;
      var was := Member(c.registered, id);
      && CaseDistinctGroups(after)
      && (Member(after, id) == was || (Member(after, id).Some? && Discovered(explicit, found, Member(after, id).value)))
      && (was.Some? && (forall f <- found :: Discovered(explicit, found, f) && EqualFold(f.id, id) ==> SameBounds(was.value, f)) ==>
            Member(after, id) == was)
      && ((forall f <- found :: Discovered(explicit, found, f) ==> !EqualFold(f.id, id)) ==> Member(after, id) == was)
    decreases |found|
  {
    if found != [] {
      var n := |found| - 1;
      RegisterAllMember(c, explicit, found[..n], id);
      assert found == found[..n] + [found[n]];
      if found[n].id !in explicit {
        RegisterMember(RegisterAll(c, explicit, found[..n]), found[n], id);
      }
    }
  }

  lemma {:induction false} PruneMembers(c: Contents, explicit: set<string>, present: set<string>, gs: seq<Group>, x: Group)
    requires CaseDistinctGroups(c.registered)
    ensures
      var after := Prune(c, explicit, present, gs).registered;
      && CaseDistinctGroups(after)
      && (x in after <==> x in c.registered && forall g <- gs :: EqualFold(g.id, x.id) ==> Kept(explicit, present, g))
    decreases |gs|
  {
    if gs != [] {
      var n := |gs| - 1;
      PruneMembers(c, explicit, present, gs[..n], x);
      assert gs == gs[..n] + [gs[n]];
      if !Kept(explicit, present, gs[n]) {
        WithoutIsFilter(Prune(c, explicit, present, gs[..n]).registered, gs[n].id);
      }
    }
  }

  /** Discovery leaves the groups that registration left, if they were found or are explicit. */
  lemma DiscoveryMembers(c: Contents, explicit: set<string>, found: seq<Group>, x: Group)
    requires CaseDistinctGroups(c.registered)
    ensures
      var after := AfterDiscovery(c, explicit, found).registered;
      && CaseDistinctGroups(after)
      && (x in after <==> Member(RegisterAll(c, explicit, found).registered, x.id) == Some(x) && Kept(explicit, GroupIds(found), x))
  {
    var mid := RegisterAll(c, explicit, found);
    RegisterAllMember(c, explicit, found, x.id);
    PruneMembers(mid, explicit, GroupIds(found), mid.registered, x);
    MemberIff(mid.registered, x);
    if x in mid.registered && Kept(explicit, GroupIds(found), x) {
      forall g | g in mid.registered && EqualFold(g.id, x.id) ensures g == x {
        var k :| 0 <= k < |mid.registered| && mid.registered[k] == g;
        MemberAt(mid.registered, k, x.id);
      }
    }
  }

  /** What discovery should leave: the explicitly configured groups that were registered, with
      their bounds, and the discovered ones that are not explicitly configured. */
  ghost predicate Wanted(c: Contents, explicit: set<string>, found: seq<Group>, x: Group) {
    (x in c.registered && x.id in explicit) || Discovered(explicit, found, x)
  }

  ghost predicate Exact(c: Contents, explicit: set<string>, found: seq<Group>) {
    forall x :: x in AfterDiscovery(c, explicit, found).registered <==> Wanted(c, explicit, found, x)
  }

  /** A discovered group is in the way of another group whose id differs from its own only in
      case: another discovered one, a registered explicit one, or a registered one with the
      same bounds. */
  ghost predicate Clash(c: Contents, explicit: set<string>, found: seq<Group>, f: Group, g: Group) {
    && Discovered(explicit, found, f) && EqualFold(f.id, g.id) && f.id != g.id
    && (|| Discovered(explicit, found, g)
        || (g in c.registered && (g.id in explicit || SameBounds(f, g))))
  }

  lemma SameClass(gs: seq<Group>, x: Group, y: Group)
    requires CaseDistinctGroups(gs) && x in gs && y in gs && EqualFold(x.id, y.id)
    ensures x == y
  {
    var a :| 0 <= a < |gs| && gs[a] == x;
    var b :| 0 <= b < |gs| && gs[b] == y;
    assert a == b;
  }

  /** A discovered group that is alone in its class, but for a registered group that gives way
      to it, ends up registered. */
  lemma {:induction false} DiscoveredWins(c: Contents, explicit: set<string>, found: seq<Group>, f: Group)
    requires CaseDistinctGroups(c.registered) && DistinctIds(found) && Discovered(explicit, found, f)
    requires forall g <- found :: g.id !in explicit && EqualFold(g.id, f.id) ==> g == f
    requires Member(c.registered, f.id).Some? && SameBounds(Member(c.registered, f.id).value, f) ==>
      Member(c.registered, f.id) == Some(f)
    ensures Member(RegisterAll(c, explicit, found).registered, f.id) == Some(f)
    decreases |found|
  {
    var n := |found| - 1;
    var c' := RegisterAll(c, explicit, found[..n]);
    assert found == found[..n] + [found[n]];
    RegisterAllMember(c, explicit, found[..n], f.id);
    if found[n] == f {
      assert forall g <- found[..n] :: g.id != f.id;
      RegisterMember(c', f, f.id);
    } else {
      DiscoveredWins(c, explicit, found[..n], f);
      if found[n].id !in explicit {
        assert found[n] in found && !EqualFold(found[n].id, f.id);
        RegisterMember(c', found[n], f.id);
      }
    }
  }

  lemma NoClashWins(c: Contents, explicit: set<string>, found: seq<Group>, f: Group)
    requires CaseDistinctGroups(c.registered) && DistinctIds(found) && Discovered(explicit, found, f)
    requires forall g :: !Clash(c, explicit, found, f, g)
    ensures Member(RegisterAll(c, explicit, found).registered, f.id) == Some(f)
  {
    forall g | g in found && g.id !in explicit && EqualFold(g.id, f.id) ensures g == f {
      assert !Clash(c, explicit, found, f, g);
    }
    var was := Member(c.registered, f.id);
    if was.Some? && SameBounds(was.value, f) {
      assert !Clash(c, explicit, found, f, was.value);
    }
    DiscoveredWins(c, explicit, found, f);
  }

  lemma NoClashExplicitStays(c: Contents, explicit: set<string>, found: seq<Group>, x: Group)
    requires CaseDistinctGroups(c.registered) && x in c.registered && x.id in explicit
    requires forall f, g :: !Clash(c, explicit, found, f, g)
    ensures Member(RegisterAll(c, explicit, found).registered, x.id) == Some(x)
  {
    forall f | f in found && Discovered(explicit, found, f) ensures !EqualFold(f.id, x.id) {
      assert !Clash(c, explicit, found, f, x);
    }
    RegisterAllMember(c, explicit, found, x.id);
    MemberIff(c.registered, x);
  }

  lemma WantedIsLeft(c: Contents, explicit: set<string>, found: seq<Group>, x: Group)
    requires CaseDistinctGroups(c.registered) && DistinctIds(found)
    requires forall f, g :: !Clash(c, explicit, found, f, g)
    ensures x in AfterDiscovery(c, explicit, found).registered <==> Wanted(c, explicit, found, x)
  {
    DiscoveryMembers(c, explicit, found, x);
    if Discovered(explicit, found, x) {
      NoClashWins(c, explicit, found, x);
    } else if x in c.registered && x.id in explicit {
      NoClashExplicitStays(c, explicit, found, x);
    } else if x in AfterDiscovery(c, explicit, found).registered {
      RegisterAllMember(c, explicit, found, x.id);
      MemberIff(c.registered, x);
      var f :| f in found && f.id == x.id;
      NoClashWins(c, explicit, found, f);
    }
  }

  lemma ExactHasNoClash(c: Contents, explicit: set<string>, found: seq<Group>, f: Group, g: Group)
    requires CaseDistinctGroups(c.registered) && Clash(c, explicit, found, f, g)
    ensures !Exact(c, explicit, found)
  {
    var after := AfterDiscovery(c, explicit, found).registered;
    DiscoveryMembers(c, explicit, found, f);
    if Exact(c, explicit, found) {
      assert Wanted(c, explicit, found, f);
      if Wanted(c, explicit, found, g) {
        SameClass(after, f, g);
      } else {
        var k :| 0 <= k < |c.registered| && c.registered[k] == g;
        MemberAt(c.registered, k, f.id);
        forall d | d in found && Discovered(explicit, found, d) && EqualFold(d.id, f.id) ensures SameBounds(g, d) {
          assert Wanted(c, explicit, found, d);
          SameClass(after, d, f);
        }
        RegisterAllMember(c, explicit, found, f.id);
      }
    }
  }

  /** Discovery leaves exactly what it should if and only if no discovered group is in the way
      of another whose id differs only in case. */
  lemma DiscoveryExactIff(c: Contents, explicit: set<string>, found: seq<Group>)
    requires CaseDistinctGroups(c.registered) && DistinctIds(found)
    ensures Exact(c, explicit, found) <==> forall f, g :: !Clash(c, explicit, found, f, g)
  {
    if forall f, g :: !Clash(c, explicit, found, f, g) {
      forall x ensures x in AfterDiscovery(c, explicit, found).registered <==> Wanted(c, explicit, found, x) {
        WantedIsLeft(c, explicit, found, x);
      }
    } else {
      var f, g :| Clash(c, explicit, found, f, g);
      ExactHasNoClash(c, explicit, found, f, g);
    }
  }

  /** In particular it does when no two ids in play differ only in case. */
  lemma DiscoveryIsExact(c: Contents, explicit: set<string>, found: seq<Group>, x: Group)
    requires CaseDistinctGroups(c.registered) && DistinctIds(found) && NoCaseClash(Ids(c, explicit, found))
    ensures
      var after := AfterDiscovery(c, explicit, found).registered;
      && CaseDistinctGroups(after)
      && (x in after <==> (x in c.registered && x.id in explicit) || Discovered(explicit, found, x))
  {
    forall f, g | f in found && (g in found || g in c.registered) && EqualFold(f.id, g.id) ensures f.id == g.id {
      assert f.id in GroupIds(found) && g.id in GroupIds(c.registered) + GroupIds(found);
      assert f.id in Ids(c, explicit, found) && g.id in Ids(c, explicit, found);
    }
    DiscoveryMembers(c, explicit, found, x);
    WantedIsLeft(c, explicit, found, x);
  }

  // ---------------------------------------------------------- idempotence

  lemma {:induction false} RegisterAllNothing(c: Contents, explicit: set<string>, found: seq<Group>)
    requires forall d <- found :: d.id in explicit || AlreadyRegistered(c.registered, d)
    ensures RegisterAll(c, explicit, found) == c && !AnyRegistered(c, explicit, found)
    decreases |found|
  {
    if found != [] {
      RegisterAllNothing(c, explicit, found[..|found| - 1]);
    }
  }

  lemma {:induction false} PruneNothing(c: Contents, explicit: set<string>, present: set<string>, gs: seq<Group>)
    requires forall g <- gs :: Kept(explicit, present, g)
    ensures Prune(c, explicit, present, gs) == c && !AnyDropped(explicit, present, gs)
    decreases |gs|
  {
    if gs != [] {
      PruneNothing(c, explicit, present, gs[..|gs| - 1]);
    }
  }

  lemma MemberIsRegistered(gs: seq<Group>, g: Group)
    requires CaseDistinctGroups(gs) && g in gs
    ensures AlreadyRegistered(gs, g)
  {
  }

  /** A second discovery of the same groups changes nothing and reports no change. */
  lemma DiscoveryIsIdempotent(c: Contents, explicit: set<string>, found: seq<Group>)
    requires CaseDistinctGroups(c.registered) && DistinctIds(found)
    requires forall f, g :: !Clash(c, explicit, found, f, g)
    ensures
      var once := AfterDiscovery(c, explicit, found);
      AfterDiscovery(once, explicit, found) == once && !DiscoveryChanges(once, explicit, found)
  {
    var once := AfterDiscovery(c, explicit, found);
    forall d | d in found && d.id !in explicit ensures AlreadyRegistered(once.registered, d) {
      WantedIsLeft(c, explicit, found, d);
      DiscoveryMembers(c, explicit, found, d);
      MemberIsRegistered(once.registered, d);
    }
    RegisterAllNothing(once, explicit, found);
    forall g | g in once.registered ensures Kept(explicit, GroupIds(found), g) {
      DiscoveryMembers(c, explicit, found, g);
    }
    PruneNothing(once, explicit, GroupIds(found), once.registered);
  }

  lemma {:induction false} NothingRegistered(c: Contents, explicit: set<string>, found: seq<Group>)
    requires !AnyRegistered(c, explicit, found)
    ensures RegisterAll(c, explicit, found) == c
    decreases |found|
  {
    if found != [] {
      NothingRegistered(c, explicit, found[..|found| - 1]);
    }
  }

  lemma {:induction false} NothingDropped(c: Contents, explicit: set<string>, present: set<string>, gs: seq<Group>)
    requires !AnyDropped(explicit, present, gs)
    ensures Prune(c, explicit, present, gs) == c
    decreases |gs|
  {
    if gs != [] {
      NothingDropped(c, explicit, present, gs[..|gs| - 1]);
    }
  }

  /** A discovery that reports no change, so that the cache is not invalidated, made none. */
  lemma NoChangeIsNoChange(c: Contents, explicit: set<string>, found: seq<Group>)
    requires !DiscoveryChanges(c, explicit, found)
    ensures AfterDiscovery(c, explicit, found) == c
  {
    NothingRegistered(c, explicit, found);
    NothingDropped(c, explicit, GroupIds(found), c.registered);
  }

  /** One discovery after the other. */
  function AfterDiscoveries(c: Contents, explicit: set<string>, founds: seq<seq<Group>>): Contents
    decreases |founds|
  {
    if founds == [] then c
    else AfterDiscovery(AfterDiscoveries(c, explicit, founds[..|founds| - 1]), explicit, founds[|founds| - 1])
  }

  /** Over any sequence of discoveries the explicitly configured groups stay as registered,
      and of the discovered ones only those of the last discovery are left. */
  lemma {:induction false} OnlyTheLastDiscoveryCounts(c: Contents, explicit: set<string>, founds: seq<seq<Group>>, ids: set<string>, x: Group)
    requires CaseDistinctGroups(c.registered) && NoCaseClash(ids) && GroupIds(c.registered) + explicit <= ids
    requires forall found <- founds :: DistinctIds(found) && GroupIds(found) <= ids
    ensures
      var after := AfterDiscoveries(c, explicit, founds).registered;
      && CaseDistinctGroups(after) && GroupIds(after) <= ids
      && (x.id in explicit ==> (x in after <==> x in c.registered))
      && (x.id !in explicit && founds != [] ==> (x in after <==> x in founds[|founds| - 1]))
    decreases |founds|
  {
    if founds != [] {
      var n := |founds| - 1;
      var before := AfterDiscoveries(c, explicit, founds[..n]);
      OnlyTheLastDiscoveryCounts(c, explicit, founds[..n], ids, x);
      assert founds[n] in founds;
      assert Ids(before, explicit, founds[n]) <= ids;
      DiscoveryIsExact(before, explicit, founds[n], x);
      var after := AfterDiscovery(before, explicit, founds[n]).registered;
      forall y | y in after ensures y.id in ids {
        DiscoveryIsExact(before, explicit, founds[n], y);
        assert y in before.registered ==> y.id in GroupIds(before.registered);
        assert y in founds[n] ==> y.id in GroupIds(founds[n]);
      }
    }
  }

  /** Ids that differ only in case can break this: a discovered group takes the place of an
      explicitly configured one, and a rediscovered group is dropped. */
  lemma CaseClashBreaksDiscovery()
    ensures
      var explicit := Group("A", 1, 5);
      var c := Contents(map[], {}, [explicit], map[], map[], {}, map[]);
      explicit !in AfterDiscovery(c, {"A"}, [Group("a", 1, 9)]).registered
    ensures
      var auto := Group("A", 1, 5);
      var c := Contents(map[], {}, [auto], map[], map[], {}, map[]);
      AfterDiscovery(c, {}, [Group("a", 1, 5)]).registered == []
  {
  }

  // ------------------------------------------------------------ the class

  /** The groups of the specs before the first that cannot be parsed. */
  function Parsed(specs: seq<Result<Group>>): seq<Group>
    decreases |specs|
  {
    if specs == [] || specs[0].Err? then [] else [specs[0].value] + Parsed(specs[1..])
  }

  lemma {:induction false} ParsedPrefix(specs: seq<Result<Group>>, groups: seq<Group>)
    requires |groups| <= |specs| && (|groups| < |specs| ==> specs[|groups|].Err?)
    requires forall k :: 0 <= k < |groups| ==> specs[k] == Ok(groups[k])
    ensures Parsed(specs) == groups && (|groups| == |specs| <==> forall spec <- specs :: spec.Ok?)
    decreases |groups|
  {
    if groups != [] {
      ParsedPrefix(specs[1..], groups[1..]);
    } else if specs != [] {
      assert specs[0] in specs;
    }
  }

  /** What each group's Nodes() answers. */
  function Answers(gs: seq<Group>, nodes: Group -> Result<seq<Instance>>): (r: seq<Result<seq<Instance>>>)
    ensures |r| == |gs|
  {
    seq(|gs|, i requires 0 <= i < |gs| => nodes(gs[i]))
  }

  class AzureManager {
    const cache: AzureCache
    const refreshInterval: nat
    var explicit: set<string>             // explicitlyConfigured
    var lastRefresh: int

    constructor (cache: AzureCache, refreshInterval: nat)
      ensures this.cache == cache && this.refreshInterval == refreshInterval && explicit == {} && lastRefresh == ZERO_TIME
    {
      this.cache, this.refreshInterval, explicit, lastRefresh := cache, refreshInterval, {}, ZERO_TIME;
    }

    /** The groups are registered, from `start` on, and `changed` is whether that changed anything. */
    ghost predicate Registered(start: Contents, groups: seq<Group>, changed: bool)
      reads cache
    {
      cache.View() == RegisterAll(start, {}, groups) && changed == AnyRegistered(start, {}, groups)
    }

    /** One explicitly configured group is registered and noted. */
    method RegisterExplicit(group: Group, before: bool, ghost start: Contents, ghost groups: seq<Group>) returns (changed: bool)
      requires Registered(start, groups, before)
      modifies this`explicit, cache`registered, cache`unowned
      ensures Registered(start, groups + [group], changed) && explicit == old(explicit) + {group.id}
    {
      RegisterNext(start, {}, groups, group);
      var registered := cache.Register(group);
      changed := before || registered;
      explicit := explicit + {group.id};
    }

    /** fetchExplicitNodeGroups: the specs up to the first bad one are registered; a bad
        one ends it without an invalidation. */
    method FetchExplicitNodeGroups(specs: seq<Result<Group>>, now: int) returns (ok: bool)
      modifies this, cache`registered, cache`unowned
      ensures ok <==> forall spec <- specs :: spec.Ok?
      ensures cache.View() == RegisterAll(old(cache.View()), {}, Parsed(specs))
      ensures explicit == old(explicit) + GroupIds(Parsed(specs))
      ensures lastRefresh == if ok && AnyRegistered(old(cache.View()), {}, Parsed(specs)) then now - refreshInterval else old(lastRefresh)
    {
      var changed := false;
      ghost var groups := [];
      for i := 0 to |specs|
        invariant |groups| == i && forall k :: 0 <= k < i ==> specs[k] == Ok(groups[k])
        invariant Registered(old(cache.View()), groups, changed)
        invariant explicit == old(explicit) + GroupIds(groups) && lastRefresh == old(lastRefresh)
      {
        if specs[i].Err? {
          ParsedPrefix(specs, groups);
          return false;
        }
        changed := RegisterExplicit(specs[i].value, changed, old(cache.View()), groups);
        groups := groups + [specs[i].value];
      }
      ParsedPrefix(specs, groups);
      if changed {
        InvalidateCache(now);
      }
      return true;
    }

    method InvalidateCache(now: int)
      modifies this`lastRefresh
      ensures lastRefresh == now - refreshInterval
    {
      lastRefresh := now - refreshInterval;
    }

    method FetchAutoNodeGroups(found: Result<seq<Group>>, now: int) returns (ok: bool)
      modifies this`lastRefresh, cache`registered, cache`unowned
      ensures ok <==> found.Ok?
      ensures !ok ==> cache.View() == old(cache.View()) && lastRefresh == old(lastRefresh)
      ensures ok ==> cache.View() == AfterDiscovery(old(cache.View()), explicit, found.value)
      ensures ok ==>
        lastRefresh == if DiscoveryChanges(old(cache.View()), explicit, found.value) then now - refreshInterval else old(lastRefresh)
    {
      if found.Err? {
        return false;
      }
      var groups := found.value;
      var changed, present := RegisterDiscovered(groups);
      var dropped := UnregisterMissing(present);
      if changed || dropped {
        InvalidateCache(now);
      }
      return true;
    }

    /** The second loop of fetchAutoNodeGroups, over the groups registered when it starts. */
    method UnregisterMissing(present: set<string>) returns (dropped: bool)
      modifies cache`registered
      ensures cache.View() == Prune(old(cache.View()), explicit, present, old(cache.registered))
      ensures dropped == AnyDropped(explicit, present, old(cache.registered))
    {
      var snapshot := cache.registered;
      dropped := false;
      for i := 0 to |snapshot|
        invariant cache.View() == Prune(old(cache.View()), explicit, present, snapshot[..i])
        invariant dropped == AnyDropped(explicit, present, snapshot[..i])
      {
        assert snapshot[..i + 1][..i] == snapshot[..i];
        if snapshot[i].id !in present && snapshot[i].id !in explicit {
          var _ := cache.Unregister(snapshot[i]);
          dropped := true;
        }
      }
      assert snapshot[..|snapshot|] == snapshot;
    }

    /** The first loop of fetchAutoNodeGroups. */
    method RegisterDiscovered(groups: seq<Group>) returns (changed: bool, present: set<string>)
      modifies cache`registered, cache`unowned
      ensures cache.View() == RegisterAll(old(cache.View()), explicit, groups)
      ensures changed == AnyRegistered(old(cache.View()), explicit, groups) && present == GroupIds(groups)
    {
      changed, present := false, {};
      for i := 0 to |groups|
        invariant cache.View() == RegisterAll(old(cache.View()), explicit, groups[..i])
        invariant changed == AnyRegistered(old(cache.View()), explicit, groups[..i]) && present == GroupIds(groups[..i])
      {
        assert groups[..i + 1] == groups[..i] + [groups[i]];
        RegisterNext(old(cache.View()), explicit, groups[..i], groups[i]);
        present := present + {groups[i].id};
        if groups[i].id !in explicit {
          var registered := cache.Register(groups[i]);
          changed := changed || registered;
        }
      }
      assert groups[..|groups|] == groups;
    }

    /** forceRefresh: discovery may fail without consequence; a failed regeneration leaves
        the time of the last refresh alone, so the refresh stays due. */
    method ForceRefresh(found: Result<seq<Group>>, r: Resources, nodes: Group -> Result<seq<Instance>>, now: int)
      returns (ok: bool)
      modifies this`lastRefresh, cache
      ensures
        var before := if found.Ok? then AfterDiscovery(old(cache.View()), explicit, found.value) else old(cache.View());
        (cache.View(), ok) == AfterRegenerate(before, r, Answers(before.registered, nodes))
      ensures lastRefresh ==
        if ok then now
        else if found.Ok? && DiscoveryChanges(old(cache.View()), explicit, found.value) then now - refreshInterval
        else old(lastRefresh)
    {
      var _ := FetchAutoNodeGroups(found, now);
      ok := cache.Regenerate(r, Answers(cache.registered, nodes));
      if ok {
        lastRefresh := now;
      }
    }

    /** Refresh: nothing happens while the last refresh is recent. */
    method Refresh(found: Result<seq<Group>>, r: Resources, nodes: Group -> Result<seq<Instance>>, now: int)
      returns (ok: bool)
      modifies this`lastRefresh, cache
      ensures old(lastRefresh) + refreshInterval > now ==> ok && cache.View() == old(cache.View()) && lastRefresh == old(lastRefresh)
      ensures old(lastRefresh) + refreshInterval <= now ==>
        var before := if found.Ok? then AfterDiscovery(old(cache.View()), explicit, found.value) else old(cache.View());
        (cache.View(), ok) == AfterRegenerate(before, r, Answers(before.registered, nodes))
      ensures old(lastRefresh) + refreshInterval <= now ==> if ok then lastRefresh == now else lastRefresh + refreshInterval <= now
    {
      if lastRefresh + refreshInterval > now {
        return true;
      }
      ok := ForceRefresh(found, r, nodes, now);
    }
  }
}

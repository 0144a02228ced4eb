/**
 InstanceCache: the instances of one scale set, kept from the VM list, with its
 refresh timer, throttling and proactive statuses.
 */
module InstanceCaches {
  import opened Common
  import opened CaseFold
  import opened Instances

  /** What the VM list shows of a VM: its provisioning state, the codes of its status
      view, and whether its vmssCSE extension reports an error. */
  datatype StatusView = StatusView(codes: Option<seq<string>>, cseFailed: bool)
  datatype Properties = Properties(state: Option<string>, view: Option<StatusView>)
  datatype Vm = Vm(id: string, properties: Option<Properties>)

  datatype Settings = Settings(period: nat, fastDelete: bool, detailedCse: bool, flexNodes: bool)

  datatype Mode = Uniform | Flexible | NoMode | NoVmss

  datatype Reply = Listed(vms: seq<Vm>) | Throttled(retryAfter: int) | ListFailed

  /** The clock before and after the list call, and the jitter drawn before it. */
  datatype Clock = Clock(start: int, end: int, splay: nat)

  datatype Cache = Cache(instances: seq<Instance>, lastRefresh: int)

  // ---------------------------------------------------------------- statuses

  predicate KnownPower(code: string) {
    code in {"PowerState/starting", "PowerState/running", "PowerState/stopping", "PowerState/stopped",
             "PowerState/deallocating", "PowerState/deallocated", "PowerState/unknown"}
  }

  function PowerOf(codes: seq<string>): string {
    if codes == [] then "PowerState/unknown"
    else if KnownPower(codes[0]) then codes[0]
    else PowerOf(codes[1..])
  }

  function CodesOf(view: StatusView): seq<string> {
    if view.codes.None? then [] else view.codes.value
  }

  predicate PowerRuns(power: string) {
    power == "PowerState/running" || power == "PowerState/starting"
  }

  /** The status a provisioning state stands for. */
  function StatusOf(state: string, power: string, fastDelete: bool): Status {
    if state == "Deleting" then Status(Deleting, None)
    else if state == "Creating" then Status(Creating, None)
    else if state == "Failed" && fastDelete && !PowerRuns(power) then Status(Creating, Some(ProvisioningFailed))
    else Status(Running, None)
  }

  function StatusIn(instances: seq<Instance>, id: string): Option<Status> {
    var i := FirstWithId(instances, id);
    if i.None? then None else i.value.status
  }

  /** The power state taken from the status view. */
  function PowerShown(flexible: bool, view: Option<StatusView>): string {
    if view.None? || (flexible && view.value.codes.None?) then "PowerState/running" else PowerOf(CodesOf(view.value))
  }

  /** instanceStatusFromVM: while the state is missing or Updating the status already in
      the cache is kept. */
  function UniformStatus(s: Settings, vm: Vm, instances: seq<Instance>, id: string): Option<Status> {
    if vm.properties.None? || vm.properties.value.state.None? || vm.properties.value.state.value == "Updating" then
      StatusIn(instances, id)
    else
      var view := vm.properties.value.view;
      var power := PowerShown(false, view);
      if s.detailedCse && view.Some? && view.value.cseFailed then Some(Status(Creating, Some(ExtensionFailed)))
      else Some(StatusOf(vm.properties.value.state.value, power, s.fastDelete))
  }

  /** instanceStatusFromProvisioningStateAndPowerState: a flexible scale set keeps nothing. */
  function FlexStatus(s: Settings, vm: Vm): Option<Status> {
    if vm.properties.None? || vm.properties.value.state.None? then None
    else
      var view := vm.properties.value.view;
      var power := PowerShown(true, view);
      Some(StatusOf(vm.properties.value.state.value, power, s.fastDelete))
  }

  /** The provider id of a listed VM, unless its id is empty or not in Azure format. */
  function ProviderId(vm: Vm): Option<string> {
    if vm.id == "" || Normalize(vm.id).Err? then None else Some(AZURE_PREFIX + Normalize(vm.id).value)
  }

  function InstanceOf(s: Settings, flexible: bool, vm: Vm, instances: seq<Instance>): Option<Instance> {
    var id := ProviderId(vm);
    if id.None? then None
    else Some(Instance(id.value, if flexible then FlexStatus(s, vm) else UniformStatus(s, vm, instances, id.value)))
  }

  /** What `f` gives for each element, leaving out where it gives nothing. */
  function Collect<T, U>(xs: seq<T>, f: T -> Option<U>): seq<U>
    decreases |xs|
  {
    if xs == [] then []
    else
      var y := f(xs[|xs| - 1]);
      Collect(xs[..|xs| - 1], f) + (if y.Some? then [y.value] else [])
  }

  lemma {:induction false} CollectAppend<T, U>(a: seq<T>, b: seq<T>, f: T -> Option<U>)
    ensures Collect(a + b, f) == Collect(a, f) + Collect(b, f)
    decreases |b|
  {
    if b == [] {
      assert a + b == a;
    } else {
      var n := |b| - 1;
      CollectAppend(a, b[..n], f);
      assert (a + b)[..|a + b| - 1] == a + b[..n];
    }
  }

  lemma {:induction false} CollectMembers<T, U>(xs: seq<T>, f: T -> Option<U>, y: U)
    ensures y in Collect(xs, f) <==> exists x <- xs :: f(x) == Some(y)
    decreases |xs|
  {
    if xs != [] {
      var n := |xs| - 1;
      CollectMembers(xs[..n], f, y);
      assert xs == xs[..n] + [xs[n]];
    }
  }

  function Build(s: Settings, flexible: bool, vms: seq<Vm>, instances: seq<Instance>): seq<Instance> {
    Collect(vms, vm => InstanceOf(s, flexible, vm, instances))
  }

  // ---------------------------------------------------- statuses, spelled out

  predicate IsPowerState(code: string) {
    || code == "PowerState/starting" || code == "PowerState/running" || code == "PowerState/stopping"
    || code == "PowerState/stopped" || code == "PowerState/deallocating" || code == "PowerState/deallocated"
    || code == "PowerState/unknown"
  }

  /** The first code that is a power state says running or starting. */
  ghost predicate SaysRunning(codes: seq<string>) {
    exists k :: 0 <= k < |codes| && (codes[k] == "PowerState/running" || codes[k] == "PowerState/starting")
                && forall j :: 0 <= j < k ==> !IsPowerState(codes[j])
  }

  /** The VM counts as running: without a status view, or for a flexible set without a list of
      codes in it, it does; otherwise it is what the codes say. */
  ghost predicate CountsAsRunning(flexible: bool, view: Option<StatusView>) {
    || view.None?
    || (flexible && view.value.codes.None?)
    || (view.value.codes.Some? && SaysRunning(view.value.codes.value))
  }

  /** The status of the first instance of this id. */
  ghost predicate FirstStatus(instances: seq<Instance>, id: string, status: Option<Status>) {
    || (status.None? && forall i <- instances :: i.id != id)
    || (exists k :: 0 <= k < |instances| && instances[k].id == id && instances[k].status == status
                    && forall j :: 0 <= j < k ==> instances[j].id != id)
  }

  /** The state the VM is listed in. */
  function ListedState(vm: Vm): Option<string> {
    if vm.properties.None? then None else vm.properties.value.state
  }

  /** The status a listed VM of this id must have, given the instances so far. */
  ghost predicate RightStatus(s: Settings, flexible: bool, vm: Vm, instances: seq<Instance>, id: string, status: Option<Status>) {
    var state := ListedState(vm);
    if flexible && state.None? then status.None?
    else if !flexible && (state.None? || state == Some("Updating")) then FirstStatus(instances, id, status)
    else
      var view := vm.properties.value.view;
      var extension := !flexible && s.detailedCse && view.Some? && view.value.cseFailed;
      var broken := state == Some("Failed") && s.fastDelete && !CountsAsRunning(flexible, view);
      && status.Some?
      && (status == Some(Status(Creating, Some(ExtensionFailed))) <==> extension)
      && (status == Some(Status(Deleting, None)) <==> !extension && state == Some("Deleting"))
      && (status == Some(Status(Creating, None)) <==> !extension && state == Some("Creating"))
      && (status == Some(Status(Creating, Some(ProvisioningFailed))) <==> !extension && broken)
      && (status == Some(Status(Running, None)) <==>
            !extension && state != Some("Deleting") && state != Some("Creating") && !broken)
  }

  lemma {:induction false} PowerIsFirst(codes: seq<string>)
    ensures PowerRuns(PowerOf(codes)) <==> SaysRunning(codes)
    decreases |codes|
  {
    if codes != [] {
      assert KnownPower(codes[0]) <==> IsPowerState(codes[0]);
      if !KnownPower(codes[0]) {
        PowerIsFirst(codes[1..]);
        if SaysRunning(codes[1..]) {
          var k :| 0 <= k < |codes| - 1 && (codes[1..][k] == "PowerState/running" || codes[1..][k] == "PowerState/starting")
                   && forall j :: 0 <= j < k ==> !IsPowerState(codes[1..][j]);
          assert forall j :: 0 < j < k + 1 ==> codes[j] == codes[1..][j - 1];
          assert codes[k + 1] == codes[1..][k];
        }
        if SaysRunning(codes) {
          var k :| 0 <= k < |codes| && (codes[k] == "PowerState/running" || codes[k] == "PowerState/starting")
                   && forall j :: 0 <= j < k ==> !IsPowerState(codes[j]);
          assert codes[1..][k - 1] == codes[k];
        }
      }
    }
  }

  lemma {:induction false} StatusInIsFirst(instances: seq<Instance>, id: string)
    ensures FirstStatus(instances, id, StatusIn(instances, id))
    decreases |instances|
  {
    if instances != [] && instances[0].id != id {
      StatusInIsFirst(instances[1..], id);
      if k :| 0 <= k < |instances| - 1 && instances[1..][k].id == id && forall j :: 0 <= j < k ==> instances[1..][j].id != id {
        assert instances[k + 1] == instances[1..][k];
        assert forall j :: 0 < j < k + 1 ==> instances[j] == instances[1..][j - 1];
      }
    }
  }

  lemma FirstIsStatusIn(instances: seq<Instance>, id: string, status: Option<Status>)
    requires FirstStatus(instances, id, status)
    ensures status == StatusIn(instances, id)
  {
    if k :| 0 <= k < |instances| && instances[k].id == id && instances[k].status == status
            && forall j :: 0 <= j < k ==> instances[j].id != id
    {
      FindAt(instances, k, id);
    } else {
      FindAbsent(instances, id);
    }
  }

  /** Exactly the right status is built. */
  lemma BuiltStatusIff(s: Settings, flexible: bool, vm: Vm, instances: seq<Instance>, id: string, status: Option<Status>)
    requires ProviderId(vm) == Some(id)
    ensures InstanceOf(s, flexible, vm, instances).value.status == status <==> RightStatus(s, flexible, vm, instances, id, status)
  {
    if !flexible && (ListedState(vm).None? || ListedState(vm) == Some("Updating")) {
      StatusInIsFirst(instances, id);
      if FirstStatus(instances, id, status) {
        FirstIsStatusIn(instances, id, status);
      }
    } else if ListedState(vm).Some? {
      ShownStatus(s, flexible, vm, instances, id);
    }
  }

  lemma ShownStatus(s: Settings, flexible: bool, vm: Vm, instances: seq<Instance>, id: string)
    requires ProviderId(vm) == Some(id) && ListedState(vm).Some? && (flexible || ListedState(vm) != Some("Updating"))
    ensures RightStatus(s, flexible, vm, instances, id, InstanceOf(s, flexible, vm, instances).value.status)
  {
    var view := vm.properties.value.view;
    PowerShownIff(flexible, view);
    StatusOfIff(vm.properties.value.state.value, PowerShown(flexible, view), s.fastDelete);
  }

  lemma StatusOfIff(state: string, power: string, fastDelete: bool)
    ensures
      var status := StatusOf(state, power, fastDelete);
      var broken := state == "Failed" && fastDelete && !PowerRuns(power);
      && (status == Status(Deleting, None) <==> state == "Deleting")
      && (status == Status(Creating, None) <==> state == "Creating")
      && (status == Status(Creating, Some(ProvisioningFailed)) <==> broken)
      && (status == Status(Running, None) <==> state != "Deleting" && state != "Creating" && !broken)
      && status != Status(Creating, Some(ExtensionFailed))
  {
    assert "Failed"[0] != "Deleting"[0] && "Creating"[0] != "Deleting"[0] && "Failed"[0] != "Creating"[0];
  }

  lemma PowerShownIff(flexible: bool, view: Option<StatusView>)
    ensures PowerRuns(PowerShown(flexible, view)) <==> CountsAsRunning(flexible, view)
  {
    if view.Some? {
      PowerIsFirst(CodesOf(view.value));
    }
  }

  /** The instance is that of a listed VM, with the status it must have. */
  ghost predicate ListedRight(s: Settings, flexible: bool, vms: seq<Vm>, instances: seq<Instance>, i: Instance) {
    exists vm <- vms :: ProviderId(vm) == Some(i.id) && RightStatus(s, flexible, vm, instances, i.id, i.status)
  }

  lemma BuiltAreRight(s: Settings, flexible: bool, vms: seq<Vm>, instances: seq<Instance>, i: Instance)
    ensures i in Build(s, flexible, vms, instances) <==> ListedRight(s, flexible, vms, instances, i)
  {
    BuildIsExact(s, flexible, vms, instances, i);
    forall vm | vm in vms && ProviderId(vm) == Some(i.id)
      ensures InstanceOf(s, flexible, vm, instances) == Some(i) <==> RightStatus(s, flexible, vm, instances, i.id, i.status)
    {
      BuiltStatusIff(s, flexible, vm, instances, i.id, i.status);
    }
  }

  /** The instances stand in the order of the list. */
  lemma BuildAppend(s: Settings, flexible: bool, a: seq<Vm>, b: seq<Vm>, instances: seq<Instance>)
    ensures Build(s, flexible, a + b, instances) == Build(s, flexible, a, instances) + Build(s, flexible, b, instances)
  {
    CollectAppend(a, b, vm => InstanceOf(s, flexible, vm, instances));
  }

  /** The cache built from a list holds exactly the instances of the listed VMs. */
  lemma BuildIsExact(s: Settings, flexible: bool, vms: seq<Vm>, instances: seq<Instance>, i: Instance)
    ensures i in Build(s, flexible, vms, instances) <==> exists vm <- vms :: InstanceOf(s, flexible, vm, instances) == Some(i)
  {
    CollectMembers(vms, vm => InstanceOf(s, flexible, vm, instances), i);
  }

  // ------------------------------------------------------------------ timers

  predicate Fresh(s: Settings, c: Cache, now: int) {
    c.lastRefresh + s.period > now
  }

  predicate CanList(s: Settings, mode: Mode) {
    mode.Uniform? || (mode.Flexible? && s.flexNodes)
  }

  /** The refresh time noted after a throttled list: no earlier than Retry-After allows. */
  function AfterThrottle(s: Settings, clock: Clock, retryAfter: int): int {
    var last := clock.start - clock.splay;
    if retryAfter > 0 && last + s.period < clock.end + retryAfter then
      last + (clock.end + retryAfter - (last + s.period))
    else last
  }

  datatype Outcome = Outcome(err: bool, listed: bool)

  /** updateInstanceCache. */
  function AfterUpdate(s: Settings, c: Cache, mode: Mode, reply: Reply, clock: Clock): (Cache, Outcome) {
    if !CanList(s, mode) then (c, Outcome(true, false))
    else
      match reply
      case ListFailed => (c, Outcome(true, true))
      case Throttled(r) => (c.(lastRefresh := AfterThrottle(s, clock, r)), Outcome(false, true))
      case Listed(vms) =>
        (Cache(Build(s, mode.Flexible?, vms, c.instances), clock.start - clock.splay), Outcome(false, true))
  }

  /** A read of the cache at a time, for a reader that accepts the cache when it is fresh
      or, as Nodes() does, only when it also holds as many instances as the scale set has
      (`size`); what the list would answer comes with it. */
  datatype Read = Read(now: int, size: Option<int>, mode: Mode, reply: Reply, clock: Clock)

  predicate Serves(s: Settings, c: Cache, read: Read) {
    Fresh(s, c, read.now) && (read.size.None? || read.size.value == |c.instances|)
  }

  function AfterRead(s: Settings, c: Cache, read: Read): (Cache, Outcome) {
    if Serves(s, c, read) then (c, Outcome(false, false))
    else AfterUpdate(s, c, read.mode, read.reply, read.clock)
  }

  function AfterInvalidate(s: Settings, c: Cache, now: int): Cache {
    c.(lastRefresh := now - s.period)
  }

  /** A sequence of reads: the cache they leave and what each of them did. */
  function AfterReads(s: Settings, c: Cache, rs: seq<Read>): (r: (Cache, seq<Outcome>))
    ensures |r.1| == |rs|
    decreases |rs|
  {
    if rs == [] then (c, [])
    else
      var (next, o) := AfterRead(s, c, rs[0]);
      var (end, rest) := AfterReads(s, next, rs[1..]);
      (end, [o] + rest)
  }

  lemma {:induction false} ReadsBefore(s: Settings, c: Cache, until: int, rs: seq<Read>)
    requires c.lastRefresh + s.period >= until
    requires forall read <- rs :: read.now < until && (read.size.None? || read.size.value == |c.instances|)
    ensures
      var (end, outcomes) := AfterReads(s, c, rs);
      end == c && forall o <- outcomes :: !o.listed && !o.err
    decreases |rs|
  {
    if rs != [] {
      assert rs[0] in rs;
      ReadsBefore(s, c, until, rs[1..]);
    }
  }

  /** After a throttled list with Retry-After r, whatever the jitter, no timer-driven read
      before that time calls the API or fails, and the instances stay as they were. */
  lemma ThrottlingIsRespected(s: Settings, c: Cache, mode: Mode, r: int, clock: Clock, rs: seq<Read>)
    requires CanList(s, mode) && r > 0
    requires forall read <- rs :: read.now < clock.end + r && (read.size.None? || read.size.value == |c.instances|)
    ensures
      var (after, o) := AfterUpdate(s, c, mode, Throttled(r), clock);
      var (end, outcomes) := AfterReads(s, after, rs);
      && !o.err && end == after && end.instances == c.instances
      && forall o <- outcomes :: !o.listed && !o.err
  {
    var (after, _) := AfterUpdate(s, c, mode, Throttled(r), clock);
    ReadsBefore(s, after, clock.end + r, rs);
  }

  /** After an invalidation every read fails or lists until a list has come in: the cache
      from before is never served. */
  lemma {:induction false} InvalidationIsRespected(s: Settings, c: Cache, at: int, rs: seq<Read>, i: nat)
    requires c.lastRefresh + s.period <= at && i < |rs|
    requires forall read <- rs :: read.now >= at
    requires forall j :: 0 <= j < i ==> AfterReads(s, c, rs).1[j].err
    ensures AfterReads(s, c, rs).1[i].err || AfterReads(s, c, rs).1[i].listed
    decreases i
  {
    assert rs[0] in rs;
    if i > 0 {
      var (next, o) := AfterRead(s, c, rs[0]);
      var outcomes := AfterReads(s, c, rs).1;
      assert outcomes[0].err && next == c;
      forall j | 0 <= j < i - 1 ensures AfterReads(s, next, rs[1..]).1[j].err {
        assert outcomes[j + 1].err;
      }
      InvalidationIsRespected(s, next, at, rs[1..], i - 1);
    }
  }

  // ------------------------------------------------------- proactive statuses

  /** The instances with the first one of this id given the status. */
  function WithStatus(instances: seq<Instance>, id: string, status: Status): (r: seq<Instance>)
    ensures |r| == |instances|
    ensures forall k :: 0 <= k < |r| ==> r[k].id == instances[k].id
    decreases |instances|
  {
    if instances == [] then []
    else if instances[0].id == id then [instances[0].(status := Some(status))] + instances[1..]
    else [instances[0]] + WithStatus(instances[1..], id, status)
  }

  /** The first instance of this id. */
  function FirstWithId(instances: seq<Instance>, id: string): (r: Option<Instance>)
    ensures r.Some? ==> r.value.id == id && r.value in instances
    ensures r.None? ==> forall i <- instances :: i.id != id
    decreases |instances|
  {
    if instances == [] then None
    else if instances[0].id == id then Some(instances[0])
    else FirstWithId(instances[1..], id)
  }

  lemma {:induction false} WithStatusAt(instances: seq<Instance>, k: nat, id: string, status: Status)
    requires k < |instances| && instances[k].id == id
    requires forall j :: 0 <= j < k ==> instances[j].id != id
    ensures WithStatus(instances, id, status) == instances[k := Instance(id, Some(status))]
    decreases k
  {
    if k > 0 {
      WithStatusAt(instances[1..], k - 1, id, status);
    }
  }

  lemma {:induction false} WithStatusAbsent(instances: seq<Instance>, id: string, status: Status)
    requires forall i <- instances :: i.id != id
    ensures WithStatus(instances, id, status) == instances
    decreases |instances|
  {
    if instances != [] {
      WithStatusAbsent(instances[1..], id, status);
    }
  }

  lemma {:induction false} FindAt(instances: seq<Instance>, k: nat, id: string)
    requires k < |instances| && instances[k].id == id
    requires forall j :: 0 <= j < k ==> instances[j].id != id
    ensures FirstWithId(instances, id) == Some(instances[k])
    decreases k
  {
    if k > 0 {
      FindAt(instances[1..], k - 1, id);
    }
  }

  lemma {:induction false} FindAbsent(instances: seq<Instance>, id: string)
    requires forall i <- instances :: i.id != id
    ensures FirstWithId(instances, id) == None
    decreases |instances|
  {
  }

  /** setInstanceStatusByProviderID: a failed validation is ignored. */
  function AfterMark(s: Settings, c: Cache, id: string, status: Status, read: Read): Cache {
    var next := AfterRead(s, c, read).0;
    next.(instances := WithStatus(next.instances, id, status))
  }

  // ---------------------------------------------------------------- the class

  /** What getCurSize answers. */
  datatype SizeReply = Size(size: int) | NotFound | SizeFailed

  /** The later of a planned time and a time to wait for. */
  function NotBefore(planned: int, wait: Option<int>): int {
    if wait.Some? && wait.value > planned then wait.value else planned
  }

  class InstanceCache {
    const settings: Settings
    var instances: seq<Instance>
    var lastRefresh: int

    constructor (settings: Settings)
      ensures this.settings == settings && View() == Cache([], ZERO_TIME)
    {
      this.settings, instances, lastRefresh := settings, [], ZERO_TIME;
    }

    function View(): Cache
      reads this
    {
      Cache(instances, lastRefresh)
    }

    method Invalidate(now: int)
      modifies this
      ensures View() == AfterInvalidate(settings, old(View()), now)
    {
      lastRefresh := now - settings.period;
    }

    /** The loops of buildScaleSetCacheForUniform and buildInstanceCacheForFlex. */
    method BuildInstances(flexible: bool, vms: seq<Vm>) returns (built: seq<Instance>)
      ensures built == Build(settings, flexible, vms, instances)
      ensures forall i :: i in built <==> ListedRight(settings, flexible, vms, instances, i)
    {
      built := [];
      for i := 0 to |vms|
        invariant built == Build(settings, flexible, vms[..i], instances)
      {
        assert vms[..i + 1][..i] == vms[..i];
        if vms[i].id == "" {
          continue;
        }
        var resource := Normalize(vms[i].id);
        if resource.Err? {
          continue;
        }
        var id := AZURE_PREFIX + resource.value;
        var status;
        if flexible {
          status := FlexStatus(settings, vms[i]);
        } else {
          status := UniformStatus(settings, vms[i], instances, id);
        }
        built := built + [Instance(id, status)];
      }
      assert vms[..|vms|] == vms;
      forall i ensures i in built <==> ListedRight(settings, flexible, vms, instances, i) {
        BuiltAreRight(settings, flexible, vms, instances, i);
      }
    }

    /** updateInstanceCache. */
    method Update(mode: Mode, reply: Reply, clock: Clock) returns (o: Outcome)
      modifies this
      ensures (View(), o) == AfterUpdate(settings, old(View()), mode, reply, clock)
      ensures o.listed <==> mode.Uniform? || (mode.Flexible? && settings.flexNodes)
      ensures o.err <==> !o.listed || reply.ListFailed?
      ensures o.err ==> instances == old(instances) && lastRefresh == old(lastRefresh)
      ensures !o.err && reply.Throttled? ==>
        && instances == old(instances)
        && lastRefresh + settings.period ==
             NotBefore(clock.start - clock.splay + settings.period, if reply.retryAfter > 0 then Some(clock.end + reply.retryAfter) else None)
      ensures !o.err && reply.Listed? ==>
        && lastRefresh == clock.start - clock.splay
        && forall i :: i in instances <==> ListedRight(settings, mode.Flexible?, reply.vms, old(instances), i)
    {
      if mode.NoVmss? || mode.NoMode? || (mode.Flexible? && !settings.flexNodes) {
        return Outcome(true, false);
      }
      var last := clock.start - clock.splay;
      match reply
      case ListFailed =>
        return Outcome(true, true);
      case Throttled(retryAfter) =>
        if retryAfter > 0 {
          var next := last + settings.period;
          var retry := clock.end + retryAfter;
          if next < retry {
            last := last + (retry - next);
          }
        }
        lastRefresh := last;
        return Outcome(false, true);
      case Listed(vms) =>
        var built := BuildInstances(mode.Flexible?, vms);
        instances, lastRefresh := built, last;
        return Outcome(false, true);
    }

    /** validateInstanceCacheWithoutLock. */
    method Validate(read: Read) returns (o: Outcome)
      requires read.size.None?
      modifies this
      ensures (View(), o) == AfterRead(settings, old(View()), read)
      ensures if old(lastRefresh) + settings.period > read.now then View() == old(View()) && !o.err && !o.listed else o.err || o.listed
    {
      if lastRefresh + settings.period > read.now {
        return Outcome(false, false);
      }
      o := Update(read.mode, read.reply, read.clock);
    }

    method GetInstanceByProviderID(id: string, read: Read) returns (r: Result<Option<Instance>>)
      requires read.size.None?
      modifies this
      ensures
        var (next, o) := AfterRead(settings, old(View()), read);
        View() == next && r == if o.err then Err else Ok(FirstWithId(next.instances, id))
    {
      var o := Validate(read);
      if o.err {
        return Err;
      }
      for k := 0 to |instances|
        invariant View() == AfterRead(settings, old(View()), read).0
        invariant forall j :: 0 <= j < k ==> instances[j].id != id
      {
        if instances[k].id == id {
          FindAt(instances, k, id);
          return Ok(Some(instances[k]));
        }
      }
      FindAbsent(instances, id);
      return Ok(None);
    }

    method SetInstanceStatusByProviderID(id: string, status: Status, read: Read)
      requires read.size.None?
      modifies this
      ensures View() == AfterMark(settings, old(View()), id, status, read)
    {
      var o := Validate(read);
      for k := 0 to |instances|
        invariant View() == AfterRead(settings, old(View()), read).0
        invariant forall j :: 0 <= j < k ==> instances[j].id != id
      {
        if instances[k].id == id {
          WithStatusAt(instances, k, id, status);
          instances := instances[k := instances[k].(status := Some(status))];
          return;
        }
      }
      WithStatusAbsent(instances, id, status);
    }

    /** Nodes: a scale set that is not found has no nodes, and no error. */
    method Nodes(size: SizeReply, read: Read) returns (r: Result<seq<Instance>>)
      requires size.Size? ==> read.size == Some(size.size)
      modifies this
      ensures !size.Size? ==> View() == old(View()) && r == if size.NotFound? then Ok([]) else Err
      ensures size.Size? ==>
        var (next, o) := AfterRead(settings, old(View()), read);
        View() == next && r == if o.err then Err else Ok(next.instances)
      ensures size.Size? && |old(instances)| == size.size && old(lastRefresh) + settings.period > read.now ==>
        View() == old(View()) && r == Ok(old(instances))
      ensures size.Size? && !(|old(instances)| == size.size && old(lastRefresh) + settings.period > read.now) ==>
        if read.mode.NoMode? || read.mode.NoVmss? || (read.mode.Flexible? && !settings.flexNodes) || read.reply.ListFailed? then
          View() == old(View()) && r == Err
        else r == Ok(instances) && (read.reply.Listed? ==> lastRefresh == read.clock.start - read.clock.splay)
    {
      match size
      case NotFound =>
        return Ok([]);
      case SizeFailed =>
        return Err;
      case Size(n) =>
        if |instances| == n && lastRefresh + settings.period > read.now {
          return Ok(instances);
        }
        var o := Update(read.mode, read.reply, read.clock);
        if o.err {
          return Err;
        }
        return Ok(instances);
    }
  }
}

/**
 ScaleSet as the code has it: objects shared by reference, fields updated in
 place.  Each method is proved to be a run of the capacity protocol, so every
 theorem about runs holds of it.
 */
module ScaleSets {
  import opened Common
  import opened CapacityProtocol
  import opened CapacityRuns
  import opened IncreaseOutcome

  /** A VMSS object held by the autoscaler: its ETag and SKU.Capacity. */
  class VmssObject {
    var etag: nat
    var capacity: int

    constructor (etag: nat, capacity: int)
      ensures this.etag == etag && this.capacity == capacity
    {
      this.etag, this.capacity := etag, capacity;
    }
  }

  type Trace = seq<Step<VmssObject>>

  datatype DeletePoll = DeleteDone | Preempted | DeleteBroken

  /** What may happen elsewhere between the steps of an increase.  `age` is how many versions
      behind the answer of a read is. */
  datatype Event =
    | Wrote(capacity: nat)
    | Waited(d: nat)
    | Completed(i: nat, poll: Poll)
    | Refreshed(found: bool, age: nat, ok: bool)
    | Queried(fault: bool, age: nat)
    | DeleteNoted(count: nat, unregistered: bool)
    | DeleteEnded(first: DeletePoll, retry: bool, refreshed: bool)

  /** The server's faults during one increase, and what happens elsewhere before each step. */
  datatype Answers = Answers(beforeTake: seq<Event>, beforeWrite: seq<Event>,
                             beforeFirst: seq<Event>, firstFault: bool,
                             beforeGet: seq<Event>, getFault: bool, getAge: nat,
                             beforeRetry: seq<Event>, retryFault: bool,
                             afterwards: seq<Event>, beforePublish: seq<Event>)

  /** With `calm` no event publishes a size; with `steady` none replaces the cached object. */
  ghost predicate Fits(cfg: Config, events: seq<Event>, calm: bool, steady: bool) {
    forall e <- events ::
      && (calm ==> !e.Queried? && !e.DeleteNoted?)
      && (steady ==> !e.Refreshed? && !(e.Queried? && cfg.spot))
  }

  ghost predicate AllFit(cfg: Config, a: Answers, calm: bool, steady: bool) {
    && Fits(cfg, a.beforeWrite, calm, steady) && Fits(cfg, a.beforeFirst, calm, steady)
    && Fits(cfg, a.beforeGet, calm, steady) && Fits(cfg, a.beforeRetry, calm, steady)
    && Fits(cfg, a.afterwards, calm, steady) && Fits(cfg, a.beforePublish, calm, steady)
  }

  // ----------------------------------------------- an increase left to itself

  /** Nothing happens elsewhere during the increase. */
  ghost predicate Still(a: Answers) {
    && a.beforeWrite == [] && a.beforeFirst == [] && a.beforeGet == []
    && a.beforeRetry == [] && a.afterwards == [] && a.beforePublish == []
  }

  /** The version a read that is `age` versions late shows. */
  function VersionAt(history: seq<nat>, age: nat): (v: nat)
    requires history != []
    ensures v < |history|
  {
    if age < |history| then |history| - 1 - age else 0
  }

  /** The first PUT, from an object of this tag, is accepted. */
  predicate FirstAccepted(cfg: Config, history: seq<nat>, tag: nat, a: Answers) {
    !a.firstFault && (!cfg.etags || tag + 1 == |history|)
  }

  /** It meets a failed precondition that is to be retried. */
  predicate Conflicts(cfg: Config, history: seq<nat>, tag: nat, a: Answers) {
    !a.firstFault && cfg.etags && tag + 1 != |history|
  }

  /** The fresh GET works and shows a capacity that meets the target. */
  predicate AlreadyMet(history: seq<nat>, target: int, a: Answers)
    requires history != []
  {
    !a.getFault && history[VersionAt(history, a.getAge)] >= target
  }

  /** It works, shows a lower capacity, and shows the current version to a PUT without fault. */
  predicate RetryAccepted(history: seq<nat>, target: int, a: Answers)
    requires history != []
  {
    && !a.getFault && history[VersionAt(history, a.getAge)] < target
    && !a.retryFault && VersionAt(history, a.getAge) + 1 == |history|
  }

  /** The tag of the object whose PUT is accepted. */
  function SentTag(cfg: Config, history: seq<nat>, tag: nat, a: Answers): nat
    requires history != []
  {
    if FirstAccepted(cfg, history, tag, a) then tag else VersionAt(history, a.getAge)
  }

  /** Some PUT of the increase is accepted. */
  predicate Sends(cfg: Config, history: seq<nat>, tag: nat, target: int, a: Answers)
    requires history != []
  {
    FirstAccepted(cfg, history, tag, a) || (Conflicts(cfg, history, tag, a) && RetryAccepted(history, target, a))
  }

  /** No PUT is needed: another writer has met the target. */
  predicate Meets(cfg: Config, history: seq<nat>, tag: nat, target: int, a: Answers)
    requires history != []
  {
    Conflicts(cfg, history, tag, a) && AlreadyMet(history, target, a)
  }

  /** What an increase left to itself comes to: whether it fails, the server's history, whether
      a PUT of its own was accepted, the version it made and the tag of the object it came
      from, the size published, and whether a conflict made the instance cache stale. */
  datatype Forecast = Forecast(err: bool, history: seq<nat>, sent: bool, version: nat, tag: nat, size: nat, stale: bool)

  /** An atomic increase must also see its accepted PUT complete; for a plain one `done` is true. */
  function ForecastOf(cfg: Config, history: seq<nat>, tag: nat, target: nat, a: Answers, done: bool): Forecast
    requires history != []
  {
    var sent := Sends(cfg, history, tag, target, a);
    Forecast(if sent then !done else !Meets(cfg, history, tag, target, a),
             if sent then history + [target] else history,
             sent, |history|, SentTag(cfg, history, tag, a),
             if sent then target else history[VersionAt(history, a.getAge)],
             Conflicts(cfg, history, tag, a))
  }

  /** The scale set on the server, and the clock. */
  class Azure {
    var history: seq<nat>
    var now: int

    constructor (capacity: nat, now: int)
      ensures history == [capacity] && this.now == now
    {
      history, this.now := [capacity], now;
    }

    /** A capacity PUT; `fault` stands for any error other than a failed precondition. */
    method BeginCreateOrUpdate(size: nat, ifMatch: Option<nat>, fault: bool) returns (reply: Reply)
      modifies this`history
      ensures reply.Refused? <==> fault
      ensures reply.Accepted? <==> !fault && (ifMatch.None? || ifMatch.value == old(|history|) - 1)
      ensures history == if reply.Accepted? then old(history) + [size] else old(history)
    {
      if fault {
        return Refused;
      }
      if ifMatch.Some? && ifMatch.value != |history| - 1 {
        return PreconditionFailed;
      }
      history := history + [size];
      return Accepted;
    }

    method Get(fault: bool, age: nat) returns (vmss: VmssObject?)
      requires history != []
      ensures vmss == null <==> fault
      ensures vmss != null ==> fresh(vmss) && vmss.etag == VersionAt(history, age) && vmss.capacity == history[VersionAt(history, age)]
    {
      if fault {
        return null;
      }
      vmss := new VmssObject(VersionAt(history, age), history[VersionAt(history, age)]);
    }
  }

  class ScaleSet {
    const cfg: Config
    const azure: Azure
    var cached: VmssObject?              // azureCache.scaleSets[name]
    var curSize: int
    var lastSizeRefresh: int
    var lastInstanceRefresh: int
    var lastRefresh: int                 // AzureManager.lastRefresh
    var pollers: seq<Put<VmssObject>>    // background waitForCreateOrUpdateInstances
    var deletes: nat                     // background waitForDeleteInstances
    ghost var st: State<VmssObject>

    ghost predicate Valid()
      reads this, azure, st.heap.Keys
    {
      && azure.history == st.history && azure.now == st.now && st.history != []
      && st.cached == (if cached == null then None else Some(cached))
      && (cached != null ==> cached in st.heap)
      && curSize == st.curSize && deletes == st.deletes && pollers == st.pending
      && st.timers == Timers(lastSizeRefresh, lastInstanceRefresh, lastRefresh)
      && (forall o <- st.heap :: o.etag == st.heap[o].etag && o.capacity == st.heap[o].capacity)
      && (forall i :: 0 <= i < |pollers| ==> pollers[i].obj in st.heap)
    }

    ghost function Repr(): set<object>
      reads this
    {
      {this, azure} + st.heap.Keys
    }

    constructor (cfg: Config, azure: Azure, cached: VmssObject?, curSize: int, now: int)
      requires azure.history != [] && azure.now == now && curSize >= -1
      requires cached != null ==> cached.etag < |azure.history| && cached.capacity == azure.history[cached.etag]
      ensures Valid() && this.cfg == cfg && this.azure == azure && this.cached == cached
      ensures Init(st)
    {
      this.cfg, this.azure, this.cached, this.curSize := cfg, azure, cached, curSize;
      lastSizeRefresh, lastInstanceRefresh, lastRefresh := ZERO_TIME, ZERO_TIME, now;
      pollers, deletes := [], 0;
      ghost var heap: map<VmssObject, Vmss> := map[];
      ghost var known: set<nat> := {};
      ghost var entry: Option<VmssObject> := None;
      if cached != null {
        heap, known, entry := map[cached := Vmss(cached.etag, cached.capacity)], {cached.etag}, Some(cached);
      }
      st := State(azure.history, known, heap, entry, curSize, Timers(ZERO_TIME, ZERO_TIME, now), now, Idle, [], 0, []);
    }

    // ------------------------------------------------------- invalidation

    /** The instance cache was invalidated just now. */
    predicate StaleInstancesNow()
      reads this, azure
    {
      lastInstanceRefresh == azure.now - cfg.instancesPeriod
    }

    predicate StaleSizeNow()
      reads this, azure
    {
      lastSizeRefresh == azure.now - cfg.sizePeriod
    }

    predicate StaleManagerNow()
      reads this, azure
    {
      lastRefresh == azure.now - cfg.cachePeriod
    }

    method InvalidateInstanceCache()
      requires Valid()
      modifies this`lastInstanceRefresh, this`st
      ensures Valid() && st == StaleInstances(cfg, old(st))
    {
      lastInstanceRefresh := azure.now - cfg.instancesPeriod;
      st := StaleInstances(cfg, st);
    }

    method InvalidateLastSizeRefresh()
      requires Valid()
      modifies this`lastSizeRefresh, this`st
      ensures Valid() && st == StaleSize(cfg, old(st))
    {
      lastSizeRefresh := azure.now - cfg.sizePeriod;
      st := StaleSize(cfg, st);
    }

    method InvalidateCache()
      requires Valid()
      modifies this`lastRefresh, this`st
      ensures Valid() && st == StaleManager(cfg, old(st))
    {
      lastRefresh := azure.now - cfg.cachePeriod;
      st := StaleManager(cfg, st);
    }

    method InvalidateForPreconditionFailure()
      requires Valid()
      modifies this`lastInstanceRefresh, this`lastSizeRefresh, this`lastRefresh, this`st
      ensures Valid() && st == StaleAll(cfg, old(st))
    {
      InvalidateInstanceCache();
      InvalidateLastSizeRefresh();
      InvalidateCache();
    }

    // ------------------------------------------------------- size queries

    /** The size found becomes the size in memory. */
    method AdoptSize(size: int)
      requires Valid()
      modifies this`curSize, this`lastSizeRefresh, this`lastInstanceRefresh, this`st
      ensures Valid() && st == Adopt(cfg, old(st), size) && curSize == size
    {
      if curSize != size {
        InvalidateInstanceCache();
      }
      curSize := size;
      lastSizeRefresh := azure.now;
      st := st.(curSize := size, timers := st.timers.(size := st.now));
    }

    /** The size in memory has expired. */
    predicate Expired()
      reads this, azure
    {
      azure.now - lastSizeRefresh >= if cfg.spot then cfg.spotPeriod else cfg.sizePeriod
    }

    /** The size a query finds, and the tag of the object then in the cache: the size in memory
        until it expires, then that of the cached object or, for Spot, of the server.  No
        size, -1, is found without a VMSS or when the GET for Spot fails. */
    function Found(fault: bool, age: nat): (int, nat)
      requires azure.history != []
      reads this, azure, cached
    {
      if cached == null || (cfg.spot && Expired() && fault) then (-1, 0)
      else if !Expired() then (curSize, cached.etag)
      else if cfg.spot then (azure.history[VersionAt(azure.history, age)], VersionAt(azure.history, age))
      else (cached.capacity, cached.etag)
    }

    /** getCurSize; `q` says which way the size was found. */
    method GetCurSize(fault: bool, age: nat) returns (size: int, failed: bool, ghost q: Query<VmssObject>)
      requires Valid()
      modifies this
      ensures Valid() && fresh(Repr() - old(Repr())) && st.heap.Keys >= old(st.heap.Keys)
      ensures CanAsk(cfg, old(st), q) && st == AfterQuery(cfg, old(st), q)
      ensures failed <==> q.QueryFailed?
      ensures size == (if failed then -1 else curSize) && (!failed ==> cached != null)
      ensures q.FromGet? ==> cfg.spot
      ensures lastSizeRefresh == if !failed && old(Expired()) then azure.now else old(lastSizeRefresh)
      ensures if curSize == old(curSize) then lastInstanceRefresh == old(lastInstanceRefresh) else StaleInstancesNow()
      ensures failed <==> old(cached == null || (cfg.spot && Expired() && fault))
      ensures (size, if failed then 0 else cached.etag) == old(Found(fault, age))
      ensures azure.history == old(azure.history) && pollers == old(pollers)
    {
      if cached == null {
        return -1, true, QueryFailed;
      }
      var period := if cfg.spot then cfg.spotPeriod else cfg.sizePeriod;
      if lastSizeRefresh + period > azure.now {
        return curSize, false, InMemory;
      }
      if !cfg.spot {
        AdoptSize(cached.capacity);
        return curSize, false, FromCache;
      }
      var vmss := azure.Get(fault, age);
      if vmss == null {
        return -1, true, QueryFailed;
      }
      ghost var f := SetScaleSet(vmss);
      AdoptSize(vmss.capacity);
      return curSize, false, FromGet(f);
    }

    /** setScaleSet: a freshly read object replaces the cached one. */
    method SetScaleSet(vmss: VmssObject) returns (ghost f: Fetch<VmssObject>)
      requires Valid() && vmss !in st.heap
      requires vmss.etag < |azure.history| && vmss.capacity == azure.history[vmss.etag]
      modifies this`cached, this`st
      ensures Valid() && cached == vmss && f == Fetch(vmss, vmss.etag) && st == Store(old(st), f)
    {
      cached := vmss;
      f := Fetch(vmss, vmss.etag);
      st := Store(st, f);
    }

    // ---------------------------------------------- background completion

    /** waitForCreateOrUpdateInstances, for the i-th poller. */
    method WaitForCreateOrUpdateInstances(i: nat, poll: Poll)
      requires Valid() && i < |pollers|
      modifies this`pollers, this`lastInstanceRefresh, this`lastSizeRefresh, this`lastRefresh, this`st
      modifies pollers[i].obj`etag
      ensures Valid() && st == AfterComplete(cfg, old(st), i, poll)
      ensures StaleInstancesNow() && pollers == old(pollers[..i] + pollers[i+1..])
      ensures if poll.Broken? || (cfg.etags && !poll.hasEtag) then StaleSizeNow() && StaleManagerNow()
              else lastSizeRefresh == old(lastSizeRefresh) && lastRefresh == old(lastRefresh)
      ensures old(pollers[i].obj).etag ==
        if cfg.etags && poll == Done(true) then old(pollers[i].version) else old(pollers[i].obj.etag)
    {
      var put := pollers[i];
      pollers := pollers[..i] + pollers[i+1..];
      st := st.(pending := pollers);
      InvalidateInstanceCache();
      if poll.Broken? {
        InvalidateLastSizeRefresh();
        InvalidateCache();
        return;
      }
      if cfg.etags {
        if poll.hasEtag {
          put.obj.etag := put.version;
          st := st.(heap := st.heap[put.obj := st.heap[put.obj].(etag := put.version)]);
        } else {
          InvalidateLastSizeRefresh();
          InvalidateCache();
        }
      }
    }

    /** A list comes in: a newly read object replaces the cached one, or there is none. */
    method RefreshList(found: bool, age: nat, ok: bool) returns (ghost step: Step<VmssObject>)
      requires Valid()
      modifies this`cached, this`lastRefresh, this`st
      ensures Valid() && fresh(Repr() - old(Repr())) && st.heap.Keys >= old(st.heap.Keys)
      ensures step.List? && Enabled(cfg, old(st), step) && st == Apply(cfg, old(st), step)
      ensures if found then cached != null && Shows(cached, azure.history, age) else cached == null
      ensures lastRefresh == if ok then azure.now else old(lastRefresh)
    {
      if found {
        var vmss := azure.Get(false, age);
        ghost var f := SetScaleSet(vmss);
        step := List(Some(f), ok);
      } else {
        cached := null;
        st := st.(cached := None);
        step := List(None, ok);
      }
      if ok {
        lastRefresh := azure.now;
        st := st.(timers := st.timers.(manager := st.now));
      }
    }

    ghost predicate Happened(before: State<VmssObject>, step: Step<VmssObject>)
      reads this
    {
      && Enabled(cfg, before, step) && st == Apply(cfg, before, step)
      && st.heap.Keys >= before.heap.Keys && st.phase == before.phase
    }

    method HappenDelete(count: nat, unregistered: bool) returns (ghost step: Step<VmssObject>)
      requires Valid()
      modifies this
      ensures Valid() && Repr() == old(Repr()) && Happened(old(st), step) && (step.Tick? || step.DeleteAccepted?)
    {
      step := Tick(0);
      if count > 0 {
        NoteDelete(count, unregistered);
        step := DeleteAccepted(count, unregistered);
      }
    }

    method HappenDeleteEnd(first: DeletePoll, retry: bool, refreshed: bool) returns (ghost step: Step<VmssObject>)
      requires Valid()
      modifies this
      ensures Valid() && Repr() == old(Repr()) && Happened(old(st), step) && (step.Tick? || step.DeleteFinished?)
    {
      step := Tick(0);
      if deletes > 0 {
        ghost var outcome := WaitForDeleteInstances(first, retry, refreshed);
        step := DeleteFinished(outcome, refreshed);
      }
    }

    /** Writes of others, time, and completions. */
    method HappenOutside(event: Event) returns (ghost step: Step<VmssObject>)
      requires Valid() && (event.Wrote? || event.Waited? || event.Completed?)
      modifies this, azure, st.heap.Keys
      ensures Valid() && Repr() == old(Repr()) && Happened(old(st), step)
      ensures step.Foreign? || step.Tick? || step.Complete?
    {
      step := Tick(0);
      match event
      case Wrote(capacity) =>
        azure.history := azure.history + [capacity];
        step := Foreign(capacity);
        st := st.(history := azure.history);
      case Waited(d) =>
        azure.now := azure.now + d;
        step := Tick(d);
        st := st.(now := azure.now);
      case Completed(i, poll) =>
        if i < |pollers| {
          step := Complete(i, poll);
          WaitForCreateOrUpdateInstances(i, poll);
        }
    }

    method Happen(event: Event, ghost calm: bool, ghost steady: bool) returns (ghost step: Step<VmssObject>)
      requires Valid() && Fits(cfg, [event], calm, steady)
      modifies this, azure, st.heap.Keys
      ensures Valid() && fresh(Repr() - old(Repr())) && Happened(old(st), step) && Allowed(step, calm, steady)
    {
      assert event in [event];
      if event.Refreshed? {
        step := RefreshList(event.found, event.age, event.ok);
      } else if event.Queried? {
        var _, _, q := GetCurSize(event.fault, event.age);
        step := Ask(q);
      } else if event.DeleteNoted? {
        step := HappenDelete(event.count, event.unregistered);
      } else if event.DeleteEnded? {
        step := HappenDeleteEnd(event.first, event.retry, event.refreshed);
      } else {
        step := HappenOutside(event);
      }
    }

    /** The object has come from `s0` by `steps`, which hold nothing that is not allowed. */
    ghost predicate At(s0: State<VmssObject>, steps: Trace, calm: bool, steady: bool)
      reads this
    {
      CanRun(cfg, s0, steps) && st == Run(cfg, s0, steps) && AllAllowed(steps, calm, steady)
    }

    /** What happens elsewhere. */
    method Interfere(events: seq<Event>, ghost s0: State<VmssObject>, ghost before: Trace, ghost calm: bool, ghost steady: bool)
      returns (ghost steps: Trace)
      requires Valid() && At(s0, before, calm, steady) && Fits(cfg, events, calm, steady)
      modifies this, azure, st.heap.Keys
      ensures Valid() && fresh(Repr() - old(Repr())) && At(s0, steps, calm, steady)
      ensures st.heap.Keys >= old(st.heap.Keys) && st.phase == old(st.phase)
      ensures events == [] ==> st == old(st)
    {
      steps := before;
      for k := 0 to |events|
        invariant Valid() && fresh(Repr() - old(Repr())) && At(s0, steps, calm, steady)
        invariant st.heap.Keys >= old(st.heap.Keys) && st.phase == old(st.phase)
        invariant k == 0 ==> st == old(st)
      {
        assert Fits(cfg, [events[k]], calm, steady);
        ghost var step := Happen(events[k], calm, steady);
        ExtendAllowed(cfg, s0, steps, step, calm, steady);
        steps := steps + [step];
      }
    }

    // ---------------------------------------------- the steps of an increase

    /** The If-Match value of a capacity PUT. */
    function IfMatch(vmss: VmssObject): Option<nat>
      reads vmss
    {
      if cfg.etags then Some(vmss.etag) else None
    }

    method WriteEagerly(vmssInfo: VmssObject, newSize: int) returns (previousSize: int)
      requires Valid() && Enabled(cfg, st, EagerWrite)
      requires st.phase.req.obj == vmssInfo && st.phase.req.target == newSize
      modifies this`st, vmssInfo`capacity
      ensures Valid() && st == AfterEagerWrite(old(st))
      ensures previousSize == old(vmssInfo.capacity) && vmssInfo.capacity == newSize
    {
      previousSize := vmssInfo.capacity;
      vmssInfo.capacity := newSize;
      st := AfterEagerWrite(st);
    }

    /** What the server answers to the first PUT. */
    function FirstReply(history: seq<nat>, tag: nat, fault: bool): Reply {
      if fault then Refused else if cfg.etags && tag + 1 != |history| then PreconditionFailed else Accepted
    }

    /** The first PUT. */
    method SendFirstPut(vmssInfo: VmssObject, newSize: nat, fault: bool,
                        ghost s0: State<VmssObject>, ghost before: Trace, ghost calm: bool, ghost steady: bool)
      returns (reply: Reply, poller: Put<VmssObject>, ghost steps: Trace)
      requires Valid() && At(s0, before, calm, steady)
      requires st.phase.Ready? && (st.phase.req.atomic || st.phase.req.eager)
      requires st.phase.req.obj == vmssInfo && st.phase.req.target == newSize && vmssInfo in st.heap
      modifies azure`history, this`st
      ensures Valid() && Repr() == old(Repr()) && At(s0, steps, calm, steady) && st.heap.Keys == old(st.heap.Keys)
      ensures poller.obj == vmssInfo && (reply.Accepted? ==> poller.version == old(|azure.history|))
      ensures reply == FirstReply(old(azure.history), vmssInfo.etag, fault)
      ensures azure.history == if reply.Accepted? then old(azure.history) + [newSize] else old(azure.history)
      ensures st.phase ==
        if reply.Accepted? then InFlight(old(st.phase.req), poller)
        else if reply.PreconditionFailed? && cfg.etags then Conflicted(old(st.phase.req))
        else Rejected(old(st.phase.req))
    {
      reply := azure.BeginCreateOrUpdate(newSize, IfMatch(vmssInfo), fault);
      poller := Put(vmssInfo, |azure.history| - 1);
      ExtendByFirst(cfg, s0, before, st, reply, calm, steady);
      steps := before + [SendFirst(reply)];
      st := AfterFirst(cfg, st, reply);
    }

    /** The object shows the version that a read of this age gives. */
    ghost predicate Shows(vmss: VmssObject, history: seq<nat>, age: nat)
      reads vmss
    {
      history != [] && vmss.etag == VersionAt(history, age) && vmss.capacity == history[VersionAt(history, age)]
    }

    /** The freshly read object goes into the cache; whether it meets the target decides. */
    method KeepFetched(vmss: VmssObject, newSize: int) returns (ghost f: Fetch<VmssObject>)
      requires Valid() && st.phase.Conflicted? && st.phase.req.target == newSize && vmss !in st.heap
      requires vmss.etag < |azure.history| && vmss.capacity == azure.history[vmss.etag]
      modifies this`cached, this`lastInstanceRefresh, this`st
      ensures Valid() && CanStore(old(st), f) && st == AfterRefetch(cfg, old(st), Some(f)) && f.obj == vmss
    {
      f := SetScaleSet(vmss);
      InvalidateInstanceCache();
      st := st.(phase := if vmss.capacity >= newSize then Satisfied(st.phase.req, vmss) else Refetched(st.phase.req, vmss));
    }

    method FetchAfterConflict(newSize: int, fault: bool, age: nat) returns (vmss: VmssObject?, ghost answer: Option<Fetch<VmssObject>>)
      requires Valid() && st.phase.Conflicted? && st.phase.req.target == newSize
      modifies this`cached, this`lastInstanceRefresh, this`lastSizeRefresh, this`lastRefresh, this`st
      ensures Valid() && fresh(Repr() - old(Repr())) && st.heap.Keys >= old(st.heap.Keys)
      ensures (vmss == null <==> fault) && StaleInstancesNow()
      ensures vmss != null ==> cached == vmss && Shows(vmss, old(azure.history), age)
      ensures Enabled(cfg, old(st), Refetch(answer)) && st == AfterRefetch(cfg, old(st), answer)
      ensures vmss == null <==> answer.None?
      ensures vmss != null ==> answer.value.obj == vmss && vmss in st.heap
    {
      vmss := azure.Get(fault, age);
      if vmss == null {
        InvalidateForPreconditionFailure();
        st := st.(phase := Rejected(st.phase.req));
        return null, None;
      }
      ghost var f := KeepFetched(vmss, newSize);
      return vmss, Some(f);
    }

    /** The fresh GET after a failed precondition, with what happens before it. */
    method TryFetch(newSize: nat, events: seq<Event>, fault: bool, age: nat,
                    ghost s0: State<VmssObject>, ghost before: Trace, ghost calm: bool, ghost steady: bool)
      returns (vmss: VmssObject?, ghost steps: Trace)
      requires Valid() && At(s0, before, calm, steady) && Fits(cfg, events, calm, steady)
      requires st.phase.Conflicted? && st.phase.req.target == newSize
      modifies this, azure, st.heap.Keys
      ensures Valid() && fresh(Repr() - old(Repr())) && At(s0, steps, calm, steady) && st.heap.Keys >= old(st.heap.Keys)
      ensures vmss == null ==> st.phase == Rejected(old(st.phase.req))
      ensures vmss != null ==> vmss in st.heap
      ensures vmss != null && vmss.capacity >= newSize ==> st.phase == Satisfied(old(st.phase.req), vmss)
      ensures vmss != null && vmss.capacity < newSize ==> st.phase == Refetched(old(st.phase.req), vmss)
      ensures events == [] ==>
        && (vmss == null <==> fault) && (vmss != null ==> cached == vmss && Shows(vmss, old(azure.history), age))
        && azure.history == old(azure.history) && pollers == old(pollers) && StaleInstancesNow()
    {
      steps := Interfere(events, s0, before, calm, steady);
      ghost var answer;
      vmss, answer := FetchAfterConflict(newSize, fault, age);
      ExtendAllowed(cfg, s0, steps, Refetch(answer), calm, steady);
      steps := steps + [Refetch(answer)];
    }

    /** The first PUT, with what happens before it. */
    method TryFirstPut(vmssInfo: VmssObject, newSize: nat, events: seq<Event>, fault: bool,
                       ghost s0: State<VmssObject>, ghost before: Trace, ghost calm: bool, ghost steady: bool)
      returns (reply: Reply, poller: Put<VmssObject>, ghost steps: Trace)
      requires Valid() && At(s0, before, calm, steady) && Fits(cfg, events, calm, steady)
      requires st.phase.Ready? && (st.phase.req.atomic || st.phase.req.eager)
      requires st.phase.req.obj == vmssInfo && st.phase.req.target == newSize && vmssInfo in st.heap
      modifies this, azure, st.heap.Keys
      ensures Valid() && fresh(Repr() - old(Repr())) && At(s0, steps, calm, steady) && st.heap.Keys >= old(st.heap.Keys)
      ensures poller.obj == vmssInfo
      ensures st.phase ==
        if reply.Accepted? then InFlight(old(st.phase.req), poller)
        else if reply.PreconditionFailed? && cfg.etags then Conflicted(old(st.phase.req))
        else Rejected(old(st.phase.req))
      ensures events == [] ==>
        && reply == FirstReply(old(azure.history), old(vmssInfo.etag), fault) && vmssInfo.etag == old(vmssInfo.etag)
        && (reply.Accepted? ==> poller.version == old(|azure.history|))
        && azure.history == (if reply.Accepted? then old(azure.history) + [newSize] else old(azure.history))
        && pollers == old(pollers) && cached == old(cached)
    {
      steps := Interfere(events, s0, before, calm, steady);
      reply, poller, steps := SendFirstPut(vmssInfo, newSize, fault, s0, steps, calm, steady);
    }

    method SendRetriedPut(vmss: VmssObject, newSize: nat, fault: bool,
                          ghost s0: State<VmssObject>, ghost before: Trace, ghost calm: bool, ghost steady: bool)
      returns (accepted: bool, poller: Put<VmssObject>, ghost steps: Trace)
      requires Valid() && At(s0, before, calm, steady)
      requires st.phase.Refetched? && st.phase.newer == vmss && st.phase.req.target == newSize && vmss in st.heap
      modifies azure`history, this`lastInstanceRefresh, this`lastSizeRefresh, this`lastRefresh, this`st
      ensures Valid() && Repr() == old(Repr()) && At(s0, steps, calm, steady) && st.heap.Keys == old(st.heap.Keys)
      ensures poller.obj == vmss && (accepted ==> poller.version == old(|azure.history|))
      ensures accepted <==> !fault && vmss.etag + 1 == old(|azure.history|)
      ensures old(StaleInstancesNow()) ==> StaleInstancesNow()
      ensures azure.history == if accepted then old(azure.history) + [newSize] else old(azure.history)
      ensures st.phase == if accepted then InFlight(old(st.phase.req), poller) else Rejected(old(st.phase.req))
    {
      var reply := azure.BeginCreateOrUpdate(newSize, Some(vmss.etag), fault);
      poller := Put(vmss, |azure.history| - 1);
      ExtendAllowed(cfg, s0, before, SendRetry(reply), calm, steady);
      steps := before + [SendRetry(reply)];
      accepted := reply.Accepted?;
      if accepted {
        st := Accept(st, st.phase.req, vmss, true);
      } else {
        NoteRefusedRetry(reply);
      }
    }

    method NoteRefusedRetry(reply: Reply)
      requires Valid() && st.phase.Refetched? && st.phase.req.target >= 0 && !reply.Accepted?
      modifies this`lastInstanceRefresh, this`lastSizeRefresh, this`lastRefresh, this`st
      ensures Valid() && st == AfterRetry(cfg, old(st), reply)
    {
      st := Log(st, st.phase.req, true, None);
      InvalidateForPreconditionFailure();
      st := st.(phase := Rejected(st.phase.req));
    }

    method CarryCapacity(vmss: VmssObject, newSize: int)
      requires Valid() && Enabled(cfg, st, Carry) && st.phase.put.obj == vmss && st.phase.req.target == newSize
      modifies this`st, vmss`capacity
      ensures Valid() && st == AfterCarry(old(st))
    {
      vmss.capacity := newSize;
      st := AfterCarry(st);
    }

    /** Publishes the size and, when a PUT is in flight, starts the background wait. */
    method PublishSize(size: int, poller: Option<Put<VmssObject>>)
      requires Valid() && Enabled(cfg, st, Publish)
      requires if poller.Some? then st.phase == Carried(st.phase.req, poller.value) && size == st.phase.req.target
                               else st.phase.Satisfied? && size == st.phase.newer.capacity
      requires poller.Some? ==> poller.value.obj in st.heap
      modifies this`curSize, this`lastSizeRefresh, this`pollers, this`st
      ensures Valid() && st == AfterPublish(old(st))
    {
      curSize := size;
      lastSizeRefresh := azure.now;
      if poller.Some? {
        pollers := pollers + [poller.value];
      }
      st := AfterPublish(st);
    }

    method RestoreCapacity(vmssInfo: VmssObject, previousSize: int)
      requires Valid() && Enabled(cfg, st, RollBack) && !st.phase.req.atomic
      requires st.phase.req.obj == vmssInfo && st.phase.req.seen == previousSize
      modifies this`st, vmssInfo`capacity
      ensures Valid() && st == AfterRollBack(old(st))
    {
      vmssInfo.capacity := previousSize;
      st := AfterRollBack(st);
    }

    // ---------------------------------------------------- whole increases

    /** The three ways initCreateOrUpdate ends. */
    ghost predicate Outcome(req: Request<VmssObject>, effective: VmssObject?, poller: Option<Put<VmssObject>>, err: bool)
      reads this
    {
      if err then st.phase == Rejected(req)
      else if poller.Some? then
        st.phase == InFlight(req, poller.value) && effective == poller.value.obj && effective in st.heap
      else effective != null && st.phase == Satisfied(req, effective) && effective in st.heap
    }

    /** The second PUT of retryCreateOrUpdateWithFreshETag. */
    method RetryPut(vmss: VmssObject, newSize: nat, events: seq<Event>, fault: bool,
                    ghost s0: State<VmssObject>, ghost before: Trace, ghost calm: bool, ghost steady: bool)
      returns (poller: Option<Put<VmssObject>>, err: bool, ghost steps: Trace)
      requires Valid() && At(s0, before, calm, steady) && Fits(cfg, events, calm, steady)
      requires st.phase.Refetched? && st.phase.newer == vmss && st.phase.req.target == newSize && vmss in st.heap
      modifies this, azure, st.heap.Keys
      ensures Valid() && fresh(Repr() - old(Repr())) && At(s0, steps, calm, steady) && st.heap.Keys >= old(st.heap.Keys)
      ensures Outcome(old(st.phase.req), vmss, poller, err) && (!err <==> poller.Some?)
      ensures events == [] ==>
        && (!err <==> !fault && old(vmss.etag) + 1 == old(|azure.history|))
        && (!err ==> poller.value.version == old(|azure.history|))
        && azure.history == (if err then old(azure.history) else old(azure.history) + [newSize])
        && pollers == old(pollers) && cached == old(cached) && vmss.etag == old(vmss.etag) && vmss.capacity == old(vmss.capacity)
        && (old(StaleInstancesNow()) ==> StaleInstancesNow())
    {
      steps := Interfere(events, s0, before, calm, steady);
      var accepted, put;
      accepted, put, steps := SendRetriedPut(vmss, newSize, fault, s0, steps, calm, steady);
      return if accepted then Some(put) else None, !accepted, steps;
    }

    /** The end of a retry left to itself, from this history. */
    ghost predicate Retried(history: seq<nat>, newSize: nat, a: Answers, effective: VmssObject?, poller: Option<Put<VmssObject>>, err: bool)
      reads this, azure, effective
    {
      && history != []
      && (err <==> !RetryAccepted(history, newSize, a) && !AlreadyMet(history, newSize, a))
      && (poller.Some? <==> RetryAccepted(history, newSize, a)) && (poller.Some? ==> poller.value.version == |history|)
      && azure.history == (if poller.Some? then history + [newSize] else history) && StaleInstancesNow()
      && (!err ==> effective != null && cached == effective && Shows(effective, history, a.getAge))
    }

    method RetryCreateOrUpdateWithFreshETag(newSize: nat, a: Answers,
                                            ghost s0: State<VmssObject>, ghost before: Trace, ghost calm: bool, ghost steady: bool)
      returns (effective: VmssObject?, poller: Option<Put<VmssObject>>, err: bool, ghost steps: Trace)
      requires Valid() && At(s0, before, calm, steady) && AllFit(cfg, a, calm, steady)
      requires st.phase.Conflicted? && st.phase.req.target == newSize
      modifies this, azure, st.heap.Keys
      ensures Valid() && fresh(Repr() - old(Repr())) && At(s0, steps, calm, steady) && st.heap.Keys >= old(st.heap.Keys)
      ensures Outcome(old(st.phase.req), effective, poller, err)
      ensures Still(a) ==> Retried(old(azure.history), newSize, a, effective, poller, err) && pollers == old(pollers)
    {
      poller := None;
      effective, steps := TryFetch(newSize, a.beforeGet, a.getFault, a.getAge, s0, before, calm, steady);
      err := effective == null;
      if effective != null && effective.capacity < newSize {
        poller, err, steps := RetryPut(effective, newSize, a.beforeRetry, a.retryFault, s0, steps, calm, steady);
      }
    }

    /** The end of initCreateOrUpdate left to itself, from this history and tag. */
    ghost predicate Answered(history: seq<nat>, tag: nat, newSize: nat, a: Answers, effective: VmssObject?,
                             poller: Option<Put<VmssObject>>, err: bool)
      reads this, azure, effective
    {
      && history != []
      && (err <==> !Sends(cfg, history, tag, newSize, a) && !Meets(cfg, history, tag, newSize, a))
      && (poller.Some? <==> Sends(cfg, history, tag, newSize, a)) && (poller.Some? ==> poller.value.version == |history|)
      && azure.history == (if poller.Some? then history + [newSize] else history)
      && (Conflicts(cfg, history, tag, a) ==> StaleInstancesNow())
      && (!err ==> effective != null && cached == effective)
      && (!err && poller.None? ==> effective.capacity == history[VersionAt(history, a.getAge)])
      && (poller.Some? ==> poller.value.obj == effective && effective.etag == SentTag(cfg, history, tag, a))
    }

    method InitCreateOrUpdate(vmssInfo: VmssObject, newSize: nat, a: Answers,
                              ghost s0: State<VmssObject>, ghost before: Trace, ghost calm: bool, ghost steady: bool)
      returns (effective: VmssObject?, poller: Option<Put<VmssObject>>, err: bool, ghost steps: Trace)
      requires Valid() && At(s0, before, calm, steady) && AllFit(cfg, a, calm, steady)
      requires st.phase.Ready? && (st.phase.req.atomic || st.phase.req.eager)
      requires st.phase.req.obj == vmssInfo && st.phase.req.target == newSize && vmssInfo in st.heap
      modifies this, azure, st.heap.Keys
      ensures Valid() && fresh(Repr() - old(Repr())) && At(s0, steps, calm, steady) && st.heap.Keys >= old(st.heap.Keys)
      ensures Outcome(old(st.phase.req), effective, poller, err)
      ensures Still(a) && old(cached) == vmssInfo ==>
        Answered(old(azure.history), old(vmssInfo.etag), newSize, a, effective, poller, err) && pollers == old(pollers)
    {
      effective, poller, err := null, None, true;
      var reply, put;
      reply, put, steps := TryFirstPut(vmssInfo, newSize, a.beforeFirst, a.firstFault, s0, before, calm, steady);
      if reply.Accepted? {
        return vmssInfo, Some(put), false, steps;
      }
      if cfg.etags && reply.PreconditionFailed? {
        effective, poller, err, steps := RetryCreateOrUpdateWithFreshETag(newSize, a, s0, steps, calm, steady);
      }
    }

    /** What a failed increase, taken at `s0`, leaves behind: the size if nothing else
        published one, the object it took, and a cached object that is this one or was read
        since and shows a capacity the server reported. */
    ghost predicate LeftAsBefore(s0: State<VmssObject>, vmssInfo: VmssObject, calm: bool)
      requires vmssInfo in s0.heap
      reads this, azure, vmssInfo, cached
    {
      && st.phase.Failed? && vmssInfo.capacity == s0.heap[vmssInfo].capacity && (calm ==> curSize == s0.curSize)
      && (cached == null || cached == vmssInfo ||
          (cached !in s0.heap && cached.etag < |azure.history| && cached.capacity == azure.history[cached.etag]))
    }

    /** What a successful one leaves: the cached capacity published, if nothing else replaced
        the cached object. */
    ghost predicate PublishedFor(newSize: int, steady: bool)
      reads this, cached
    {
      st.phase.Published? && (steady ==> cached != null && curSize == cached.capacity >= newSize)
    }

    lemma FailedIsLeft(s0: State<VmssObject>, steps: Trace, vmssInfo: VmssObject, calm: bool, steady: bool)
      requires Valid() && Started(s0) && s0.phase.req.obj == vmssInfo && At(s0, steps, calm, steady) && st.phase.Failed?
      ensures LeftAsBefore(s0, vmssInfo, calm)
    {
      assert forall step <- steps :: Allowed(step, calm, steady);
      FailureAtomicity(cfg, s0, steps);
      if calm {
        UnpublishedIsFree(cfg, s0, steps);
      }
    }

    lemma PublishedIsLeft(s0: State<VmssObject>, before: Trace, last: Step<VmssObject>, calm: bool, steady: bool)
      requires Valid() && Started(s0) && st.phase.Published? && (last.Publish? || last.PollAtomic?)
      requires CanRun(cfg, s0, before) && AllAllowed(before, calm, steady) && !Run(cfg, s0, before).phase.Published?
      requires Enabled(cfg, Run(cfg, s0, before), last) && st == Apply(cfg, Run(cfg, s0, before), last)
      ensures PublishedFor(s0.phase.req.target, steady)
    {
      if steady {
        assert forall step <- before :: Allowed(step, calm, steady);
        PublicationByLast(cfg, s0, before, last);
      }
    }

    /** The history and the completions under way are as given, and so is an invalidation. */
    ghost predicate SameElsewhere(history: seq<nat>, before: seq<Put<VmssObject>>, stale: bool)
      reads this, azure
    {
      azure.history == history && pollers == before && (stale ==> StaleInstancesNow())
    }

    /** The roll back of createOrUpdateInstances. */
    method FailPlain(vmssInfo: VmssObject, previousSize: int, events: seq<Event>, ghost s0: State<VmssObject>, ghost before: Trace, ghost calm: bool, ghost steady: bool)
      returns (ghost steps: Trace)
      requires Valid() && Started(s0) && At(s0, before, calm, steady) && Fits(cfg, events, calm, steady)
      requires st.phase.Rejected? && !st.phase.req.atomic && st.phase.req.obj == vmssInfo && st.phase.req.seen == previousSize
      requires vmssInfo in st.heap && s0.phase.req.obj == vmssInfo
      modifies this, azure, st.heap.Keys
      ensures Valid() && fresh(Repr() - old(Repr())) && At(s0, steps, calm, steady) && LeftAsBefore(s0, vmssInfo, calm)
      ensures events == [] ==> SameElsewhere(old(azure.history), old(pollers), old(StaleInstancesNow()))
    {
      steps := Interfere(events, s0, before, calm, steady);
      RestoreCapacity(vmssInfo, previousSize);
      ExtendAllowed(cfg, s0, steps, RollBack, calm, steady);
      steps := steps + [RollBack];
      FailedIsLeft(s0, steps, vmssInfo, calm, steady);
    }

    /** The target carried onto the object the completion will update. */
    method CarryOn(effective: VmssObject, poller: Put<VmssObject>, newSize: nat, events: seq<Event>, ghost s0: State<VmssObject>, ghost before: Trace, ghost calm: bool, ghost steady: bool)
      returns (ghost steps: Trace)
      requires Valid() && At(s0, before, calm, steady) && Fits(cfg, events, calm, steady)
      requires st.phase.InFlight? && st.phase.put == poller && poller.obj == effective && effective in st.heap
      requires !st.phase.req.atomic && st.phase.req.target == newSize
      modifies this, azure, st.heap.Keys
      ensures Valid() && fresh(Repr() - old(Repr())) && At(s0, steps, calm, steady) && st.heap.Keys >= old(st.heap.Keys)
      ensures st.phase == Carried(old(st.phase.req), poller)
      ensures events == [] ==> SameElsewhere(old(azure.history), old(pollers), old(StaleInstancesNow())) && cached == old(cached)
    {
      steps := Interfere(events, s0, before, calm, steady);
      CarryCapacity(effective, newSize);
      ExtendAllowed(cfg, s0, steps, Carry, calm, steady);
      steps := steps + [Carry];
    }

    /** The publication of createOrUpdateInstances. */
    method FinishPlain(effective: VmssObject, poller: Option<Put<VmssObject>>, newSize: nat, events: seq<Event>, ghost s0: State<VmssObject>, ghost before: Trace, ghost calm: bool, ghost steady: bool)
      returns (ghost steps: Trace)
      requires Valid() && Started(s0) && At(s0, before, calm, steady) && Fits(cfg, events, calm, steady) && effective in st.heap
      requires if poller.Some? then st.phase.Carried? && st.phase.put == poller.value && st.phase.req.target == newSize && poller.value.obj == effective
               else st.phase.Satisfied? && st.phase.newer == effective
      requires s0.phase.req.target == newSize
      modifies this, azure, st.heap.Keys
      ensures Valid() && fresh(Repr() - old(Repr())) && At(s0, steps, calm, steady) && PublishedFor(newSize, steady)
      ensures events == [] ==>
        && azure.history == old(azure.history) && (old(StaleInstancesNow()) ==> StaleInstancesNow()) && cached == old(cached)
        && pollers == (if poller.Some? then old(pollers) + [poller.value] else old(pollers))
        && lastSizeRefresh == azure.now && curSize == if poller.Some? then newSize else old(effective.capacity)
    {
      steps := Interfere(events, s0, before, calm, steady);
      ExtendAllowed(cfg, s0, steps, Publish, calm, steady);
      PublishSize(if poller.Some? then newSize else effective.capacity, poller);
      PublishedIsLeft(s0, steps, Publish, calm, steady);
      steps := steps + [Publish];
    }

    /** createOrUpdateInstances once the update is accepted or already met. */
    method SucceedPlain(effective: VmssObject, poller: Option<Put<VmssObject>>, newSize: nat, a: Answers,
                        ghost s0: State<VmssObject>, ghost before: Trace, ghost calm: bool, ghost steady: bool)
      returns (ghost steps: Trace)
      requires Valid() && Started(s0) && At(s0, before, calm, steady) && AllFit(cfg, a, calm, steady)
      requires (st.phase.InFlight? || st.phase.Satisfied?) && !st.phase.req.atomic && st.phase.req.target == newSize
      requires Outcome(st.phase.req, effective, poller, false) && s0.phase.req.target == newSize
      modifies this, azure, st.heap.Keys
      ensures Valid() && fresh(Repr() - old(Repr())) && At(s0, steps, calm, steady) && PublishedFor(newSize, steady)
      ensures Still(a) ==>
        && azure.history == old(azure.history) && (old(StaleInstancesNow()) ==> StaleInstancesNow()) && cached == old(cached)
        && pollers == (if poller.Some? then old(pollers) + [poller.value] else old(pollers))
        && lastSizeRefresh == azure.now && curSize == if poller.Some? then newSize else old(effective.capacity)
    {
      steps := before;
      if poller.Some? {
        steps := CarryOn(effective, poller.value, newSize, a.afterwards, s0, steps, calm, steady);
      }
      steps := FinishPlain(effective, poller, newSize, a.beforePublish, s0, steps, calm, steady);
    }

    /** The eager write, with what happens before it. */
    method WriteLater(vmssInfo: VmssObject, newSize: nat, events: seq<Event>, ghost s0: State<VmssObject>, ghost before: Trace, ghost calm: bool, ghost steady: bool)
      returns (previousSize: int, ghost steps: Trace)
      requires Valid() && At(s0, before, calm, steady) && Fits(cfg, events, calm, steady)
      requires Enabled(cfg, st, EagerWrite) && st.phase.req.obj == vmssInfo && st.phase.req.target == newSize
      modifies this, azure, st.heap.Keys
      ensures Valid() && fresh(Repr() - old(Repr())) && At(s0, steps, calm, steady) && st.heap.Keys >= old(st.heap.Keys)
      ensures st.phase == Ready(old(st.phase.req).(eager := true, seen := previousSize))
      ensures events == [] ==>
        && SameElsewhere(old(azure.history), old(pollers), old(StaleInstancesNow()))
        && cached == old(cached) && vmssInfo.etag == old(vmssInfo.etag)
    {
      steps := Interfere(events, s0, before, calm, steady);
      previousSize := WriteEagerly(vmssInfo, newSize);
      ExtendAllowed(cfg, s0, steps, EagerWrite, calm, steady);
      steps := steps + [EagerWrite];
    }

    /** createOrUpdateInstances up to the answer of initCreateOrUpdate. */
    method EagerlyPut(vmssInfo: VmssObject, newSize: nat, a: Answers, ghost s0: State<VmssObject>, ghost before: Trace, ghost calm: bool, ghost steady: bool)
      returns (previousSize: int, effective: VmssObject?, poller: Option<Put<VmssObject>>, err: bool, ghost steps: Trace)
      requires Valid() && At(s0, before, calm, steady) && AllFit(cfg, a, calm, steady)
      requires Enabled(cfg, st, EagerWrite) && st.phase.req.obj == vmssInfo && st.phase.req.target == newSize
      modifies this, azure, st.heap.Keys
      ensures Valid() && fresh(Repr() - old(Repr())) && At(s0, steps, calm, steady) && st.heap.Keys >= old(st.heap.Keys)
      ensures Outcome(old(st.phase.req).(eager := true, seen := previousSize), effective, poller, err)
      ensures Still(a) && old(cached) == vmssInfo ==>
        Answered(old(azure.history), old(vmssInfo.etag), newSize, a, effective, poller, err) && pollers == old(pollers)
    {
      previousSize, steps := WriteLater(vmssInfo, newSize, a.beforeWrite, s0, before, calm, steady);
      effective, poller, err, steps := InitCreateOrUpdate(vmssInfo, newSize, a, s0, steps, calm, steady);
    }

    /** The publication, or the roll back. */
    method SettlePlain(vmssInfo: VmssObject, previousSize: int, effective: VmssObject?, poller: Option<Put<VmssObject>>, err: bool,
                       newSize: nat, a: Answers, ghost s0: State<VmssObject>, ghost before: Trace, ghost calm: bool, ghost steady: bool)
      returns (ghost steps: Trace)
      requires Valid() && Started(s0) && At(s0, before, calm, steady) && AllFit(cfg, a, calm, steady)
      requires (st.phase.Rejected? || st.phase.InFlight? || st.phase.Satisfied?) && Outcome(st.phase.req, effective, poller, err)
      requires !st.phase.req.atomic && st.phase.req.target == newSize && s0.phase.req.target == newSize
      requires st.phase.req.obj == vmssInfo && st.phase.req.seen == previousSize && vmssInfo in st.heap && s0.phase.req.obj == vmssInfo
      modifies this, azure, st.heap.Keys
      ensures Valid() && fresh(Repr() - old(Repr())) && At(s0, steps, calm, steady)
      ensures if err then LeftAsBefore(s0, vmssInfo, calm) else PublishedFor(newSize, steady)
      ensures Still(a) ==>
        && azure.history == old(azure.history) && (old(StaleInstancesNow()) ==> StaleInstancesNow())
        && pollers == (if !err && poller.Some? then old(pollers) + [poller.value] else old(pollers))
      ensures Still(a) && !err ==>
        cached == old(cached) && lastSizeRefresh == azure.now && curSize == if poller.Some? then newSize else old(effective.capacity)
    {
      if err {
        steps := FailPlain(vmssInfo, previousSize, a.afterwards, s0, before, calm, steady);
      } else {
        steps := SucceedPlain(effective, poller, newSize, a, s0, before, calm, steady);
      }
    }

    /** A plain increase left to itself came to this, with these completions under way before:
        an accepted PUT leaves one more, of the object in the cache. */
    ghost predicate PlainDone(f: Forecast, before: seq<Put<VmssObject>>, err: bool)
      reads this, azure
    {
      && err == f.err && azure.history == f.history && (f.stale ==> StaleInstancesNow())
      && (if f.sent then cached != null && pollers == before + [Put(cached, f.version)] else pollers == before)
      && (!err ==> lastSizeRefresh == azure.now && curSize == f.size)
    }

    /** createOrUpdateInstances, a plain increase to `newSize` on the cached object.  Whatever
        happens elsewhere: on failure nothing of it is left behind; on success the cached
        capacity is published and meets the target. */
    method CreateOrUpdateInstances(vmssInfo: VmssObject, newSize: nat, a: Answers, ghost calm: bool, ghost steady: bool)
      returns (err: bool, ghost steps: Trace)
      requires Valid() && Started(st) && !st.phase.req.atomic && AllFit(cfg, a, calm, steady)
      requires st.phase.req.obj == vmssInfo && st.phase.req.target == newSize
      modifies this, azure, st.heap.Keys
      ensures Valid() && fresh(Repr() - old(Repr())) && At(old(st), steps, calm, steady)
      ensures if err then LeftAsBefore(old(st), vmssInfo, calm) else PublishedFor(newSize, steady)
      ensures Still(a) ==> PlainDone(ForecastOf(cfg, old(azure.history), old(vmssInfo.etag), newSize, a, true), old(pollers), err)
    {
      ghost var s0 := st;
      var previousSize, effective, poller;
      previousSize, effective, poller, err, steps := EagerlyPut(vmssInfo, newSize, a, s0, [], calm, steady);
      steps := SettlePlain(vmssInfo, previousSize, effective, poller, err, newSize, a, s0, steps, calm, steady);
    }

    /** The poll of AtomicIncreaseSize, and the publication after it. */
    method PollAndPublish(put: Put<VmssObject>, newSize: nat, poll: Poll)
      requires Valid() && st.phase.InFlight? && st.phase.put == put && put.obj in st.heap && st.phase.req.target == newSize
      modifies this`curSize, this`lastSizeRefresh, this`lastInstanceRefresh, this`lastRefresh, this`st, put.obj
      ensures Valid() && Repr() == old(Repr()) && st == AfterPollAtomic(cfg, old(st), poll)
      ensures Polled(put, newSize, poll, old(put.obj.etag))
      ensures poll.Broken? ==> curSize == old(curSize) && put.obj.capacity == old(put.obj.capacity)
      ensures poll.Done? ==> lastRefresh == old(lastRefresh)
    {
      ghost var was := st;
      if poll.Broken? {
        InvalidateForPreconditionFailure();
      } else {
        InvalidateInstanceCache();
        put.obj.capacity := newSize;
        if cfg.etags && poll.hasEtag {
          put.obj.etag := put.version;
        }
        curSize := newSize;
        lastSizeRefresh := azure.now;
      }
      st := AfterPollAtomic(cfg, was, poll);
    }

    /** After the poll: a failed one makes every cache refresh; a successful one publishes the
        target, and with ETags on its object takes over the tag the response carries. */
    ghost predicate Polled(put: Put<VmssObject>, newSize: nat, poll: Poll, tag: nat)
      reads this, azure, put.obj
    {
      && StaleInstancesNow()
      && (if poll.Broken? then
            && StaleSizeNow() && StaleManagerNow()
            && put.obj.etag == tag
          else
            && curSize == newSize == put.obj.capacity && lastSizeRefresh == azure.now
            && put.obj.etag == if cfg.etags && poll.hasEtag then put.version else tag)
    }

    /** AtomicIncreaseSize once its PUT is accepted. */
    method FinishAtomic(poller: Put<VmssObject>, newSize: nat, events: seq<Event>, poll: Poll, ghost s0: State<VmssObject>, ghost before: Trace, ghost calm: bool, ghost steady: bool)
      returns (ghost steps: Trace)
      requires Valid() && Started(s0) && At(s0, before, calm, steady) && Fits(cfg, events, calm, steady)
      requires st.phase.InFlight? && st.phase.req.atomic && st.phase.put == poller && st.phase.req.target == newSize && poller.obj in st.heap
      requires s0.phase.req.target == newSize
      modifies this, azure, st.heap.Keys
      ensures Valid() && fresh(Repr() - old(Repr())) && At(s0, steps, calm, steady)
      ensures if poll.Broken? then LeftAsBefore(s0, s0.phase.req.obj, calm) else PublishedFor(newSize, steady)
      ensures events == [] ==>
        && azure.history == old(azure.history) && pollers == old(pollers) && cached == old(cached)
        && Polled(poller, newSize, poll, old(poller.obj.etag))
    {
      steps := Interfere(events, s0, before, calm, steady);
      ExtendAllowed(cfg, s0, steps, PollAtomic(poll), calm, steady);
      PollAndPublish(poller, newSize, poll);
      if poll.Done? {
        PublishedIsLeft(s0, steps, PollAtomic(poll), calm, steady);
      }
      steps := steps + [PollAtomic(poll)];
      if poll.Broken? {
        FailedIsLeft(s0, steps, s0.phase.req.obj, calm, steady);
      }
    }

    /** The atomic increase gives up after a rejection; there is nothing to restore. */
    ghost method FailAtomic(s0: State<VmssObject>, before: Trace, calm: bool, steady: bool) returns (steps: Trace)
      requires Valid() && Started(s0) && At(s0, before, calm, steady)
      requires st.phase.Rejected? && st.phase.req.atomic && st.phase.req.obj in st.heap
      modifies this`st
      ensures Valid() && Repr() == old(Repr()) && At(s0, steps, calm, steady) && LeftAsBefore(s0, s0.phase.req.obj, calm)
    {
      steps := before;
      ExtendAllowed(cfg, s0, steps, RollBack, calm, steady);
      st := AfterRollBack(st);
      steps := steps + [RollBack];
      FailedIsLeft(s0, steps, s0.phase.req.obj, calm, steady);
    }

    /** An atomic one came to this: the object of an accepted PUT, in the cache, is as the poll
        leaves it. */
    ghost predicate AtomicDone(f: Forecast, before: seq<Put<VmssObject>>, poll: Poll, err: bool)
      reads this, azure, cached
    {
      && err == f.err && azure.history == f.history && (f.stale ==> StaleInstancesNow()) && pollers == before
      && (f.sent ==> cached != null && Polled(Put(cached, f.version), f.size, poll, f.tag))
      && (!err ==> lastSizeRefresh == azure.now && curSize == f.size)
    }

    /** AtomicIncreaseSize once the cached object is taken, with the promises of the plain one. */
    method AtomicPut(vmssInfo: VmssObject, newSize: nat, a: Answers, poll: Poll, ghost calm: bool, ghost steady: bool)
      returns (err: bool, ghost steps: Trace)
      requires Valid() && Started(st) && st.phase.req.atomic && AllFit(cfg, a, calm, steady)
      requires st.phase.req.obj == vmssInfo && st.phase.req.target == newSize
      modifies this, azure, st.heap.Keys
      ensures Valid() && fresh(Repr() - old(Repr())) && At(old(st), steps, calm, steady)
      ensures if err then LeftAsBefore(old(st), vmssInfo, calm) else PublishedFor(newSize, steady)
      ensures Still(a) ==>
        AtomicDone(ForecastOf(cfg, old(azure.history), old(vmssInfo.etag), newSize, a, poll.Done?), old(pollers), poll, err)
    {
      ghost var s0 := st;
      var effective, poller;
      effective, poller, err, steps := InitCreateOrUpdate(vmssInfo, newSize, a, s0, [], calm, steady);
      if err {
        steps := FailAtomic(s0, steps, calm, steady);
      } else if poller.Some? {
        err := poll.Broken?;
        steps := FinishAtomic(poller.value, newSize, a.afterwards, poll, s0, steps, calm, steady);
      } else {
        steps := FinishPlain(effective, poller, newSize, a.afterwards, s0, steps, calm, steady);
      }
    }

    // -------------------------------------------------------- the two operations

    ghost predicate NoIncrease()
      reads this
    {
      st.phase.Idle? || st.phase.Published? || st.phase.Failed?
    }

    /** getScaleSetSize as a step of its own, or as the start of an increase. */
    ghost method NoteSize(before: State<VmssObject>, q: Query<VmssObject>, delta: int, start: bool) returns (steps: Trace)
      requires Valid() && CanAsk(cfg, before, q) && st == AfterQuery(cfg, before, q)
      requires start ==> Enabled(cfg, before, Begin(q, delta))
      modifies this`st
      ensures Valid() && CanRun(cfg, before, steps) && st == Run(cfg, before, steps)
      ensures Repr() == old(Repr()) && st.heap == old(st.heap)
      ensures st.phase == if start then Sized(curSize, curSize + delta) else old(st.phase)
    {
      var step := if start then Begin(q, delta) else Ask(q);
      Extend(cfg, before, [], step);
      steps := [] + [step];
      if start {
        st := StartIncrease(st, delta);
      }
    }

    /** canIncreaseSize: the increase may start exactly when the delta is positive, a size is
        found and the maximum allows it. */
    method CanIncreaseSize(delta: int, fault: bool, age: nat) returns (size: int, err: bool, ghost tag: nat, ghost steps: Trace)
      requires Valid() && NoIncrease()
      modifies this
      ensures Valid() && fresh(Repr() - old(Repr())) && st.heap.Keys >= old(st.heap.Keys)
      ensures CanRun(cfg, old(st), steps) && st == Run(cfg, old(st), steps)
      ensures delta <= 0 ==> size == -1 && steps == []
      ensures size >= 0 ==> curSize == size
      ensures err <==> delta <= 0 || size < 0 || size + delta > cfg.maxSize
      ensures st.phase == if err then old(st.phase) else Sized(size, size + delta)
      ensures azure.history == old(azure.history) && pollers == old(pollers)
      ensures delta > 0 ==> (size, tag) == old(Found(fault, age))
      ensures !err ==> cached != null && cached.etag == tag
    {
      if delta <= 0 {
        return -1, true, 0, [];
      }
      var failed;
      ghost var q;
      size, failed, q := GetCurSize(fault, age);
      tag := if failed then 0 else cached.etag;
      err := failed || size < 0 || size + delta > cfg.maxSize;
      steps := NoteSize(old(st), q, delta, !err);
    }

    /** getVMSSFromCache, at the start of an increase. */
    method TakeVmss(atomic: bool) returns (vmssInfo: VmssObject?, ghost step: Step<VmssObject>)
      requires Valid() && st.phase.Sized?
      modifies this`st
      ensures Valid() && Repr() == old(Repr()) && vmssInfo == cached
      ensures Enabled(cfg, old(st), step) && st == Apply(cfg, old(st), step)
      ensures if vmssInfo == null then step == GiveUp else step == Take(atomic)
    {
      vmssInfo := cached;
      step := if cached == null then GiveUp else Take(atomic);
      st := Apply(cfg, st, step);
    }

    /** The same, with what happens before it. */
    method TakeLater(events: seq<Event>, atomic: bool) returns (vmssInfo: VmssObject?, ghost steps: Trace)
      requires Valid() && st.phase.Sized?
      modifies this, azure, st.heap.Keys
      ensures Valid() && fresh(Repr() - old(Repr())) && CanRun(cfg, old(st), steps) && st == Run(cfg, old(st), steps)
      ensures vmssInfo == null ==> st.phase.Idle?
      ensures vmssInfo != null ==>
        Started(st) && st.phase.req.obj == vmssInfo && st.phase.req.target == old(st.phase.target) && st.phase.req.atomic == atomic
      ensures Fits(cfg, events, true, false) ==> curSize == old(curSize)
      ensures events == [] ==>
        && azure.history == old(azure.history) && pollers == old(pollers) && cached == old(cached)
        && vmssInfo == cached && (vmssInfo != null ==> vmssInfo.etag == old(cached.etag))
    {
      ghost var calm := Fits(cfg, events, true, false);
      steps := Interfere(events, st, [], calm, false);
      if calm {
        CalmKeepsSize(cfg, old(st), steps);
      }
      ghost var step;
      vmssInfo, step := TakeVmss(atomic);
      Extend(cfg, old(st), steps, step);
      steps := steps + [step];
    }

    /** setScaleSetSize: the cached object is taken and a plain increase made on it. */
    method SetSize(newSize: nat, a: Answers, ghost f: Forecast, ghost s0: State<VmssObject>, ghost before: Trace)
      returns (err: bool, ghost steps: Trace)
      requires Valid() && st.phase.Sized? && st.phase.target == newSize && CanRun(cfg, s0, before) && st == Run(cfg, s0, before)
      requires LeftAlone(a) && cached != null ==> f == ForecastOf(cfg, azure.history, cached.etag, newSize, a, true)
      modifies this, azure, st.heap.Keys
      ensures Valid() && CanRun(cfg, s0, steps) && st == Run(cfg, s0, steps) && NoIncrease()
      ensures err && NothingPublished(a) ==> curSize == old(curSize)
      ensures !err && NothingReplaced(a) ==> cached != null && curSize == cached.capacity >= newSize
      ensures LeftAlone(a) && old(cached) != null ==> PlainDone(f, old(pollers), err)
    {
      var vmssInfo;
      vmssInfo, steps := TakeLater(a.beforeTake, false);
      Join(cfg, s0, before, steps);
      steps := before + steps;
      if vmssInfo == null {
        return true, steps;
      }
      ghost var calm, steady := AllFit(cfg, a, true, false), AllFit(cfg, a, false, true);
      ghost var more;
      err, more := CreateOrUpdateInstances(vmssInfo, newSize, a, calm, steady);
      Join(cfg, s0, steps, more);
      steps := steps + more;
    }

    /** The same for an atomic increase. */
    method SetSizeAtomically(newSize: nat, a: Answers, poll: Poll, ghost f: Forecast, ghost s0: State<VmssObject>, ghost before: Trace)
      returns (err: bool, ghost steps: Trace)
      requires Valid() && st.phase.Sized? && st.phase.target == newSize && CanRun(cfg, s0, before) && st == Run(cfg, s0, before)
      requires LeftAlone(a) && cached != null ==> f == ForecastOf(cfg, azure.history, cached.etag, newSize, a, poll.Done?)
      modifies this, azure, st.heap.Keys
      ensures Valid() && CanRun(cfg, s0, steps) && st == Run(cfg, s0, steps) && NoIncrease()
      ensures err && NothingPublished(a) ==> curSize == old(curSize)
      ensures !err && NothingReplaced(a) ==> cached != null && curSize == cached.capacity >= newSize
      ensures LeftAlone(a) && old(cached) != null ==> AtomicDone(f, old(pollers), poll, err)
    {
      var vmssInfo;
      vmssInfo, steps := TakeLater(a.beforeTake, true);
      Join(cfg, s0, before, steps);
      steps := before + steps;
      if vmssInfo == null {
        return true, steps;
      }
      ghost var calm, steady := AllFit(cfg, a, true, false), AllFit(cfg, a, false, true);
      ghost var more;
      err, more := AtomicPut(vmssInfo, newSize, a, poll, calm, steady);
      Join(cfg, s0, steps, more);
      steps := steps + more;
    }

    /** IncreaseSize: `size` is the size found before the request, -1 if none was, and `tag` the tag
        of the object then in the cache. */
    method IncreaseSize(delta: int, fault: bool, age: nat, a: Answers)
      returns (size: int, err: bool, ghost tag: nat, ghost steps: Trace)
      requires Valid() && NoIncrease()
      modifies this, azure, st.heap.Keys
      ensures Valid() && CanRun(cfg, old(st), steps) && st == Run(cfg, old(st), steps) && NoIncrease()
      ensures delta <= 0 ==> err && steps == []
      ensures !err ==> Allows(size, delta)
      ensures err && size >= 0 && NothingPublished(a) ==> curSize == size
      ensures !err && NothingReplaced(a) ==> cached != null && curSize == cached.capacity >= size + delta
      ensures if delta > 0 then (size, tag) == old(Found(fault, age)) else size == -1
      ensures LeftAlone(a) ==>
        if Allows(size, delta) then PlainDone(ForecastOf(cfg, old(azure.history), tag, size + delta, a, true), old(pollers), err)
        else err && azure.history == old(azure.history) && pollers == old(pollers)
    {
      size, err, tag, steps := CanIncreaseSize(delta, fault, age);
      if !err {
        ghost var f := ForecastOf(cfg, azure.history, tag, size + delta, a, true);
        err, steps := SetSize(size + delta, a, f, old(st), steps);
      }
    }

    /** AtomicIncreaseSize, likewise. */
    method AtomicIncreaseSize(delta: int, fault: bool, age: nat, a: Answers, poll: Poll)
      returns (size: int, err: bool, ghost tag: nat, ghost steps: Trace)
      requires Valid() && NoIncrease()
      modifies this, azure, st.heap.Keys
      ensures Valid() && CanRun(cfg, old(st), steps) && st == Run(cfg, old(st), steps) && NoIncrease()
      ensures delta <= 0 ==> err && steps == []
      ensures !err ==> Allows(size, delta)
      ensures err && size >= 0 && NothingPublished(a) ==> curSize == size
      ensures !err && NothingReplaced(a) ==> cached != null && curSize == cached.capacity >= size + delta
      ensures if delta > 0 then (size, tag) == old(Found(fault, age)) else size == -1
      ensures LeftAlone(a) ==>
        if Allows(size, delta) then AtomicDone(ForecastOf(cfg, old(azure.history), tag, size + delta, a, poll.Done?), old(pollers), poll, err)
        else err && azure.history == old(azure.history) && pollers == old(pollers)
    {
      size, err, tag, steps := CanIncreaseSize(delta, fault, age);
      if !err {
        ghost var f := ForecastOf(cfg, azure.history, tag, size + delta, a, poll.Done?);
        err, steps := SetSizeAtomically(size + delta, a, poll, f, old(st), steps);
      }
    }

    /** Nothing happens elsewhere. */
    ghost predicate LeftAlone(a: Answers) {
      a.beforeTake == [] && Still(a)
    }

    /** The request is for more, a size was found, and the maximum allows it. */
    predicate Allows(size: int, delta: int) {
      delta > 0 && 0 <= size <= cfg.maxSize - delta
    }

    /** Nothing beside the increase publishes a size. */
    ghost predicate NothingPublished(a: Answers) {
      Fits(cfg, a.beforeTake, true, false) && AllFit(cfg, a, true, false)
    }

    /** Nothing beside the increase replaces the cached object once it is taken. */
    ghost predicate NothingReplaced(a: Answers) {
      AllFit(cfg, a, false, true)
    }

    // ------------------------------------------------------------ deletes

    /** What DeleteInstances does to the size once a delete of `count` ids is accepted. */
    method NoteDelete(count: nat, hasUnregisteredNodes: bool)
      requires Valid() && count > 0
      modifies this`curSize, this`lastSizeRefresh, this`deletes, this`st
      ensures Valid() && st == AfterDelete(cfg, old(st), count, hasUnregisteredNodes)
      ensures (curSize, lastSizeRefresh) ==
        if cfg.strict || hasUnregisteredNodes then old((curSize, lastSizeRefresh))
        else if old(curSize) >= count then (old(curSize) - count, azure.now)
        else (old(curSize), ZERO_TIME)
    {
      if !cfg.strict && !hasUnregisteredNodes {
        if curSize < count {
          lastSizeRefresh := ZERO_TIME;
        } else {
          curSize := curSize - count;
          lastSizeRefresh := azure.now;
        }
      }
      deletes := deletes + 1;
      st := AfterDelete(cfg, st, count, hasUnregisteredNodes);
    }

    /** waitForDeleteInstances: `first` and `retry` are how the two operations end (the
        second is tried only when the first was preempted), `refreshed` whether
        forceRefresh works; the lists forceRefresh makes are steps of their own. */
    method WaitForDeleteInstances(first: DeletePoll, retry: bool, refreshed: bool) returns (ghost outcome: DeleteOutcome)
      requires Valid() && deletes > 0
      modifies this`lastInstanceRefresh, this`lastSizeRefresh, this`lastRefresh, this`deletes, this`st
      ensures Valid() && st == AfterDeleteFinished(cfg, old(st), outcome, refreshed)
      ensures outcome == if first.DeleteDone? then Deleted else if first.Preempted? && retry then DeletedOnRetry else DeleteFailed
      ensures if first.DeleteDone? && !cfg.strict then lastInstanceRefresh == old(lastInstanceRefresh) else StaleInstancesNow()
      ensures if first.DeleteBroken? || (first.Preempted? && !retry) then StaleSizeNow() else lastSizeRefresh == old(lastSizeRefresh)
      ensures if !refreshed && (if first.DeleteDone? then cfg.strict else first.DeleteBroken? || !retry) then StaleManagerNow()
              else lastRefresh == old(lastRefresh)
    {
      deletes := deletes - 1;
      st := st.(deletes := deletes);
      if first.DeleteDone? {
        if cfg.strict {
          if !refreshed {
            InvalidateCache();
          }
          InvalidateInstanceCache();
        }
        return Deleted;
      }
      if first.Preempted? && retry {
        InvalidateInstanceCache();
        return DeletedOnRetry;
      }
      InvalidateInstanceCache();
      InvalidateLastSizeRefresh();
      if !refreshed {
        InvalidateCache();
      }
      return DeleteFailed;
    }
  }
}
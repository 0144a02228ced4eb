/**
 The capacity protocol of one VM scale set, as a state machine.

 One server holds the scale set; every accepted write makes a new version, and
 the ETag of the n-th version is written `n` (a new, never reused tag per
 accepted write).  The autoscaler keeps VMSS objects (`heap`), one of which is in
 the cache (`cached`), and runs at most one capacity increase at a time
 (`phase`).  Foreign writers, background completions, list refreshes, size
 queries and deletes are steps of their own and may fall between any two steps
 of an increase.  A read may return any version issued so far: it may be late.
 */
module CapacityProtocol {
  import opened Common

  /** The contents of a VMSS object: the ETag it carries and SKU.Capacity. */
  datatype Vmss = Vmss(etag: nat, capacity: int)

  datatype Config = Config(
    etags: bool,          // EnableVMSSEtag
    strict: bool,         // StrictCacheUpdates
    spot: bool,           // the scale set is a Spot one
    maxSize: int,
    sizePeriod: nat,      // sizeRefreshPeriod
    spotPeriod: nat,      // getVmssSizeRefreshPeriod
    instancesPeriod: nat, // instancesRefreshPeriod
    cachePeriod: nat)     // azureCache.refreshInterval

  /** lastSizeRefresh, lastInstanceRefresh and AzureManager.lastRefresh. */
  datatype Timers = Timers(size: int, instances: int, manager: int)

  /** A GET or List answer: a new object holding some version the server issued. */
  datatype Fetch<O> = Fetch(obj: O, version: nat)

  /** One increase: the object it works on, the size it started from, its target,
      and the capacity `seen` in the object before the increase touched it. */
  datatype Request<O> = Request(obj: O, size: int, target: int, atomic: bool, eager: bool, seen: int)

  /** An accepted capacity PUT: the version it made and the object tracking it. */
  datatype Put<O> = Put(obj: O, version: nat)

  datatype Phase<O> =
    | Idle
    | Sized(size: int, target: int)
    | Ready(req: Request<O>)
    | Conflicted(req: Request<O>)
    | Refetched(req: Request<O>, newer: O)
    | Satisfied(req: Request<O>, newer: O)
    | InFlight(req: Request<O>, put: Put<O>)
    | Carried(req: Request<O>, put: Put<O>)
    | Rejected(req: Request<O>)
    | Published(req: Request<O>)
    | Failed(req: Request<O>)

  /** What the server answers to BeginCreateOrUpdate, and what polling ends with. */
  datatype Reply = Accepted | PreconditionFailed | Refused
  datatype Poll = Done(hasEtag: bool) | Broken

  datatype Query<O> = InMemory | FromCache | FromGet(fetch: Fetch<O>) | QueryFailed

  datatype DeleteOutcome = Deleted | DeletedOnRetry | DeleteFailed

  /** Every PUT sent.  `version` is the version it made, when accepted; `informed`
      says whether the version it replaced had been read or written before. */
  datatype PutRecord = PutRecord(size: int, target: int, retried: bool, seen: int,
                                 version: Option<nat>, informed: bool)

  datatype State<!O> = State(
    history: seq<nat>,        // capacity of each version; the last is the current one
    known: set<nat>,          // versions the autoscaler has read or written
    heap: map<O, Vmss>,
    cached: Option<O>,
    curSize: int,
    timers: Timers,
    now: int,
    phase: Phase<O>,
    pending: seq<Put<O>>,     // background completions under way
    deletes: nat,             // delete operations under way
    puts: seq<PutRecord>)

  datatype Step<O> =
    | Tick(d: nat)
    | Foreign(capacity: nat)
    | List(found: Option<Fetch<O>>, ok: bool)
    | ListInstances(at: int)
    | Ask(query: Query<O>)
    | Begin(query: Query<O>, delta: int)
    | Take(atomic: bool)
    | GiveUp
    | EagerWrite
    | SendFirst(reply: Reply)
    | Refetch(answer: Option<Fetch<O>>)
    | SendRetry(reply: Reply)
    | Carry
    | Publish
    | PollAtomic(poll: Poll)
    | RollBack
    | Complete(i: nat, poll: Poll)
    | DeleteAccepted(count: nat, unregistered: bool)
    | DeleteFinished(outcome: DeleteOutcome, refreshed: bool)

  // ---------------------------------------------------------------- helpers

  function Current<O>(st: State<O>): int {
    |st.history| - 1
  }

  function EffectivePeriod(cfg: Config): nat {
    if cfg.spot then cfg.spotPeriod else cfg.sizePeriod
  }

  predicate SizeFresh<O>(cfg: Config, st: State<O>) {
    st.timers.size + EffectivePeriod(cfg) > st.now
  }

  predicate InstancesFresh<O>(cfg: Config, st: State<O>) {
    st.timers.instances + cfg.instancesPeriod > st.now
  }

  predicate ManagerFresh<O>(cfg: Config, st: State<O>) {
    st.timers.manager + cfg.cachePeriod > st.now
  }

  function StaleSize<O>(cfg: Config, st: State<O>): State<O> {
    st.(timers := st.timers.(size := st.now - cfg.sizePeriod))
  }

  function StaleInstances<O>(cfg: Config, st: State<O>): State<O> {
    st.(timers := st.timers.(instances := st.now - cfg.instancesPeriod))
  }

  function StaleManager<O>(cfg: Config, st: State<O>): State<O> {
    st.(timers := st.timers.(manager := st.now - cfg.cachePeriod))
  }

  /** invalidateForPreconditionFailure, and the recovery of a failed operation. */
  function StaleAll<O>(cfg: Config, st: State<O>): State<O> {
    StaleManager(cfg, StaleSize(cfg, StaleInstances(cfg, st)))
  }

  /** The answer of a read lands in the cache as a new object. */
  function Store<O>(st: State<O>, f: Fetch<O>): State<O>
    requires f.version < |st.history|
  {
    st.(heap := st.heap[f.obj := Vmss(f.version, st.history[f.version])],
        known := st.known + {f.version},
        cached := Some(f.obj))
  }

  predicate CanStore<O(==)>(st: State<O>, f: Fetch<O>) {
    f.obj !in st.heap && f.version < |st.history|
  }

  function Log<O>(st: State<O>, req: Request<O>, retried: bool, version: Option<nat>): State<O> {
    st.(puts := st.puts + [PutRecord(req.size, req.target, retried, req.seen, version, Current(st) in st.known)])
  }

  /** The server accepts a PUT that `obj` will track. */
  function Accept<O>(st: State<O>, req: Request<O>, obj: O, retried: bool): State<O>
    requires req.target >= 0
  {
    var v := |st.history|;
    Log(st, req, retried, Some(v)).(
      history := st.history + [req.target],
      known := st.known + {v},
      phase := InFlight(req, Put(obj, v)))
  }

  // -------------------------------------------------------------- size query

  predicate CanAsk<O(==)>(cfg: Config, st: State<O>, q: Query<O>) {
    match q
    case InMemory => st.cached.Some? && SizeFresh(cfg, st)
    case FromCache => st.cached.Some? && st.cached.value in st.heap && !SizeFresh(cfg, st) && !cfg.spot
    case FromGet(f) => st.cached.Some? && !SizeFresh(cfg, st) && cfg.spot && CanStore(st, f)
    case QueryFailed => st.cached.None? || (!SizeFresh(cfg, st) && cfg.spot)
  }

  /** getCurSize: serve the size in memory while it is fresh, else take the capacity
      of the cached object, or of a fresh GET for Spot. */
  function AfterQuery<O>(cfg: Config, st: State<O>, q: Query<O>): State<O>
    requires q.FromCache? ==> st.cached.Some? && st.cached.value in st.heap
    requires q.FromGet? ==> q.fetch.version < |st.history|
  {
    match q
    case InMemory => st
    case QueryFailed => st
    case FromCache => Adopt(cfg, st, st.heap[st.cached.value].capacity)
    case FromGet(f) => Adopt(cfg, Store(st, f), st.history[f.version])
  }

  function Adopt<O>(cfg: Config, st: State<O>, size: int): State<O> {
    var st' := if st.curSize != size then StaleInstances(cfg, st) else st;
    st'.(curSize := size, timers := st'.timers.(size := st.now))
  }

  // -------------------------------------------------------------- the steps

  predicate Enabled<O(==)>(cfg: Config, st: State<O>, step: Step<O>) {
    match step
    case Tick(_) => true
    case Foreign(_) => true
    case List(found, _) => found.Some? ==> CanStore(st, found.value)
    case ListInstances(_) => true
    case Ask(q) => CanAsk(cfg, st, q)
    case Begin(q, delta) =>
      && (st.phase.Idle? || st.phase.Published? || st.phase.Failed?)
      && CanAsk(cfg, st, q) && !q.QueryFailed? && delta > 0
      && 0 <= AfterQuery(cfg, st, q).curSize <= cfg.maxSize - delta
    case Take(_) => st.phase.Sized? && st.cached.Some? && st.cached.value in st.heap
    case GiveUp => st.phase.Sized? && st.cached.None?
    case EagerWrite =>
      st.phase.Ready? && !st.phase.req.atomic && !st.phase.req.eager && st.phase.req.obj in st.heap
    case SendFirst(reply) =>
      && st.phase.Ready? && (st.phase.req.atomic || st.phase.req.eager) && st.phase.req.obj in st.heap
      && st.phase.req.target >= 0
      && (reply.Accepted? && cfg.etags ==> st.heap[st.phase.req.obj].etag == Current(st))
    case Refetch(answer) => st.phase.Conflicted? && (answer.Some? ==> CanStore(st, answer.value))
    case SendRetry(reply) =>
      && st.phase.Refetched? && st.phase.newer in st.heap && st.phase.req.target >= 0
      && (reply.Accepted? ==> st.heap[st.phase.newer].etag == Current(st))
    case Carry => st.phase.InFlight? && !st.phase.req.atomic && st.phase.put.obj in st.heap
    case Publish => st.phase.Carried? || (st.phase.Satisfied? && st.phase.newer in st.heap)
    case PollAtomic(_) => st.phase.InFlight? && st.phase.req.atomic && st.phase.put.obj in st.heap
    case RollBack => st.phase.Rejected? && st.phase.req.obj in st.heap
    case Complete(i, _) => i < |st.pending| && st.pending[i].obj in st.heap
    case DeleteAccepted(count, _) => count > 0
    case DeleteFinished(_, _) => st.deletes > 0
  }

  function Apply<O(==)>(cfg: Config, st: State<O>, step: Step<O>): State<O>
    requires Enabled(cfg, st, step)
  {
    match step
    case Tick(d) => st.(now := st.now + d)
    case Foreign(capacity) => st.(history := st.history + [capacity])
    case List(found, ok) =>
      var st' := if found.Some? then Store(st, found.value) else st.(cached := None);
      if ok then st'.(timers := st'.timers.(manager := st.now)) else st'
    case ListInstances(at) => st.(timers := st.timers.(instances := at))
    case Ask(q) => AfterQuery(cfg, st, q)
    case Begin(q, delta) => StartIncrease(AfterQuery(cfg, st, q), delta)
    case Take(atomic) =>
      var o := st.cached.value;
      st.(phase := Ready(Request(o, st.phase.size, st.phase.target, atomic, false, st.heap[o].capacity)))
    case GiveUp => st.(phase := Idle)
    case EagerWrite => AfterEagerWrite(st)
    case SendFirst(reply) => AfterFirst(cfg, st, reply)
    case Refetch(answer) => AfterRefetch(cfg, st, answer)
    case SendRetry(reply) => AfterRetry(cfg, st, reply)
    case Carry => AfterCarry(st)
    case Publish => AfterPublish(st)
    case PollAtomic(poll) => AfterPollAtomic(cfg, st, poll)
    case RollBack => AfterRollBack(st)
    case Complete(i, poll) => AfterComplete(cfg, st, i, poll)
    case DeleteAccepted(count, unregistered) => AfterDelete(cfg, st, count, unregistered)
    case DeleteFinished(outcome, refreshed) => AfterDeleteFinished(cfg, st, outcome, refreshed)
  }

  /** canIncreaseSize has let the increase through. */
  function StartIncrease<O>(st: State<O>, delta: int): State<O> {
    st.(phase := Sized(st.curSize, st.curSize + delta))
  }

  /** createOrUpdateInstances writes the target into the object before the request. */
  function AfterEagerWrite<O>(st: State<O>): State<O>
    requires st.phase.Ready? && st.phase.req.obj in st.heap
  {
    var req := st.phase.req;
    var vmss := st.heap[req.obj];
    st.(heap := st.heap[req.obj := vmss.(capacity := req.target)],
        phase := Ready(req.(eager := true, seen := vmss.capacity)))
  }

  /** A rejected plain increase puts back the capacity it had seen. */
  function AfterRollBack<O>(st: State<O>): State<O>
    requires st.phase.Rejected? && st.phase.req.obj in st.heap
  {
    var req := st.phase.req;
    st.(heap := if req.atomic then st.heap else st.heap[req.obj := st.heap[req.obj].(capacity := req.seen)],
        phase := Failed(req))
  }

  /** The target is carried onto the object the completion will update. */
  function AfterCarry<O>(st: State<O>): State<O>
    requires st.phase.InFlight? && st.phase.put.obj in st.heap
  {
    var put := st.phase.put;
    st.(heap := st.heap[put.obj := st.heap[put.obj].(capacity := st.phase.req.target)],
        phase := Carried(st.phase.req, put))
  }

  /** initCreateOrUpdate: the first PUT carries the object's ETag as If-Match. */
  function AfterFirst<O>(cfg: Config, st: State<O>, reply: Reply): State<O>
    requires st.phase.Ready? && st.phase.req.target >= 0
  {
    var req := st.phase.req;
    match reply
    case Accepted => Accept(st, req, req.obj, false)
    case PreconditionFailed =>
      Log(st, req, false, None).(phase := if cfg.etags then Conflicted(req) else Rejected(req))
    case Refused => Log(st, req, false, None).(phase := Rejected(req))
  }

  /** retryCreateOrUpdateWithFreshETag up to the second PUT. */
  function AfterRefetch<O>(cfg: Config, st: State<O>, answer: Option<Fetch<O>>): State<O>
    requires st.phase.Conflicted?
    requires answer.Some? ==> answer.value.version < |st.history|
  {
    var req := st.phase.req;
    match answer
    case None => StaleAll(cfg, st).(phase := Rejected(req))
    case Some(f) =>
      StaleInstances(cfg, Store(st, f)).(
        phase := if st.history[f.version] >= req.target then Satisfied(req, f.obj) else Refetched(req, f.obj))
  }

  /** The retried PUT carries the freshly read ETag. */
  function AfterRetry<O>(cfg: Config, st: State<O>, reply: Reply): State<O>
    requires st.phase.Refetched? && st.phase.req.target >= 0
  {
    var req := st.phase.req;
    if reply.Accepted? then Accept(st, req, st.phase.newer, true)
    else StaleAll(cfg, Log(st, req, true, None)).(phase := Rejected(req))
  }

  /** Publication of a plain increase, and of an increase another writer already met. */
  function AfterPublish<O>(st: State<O>): State<O>
    requires st.phase.Carried? || (st.phase.Satisfied? && st.phase.newer in st.heap)
  {
    var req := st.phase.req;
    var st' := st.(timers := st.timers.(size := st.now), phase := Published(req));
    if st.phase.Carried?
    then st'.(curSize := req.target, pending := st.pending + [st.phase.put])
    else st'.(curSize := st.heap[st.phase.newer].capacity)
  }

  /** The blocking poll of AtomicIncreaseSize and what follows it. */
  function AfterPollAtomic<O>(cfg: Config, st: State<O>, poll: Poll): State<O>
    requires st.phase.InFlight? && st.phase.put.obj in st.heap
  {
    var req, put := st.phase.req, st.phase.put;
    match poll
    case Broken => StaleAll(cfg, st).(phase := Failed(req))
    case Done(hasEtag) =>
      var vmss := Vmss(if cfg.etags && hasEtag then put.version else st.heap[put.obj].etag, req.target);
      var st' := StaleInstances(cfg, st);
      st'.(heap := st.heap[put.obj := vmss],
           curSize := req.target,
           timers := st'.timers.(size := st.now),
           phase := Published(req))
  }

  /** waitForCreateOrUpdateInstances. */
  function AfterComplete<O>(cfg: Config, st: State<O>, i: nat, poll: Poll): State<O>
    requires i < |st.pending| && st.pending[i].obj in st.heap
  {
    var put := st.pending[i];
    var st' := StaleInstances(cfg, st).(pending := st.pending[..i] + st.pending[i+1..]);
    if poll.Broken? then StaleManager(cfg, StaleSize(cfg, st'))
    else if !cfg.etags then st'
    else if poll.hasEtag then st'.(heap := st.heap[put.obj := st.heap[put.obj].(etag := put.version)])
    else StaleManager(cfg, StaleSize(cfg, st'))
  }

  /** The part of DeleteInstances that follows an accepted delete of `count` ids. */
  function AfterDelete<O>(cfg: Config, st: State<O>, count: nat, unregistered: bool): State<O> {
    var st' := st.(deletes := st.deletes + 1);
    if cfg.strict || unregistered then st'
    else if st.curSize < count then st'.(timers := st.timers.(size := ZERO_TIME))
    else st'.(curSize := st.curSize - count, timers := st.timers.(size := st.now))
  }

  /** waitForDeleteInstances; `refreshed` is whether forceRefresh worked (its list is
      a step of its own). */
  function AfterDeleteFinished<O>(cfg: Config, st: State<O>, outcome: DeleteOutcome, refreshed: bool): State<O>
    requires st.deletes > 0
  {
    var st' := st.(deletes := st.deletes - 1);
    match outcome
    case Deleted =>
      if !cfg.strict then st'
      else StaleInstances(cfg, if refreshed then st' else StaleManager(cfg, st'))
    case DeletedOnRetry => StaleInstances(cfg, st')
    case DeleteFailed =>
      var st'' := StaleSize(cfg, StaleInstances(cfg, st'));
      if refreshed then st'' else StaleManager(cfg, st'')
  }

  // ---------------------------------------------------------- kinds of steps

  /** Clocks, other writers, refreshes and deletes. */
  predicate Outside<O>(step: Step<O>) {
    step.Tick? || step.Foreign? || step.List? || step.ListInstances? || step.DeleteAccepted? || step.DeleteFinished?
  }

  /** Size queries, and the start of an increase up to its eager write. */
  predicate Starting<O>(step: Step<O>) {
    step.Ask? || step.Begin? || step.Take? || step.GiveUp? || step.EagerWrite?
  }

  /** The requests of an increase. */
  predicate Requesting<O>(step: Step<O>) {
    step.SendFirst? || step.Refetch? || step.SendRetry?
  }

  /** What follows an answer: the end of an increase, and completions. */
  predicate Settling<O>(step: Step<O>) {
    step.Carry? || step.Publish? || step.PollAtomic? || step.RollBack? || step.Complete?
  }

  /** The step publishes a size: a capacity, a target, or a decremented size. */
  predicate Publishes<O>(cfg: Config, st: State<O>, step: Step<O>) {
    || step.Publish?
    || (step.PollAtomic? && step.poll.Done?)
    || ((step.Ask? || step.Begin?) && (step.query.FromCache? || step.query.FromGet?))
    || (step.DeleteAccepted? && !cfg.strict && !step.unregistered && st.curSize >= step.count)
  }

  // ------------------------------------------------------------------- runs

  predicate CanRun<O(==)>(cfg: Config, st: State<O>, steps: seq<Step<O>>)
    decreases |steps|
  {
    steps == [] || (Enabled(cfg, st, steps[0]) && CanRun(cfg, Apply(cfg, st, steps[0]), steps[1..]))
  }

  function Run<O(==)>(cfg: Config, st: State<O>, steps: seq<Step<O>>): State<O>
    requires CanRun(cfg, st, steps)
    decreases |steps|
  {
    if steps == [] then st else Run(cfg, Apply(cfg, st, steps[0]), steps[1..])
  }

  lemma {:induction false} Extend<O>(cfg: Config, st: State<O>, steps: seq<Step<O>>, step: Step<O>)
    requires CanRun(cfg, st, steps) && Enabled(cfg, Run(cfg, st, steps), step)
    ensures CanRun(cfg, st, steps + [step])
    ensures Run(cfg, st, steps + [step]) == Apply(cfg, Run(cfg, st, steps), step)
    decreases |steps|
  {
    if steps == [] {
      assert (steps + [step])[1..] == [];
    } else {
      Extend(cfg, Apply(cfg, st, steps[0]), steps[1..], step);
      assert (steps + [step])[1..] == steps[1..] + [step];
    }
  }

  lemma {:induction false} Join<O>(cfg: Config, st: State<O>, a: seq<Step<O>>, b: seq<Step<O>>)
    requires CanRun(cfg, st, a) && CanRun(cfg, Run(cfg, st, a), b)
    ensures CanRun(cfg, st, a + b) && Run(cfg, st, a + b) == Run(cfg, Run(cfg, st, a), b)
    decreases |a|
  {
    if a == [] {
      assert a + b == b;
    } else {
      Join(cfg, Apply(cfg, st, a[0]), a[1..], b);
      assert (a + b)[1..] == a[1..] + b;
    }
  }
}

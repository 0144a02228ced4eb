/**
 What every run of the capacity protocol keeps: coherence of the cached object,
 no lost update, growth of retried PUTs, and size bounds.
 */
module CapacityRuns {
  import opened Common
  import opened CapacityProtocol

  // -------------------------------------------------------------- the invariant

  /** The increase has written its target into `o` and is not yet accepted or rolled back. */
  ghost predicate EagerOn<O>(st: State<O>, o: O) {
    (st.phase.Ready? || st.phase.Conflicted? || st.phase.Rejected?) && st.phase.req.eager && st.phase.req.obj == o
  }

  /** The capacity of `o`, looking through an open eager write. */
  ghost function Settled<O>(st: State<O>, o: O): int
    requires o in st.heap
  {
    if EagerOn(st, o) then st.phase.req.seen else st.heap[o].capacity
  }

  ghost predicate Relevant<O>(st: State<O>, o: O) {
    st.cached == Some(o) || (st.phase.Ready? && st.phase.req.obj == o)
  }

  ghost predicate Agrees<O>(st: State<O>, o: O) {
    o in st.heap && (st.heap[o].etag == Current(st) ==> Settled(st, o) == st.history[Current(st)])
  }

  /** `c` is the capacity of a version the autoscaler has read or written. */
  ghost predicate Reported(history: seq<nat>, known: set<nat>, c: int) {
    exists v :: v in known && 0 <= v < |history| && history[v] == c
  }

  ghost predicate HeapOk<O>(st: State<O>) {
    && |st.history| > 0
    && (forall v <- st.known :: v < |st.history|)
    && (forall o <- st.heap :: st.heap[o].etag in st.known && st.heap[o].capacity >= 0)
    && (st.cached.Some? ==> st.cached.value in st.heap)
  }

  /** An accepted PUT whose completion has not been seen: its object still carries
      the ETag of a replaced version. */
  ghost predicate Outstanding<O>(st: State<O>, p: Put<O>) {
    && p.obj in st.heap && p.version < |st.history| && p.version in st.known
    && st.heap[p.obj].etag < p.version
  }

  ghost predicate PendingOk<O>(st: State<O>) {
    && (forall i :: 0 <= i < |st.pending| ==> Outstanding(st, st.pending[i]))
    && (forall i, j :: 0 <= i < j < |st.pending| ==> st.pending[i].obj != st.pending[j].obj)
    && (forall i :: 0 <= i < |st.pending| && Relevant(st, st.pending[i].obj) ==>
          Settled(st, st.pending[i].obj) == st.history[st.pending[i].version])
  }

  ghost predicate RequestOk<O>(cfg: Config, st: State<O>, req: Request<O>) {
    && req.obj in st.heap && 0 <= req.size < req.target <= cfg.maxSize && req.seen >= 0
    && (req.eager ==> !req.atomic)
  }

  ghost predicate InFlightOk<O>(st: State<O>, req: Request<O>, put: Put<O>) {
    && Outstanding(st, put)
    && st.history[put.version] == req.target
    && (forall i :: 0 <= i < |st.pending| ==> st.pending[i].obj != put.obj)
    && (put.obj != req.obj ==> st.cached != Some(req.obj))
  }

  ghost predicate PhaseOk<O>(cfg: Config, st: State<O>) {
    match st.phase
    case Idle => true
    case Sized(size, target) => 0 <= size < target <= cfg.maxSize
    case Ready(req) =>
      && RequestOk(cfg, st, req)
      && Settled(st, req.obj) == req.seen
      && (req.eager ==> st.heap[req.obj].capacity == req.target)
    case Conflicted(req) => RequestOk(cfg, st, req) && (!req.atomic ==> req.eager)
    case Refetched(req, f) =>
      && RequestOk(cfg, st, req) && (!req.atomic ==> req.eager) && f in st.heap && f != req.obj && st.cached != Some(req.obj)
      && (forall i :: 0 <= i < |st.pending| ==> st.pending[i].obj != f)
      && st.heap[f].etag < |st.history| && st.heap[f].capacity == st.history[st.heap[f].etag] < req.target
    case Satisfied(req, f) =>
      && RequestOk(cfg, st, req) && f in st.heap && f != req.obj && st.cached != Some(req.obj)
      && st.heap[f].capacity >= req.target
    case InFlight(req, put) =>
      && RequestOk(cfg, st, req) && InFlightOk(st, req, put)
      && (put.obj == req.obj && req.eager ==> st.heap[req.obj].capacity == req.target)
    case Carried(req, put) =>
      RequestOk(cfg, st, req) && InFlightOk(st, req, put) && st.heap[put.obj].capacity == req.target
    case Rejected(req) => RequestOk(cfg, st, req) && (!req.atomic ==> req.eager)
    case Published(req) => true
    case Failed(req) => true
  }

  /** What is true of every PUT ever sent. */
  ghost predicate RecordOk(cfg: Config, history: seq<nat>, r: PutRecord) {
    && 0 <= r.size < r.target <= cfg.maxSize
    && (r.version.Some? ==>
          && 0 < r.version.value < |history|
          && r.informed
          && history[r.version.value] == r.target
          && (r.retried ==> history[r.version.value - 1] < r.target)
          && (!r.retried ==> history[r.version.value - 1] == r.seen))
  }

  ghost predicate PutsOk(cfg: Config, history: seq<nat>, puts: seq<PutRecord>) {
    forall r <- puts :: RecordOk(cfg, history, r)
  }

  ghost predicate Inv<O>(cfg: Config, st: State<O>) {
    && HeapOk(st)
    && PendingOk(st)
    && PhaseOk(cfg, st)
    && (forall o :: o in st.heap && Relevant(st, o) ==> Agrees(st, o))
    && (st.cached.Some? ==> Reported(st.history, st.known, Settled(st, st.cached.value)))
    && PutsOk(cfg, st.history, st.puts)
    && st.curSize >= -1
  }

  /** A scale set just built: the size is unknown, or a capacity the server reported. */
  ghost predicate Init<O>(st: State<O>) {
    && HeapOk(st)
    && (forall o <- st.heap :: st.heap[o].capacity == st.history[st.heap[o].etag])
    && st.phase.Idle? && st.pending == [] && st.deletes == 0 && st.puts == []
    && st.curSize >= -1
  }

  lemma InitKeepsInv<O>(cfg: Config, st: State<O>)
    requires Init(st)
    ensures Inv(cfg, st)
  {
  }

  /** Clocks, the size in memory and the delete count do not matter to the rest. */
  ghost predicate SameCore<O>(a: State<O>, b: State<O>) {
    && a.history == b.history && a.known == b.known && a.heap == b.heap && a.cached == b.cached
    && a.phase == b.phase && a.pending == b.pending && a.puts == b.puts
  }

  lemma SameCoreKeepsInv<O>(cfg: Config, a: State<O>, b: State<O>)
    requires Inv(cfg, a) && SameCore(a, b) && b.curSize >= -1
    ensures Inv(cfg, b)
  {
  }

  lemma ForeignKeepsInv<O>(cfg: Config, st: State<O>, capacity: nat)
    requires Inv(cfg, st)
    ensures Inv(cfg, st.(history := st.history + [capacity]))
  {
    var st' := st.(history := st.history + [capacity]);
    if st.cached.Some? {
      var v :| v in st.known && 0 <= v < |st.history| && st.history[v] == Settled(st, st.cached.value);
      assert st'.history[v] == Settled(st', st.cached.value);
    }
  }

  lemma StoreKeepsInv<O>(cfg: Config, st: State<O>, f: Fetch<O>)
    requires Inv(cfg, st) && CanStore(st, f)
    ensures Inv(cfg, Store(st, f))
  {
  }

  lemma QueryKeepsInv<O>(cfg: Config, st: State<O>, q: Query<O>)
    requires Inv(cfg, st) && CanAsk(cfg, st, q)
    ensures Inv(cfg, AfterQuery(cfg, st, q))
  {
    match q
    case InMemory =>
    case QueryFailed =>
    case FromCache => SameCoreKeepsInv(cfg, st, AfterQuery(cfg, st, q));
    case FromGet(f) =>
      StoreKeepsInv(cfg, st, f);
      SameCoreKeepsInv(cfg, Store(st, f), AfterQuery(cfg, st, q));
  }

  /** An accepted PUT replaces the version its object names, which is the current one. */
  lemma AcceptKeepsInv<O>(cfg: Config, st: State<O>, req: Request<O>, obj: O, retried: bool)
    requires Inv(cfg, st) && RequestOk(cfg, st, req)
    requires obj in st.heap && st.heap[obj].etag == Current(st)
    requires retried ==> st.phase == Refetched(req, obj)
    requires !retried ==> st.phase == Ready(req) && obj == req.obj
    ensures Inv(cfg, Accept(st, req, obj, retried))
  {
  }

  /** A PUT that is not accepted only leaves a record. */
  lemma RefusalKeepsInv<O>(cfg: Config, st: State<O>, req: Request<O>, retried: bool, phase: Phase<O>)
    requires Inv(cfg, st) && RequestOk(cfg, st, req)
    requires (!retried && st.phase == Ready(req)) || (retried && st.phase.Refetched? && st.phase.req == req)
    requires phase == Rejected(req) || (phase == Conflicted(req) && !retried)
    requires req.atomic || req.eager
    ensures Inv(cfg, Log(st, req, retried, None).(phase := phase))
  {
  }

  lemma TakeKeepsInv<O>(cfg: Config, st: State<O>, step: Step<O>)
    requires Inv(cfg, st) && Enabled(cfg, st, step) && (step.Take? || step.GiveUp? || step.EagerWrite?)
    ensures Inv(cfg, Apply(cfg, st, step))
  {
  }

  lemma RefetchKeepsInv<O>(cfg: Config, st: State<O>, answer: Option<Fetch<O>>)
    requires Inv(cfg, st) && Enabled(cfg, st, Refetch(answer))
    ensures Inv(cfg, AfterRefetch(cfg, st, answer))
  {
  }

  lemma CarryKeepsInv<O>(cfg: Config, st: State<O>)
    requires Inv(cfg, st) && Enabled(cfg, st, Carry)
    ensures Inv(cfg, Apply(cfg, st, Carry))
  {
  }

  lemma PublishKeepsInv<O>(cfg: Config, st: State<O>)
    requires Inv(cfg, st) && Enabled(cfg, st, Publish)
    ensures Inv(cfg, AfterPublish(st))
  {
  }

  lemma PollAtomicKeepsInv<O>(cfg: Config, st: State<O>, poll: Poll)
    requires Inv(cfg, st) && Enabled(cfg, st, PollAtomic(poll))
    ensures Inv(cfg, AfterPollAtomic(cfg, st, poll))
  {
  }

  lemma RollBackKeepsInv<O>(cfg: Config, st: State<O>)
    requires Inv(cfg, st) && Enabled(cfg, st, RollBack)
    ensures Inv(cfg, Apply(cfg, st, RollBack))
  {
  }

  /** Adopting the ETag of an object's own PUT keeps it in agreement: while the PUT was
      outstanding, the capacity seen in the object was the one the PUT asked for. */
  lemma AdoptKeepsInv<O>(cfg: Config, st: State<O>, i: nat)
    requires Inv(cfg, st) && i < |st.pending|
    ensures
      var put := st.pending[i];
      Inv(cfg, st.(heap := st.heap[put.obj := st.heap[put.obj].(etag := put.version)],
                   pending := st.pending[..i] + st.pending[i+1..]))
  {
    var put := st.pending[i];
    var st' := st.(heap := st.heap[put.obj := st.heap[put.obj].(etag := put.version)],
                   pending := st.pending[..i] + st.pending[i+1..]);
    PendingAfterRemoval(st, st', i);
  }

  lemma PendingAfterRemoval<O>(st: State<O>, st': State<O>, i: nat)
    requires HeapOk(st) && PendingOk(st) && i < |st.pending|
    requires st'.history == st.history && st'.known == st.known && st'.phase == st.phase && st'.cached == st.cached
    requires st'.pending == st.pending[..i] + st.pending[i+1..]
    requires st.heap.Keys == st'.heap.Keys
    requires forall o :: o in st.heap ==> st'.heap[o].capacity == st.heap[o].capacity
    requires forall o :: o in st.heap && o != st.pending[i].obj ==> st'.heap[o] == st.heap[o]
    ensures PendingOk(st')
    ensures forall k :: 0 <= k < |st'.pending| ==> st'.pending[k] == st.pending[if k < i then k else k + 1]
  {
  }

  lemma ForgetKeepsInv<O>(cfg: Config, st: State<O>, i: nat)
    requires Inv(cfg, st) && i < |st.pending|
    ensures Inv(cfg, st.(pending := st.pending[..i] + st.pending[i+1..]))
  {
  }

  lemma CompleteKeepsInv<O>(cfg: Config, st: State<O>, i: nat, poll: Poll)
    requires Inv(cfg, st) && Enabled(cfg, st, Complete(i, poll))
    ensures Inv(cfg, AfterComplete(cfg, st, i, poll))
  {
    var put := st.pending[i];
    var rest := st.pending[..i] + st.pending[i+1..];
    if poll.Done? && cfg.etags && poll.hasEtag {
      AdoptKeepsInv(cfg, st, i);
      SameCoreKeepsInv(cfg, st.(heap := st.heap[put.obj := st.heap[put.obj].(etag := put.version)], pending := rest),
                       AfterComplete(cfg, st, i, poll));
    } else {
      ForgetKeepsInv(cfg, st, i);
      SameCoreKeepsInv(cfg, st.(pending := rest), AfterComplete(cfg, st, i, poll));
    }
  }

  lemma DropKeepsInv<O>(cfg: Config, st: State<O>)
    requires Inv(cfg, st)
    ensures Inv(cfg, st.(cached := None))
  {
  }

  /** A capacity PUT, first or retried, answered by the server. */
  lemma SendKeepsInv<O>(cfg: Config, st: State<O>, step: Step<O>)
    requires cfg.etags && Inv(cfg, st) && Enabled(cfg, st, step) && (step.SendFirst? || step.SendRetry?)
    ensures Inv(cfg, Apply(cfg, st, step))
  {
    var req := st.phase.req;
    match step
    case SendFirst(reply) =>
      if reply.Accepted? {
        AcceptKeepsInv(cfg, st, req, req.obj, false);
      } else {
        RefusalKeepsInv(cfg, st, req, false, Apply(cfg, st, step).phase);
      }
    case SendRetry(reply) =>
      if reply.Accepted? {
        AcceptKeepsInv(cfg, st, req, st.phase.newer, true);
      } else {
        RefusalKeepsInv(cfg, st, req, true, Rejected(req));
        SameCoreKeepsInv(cfg, Log(st, req, true, None).(phase := Rejected(req)), Apply(cfg, st, step));
      }
  }

  lemma ListKeepsInv<O>(cfg: Config, st: State<O>, step: Step<O>)
    requires Inv(cfg, st) && Enabled(cfg, st, step) && step.List?
    ensures Inv(cfg, Apply(cfg, st, step))
  {
    if step.found.Some? {
      StoreKeepsInv(cfg, st, step.found.value);
      SameCoreKeepsInv(cfg, Store(st, step.found.value), Apply(cfg, st, step));
    } else {
      DropKeepsInv(cfg, st);
      SameCoreKeepsInv(cfg, st.(cached := None), Apply(cfg, st, step));
    }
  }

  ghost predicate OwnStep<O>(step: Step<O>) {
    || step.Refetch? || step.Carry? || step.Publish? || step.PollAtomic? || step.RollBack?
  }

  lemma OwnStepKeepsInv<O>(cfg: Config, st: State<O>, step: Step<O>)
    requires Inv(cfg, st) && Enabled(cfg, st, step) && OwnStep(step)
    ensures Inv(cfg, Apply(cfg, st, step))
  {
    match step
    case Refetch(answer) => RefetchKeepsInv(cfg, st, answer);
    case Carry => CarryKeepsInv(cfg, st);
    case Publish => PublishKeepsInv(cfg, st);
    case PollAtomic(poll) => PollAtomicKeepsInv(cfg, st, poll);
    case RollBack => RollBackKeepsInv(cfg, st);
  }

  lemma BeginStepKeepsInv<O>(cfg: Config, st: State<O>, step: Step<O>)
    requires Inv(cfg, st) && Enabled(cfg, st, step) && step.Begin?
    ensures Inv(cfg, Apply(cfg, st, step))
  {
  }

  lemma ClockStepKeepsInv<O>(cfg: Config, st: State<O>, step: Step<O>)
    requires Inv(cfg, st) && Enabled(cfg, st, step)
    requires step.Tick? || step.ListInstances? || step.DeleteAccepted? || step.DeleteFinished?
    ensures Inv(cfg, Apply(cfg, st, step))
  {
    SameCoreKeepsInv(cfg, st, Apply(cfg, st, step));
  }

  lemma StepKeepsInv<O>(cfg: Config, st: State<O>, step: Step<O>)
    requires cfg.etags && Inv(cfg, st) && Enabled(cfg, st, step)
    ensures Inv(cfg, Apply(cfg, st, step))
  {
    if step.Foreign? {
      ForeignKeepsInv(cfg, st, step.capacity);
    } else if step.List? {
      ListKeepsInv(cfg, st, step);
    } else if step.Ask? {
      QueryKeepsInv(cfg, st, step.query);
    } else if step.Begin? {
      BeginStepKeepsInv(cfg, st, step);
    } else if step.Take? || step.GiveUp? || step.EagerWrite? {
      TakeKeepsInv(cfg, st, step);
    } else if step.SendFirst? || step.SendRetry? {
      SendKeepsInv(cfg, st, step);
    } else if step.Complete? {
      CompleteKeepsInv(cfg, st, step.i, step.poll);
    } else if OwnStep(step) {
      OwnStepKeepsInv(cfg, st, step);
    } else {
      ClockStepKeepsInv(cfg, st, step);
    }
  }
}

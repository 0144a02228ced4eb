/**
 What every run of the capacity protocol keeps whether or not ETags are on: bounds on
 sizes and targets, and a cached capacity that the server reported.
 */
module CapacityBounds {
  import opened Common
  import opened CapacityProtocol
  import opened CapacityRuns
  import opened IncreaseOutcome

  // ------------------------------------------------------------------ sizes

  ghost predicate Bounded<O>(cfg: Config, req: Request<O>) {
    0 <= req.size < req.target <= cfg.maxSize && req.seen >= 0
  }

  ghost predicate PhaseBounded<O>(cfg: Config, phase: Phase<O>) {
    match phase
    case Idle => true
    case Sized(size, target) => 0 <= size < target <= cfg.maxSize
    case _ => Bounded(cfg, phase.req)
  }

  ghost predicate SizeInv<O>(cfg: Config, st: State<O>) {
    && PhaseBounded(cfg, st.phase)
    && (forall o <- st.heap :: st.heap[o].capacity >= 0)
    && (forall r <- st.puts :: 0 <= r.size < r.target <= cfg.maxSize)
    && st.curSize >= -1
  }

  lemma OutsideKeepsSizes<O>(cfg: Config, st: State<O>, step: Step<O>)
    requires SizeInv(cfg, st) && Enabled(cfg, st, step) && Outside(step)
    ensures SizeInv(cfg, Apply(cfg, st, step))
    ensures st.curSize >= 0 ==> Apply(cfg, st, step).curSize >= 0
  {
  }

  lemma StartingKeepsSizes<O>(cfg: Config, st: State<O>, step: Step<O>)
    requires SizeInv(cfg, st) && Enabled(cfg, st, step) && Starting(step)
    ensures SizeInv(cfg, Apply(cfg, st, step))
    ensures st.curSize >= 0 ==> Apply(cfg, st, step).curSize >= 0
  {
  }

  lemma RequestingKeepsSizes<O>(cfg: Config, st: State<O>, step: Step<O>)
    requires SizeInv(cfg, st) && Enabled(cfg, st, step) && Requesting(step)
    ensures SizeInv(cfg, Apply(cfg, st, step))
    ensures st.curSize >= 0 ==> Apply(cfg, st, step).curSize >= 0
  {
  }

  lemma SettlingKeepsSizes<O>(cfg: Config, st: State<O>, step: Step<O>)
    requires SizeInv(cfg, st) && Enabled(cfg, st, step) && Settling(step)
    ensures SizeInv(cfg, Apply(cfg, st, step))
    ensures st.curSize >= 0 ==> Apply(cfg, st, step).curSize >= 0
  {
  }

  lemma StepKeepsSizes<O>(cfg: Config, st: State<O>, step: Step<O>)
    requires SizeInv(cfg, st) && Enabled(cfg, st, step)
    ensures SizeInv(cfg, Apply(cfg, st, step))
    ensures st.curSize >= 0 ==> Apply(cfg, st, step).curSize >= 0
  {
    if Outside(step) {
      OutsideKeepsSizes(cfg, st, step);
    } else if Starting(step) {
      StartingKeepsSizes(cfg, st, step);
    } else if Requesting(step) {
      RequestingKeepsSizes(cfg, st, step);
    } else {
      SettlingKeepsSizes(cfg, st, step);
    }
  }

  lemma {:induction false} RunKeepsSizes<O>(cfg: Config, st: State<O>, steps: seq<Step<O>>)
    requires SizeInv(cfg, st) && CanRun(cfg, st, steps)
    ensures SizeInv(cfg, Run(cfg, st, steps))
    ensures st.curSize >= 0 ==> Run(cfg, st, steps).curSize >= 0
    decreases |steps|
  {
    if steps != [] {
      StepKeepsSizes(cfg, st, steps[0]);
      RunKeepsSizes(cfg, Apply(cfg, st, steps[0]), steps[1..]);
    }
  }

  /** With ETags on or off, every PUT ever sent, first or retried, asks for at most maxSize
      and for more than the size the increase started from; the size in memory is never
      below -1. */
  lemma SizeBounds<O>(cfg: Config, st: State<O>, steps: seq<Step<O>>)
    requires Init(st) && CanRun(cfg, st, steps)
    ensures
      var end := Run(cfg, st, steps);
      && end.curSize >= -1
      && (forall r <- end.puts :: 0 <= r.size < r.target <= cfg.maxSize)
  {
    RunKeepsSizes(cfg, st, steps);
  }

  /** Once the size is known it never becomes negative again. */
  lemma KnownSizeStaysKnown<O>(cfg: Config, st: State<O>, before: seq<Step<O>>, after: seq<Step<O>>)
    requires Init(st) && CanRun(cfg, st, before) && CanRun(cfg, Run(cfg, st, before), after)
    requires Run(cfg, st, before).curSize >= 0
    ensures Run(cfg, Run(cfg, st, before), after).curSize >= 0
  {
    RunKeepsSizes(cfg, st, before);
    RunKeepsSizes(cfg, Run(cfg, st, before), after);
  }

  // ------------------------------------------------------- reported capacities

  /** An increase is under way on an object. */
  ghost predicate Working<O>(phase: Phase<O>) {
    !phase.Idle? && !phase.Sized? && !phase.Published? && !phase.Failed?
  }

  ghost predicate Shows<O>(st: State<O>, o: O, capacity: int) {
    o in st.heap && st.heap[o].capacity == capacity
  }

  ghost predicate PutReported<O>(st: State<O>, req: Request<O>, put: Put<O>) {
    && put.obj in st.heap
    && put.version in st.known && put.version < |st.history| && st.history[put.version] == req.target
    && (put.obj == req.obj && req.eager ==> Shows(st, req.obj, req.target))
    && (put.obj != req.obj ==> st.cached != Some(req.obj))
  }

  ghost predicate RequestReported<O>(st: State<O>, req: Request<O>) {
    && req.obj in st.heap
    && (if st.phase.Ready? then req.eager ==> !req.atomic else req.eager <==> !req.atomic)
    && ((st.phase.Ready? || st.phase.Conflicted?) && req.eager ==> Shows(st, req.obj, req.target))
    && (st.phase.Refetched? || st.phase.Satisfied? ==>
          st.cached != Some(req.obj) && st.phase.newer in st.heap && st.phase.newer != req.obj)
    && (st.phase.InFlight? || st.phase.Carried? ==> PutReported(st, req, st.phase.put))
  }

  /** The capacity of the cached object, looking through an open eager write, is one that a
      version read or written by the autoscaler has. */
  ghost predicate ReportedInv<O>(st: State<O>) {
    && (forall v <- st.known :: v < |st.history|)
    && (forall i :: 0 <= i < |st.pending| ==> st.pending[i].obj in st.heap)
    && (Working(st.phase) ==> RequestReported(st, st.phase.req))
    && (st.cached.Some? ==>
          st.cached.value in st.heap && Reported(st.history, st.known, Settled(st, st.cached.value)))
  }

  lemma InitReported<O>(st: State<O>)
    requires Init(st)
    ensures ReportedInv(st)
  {
    if st.cached.Some? {
      var v := st.heap[st.cached.value].etag;
      assert v in st.known && st.history[v] == st.heap[st.cached.value].capacity;
    }
  }

  lemma StoreKeepsReported<O>(st: State<O>, f: Fetch<O>)
    requires ReportedInv(st) && CanStore(st, f)
    ensures ReportedInv(Store(st, f))
  {
    var next := Store(st, f);
    assert f.version in next.known && next.history[f.version] == next.heap[f.obj].capacity;
  }

  ghost predicate SameReported<O>(a: State<O>, b: State<O>) {
    a.history <= b.history && a.known == b.known && a.heap == b.heap && a.phase == b.phase && a.pending == b.pending
    && (b.cached == a.cached || b.cached.None?)
  }

  lemma SameKeepsReported<O>(a: State<O>, b: State<O>)
    requires ReportedInv(a) && SameReported(a, b)
    ensures ReportedInv(b)
  {
  }

  lemma OutsideKeepsReported<O>(cfg: Config, st: State<O>, step: Step<O>)
    requires ReportedInv(st) && Enabled(cfg, st, step) && Outside(step)
    ensures ReportedInv(Apply(cfg, st, step))
  {
    if step.List? && step.found.Some? {
      StoreKeepsReported(st, step.found.value);
      SameKeepsReported(Store(st, step.found.value), Apply(cfg, st, step));
    } else {
      SameKeepsReported(st, Apply(cfg, st, step));
    }
  }

  lemma QueryKeepsReported<O>(cfg: Config, st: State<O>, q: Query<O>)
    requires ReportedInv(st) && CanAsk(cfg, st, q)
    ensures ReportedInv(AfterQuery(cfg, st, q))
  {
    if q.FromGet? {
      StoreKeepsReported(st, q.fetch);
      SameKeepsReported(Store(st, q.fetch), AfterQuery(cfg, st, q));
    } else {
      SameKeepsReported(st, AfterQuery(cfg, st, q));
    }
  }

  lemma StartingKeepsReported<O>(cfg: Config, st: State<O>, step: Step<O>)
    requires ReportedInv(st) && Enabled(cfg, st, step) && Starting(step)
    ensures ReportedInv(Apply(cfg, st, step))
  {
    if step.Ask? || step.Begin? {
      QueryKeepsReported(cfg, st, step.query);
    }
  }

  lemma RefetchKeepsReported<O>(cfg: Config, st: State<O>, answer: Option<Fetch<O>>)
    requires ReportedInv(st) && Enabled(cfg, st, Refetch(answer))
    ensures ReportedInv(AfterRefetch(cfg, st, answer))
  {
    if answer.Some? {
      StoreKeepsReported(st, answer.value);
    }
  }

  lemma RequestingKeepsReported<O>(cfg: Config, st: State<O>, step: Step<O>)
    requires ReportedInv(st) && Enabled(cfg, st, step) && Requesting(step)
    ensures ReportedInv(Apply(cfg, st, step))
  {
    if step.Refetch? {
      RefetchKeepsReported(cfg, st, step.answer);
    }
  }

  lemma EndKeepsReported<O>(cfg: Config, st: State<O>, step: Step<O>)
    requires ReportedInv(st) && Enabled(cfg, st, step) && (step.Carry? || step.Publish? || step.RollBack?)
    ensures ReportedInv(Apply(cfg, st, step))
  {
  }

  lemma PollKeepsReported<O>(cfg: Config, st: State<O>, poll: Poll)
    requires ReportedInv(st) && Enabled(cfg, st, PollAtomic(poll))
    ensures ReportedInv(AfterPollAtomic(cfg, st, poll))
  {
  }

  lemma CompleteKeepsReported<O>(cfg: Config, st: State<O>, i: nat, poll: Poll)
    requires ReportedInv(st) && Enabled(cfg, st, Complete(i, poll))
    ensures ReportedInv(AfterComplete(cfg, st, i, poll))
  {
  }

  lemma SettlingKeepsReported<O>(cfg: Config, st: State<O>, step: Step<O>)
    requires ReportedInv(st) && Enabled(cfg, st, step) && Settling(step)
    ensures ReportedInv(Apply(cfg, st, step))
  {
    if step.PollAtomic? {
      PollKeepsReported(cfg, st, step.poll);
    } else if step.Complete? {
      CompleteKeepsReported(cfg, st, step.i, step.poll);
    } else {
      EndKeepsReported(cfg, st, step);
    }
  }

  lemma StepKeepsReported<O>(cfg: Config, st: State<O>, step: Step<O>)
    requires ReportedInv(st) && Enabled(cfg, st, step)
    ensures ReportedInv(Apply(cfg, st, step))
  {
    if Outside(step) {
      OutsideKeepsReported(cfg, st, step);
    } else if Starting(step) {
      StartingKeepsReported(cfg, st, step);
    } else if Requesting(step) {
      RequestingKeepsReported(cfg, st, step);
    } else {
      SettlingKeepsReported(cfg, st, step);
    }
  }

  lemma {:induction false} RunKeepsReported<O>(cfg: Config, st: State<O>, steps: seq<Step<O>>)
    requires ReportedInv(st) && CanRun(cfg, st, steps)
    ensures ReportedInv(Run(cfg, st, steps))
    decreases |steps|
  {
    if steps != [] {
      StepKeepsReported(cfg, st, steps[0]);
      RunKeepsReported(cfg, Apply(cfg, st, steps[0]), steps[1..]);
    }
  }

  /** With ETags on or off, unless an increase is writing to it, the cached object shows a
      capacity that the autoscaler read from the server or wrote to it, never a rejected
      target. */
  lemma CachedIsReported<O>(cfg: Config, st: State<O>, steps: seq<Step<O>>)
    requires Init(st) && CanRun(cfg, st, steps)
    ensures
      var end := Run(cfg, st, steps);
      end.cached.Some? && !EagerOn(end, end.cached.value) ==>
        end.cached.value in end.heap && Reported(end.history, end.known, end.heap[end.cached.value].capacity)
  {
    InitReported(st);
    RunKeepsReported(cfg, st, steps);
  }

  /** Every increase of a reachable state starts from where the outcome lemmas start. */
  lemma TakeStarts<O>(cfg: Config, st: State<O>, steps: seq<Step<O>>, atomic: bool)
    requires Init(st) && CanRun(cfg, st, steps) && Enabled(cfg, Run(cfg, st, steps), Take(atomic))
    ensures Started(Apply(cfg, Run(cfg, st, steps), Take(atomic)))
  {
    InitReported(st);
    RunKeepsReported(cfg, st, steps);
  }
}

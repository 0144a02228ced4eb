/**
 Where the capacity protocol stops short, each shown by a run.  The exact conditions
 are in CapacityTheorems, IncreaseOutcome and DeleteSizes.
 */
module CapacityLimits {
  import opened Common
  import opened CapacityProtocol
  import opened CapacityRuns

  function Fixture(etags: bool): Config {
    Config(etags, false, false, 20, 60, 60, 300, 60)
  }

  /** One version of capacity 3, read into object 0, and a size of 3 read just now. */
  function Fresh3(): State<nat> {
    State([3], {0}, map[0 := Vmss(0, 3)], Some(0), 3, Timers(1000, 1000, 1000), 1000, Idle, [], 0, [])
  }

  /** With ETags on, a plain increase by one of a scale set the autoscaler believes to
      have 3 VMs can shrink it from 10 to 4: the list refreshed the cached object, the
      size in memory was still fresh. */
  lemma FirstPutCanShrink() returns (steps: seq<Step<nat>>)
    ensures Init(Fresh3()) && Fixture(true).etags && CanRun(Fixture(true), Fresh3(), steps)
    ensures Run(Fixture(true), Fresh3(), steps).history == [3, 10, 4]
    ensures Run(Fixture(true), Fresh3(), steps).puts == [PutRecord(3, 4, false, 10, Some(2), true)]
  {
    var cfg, s0 := Fixture(true), Fresh3();
    steps := [];
    Extend(cfg, s0, steps, Foreign(10));
    steps := steps + [Foreign(10)];
    Extend(cfg, s0, steps, List(Some(Fetch(1, 1)), true));
    steps := steps + [List(Some(Fetch(1, 1)), true)];
    steps := EagerRun(cfg, s0, steps);
    Extend(cfg, s0, steps, SendFirst(Accepted));
    steps := steps + [SendFirst(Accepted)];
  }

  /** The state a plain increase by one reaches by writing its target into the cached object. */
  function Eager(st: State<nat>): State<nat>
    requires st.cached.Some? && st.cached.value in st.heap
  {
    var o := st.cached.value;
    var req := Request(o, st.curSize, st.curSize + 1, false, true, st.heap[o].capacity);
    st.(heap := st.heap[o := st.heap[o].(capacity := req.target)], phase := Ready(req))
  }

  lemma EagerRun(cfg: Config, s0: State<nat>, before: seq<Step<nat>>) returns (steps: seq<Step<nat>>)
    requires CanRun(cfg, s0, before)
    requires
      var st := Run(cfg, s0, before);
      Enabled(cfg, st, Begin(InMemory, 1)) && st.cached.Some? && st.cached.value in st.heap
    ensures CanRun(cfg, s0, steps) && Run(cfg, s0, steps) == Eager(Run(cfg, s0, before))
  {
    steps := before + [Begin(InMemory, 1)];
    Extend(cfg, s0, before, Begin(InMemory, 1));
    Extend(cfg, s0, steps, Take(false));
    steps := steps + [Take(false)];
    Extend(cfg, s0, steps, EagerWrite);
    steps := steps + [EagerWrite];
  }

  /** With ETags off the same increase overwrites a version the autoscaler never saw. */
  lemma EtagsOffLoseUpdates() returns (steps: seq<Step<nat>>)
    ensures Init(Fresh3()) && CanRun(Fixture(false), Fresh3(), steps)
    ensures Run(Fixture(false), Fresh3(), steps).history == [3, 10, 4]
    ensures Run(Fixture(false), Fresh3(), steps).puts == [PutRecord(3, 4, false, 3, Some(2), false)]
  {
    var cfg, s0 := Fixture(false), Fresh3();
    Extend(cfg, s0, [], Foreign(10));
    steps := EagerRun(cfg, s0, [] + [Foreign(10)]);
    Extend(cfg, s0, steps, SendFirst(Accepted));
    steps := steps + [SendFirst(Accepted)];
  }

  /** The plain increase has written its target, and a size query has just read it. */
  function QueriedInWindow(): State<nat> {
    State([3], {0}, map[0 := Vmss(0, 4)], Some(0), 4, Timers(1060, 760, 1000), 1060,
          Ready(Request(0, 3, 4, false, true, 3)), [], 0, [])
  }

  lemma QueryInWindow() returns (steps: seq<Step<nat>>)
    ensures CanRun(Fixture(true), Fresh3(), steps)
    ensures Run(Fixture(true), Fresh3(), steps) == QueriedInWindow()
  {
    var cfg, s0 := Fixture(true), Fresh3();
    steps := EagerRun(cfg, s0, []);
    Extend(cfg, s0, steps, Tick(60));
    steps := steps + [Tick(60)];
    Extend(cfg, s0, steps, Ask(FromCache));
    steps := steps + [Ask(FromCache)];
  }

  /** A size query between the eager write and the refusal keeps the rejected target as
      the size in memory after the roll back, although no version ever had it. */
  lemma RejectedTargetCanLeak() returns (steps: seq<Step<nat>>)
    ensures CanRun(Fixture(true), Fresh3(), steps)
    ensures
      var end := Run(Fixture(true), Fresh3(), steps);
      && end.phase.Failed? && end.history == [3] && end.heap == map[0 := Vmss(0, 3)]
      && end.curSize == 4 && SizeFresh(Fixture(true), end)
  {
    var cfg, s0 := Fixture(true), Fresh3();
    steps := QueryInWindow();
    Extend(cfg, s0, steps, SendFirst(Refused));
    steps := steps + [SendFirst(Refused)];
    Extend(cfg, s0, steps, RollBack);
    steps := steps + [RollBack];
  }

  /** An atomic increase whose only PUT is refused fails with every cache still fresh. */
  lemma RefusalInvalidatesNothing() returns (steps: seq<Step<nat>>)
    ensures CanRun(Fixture(true), Fresh3(), steps)
    ensures
      var end := Run(Fixture(true), Fresh3(), steps);
      && end.phase.Failed? && end.phase.req.atomic
      && SizeFresh(Fixture(true), end) && InstancesFresh(Fixture(true), end) && ManagerFresh(Fixture(true), end)
  {
    var cfg, s0 := Fixture(true), Fresh3();
    Extend(cfg, s0, [], Begin(InMemory, 1));
    steps := [] + [Begin(InMemory, 1)];
    Extend(cfg, s0, steps, Take(true));
    steps := steps + [Take(true)];
    Extend(cfg, s0, steps, SendFirst(Refused));
    steps := steps + [SendFirst(Refused)];
    Extend(cfg, s0, steps, RollBack);
    steps := steps + [RollBack];
  }

  /** A Spot scale set with a longer period of its own serves the size 2 after the delete of
      one of 3 VMs has failed and the forced refresh has worked. */
  lemma FailedSpotDeleteServesDecrement()
    ensures
      var cfg := Config(true, false, true, 20, 60, 90, 300, 60);
      var steps := [DeleteAccepted(1, false), DeleteFinished(DeleteFailed, true)];
      && CanRun(cfg, Fresh3(), steps)
      && Run(cfg, Fresh3(), steps).curSize == 2 && CanAsk(cfg, Run(cfg, Fresh3(), steps), InMemory)
  {
    var cfg := Config(true, false, true, 20, 60, 90, 300, 60);
    TwoSteps(cfg, Fresh3(), DeleteAccepted(1, false), DeleteFinished(DeleteFailed, true));
  }

  lemma TwoSteps(cfg: Config, st: State<nat>, a: Step<nat>, b: Step<nat>)
    requires Enabled(cfg, st, a) && Enabled(cfg, Apply(cfg, st, a), b)
    ensures CanRun(cfg, st, [a, b]) && Run(cfg, st, [a, b]) == Apply(cfg, Apply(cfg, st, a), b)
  {
    Extend(cfg, st, [], a);
    Extend(cfg, st, [] + [a], b);
    assert [] + [a] + [b] == [a, b];
  }

  /** A delete that overdraws the size is forgotten by the next one that does not: with 3 VMs
      in memory, 7 ids are sent and the size 1 is served. */
  lemma OverdrawnDeleteIsForgotten()
    ensures
      var steps := [DeleteAccepted(5, false), DeleteAccepted(2, false)];
      && CanRun(Fixture(true), Fresh3(), steps)
      && Run(Fixture(true), Fresh3(), steps).curSize == 1
      && CanAsk(Fixture(true), Run(Fixture(true), Fresh3(), steps), InMemory)
  {
    TwoSteps(Fixture(true), Fresh3(), DeleteAccepted(5, false), DeleteAccepted(2, false));
  }
}

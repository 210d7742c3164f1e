/**
 The review fan-out as a transition system: one goroutine per group around one shared
 aggregator (internal/agent/review_with_ocr.go, runReviewGroups).

 A goroutine's control is its stage, the sink calls its turn has still to make, and the
 atomic operations left of the call in progress. Any enabled action may happen next, so a
 list of actions is a schedule and a lemma about all lists is a lemma about all interleavings.
 */
module Fanout {
  import opened Sums
  import opened AggregatorSpec

  /** maxConcurrentReviewJobs */
  const MAX_JOBS := 4

  datatype Stage =
    | Waiting     // not launched yet
    | Wrapping    // launched, about to call wrapJob
    | Turning     // running its turn, making sink calls
    | Releasing   // turn returned, about to free its semaphore slot
    | Marking     // about to enter markJobDone
    | Leaving     // counted; may still have the outer Result to emit
    | Gone        // wg.Done called

  datatype Goroutine = Goroutine(stage: Stage, rest: seq<Event>, todo: seq<Op>)

  /** The orchestrator: launching group `next`, then after wg.Wait finalize, then the merge. */
  datatype Main = Launching(next: nat) | Finishing(todo: seq<Op>) | Merged

  datatype System = System(agg: Aggregator, jobs: seq<Goroutine>, main: Main, slots: int)

  datatype Action =
    | Launch
    | Wrap(i: nat)
    | Call(i: nat)
    | Exec(i: nat, c: Choice)
    | Return(i: nat)
    | Release(i: nat)
    | Mark(i: nat)
    | Leave(i: nat)
    | Finalize
    | EmitFinal
    | MergeResults

  /** The closure returned by wrapJob stamps the job's source on every event. */
  function Stamp(i: nat, trace: seq<Event>): (r: seq<Event>)
    ensures |r| == |trace|
    ensures forall k | 0 <= k < |r| :: r[k] == trace[k].(source := Job(i))
  {
    seq(|trace|, k requires 0 <= k < |trace| => trace[k].(source := Job(i)))
  }

  /** traces[i] lists the sink calls group i's turn will make. */
  function Init(traces: seq<seq<Event>>): System {
    System(
      NewAggregator(|traces|),
      seq(|traces|, i requires 0 <= i < |traces| => Goroutine(Waiting, Stamp(i, traces[i]), [])),
      Launching(0),
      0)
  }

  ghost predicate AllGone(jobs: seq<Goroutine>) {
    forall j | 0 <= j < |jobs| :: jobs[j].stage.Gone?
  }

  ghost predicate Enabled(s: System, act: Action) {
    match act
    case Launch => s.main.Launching? && s.main.next < |s.jobs| && s.slots < MAX_JOBS
    case Wrap(i) => i < |s.jobs| && s.jobs[i].stage.Wrapping?
    case Call(i) =>
      i < |s.jobs| && s.jobs[i].stage.Turning? && s.jobs[i].todo == [] && s.jobs[i].rest != []
    case Exec(i, c) => i < |s.jobs| && s.jobs[i].todo != [] && ValidChoice(s.agg, s.jobs[i].todo[0], c)
    case Return(i) =>
      i < |s.jobs| && s.jobs[i].stage.Turning? && s.jobs[i].todo == [] && s.jobs[i].rest == []
    case Release(i) => i < |s.jobs| && s.jobs[i].stage.Releasing?
    case Mark(i) => i < |s.jobs| && s.jobs[i].stage.Marking?
    case Leave(i) => i < |s.jobs| && s.jobs[i].stage.Leaving? && s.jobs[i].todo == []
    case Finalize => s.main.Launching? && s.main.next == |s.jobs| && AllGone(s.jobs)
    case EmitFinal => s.main.Finishing? && s.main.todo != [] && s.main.todo[0].Emit?
    case MergeResults => s.main.Finishing? && s.main.todo == []
  }

  ghost function Next(s: System, act: Action): System
    requires Enabled(s, act)
    requires |s.agg.perJob| == |s.jobs|
  {
    match act
    case Launch =>
      var g := s.jobs[s.main.next];
      s.(jobs := s.jobs[s.main.next := g.(stage := Wrapping)],
         main := Launching(s.main.next + 1), slots := s.slots + 1)
    case Wrap(i) =>
      s.(agg := WrapSection(s.agg, i), jobs := s.jobs[i := s.jobs[i].(stage := Turning)])
    case Call(i) =>
      var g := s.jobs[i];
      s.(jobs := s.jobs[i := g.(rest := g.rest[1..], todo := [Handle(g.rest[0])])])
    case Exec(i, c) =>
      var g := s.jobs[i];
      var (a, ops) := ExecOp(s.agg, i, g.todo[0], c);
      s.(agg := a, jobs := s.jobs[i := g.(todo := ops + g.todo[1..])])
    case Return(i) => s.(jobs := s.jobs[i := s.jobs[i].(stage := Releasing)])
    case Release(i) => s.(jobs := s.jobs[i := s.jobs[i].(stage := Marking)], slots := s.slots - 1)
    case Mark(i) =>
      var (a, ops) := MarkDoneSection(s.agg);
      s.(agg := a, jobs := s.jobs[i := s.jobs[i].(stage := Leaving, todo := ops)])
    case Leave(i) => s.(jobs := s.jobs[i := s.jobs[i].(stage := Gone)])
    case Finalize =>
      var (a, ops) := FinalizeSection(s.agg);
      s.(agg := a, main := Finishing(ops))
    case EmitFinal =>
      s.(agg := EmitSection(s.agg, s.main.todo[0].evs), main := Finishing(s.main.todo[1..]))
    case MergeResults => s.(main := Merged)
  }

  /** t is reached from s by the schedule acts. */
  ghost predicate Runs(s: System, acts: seq<Action>, t: System)
    decreases acts
  {
    if acts == [] then s == t
    else
      && Enabled(s, acts[0])
      && |s.agg.perJob| == |s.jobs|
      && Runs(Next(s, acts[0]), acts[1..], t)
  }

  // ----- the lifecycle invariant -----

  ghost predicate HoldsSlot(g: Goroutine) { g.stage.Wrapping? || g.stage.Turning? || g.stage.Releasing? }
  ghost predicate Counted(g: Goroutine) { g.stage.Leaving? || g.stage.Gone? }

  ghost function SlotWeight(): Goroutine -> int { (g: Goroutine) => if HoldsSlot(g) then 1 else 0 }
  ghost function CountedWeight(): Goroutine -> int { (g: Goroutine) => if Counted(g) then 1 else 0 }

  ghost predicate ControlOk(g: Goroutine) {
    match g.stage
    case Waiting => g.todo == []
    case Wrapping => g.todo == []
    case Turning => true
    case Releasing => g.rest == [] && g.todo == []
    case Marking => g.rest == [] && g.todo == []
    case Leaving => g.rest == [] && (g.todo == [] || g.todo == [Emit([OuterResult])])
    case Gone => g.rest == [] && g.todo == []
  }

  ghost predicate Lifecycle(s: System) {
    && |s.agg.perJob| == |s.jobs| == s.agg.expected
    && (forall j | 0 <= j < |s.jobs| :: ControlOk(s.jobs[j]))
    && s.slots == Sum(s.jobs, SlotWeight())
    && s.slots <= MAX_JOBS
    && (s.agg.phase.Closed? <==> s.agg.finalEmitted)
    && (s.agg.phase.Buffering? ==> !s.agg.readyEmitted)
    && (s.agg.phase.Streaming? ==> s.agg.readyEmitted)
    && (s.agg.finalEmitted ==> forall j | 0 <= j < |s.jobs| :: Counted(s.jobs[j]))
    && (!s.agg.finalEmitted ==> s.agg.doneCount == Sum(s.jobs, CountedWeight()))
    && (!s.agg.finalEmitted && |s.jobs| > 0 ==> s.agg.doneCount < |s.jobs|)
    && (match s.main
        case Launching(m) =>
          m <= |s.jobs| && (forall j | 0 <= j < |s.jobs| :: s.jobs[j].stage.Waiting? <==> j >= m)
        case Finishing(todo) =>
          AllGone(s.jobs) && s.agg.finalEmitted && (todo == [] || todo == [Emit([OuterResult])])
        case Merged => AllGone(s.jobs) && s.agg.finalEmitted)
  }

  lemma CountedBound(jobs: seq<Goroutine>)
    ensures 0 <= Sum(jobs, CountedWeight()) <= |jobs|
    ensures Sum(jobs, CountedWeight()) == |jobs| ==> forall j | 0 <= j < |jobs| :: Counted(jobs[j])
    ensures (forall j | 0 <= j < |jobs| :: Counted(jobs[j])) ==> Sum(jobs, CountedWeight()) == |jobs|
  {
    if jobs != [] {
      CountedBound(jobs[1..]);
    }
  }

  lemma InitLifecycle(traces: seq<seq<Event>>)
    ensures Lifecycle(Init(traces))
  {
    var s := Init(traces);
    SumConstant(s.jobs, 0, SlotWeight());
    SumConstant(s.jobs, 0, CountedWeight());
  }

  /** Sections never touch the lifecycle counters, except the transition and the completion count. */
  lemma ExecLifecycle(a: Aggregator, i: nat, op: Op, c: Choice)
    requires i < |a.perJob|
    requires a.phase.Buffering? ==> !a.readyEmitted
    requires a.phase.Streaming? ==> a.readyEmitted
    ensures var b := ExecOp(a, i, op, c).0;
      && b.expected == a.expected && |b.perJob| == |a.perJob|
      && b.doneCount == a.doneCount && b.finalEmitted == a.finalEmitted
      && (b.phase.Closed? <==> a.phase.Closed?)
      && (b.phase.Buffering? ==> !b.readyEmitted)
      && (b.phase.Streaming? ==> b.readyEmitted)
      && a.phase.Rank() <= b.phase.Rank()
  {
  }

  lemma StepJob(s: System, i: nat, g: Goroutine)
    requires i < |s.jobs|
    ensures Sum(s.jobs[i := g], SlotWeight()) == Sum(s.jobs, SlotWeight()) - SlotWeight()(s.jobs[i]) + SlotWeight()(g)
    ensures Sum(s.jobs[i := g], CountedWeight())
         == Sum(s.jobs, CountedWeight()) - CountedWeight()(s.jobs[i]) + CountedWeight()(g)
  {
    SumUpdate(s.jobs, i, g, SlotWeight());
    SumUpdate(s.jobs, i, g, CountedWeight());
  }

  /** A goroutine that moves between two uncounted stages, or is already counted, keeps the invariant. */
  lemma QuietStep(s: System, i: nat, g: Goroutine)
    requires Lifecycle(s) && i < |s.jobs|
    requires !s.jobs[i].stage.Waiting? && !g.stage.Waiting?
    requires ControlOk(g)
    requires Counted(s.jobs[i]) <==> Counted(g)
    requires s.jobs[i].stage.Gone? ==> g.stage.Gone?
    ensures var d := SlotWeight()(g) - SlotWeight()(s.jobs[i]);
      d <= 0 ==> Lifecycle(s.(jobs := s.jobs[i := g], slots := s.slots + d))
  {
    StepJob(s, i, g);
  }

  lemma LaunchLifecycle(s: System)
    requires Lifecycle(s) && Enabled(s, Launch)
    ensures Lifecycle(Next(s, Launch))
  {
    var t := Next(s, Launch);
    StepJob(s, s.main.next, t.jobs[s.main.next]);
  }

  lemma ExecStepLifecycle(s: System, i: nat, c: Choice)
    requires Lifecycle(s) && Enabled(s, Exec(i, c))
    ensures Lifecycle(Next(s, Exec(i, c)))
  {
    var t := Next(s, Exec(i, c));
    ExecLifecycle(s.agg, i, s.jobs[i].todo[0], c);
    QuietStep(s, i, t.jobs[i]);
  }

  lemma MarkLifecycle(s: System, i: nat)
    requires Lifecycle(s) && Enabled(s, Mark(i))
    ensures Lifecycle(Next(s, Mark(i)))
  {
    var t := Next(s, Mark(i));
    assert !Counted(s.jobs[i]);
    assert !s.agg.finalEmitted;
    StepJob(s, i, t.jobs[i]);
    CountedBound(t.jobs);
  }

  lemma MainLifecycle(s: System, act: Action)
    requires Lifecycle(s) && Enabled(s, act) && (act.Finalize? || act.EmitFinal? || act.MergeResults?)
    ensures Lifecycle(Next(s, act))
  {
    CountedBound(s.jobs);
  }

  lemma NextLifecycle(s: System, act: Action)
    requires Lifecycle(s) && Enabled(s, act)
    ensures Lifecycle(Next(s, act))
  {
    match act
    case Launch => LaunchLifecycle(s);
    case Wrap(i) => QuietStep(s, i, s.jobs[i].(stage := Turning));
    case Call(i) => QuietStep(s, i, Next(s, act).jobs[i]);
    case Exec(i, c) => ExecStepLifecycle(s, i, c);
    case Return(i) => QuietStep(s, i, s.jobs[i].(stage := Releasing));
    case Release(i) => QuietStep(s, i, s.jobs[i].(stage := Marking));
    case Mark(i) => MarkLifecycle(s, i);
    case Leave(i) => QuietStep(s, i, s.jobs[i].(stage := Gone));
    case _ => MainLifecycle(s, act);
  }

  lemma {:induction false} RunLifecycle(s: System, acts: seq<Action>, t: System)
    requires Lifecycle(s) && Runs(s, acts, t)
    ensures Lifecycle(t)
    decreases acts
  {
    if acts != [] {
      NextLifecycle(s, acts[0]);
      RunLifecycle(Next(s, acts[0]), acts[1..], t);
    }
  }
}

/** No reachable state is stuck, at most four turns run at once, and every run ends. */
module FanoutProgress {
  import opened Sums
  import opened AggregatorSpec
  import opened Fanout
  import opened FanoutDelivery
  import opened FanoutTasks

  // ----- the semaphore -----

  /** At every moment of every run the slots in use are the launched turns not yet returned, at most four. */
  lemma AtMostFourTurns(traces: seq<seq<Event>>, acts: seq<Action>, t: System)
    requires Runs(Init(traces), acts, t)
    ensures t.slots == Sum(t.jobs, SlotWeight()) && 0 <= t.slots <= 4
    ensures t.main.Merged? ==> t.slots == 0
  {
    InitLifecycle(traces);
    RunLifecycle(Init(traces), acts, t);
    SumNonNegative(t.jobs, SlotWeight());
    if t.main.Merged? {
      SumConstant(t.jobs, 0, SlotWeight());
    }
  }

  // ----- something can always happen -----

  /** Every table has a listing: Go's map iteration always yields one. */
  lemma {:induction false} SomeListing(tasks: map<string, Item>) returns (items: seq<Item>)
    requires forall id | id in tasks :: tasks[id].id == id
    ensures Lists(items, tasks)
    decreases |tasks|
  {
    if tasks == map[] {
      items := [];
    } else {
      var id :| id in tasks;
      var rest := tasks - {id};
      assert rest.Keys == tasks.Keys - {id};
      assert |rest| < |tasks| by {
        assert |rest.Keys| == |tasks.Keys| - 1;
      }
      var tail := SomeListing(rest);
      items := [tasks[id]] + tail;
      AddListed(tasks, id, rest, tail);
    }
  }

  lemma AddListed(tasks: map<string, Item>, id: string, rest: map<string, Item>, tail: seq<Item>)
    requires id in tasks && tasks[id].id == id
    requires rest == tasks - {id} && Lists(tail, rest)
    ensures Lists([tasks[id]] + tail, tasks)
  {
    var items := [tasks[id]] + tail;
    forall k | 0 <= k < |items|
      ensures items[k].id in tasks && tasks[items[k].id] == items[k] && (k > 0 ==> items[k].id != id)
    {
      if k > 0 { assert items[k] == tail[k-1]; }
    }
    forall j, k | 0 <= j < k < |items| ensures items[j].id != items[k].id {
      if j > 0 { assert items[j] == tail[j-1] && items[k] == tail[k-1]; }
    }
    forall key | key in tasks ensures tasks[key] in items {
      if key == id {
        assert items[0] == tasks[id];
      } else {
        assert key in rest && rest[key] in tail;
      }
    }
  }

  lemma {:induction false} KeyedById(tasks: map<string, Item>, items: seq<Item>)
    requires forall id | id in tasks :: tasks[id].id == id
    ensures forall id | id in MergeItems(tasks, items) :: MergeItems(tasks, items)[id].id == id
    decreases items
  {
    if items != [] {
      KeyedById(tasks[items[0].id := items[0]], items[1..]);
    }
  }

  lemma SomeChoice(a: Aggregator, op: Op) returns (c: Choice)
    requires a.tasks == MergeItems(map[], Items(a.merged))
    ensures ValidChoice(a, op, c)
  {
    var items: seq<Item> := [];
    if op.Merge? {
      KeyedById(map[], Items(a.merged));
      KeyedById(a.tasks, op.ev.items);
      items := SomeListing(MergeItems(a.tasks, op.ev.items));
    }
    c := Choice(Range(|a.perJob|), items);
  }

  /** The steps goroutine i takes itself. */
  predicate Own(act: Action, i: nat) {
    match act
    case Wrap(j) => j == i
    case Call(j) => j == i
    case Exec(j, _) => j == i
    case Return(j) => j == i
    case Release(j) => j == i
    case Mark(j) => j == i
    case Leave(j) => j == i
    case _ => false
  }

  /** A launched goroutine that is not gone can take its next step. */
  lemma GoroutineMoves(s: System, i: nat) returns (act: Action)
    requires Lifecycle(s) && Tasks(s) && i < |s.jobs|
    requires !s.jobs[i].stage.Waiting? && !s.jobs[i].stage.Gone?
    ensures Enabled(s, act) && Own(act, i)
  {
    var g := s.jobs[i];
    assert ControlOk(g);
    if g.todo != [] {
      var c := SomeChoice(s.agg, g.todo[0]);
      act := Exec(i, c);
    } else {
      act := match g.stage
        case Wrapping => Wrap(i)
        case Turning => if g.rest != [] then Call(i) else Return(i)
        case Releasing => Release(i)
        case Marking => Mark(i)
        case _ => Leave(i);
    }
  }

  lemma {:induction false} SomeHolder(jobs: seq<Goroutine>) returns (i: nat)
    requires Sum(jobs, SlotWeight()) > 0
    ensures i < |jobs| && HoldsSlot(jobs[i])
  {
    if HoldsSlot(jobs[0]) {
      i := 0;
    } else {
      var k := SomeHolder(jobs[1..]);
      i := k + 1;
    }
  }

  /** No deadlock: a state that has not merged its results has an enabled action. */
  lemma Progress(s: System) returns (act: Action)
    requires Lifecycle(s) && Tasks(s) && !s.main.Merged?
    ensures Enabled(s, act)
  {
    match s.main
    case Finishing(todo) =>
      act := if todo == [] then MergeResults else EmitFinal;
    case Launching(m) =>
      if m < |s.jobs| && s.slots < MAX_JOBS {
        act := Launch;
      } else if m < |s.jobs| {
        var i := SomeHolder(s.jobs);
        act := GoroutineMoves(s, i);
      } else if i :| 0 <= i < |s.jobs| && !s.jobs[i].stage.Gone? {
        act := GoroutineMoves(s, i);
      } else {
        act := Finalize;
      }
  }

  // ----- every run ends -----

  ghost function StageCost(stage: Stage): int {
    match stage
    case Waiting => 7 case Wrapping => 6 case Turning => 5 case Releasing => 4
    case Marking => 3 case Leaving => 1 case Gone => 0
  }

  ghost function OpCost(): Op -> int {
    (op: Op) =>
      match op
      case Handle(_) => 8 case Buffer(_) => 7 case Redirect(_) => 4 case Gate => 2
      case Stream(_, _) => 3 case Store(_, _) => 1 case Match(_, _) => 2 case Merge(_) => 2
      case Emit(_) => 1
  }

  ghost function Replayable(): Event -> int { (ev: Event) => 3 }

  ghost function JobCost(): Goroutine -> int {
    (g: Goroutine) => StageCost(g.stage) + 9 * |g.rest| + Sum(g.todo, OpCost())
  }

  ghost function MainCost(m: Main): int {
    match m
    case Launching(_) => 3 case Finishing(todo) => 1 + Sum(todo, OpCost()) case Merged => 0
  }

  ghost function Cost(s: System): int {
    MainCost(s.main) + Sum(s.jobs, JobCost()) + Sum(s.agg.perJob, BufferWeight(Replayable()))
  }

  lemma CostNonNegative(s: System)
    ensures Cost(s) >= 0
  {
    forall g | g in s.jobs ensures JobCost()(g) >= 0 { SumNonNegative(g.todo, OpCost()); }
    forall p | p in s.agg.perJob ensures BufferWeight(Replayable())(p) >= 0 {
      SumNonNegative(p.initBuffer, Replayable());
    }
    SumNonNegative(s.jobs, JobCost());
    SumNonNegative(s.agg.perJob, BufferWeight(Replayable()));
    if s.main.Finishing? { SumNonNegative(s.main.todo, OpCost()); }
  }

  ghost predicate Cheaper(a: Aggregator, op: Op, after: (Aggregator, seq<Op>)) {
    Sum(after.0.perJob, BufferWeight(Replayable())) + Sum(after.1, OpCost())
      < Sum(a.perJob, BufferWeight(Replayable())) + OpCost()(op)
  }

  lemma GateCost(a: Aggregator, order: seq<nat>)
    requires ValidOrder(order, |a.perJob|)
    ensures var (b, ops) := TransitionGate(a, order);
      Sum(b.perJob, BufferWeight(Replayable())) + Sum(ops, OpCost())
        <= Sum(a.perJob, BufferWeight(Replayable())) + 1
  {
    if a.readyCount >= a.expected && !a.readyEmitted {
      SumConstant(ClearBuffers(a.perJob), 0, BufferWeight(Replayable()));
      FiredSum(a.perJob, order, OpCost(), Replayable());
    }
  }

  lemma BufferCost(a: Aggregator, i: nat, ev: Event, order: seq<nat>)
    requires i < |a.perJob| && ValidOrder(order, |a.perJob|)
    ensures Cheaper(a, Buffer(ev), BufferSection(a, i, ev, order))
  {
    var p := a.perJob[i];
    var q := PerJob(if ev.KeyedStart() then p.pending[ev.toolId := ev] else p.pending, p.initBuffer + [ev]);
    if !a.phase.Buffering? {
      SumSmall(OpCost(), Redirect(ev), Gate);
    } else if ev.KeyedEnd() {
      if ev.toolId in p.pending {
        SumUpdate(a.perJob, i, PerJob(p.pending - {ev.toolId}, p.initBuffer), BufferWeight(Replayable()));
        SumSmall(OpCost(), Emit([p.pending[ev.toolId], ev]), Gate);
      } else {
        BufferedAccount(a, i, ev, q, Replayable());
        SumSmall(OpCost(), Emit([ev]), Gate);
      }
    } else {
      BufferedAccount(a, i, ev, q, Replayable());
      var a1 := a.(perJob := a.perJob[i := q],
                   readyCount := if ev.kind.Ready? then a.readyCount + 1 else a.readyCount);
      GateCost(a1, order);
      assert BufferSection(a, i, ev, order) == TransitionGate(a1, order);
    }
  }

  lemma StreamCost(a: Aggregator, owner: nat, ev: Event)
    ensures Sum(StreamSection(a, owner, ev), OpCost()) < 3
  {
    SumSmall(OpCost(), Store(owner, ev), Gate);
    SumSmall(OpCost(), Match(owner, ev), Gate);
    SumSmall(OpCost(), Merge(ev), Gate);
    SumSmall(OpCost(), Emit([ev]), Gate);
  }

  lemma TableCost(a: Aggregator, owner: nat, p: PerJob)
    requires owner < |a.perJob| && p.initBuffer == a.perJob[owner].initBuffer
    ensures Sum(a.perJob[owner := p], BufferWeight(Replayable())) == Sum(a.perJob, BufferWeight(Replayable()))
  {
    SumUpdate(a.perJob, owner, p, BufferWeight(Replayable()));
  }

  lemma StoreCost(a: Aggregator, i: nat, owner: nat, ev: Event, c: Choice)
    requires i < |a.perJob| && ValidChoice(a, Store(owner, ev), c)
    ensures Cheaper(a, Store(owner, ev), ExecOp(a, i, Store(owner, ev), c))
  {
    if owner < |a.perJob| { TableCost(a, owner, StoreSection(a, owner, ev).perJob[owner]); }
  }

  lemma MatchCost(a: Aggregator, i: nat, owner: nat, ev: Event, c: Choice)
    requires i < |a.perJob| && ValidChoice(a, Match(owner, ev), c)
    ensures Cheaper(a, Match(owner, ev), ExecOp(a, i, Match(owner, ev), c))
  {
    if owner < |a.perJob| {
      var (b, ops) := MatchSection(a, owner, ev);
      TableCost(a, owner, b.perJob[owner]);
      assert b.perJob == a.perJob[owner := b.perJob[owner]];
      assert ops == [Emit(ops[0].evs)];
      EmitCost(ops[0].evs);
    }
  }

  lemma EmitCost(evs: seq<Event>)
    ensures Sum([Emit(evs)], OpCost()) == 1
  {
    SumSmall(OpCost(), Emit(evs), Gate);
  }

  lemma HandleCost(a: Aggregator, i: nat, ev: Event, c: Choice)
    requires i < |a.perJob|
    ensures Cheaper(a, Handle(ev), ExecOp(a, i, Handle(ev), c))
  {
    SumSmall(OpCost(), Buffer(ev), Gate);
    SumSmall(OpCost(), Stream(i, ev), Gate);
  }

  lemma ExecCost(a: Aggregator, i: nat, op: Op, c: Choice)
    requires i < |a.perJob| && ValidChoice(a, op, c)
    ensures Cheaper(a, op, ExecOp(a, i, op, c))
  {
    match op
    case Handle(ev) => HandleCost(a, i, ev, c);
    case Buffer(ev) => BufferCost(a, i, ev, c.order);
    case Redirect(ev) => SumSmall(OpCost(), Stream(i, ev), Gate);
    case Gate => if a.phase.Buffering? { GateCost(a, c.order); }
    case Stream(owner, ev) => StreamCost(a, owner, ev);
    case Store(owner, ev) => StoreCost(a, i, owner, ev, c);
    case Match(owner, ev) => MatchCost(a, i, owner, ev, c);
    case Merge(ev) => EmitCost(MergeSection(a, ev, c.items).1[0].evs);
    case Emit(_) =>
  }

  lemma JobStepCost(s: System, i: nat, g: Goroutine)
    requires i < |s.jobs|
    ensures Sum(s.jobs[i := g], JobCost()) == Sum(s.jobs, JobCost()) - JobCost()(s.jobs[i]) + JobCost()(g)
  {
    SumUpdate(s.jobs, i, g, JobCost());
  }

  lemma ExecStepCost(s: System, i: nat, c: Choice)
    requires Lifecycle(s) && Enabled(s, Exec(i, c))
    ensures Cost(Next(s, Exec(i, c))) < Cost(s)
  {
    var g := s.jobs[i];
    var t := Next(s, Exec(i, c));
    ExecCost(s.agg, i, g.todo[0], c);
    SumAppend(ExecOp(s.agg, i, g.todo[0], c).1, g.todo[1..], OpCost());
    JobStepCost(s, i, t.jobs[i]);
  }

  lemma CallCost(s: System, i: nat)
    requires Lifecycle(s) && Enabled(s, Call(i))
    ensures Cost(Next(s, Call(i))) < Cost(s)
  {
    SumSmall(OpCost(), Handle(s.jobs[i].rest[0]), Gate);
    JobStepCost(s, i, Next(s, Call(i)).jobs[i]);
  }

  lemma WrapCost(s: System, i: nat, traces: seq<seq<Event>>)
    requires Good(s, traces) && Enabled(s, Wrap(i))
    ensures Cost(Next(s, Wrap(i))) < Cost(s)
  {
    SumUpdate(s.agg.perJob, i, EmptyJob, BufferWeight(Replayable()));
    JobStepCost(s, i, Next(s, Wrap(i)).jobs[i]);
  }

  lemma MarkCost(s: System, i: nat)
    requires Lifecycle(s) && Enabled(s, Mark(i))
    ensures Cost(Next(s, Mark(i))) < Cost(s)
  {
    assert ControlOk(s.jobs[i]);
    SumSmall(OpCost(), Emit([OuterResult]), Gate);
    JobStepCost(s, i, Next(s, Mark(i)).jobs[i]);
  }

  lemma StageStepCost(s: System, i: nat, g: Goroutine)
    requires i < |s.jobs| && g.rest == s.jobs[i].rest && g.todo == s.jobs[i].todo
    requires StageCost(g.stage) < StageCost(s.jobs[i].stage)
    ensures Sum(s.jobs[i := g], JobCost()) < Sum(s.jobs, JobCost())
  {
    JobStepCost(s, i, g);
  }

  lemma MainStepCost(s: System, act: Action)
    requires Lifecycle(s) && Enabled(s, act) && (act.Finalize? || act.EmitFinal? || act.MergeResults?)
    ensures Cost(Next(s, act)) < Cost(s)
  {
    SumSmall(OpCost(), Emit([OuterResult]), Gate);
  }

  /** Every step of every run brings the merge closer. */
  lemma StepCost(s: System, act: Action, traces: seq<seq<Event>>)
    requires Good(s, traces) && Enabled(s, act)
    ensures Cost(Next(s, act)) < Cost(s)
  {
    match act
    case Launch =>
      assert s.jobs[s.main.next].stage.Waiting?;
      StageStepCost(s, s.main.next, s.jobs[s.main.next].(stage := Wrapping));
    case Wrap(i) => WrapCost(s, i, traces);
    case Call(i) => CallCost(s, i);
    case Exec(i, c) => ExecStepCost(s, i, c);
    case Return(i) => StageStepCost(s, i, s.jobs[i].(stage := Releasing));
    case Release(i) => StageStepCost(s, i, s.jobs[i].(stage := Marking));
    case Mark(i) => MarkCost(s, i);
    case Leave(i) => StageStepCost(s, i, s.jobs[i].(stage := Gone));
    case _ => MainStepCost(s, act);
  }

  /** No run is longer than the cost of its start: the fan-out cannot go on forever. */
  lemma {:induction false} RunsAreBounded(s: System, acts: seq<Action>, t: System, traces: seq<seq<Event>>)
    requires Good(s, traces) && Runs(s, acts, t)
    ensures |acts| <= Cost(s) - Cost(t) && Cost(t) >= 0
    decreases acts
  {
    CostNonNegative(t);
    if acts != [] {
      StepCost(s, acts[0], traces);
      NextGood(s, acts[0], traces);
      RunsAreBounded(Next(s, acts[0]), acts[1..], t, traces);
    }
  }

  /** From every reachable state the fan-out can reach the merge. */
  lemma {:induction false} CanFinish(s: System, traces: seq<seq<Event>>) returns (acts: seq<Action>, t: System)
    requires Good(s, traces) && Tasks(s)
    ensures Runs(s, acts, t) && t.main.Merged?
    decreases Cost(s)
  {
    if s.main.Merged? {
      acts, t := [], s;
    } else {
      var act := Progress(s);
      NextGood(s, act, traces);
      NextTasks(s, act, traces);
      StepCost(s, act, traces);
      CostNonNegative(s);
      CostNonNegative(Next(s, act));
      var more, end := CanFinish(Next(s, act), traces);
      acts, t := [act] + more, end;
    }
  }

  /** Whatever the turns send, a run that cannot be continued has merged its results. */
  lemma StuckOnlyWhenMerged(traces: seq<seq<Event>>, acts: seq<Action>, t: System)
    requires Runs(Init(traces), acts, t)
    requires forall act :: !Enabled(t, act)
    ensures t.main.Merged?
  {
    InitGood(traces);
    RunTasks(Init(traces), acts, t, traces);
    if !t.main.Merged? {
      var act := Progress(t);
      assert false;
    }
  }
}

/**
 Conservation over the fan-out: a weighted count of everything in the outer log, in the
 replay buffers, in the goroutines' hands and still to be sent never changes, except that a
 ToolEnd whose phase-1 lookup failed is counted once more (it is emitted at once and stays
 in the buffer for replay).
 */
module FanoutDelivery {
  import opened Sums
  import opened AggregatorSpec
  import opened Fanout
  import opened FanoutShape

  /** The aggregator suppresses these; a ToolStart only travels with its ToolEnd. */
  ghost predicate Unweighed(ev: Event) {
    ev.kind.Ready? || ev.kind.ToolStart? || ev.kind.Result? || ev.kind.Error? || (ev.kind.ToolEnd? && ev.toolId == "")
  }

  /** Weights of things the aggregator forwards; what it suppresses weighs nothing. */
  ghost predicate Deliverable(f: Event -> int) {
    && (forall ev: Event | Unweighed(ev) :: f(ev) == 0)
    && (forall ev: Event, items: seq<Item> | ev.kind.Task() :: f(ev) == f(Snapshot(ev, items)))
  }

  /** The weight of the events an operation still carries. */
  ghost function OpWeight(f: Event -> int): Op -> int {
    (op: Op) =>
      match op
      case Handle(ev) => f(ev)
      case Buffer(ev) => f(ev)
      case Redirect(ev) => f(ev)
      case Gate => 0
      case Stream(_, ev) => f(ev)
      case Store(_, ev) => f(ev)
      case Match(_, ev) => f(ev)
      case Merge(ev) => f(ev)
      case Emit(evs) => Sum(evs, f)
  }

  ghost function BufferWeight(f: Event -> int): PerJob -> int { (p: PerJob) => Sum(p.initBuffer, f) }
  ghost function JobWeight(f: Event -> int): Goroutine -> int {
    (g: Goroutine) => Sum(g.rest, f) + Sum(g.todo, OpWeight(f))
  }

  /** What the aggregator itself holds: forwarded, plus waiting for replay, less the double-counted strays. */
  ghost function Held(a: Aggregator, f: Event -> int): int {
    Sum(a.log, f) + Sum(a.perJob, BufferWeight(f)) - Sum(a.strays, f)
  }

  ghost function Account(s: System, f: Event -> int): int {
    Held(s.agg, f) + Sum(s.jobs, JobWeight(f))
  }

  // ----- one section -----

  lemma {:induction false} ReplayJobSum(owner: nat, events: seq<Event>, w: Op -> int, h: Event -> int)
    requires forall o: nat, ev: Event :: w(Stream(o, ev)) == h(ev)
    ensures Sum(ReplayJob(owner, events), w) == Sum(events, h)
  {
    if events != [] {
      assert ReplayJob(owner, events)[1..] == ReplayJob(owner, events[1..]);
      ReplayJobSum(owner, events[1..], w, h);
    }
  }

  ghost function BufferAt(perJob: seq<PerJob>, h: Event -> int): nat -> int {
    (k: nat) => if k < |perJob| then Sum(perJob[k].initBuffer, h) else 0
  }

  lemma {:induction false} ReplaySumAlong(perJob: seq<PerJob>, order: seq<nat>, w: Op -> int, h: Event -> int)
    requires forall o: nat, ev: Event :: w(Stream(o, ev)) == h(ev)
    ensures Sum(Replay(perJob, order), w) == Sum(order, BufferAt(perJob, h))
  {
    if order != [] {
      ReplaySumAlong(perJob, order[1..], w, h);
      if order[0] < |perJob| {
        ReplayJobSum(order[0], perJob[order[0]].initBuffer, w, h);
        SumAppend(ReplayJob(order[0], perJob[order[0]].initBuffer), Replay(perJob, order[1..]), w);
      }
    }
  }

  /** Whatever order Go's map iteration picks, the replay carries exactly the buffered events. */
  lemma ReplaySum(perJob: seq<PerJob>, order: seq<nat>, w: Op -> int, h: Event -> int)
    requires ValidOrder(order, |perJob|)
    requires forall o: nat, ev: Event :: w(Stream(o, ev)) == h(ev)
    ensures Sum(Replay(perJob, order), w) == Sum(perJob, BufferWeight(h))
  {
    ReplaySumAlong(perJob, order, w, h);
    SumPermuted(order, Range(|perJob|), BufferAt(perJob, h));
    SumOverIndices(perJob, BufferWeight(h), BufferAt(perJob, h));
  }

  /** The same for everything the transition leaves to its goroutine. */
  lemma FiredSum(perJob: seq<PerJob>, order: seq<nat>, w: Op -> int, h: Event -> int)
    requires ValidOrder(order, |perJob|)
    requires forall o: nat, ev: Event :: w(Stream(o, ev)) == h(ev)
    ensures Sum([Emit([SyntheticReady])] + Replay(perJob, order), w)
         == w(Emit([SyntheticReady])) + Sum(perJob, BufferWeight(h))
  {
    ReplaySum(perJob, order, w, h);
    SumAppend([Emit([SyntheticReady])], Replay(perJob, order), w);
    SumSmall(w, Emit([SyntheticReady]), Gate);
  }

  lemma GateAccount(a: Aggregator, order: seq<nat>, f: Event -> int)
    requires ValidOrder(order, |a.perJob|)
    requires f(SyntheticReady) == 0
    ensures var (b, ops) := TransitionGate(a, order);
      Sum(b.perJob, BufferWeight(f)) + Sum(ops, OpWeight(f)) == Sum(a.perJob, BufferWeight(f))
  {
    if a.readyCount >= a.expected && !a.readyEmitted {
      var cleared := ClearBuffers(a.perJob);
      SumConstant(cleared, 0, BufferWeight(f));
      FiredSum(a.perJob, order, OpWeight(f), f);
      SumSmall(f, SyntheticReady, SyntheticReady);
    }
  }

  lemma BufferedAccount(a: Aggregator, i: nat, ev: Event, p: PerJob, f: Event -> int)
    requires i < |a.perJob|
    requires p.initBuffer == a.perJob[i].initBuffer + [ev]
    ensures Sum(a.perJob[i := p], BufferWeight(f)) == Sum(a.perJob, BufferWeight(f)) + f(ev)
  {
    SumUpdate(a.perJob, i, p, BufferWeight(f));
    SumAppend(a.perJob[i].initBuffer, [ev], f);
  }

  ghost predicate PendingStarts(perJob: seq<PerJob>) {
    forall k | 0 <= k < |perJob| ::
      forall id | id in perJob[k].pending :: perJob[k].pending[id].kind.ToolStart?
  }

  lemma PairAccount(f: Event -> int, start: Event, end: Event)
    requires f(start) == 0
    ensures Sum([Emit([start, end]), Gate], OpWeight(f)) == f(end)
    ensures Sum([Emit([start, end])], OpWeight(f)) == f(end)
    ensures Sum([Emit([end]), Gate], OpWeight(f)) == f(end)
    ensures Sum([Emit([end])], OpWeight(f)) == f(end)
  {
    SumSmall(f, start, end);
    SumSmall(f, end, end);
    SumSmall(OpWeight(f), Emit([start, end]), Gate);
    SumSmall(OpWeight(f), Emit([end]), Gate);
  }

  lemma BufferEndAccount(a: Aggregator, i: nat, ev: Event, order: seq<nat>, f: Event -> int)
    requires i < |a.perJob| && a.phase.Buffering? && ev.KeyedEnd()
    requires ev.toolId in a.perJob[i].pending ==> f(a.perJob[i].pending[ev.toolId]) == 0
    requires f(SyntheticReady) == 0
    ensures BufferSection(a, i, ev, order).0.log == a.log
    ensures var (b, ops) := BufferSection(a, i, ev, order);
      && Sum(b.perJob, BufferWeight(f)) + Sum(ops, OpWeight(f)) - Sum(b.strays, f)
           == Sum(a.perJob, BufferWeight(f)) + f(ev) - Sum(a.strays, f)
  {
    var p := a.perJob[i];
    if ev.toolId in p.pending {
      SumUpdate(a.perJob, i, PerJob(p.pending - {ev.toolId}, p.initBuffer), BufferWeight(f));
      PairAccount(f, p.pending[ev.toolId], ev);
    } else {
      BufferedAccount(a, i, ev, Buffered(a, i, ev).perJob[i], f);
      SumAppend(a.strays, [ev], f);
      SumSmall(f, ev, ev);
      PairAccount(f, SyntheticReady, ev);
    }
  }

  lemma BufferAccount(a: Aggregator, i: nat, ev: Event, order: seq<nat>, f: Event -> int)
    requires i < |a.perJob| && ValidOrder(order, |a.perJob|)
    requires ev.toolId in a.perJob[i].pending ==> f(a.perJob[i].pending[ev.toolId]) == 0
    requires f(SyntheticReady) == 0
    ensures BufferSection(a, i, ev, order).0.log == a.log
    ensures var (b, ops) := BufferSection(a, i, ev, order);
      && Sum(b.perJob, BufferWeight(f)) + Sum(ops, OpWeight(f)) - Sum(b.strays, f)
           == Sum(a.perJob, BufferWeight(f)) + f(ev) - Sum(a.strays, f)
  {
    var p := a.perJob[i];
    if !a.phase.Buffering? {
      SumSmall(OpWeight(f), Redirect(ev), Gate);
    } else if ev.KeyedEnd() {
      BufferEndAccount(a, i, ev, order, f);
    } else {
      var q := PerJob(if ev.KeyedStart() then p.pending[ev.toolId := ev] else p.pending, p.initBuffer + [ev]);
      BufferedAccount(a, i, ev, q, f);
      var a1 := a.(perJob := a.perJob[i := q],
                   readyCount := if ev.kind.Ready? then a.readyCount + 1 else a.readyCount);
      GateAccount(a1, order, f);
      assert BufferSection(a, i, ev, order) == TransitionGate(a1, order);
    }
  }

  lemma MatchAccount(a: Aggregator, owner: nat, ev: Event, f: Event -> int)
    requires owner < |a.perJob|
    requires ev.toolId in a.perJob[owner].pending ==> f(a.perJob[owner].pending[ev.toolId]) == 0
    requires f(SyntheticReady) == 0
    ensures var (b, ops) := MatchSection(a, owner, ev);
      Sum(b.perJob, BufferWeight(f)) + Sum(ops, OpWeight(f)) == Sum(a.perJob, BufferWeight(f)) + f(ev)
  {
    var p := a.perJob[owner];
    if ev.toolId in p.pending {
      SumUpdate(a.perJob, owner, p.(pending := p.pending - {ev.toolId}), BufferWeight(f));
      PairAccount(f, p.pending[ev.toolId], ev);
    } else {
      PairAccount(f, SyntheticReady, ev);
    }
  }

  lemma StreamAccount(a: Aggregator, owner: nat, ev: Event, f: Event -> int)
    requires !a.phase.Closed? && Deliverable(f)
    ensures Sum(StreamSection(a, owner, ev), OpWeight(f)) == f(ev)
  {
    SumSmall(f, ev, ev);
    SumSmall(OpWeight(f), Store(owner, ev), Gate);
    SumSmall(OpWeight(f), Match(owner, ev), Gate);
    SumSmall(OpWeight(f), Merge(ev), Gate);
    SumSmall(OpWeight(f), Emit([ev]), Gate);
  }

  ghost predicate KindOk(op: Op) {
    && (op.Store? ==> op.ev.kind.ToolStart?)
    && (op.Merge? ==> op.ev.kind.Task())
  }

  lemma RoutingAccount(a: Aggregator, i: nat, ev: Event, f: Event -> int)
    requires !a.phase.Closed?
    ensures Sum(HandleSection(a, i, ev), OpWeight(f)) == f(ev)
    ensures Sum(RedirectSection(a, i, ev), OpWeight(f)) == f(ev)
  {
    SumSmall(OpWeight(f), Buffer(ev), Gate);
    SumSmall(OpWeight(f), Stream(i, ev), Gate);
  }

  lemma StoreAccount(a: Aggregator, owner: nat, ev: Event, f: Event -> int)
    requires owner < |a.perJob|
    ensures Held(StoreSection(a, owner, ev), f) == Held(a, f)
  {
    SumUpdate(a.perJob, owner, StoreSection(a, owner, ev).perJob[owner], BufferWeight(f));
  }

  lemma MergeAccount(a: Aggregator, ev: Event, items: seq<Item>, f: Event -> int)
    requires f(ev) == f(Snapshot(ev, items))
    ensures Sum(MergeSection(a, ev, items).1, OpWeight(f)) == f(ev)
    ensures Held(MergeSection(a, ev, items).0, f) == Held(a, f)
  {
    SumSmall(f, Snapshot(ev, items), ev);
    SumSmall(OpWeight(f), Emit([Snapshot(ev, items)]), Gate);
  }

  lemma GateHeld(a: Aggregator, order: seq<nat>, f: Event -> int)
    requires ValidOrder(order, |a.perJob|)
    requires f(SyntheticReady) == 0
    ensures Held(GateSection(a, order).0, f) + Sum(GateSection(a, order).1, OpWeight(f)) == Held(a, f)
  {
    if a.phase.Buffering? {
      GateAccount(a, order, f);
    }
  }

  lemma BufferHeld(a: Aggregator, i: nat, ev: Event, order: seq<nat>, f: Event -> int)
    requires i < |a.perJob| && ValidOrder(order, |a.perJob|)
    requires PendingStarts(a.perJob) && Deliverable(f)
    ensures Held(BufferSection(a, i, ev, order).0, f) + Sum(BufferSection(a, i, ev, order).1, OpWeight(f))
         == Held(a, f) + f(ev)
  {
    assert Unweighed(SyntheticReady);
    assert ev.toolId in a.perJob[i].pending ==> Unweighed(a.perJob[i].pending[ev.toolId]);
    BufferAccount(a, i, ev, order, f);
  }

  lemma MatchHeld(a: Aggregator, owner: nat, ev: Event, f: Event -> int)
    requires owner < |a.perJob|
    requires PendingStarts(a.perJob) && Deliverable(f)
    ensures Held(MatchSection(a, owner, ev).0, f) + Sum(MatchSection(a, owner, ev).1, OpWeight(f))
         == Held(a, f) + f(ev)
  {
    assert Unweighed(SyntheticReady);
    MatchAccount(a, owner, ev, f);
  }

  lemma EmitHeld(a: Aggregator, evs: seq<Event>, f: Event -> int)
    ensures Held(EmitSection(a, evs), f) == Held(a, f) + Sum(evs, f)
  {
    SumAppend(a.log, evs, f);
  }

  ghost predicate Conserves(a: Aggregator, op: Op, after: (Aggregator, seq<Op>), f: Event -> int) {
    Held(after.0, f) + Sum(after.1, OpWeight(f)) == Held(a, f) + OpWeight(f)(op)
  }

  /** What one atomic operation takes in it passes on: to the aggregator or to its own follow-ups. */
  lemma ExecAccount(a: Aggregator, i: nat, op: Op, c: Choice, f: Event -> int)
    requires i < |a.perJob| && ValidChoice(a, op, c)
    requires PendingStarts(a.perJob) && Deliverable(f) && KindOk(op)
    requires !a.phase.Closed? || op.Emit?
    requires (op.Match? || op.Store?) ==> op.owner < |a.perJob|
    ensures Conserves(a, op, ExecOp(a, i, op, c), f)
  {
    match op
    case Handle(ev) => RoutingAccount(a, i, ev, f);
    case Buffer(ev) => BufferHeld(a, i, ev, c.order, f);
    case Redirect(ev) => RoutingAccount(a, i, ev, f);
    case Gate =>
      assert Unweighed(SyntheticReady);
      GateHeld(a, c.order, f);
    case Stream(owner, ev) => StreamAccount(a, owner, ev, f);
    case Store(owner, ev) =>
      assert Unweighed(ev);
      StoreAccount(a, owner, ev, f);
    case Match(owner, ev) => MatchHeld(a, owner, ev, f);
    case Merge(ev) => MergeAccount(a, ev, c.items, f);
    case Emit(evs) => EmitHeld(a, evs, f);
  }

  // ----- one step, and whole runs -----

  lemma StepAccount(jobs: seq<Goroutine>, i: nat, g: Goroutine, f: Event -> int)
    requires i < |jobs|
    ensures Sum(jobs[i := g], JobWeight(f)) == Sum(jobs, JobWeight(f))
      - (Sum(jobs[i].rest, f) + Sum(jobs[i].todo, OpWeight(f))) + (Sum(g.rest, f) + Sum(g.todo, OpWeight(f)))
  {
    SumUpdate(jobs, i, g, JobWeight(f));
  }

  lemma ResultBlock(f: Event -> int)
    requires f(OuterResult) == 0
    ensures Sum([Emit([OuterResult])], OpWeight(f)) == 0
  {
    SumSmall(f, OuterResult, OuterResult);
    SumSmall(OpWeight(f), Emit([OuterResult]), Gate);
  }

  /** A goroutine still inside a sink call is not counted yet, so the aggregator is not closed. */
  lemma NotClosed(s: System, i: nat)
    requires Lifecycle(s) && i < |s.jobs| && s.jobs[i].todo != []
    ensures s.agg.phase.Closed? ==> s.jobs[i].todo == [Emit([OuterResult])]
  {
    assert ControlOk(s.jobs[i]);
  }

  lemma ExecStepAccount(s: System, i: nat, c: Choice, traces: seq<seq<Event>>, f: Event -> int)
    requires Lifecycle(s) && Shape(s, traces) && Enabled(s, Exec(i, c)) && Deliverable(f)
    ensures Account(Next(s, Exec(i, c)), f) == Account(s, f)
  {
    var t := Next(s, Exec(i, c));
    var g := s.jobs[i];
    var ops := ExecOp(s.agg, i, g.todo[0], c).1;
    NotClosed(s, i);
    assert OpOk(g.todo[0], i, traces);
    assert PendingStarts(s.agg.perJob) by {
      assert forall k | 0 <= k < |s.agg.perJob| :: PerJobOk(s.agg.perJob[k], k, traces);
    }
    ExecAccount(s.agg, i, g.todo[0], c, f);
    StepAccount(s.jobs, i, t.jobs[i], f);
    SumAppend(ops, g.todo[1..], OpWeight(f));
  }

  lemma EmitFinalAccount(s: System, f: Event -> int)
    requires Lifecycle(s) && Enabled(s, EmitFinal) && Deliverable(f)
    ensures Account(Next(s, EmitFinal), f) == Account(s, f)
  {
    SumAppend(s.agg.log, [OuterResult], f);
    SumSmall(f, OuterResult, OuterResult);
  }

  /** wrapJob's fresh table replaces an empty one: a job is buffered only after it was wrapped. */
  lemma WrapAccount(s: System, i: nat, f: Event -> int)
    requires Lifecycle(s) && Enabled(s, Wrap(i)) && s.agg.perJob[i].initBuffer == []
    ensures Account(Next(s, Wrap(i)), f) == Account(s, f)
  {
    var t := Next(s, Wrap(i));
    StepAccount(s.jobs, i, t.jobs[i], f);
    SumUpdate(s.agg.perJob, i, EmptyJob, BufferWeight(f));
  }

  ghost predicate Fresh(s: System) {
    && |s.agg.perJob| == |s.jobs|
    && (forall i | 0 <= i < |s.jobs| && (s.jobs[i].stage.Waiting? || s.jobs[i].stage.Wrapping?) ::
          s.agg.perJob[i].initBuffer == [])
  }

  lemma ExecFresh(s: System, i: nat, c: Choice)
    requires Lifecycle(s) && Fresh(s) && Enabled(s, Exec(i, c))
    ensures Fresh(Next(s, Exec(i, c)))
  {
    var t := Next(s, Exec(i, c));
    assert ControlOk(s.jobs[i]) && !s.jobs[i].stage.Waiting? && !s.jobs[i].stage.Wrapping?;
    forall j | 0 <= j < |s.jobs| && s.agg.perJob[j].initBuffer == [] && j != i
      ensures |t.agg.perJob| == |s.agg.perJob| && t.agg.perJob[j].initBuffer == []
    {
      OthersStayEmpty(s.agg, i, s.jobs[i].todo[0], c, j);
    }
  }

  /** No section fills another job's buffer. */
  lemma OthersStayEmpty(a: Aggregator, i: nat, op: Op, c: Choice, j: nat)
    requires i < |a.perJob| && j < |a.perJob| && j != i && a.perJob[j].initBuffer == []
    ensures |ExecOp(a, i, op, c).0.perJob| == |a.perJob| && ExecOp(a, i, op, c).0.perJob[j].initBuffer == []
  {
  }

  lemma NextFresh(s: System, act: Action)
    requires Lifecycle(s) && Fresh(s) && Enabled(s, act)
    ensures Fresh(Next(s, act))
  {
    if act.Exec? {
      ExecFresh(s, act.i, act.c);
    }
  }

  lemma CallAccount(s: System, i: nat, f: Event -> int)
    requires Lifecycle(s) && Enabled(s, Call(i))
    ensures Account(Next(s, Call(i)), f) == Account(s, f)
  {
    StepAccount(s.jobs, i, Next(s, Call(i)).jobs[i], f);
    SumSmall(OpWeight(f), Handle(s.jobs[i].rest[0]), Gate);
  }

  lemma MarkAccount(s: System, i: nat, f: Event -> int)
    requires Lifecycle(s) && Enabled(s, Mark(i)) && Deliverable(f)
    ensures Account(Next(s, Mark(i)), f) == Account(s, f)
  {
    assert ControlOk(s.jobs[i]);
    ResultBlock(f);
    StepAccount(s.jobs, i, Next(s, Mark(i)).jobs[i], f);
  }

  lemma NextAccount(s: System, act: Action, traces: seq<seq<Event>>, f: Event -> int)
    requires Lifecycle(s) && Shape(s, traces) && Fresh(s) && Enabled(s, act) && Deliverable(f)
    ensures Account(Next(s, act), f) == Account(s, f)
  {
    var t := Next(s, act);
    match act
    case Launch => StepAccount(s.jobs, s.main.next, t.jobs[s.main.next], f);
    case Wrap(i) => WrapAccount(s, i, f);
    case Call(i) => CallAccount(s, i, f);
    case Exec(i, c) => ExecStepAccount(s, i, c, traces, f);
    case Return(i) => StepAccount(s.jobs, i, t.jobs[i], f);
    case Release(i) => StepAccount(s.jobs, i, t.jobs[i], f);
    case Mark(i) => MarkAccount(s, i, f);
    case Leave(i) => StepAccount(s.jobs, i, t.jobs[i], f);
    case Finalize =>
    case EmitFinal => EmitFinalAccount(s, f);
    case MergeResults =>
  }

  ghost predicate Good(s: System, traces: seq<seq<Event>>) {
    Lifecycle(s) && Shape(s, traces) && Fresh(s)
  }

  lemma InitGood(traces: seq<seq<Event>>)
    ensures Good(Init(traces), traces)
  {
    InitLifecycle(traces);
    InitShape(traces);
  }

  lemma NextGood(s: System, act: Action, traces: seq<seq<Event>>)
    requires Good(s, traces) && Enabled(s, act)
    ensures Good(Next(s, act), traces)
  {
    NextLifecycle(s, act);
    NextShape(s, act, traces);
    NextFresh(s, act);
  }

  /** Conservation over every schedule. */
  lemma {:induction false} RunAccount(s: System, acts: seq<Action>, t: System, traces: seq<seq<Event>>, f: Event -> int)
    requires Good(s, traces) && Runs(s, acts, t) && Deliverable(f)
    ensures Good(t, traces) && Account(t, f) == Account(s, f)
    decreases acts
  {
    if acts != [] {
      NextGood(s, acts[0], traces);
      NextAccount(s, acts[0], traces, f);
      RunAccount(Next(s, acts[0]), acts[1..], t, traces, f);
    }
  }

  /** The total weight of all stamped turns. */
  ghost function Sent(traces: seq<seq<Event>>, f: Event -> int): int {
    Sum(Init(traces).jobs, JobWeight(f))
  }

  lemma InitAccount(traces: seq<seq<Event>>, f: Event -> int)
    ensures Account(Init(traces), f) == Sent(traces, f)
  {
    SumConstant(Init(traces).agg.perJob, 0, BufferWeight(f));
  }

  lemma QuietJobs(jobs: seq<Goroutine>, f: Event -> int)
    requires forall j | 0 <= j < |jobs| :: jobs[j].rest == [] && jobs[j].todo == []
    ensures Sum(jobs, JobWeight(f)) == 0
  {
    SumConstant(jobs, 0, JobWeight(f));
  }

  /**
   At the end of every run: what the outer log holds plus what never left the buffers is
   what the turns sent plus the stray ToolEnds.
   */
  lemma FinalAccount(traces: seq<seq<Event>>, acts: seq<Action>, t: System, f: Event -> int)
    requires Runs(Init(traces), acts, t) && t.main.Merged? && Deliverable(f)
    ensures Sum(t.agg.log, f) + Sum(t.agg.perJob, BufferWeight(f)) == Sent(traces, f) + Sum(t.agg.strays, f)
  {
    InitGood(traces);
    InitAccount(traces, f);
    RunAccount(Init(traces), acts, t, traces, f);
    assert forall j | 0 <= j < |t.jobs| :: ControlOk(t.jobs[j]);
    QuietJobs(t.jobs, f);
  }
}

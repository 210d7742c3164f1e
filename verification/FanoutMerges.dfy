/** The task events merged over a run: each that was sent, once, if phase 2 opened; none otherwise. */
module FanoutMerges {
  import opened Sums
  import opened AggregatorSpec
  import opened Fanout
  import opened FanoutShape
  import opened FanoutDelivery
  import opened FanoutOutcome
  import opened FanoutResults

  /** Weights of task events only. */
  ghost predicate TaskWeight(f: Event -> int) {
    forall ev: Event | !ev.kind.Task() :: f(ev) == 0
  }

  /** The weight of what an operation will still have merged. */
  ghost function MergeWeight(f: Event -> int): Op -> int {
    (op: Op) =>
      match op
      case Handle(ev) => f(ev)
      case Buffer(ev) => f(ev)
      case Redirect(ev) => f(ev)
      case Stream(_, ev) => f(ev)
      case Merge(ev) => f(ev)
      case _ => 0
  }

  ghost function Pool(a: Aggregator, f: Event -> int): int {
    Sum(a.merged, f) + Sum(a.perJob, BufferWeight(f))
  }

  ghost function Mergeable(s: System, f: Event -> int): int {
    Pool(s.agg, f) + Sum(s.jobs, Load(f, MergeWeight(f)))
  }

  ghost predicate Keeps(a: Aggregator, op: Op, after: (Aggregator, seq<Op>), f: Event -> int) {
    Pool(after.0, f) + Sum(after.1, MergeWeight(f)) == Pool(a, f) + MergeWeight(f)(op)
  }

  // ----- one operation -----

  lemma GateKeeps(a: Aggregator, order: seq<nat>, f: Event -> int)
    requires ValidOrder(order, |a.perJob|)
    ensures Pool(TransitionGate(a, order).0, f) + Sum(TransitionGate(a, order).1, MergeWeight(f)) == Pool(a, f)
  {
    if a.readyCount >= a.expected && !a.readyEmitted {
      SumConstant(ClearBuffers(a.perJob), 0, BufferWeight(f));
      FiredSum(a.perJob, order, MergeWeight(f), f);
    }
  }

  lemma EndKeeps(a: Aggregator, i: nat, ev: Event, order: seq<nat>, f: Event -> int)
    requires i < |a.perJob| && a.phase.Buffering? && ev.KeyedEnd() && f(ev) == 0
    ensures Keeps(a, Buffer(ev), BufferSection(a, i, ev, order), f)
  {
    var p := a.perJob[i];
    if ev.toolId in p.pending {
      SumUpdate(a.perJob, i, PerJob(p.pending - {ev.toolId}, p.initBuffer), BufferWeight(f));
      SumSmall(MergeWeight(f), Emit([p.pending[ev.toolId], ev]), Gate);
    } else {
      BufferedAccount(a, i, ev, Buffered(a, i, ev).perJob[i], f);
      SumSmall(MergeWeight(f), Emit([ev]), Gate);
    }
  }

  lemma BufferKeeps(a: Aggregator, i: nat, ev: Event, order: seq<nat>, f: Event -> int)
    requires i < |a.perJob| && ValidOrder(order, |a.perJob|) && TaskWeight(f)
    ensures Keeps(a, Buffer(ev), BufferSection(a, i, ev, order), f)
  {
    var p := a.perJob[i];
    if !a.phase.Buffering? {
      SumSmall(MergeWeight(f), Redirect(ev), Gate);
    } else if ev.KeyedEnd() {
      EndKeeps(a, i, ev, order, f);
    } else {
      var q := PerJob(if ev.KeyedStart() then p.pending[ev.toolId := ev] else p.pending, p.initBuffer + [ev]);
      BufferedAccount(a, i, ev, q, f);
      var a1 := a.(perJob := a.perJob[i := q],
                   readyCount := if ev.kind.Ready? then a.readyCount + 1 else a.readyCount);
      GateKeeps(a1, order, f);
      assert BufferSection(a, i, ev, order) == TransitionGate(a1, order);
    }
  }

  lemma RoutingKeeps(a: Aggregator, i: nat, ev: Event, f: Event -> int)
    requires !a.phase.Closed?
    ensures Sum(HandleSection(a, i, ev), MergeWeight(f)) == f(ev)
    ensures Sum(RedirectSection(a, i, ev), MergeWeight(f)) == f(ev)
  {
    SumSmall(MergeWeight(f), Buffer(ev), Gate);
    SumSmall(MergeWeight(f), Stream(i, ev), Gate);
  }

  lemma StreamKeeps(a: Aggregator, owner: nat, ev: Event, f: Event -> int)
    requires !a.phase.Closed? && TaskWeight(f)
    ensures Sum(StreamSection(a, owner, ev), MergeWeight(f)) == f(ev)
  {
    SumSmall(MergeWeight(f), Store(owner, ev), Gate);
    SumSmall(MergeWeight(f), Match(owner, ev), Gate);
    SumSmall(MergeWeight(f), Merge(ev), Gate);
    SumSmall(MergeWeight(f), Emit([ev]), Gate);
  }

  lemma TableKeeps(a: Aggregator, owner: nat, ev: Event, f: Event -> int)
    requires owner < |a.perJob|
    ensures Pool(StoreSection(a, owner, ev), f) == Pool(a, f)
    ensures Pool(MatchSection(a, owner, ev).0, f) == Pool(a, f)
    ensures Sum(MatchSection(a, owner, ev).1, MergeWeight(f)) == 0
  {
    var p := a.perJob[owner];
    SumUpdate(a.perJob, owner, p.(pending := p.pending[ev.toolId := ev]), BufferWeight(f));
    SumUpdate(a.perJob, owner, p.(pending := p.pending - {ev.toolId}), BufferWeight(f));
    SumSmall(MergeWeight(f), MatchSection(a, owner, ev).1[0], Gate);
  }

  lemma MergeKeeps(a: Aggregator, ev: Event, items: seq<Item>, f: Event -> int)
    ensures Keeps(a, Merge(ev), MergeSection(a, ev, items), f)
  {
    SumAppend(a.merged, [ev], f);
    SumSmall(f, ev, ev);
    SumSmall(MergeWeight(f), Emit([Snapshot(ev, items)]), Gate);
  }

  /** A task event stays to be merged until the one section that merges it. */
  lemma ExecKeeps(a: Aggregator, i: nat, op: Op, c: Choice, f: Event -> int)
    requires i < |a.perJob| && ValidChoice(a, op, c) && TaskWeight(f)
    requires !a.phase.Closed? || op.Emit?
    requires (op.Match? || op.Store?) ==> op.owner < |a.perJob|
    ensures Keeps(a, op, ExecOp(a, i, op, c), f)
  {
    match op
    case Handle(ev) => RoutingKeeps(a, i, ev, f);
    case Buffer(ev) => BufferKeeps(a, i, ev, c.order, f);
    case Redirect(ev) => RoutingKeeps(a, i, ev, f);
    case Gate => if a.phase.Buffering? { GateKeeps(a, c.order, f); }
    case Stream(owner, ev) => StreamKeeps(a, owner, ev, f);
    case Store(owner, ev) => TableKeeps(a, owner, ev, f);
    case Match(owner, ev) => TableKeeps(a, owner, ev, f);
    case Merge(ev) => MergeKeeps(a, ev, c.items, f);
    case Emit(_) =>
  }

  // ----- one step, and whole runs -----

  lemma ExecStepKeeps(s: System, i: nat, c: Choice, traces: seq<seq<Event>>, f: Event -> int)
    requires Good(s, traces) && Enabled(s, Exec(i, c)) && TaskWeight(f)
    ensures Mergeable(Next(s, Exec(i, c)), f) == Mergeable(s, f)
  {
    var g := s.jobs[i];
    NotClosed(s, i);
    assert OpOk(g.todo[0], i, traces);
    ExecKeeps(s.agg, i, g.todo[0], c, f);
    StepLoad(s.jobs, i, Next(s, Exec(i, c)).jobs[i], f, MergeWeight(f));
    SumAppend(ExecOp(s.agg, i, g.todo[0], c).1, g.todo[1..], MergeWeight(f));
  }

  lemma StageKeeps(s: System, i: nat, g: Goroutine, f: Event -> int)
    requires i < |s.jobs| && g.rest == s.jobs[i].rest && g.todo == s.jobs[i].todo
    ensures Sum(s.jobs[i := g], Load(f, MergeWeight(f))) == Sum(s.jobs, Load(f, MergeWeight(f)))
  {
    StepLoad(s.jobs, i, g, f, MergeWeight(f));
  }

  lemma CallKeeps(s: System, i: nat, f: Event -> int)
    requires Lifecycle(s) && Enabled(s, Call(i))
    ensures Mergeable(Next(s, Call(i)), f) == Mergeable(s, f)
  {
    StepLoad(s.jobs, i, Next(s, Call(i)).jobs[i], f, MergeWeight(f));
    SumSmall(MergeWeight(f), Handle(s.jobs[i].rest[0]), Gate);
  }

  lemma WrapKeeps(s: System, i: nat, f: Event -> int)
    requires Lifecycle(s) && Fresh(s) && Enabled(s, Wrap(i))
    ensures Mergeable(Next(s, Wrap(i)), f) == Mergeable(s, f)
  {
    StageKeeps(s, i, Next(s, Wrap(i)).jobs[i], f);
    SumUpdate(s.agg.perJob, i, EmptyJob, BufferWeight(f));
  }

  lemma MarkKeeps(s: System, i: nat, f: Event -> int)
    requires Lifecycle(s) && Enabled(s, Mark(i))
    ensures Mergeable(Next(s, Mark(i)), f) == Mergeable(s, f)
  {
    assert ControlOk(s.jobs[i]);
    StepLoad(s.jobs, i, Next(s, Mark(i)).jobs[i], f, MergeWeight(f));
    SumSmall(MergeWeight(f), Emit([OuterResult]), Gate);
  }

  lemma NextKeeps(s: System, act: Action, traces: seq<seq<Event>>, f: Event -> int)
    requires Good(s, traces) && Enabled(s, act) && TaskWeight(f)
    ensures Mergeable(Next(s, act), f) == Mergeable(s, f)
  {
    var t := Next(s, act);
    match act
    case Launch => StageKeeps(s, s.main.next, t.jobs[s.main.next], f);
    case Wrap(i) => WrapKeeps(s, i, f);
    case Call(i) => CallKeeps(s, i, f);
    case Exec(i, c) => ExecStepKeeps(s, i, c, traces, f);
    case Return(i) => StageKeeps(s, i, t.jobs[i], f);
    case Release(i) => StageKeeps(s, i, t.jobs[i], f);
    case Mark(i) => MarkKeeps(s, i, f);
    case Leave(i) => StageKeeps(s, i, t.jobs[i], f);
    case _ =>
  }

  /** Merged task events come from turns, and before phase 2 there are none. */
  ghost predicate MergesOk(a: Aggregator) {
    && (forall ev | ev in a.merged :: ev.kind.Task() && ev.source.Job?)
    && (!a.readyEmitted ==> a.merged == [])
  }

  lemma ExecMerges(a: Aggregator, i: nat, op: Op, c: Choice)
    requires i < |a.perJob| && MergesOk(a)
    requires op.Merge? ==> a.readyEmitted && op.ev.kind.Task() && op.ev.source.Job?
    ensures MergesOk(ExecOp(a, i, op, c).0)
  {
  }

  lemma NextMerges(s: System, act: Action, traces: seq<seq<Event>>)
    requires Inv(s, traces) && Enabled(s, act) && MergesOk(s.agg)
    ensures MergesOk(Next(s, act).agg)
  {
    if act.Exec? {
      if s.jobs[act.i].todo[0].Merge? {
        MergeOp(s, act.i, traces);
      }
      ExecMerges(s.agg, act.i, s.jobs[act.i].todo[0], act.c);
    } else {
      QuietMerges(s, act);
    }
  }

  lemma MergeOp(s: System, i: nat, traces: seq<seq<Event>>)
    requires Good(s, traces) && Split(s) && i < |s.jobs| && s.jobs[i].todo != [] && s.jobs[i].todo[0].Merge?
    ensures s.agg.readyEmitted && s.jobs[i].todo[0].ev.kind.Task() && s.jobs[i].todo[0].ev.source.Job?
  {
    assert OpOk(s.jobs[i].todo[0], i, traces);
    assert !EarlyOp(s.jobs[i].todo[0]);
  }

  lemma QuietMerges(s: System, act: Action)
    requires Lifecycle(s) && Enabled(s, act) && !act.Exec?
    ensures Next(s, act).agg.merged == s.agg.merged && Next(s, act).agg.readyEmitted == s.agg.readyEmitted
  {
  }

  lemma {:induction false} RunMerges(s: System, acts: seq<Action>, t: System, traces: seq<seq<Event>>, f: Event -> int)
    requires Inv(s, traces) && MergesOk(s.agg) && TaskWeight(f) && Runs(s, acts, t)
    ensures Inv(t, traces) && MergesOk(t.agg) && Mergeable(t, f) == Mergeable(s, f)
    decreases acts
  {
    if acts != [] {
      NextInv(s, acts[0], traces);
      NextMerges(s, acts[0], traces);
      NextKeeps(s, acts[0], traces, f);
      RunMerges(Next(s, acts[0]), acts[1..], t, traces, f);
    }
  }

  lemma InitMergeable(traces: seq<seq<Event>>, f: Event -> int)
    ensures Mergeable(Init(traces), f) == Sent(traces, f)
  {
    var jobs := Init(traces).jobs;
    SumConstant(Init(traces).agg.perJob, 0, BufferWeight(f));
    SumPointwise(jobs, jobs, Load(f, MergeWeight(f)), JobWeight(f));
  }

  /** At the merge of a run that opened phase 2 nothing is left to be merged. */
  lemma AllMerged(t: System, traces: seq<seq<Event>>, f: Event -> int)
    requires Inv(t, traces) && t.main.Merged? && t.agg.readyEmitted
    ensures Mergeable(t, f) == Sum(t.agg.merged, f)
  {
    forall g | g in t.jobs ensures g.rest == [] && g.todo == [] {
      var j :| 0 <= j < |t.jobs| && t.jobs[j] == g;
      assert ControlOk(t.jobs[j]);
    }
    SumConstant(t.jobs, 0, Load(f, MergeWeight(f)));
    SumConstant(t.agg.perJob, 0, BufferWeight(f));
  }

  lemma SentByNone(traces: seq<seq<Event>>, e: Event)
    requires e.source.Job? && e.source.index >= |traces|
    ensures Sent(traces, Is(e)) == 0
  {
    var jobs := Init(traces).jobs;
    forall g | g in jobs ensures JobWeight(Is(e))(g) == 0 {
      SumConstant(g.rest, 0, Is(e));
    }
    SumConstant(jobs, 0, JobWeight(Is(e)));
  }

  lemma MergedCount(traces: seq<seq<Event>>, acts: seq<Action>, t: System, e: Event)
    requires Runs(Init(traces), acts, t) && t.main.Merged? && e.kind.Task()
    ensures MergesOk(t.agg)
    ensures t.agg.readyEmitted ==> multiset(t.agg.merged)[e] == Sent(traces, Is(e))
  {
    InitInv(traces);
    InitMergeable(traces, Is(e));
    RunMerges(Init(traces), acts, t, traces, Is(e));
    Occurs(t.agg.merged, e);
    if t.agg.readyEmitted {
      AllMerged(t, traces, Is(e));
    }
  }

  /**
   In every complete run the merge history holds, as a multiset, exactly the task events all turns sent if they sent
   enough Readys, and nothing otherwise.
   */
  lemma EveryTaskMergedOnce(traces: seq<seq<Event>>, acts: seq<Action>, t: System, e: Event)
    requires Runs(Init(traces), acts, t) && t.main.Merged? && traces != []
    ensures multiset(t.agg.merged)[e] ==
      if ReadysSent(traces) >= |traces| && e.kind.Task() && e.source.Job? && e.source.index < |traces|
      then multiset(Stamp(e.source.index, traces[e.source.index]))[e] else 0
  {
    CompleteRun(traces, acts, t);
    MergedCount(traces, acts, t, if e.kind.Task() then e else e.(kind := TaskCreate));
    if t.agg.readyEmitted && e.kind.Task() && e.source.Job? {
      if e.source.index < |traces| {
        SentBy(traces, e);
      } else {
        SentByNone(traces, e);
      }
    } else {
      assert e !in t.agg.merged;
    }
  }
}

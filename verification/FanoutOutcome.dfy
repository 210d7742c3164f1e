/**
 The outcome of every run of the fan-out: exactly one outer Result, last; at most one outer
 Ready, there exactly when the turns sent enough Readys; every forwarded event delivered
 exactly once in that case.
 */
module FanoutOutcome {
  import opened Sums
  import opened AggregatorSpec
  import opened Fanout
  import opened FanoutShape
  import opened FanoutDelivery

  /** A goroutine's load under a weight for events not yet sent and one for pending operations. */
  ghost function Load(r: Event -> int, w: Op -> int): Goroutine -> int {
    (g: Goroutine) => Sum(g.rest, r) + Sum(g.todo, w)
  }

  lemma StepLoad(jobs: seq<Goroutine>, i: nat, g: Goroutine, r: Event -> int, w: Op -> int)
    requires i < |jobs|
    ensures Sum(jobs[i := g], Load(r, w)) == Sum(jobs, Load(r, w))
      - (Sum(jobs[i].rest, r) + Sum(jobs[i].todo, w)) + (Sum(g.rest, r) + Sum(g.todo, w))
  {
    SumUpdate(jobs, i, g, Load(r, w));
  }

  // ----- before the transition -----

  ghost predicate EarlyEvents(evs: seq<Event>) {
    forall ev | ev in evs :: ev.kind.ToolStart? || ev.kind.ToolEnd? || ev.kind.Result?
  }

  ghost predicate EarlyOp(op: Op) {
    op.Handle? || op.Buffer? || op.Gate? || (op.Emit? && EarlyEvents(op.evs))
  }

  /** Until the transition only tool events leave phase 1; after it nothing waits in a buffer. */
  ghost predicate Split(s: System) {
    if s.agg.readyEmitted then
      forall j | 0 <= j < |s.agg.perJob| :: s.agg.perJob[j].initBuffer == []
    else
      && EarlyEvents(s.agg.log)
      && forall j | 0 <= j < |s.jobs| :: forall op | op in s.jobs[j].todo :: EarlyOp(op)
  }

  /** An operation that leaves the Ready unsent adds only early events and early operations. */
  lemma EarlyAdds(a: Aggregator, i: nat, op: Op, c: Choice, traces: seq<seq<Event>>)
    requires i < |a.perJob| && EarlyOp(op) && OpOk(op, i, traces) && PerJobOk(a.perJob[i], i, traces)
    requires !a.readyEmitted && !ExecOp(a, i, op, c).0.readyEmitted && EarlyEvents(a.log)
    requires (a.phase.Closed? ==> op.Emit?) && (a.phase.Streaming? ==> a.readyEmitted)
    ensures EarlyEvents(ExecOp(a, i, op, c).0.log) && forall o | o in ExecOp(a, i, op, c).1 :: EarlyOp(o)
  {
  }

  lemma EarlySplit(s: System, i: nat, c: Choice, traces: seq<seq<Event>>)
    requires Good(s, traces) && Split(s) && Enabled(s, Exec(i, c)) && !s.agg.readyEmitted
    requires !Next(s, Exec(i, c)).agg.readyEmitted
    ensures Split(Next(s, Exec(i, c)))
  {
    var op := s.jobs[i].todo[0];
    NotClosed(s, i);
    assert OpOk(op, i, traces) && PerJobOk(s.agg.perJob[i], i, traces);
    EarlyAdds(s.agg, i, op, c, traces);
    assert forall o | o in Next(s, Exec(i, c)).jobs[i].todo :: o in ExecOp(s.agg, i, op, c).1 || o in s.jobs[i].todo;
  }

  ghost predicate NothingWaits(perJob: seq<PerJob>) {
    forall j | 0 <= j < |perJob| :: perJob[j].initBuffer == []
  }

  /** The transition empties all buffers, and no operation after it fills one. */
  lemma BuffersStayEmpty(a: Aggregator, i: nat, op: Op, c: Choice)
    requires i < |a.perJob| && ExecOp(a, i, op, c).0.readyEmitted
    requires a.readyEmitted ==> NothingWaits(a.perJob) && !a.phase.Buffering?
    ensures NothingWaits(ExecOp(a, i, op, c).0.perJob)
  {
  }

  lemma LateSplit(s: System, i: nat, c: Choice, traces: seq<seq<Event>>)
    requires Good(s, traces) && Split(s) && Enabled(s, Exec(i, c)) && Next(s, Exec(i, c)).agg.readyEmitted
    ensures Split(Next(s, Exec(i, c)))
  {
    BuffersStayEmpty(s.agg, i, s.jobs[i].todo[0], c);
  }

  lemma ExecSplit(s: System, i: nat, c: Choice, traces: seq<seq<Event>>)
    requires Good(s, traces) && Split(s) && Enabled(s, Exec(i, c))
    ensures Split(Next(s, Exec(i, c)))
  {
    if Next(s, Exec(i, c)).agg.readyEmitted {
      LateSplit(s, i, c, traces);
    } else {
      ExecLifecycle(s.agg, i, s.jobs[i].todo[0], c);
      ExecReady(s.agg, i, s.jobs[i].todo[0], c);
      EarlySplit(s, i, c, traces);
    }
  }

  lemma NextSplit(s: System, act: Action, traces: seq<seq<Event>>)
    requires Good(s, traces) && Split(s) && Enabled(s, act)
    ensures Split(Next(s, act))
  {
    if act.Exec? {
      ExecSplit(s, act.i, act.c, traces);
    }
  }

  // ----- the Ready gate -----

  ghost function IsReady(): Event -> int { (ev: Event) => if ev.kind.Ready? then 1 else 0 }

  /** A Ready still counts while it can reach the phase-1 section. */
  ghost function ReadyAhead(): Op -> int {
    (op: Op) =>
      match op
      case Handle(ev) => IsReady()(ev)
      case Buffer(ev) => IsReady()(ev)
      case _ => 0
  }

  ghost function Readys(s: System): int { s.agg.readyCount + Sum(s.jobs, Load(IsReady(), ReadyAhead())) }

  lemma {:induction false} ReplayWeighs0(perJob: seq<PerJob>, order: seq<nat>, w: Op -> int)
    requires forall o: nat, ev: Event :: w(Stream(o, ev)) == 0
    ensures Sum(Replay(perJob, order), w) == 0
  {
    ReplayOps(perJob, order);
    forall op | op in Replay(perJob, order) ensures w(op) == 0 {
      assert op == Stream(op.owner, op.ev);
    }
    SumConstant(Replay(perJob, order), 0, w);
  }

  lemma GateReady(a: Aggregator, order: seq<nat>)
    ensures Sum(TransitionGate(a, order).1, ReadyAhead()) == 0
    ensures TransitionGate(a, order).0.readyCount == a.readyCount
    ensures var b := TransitionGate(a, order).0; !b.readyEmitted ==> b.readyCount < b.expected
    ensures TransitionGate(a, order).0.readyEmitted ==> a.readyEmitted || a.readyCount >= a.expected
    ensures a.readyEmitted ==> TransitionGate(a, order).0.readyEmitted
  {
    if a.readyCount >= a.expected && !a.readyEmitted {
      ReplayWeighs0(a.perJob, order, ReadyAhead());
      SumAppend([Emit([SyntheticReady])], Replay(a.perJob, order), ReadyAhead());
      SumSmall(ReadyAhead(), Emit([SyntheticReady]), Gate);
    }
  }

  lemma BufferReady(a: Aggregator, i: nat, ev: Event, order: seq<nat>)
    requires i < |a.perJob|
    ensures var (b, ops) := BufferSection(a, i, ev, order);
      && b.readyCount + Sum(ops, ReadyAhead()) <= a.readyCount + IsReady()(ev)
      && (a.phase.Buffering? ==> b.readyCount + Sum(ops, ReadyAhead()) == a.readyCount + IsReady()(ev))
      && (a.readyEmitted ==> b.readyEmitted)
      && (b.readyEmitted ==> a.readyEmitted || b.readyCount >= b.expected)
      && (!b.readyEmitted && (a.readyCount < a.expected || (a.phase.Buffering? && !ev.KeyedEnd()))
          ==> b.readyCount < b.expected)
  {
    var p := a.perJob[i];
    if !a.phase.Buffering? {
      SumSmall(ReadyAhead(), Redirect(ev), Gate);
    } else if ev.KeyedEnd() {
      if ev.toolId in p.pending {
        SumSmall(ReadyAhead(), Emit([p.pending[ev.toolId], ev]), Gate);
      } else {
        SumSmall(ReadyAhead(), Emit([ev]), Gate);
      }
    } else {
      var q := PerJob(if ev.KeyedStart() then p.pending[ev.toolId := ev] else p.pending, p.initBuffer + [ev]);
      var a1 := a.(perJob := a.perJob[i := q],
                   readyCount := if ev.kind.Ready? then a.readyCount + 1 else a.readyCount);
      GateReady(a1, order);
      assert BufferSection(a, i, ev, order) == TransitionGate(a1, order);
    }
  }

  ghost predicate ReadyStep(a: Aggregator, op: Op, b: Aggregator, ops: seq<Op>) {
    && b.readyCount + Sum(ops, ReadyAhead()) <= a.readyCount + ReadyAhead()(op)
    && ((a.phase.Buffering? && EarlyOp(op)) || op.Emit? ==>
          b.readyCount + Sum(ops, ReadyAhead()) == a.readyCount + ReadyAhead()(op))
    && (a.readyEmitted ==> b.readyEmitted)
    && (b.readyEmitted ==> a.readyEmitted || b.readyCount >= b.expected)
    && (!b.readyEmitted && a.readyCount < a.expected ==> b.readyCount < b.expected)
    && (b.readyEmitted ==> b.readyCount >= a.readyCount)
  }

  lemma StreamReady(a: Aggregator, i: nat, owner: nat, ev: Event, c: Choice)
    requires i < |a.perJob|
    ensures ReadyStep(a, Stream(owner, ev), ExecOp(a, i, Stream(owner, ev), c).0, ExecOp(a, i, Stream(owner, ev), c).1)
  {
    SumSmall(ReadyAhead(), Store(owner, ev), Gate);
    SumSmall(ReadyAhead(), Match(owner, ev), Gate);
    SumSmall(ReadyAhead(), Merge(ev), Gate);
    SumSmall(ReadyAhead(), Emit([ev]), Gate);
  }

  lemma MatchReady(a: Aggregator, i: nat, owner: nat, ev: Event, c: Choice)
    requires i < |a.perJob|
    ensures ReadyStep(a, Match(owner, ev), ExecOp(a, i, Match(owner, ev), c).0, ExecOp(a, i, Match(owner, ev), c).1)
  {
    if owner < |a.perJob| {
      var op := MatchSection(a, owner, ev).1[0];
      SumSmall(ReadyAhead(), op, Gate);
      assert op.Emit? && ReadyAhead()(op) == 0 && ReadyAhead()(Match(owner, ev)) == 0;
      assert MatchSection(a, owner, ev).1 == [op] && Sum([op], ReadyAhead()) == 0;
    }
  }

  lemma HandleReady(a: Aggregator, i: nat, ev: Event, c: Choice)
    requires i < |a.perJob|
    ensures ReadyStep(a, Handle(ev), ExecOp(a, i, Handle(ev), c).0, ExecOp(a, i, Handle(ev), c).1)
  {
    SumSmall(ReadyAhead(), Buffer(ev), Gate);
    SumSmall(ReadyAhead(), Stream(i, ev), Gate);
    assert 0 <= IsReady()(ev) == ReadyAhead()(Handle(ev)) == ReadyAhead()(Buffer(ev));
  }

  lemma RedirectReady(a: Aggregator, i: nat, ev: Event, c: Choice)
    requires i < |a.perJob|
    ensures ReadyStep(a, Redirect(ev), ExecOp(a, i, Redirect(ev), c).0, ExecOp(a, i, Redirect(ev), c).1)
  {
    SumSmall(ReadyAhead(), Stream(i, ev), Gate);
  }

  lemma MergeReady(a: Aggregator, i: nat, ev: Event, c: Choice)
    requires i < |a.perJob|
    ensures ReadyStep(a, Merge(ev), ExecOp(a, i, Merge(ev), c).0, ExecOp(a, i, Merge(ev), c).1)
  {
    SumSmall(ReadyAhead(), MergeSection(a, ev, c.items).1[0], Gate);
  }

  lemma ExecReady(a: Aggregator, i: nat, op: Op, c: Choice)
    requires i < |a.perJob|
    ensures ReadyStep(a, op, ExecOp(a, i, op, c).0, ExecOp(a, i, op, c).1)
  {
    match op
    case Handle(ev) => HandleReady(a, i, ev, c);
    case Buffer(ev) => BufferReady(a, i, ev, c.order);
    case Redirect(ev) => RedirectReady(a, i, ev, c);
    case Gate => GateReady(a, c.order);
    case Stream(owner, ev) => StreamReady(a, i, owner, ev, c);
    case Store(_, _) =>
    case Match(owner, ev) => MatchReady(a, i, owner, ev, c);
    case Merge(ev) => MergeReady(a, i, ev, c);
    case Emit(_) =>
  }

  /** Readys are counted in phase 1 and only there; the transition happens at the expected count. */
  ghost predicate ReadyGate(s: System, total: int) {
    && Readys(s) <= total
    && (!s.agg.readyEmitted ==> Readys(s) == total)
    && (s.agg.readyEmitted ==> s.agg.readyCount >= s.agg.expected)
    && (!s.agg.readyEmitted && |s.jobs| > 0 ==> s.agg.readyCount < s.agg.expected)
  }

  lemma ExecReadys(s: System, i: nat, c: Choice)
    requires Lifecycle(s) && Enabled(s, Exec(i, c))
    ensures var after := ExecOp(s.agg, i, s.jobs[i].todo[0], c);
      Readys(Next(s, Exec(i, c))) - Readys(s)
        == after.0.readyCount + Sum(after.1, ReadyAhead()) - s.agg.readyCount - ReadyAhead()(s.jobs[i].todo[0])
  {
    var g := s.jobs[i];
    var t := Next(s, Exec(i, c));
    StepLoad(s.jobs, i, t.jobs[i], IsReady(), ReadyAhead());
    SumAppend(ExecOp(s.agg, i, g.todo[0], c).1, g.todo[1..], ReadyAhead());
  }

  lemma ExecReadyGate(s: System, i: nat, c: Choice, total: int)
    requires Lifecycle(s) && Split(s) && ReadyGate(s, total) && Enabled(s, Exec(i, c))
    ensures ReadyGate(Next(s, Exec(i, c)), total)
  {
    var op := s.jobs[i].todo[0];
    NotClosed(s, i);
    ExecReadys(s, i, c);
    ExecReady(s.agg, i, op, c);
    ExecLifecycle(s.agg, i, op, c);
    if !s.agg.readyEmitted {
      assert EarlyOp(op);
      assert s.agg.phase.Closed? ==> op == Emit([OuterResult]);
    }
  }

  lemma CallReadyGate(s: System, i: nat, total: int)
    requires Lifecycle(s) && ReadyGate(s, total) && Enabled(s, Call(i))
    ensures ReadyGate(Next(s, Call(i)), total)
  {
    StepLoad(s.jobs, i, Next(s, Call(i)).jobs[i], IsReady(), ReadyAhead());
    SumSmall(ReadyAhead(), Handle(s.jobs[i].rest[0]), Gate);
  }

  lemma MarkReadyGate(s: System, i: nat, total: int)
    requires Lifecycle(s) && ReadyGate(s, total) && Enabled(s, Mark(i))
    ensures ReadyGate(Next(s, Mark(i)), total)
  {
    assert ControlOk(s.jobs[i]);
    StepLoad(s.jobs, i, Next(s, Mark(i)).jobs[i], IsReady(), ReadyAhead());
    SumSmall(ReadyAhead(), Emit([OuterResult]), Gate);
  }

  lemma NextReadyGate(s: System, act: Action, traces: seq<seq<Event>>, total: int)
    requires Good(s, traces) && Split(s) && ReadyGate(s, total) && Enabled(s, act)
    ensures ReadyGate(Next(s, act), total)
  {
    if act.Call? {
      CallReadyGate(s, act.i, total);
    } else if act.Exec? {
      ExecReadyGate(s, act.i, act.c, total);
    } else if act.Mark? {
      MarkReadyGate(s, act.i, total);
    } else {
      StageReadyGate(s, act, total);
    }
  }

  lemma StageReadyGate(s: System, act: Action, total: int)
    requires Lifecycle(s) && ReadyGate(s, total) && Enabled(s, act) && !act.Call? && !act.Exec? && !act.Mark?
    ensures ReadyGate(Next(s, act), total)
  {
    var t := Next(s, act);
    forall j | 0 <= j < |s.jobs|
      ensures Load(IsReady(), ReadyAhead())(t.jobs[j]) == Load(IsReady(), ReadyAhead())(s.jobs[j])
    {
      assert t.jobs[j].rest == s.jobs[j].rest && t.jobs[j].todo == s.jobs[j].todo;
    }
    SumPointwise(t.jobs, s.jobs, Load(IsReady(), ReadyAhead()), Load(IsReady(), ReadyAhead()));
  }

  // ----- the one-shot outer events -----

  ghost function Is(x: Event): Event -> int { (ev: Event) => if ev == x then 1 else 0 }
  ghost function Nothing(): Event -> int { (ev: Event) => 0 }
  ghost function EmitWeight(x: Event): Op -> int { (op: Op) => if op.Emit? then Sum(op.evs, Is(x)) else 0 }
  ghost function MainTodo(m: Main): seq<Op> { if m.Finishing? then m.todo else [] }

  /** Occurrences of the outer event x in the log or on its way there. */
  ghost function Fired(s: System, x: Event): int {
    Sum(s.agg.log, Is(x)) + Sum(s.jobs, Load(Nothing(), EmitWeight(x))) + Sum(MainTodo(s.main), EmitWeight(x))
  }

  ghost predicate OneShot(s: System) {
    && Fired(s, SyntheticReady) == (if s.agg.readyEmitted then 1 else 0)
    && Fired(s, OuterResult) == (if s.agg.finalEmitted then 1 else 0)
  }

  lemma JobEventsWeigh0(evs: seq<Event>, x: Event)
    requires x.source.Outer? && forall ev | ev in evs :: ev.source.Job?
    ensures Sum(evs, Is(x)) == 0
  {
    SumConstant(evs, 0, Is(x));
  }

  lemma GateFired(a: Aggregator, order: seq<nat>, x: Event)
    ensures TransitionGate(a, order).0.log == a.log
    ensures Sum(TransitionGate(a, order).1, EmitWeight(x))
         == if TransitionGate(a, order).0.readyEmitted && !a.readyEmitted then Is(x)(SyntheticReady) else 0
  {
    if a.readyCount >= a.expected && !a.readyEmitted {
      ReplayWeighs0(a.perJob, order, EmitWeight(x));
      SumAppend([Emit([SyntheticReady])], Replay(a.perJob, order), EmitWeight(x));
      SumSmall(EmitWeight(x), Emit([SyntheticReady]), Gate);
      SumSmall(Is(x), SyntheticReady, SyntheticReady);
    }
  }

  lemma BufferFired(a: Aggregator, i: nat, ev: Event, order: seq<nat>, x: Event, traces: seq<seq<Event>>)
    requires i < |a.perJob| && PerJobOk(a.perJob[i], i, traces)
    requires x.source.Outer? && ev.source.Job?
    ensures BufferSection(a, i, ev, order).0.log == a.log
    ensures Sum(BufferSection(a, i, ev, order).1, EmitWeight(x))
         == if BufferSection(a, i, ev, order).0.readyEmitted && !a.readyEmitted then Is(x)(SyntheticReady) else 0
  {
    var p := a.perJob[i];
    if !a.phase.Buffering? {
      SumSmall(EmitWeight(x), Redirect(ev), Gate);
    } else if ev.KeyedEnd() {
      var evs := if ev.toolId in p.pending then [p.pending[ev.toolId], ev] else [ev];
      JobEventsWeigh0(evs, x);
      SumSmall(EmitWeight(x), Emit(evs), Gate);
    } else {
      var q := PerJob(if ev.KeyedStart() then p.pending[ev.toolId := ev] else p.pending, p.initBuffer + [ev]);
      var a1 := a.(perJob := a.perJob[i := q],
                   readyCount := if ev.kind.Ready? then a.readyCount + 1 else a.readyCount);
      GateFired(a1, order, x);
      assert BufferSection(a, i, ev, order) == TransitionGate(a1, order);
    }
  }

  ghost predicate FiredStep(a: Aggregator, op: Op, b: Aggregator, ops: seq<Op>, x: Event) {
    Sum(b.log, Is(x)) + Sum(ops, EmitWeight(x)) == Sum(a.log, Is(x)) + EmitWeight(x)(op)
      + if b.readyEmitted && !a.readyEmitted then Is(x)(SyntheticReady) else 0
  }

  lemma SingleFired(op: Op, x: Event)
    requires x.source.Outer? && (op.Emit? ==> forall ev | ev in op.evs :: ev.source.Job?)
    ensures Sum([op], EmitWeight(x)) == 0
  {
    if op.Emit? {
      JobEventsWeigh0(op.evs, x);
    }
    SumSmall(EmitWeight(x), op, Gate);
  }

  lemma StreamFired(a: Aggregator, owner: nat, ev: Event, x: Event)
    requires x.source.Outer? && ev.source.Job?
    ensures Sum(StreamSection(a, owner, ev), EmitWeight(x)) == 0
  {
    SingleFired(Store(owner, ev), x);
    SingleFired(Match(owner, ev), x);
    SingleFired(Merge(ev), x);
    SingleFired(Emit([ev]), x);
  }

  lemma ExecFired(a: Aggregator, i: nat, op: Op, c: Choice, x: Event, traces: seq<seq<Event>>)
    requires i < |a.perJob| == |traces|
    requires forall j | 0 <= j < |traces| :: PerJobOk(a.perJob[j], j, traces)
    requires OpOk(op, i, traces) && x.source.Outer?
    ensures FiredStep(a, op, ExecOp(a, i, op, c).0, ExecOp(a, i, op, c).1, x)
  {
    match op
    case Handle(ev) => SingleFired(Buffer(ev), x); SingleFired(Stream(i, ev), x);
    case Buffer(ev) => BufferFired(a, i, ev, c.order, x, traces);
    case Redirect(ev) => SingleFired(Stream(i, ev), x);
    case Gate => if a.phase.Buffering? { GateFired(a, c.order, x); }
    case Stream(owner, ev) => StreamFired(a, owner, ev, x);
    case Store(_, _) =>
    case Match(owner, ev) =>
      assert PerJobOk(a.perJob[owner], owner, traces);
      SingleFired(MatchSection(a, owner, ev).1[0], x);
    case Merge(ev) => SingleFired(MergeSection(a, ev, c.items).1[0], x);
    case Emit(evs) => SumAppend(a.log, evs, Is(x));
  }

  lemma ExecStepFired(s: System, i: nat, c: Choice, x: Event, traces: seq<seq<Event>>)
    requires Good(s, traces) && Enabled(s, Exec(i, c)) && x.source.Outer?
    ensures var t := Next(s, Exec(i, c));
      Fired(t, x) == Fired(s, x) + if t.agg.readyEmitted && !s.agg.readyEmitted then Is(x)(SyntheticReady) else 0
  {
    var g := s.jobs[i];
    var op := g.todo[0];
    assert OpOk(op, i, traces);
    ExecFired(s.agg, i, op, c, x, traces);
    StepLoad(s.jobs, i, Next(s, Exec(i, c)).jobs[i], Nothing(), EmitWeight(x));
    SumAppend(ExecOp(s.agg, i, op, c).1, g.todo[1..], EmitWeight(x));
  }

  lemma ExecOneShot(s: System, i: nat, c: Choice, traces: seq<seq<Event>>)
    requires Good(s, traces) && OneShot(s) && Enabled(s, Exec(i, c))
    ensures OneShot(Next(s, Exec(i, c)))
  {
    ExecLifecycle(s.agg, i, s.jobs[i].todo[0], c);
    ExecReady(s.agg, i, s.jobs[i].todo[0], c);
    ExecStepFired(s, i, c, SyntheticReady, traces);
    ExecStepFired(s, i, c, OuterResult, traces);
  }

  lemma QuietFired(s: System, i: nat, g: Goroutine, x: Event)
    requires i < |s.jobs| && g.todo == s.jobs[i].todo
    ensures Sum(s.jobs[i := g], Load(Nothing(), EmitWeight(x))) == Sum(s.jobs, Load(Nothing(), EmitWeight(x)))
  {
    SumConstant(s.jobs[i].rest, 0, Nothing());
    SumConstant(g.rest, 0, Nothing());
    StepLoad(s.jobs, i, g, Nothing(), EmitWeight(x));
  }

  lemma ResultFired(x: Event)
    ensures Sum([Emit([OuterResult])], EmitWeight(x)) == Is(x)(OuterResult)
  {
    SumSmall(EmitWeight(x), Emit([OuterResult]), Gate);
    SumSmall(Is(x), OuterResult, OuterResult);
  }

  lemma CallFired(s: System, i: nat, x: Event)
    requires Lifecycle(s) && Enabled(s, Call(i))
    ensures Fired(Next(s, Call(i)), x) == Fired(s, x)
  {
    var t := Next(s, Call(i));
    SumConstant(s.jobs[i].rest, 0, Nothing());
    SumConstant(t.jobs[i].rest, 0, Nothing());
    StepLoad(s.jobs, i, t.jobs[i], Nothing(), EmitWeight(x));
    SumSmall(EmitWeight(x), Handle(s.jobs[i].rest[0]), Gate);
  }

  lemma MarkFired(s: System, i: nat, x: Event)
    requires Lifecycle(s) && Enabled(s, Mark(i))
    ensures Fired(Next(s, Mark(i)), x) == Fired(s, x)
      + if Next(s, Mark(i)).agg.finalEmitted && !s.agg.finalEmitted then Is(x)(OuterResult) else 0
  {
    assert ControlOk(s.jobs[i]);
    StepLoad(s.jobs, i, Next(s, Mark(i)).jobs[i], Nothing(), EmitWeight(x));
    ResultFired(x);
  }

  lemma EmitFinalFired(s: System, x: Event)
    requires Lifecycle(s) && Enabled(s, EmitFinal)
    ensures Fired(Next(s, EmitFinal), x) == Fired(s, x)
  {
    SumAppend(s.agg.log, [OuterResult], Is(x));
    SumSmall(Is(x), OuterResult, OuterResult);
    ResultFired(x);
  }

  lemma NextFired(s: System, act: Action, x: Event, traces: seq<seq<Event>>)
    requires Good(s, traces) && Enabled(s, act) && !act.Exec?
    requires x == SyntheticReady || x == OuterResult
    ensures Fired(Next(s, act), x) == Fired(s, x)
      + if Next(s, act).agg.finalEmitted && !s.agg.finalEmitted then Is(x)(OuterResult) else 0
  {
    var t := Next(s, act);
    match act
    case Launch => QuietFired(s, s.main.next, t.jobs[s.main.next], x);
    case Wrap(i) => QuietFired(s, i, t.jobs[i], x);
    case Call(i) => CallFired(s, i, x);
    case Return(i) => QuietFired(s, i, t.jobs[i], x);
    case Release(i) => QuietFired(s, i, t.jobs[i], x);
    case Mark(i) => MarkFired(s, i, x);
    case Leave(i) => QuietFired(s, i, t.jobs[i], x);
    case Finalize => ResultFired(x);
    case EmitFinal => EmitFinalFired(s, x);
    case MergeResults =>
  }

  lemma NextOneShot(s: System, act: Action, traces: seq<seq<Event>>)
    requires Good(s, traces) && OneShot(s) && Enabled(s, act)
    ensures OneShot(Next(s, act))
  {
    if act.Exec? {
      ExecOneShot(s, act.i, act.c, traces);
    } else {
      NextFired(s, act, SyntheticReady, traces);
      NextFired(s, act, OuterResult, traces);
    }
  }
}

/**
 When the outer Ready is the first entry of the outer log, as the header of aggregate_sink.go
 has it. Two things can come before it: a ToolEnd forwarded in phase 1, and a live event sent
 while the goroutine that opened phase 2 has not appended the Ready yet.
 */
module FanoutReadyFirst {
  import opened Sums
  import opened AggregatorSpec
  import opened Fanout
  import opened FanoutShape
  import opened FanoutDelivery
  import opened FanoutOutcome
  import opened FanoutResults
  import opened FanoutTools
  import opened FanoutTasks
  import opened FanoutProgress
  import opened FanoutLimits
  import opened FanoutOrder
  import opened FanoutReplay
  import opened FanoutBacklog
  import opened FanoutPlans
  import opened FanoutOpening

  /** Some keyed ToolEnd can be sent in phase 1. */
  ghost predicate EarlyEnd(traces: seq<seq<Event>>) {
    exists i, k ::
      0 <= i < |traces| && 0 <= k < |traces[i]| && Stamp(i, traces[i])[k].KeyedEnd() && InTime(traces, i, k)
  }

  /** Phase 2 can open from group r while event p of another group is still to be forwarded. */
  ghost predicate LeftOver(traces: seq<seq<Event>>, launched: nat, prog: seq<nat>, r: nat, i: nat, p: nat) {
    && Fires(traces, launched, prog, r) && i < |traces| && i != r
    && prog[i] <= p < |traces[i]| && Forwarded(Stamp(i, traces[i])[p])
  }

  ghost predicate Overtakable(traces: seq<seq<Event>>) {
    exists launched: nat, prog: seq<nat>, r: nat, i: nat, p: nat :: LeftOver(traces, launched, prog, r, i, p)
  }

  // ----- what a goroutine will still log -----

  predicate LoudOp(op: Op) {
    match op
    case Handle(ev) => Forwarded(ev)
    case Buffer(ev) => Forwarded(ev)
    case Redirect(ev) => Forwarded(ev)
    case Gate => false
    case Stream(_, ev) => Forwarded(ev)
    case Store(_, _) => false
    case Match(_, _) => true
    case Merge(_) => true
    case Emit(_) => true
  }

  ghost predicate Loud(g: Goroutine) {
    (exists ev :: ev in g.rest && Forwarded(ev)) || (exists op :: op in g.todo && LoudOp(op))
  }

  /** Goroutine r opened phase 2 and is about to append the outer Ready. */
  ghost predicate Holding(s: System, traces: seq<seq<Event>>, r: nat) {
    && Inv(s, traces) && Tasks(s) && s.agg.readyEmitted && |s.jobs| == |traces|
    && r < |s.jobs| && s.jobs[r].todo != [] && s.jobs[r].todo[0] == Emit([SyntheticReady])
  }

  lemma HoldingStage(s: System, traces: seq<seq<Event>>, r: nat)
    requires Holding(s, traces, r)
    ensures s.jobs[r].stage.Turning? && s.agg.phase.Streaming? && !s.agg.finalEmitted && s.main.Launching?
  {
    assert ControlOk(s.jobs[r]);
  }

  lemma HoldingNext(s: System, traces: seq<seq<Event>>, r: nat, act: Action)
    requires Holding(s, traces, r) && Enabled(s, act) && !Own(act, r)
    ensures Holding(Next(s, act), traces, r)
  {
    HoldingStage(s, traces, r);
    NextInv(s, act, traces);
    NextTasks(s, act, traces);
    if act.Exec? {
      ReadyStays(s.agg, act.i, s.jobs[act.i].todo[0], act.c);
    }
  }

  /** In phase 2 an operation that logs nothing itself leaves something to log iff it had to. */
  lemma OpLoud(a: Aggregator, j: nat, op: Op, c: Choice)
    requires j < |a.perJob| && a.phase.Streaming? && !op.Emit?
    requires op.Match? || op.Store? ==> op.owner < |a.perJob|
    ensures (exists o :: o in ExecOp(a, j, op, c).1 && LoudOp(o)) <==> LoudOp(op)
    ensures ExecOp(a, j, op, c).0.log == a.log
  {
    var ops := ExecOp(a, j, op, c).1;
    if LoudOp(op) {
      assert LoudOp(ops[0]);
    }
  }

  lemma TodoLoud(g: Goroutine, ops: seq<Op>)
    requires g.todo != [] && ((exists o :: o in ops && LoudOp(o)) <==> LoudOp(g.todo[0]))
    ensures Loud(g.(todo := ops + g.todo[1..])) <==> Loud(g)
  {
    assert forall o :: o in ops + g.todo[1..] <==> o in ops || o in g.todo[1..];
    assert forall o :: o in g.todo <==> o == g.todo[0] || o in g.todo[1..];
  }

  lemma ExecLoud(s: System, traces: seq<seq<Event>>, r: nat, j: nat, c: Choice)
    requires Holding(s, traces, r) && Enabled(s, Exec(j, c)) && !s.jobs[j].todo[0].Emit?
    ensures Loud(Next(s, Exec(j, c)).jobs[j]) <==> Loud(s.jobs[j])
    ensures Next(s, Exec(j, c)).agg.log == s.agg.log
  {
    HoldingStage(s, traces, r);
    assert OpOk(s.jobs[j].todo[0], j, traces);
    OpLoud(s.agg, j, s.jobs[j].todo[0], c);
    TodoLoud(s.jobs[j], ExecOp(s.agg, j, s.jobs[j].todo[0], c).1);
  }

  lemma CallLoud(s: System, j: nat)
    requires Enabled(s, Call(j)) && |s.agg.perJob| == |s.jobs|
    ensures Loud(Next(s, Call(j)).jobs[j]) <==> Loud(s.jobs[j])
  {
    var g := s.jobs[j];
    assert forall ev :: ev in g.rest <==> ev == g.rest[0] || ev in g.rest[1..];
    assert Handle(g.rest[0]) in Next(s, Call(j)).jobs[j].todo;
  }

  /** Any step but an append leaves the log, and what each other goroutine will log, as they were. */
  ghost predicate SameLoud(s: System, t: System, j: nat)
    requires j < |s.jobs|
  {
    t.agg.log == s.agg.log && |t.jobs| == |s.jobs| && (Loud(t.jobs[j]) <==> Loud(s.jobs[j]))
  }

  lemma StepLoud(s: System, traces: seq<seq<Event>>, r: nat, act: Action, j: nat)
    requires Holding(s, traces, r) && Enabled(s, act) && !Own(act, r) && j < |s.jobs| && j != r
    requires act.Exec? ==> !s.jobs[act.i].todo[0].Emit?
    ensures SameLoud(s, Next(s, act), j)
  {
    if act.Exec? {
      ExecLoud(s, traces, r, act.i, act.c);
    } else {
      HoldingStage(s, traces, r);
      if act.Mark? {
        MarkLoud(s, traces, r, act.i);
      }
      QuietLoud(s, act, j);
    }
  }

  lemma QuietLoud(s: System, act: Action, j: nat)
    requires Lifecycle(s) && Enabled(s, act) && !act.Exec? && !act.EmitFinal? && j < |s.jobs|
    requires act.Mark? ==> Next(s, act).jobs[act.i].todo == [] && Next(s, act).agg.log == s.agg.log
    ensures SameLoud(s, Next(s, act), j)
  {
    if act.Call? {
      CallLoud(s, act.i);
    } else if act.Mark? {
      assert ControlOk(s.jobs[act.i]);
    } else {
      StageLoud(s, act, j);
    }
  }

  lemma StageLoud(s: System, act: Action, j: nat)
    requires Lifecycle(s) && Enabled(s, act) && j < |s.jobs|
    requires act.Launch? || act.Wrap? || act.Return? || act.Release? || act.Leave? || act.Finalize? || act.MergeResults?
    ensures SameLoud(s, Next(s, act), j)
  {
    assert Next(s, act).jobs[j].rest == s.jobs[j].rest && Next(s, act).jobs[j].todo == s.jobs[j].todo;
  }

  lemma MarkEmpty(a: Aggregator)
    requires !MarkDoneSection(a).0.finalEmitted
    ensures MarkDoneSection(a).1 == [] && MarkDoneSection(a).0.log == a.log
  {
  }

  lemma MarkLoud(s: System, traces: seq<seq<Event>>, r: nat, i: nat)
    requires Holding(s, traces, r) && Enabled(s, Mark(i)) && i != r
    ensures Next(s, Mark(i)).jobs[i].todo == [] && Next(s, Mark(i)).agg.log == s.agg.log
  {
    HoldingNext(s, traces, r, Mark(i));
    HoldingStage(Next(s, Mark(i)), traces, r);
    MarkEmpty(s.agg);
  }

  // ----- a left-over event overtakes -----

  lemma OtherHolder(jobs: seq<Goroutine>, r: nat) returns (h: nat)
    requires r < |jobs| && Sum(jobs, SlotWeight()) > 1
    ensures h < |jobs| && h != r && HoldsSlot(jobs[h])
  {
    var without := jobs[r := Goroutine(Waiting, [], [])];
    SumUpdate(jobs, r, Goroutine(Waiting, [], []), SlotWeight());
    h := SomeHolder(without);
  }

  lemma FreeSlot(s: System, traces: seq<seq<Event>>, r: nat, i: nat) returns (act: Action)
    requires Holding(s, traces, r) && i < |s.jobs| && s.jobs[i].stage.Waiting?
    ensures Enabled(s, act) && !Own(act, r)
  {
    HoldingStage(s, traces, r);
    if s.slots < MAX_JOBS {
      act := Launch;
    } else {
      var h := OtherHolder(s.jobs, r);
      act := GoroutineMoves(s, h);
    }
  }

  lemma NotGone(s: System, i: nat)
    requires Lifecycle(s) && i < |s.jobs| && Loud(s.jobs[i])
    ensures !s.jobs[i].stage.Gone?
  {
    assert ControlOk(s.jobs[i]);
  }

  /** While goroutine i has something to log, a step is possible that is not goroutine r's. */
  lemma Another(s: System, traces: seq<seq<Event>>, r: nat, i: nat) returns (act: Action)
    requires Holding(s, traces, r) && i < |s.jobs| && i != r && Loud(s.jobs[i])
    ensures Enabled(s, act) && !Own(act, r)
  {
    NotGone(s, i);
    if s.jobs[i].stage.Waiting? {
      act := FreeSlot(s, traces, r, i);
    } else {
      act := GoroutineMoves(s, i);
    }
  }

  lemma EmitOnly(a: Aggregator, j: nat, op: Op, c: Choice)
    requires j < |a.perJob| && op.Emit?
    ensures ExecOp(a, j, op, c) == (EmitSection(a, op.evs), [])
  {
  }

  lemma AppendSome(s: System, traces: seq<seq<Event>>, j: nat, c: Choice)
    requires Good(s, traces) && Enabled(s, Exec(j, c)) && s.jobs[j].todo[0].Emit?
    ensures Next(s, Exec(j, c)).agg.log != [] && Next(s, Exec(j, c)).agg.readyEmitted == s.agg.readyEmitted
  {
    var op := s.jobs[j].todo[0];
    assert OpOk(op, j, traces);
    assert op.evs != [];
    EmitOnly(s.agg, j, op, c);
  }

  lemma AnotherStep(s: System, traces: seq<seq<Event>>, r: nat, i: nat) returns (act: Action)
    requires Holding(s, traces, r) && i < |s.jobs| && i != r && Loud(s.jobs[i])
    ensures Enabled(s, act) && Holding(Next(s, act), traces, r)
    ensures Next(s, act).agg.log != [] || (i < |Next(s, act).jobs| && Loud(Next(s, act).jobs[i]))
    ensures 0 <= Cost(Next(s, act)) < Cost(s)
  {
    act := Another(s, traces, r, i);
    HoldingNext(s, traces, r, act);
    StepCost(s, act, traces);
    CostNonNegative(Next(s, act));
    if act.Exec? && s.jobs[act.i].todo[0].Emit? {
      AppendSome(s, traces, act.i, act.c);
    } else {
      StepLoud(s, traces, r, act, i);
    }
  }

  lemma {:induction false} OthersFirst(s: System, traces: seq<seq<Event>>, r: nat, i: nat)
    returns (acts: seq<Action>, t: System)
    requires Holding(s, traces, r) && i < |s.jobs| && i != r && (s.agg.log != [] || Loud(s.jobs[i]))
    ensures Runs(s, acts, t) && Holding(t, traces, r) && t.agg.log != []
    decreases Cost(s)
  {
    if s.agg.log != [] {
      acts, t := [], s;
    } else {
      var act := AnotherStep(s, traces, r, i);
      var more, end := OthersFirst(Next(s, act), traces, r, i);
      acts, t := [act] + more, end;
    }
  }

  /** What goroutine r is about to append is not in the log yet. */
  lemma ReadyNotLogged(s: System, traces: seq<seq<Event>>, r: nat)
    requires Holding(s, traces, r)
    ensures SyntheticReady !in s.agg.log
  {
    var todo := s.jobs[r].todo;
    FiredParts(s, SyntheticReady);
    Occurs(s.agg.log, SyntheticReady);
    OpsNonNegative(todo[1..], SyntheticReady);
    SumSmall(Is(SyntheticReady), SyntheticReady, SyntheticReady);
    assert Sum(todo, EmitWeight(SyntheticReady)) >= 1;
  }

  lemma StillHolds(s: System, traces: seq<seq<Event>>, acts: seq<Action>, t: System)
    requires Runs(s, acts, t) && Lifecycle(s) && s.agg.log != [] && s.agg.log[0] != SyntheticReady
    ensures t.agg.log != [] && t.agg.log[0] != SyntheticReady
  {
    RunMonotone(s, acts, t);
  }

  /** The others are as far as the plan has them, so a left-over event is still to be logged. */
  lemma LeftOverLoud(mid: System, traces: seq<seq<Event>>, launched: nat, prog: seq<nat>, r: nat, c: Choice, i: nat,
                     p: nat)
    requires LeftOver(traces, launched, prog, r, i, p) && AtOpening(mid, traces, launched, prog, r, c)
    ensures i < |Next(mid, Exec(r, c)).jobs| && Loud(Next(mid, Exec(r, c)).jobs[i])
  {
    var trace := Stamp(i, traces[i]);
    assert mid.jobs[i] == StagedJob(traces, prog, launched, i);
    var rest := mid.jobs[i].rest;
    assert if i < launched then rest[p - prog[i]] == trace[p] else rest[p] == trace[p];
    assert trace[p] in rest;
    ExecElsewhere(mid, r, c, i);
  }

  lemma OpeningHolds(mid: System, traces: seq<seq<Event>>, r: nat, c: Choice)
    requires Before(mid, traces) && Opens(mid, r, c) && Tasks(mid)
    ensures Holding(Next(mid, Exec(r, c)), traces, r) && Next(mid, Exec(r, c)).agg.log == mid.agg.log
  {
    NextInv(mid, Exec(r, c), traces);
    NextTasks(mid, Exec(r, c), traces);
    OpeningTodo(mid.agg, r, mid.jobs[r].todo[0], c);
  }

  lemma OpeningTodo(a: Aggregator, r: nat, op: Op, c: Choice)
    requires r < |a.perJob| && !a.readyEmitted && ExecOp(a, r, op, c).0.readyEmitted
    ensures var (b, ops) := ExecOp(a, r, op, c);
      ops != [] && ops[0] == Emit([SyntheticReady]) && b.log == a.log
  {
  }

  lemma ReachHolding(traces: seq<seq<Event>>, launched: nat, prog: seq<nat>, r: nat, i: nat, p: nat)
    returns (acts: seq<Action>, t: System)
    requires LeftOver(traces, launched, prog, r, i, p)
    ensures Runs(Init(traces), acts, t) && Holding(t, traces, r) && i < |t.jobs| && Loud(t.jobs[i])
  {
    var c := Choice(Range(|traces|), []);
    var a1, mid := ReachOpening(traces, launched, prog, r, c);
    RunsOne(Init(traces), a1, mid, Exec(r, c));
    acts, t := a1 + [Exec(r, c)], Next(mid, Exec(r, c));
    InitGood(traces);
    RunTasks(Init(traces), a1, mid, traces);
    OpeningHolds(mid, traces, r, c);
    LeftOverLoud(mid, traces, launched, prog, r, c, i, p);
  }

  /** A live event is logged while goroutine r has not appended the outer Ready. */
  lemma LiveFirst(traces: seq<seq<Event>>, launched: nat, prog: seq<nat>, r: nat, i: nat, p: nat)
    returns (acts: seq<Action>, t: System)
    requires LeftOver(traces, launched, prog, r, i, p)
    ensures Runs(Init(traces), acts, t) && t.agg.log != [] && t.agg.log[0] != SyntheticReady
  {
    var a1, s1 := ReachHolding(traces, launched, prog, r, i, p);
    var a2, s2 := OthersFirst(s1, traces, r, i);
    RunsAppend(Init(traces), a1, s1, a2, s2);
    acts, t := a1 + a2, s2;
    ReadyNotLogged(s2, traces, r);
  }

  // ----- a ToolEnd of phase 1 comes first -----

  /** Goroutine i is about to append a ToolEnd in phase 1. */
  lemma ReachEnd(traces: seq<seq<Event>>, i: nat, k: nat) returns (acts: seq<Action>, s: System, c: Choice)
    requires i < |traces| && k < |traces[i]| && Stamp(i, traces[i])[k].KeyedEnd() && InTime(traces, i, k)
    ensures Runs(Init(traces), acts, s) && !s.agg.readyEmitted && i < |s.jobs| && |s.jobs| == |s.agg.perJob|
    ensures s.jobs[i].todo != [] && s.jobs[i].todo[0].Emit? && ValidOrder(c.order, |s.jobs|)
  {
    var trace := Stamp(i, traces[i]);
    var a1, s1, base := ReachInTime(traces, i, k);
    var a2, s2 := SendOne(s1, i, trace, k, base);
    RunsAppend(Init(traces), a1, s1, a2, s2);
    BufferTable(s1.agg, i, trace[k], AnyOrder(s1).order);
    acts, s, c := a1 + a2, s2, AnyOrder(s1);
  }

  lemma AppendFirst(s: System, traces: seq<seq<Event>>, i: nat, c: Choice)
    requires Inv(s, traces) && !s.agg.readyEmitted && Enabled(s, Exec(i, c)) && s.jobs[i].todo[0].Emit?
    ensures Next(s, Exec(i, c)).agg.log != [] && Next(s, Exec(i, c)).agg.log[0] != SyntheticReady
  {
    NextSplit(s, Exec(i, c), traces);
    AppendSome(s, traces, i, c);
    EarlyHead(Next(s, Exec(i, c)));
  }

  lemma EndFirst(traces: seq<seq<Event>>, i: nat, k: nat) returns (acts: seq<Action>, t: System)
    requires i < |traces| && k < |traces[i]| && Stamp(i, traces[i])[k].KeyedEnd() && InTime(traces, i, k)
    ensures Runs(Init(traces), acts, t) && t.agg.log != [] && t.agg.log[0] != SyntheticReady
  {
    var a1, s1, c := ReachEnd(traces, i, k);
    InitInv(traces);
    RunInv(Init(traces), a1, s1, traces);
    AppendFirst(s1, traces, i, c);
    RunsOne(Init(traces), a1, s1, Exec(i, c));
    acts, t := a1 + [Exec(i, c)], Next(s1, Exec(i, c));
  }

  lemma EarlyHead(t: System)
    requires Split(t) && !t.agg.readyEmitted && t.agg.log != []
    ensures t.agg.log[0] != SyntheticReady
  {
    assert t.agg.log[0] in t.agg.log;
  }

  // ----- without either the Ready is first -----

  /** Nothing is logged and nothing is about to be. */
  ghost predicate Hush(s: System) {
    s.agg.log == [] && forall j | 0 <= j < |s.jobs| :: forall op | op in s.jobs[j].todo :: !op.Emit?
  }

  /** Until enough Readys were counted some group has not finished. */
  lemma NotYetFinal(s: System, traces: seq<seq<Event>>)
    requires Inv(s, traces) && !s.agg.readyEmitted && |s.jobs| == |traces| > 0 && ReadysSent(traces) >= |traces|
    ensures !s.agg.finalEmitted
  {
    if s.agg.finalEmitted {
      forall g | g in s.jobs ensures Load(IsReady(), ReadyAhead())(g) == 0 {
        var j :| 0 <= j < |s.jobs| && s.jobs[j] == g;
        assert ControlOk(s.jobs[j]) && Counted(s.jobs[j]);
        SumSmall(ReadyAhead(), Emit([OuterResult]), Gate);
      }
      SumConstant(s.jobs, 0, Load(IsReady(), ReadyAhead()));
      assert false;
    }
  }

  /** The section of a keyed ToolEnd in phase 1 means the ToolEnd was in time. */
  lemma NoEndBuffered(s: System, traces: seq<seq<Event>>, i: nat)
    requires Before(s, traces) && !EarlyEnd(traces)
    requires i < |traces| == |s.jobs| && s.jobs[i].todo != [] && s.jobs[i].todo[0].Buffer?
    ensures !s.jobs[i].todo[0].ev.KeyedEnd()
  {
    var ev := s.jobs[i].todo[0].ev;
    OpenerAhead(s, traces, i, ev);
    BufferedInTime(s, i, Upcoming(s.jobs[i].todo[1..], i, i) + s.jobs[i].rest, traces);
    AheadBuffered(s.jobs[i], i);
  }

  lemma QuietOp(a: Aggregator, j: nat, op: Op, c: Choice)
    requires j < |a.perJob| && !op.Emit? && EarlyOp(op) && !a.readyEmitted && !ExecOp(a, j, op, c).0.readyEmitted
    requires op.Buffer? ==> !op.ev.KeyedEnd()
    ensures ExecOp(a, j, op, c).0.log == a.log
    ensures forall o | o in ExecOp(a, j, op, c).1 :: !o.Emit?
  {
  }

  lemma ExecHush(s: System, traces: seq<seq<Event>>, j: nat, c: Choice)
    requires Before(s, traces) && Hush(s) && Enabled(s, Exec(j, c)) && !EarlyEnd(traces)
    requires !Next(s, Exec(j, c)).agg.readyEmitted
    ensures Hush(Next(s, Exec(j, c)))
  {
    var op := s.jobs[j].todo[0];
    assert EarlyOp(op);
    if op.Buffer? {
      NoEndBuffered(s, traces, j);
    }
    QuietOp(s.agg, j, op, c);
    assert forall o | o in Next(s, Exec(j, c)).jobs[j].todo :: o in ExecOp(s.agg, j, op, c).1 || o in s.jobs[j].todo;
  }

  lemma NextHush(s: System, traces: seq<seq<Event>>, act: Action)
    requires Before(s, traces) && Hush(s) && Enabled(s, act) && !EarlyEnd(traces) && !Next(s, act).agg.readyEmitted
    requires |s.jobs| == |traces| > 0 && ReadysSent(traces) >= |traces|
    ensures Hush(Next(s, act))
  {
    if act.Exec? {
      ExecHush(s, traces, act.i, act.c);
    } else {
      NextInv(s, act, traces);
      NotYetFinal(Next(s, act), traces);
      QuietHush(s, act);
    }
  }

  lemma QuietHush(s: System, act: Action)
    requires Lifecycle(s) && Hush(s) && Enabled(s, act) && !act.Exec? && !Next(s, act).agg.finalEmitted
    ensures Hush(Next(s, act))
  {
  }

  lemma {:induction false} RunHush(s: System, traces: seq<seq<Event>>, acts: seq<Action>, t: System)
    requires Before(s, traces) && Hush(s) && Runs(s, acts, t) && !EarlyEnd(traces) && !t.agg.readyEmitted
    requires |s.jobs| == |traces| > 0 && ReadysSent(traces) >= |traces|
    ensures Hush(t)
    decreases acts
  {
    if acts != [] {
      if Next(s, acts[0]).agg.readyEmitted {
        ReadyForGood(Next(s, acts[0]), acts[1..], t);
      }
      NextBefore(s, acts[0], traces);
      NextHush(s, traces, acts[0]);
      RunHush(Next(s, acts[0]), traces, acts[1..], t);
    }
  }

  lemma {:induction false} InUpcoming(todo: seq<Op>, i: nat, op: Op)
    requires op in todo && (op.Handle? || op.Buffer?)
    ensures op.ev in Upcoming(todo, i, i)
    decreases todo
  {
    if op != todo[0] {
      InUpcoming(todo[1..], i, op);
    }
  }

  /** Before phase 2 what a goroutine will log later is ahead of it. */
  lemma LoudAhead(g: Goroutine, i: nat) returns (ev: Event)
    requires Loud(g) && forall op | op in g.todo :: EarlyOp(op) && !op.Emit?
    ensures ev in Ahead(g, i) && Forwarded(ev)
  {
    if e :| e in g.rest && Forwarded(e) {
      ev := e;
    } else {
      var op :| op in g.todo && LoudOp(op);
      InUpcoming(g.todo, i, op);
      ev := op.ev;
    }
  }

  lemma SuffixIndex(trace: seq<Event>, n: int, ahead: seq<Event>, ev: Event) returns (p: nat)
    requires 0 <= n <= |trace| && trace[n..] == ahead && ev in ahead
    ensures n <= p < |trace| && trace[p] == ev
  {
    var k :| 0 <= k < |ahead| && ahead[k] == ev;
    assert trace[n..][k] == trace[n + k];
    p := n + k;
  }

  lemma ConsumedIndex(ahead: seq<Event>, started: bool, open: set<string>, count: int, trace: seq<Event>, ev: Event)
    returns (p: nat)
    requires Consumed(ahead, started, open, count, trace) && ev in ahead
    ensures |trace| - |ahead| <= p < |trace| && trace[p] == ev
  {
    p := SuffixIndex(trace, |trace| - |ahead|, ahead, ev);
  }

  lemma AheadIndex(s: System, traces: seq<seq<Event>>, j: nat, ev: Event) returns (p: nat)
    requires j < |s.jobs| == |s.agg.perJob| == |traces| && ConsumedAt(s, j, traces) && ev in Ahead(s.jobs[j], j)
    ensures Handled(s, traces, j) <= p < |traces[j]| && Stamp(j, traces[j])[p] == ev
  {
    p := ConsumedIndex(Ahead(s.jobs[j], j), Started(s.jobs[j]), s.agg.perJob[j].pending.Keys, s.agg.readyCount,
      Stamp(j, traces[j]), ev);
  }

  /** When phase 2 opens and nothing can be left over, no other goroutine has anything to log. */
  lemma OthersSilent(mid: System, traces: seq<seq<Event>>, r: nat, c: Choice, j: nat)
    requires Before(mid, traces) && LaunchRoom(mid) && Opens(mid, r, c) && Hush(mid) && !Overtakable(traces)
    requires j < |mid.jobs| == |traces| && j != r
    ensures !Loud(mid.jobs[j])
  {
    if Loud(mid.jobs[j]) {
      var ev := LoudAhead(mid.jobs[j], j);
      assert ConsumedAt(mid, j, traces);
      var p := AheadIndex(mid, traces, j, ev);
      var launched, prog := OpeningPlan(mid, traces, r, c);
      assert LeftOver(traces, launched, prog, r, j, p);
    }
  }

  /** Goroutine r is about to append the Ready to the empty log, and no other will log anything. */
  ghost predicate Clear(s: System, traces: seq<seq<Event>>, r: nat) {
    Holding(s, traces, r) && s.agg.log == [] && forall j | 0 <= j < |s.jobs| && j != r :: !Loud(s.jobs[j])
  }

  lemma OpeningClear(mid: System, traces: seq<seq<Event>>, r: nat, c: Choice)
    requires Before(mid, traces) && LaunchRoom(mid) && Opens(mid, r, c) && Hush(mid) && !Overtakable(traces)
    requires Tasks(mid)
    ensures Clear(Next(mid, Exec(r, c)), traces, r)
  {
    OpeningHolds(mid, traces, r, c);
    var t := Next(mid, Exec(r, c));
    forall j | 0 <= j < |t.jobs| && j != r ensures !Loud(t.jobs[j]) {
      OthersSilent(mid, traces, r, c, j);
      ExecElsewhere(mid, r, c, j);
    }
  }

  lemma OwnIsExec(s: System, traces: seq<seq<Event>>, r: nat, act: Action)
    requires Holding(s, traces, r) && Enabled(s, act) && Own(act, r)
    ensures act.Exec? && Next(s, act).agg.log == s.agg.log + [SyntheticReady]
  {
    HoldingStage(s, traces, r);
  }

  lemma NoAppend(g: Goroutine)
    requires !Loud(g) && g.todo != []
    ensures !g.todo[0].Emit?
  {
    assert g.todo[0] in g.todo;
  }

  lemma ClearNext(s: System, traces: seq<seq<Event>>, r: nat, act: Action)
    requires Clear(s, traces, r) && Enabled(s, act) && !Own(act, r)
    ensures Clear(Next(s, act), traces, r)
  {
    HoldingNext(s, traces, r, act);
    if act.Exec? {
      NoAppend(s.jobs[act.i]);
    }
    SameLog(s, traces, r, act);
    var t := Next(s, act);
    forall j | 0 <= j < |t.jobs| && j != r ensures !Loud(t.jobs[j]) {
      StepLoud(s, traces, r, act, j);
    }
  }

  lemma SameLog(s: System, traces: seq<seq<Event>>, r: nat, act: Action)
    requires Holding(s, traces, r) && Enabled(s, act) && !Own(act, r)
    requires act.Exec? ==> !s.jobs[act.i].todo[0].Emit?
    ensures Next(s, act).agg.log == s.agg.log && |Next(s, act).jobs| == |s.jobs|
  {
    HoldingStage(s, traces, r);
    if act.Exec? {
      ExecLog(s.agg, act.i, s.jobs[act.i].todo[0], act.c);
    }
  }

  lemma {:induction false} ClearRun(s: System, traces: seq<seq<Event>>, r: nat, acts: seq<Action>, t: System)
    requires Clear(s, traces, r) && Runs(s, acts, t)
    ensures t.agg.log != [] ==> t.agg.log[0] == SyntheticReady
    ensures t.main.Merged? ==> t.agg.log != []
    decreases acts
  {
    if acts == [] {
      HoldingStage(s, traces, r);
    } else if Own(acts[0], r) {
      OwnIsExec(s, traces, r, acts[0]);
      NextInv(s, acts[0], traces);
      RunMonotone(Next(s, acts[0]), acts[1..], t);
    } else {
      ClearNext(s, traces, r, acts[0]);
      ClearRun(Next(s, acts[0]), traces, r, acts[1..], t);
    }
  }

  /** Without an early ToolEnd and a left-over event the first entry of the log, in any run, is the Ready. */
  lemma ReadyFirst(traces: seq<seq<Event>>, acts: seq<Action>, t: System)
    requires Runs(Init(traces), acts, t) && ReadysSent(traces) >= |traces| > 0
    requires !EarlyEnd(traces) && !Overtakable(traces)
    ensures t.agg.log != [] ==> t.agg.log[0] == SyntheticReady
    ensures t.main.Merged? ==> t.agg.log != []
  {
    InitBefore(traces);
    if t.agg.readyEmitted {
      var k, mid, r, c := FindOpening(Init(traces), acts, t, traces);
      RunHush(Init(traces), traces, acts[..k], mid);
      ReachedRoom(traces, acts[..k], mid);
      OpeningClear(mid, traces, r, c);
      ClearRun(Next(mid, Exec(r, c)), traces, r, acts[k + 1..], t);
    } else {
      RunHush(Init(traces), traces, acts, t);
      if t.main.Merged? {
        CompleteRun(traces, acts, t);
      }
    }
  }

  lemma ReachedRoom(traces: seq<seq<Event>>, acts: seq<Action>, t: System)
    requires Runs(Init(traces), acts, t)
    ensures LaunchRoom(t) && Tasks(t)
  {
    InitGood(traces);
    RunLaunchRoom(Init(traces), acts, t);
    RunTasks(Init(traces), acts, t, traces);
  }

  // ----- exactly -----

  /** In every complete run the outer Ready is there and nothing comes before it. */
  ghost predicate AlwaysReadyFirst(traces: seq<seq<Event>>) {
    forall acts: seq<Action>, t: System | Runs(Init(traces), acts, t) && t.main.Merged? ::
      t.agg.log != [] && t.agg.log[0] == SyntheticReady
  }

  /** A run that logged something else first can be completed. */
  lemma NotAlways(traces: seq<seq<Event>>, acts: seq<Action>, s: System)
    requires Runs(Init(traces), acts, s) && s.agg.log != [] && s.agg.log[0] != SyntheticReady
    ensures !AlwaysReadyFirst(traces)
  {
    InitGood(traces);
    RunTasks(Init(traces), acts, s, traces);
    var more, t := CanFinish(s, traces);
    RunsAppend(Init(traces), acts, s, more, t);
    StillHolds(s, traces, more, t);
  }

  lemma {:induction false} NoGroupsNoReady(s: System, acts: seq<Action>, t: System)
    requires Runs(s, acts, t) && |s.jobs| == 0 && SyntheticReady !in s.agg.log
    requires s.main.Finishing? ==> s.main.todo == [] || s.main.todo == [Emit([OuterResult])]
    ensures SyntheticReady !in t.agg.log
    decreases acts
  {
    if acts != [] {
      NoGroupsNoReady(Next(s, acts[0]), acts[1..], t);
    }
  }

  /** With too few Readys, or with no group, some complete run has no outer Ready at all. */
  lemma NeverReady(traces: seq<seq<Event>>)
    requires traces == [] || ReadysSent(traces) < |traces|
    ensures !AlwaysReadyFirst(traces)
  {
    InitGood(traces);
    var acts, t := CanFinish(Init(traces), traces);
    CompleteRun(traces, acts, t);
    if traces == [] {
      NoGroupsNoReady(Init(traces), acts, t);
    }
    assert t.agg.log[0] in multiset(t.agg.log);
  }

  /**
   For every fan-out: the outer Ready is the first entry of every complete run iff enough Readys are sent, no keyed
   ToolEnd can be sent in phase 1, and when phase 2 opens no other group has anything left to forward.
   */
  lemma ReadyFirstExactly(traces: seq<seq<Event>>)
    ensures AlwaysReadyFirst(traces)
       <==> traces != [] && ReadysSent(traces) >= |traces| && !EarlyEnd(traces) && !Overtakable(traces)
  {
    if traces == [] || ReadysSent(traces) < |traces| {
      NeverReady(traces);
    } else if EarlyEnd(traces) {
      var i, k :|
        0 <= i < |traces| && 0 <= k < |traces[i]| && Stamp(i, traces[i])[k].KeyedEnd() && InTime(traces, i, k);
      var acts, t := EndFirst(traces, i, k);
      NotAlways(traces, acts, t);
    } else if Overtakable(traces) {
      var launched: nat, prog: seq<nat>, r: nat, i: nat, p: nat :| LeftOver(traces, launched, prog, r, i, p);
      var acts, t := LiveFirst(traces, launched, prog, r, i, p);
      NotAlways(traces, acts, t);
    } else {
      forall acts: seq<Action>, t: System | Runs(Init(traces), acts, t) && t.main.Merged?
        ensures t.agg.log != [] && t.agg.log[0] == SyntheticReady
      {
        ReadyFirst(traces, acts, t);
      }
    }
  }

  // ----- the two ways it fails, at their smallest -----

  function Sent(kind: Kind, id: string): Event { Event(kind, Outer, id, [], "") }

  /** One group that runs one tool before it is ready. */
  lemma ToolBeforeReady()
    ensures !AlwaysReadyFirst([[Sent(ToolStart, "x"), Sent(ToolEnd, "x"), Sent(Ready, "")]])
  {
    var trace := [Sent(ToolStart, "x"), Sent(ToolEnd, "x"), Sent(Ready, "")];
    var traces := [trace];
    assert Stamp(0, trace)[..1] == [Stamp(0, trace)[0]];
    SumSmall(IsReady(), Stamp(0, trace)[0], Stamp(0, trace)[0]);
    InTimeBy(traces, 0, 1, {});
    assert Stamp(0, traces[0])[1].KeyedEnd();
    ReadyFirstExactly(traces);
  }

  lemma GapFires()
    ensures LeftOver([[Sent(Ready, ""), Sent(PassThrough(0), "")], [Sent(Ready, "")]], 2, [1, 0], 1, 0, 1)
  {
    var traces := [[Sent(Ready, ""), Sent(PassThrough(0), "")], [Sent(Ready, "")]];
    var prog: seq<nat> := [1, 0];
    assert Stamp(0, traces[0])[..1] == [Stamp(0, traces[0])[0]] && Stamp(1, traces[1])[..0] == [];
    SumSmall(IsReady(), Stamp(0, traces[0])[0], Stamp(0, traces[0])[0]);
    assert CountedBy(traces, prog, 1) == 1 && CountedBy(traces, prog, 2) == 1;
  }

  /** Two groups without tools, one of which speaks after its Ready. */
  lemma TextInTheGap()
    ensures !AlwaysReadyFirst([[Sent(Ready, ""), Sent(PassThrough(0), "")], [Sent(Ready, "")]])
  {
    GapFires();
    ReadyFirstExactly([[Sent(Ready, ""), Sent(PassThrough(0), "")], [Sent(Ready, "")]]);
  }
}

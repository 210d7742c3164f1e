/**
 Tool calls across the transition: when every ToolEnd of a turn follows a ToolStart of its
 id that no earlier ToolEnd used up, each is forwarded exactly once, right behind a Start of
 its id, however buffering, live events and replay interleave.
 */
module FanoutTools {
  import opened AggregatorSpec
  import opened Fanout
  import opened FanoutShape
  import opened FanoutDelivery
  import opened FanoutResults

  /** With the Starts in `open` waiting, every keyed End of evs finds its Start. */
  ghost predicate Balanced(open: set<string>, evs: seq<Event>)
    decreases evs
  {
    if evs == [] then true
    else if evs[0].KeyedStart() then Balanced(open + {evs[0].toolId}, evs[1..])
    else if evs[0].KeyedEnd() then evs[0].toolId in open && Balanced(open - {evs[0].toolId}, evs[1..])
    else Balanced(open, evs[1..])
  }

  lemma {:induction false} BalancedMonotone(open: set<string>, more: set<string>, evs: seq<Event>)
    requires open <= more && Balanced(open, evs)
    ensures Balanced(more, evs)
    decreases evs
  {
    if evs != [] {
      if evs[0].KeyedStart() {
        BalancedMonotone(open + {evs[0].toolId}, more + {evs[0].toolId}, evs[1..]);
      } else if evs[0].KeyedEnd() {
        BalancedMonotone(open - {evs[0].toolId}, more - {evs[0].toolId}, evs[1..]);
      } else {
        BalancedMonotone(open, more, evs[1..]);
      }
    }
  }

  /** Replaying events that hold no keyed End first does no harm, stale Starts included. */
  lemma {:induction false} BalancedPrefix(open: set<string>, before: seq<Event>, evs: seq<Event>)
    requires Balanced(open, evs)
    requires forall ev | ev in before :: !ev.KeyedEnd()
    ensures Balanced(open, before + evs)
    decreases before
  {
    if before == [] {
      assert before + evs == evs;
    } else {
      assert (before + evs)[1..] == before[1..] + evs;
      if before[0].KeyedStart() {
        BalancedMonotone(open, open + {before[0].toolId}, evs);
        BalancedPrefix(open + {before[0].toolId}, before[1..], evs);
      } else {
        BalancedPrefix(open, before[1..], evs);
      }
    }
  }

  /** The event an operation of goroutine j will still apply to job i's table. */
  ghost function Applies(op: Op, j: nat, i: nat): seq<Event> {
    match op
    case Handle(ev) => if j == i then [ev] else []
    case Buffer(ev) => if j == i then [ev] else []
    case Redirect(ev) => if j == i then [ev] else []
    case Stream(owner, ev) => if owner == i then [ev] else []
    case Store(owner, ev) => if owner == i then [ev] else []
    case Match(owner, ev) => if owner == i then [ev] else []
    case _ => []
  }

  ghost function Upcoming(todo: seq<Op>, j: nat, i: nat): seq<Event>
    decreases todo
  {
    if todo == [] then [] else Applies(todo[0], j, i) + Upcoming(todo[1..], j, i)
  }

  lemma {:induction false} UpcomingAppend(a: seq<Op>, b: seq<Op>, j: nat, i: nat)
    ensures Upcoming(a + b, j, i) == Upcoming(a, j, i) + Upcoming(b, j, i)
    decreases a
  {
    if a == [] {
      assert a + b == b;
    } else {
      assert (a + b)[1..] == a[1..] + b;
      UpcomingAppend(a[1..], b, j, i);
    }
  }

  lemma {:induction false} UpcomingFrom(todo: seq<Op>, j: nat, i: nat, ev: Event)
    requires ev in Upcoming(todo, j, i)
    ensures exists op :: op in todo && Applies(op, j, i) == [ev]
    decreases todo
  {
    if ev in Applies(todo[0], j, i) {
      assert Applies(todo[0], j, i) == [ev];
    } else {
      UpcomingFrom(todo[1..], j, i, ev);
    }
  }

  /** Keyed Ends travel only in their own job's goroutine; none waits in a buffer or a replay. */
  ghost predicate EndsAtHome(op: Op, j: nat) {
    match op
    case Stream(owner, ev) => ev.KeyedEnd() ==> owner == j
    case Match(owner, ev) => owner == j
    case Emit(evs) => |evs| == 1 ==> !evs[0].KeyedEnd()
    case _ => true
  }

  ghost predicate EndPaired(log: seq<Event>, k: nat)
    requires k < |log|
  {
    log[k].KeyedEnd() ==> k > 0 && Pair(log[k-1], log[k])
  }

  ghost predicate Tools(s: System) {
    && |s.agg.perJob| == |s.jobs|
    && s.agg.strays == []
    && (forall i | 0 <= i < |s.jobs| :: TableReady(s, i))
    && NoEndWaits(s.agg.perJob)
    && (forall j | 0 <= j < |s.jobs| :: forall op | op in s.jobs[j].todo :: EndsAtHome(op, j))
    && (forall k | 0 <= k < |s.agg.log| :: EndPaired(s.agg.log, k))
  }

  /** Job i's table serves every End its goroutine has still to apply. */
  ghost predicate TableReady(s: System, i: nat)
    requires i < |s.jobs| == |s.agg.perJob|
  {
    if s.jobs[i].stage.Waiting? || s.jobs[i].stage.Wrapping? then Balanced({}, s.jobs[i].rest)
    else Balanced(s.agg.perJob[i].pending.Keys, Upcoming(s.jobs[i].todo, i, i) + s.jobs[i].rest)
  }

  lemma Regroup(a: seq<Event>, b: seq<Event>, c: seq<Event>)
    ensures a + (b + c) == (a + b) + c
  {
  }

  // ----- one operation -----

  /** What op leaves of goroutine j's table and upcoming events, as seen by its own job. */
  ghost predicate OwnReady(a: Aggregator, j: nat, ops: seq<Op>, later: seq<Event>)
    requires j < |a.perJob|
  {
    Balanced(a.perJob[j].pending.Keys, Upcoming(ops, j, j) + later)
  }

  lemma One(a: Aggregator, j: nat, op: Op, later: seq<Event>)
    requires j < |a.perJob| && Balanced(a.perJob[j].pending.Keys, Applies(op, j, j) + later)
    ensures OwnReady(a, j, [op], later)
    ensures OwnReady(a, j, [op, Gate], later)
  {
    assert [op, Gate][1..] == [Gate] && Upcoming([Gate], j, j) == Applies(Gate, j, j) + Upcoming([], j, j);
    assert Upcoming([op], j, j) == Applies(op, j, j) + Upcoming([], j, j);
    assert Upcoming([op], j, j) == Upcoming([op, Gate], j, j) == Applies(op, j, j);
  }

  lemma First(open: set<string>, ev: Event, later: seq<Event>)
    requires Balanced(open, [ev] + later)
    ensures ev.KeyedStart() ==> Balanced(open + {ev.toolId}, later)
    ensures ev.KeyedEnd() ==> ev.toolId in open && Balanced(open - {ev.toolId}, later)
    ensures !ev.KeyedStart() && !ev.KeyedEnd() ==> Balanced(open, later)
  {
    assert ([ev] + later)[1..] == later;
  }

  ghost predicate NoEndWaits(perJob: seq<PerJob>) {
    forall i | 0 <= i < |perJob| :: forall ev | ev in perJob[i].initBuffer :: !ev.KeyedEnd()
  }

  /** after is what one operation of goroutine j made of a: its own table is ready for `later`,
      the other tables only gained Starts, and no End strays. */
  ghost predicate ToolStep(a: Aggregator, j: nat, after: (Aggregator, seq<Op>), later: seq<Event>) {
    && |after.0.perJob| == |a.perJob| && j < |a.perJob|
    && after.0.strays == a.strays
    && (forall i | 0 <= i < |a.perJob| && i != j :: a.perJob[i].pending.Keys <= after.0.perJob[i].pending.Keys)
    && NoEndWaits(after.0.perJob)
    && OwnReady(after.0, j, after.1, later)
    && (forall op | op in after.1 :: EndsAtHome(op, j))
  }

  /** A section that changes no table and leaves one operation behind. */
  lemma Passes(a: Aggregator, j: nat, op: Op, later: seq<Event>)
    requires j < |a.perJob| && NoEndWaits(a.perJob) && EndsAtHome(op, j)
    requires Balanced(a.perJob[j].pending.Keys, Applies(op, j, j) + later)
    ensures ToolStep(a, j, (a, [op]), later)
  {
    One(a, j, op, later);
  }

  lemma Drops(a: Aggregator, j: nat, later: seq<Event>)
    requires j < |a.perJob| && NoEndWaits(a.perJob) && Balanced(a.perJob[j].pending.Keys, later)
    ensures ToolStep(a, j, (a, []), later)
  {
    assert Upcoming([], j, j) + later == later;
  }

  lemma GateOwn(a: Aggregator, j: nat, order: seq<nat>, later: seq<Event>)
    requires j < |a.perJob| && NoEndWaits(a.perJob)
    requires Balanced(a.perJob[j].pending.Keys, later)
    ensures ToolStep(a, j, TransitionGate(a, order), later)
  {
    var (b, ops) := TransitionGate(a, order);
    ReplayOps(a.perJob, order);
    forall ev | ev in Upcoming(ops, j, j) ensures !ev.KeyedEnd() {
      UpcomingFrom(ops, j, j, ev);
    }
    BalancedPrefix(a.perJob[j].pending.Keys, Upcoming(ops, j, j), later);
  }

  lemma BufferOwn(a: Aggregator, j: nat, ev: Event, order: seq<nat>, later: seq<Event>)
    requires j < |a.perJob| && NoEndWaits(a.perJob)
    requires Balanced(a.perJob[j].pending.Keys, [ev] + later)
    ensures ToolStep(a, j, BufferSection(a, j, ev, order), later)
  {
    First(a.perJob[j].pending.Keys, ev, later);
    var p := a.perJob[j];
    if !a.phase.Buffering? {
      Passes(a, j, Redirect(ev), later);
    } else if ev.KeyedEnd() {
      var b := BufferSection(a, j, ev, order).0;
      assert (p.pending - {ev.toolId}).Keys == p.pending.Keys - {ev.toolId};
      assert [] + later == later;
      One(b, j, Emit([p.pending[ev.toolId], ev]), later);
    } else {
      var q := PerJob(if ev.KeyedStart() then p.pending[ev.toolId := ev] else p.pending, p.initBuffer + [ev]);
      assert ev.KeyedStart() ==> q.pending.Keys == p.pending.Keys + {ev.toolId};
      var a1 := a.(perJob := a.perJob[j := q],
                   readyCount := if ev.kind.Ready? then a.readyCount + 1 else a.readyCount);
      assert BufferSection(a, j, ev, order) == TransitionGate(a1, order);
      GateOwn(a1, j, order, later);
    }
  }

  lemma StreamOwn(a: Aggregator, j: nat, owner: nat, ev: Event, later: seq<Event>)
    requires j < |a.perJob| && NoEndWaits(a.perJob) && !a.phase.Closed?
    requires Balanced(a.perJob[j].pending.Keys, (if owner == j then [ev] else []) + later)
    requires ev.KeyedEnd() ==> owner == j
    ensures ToolStep(a, j, (a, StreamSection(a, owner, ev)), later)
  {
    if owner == j {
      First(a.perJob[j].pending.Keys, ev, later);
    }
    assert [] + later == later;
    if ev.KeyedStart() {
      Passes(a, j, Store(owner, ev), later);
    } else if ev.KeyedEnd() {
      Passes(a, j, Match(owner, ev), later);
    } else if ev.kind.Task() {
      Passes(a, j, Merge(ev), later);
    } else if ev.kind.PassThrough? {
      Passes(a, j, Emit([ev]), later);
    } else {
      Drops(a, j, later);
    }
  }

  lemma StoreOwn(a: Aggregator, j: nat, owner: nat, ev: Event, later: seq<Event>)
    requires j < |a.perJob| && owner < |a.perJob| && NoEndWaits(a.perJob) && ev.KeyedStart()
    requires Balanced(a.perJob[j].pending.Keys, (if owner == j then [ev] else []) + later)
    ensures ToolStep(a, j, (StoreSection(a, owner, ev), []), later)
  {
    var p := a.perJob[owner];
    assert p.pending[ev.toolId := ev].Keys == p.pending.Keys + {ev.toolId};
    assert [] + later == later;
    if owner == j {
      First(p.pending.Keys, ev, later);
    }
    assert Upcoming([], j, j) == [];
  }

  lemma MatchOwn(a: Aggregator, j: nat, ev: Event, later: seq<Event>)
    requires j < |a.perJob| && NoEndWaits(a.perJob) && ev.KeyedEnd()
    requires Balanced(a.perJob[j].pending.Keys, [ev] + later)
    ensures ToolStep(a, j, MatchSection(a, j, ev), later)
  {
    var p := a.perJob[j];
    First(p.pending.Keys, ev, later);
    assert [] + later == later;
    assert (p.pending - {ev.toolId}).Keys == p.pending.Keys - {ev.toolId};
    One(MatchSection(a, j, ev).0, j, Emit([p.pending[ev.toolId], ev]), later);
  }

  /** One operation of goroutine j keeps its own table ready and only adds to the others'. */
  lemma ExecTools(a: Aggregator, j: nat, op: Op, c: Choice, later: seq<Event>, traces: seq<seq<Event>>)
    requires j < |a.perJob| == |traces| && NoEndWaits(a.perJob)
    requires !a.phase.Closed? || op.Emit?
    requires EndsAtHome(op, j) && OpOk(op, j, traces)
    requires Balanced(a.perJob[j].pending.Keys, Applies(op, j, j) + later)
    ensures ToolStep(a, j, ExecOp(a, j, op, c), later)
  {
    assert [] + later == later;
    match op
    case Handle(ev) => Passes(a, j, if a.phase.Buffering? then Buffer(ev) else Stream(j, ev), later);
    case Buffer(ev) => BufferOwn(a, j, ev, c.order, later);
    case Redirect(ev) => Passes(a, j, Stream(j, ev), later);
    case Gate => if a.phase.Buffering? { GateOwn(a, j, c.order, later); } else { Drops(a, j, later); }
    case Stream(owner, ev) => StreamOwn(a, j, owner, ev, later);
    case Store(owner, ev) => StoreOwn(a, j, owner, ev, later);
    case Match(owner, ev) => MatchOwn(a, j, ev, later);
    case Merge(ev) => Passes(a, j, MergeSection(a, ev, c.items).1[0], later);
    case Emit(evs) => Drops(a, j, later);
  }

  // ----- one step -----

  lemma AppendPaired(log: seq<Event>, evs: seq<Event>, traces: seq<seq<Event>>)
    requires forall k | 0 <= k < |log| :: EndPaired(log, k)
    requires BlockOk(evs, traces) && (|evs| == 1 ==> !evs[0].KeyedEnd())
    ensures forall k | 0 <= k < |log + evs| :: EndPaired(log + evs, k)
  {
    var both := log + evs;
    forall k | 0 <= k < |both| ensures EndPaired(both, k) {
      if k < |log| { assert EndPaired(log, k); }
    }
  }

  /** A job whose goroutine stays put keeps its table ready while no Start leaves it. */
  lemma OthersTable(s: System, t: System, i: nat)
    requires i < |s.jobs| == |s.agg.perJob| && TableReady(s, i)
    requires i < |t.jobs| == |t.agg.perJob| && t.jobs[i] == s.jobs[i]
    requires s.agg.perJob[i].pending.Keys <= t.agg.perJob[i].pending.Keys
    ensures TableReady(t, i)
  {
    if !(s.jobs[i].stage.Waiting? || s.jobs[i].stage.Wrapping?) {
      BalancedMonotone(s.agg.perJob[i].pending.Keys, t.agg.perJob[i].pending.Keys,
        Upcoming(s.jobs[i].todo, i, i) + s.jobs[i].rest);
    }
  }

  /** The step of goroutine j, from its own job's point of view. */
  lemma ExecToolStep(s: System, j: nat, c: Choice, traces: seq<seq<Event>>)
    requires Good(s, traces) && Tools(s) && Enabled(s, Exec(j, c))
    ensures ToolStep(s.agg, j, ExecOp(s.agg, j, s.jobs[j].todo[0], c),
                     Upcoming(s.jobs[j].todo[1..], j, j) + s.jobs[j].rest)
  {
    var g := s.jobs[j];
    var op := g.todo[0];
    var later := Upcoming(g.todo[1..], j, j) + g.rest;
    NotClosed(s, j);
    assert ControlOk(g) && TableReady(s, j) && OpOk(op, j, traces) && EndsAtHome(op, j);
    assert Upcoming(g.todo, j, j) + g.rest == Applies(op, j, j) + later;
    ExecTools(s.agg, j, op, c, later, traces);
  }

  lemma ExecOwnTable(s: System, j: nat, c: Choice, traces: seq<seq<Event>>)
    requires Good(s, traces) && Tools(s) && Enabled(s, Exec(j, c))
    ensures |Next(s, Exec(j, c)).jobs| == |Next(s, Exec(j, c)).agg.perJob| && TableReady(Next(s, Exec(j, c)), j)
  {
    var g := s.jobs[j];
    var ops := ExecOp(s.agg, j, g.todo[0], c).1;
    ExecToolStep(s, j, c, traces);
    assert ControlOk(g);
    UpcomingAppend(ops, g.todo[1..], j, j);
    Regroup(Upcoming(ops, j, j), Upcoming(g.todo[1..], j, j), g.rest);
  }

  lemma ExecTables(s: System, j: nat, c: Choice, traces: seq<seq<Event>>)
    requires Good(s, traces) && Tools(s) && Enabled(s, Exec(j, c))
    ensures var t := Next(s, Exec(j, c));
      |t.jobs| == |t.agg.perJob| && forall i | 0 <= i < |t.jobs| :: TableReady(t, i)
  {
    ExecToolStep(s, j, c, traces);
    ExecOwnTable(s, j, c, traces);
    var t := Next(s, Exec(j, c));
    forall i | 0 <= i < |t.jobs| && i != j ensures TableReady(t, i) {
      assert TableReady(s, i);
      OthersTable(s, t, i);
    }
  }

  lemma ExecStepTools(s: System, j: nat, c: Choice, traces: seq<seq<Event>>)
    requires Good(s, traces) && Tools(s) && Enabled(s, Exec(j, c))
    ensures Tools(Next(s, Exec(j, c)))
  {
    ExecTables(s, j, c, traces);
    ExecToolStep(s, j, c, traces);
    var op := s.jobs[j].todo[0];
    assert OpOk(op, j, traces) && EndsAtHome(op, j);
    ExecLog(s.agg, j, op, c);
    if op.Emit? { AppendPaired(s.agg.log, op.evs, traces); }
    assert forall o | o in Next(s, Exec(j, c)).jobs[j].todo ::
      o in ExecOp(s.agg, j, op, c).1 || o in s.jobs[j].todo;
  }

  lemma CallTable(s: System, i: nat)
    requires Lifecycle(s) && Enabled(s, Call(i)) && TableReady(s, i)
    ensures TableReady(Next(s, Call(i)), i)
  {
    var g := s.jobs[i];
    assert Upcoming([], i, i) + g.rest == [g.rest[0]] + g.rest[1..];
    One(s.agg, i, Handle(g.rest[0]), g.rest[1..]);
  }

  lemma WrapTable(s: System, i: nat)
    requires Lifecycle(s) && Enabled(s, Wrap(i)) && TableReady(s, i)
    ensures TableReady(Next(s, Wrap(i)), i)
  {
    assert ControlOk(s.jobs[i]);
    assert EmptyJob.pending.Keys == {};
    assert Upcoming([], i, i) + s.jobs[i].rest == s.jobs[i].rest;
  }

  lemma MarkTable(s: System, i: nat)
    requires Lifecycle(s) && Enabled(s, Mark(i))
    ensures TableReady(Next(s, Mark(i)), i)
  {
    assert ControlOk(s.jobs[i]);
    var t := Next(s, Mark(i));
    One(t.agg, i, Emit([OuterResult]), []);
  }

  lemma QuietTable(s: System, act: Action, i: nat)
    requires Lifecycle(s) && Enabled(s, act) && !act.Exec? && !act.EmitFinal?
    requires i < |s.jobs| && TableReady(s, i)
    ensures i < |Next(s, act).jobs| == |Next(s, act).agg.perJob| && TableReady(Next(s, act), i)
  {
    if act == Call(i) {
      CallTable(s, i);
    } else if act == Wrap(i) {
      WrapTable(s, i);
    } else if act == Mark(i) {
      MarkTable(s, i);
    } else if act.Call? || act.Wrap? || act.Mark? {
      TableElsewhere(s, act, i);
    } else {
      TableStage(s, act, i);
    }
  }

  lemma TableElsewhere(s: System, act: Action, i: nat)
    requires Lifecycle(s) && Enabled(s, act) && (act.Call? || act.Wrap? || act.Mark?) && act.i != i
    requires i < |s.jobs| && TableReady(s, i)
    ensures i < |Next(s, act).jobs| == |Next(s, act).agg.perJob| && TableReady(Next(s, act), i)
  {
    var t := Next(s, act);
    assert t.jobs[i] == s.jobs[i] && t.agg.perJob[i] == s.agg.perJob[i];
  }

  lemma TableStage(s: System, act: Action, i: nat)
    requires Lifecycle(s) && Enabled(s, act) && !act.Exec? && !act.EmitFinal? && !act.Call? && !act.Wrap? && !act.Mark?
    requires i < |s.jobs| && TableReady(s, i)
    ensures i < |Next(s, act).jobs| == |Next(s, act).agg.perJob| && TableReady(Next(s, act), i)
  {
    var t := Next(s, act);
    assert ControlOk(s.jobs[i]);
    assert t.agg.perJob == s.agg.perJob && t.jobs[i].rest == s.jobs[i].rest && t.jobs[i].todo == s.jobs[i].todo;
    if t.jobs[i].stage.Waiting? || t.jobs[i].stage.Wrapping? {
      assert s.jobs[i].stage.Waiting? || s.jobs[i].stage.Wrapping?;
    }
  }

  lemma QuietTodo(s: System, act: Action, traces: seq<seq<Event>>)
    requires Good(s, traces) && Tools(s) && Enabled(s, act) && !act.Exec? && !act.EmitFinal?
    ensures var t := Next(s, act);
      && t.agg.strays == [] && t.agg.log == s.agg.log && NoEndWaits(t.agg.perJob)
      && forall j | 0 <= j < |t.jobs| :: forall op | op in t.jobs[j].todo :: EndsAtHome(op, j)
  {
  }

  lemma QuietTools(s: System, act: Action, traces: seq<seq<Event>>)
    requires Good(s, traces) && Tools(s) && Enabled(s, act) && !act.Exec? && !act.EmitFinal?
    ensures Tools(Next(s, act))
  {
    QuietTodo(s, act, traces);
    forall i | 0 <= i < |s.jobs| ensures TableReady(Next(s, act), i) {
      QuietTable(s, act, i);
    }
  }

  lemma NextTools(s: System, act: Action, traces: seq<seq<Event>>)
    requires Good(s, traces) && Tools(s) && Enabled(s, act)
    ensures Tools(Next(s, act))
  {
    if act.Exec? {
      ExecStepTools(s, act.i, act.c, traces);
    } else if act.EmitFinal? {
      AppendPaired(s.agg.log, [OuterResult], traces);
      forall i | 0 <= i < |s.jobs| ensures TableReady(Next(s, act), i) {
        assert TableReady(s, i);
      }
    } else {
      QuietTools(s, act, traces);
    }
  }

  lemma {:induction false} RunTools(s: System, acts: seq<Action>, t: System, traces: seq<seq<Event>>)
    requires Good(s, traces) && Tools(s) && Runs(s, acts, t)
    ensures Tools(t)
    decreases acts
  {
    if acts != [] {
      NextGood(s, acts[0], traces);
      NextTools(s, acts[0], traces);
      RunTools(Next(s, acts[0]), acts[1..], t, traces);
    }
  }

  // ----- the theorems -----

  /** Every keyed ToolEnd of every turn follows a ToolStart of its id not used up before. */
  ghost predicate WellPaired(traces: seq<seq<Event>>) {
    forall i | 0 <= i < |traces| :: Balanced({}, Stamp(i, traces[i]))
  }

  /**
   For well-paired turns, at every moment of every run: a keyed ToolEnd in the outer log
   stands right behind a ToolStart of its id that its own turn sent, and no lookup ever
   failed.
   */
  lemma EveryEndPaired(traces: seq<seq<Event>>, acts: seq<Action>, t: System, k: nat)
    requires WellPaired(traces) && Runs(Init(traces), acts, t)
    requires k < |t.agg.log| && t.agg.log[k].KeyedEnd()
    ensures k > 0 && Pair(t.agg.log[k-1], t.agg.log[k]) && Origin(t.agg.log[k-1], traces)
    ensures t.agg.strays == []
  {
    NoStrays(traces, acts, t);
    assert EndPaired(t.agg.log, k);
    OuterLogShape(traces, acts, t, k - 1);
  }

  lemma NoStrays(traces: seq<seq<Event>>, acts: seq<Action>, t: System)
    requires WellPaired(traces) && Runs(Init(traces), acts, t)
    ensures Tools(t) && t.agg.strays == []
  {
    InitGood(traces);
    RunTools(Init(traces), acts, t, traces);
  }

  /** For well-paired turns every keyed ToolEnd is forwarded exactly once, Readys or not. */
  lemma EveryEndOnce(traces: seq<seq<Event>>, acts: seq<Action>, t: System, e: Event)
    requires WellPaired(traces) && Runs(Init(traces), acts, t) && t.main.Merged?
    requires e.KeyedEnd() && e.source.Job? && e.source.index < |traces|
    ensures multiset(t.agg.log)[e] == multiset(Stamp(e.source.index, traces[e.source.index]))[e]
  {
    NoStrays(traces, acts, t);
    ToolEndDelivery(traces, acts, t, e);
  }

  ghost predicate UniqueStarts(trace: seq<Event>) {
    forall j, k | 0 <= j < |trace| && 0 <= k < |trace| && trace[j].KeyedStart() && trace[k].KeyedStart()
      && trace[j].toolId == trace[k].toolId :: j == k
  }

  /** When tool ids are also unique per turn, the Start in front of an End is the very one its turn sent. */
  lemma OwnStart(traces: seq<seq<Event>>, acts: seq<Action>, t: System, k: nat, i: nat, m: nat)
    requires WellPaired(traces) && Runs(Init(traces), acts, t)
    requires k < |t.agg.log| && t.agg.log[k].KeyedEnd() && t.agg.log[k].source == Job(i)
    requires i < |traces| && UniqueStarts(traces[i]) && m < |traces[i]|
    requires traces[i][m].KeyedStart() && traces[i][m].toolId == t.agg.log[k].toolId
    ensures k > 0 && t.agg.log[k-1] == Stamp(i, traces[i])[m]
  {
    EveryEndPaired(traces, acts, t, k);
    var start := t.agg.log[k-1];
    var n :| 0 <= n < |traces[i]| && Stamp(i, traces[i])[n] == start;
    assert traces[i][n].KeyedStart();
  }
}

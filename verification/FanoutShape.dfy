/**
 What can appear where in the fan-out: every event in flight comes from the turn it is
 labelled with, and every append to the outer log is one of five kinds of block. Invariants
 #11 and #12 of aggregate_sink.go are read off the log at the end of this module.
 */
module FanoutShape {
  import opened AggregatorSpec
  import opened Fanout

  /** ev is a stamped event of its job's turn. */
  ghost predicate Origin(ev: Event, traces: seq<seq<Event>>) {
    ev.source.Job? && ev.source.index < |traces| && ev in Stamp(ev.source.index, traces[ev.source.index])
  }

  ghost predicate OriginOf(ev: Event, i: nat, traces: seq<seq<Event>>) {
    ev.source == Job(i) && Origin(ev, traces)
  }

  ghost predicate Pair(start: Event, end: Event) {
    start.KeyedStart() && end.KeyedEnd() && start.toolId == end.toolId && start.source == end.source
  }

  /** One emitMu section appends exactly one of these. */
  ghost predicate BlockOk(evs: seq<Event>, traces: seq<seq<Event>>) {
    || evs == [SyntheticReady]
    || evs == [OuterResult]
    || (|evs| == 2 && Pair(evs[0], evs[1]) && Origin(evs[0], traces) && Origin(evs[1], traces))
    || (|evs| == 1 && (evs[0].KeyedEnd() || evs[0].kind.PassThrough?) && Origin(evs[0], traces))
    || (|evs| == 1 && evs[0].kind.Task() && evs[0].source.Job?)
  }

  ghost predicate OpOk(op: Op, i: nat, traces: seq<seq<Event>>) {
    match op
    case Handle(ev) => OriginOf(ev, i, traces)
    case Buffer(ev) => OriginOf(ev, i, traces)
    case Redirect(ev) => OriginOf(ev, i, traces)
    case Gate => true
    case Stream(owner, ev) => OriginOf(ev, owner, traces)
    case Store(owner, ev) => OriginOf(ev, owner, traces) && ev.KeyedStart()
    case Match(owner, ev) => OriginOf(ev, owner, traces) && ev.KeyedEnd()
    case Merge(ev) => ev.source.Job? && ev.kind.Task()
    case Emit(evs) => BlockOk(evs, traces)
  }

  ghost predicate PerJobOk(p: PerJob, i: nat, traces: seq<seq<Event>>) {
    && (forall ev | ev in p.initBuffer :: OriginOf(ev, i, traces))
    && (forall id | id in p.pending ::
          p.pending[id].KeyedStart() && p.pending[id].toolId == id && OriginOf(p.pending[id], i, traces))
  }

  ghost predicate EntryOk(log: seq<Event>, k: nat, traces: seq<seq<Event>>)
    requires k < |log|
  {
    match log[k].kind
    case Ready => log[k] == SyntheticReady
    case Result => log[k] == OuterResult
    case Error => false
    case ToolStart => k + 1 < |log| && Pair(log[k], log[k+1]) && Origin(log[k], traces)
    case ToolEnd => log[k].toolId != "" && Origin(log[k], traces)
    case TaskCreate => log[k].source.Job?
    case TaskUpdate => log[k].source.Job?
    case PassThrough(_) => Origin(log[k], traces)
  }

  ghost predicate LogOk(log: seq<Event>, traces: seq<seq<Event>>) {
    forall k | 0 <= k < |log| :: EntryOk(log, k, traces)
  }

  ghost predicate Shape(s: System, traces: seq<seq<Event>>) {
    && |traces| == |s.jobs| == |s.agg.perJob|
    && (forall i | 0 <= i < |s.jobs| ::
          && (forall ev | ev in s.jobs[i].rest :: OriginOf(ev, i, traces))
          && (forall op | op in s.jobs[i].todo :: OpOk(op, i, traces)))
    && (forall i | 0 <= i < |s.jobs| :: PerJobOk(s.agg.perJob[i], i, traces))
    && LogOk(s.agg.log, traces)
  }

  lemma AppendBlock(log: seq<Event>, evs: seq<Event>, traces: seq<seq<Event>>)
    requires LogOk(log, traces) && BlockOk(evs, traces)
    ensures LogOk(log + evs, traces)
  {
    var both := log + evs;
    forall k | 0 <= k < |both| ensures EntryOk(both, k, traces) {
      if k < |log| {
        assert EntryOk(log, k, traces);
      }
    }
  }

  lemma {:induction false} ReplayOps(perJob: seq<PerJob>, order: seq<nat>)
    ensures forall op | op in Replay(perJob, order) ::
      op.Stream? && op.owner < |perJob| && op.ev in perJob[op.owner].initBuffer
  {
    if order != [] {
      ReplayOps(perJob, order[1..]);
    }
  }

  /** A section leaves only well-formed tables and well-formed further operations behind. */
  lemma ExecShape(a: Aggregator, i: nat, op: Op, c: Choice, traces: seq<seq<Event>>)
    requires i < |a.perJob| == |traces|
    requires forall j | 0 <= j < |traces| :: PerJobOk(a.perJob[j], j, traces)
    requires LogOk(a.log, traces)
    requires OpOk(op, i, traces)
    ensures var (b, ops) := ExecOp(a, i, op, c);
      && |b.perJob| == |traces|
      && (forall j | 0 <= j < |traces| :: PerJobOk(b.perJob[j], j, traces))
      && LogOk(b.log, traces)
      && (forall o | o in ops :: OpOk(o, i, traces))
  {
    if op.Emit? {
      AppendBlock(a.log, op.evs, traces);
    } else if op.Gate? {
      GateShape(a, i, c.order, traces);
    } else if op.Buffer? {
      BufferShape(a, i, op.ev, c.order, traces);
    }
  }

  lemma GateShape(a: Aggregator, i: nat, order: seq<nat>, traces: seq<seq<Event>>)
    requires |a.perJob| == |traces|
    requires forall j | 0 <= j < |traces| :: PerJobOk(a.perJob[j], j, traces)
    ensures var (b, ops) := TransitionGate(a, order);
      && |b.perJob| == |traces| && b.log == a.log
      && (forall j | 0 <= j < |traces| :: PerJobOk(b.perJob[j], j, traces))
      && (forall o | o in ops :: OpOk(o, i, traces))
  {
    ReplayOps(a.perJob, order);
  }

  lemma BufferShape(a: Aggregator, i: nat, ev: Event, order: seq<nat>, traces: seq<seq<Event>>)
    requires i < |a.perJob| == |traces|
    requires forall j | 0 <= j < |traces| :: PerJobOk(a.perJob[j], j, traces)
    requires OriginOf(ev, i, traces)
    ensures var (b, ops) := BufferSection(a, i, ev, order);
      && |b.perJob| == |traces| && b.log == a.log
      && (forall j | 0 <= j < |traces| :: PerJobOk(b.perJob[j], j, traces))
      && (forall o | o in ops :: OpOk(o, i, traces))
  {
    var p := a.perJob[i];
    if a.phase.Buffering? {
      if ev.kind.Ready? {
        GateShape(Buffered(a, i, ev).(readyCount := a.readyCount + 1), i, order, traces);
      } else if ev.KeyedStart() {
        GateShape(
          a.(perJob := a.perJob[i := PerJob(p.pending[ev.toolId := ev], p.initBuffer + [ev])]), i, order, traces);
      } else if ev.KeyedEnd() {
        EndShape(a, i, ev, order, traces);
      } else {
        GateShape(Buffered(a, i, ev), i, order, traces);
      }
    }
  }

  lemma EndShape(a: Aggregator, i: nat, ev: Event, order: seq<nat>, traces: seq<seq<Event>>)
    requires i < |a.perJob| == |traces| && a.phase.Buffering? && ev.KeyedEnd()
    requires forall j | 0 <= j < |traces| :: PerJobOk(a.perJob[j], j, traces)
    requires OriginOf(ev, i, traces)
    ensures var (b, ops) := BufferSection(a, i, ev, order);
      && |b.perJob| == |traces| && b.log == a.log
      && (forall j | 0 <= j < |traces| :: PerJobOk(b.perJob[j], j, traces))
      && (forall o | o in ops :: OpOk(o, i, traces))
  {
  }

  lemma InitShape(traces: seq<seq<Event>>)
    ensures Shape(Init(traces), traces)
  {
    var s := Init(traces);
    forall i, ev | 0 <= i < |s.jobs| && ev in s.jobs[i].rest ensures OriginOf(ev, i, traces) {
      var k :| 0 <= k < |s.jobs[i].rest| && s.jobs[i].rest[k] == ev;
    }
  }

  lemma ExecStepShape(s: System, i: nat, c: Choice, traces: seq<seq<Event>>)
    requires Lifecycle(s) && Shape(s, traces) && Enabled(s, Exec(i, c))
    ensures Shape(Next(s, Exec(i, c)), traces)
  {
    var g := s.jobs[i];
    ExecShape(s.agg, i, g.todo[0], c, traces);
    var ops := ExecOp(s.agg, i, g.todo[0], c).1;
    assert forall op | op in ops + g.todo[1..] :: op in ops || op in g.todo;
  }

  lemma NextShape(s: System, act: Action, traces: seq<seq<Event>>)
    requires Lifecycle(s) && Shape(s, traces) && Enabled(s, act)
    ensures Shape(Next(s, act), traces)
  {
    match act
    case Exec(i, c) => ExecStepShape(s, i, c, traces);
    case Call(i) =>
      assert s.jobs[i].rest[0] in s.jobs[i].rest;
    case EmitFinal =>
      AppendBlock(s.agg.log, s.main.todo[0].evs, traces);
    case Mark(i) => MarkShape(s, i, traces);
    case _ => StageShape(s, act, traces);
  }

  lemma MarkShape(s: System, i: nat, traces: seq<seq<Event>>)
    requires Lifecycle(s) && Shape(s, traces) && Enabled(s, Mark(i))
    ensures Shape(Next(s, Mark(i)), traces)
  {
    assert forall op | op in Next(s, Mark(i)).jobs[i].todo :: op == Emit([OuterResult]);
  }

  lemma StageShape(s: System, act: Action, traces: seq<seq<Event>>)
    requires Lifecycle(s) && Shape(s, traces) && Enabled(s, act)
    requires !act.Exec? && !act.Call? && !act.Mark? && !act.EmitFinal?
    ensures Shape(Next(s, act), traces)
  {
    var t := Next(s, act);
    assert t.agg.log == s.agg.log;
    assert forall j | 0 <= j < |s.jobs| :: t.jobs[j].rest == s.jobs[j].rest && t.jobs[j].todo == s.jobs[j].todo;
  }

  lemma {:induction false} RunShape(s: System, acts: seq<Action>, t: System, traces: seq<seq<Event>>)
    requires Lifecycle(s) && Shape(s, traces) && Runs(s, acts, t)
    ensures Lifecycle(t) && Shape(t, traces)
    decreases acts
  {
    if acts != [] {
      NextLifecycle(s, acts[0]);
      NextShape(s, acts[0], traces);
      RunShape(Next(s, acts[0]), acts[1..], t, traces);
    }
  }

  /**
   Invariant #12, for any traces and any interleaving: a ToolStart in the outer log is
   immediately followed by the ToolEnd of the same id and job. And invariant #11: no job's own
   Ready, Result or Error reaches the outer log.
   */
  lemma OuterLogShape(traces: seq<seq<Event>>, acts: seq<Action>, t: System, k: nat)
    requires Runs(Init(traces), acts, t) && k < |t.agg.log|
    ensures t.agg.log[k].kind.ToolStart? ==> k + 1 < |t.agg.log| && Pair(t.agg.log[k], t.agg.log[k+1])
    ensures t.agg.log[k].kind.Ready? ==> t.agg.log[k] == SyntheticReady
    ensures t.agg.log[k].kind.Result? ==> t.agg.log[k] == OuterResult
    ensures !t.agg.log[k].kind.Error?
    ensures t.agg.log[k].kind.PassThrough? || t.agg.log[k].kind.ToolStart? || t.agg.log[k].kind.ToolEnd?
      ==> Origin(t.agg.log[k], traces)
  {
    InitLifecycle(traces);
    InitShape(traces);
    RunShape(Init(traces), acts, t, traces);
    assert EntryOk(t.agg.log, k, traces);
  }
}

/**
 Phase 1, as far as one job goes: which of its events are forwarded at once, which are kept
 for the replay, and what that leaves when a goroutine opens phase 2.
 */
module FanoutBacklog {
  import opened Sums
  import opened AggregatorSpec
  import opened Fanout
  import opened FanoutShape
  import opened FanoutDelivery
  import opened FanoutOutcome
  import opened FanoutResults
  import opened FanoutTools
  import opened FanoutLimits
  import opened FanoutOrder
  import opened FanoutReplay

  /** What phase 1 keeps for the replay of job i's events evs: all but the ToolEnds whose Start was waiting. */
  function Backlog(ch: Channel, evs: seq<Event>, i: nat): seq<Event> {
    if evs == [] then []
    else
      var n := |evs| - 1;
      Backlog(ch, evs[..n], i)
        + if evs[n].KeyedEnd() && evs[n].toolId in OpenAfter(evs[..n]) then [] else Picks(ch, [evs[n]], i)
  }

  /** What it forwards at once: the ToolEnds. */
  function AtOnce(ch: Channel, evs: seq<Event>, i: nat): seq<Event> {
    if evs == [] then []
    else
      var n := |evs| - 1;
      AtOnce(ch, evs[..n], i) + if evs[n].KeyedEnd() then Picks(ch, [evs[n]], i) else []
  }

  lemma BacklogNext(ch: Channel, evs: seq<Event>, ev: Event, i: nat)
    ensures Backlog(ch, evs + [ev], i) == Backlog(ch, evs, i)
      + if ev.KeyedEnd() && ev.toolId in OpenAfter(evs) then [] else Picks(ch, [ev], i)
    ensures AtOnce(ch, evs + [ev], i) == AtOnce(ch, evs, i) + if ev.KeyedEnd() then Picks(ch, [ev], i) else []
  {
    assert (evs + [ev])[..|evs|] == evs;
  }

  /** Apart from ToolEnds phase 1 keeps everything and forwards nothing. */
  lemma {:induction false} KeepsAll(ch: Channel, evs: seq<Event>, i: nat)
    requires !ch.Forwards?
    ensures Backlog(ch, evs, i) == Picks(ch, evs, i) && AtOnce(ch, evs, i) == []
  {
    if evs != [] {
      var n := |evs| - 1;
      assert evs == evs[..n] + [evs[n]];
      KeepsAll(ch, evs[..n], i);
      PicksAppend(ch, evs[..n], [evs[n]], i);
      PicksOne(ch, evs[n], i);
    }
  }

  // ----- a goroutine inside a phase-1 sink call -----

  /** At most one call is in progress, and its blocks are the goroutine's own. */
  ghost predicate CallShape(todo: seq<Op>, j: nat) {
    && (|todo| <= 1 || (|todo| == 2 && todo[0].Emit? && todo[1] == Gate))
    && forall op | op in todo && op.Emit? :: OwnBlock(op.evs, j)
  }

  ghost predicate OwnBlock(evs: seq<Event>, j: nat) {
    forall ev | ev in evs :: ev.source == Job(j) || ev.source.Outer?
  }

  ghost predicate EarlyShape(s: System) {
    forall j | 0 <= j < |s.jobs| :: CallShape(s.jobs[j].todo, j)
  }

  /** What the blocks it is about to append show of job i. */
  function Waiting(ch: Channel, todo: seq<Op>, i: nat): seq<Event>
    decreases todo
  {
    if todo == [] then []
    else (if todo[0].Emit? then Carries(ch, todo[0], i) else []) + Waiting(ch, todo[1..], i)
  }

  lemma WaitingOne(ch: Channel, op: Op, i: nat)
    ensures Waiting(ch, [op], i) == if op.Emit? then Carries(ch, op, i) else []
    ensures Waiting(ch, [op, Gate], i) == if op.Emit? then Carries(ch, op, i) else []
  {
    assert [op][1..] == [] && [op, Gate][1..] == [Gate] && [Gate][1..] == [];
    assert Waiting(ch, [Gate], i) == [];
  }

  /** How many events of job i's turn phase 1 has handled. */
  ghost function Handled(s: System, traces: seq<seq<Event>>, i: nat): int
    requires i < |s.jobs| == |traces|
  {
    |traces[i]| - |Ahead(s.jobs[i], i)|
  }

  /** What phase 1 has handled of job i's turn is kept, or seen, or about to be. */
  ghost predicate EarlyAt(ch: Channel, s: System, traces: seq<seq<Event>>, i: nat)
    requires i < |s.jobs| == |s.agg.perJob| == |traces|
  {
    && 0 <= Handled(s, traces, i) <= |traces[i]|
    && var sent := Stamp(i, traces[i])[..Handled(s, traces, i)];
    && Kept(ch, s.agg, i) == Backlog(ch, sent, i)
    && Seen(ch, s.agg, i) + Waiting(ch, s.jobs[i].todo, i) == AtOnce(ch, sent, i)
  }

  // ----- one operation -----

  lemma BufferLeaves(a: Aggregator, j: nat, ev: Event, order: seq<nat>, traces: seq<seq<Event>>)
    requires j < |a.perJob| == |traces| && a.phase.Buffering? && PerJobOk(a.perJob[j], j, traces)
    requires OriginOf(ev, j, traces)
    requires !a.readyEmitted && !BufferSection(a, j, ev, order).0.readyEmitted
    ensures CallShape(BufferSection(a, j, ev, order).1, j)
  {
  }

  /** What a phase-1 operation leaves its goroutine. */
  lemma OpLeaves(a: Aggregator, j: nat, op: Op, c: Choice, traces: seq<seq<Event>>)
    requires j < |a.perJob| == |traces| && EarlyOp(op) && OpOk(op, j, traces) && PerJobOk(a.perJob[j], j, traces)
    requires !a.readyEmitted && !ExecOp(a, j, op, c).0.readyEmitted && (a.phase.Buffering? || op.Emit?)
    ensures var ops := ExecOp(a, j, op, c).1;
      CallShape(ops, j) && (op.Emit? || op.Gate? ==> ops == [])
  {
    if op.Buffer? {
      BufferLeaves(a, j, op.ev, c.order, traces);
    }
  }

  lemma ShapeNext(todo: seq<Op>, ops: seq<Op>, j: nat)
    requires todo != [] && CallShape(todo, j) && CallShape(ops, j)
    requires todo[0].Emit? || todo[0].Gate? ==> ops == []
    ensures CallShape(ops + todo[1..], j)
  {
    if todo[0].Emit? {
      assert ops + todo[1..] == todo[1..];
    } else {
      assert ops + todo[1..] == ops;
    }
  }

  lemma PhaseOf(s: System, j: nat)
    requires Lifecycle(s) && Split(s) && !s.agg.readyEmitted && j < |s.jobs| && s.jobs[j].todo != []
    ensures EarlyOp(s.jobs[j].todo[0]) && (s.agg.phase.Buffering? || s.jobs[j].todo[0].Emit?)
  {
    NotClosed(s, j);
  }

  lemma ExecEarlyShape(s: System, traces: seq<seq<Event>>, j: nat, c: Choice)
    requires Good(s, traces) && Split(s) && EarlyShape(s) && Enabled(s, Exec(j, c))
    requires !s.agg.readyEmitted && !Next(s, Exec(j, c)).agg.readyEmitted
    ensures EarlyShape(Next(s, Exec(j, c)))
  {
    var op := s.jobs[j].todo[0];
    PhaseOf(s, j);
    assert OpOk(op, j, traces) && PerJobOk(s.agg.perJob[j], j, traces);
    OpLeaves(s.agg, j, op, c, traces);
    assert CallShape(s.jobs[j].todo, j);
    ShapeNext(s.jobs[j].todo, ExecOp(s.agg, j, op, c).1, j);
  }

  lemma QuietEarlyShape(s: System, act: Action)
    requires Lifecycle(s) && EarlyShape(s) && Enabled(s, act) && !act.Exec?
    ensures EarlyShape(Next(s, act))
  {
    forall j | 0 <= j < |s.jobs| ensures |Next(s, act).jobs| == |s.jobs| && CallShape(Next(s, act).jobs[j].todo, j) {
      assert CallShape(s.jobs[j].todo, j);
    }
  }

  /** A block of another goroutine shows nothing of job i. */
  lemma ForeignBlock(ch: Channel, evs: seq<Event>, j: nat, i: nat)
    requires OwnBlock(evs, j) && j != i
    ensures Picks(ch, evs, i) == []
  {
    NoPicks(ch, evs, i);
  }

  /** What an operation of another goroutine does to job i: nothing. */
  lemma OpElsewhere(ch: Channel, a: Aggregator, j: nat, op: Op, c: Choice, i: nat)
    requires j < |a.perJob| && i < |a.perJob| && i != j && EarlyOp(op) && (op.Emit? ==> OwnBlock(op.evs, j))
    requires !a.readyEmitted && !ExecOp(a, j, op, c).0.readyEmitted
    ensures var b := ExecOp(a, j, op, c).0;
      |b.perJob| == |a.perJob| && b.perJob[i].initBuffer == a.perJob[i].initBuffer && Seen(ch, b, i) == Seen(ch, a, i)
  {
    if op.Emit? {
      ForeignBlock(ch, op.evs, j, i);
      PicksAppend(ch, a.log, op.evs, i);
    }
  }

  lemma EarlyElsewhere(ch: Channel, s: System, traces: seq<seq<Event>>, i: nat, j: nat, c: Choice)
    requires Good(s, traces) && Split(s) && EarlyShape(s) && Enabled(s, Exec(j, c)) && i != j
    requires !s.agg.readyEmitted && !Next(s, Exec(j, c)).agg.readyEmitted
    requires i < |s.jobs| == |traces| && EarlyAt(ch, s, traces, i)
    ensures var t := Next(s, Exec(j, c));
      |t.jobs| == |t.agg.perJob| == |traces| && EarlyAt(ch, t, traces, i)
  {
    PhaseOf(s, j);
    assert CallShape(s.jobs[j].todo, j);
    OpElsewhere(ch, s.agg, j, s.jobs[j].todo[0], c, i);
  }

  /** The buffer and the blocks after a phase-1 section of job i. */
  lemma BufferSplits(ch: Channel, a: Aggregator, i: nat, ev: Event, order: seq<nat>)
    requires i < |a.perJob| && a.phase.Buffering? && !a.readyEmitted && !BufferSection(a, i, ev, order).0.readyEmitted
    requires forall id | id in a.perJob[i].pending :: a.perJob[i].pending[id].KeyedStart()
    ensures var (b, ops) := BufferSection(a, i, ev, order);
      && |b.perJob| == |a.perJob| && b.log == a.log && b.merged == a.merged
      && b.perJob[i].initBuffer == a.perJob[i].initBuffer
           + (if ev.KeyedEnd() && ev.toolId in a.perJob[i].pending then [] else [ev])
      && Waiting(ch, ops, i) == if ev.KeyedEnd() then Picks(ch, [ev], i) else []
  {
    var p := a.perJob[i];
    if ev.KeyedEnd() {
      var start := if ev.toolId in p.pending then p.pending[ev.toolId] else ev.(kind := ToolStart);
      PairWaits(ch, start, ev, i);
    }
  }

  lemma PairWaits(ch: Channel, start: Event, end: Event, i: nat)
    requires start.KeyedStart() && end.KeyedEnd()
    ensures Waiting(ch, [Emit([start, end]), Gate], i) == Picks(ch, [end], i)
    ensures Waiting(ch, [Emit([end]), Gate], i) == Picks(ch, [end], i)
  {
    PairCarries(ch, start, end, i);
    CarriedOne(ch, Emit([start, end]), i);
    CarriedOne(ch, Emit([end]), i);
    WaitingOne(ch, Emit([start, end]), i);
    WaitingOne(ch, Emit([end]), i);
  }

  lemma BufferKept(ch: Channel, was: seq<Event>, ev: Event, i: nat, matched: bool)
    ensures Picks(ch, was + (if matched then [] else [ev]), i)
         == Picks(ch, was, i) + if matched then [] else Picks(ch, [ev], i)
  {
    if matched {
      assert was + [] == was;
    } else {
      PicksAppend(ch, was, [ev], i);
    }
  }

  ghost predicate Advances(s: System, t: System, traces: seq<seq<Event>>, i: nat, ev: Event)
    requires i < |s.jobs| == |s.agg.perJob| == |traces|
  {
    var n := Handled(s, traces, i);
    && 0 <= n < |traces[i]| && Stamp(i, traces[i])[n] == ev
    && |t.jobs| == |traces| && Handled(t, traces, i) == n + 1
    && s.agg.perJob[i].pending.Keys == OpenAfter(Stamp(i, traces[i])[..n])
  }

  /** The only operation of a call in progress runs. */
  lemma ExecOnly(s: System, i: nat, c: Choice, op: Op)
    requires Enabled(s, Exec(i, c)) && |s.agg.perJob| == |s.jobs| && s.jobs[i].todo == [op]
    ensures var (b, ops) := ExecOp(s.agg, i, op, c);
      Next(s, Exec(i, c)) == s.(agg := b, jobs := s.jobs[i := s.jobs[i].(todo := ops)])
  {
    var ops := ExecOp(s.agg, i, op, c).1;
    assert [op][1..] == [] && ops + [] == ops;
  }

  lemma AheadOf(g: Goroutine, i: nat, ev: Event, ops: seq<Op>)
    requires g.todo == [Buffer(ev)] && Upcoming(ops, i, i) == []
    ensures Ahead(g, i) == [ev] + g.rest && Ahead(g.(todo := ops), i) == g.rest
  {
    UpcomingOne(Buffer(ev), i);
    assert [] + g.rest == g.rest;
  }

  lemma UpcomingOne(op: Op, i: nat)
    ensures Upcoming([op], i, i) == Applies(op, i, i) && Upcoming([op, Gate], i, i) == Applies(op, i, i)
  {
    assert [op][1..] == [] && [op, Gate][1..] == [Gate] && [Gate][1..] == [];
    assert Upcoming([Gate], i, i) == [];
  }

  lemma OneCall(s: System, traces: seq<seq<Event>>, i: nat) returns (ev: Event)
    requires Good(s, traces) && Split(s) && EarlyShape(s) && !s.agg.readyEmitted
    requires i < |s.jobs| && s.jobs[i].todo != [] && s.jobs[i].todo[0].Buffer?
    ensures s.jobs[i].todo == [Buffer(ev)] && s.agg.phase.Buffering? && OriginOf(ev, i, traces)
    ensures Started(s.jobs[i])
    ensures forall id | id in s.agg.perJob[i].pending :: s.agg.perJob[i].pending[id].KeyedStart()
  {
    ev := s.jobs[i].todo[0].ev;
    PhaseOf(s, i);
    assert CallShape(s.jobs[i].todo, i) && ControlOk(s.jobs[i]) && OpOk(s.jobs[i].todo[0], i, traces);
    assert PerJobOk(s.agg.perJob[i], i, traces);
  }

  /** The call in progress brings the next event of job i's turn, to the table the events before left. */
  lemma NextOfTurn(s: System, traces: seq<seq<Event>>, i: nat, ev: Event)
    requires i < |s.jobs| == |traces| == |s.agg.perJob| && s.jobs[i].todo == [Buffer(ev)]
    requires Started(s.jobs[i]) && ConsumedAt(s, i, traces)
    ensures var n, trace := Handled(s, traces, i), Stamp(i, traces[i]);
      && 0 <= n == |trace| - 1 - |s.jobs[i].rest| && trace[n] == ev
      && s.agg.perJob[i].pending.Keys == OpenAfter(trace[..n])
  {
    AheadOf(s.jobs[i], i, ev, []);
    Advance(Stamp(i, traces[i]), ev, s.jobs[i].rest, s.agg.perJob[i].pending.Keys, s.agg.readyCount);
  }

  lemma RestAhead(s: System, i: nat, c: Choice, ev: Event)
    requires Enabled(s, Exec(i, c)) && s.jobs[i].todo == [Buffer(ev)] && |s.jobs| == |s.agg.perJob|
    requires s.agg.phase.Buffering? && !Next(s, Exec(i, c)).agg.readyEmitted
    ensures |Next(s, Exec(i, c)).jobs| == |s.jobs| && Ahead(Next(s, Exec(i, c)).jobs[i], i) == s.jobs[i].rest
  {
    ExecOnly(s, i, c, Buffer(ev));
    BufferTable(s.agg, i, ev, c.order);
    AheadOf(s.jobs[i], i, ev, BufferSection(s.agg, i, ev, c.order).1);
  }

  lemma BufferAdvances(s: System, traces: seq<seq<Event>>, i: nat, c: Choice, ev: Event)
    requires Enabled(s, Exec(i, c)) && s.jobs[i].todo == [Buffer(ev)] && |s.jobs| == |traces| == |s.agg.perJob|
    requires s.agg.phase.Buffering? && !Next(s, Exec(i, c)).agg.readyEmitted && Started(s.jobs[i])
    requires ConsumedAt(s, i, traces)
    ensures Advances(s, Next(s, Exec(i, c)), traces, i, ev)
  {
    NextOfTurn(s, traces, i, ev);
    RestAhead(s, i, c, ev);
  }

  lemma SectionDelivers(ch: Channel, a: Aggregator, i: nat, ev: Event, order: seq<nat>)
    requires i < |a.perJob| && a.phase.Buffering? && !a.readyEmitted && !BufferSection(a, i, ev, order).0.readyEmitted
    requires forall id | id in a.perJob[i].pending :: a.perJob[i].pending[id].KeyedStart()
    ensures var (b, ops) := BufferSection(a, i, ev, order);
      && |b.perJob| == |a.perJob| && Seen(ch, b, i) == Seen(ch, a, i)
      && Kept(ch, b, i) == Kept(ch, a, i)
           + (if ev.KeyedEnd() && ev.toolId in a.perJob[i].pending then [] else Picks(ch, [ev], i))
      && Waiting(ch, ops, i) == if ev.KeyedEnd() then Picks(ch, [ev], i) else []
  {
    BufferSplits(ch, a, i, ev, order);
    BufferKept(ch, a.perJob[i].initBuffer, ev, i, ev.KeyedEnd() && ev.toolId in a.perJob[i].pending);
  }

  /** A section that keeps ev, or leaves it to be appended, or both. */
  ghost predicate Delivers(ch: Channel, s: System, t: System, i: nat, ev: Event, matched: bool)
    requires i < |s.jobs| == |s.agg.perJob|
  {
    && |t.jobs| == |t.agg.perJob| == |s.jobs|
    && Kept(ch, t.agg, i) == Kept(ch, s.agg, i) + (if matched then [] else Picks(ch, [ev], i))
    && Seen(ch, t.agg, i) == Seen(ch, s.agg, i) && Waiting(ch, s.jobs[i].todo, i) == []
    && Waiting(ch, t.jobs[i].todo, i) == if ev.KeyedEnd() then Picks(ch, [ev], i) else []
  }

  predicate Matched(ev: Event, open: set<string>) { ev.KeyedEnd() && ev.toolId in open }

  lemma BufferDelivers(ch: Channel, s: System, i: nat, c: Choice, ev: Event)
    requires Enabled(s, Exec(i, c)) && s.jobs[i].todo == [Buffer(ev)] && |s.jobs| == |s.agg.perJob|
    requires s.agg.phase.Buffering? && !s.agg.readyEmitted && !Next(s, Exec(i, c)).agg.readyEmitted
    requires forall id | id in s.agg.perJob[i].pending :: s.agg.perJob[i].pending[id].KeyedStart()
    ensures Delivers(ch, s, Next(s, Exec(i, c)), i, ev, Matched(ev, s.agg.perJob[i].pending.Keys))
  {
    ExecOnly(s, i, c, Buffer(ev));
    SectionDelivers(ch, s.agg, i, ev, c.order);
    WaitingOne(ch, Buffer(ev), i);
  }

  lemma PrefixNext(ch: Channel, trace: seq<Event>, n: nat, ev: Event, i: nat)
    requires n < |trace| && trace[n] == ev
    ensures Backlog(ch, trace[..n + 1], i)
         == Backlog(ch, trace[..n], i) + if Matched(ev, OpenAfter(trace[..n])) then [] else Picks(ch, [ev], i)
    ensures AtOnce(ch, trace[..n + 1], i)
         == AtOnce(ch, trace[..n], i) + if ev.KeyedEnd() then Picks(ch, [ev], i) else []
  {
    assert trace[..n + 1] == trace[..n] + [ev];
    BacklogNext(ch, trace[..n], ev, i);
  }

  lemma EarlyAdvances(ch: Channel, s: System, t: System, traces: seq<seq<Event>>, i: nat, ev: Event)
    requires i < |s.jobs| == |s.agg.perJob| == |traces| && EarlyAt(ch, s, traces, i)
    requires Advances(s, t, traces, i, ev) && Delivers(ch, s, t, i, ev, Matched(ev, s.agg.perJob[i].pending.Keys))
    ensures EarlyAt(ch, t, traces, i)
  {
    var n := Handled(s, traces, i);
    PrefixNext(ch, Stamp(i, traces[i]), n, ev, i);
    assert Seen(ch, s.agg, i) + [] == Seen(ch, s.agg, i);
    assert Seen(ch, s.agg, i) == AtOnce(ch, Stamp(i, traces[i])[..n], i);
    assert Handled(t, traces, i) == n + 1;
  }

  /** The phase-1 section of the next event of job i's turn. */
  lemma EarlyBuffer(ch: Channel, s: System, traces: seq<seq<Event>>, i: nat, c: Choice)
    requires Good(s, traces) && Split(s) && EarlyShape(s) && Enabled(s, Exec(i, c)) && s.jobs[i].todo[0].Buffer?
    requires !s.agg.readyEmitted && !Next(s, Exec(i, c)).agg.readyEmitted && |s.jobs| == |traces|
    requires EarlyAt(ch, s, traces, i) && ConsumedAt(s, i, traces)
    ensures var t := Next(s, Exec(i, c));
      |t.jobs| == |t.agg.perJob| == |traces| && EarlyAt(ch, t, traces, i)
  {
    var ev := OneCall(s, traces, i);
    BufferAdvances(s, traces, i, c, ev);
    BufferDelivers(ch, s, i, c, ev);
    EarlyAdvances(ch, s, Next(s, Exec(i, c)), traces, i, ev);
  }

  /** Every other operation of job i's own goroutine before the transition. */
  lemma OpKeepsWaiting(ch: Channel, a: Aggregator, i: nat, op: Op, c: Choice)
    requires i < |a.perJob| && EarlyOp(op) && !op.Buffer? && (a.phase.Buffering? || op.Emit?)
    requires !a.readyEmitted && !ExecOp(a, i, op, c).0.readyEmitted
    ensures var (b, ops) := ExecOp(a, i, op, c);
      && b.perJob == a.perJob
      && Seen(ch, b, i) + Waiting(ch, ops, i) == Seen(ch, a, i) + (if op.Emit? then Carries(ch, op, i) else [])
      && (ops == [] || (op.Handle? && ops == [Buffer(op.ev)]))
  {
    match op
    case Handle(ev) => WaitingOne(ch, Buffer(ev), i);
    case Gate =>
    case Emit(evs) => PicksAppend(ch, a.log, evs, i);
  }

  lemma EarlyOther(ch: Channel, s: System, traces: seq<seq<Event>>, i: nat, c: Choice)
    requires Good(s, traces) && Split(s) && ReadyGate(s, ReadysSent(traces)) && EarlyShape(s) && Enabled(s, Exec(i, c))
    requires !s.jobs[i].todo[0].Buffer?
    requires !s.agg.readyEmitted && !Next(s, Exec(i, c)).agg.readyEmitted && |s.jobs| == |traces|
    requires EarlyAt(ch, s, traces, i)
    ensures var t := Next(s, Exec(i, c));
      |t.jobs| == |t.agg.perJob| == |traces| && EarlyAt(ch, t, traces, i)
  {
    var g := s.jobs[i];
    var op := g.todo[0];
    var ops := ExecOp(s.agg, i, op, c).1;
    PhaseOf(s, i);
    GateShut(s, traces);
    EarlyOpTable(s.agg, i, op, c);
    AheadAfter(g, i, ops);
    OpKeepsWaiting(ch, s.agg, i, op, c);
    WaitingTail(ch, g.todo, ops, i);
    var tail := Waiting(ch, g.todo[1..], i);
    Regroup(Seen(ch, Next(s, Exec(i, c)).agg, i), Waiting(ch, ops, i), tail);
    Regroup(Seen(ch, s.agg, i), if op.Emit? then Carries(ch, op, i) else [], tail);
  }

  lemma {:induction false} WaitingAppend(ch: Channel, a: seq<Op>, b: seq<Op>, i: nat)
    ensures Waiting(ch, a + b, i) == Waiting(ch, a, i) + Waiting(ch, b, i)
    decreases a
  {
    if a == [] {
      assert a + b == b;
    } else {
      assert (a + b)[0] == a[0] && (a + b)[1..] == a[1..] + b;
      WaitingAppend(ch, a[1..], b, i);
    }
  }

  lemma WaitingTail(ch: Channel, todo: seq<Op>, ops: seq<Op>, i: nat)
    requires todo != []
    ensures Waiting(ch, ops + todo[1..], i) == Waiting(ch, ops, i) + Waiting(ch, todo[1..], i)
    ensures Waiting(ch, todo, i)
         == (if todo[0].Emit? then Carries(ch, todo[0], i) else []) + Waiting(ch, todo[1..], i)
  {
    WaitingAppend(ch, ops, todo[1..], i);
  }

  lemma EarlyExec(ch: Channel, s: System, traces: seq<seq<Event>>, i: nat, j: nat, c: Choice)
    requires Inv(s, traces) && Phase1(s, traces) && EarlyShape(s) && Enabled(s, Exec(j, c))
    requires !s.agg.readyEmitted && !Next(s, Exec(j, c)).agg.readyEmitted
    requires i < |s.jobs| == |traces| && EarlyAt(ch, s, traces, i)
    ensures var t := Next(s, Exec(j, c));
      |t.jobs| == |t.agg.perJob| == |traces| && EarlyAt(ch, t, traces, i)
  {
    if i != j {
      EarlyElsewhere(ch, s, traces, i, j, c);
    } else if s.jobs[i].todo[0].Buffer? {
      assert ConsumedAt(s, i, traces);
      EarlyBuffer(ch, s, traces, i, c);
    } else {
      EarlyOther(ch, s, traces, i, c);
    }
  }

  /** The other steps leave the buffer, what is ahead and what waits. */
  lemma CallWaiting(ch: Channel, s: System, i: nat)
    requires Lifecycle(s) && Enabled(s, Call(i))
    ensures Waiting(ch, Next(s, Call(i)).jobs[i].todo, i) == Waiting(ch, s.jobs[i].todo, i)
    ensures Ahead(Next(s, Call(i)).jobs[i], i) == Ahead(s.jobs[i], i)
  {
    QuietCall(s, i);
    WaitingOne(ch, Handle(s.jobs[i].rest[0]), i);
  }

  lemma MarkWaiting(ch: Channel, s: System, i: nat)
    requires Lifecycle(s) && Enabled(s, Mark(i))
    ensures Waiting(ch, Next(s, Mark(i)).jobs[i].todo, i) == Waiting(ch, s.jobs[i].todo, i)
    ensures Ahead(Next(s, Mark(i)).jobs[i], i) == Ahead(s.jobs[i], i)
  {
    QuietMark(s, i);
    assert ControlOk(s.jobs[i]);
    WaitingOne(ch, Emit([OuterResult]), i);
    NoPicks(ch, [OuterResult], i);
  }

  lemma StageWaiting(s: System, act: Action, i: nat)
    requires Lifecycle(s) && Enabled(s, act) && !act.Exec? && !act.Call? && !act.Mark? && i < |s.jobs|
    ensures i < |Next(s, act).jobs|
    ensures Next(s, act).jobs[i].todo == s.jobs[i].todo && Next(s, act).jobs[i].rest == s.jobs[i].rest
  {
  }

  lemma QuietBuffer(s: System, traces: seq<seq<Event>>, act: Action, i: nat)
    requires Good(s, traces) && Enabled(s, act) && !act.Exec? && i < |s.jobs|
    ensures |Next(s, act).jobs| == |s.jobs| == |Next(s, act).agg.perJob|
    ensures Next(s, act).agg.perJob[i].initBuffer == s.agg.perJob[i].initBuffer
  {
  }

  lemma QuietWaiting(ch: Channel, s: System, act: Action, i: nat)
    requires Lifecycle(s) && Enabled(s, act) && !act.Exec? && i < |s.jobs|
    ensures |Next(s, act).jobs| == |s.jobs|
    ensures Ahead(Next(s, act).jobs[i], i) == Ahead(s.jobs[i], i)
    ensures Waiting(ch, Next(s, act).jobs[i].todo, i) == Waiting(ch, s.jobs[i].todo, i)
  {
    if act == Call(i) {
      CallWaiting(ch, s, i);
    } else if act == Mark(i) {
      MarkWaiting(ch, s, i);
    } else if act.Call? || act.Mark? {
      QuietElsewhere(s, act, i);
    } else {
      StageWaiting(s, act, i);
    }
  }

  lemma EarlyQuiet(ch: Channel, s: System, traces: seq<seq<Event>>, i: nat, act: Action)
    requires Good(s, traces) && Enabled(s, act) && !act.Exec?
    requires i < |s.jobs| == |traces| && EarlyAt(ch, s, traces, i)
    ensures |Next(s, act).jobs| == |Next(s, act).agg.perJob| == |traces| && EarlyAt(ch, Next(s, act), traces, i)
  {
    QuietWaiting(ch, s, act, i);
    QuietBuffer(s, traces, act, i);
    QuietLog(ch, s, traces, act, i);
  }

  // ----- everything known before the transition -----

  ghost predicate Before(s: System, traces: seq<seq<Event>>) {
    && Inv(s, traces) && Phase1(s, traces) && !s.agg.readyEmitted && EarlyShape(s)
    && forall ch: Channel, i | 0 <= i < |traces| :: EarlyAt(ch, s, traces, i)
  }

  lemma InitEarly(ch: Channel, traces: seq<seq<Event>>, i: nat)
    requires i < |traces|
    ensures EarlyAt(ch, Init(traces), traces, i)
  {
    var s := Init(traces);
    assert Ahead(s.jobs[i], i) == Stamp(i, traces[i]);
    assert Stamp(i, traces[i])[..0] == [];
  }

  lemma InitBefore(traces: seq<seq<Event>>)
    ensures Before(Init(traces), traces)
  {
    InitInv(traces);
    InitPhase1(traces);
    forall ch: Channel, i | 0 <= i < |traces| ensures EarlyAt(ch, Init(traces), traces, i) {
      InitEarly(ch, traces, i);
    }
  }

  lemma NextBefore(s: System, act: Action, traces: seq<seq<Event>>)
    requires Before(s, traces) && Enabled(s, act) && !Next(s, act).agg.readyEmitted
    ensures Before(Next(s, act), traces)
  {
    NextInv(s, act, traces);
    if act.Exec? {
      ExecPhase1(s, act.i, act.c, traces);
      ExecEarlyShape(s, traces, act.i, act.c);
    } else {
      QuietPhase1(s, act, traces);
      QuietEarlyShape(s, act);
    }
    forall ch: Channel, i | 0 <= i < |traces| ensures EarlyAt(ch, Next(s, act), traces, i) {
      assert EarlyAt(ch, s, traces, i);
      if act.Exec? {
        EarlyExec(ch, s, traces, i, act.i, act.c);
      } else {
        EarlyQuiet(ch, s, traces, i, act);
      }
    }
  }

  // ----- the transition -----

  /** Goroutine r's next operation opens phase 2. */
  ghost predicate Opens(s: System, r: nat, c: Choice) {
    && Enabled(s, Exec(r, c)) && |s.agg.perJob| == |s.jobs|
    && !s.agg.readyEmitted && Next(s, Exec(r, c)).agg.readyEmitted
  }

  /** The section that opens phase 2 counts a Ready, the last one missing. */
  lemma TriggerIsReady(s: System, traces: seq<seq<Event>>, r: nat, c: Choice)
    requires Inv(s, traces) && |s.jobs| == |traces| && Opens(s, r, c)
    ensures s.jobs[r].todo[0].Buffer? && s.jobs[r].todo[0].ev.kind.Ready?
    ensures s.agg.readyCount + 1 == |traces|
  {
    var op := s.jobs[r].todo[0];
    var (b, ops) := ExecOp(s.agg, r, op, c);
    ExecReady(s.agg, r, op, c);
    ExecLifecycle(s.agg, r, op, c);
    SumNonNegative(ops, ReadyAhead());
    GateShut(s, traces);
    assert EarlyOp(op);
    assert ReadyAhead()(op) >= 1;
  }

  /** A Ready in the buffer shows nothing. */
  lemma ReadyKept(ch: Channel, a: Aggregator, r: nat, ev: Event, i: nat)
    requires r < |a.perJob| && i < |a.perJob| && OwnBuffers(a.perJob) && ev.kind.Ready? && ev.source == Job(r)
    ensures |Buffered(a, r, ev).perJob| == |a.perJob| && OwnBuffers(Buffered(a, r, ev).perJob)
    ensures Picks(ch, Buffered(a, r, ev).perJob[i].initBuffer, i) == Kept(ch, a, i)
  {
    if i == r {
      PicksAppend(ch, a.perJob[r].initBuffer, [ev], r);
      PicksOne(ch, ev, r);
      assert Kept(ch, a, r) + [] == Kept(ch, a, r);
    }
  }

  lemma ReadyCarries(ch: Channel, a: Aggregator, r: nat, ev: Event, order: seq<nat>, i: nat)
    requires r < |a.perJob| && i < |a.perJob| && ValidOrder(order, |a.perJob|) && OwnBuffers(a.perJob)
    requires ev.kind.Ready? && ev.source == Job(r) && !a.readyEmitted
    requires BufferSection(a, r, ev, order).0.readyEmitted
    ensures var (b, ops) := BufferSection(a, r, ev, order);
      Carried(ch, ops, i) == Kept(ch, a, i) && b.log == a.log && b.merged == a.merged
  {
    ReadyKept(ch, a, r, ev, i);
    GateCarries(ch, Buffered(a, r, ev).(readyCount := a.readyCount + 1), order, i);
  }

  lemma OwnersKnown(s: System, traces: seq<seq<Event>>)
    requires Shape(s, traces)
    ensures OwnBuffers(s.agg.perJob)
  {
    forall j, ev | 0 <= j < |s.agg.perJob| && ev in s.agg.perJob[j].initBuffer ensures ev.source == Job(j) {
      assert PerJobOk(s.agg.perJob[j], j, traces);
    }
  }

  lemma OpeningCall(s: System, traces: seq<seq<Event>>, r: nat, c: Choice) returns (ev: Event)
    requires Inv(s, traces) && EarlyShape(s) && Opens(s, r, c) && |s.jobs| == |traces|
    ensures s.jobs[r].todo == [Buffer(ev)] && ev.kind.Ready? && ev.source == Job(r)
  {
    TriggerIsReady(s, traces, r, c);
    ev := OneCall(s, traces, r);
  }

  /** At t goroutine r carries of job i what phase 1 had kept at s. */
  ghost predicate Replays(ch: Channel, s: System, t: System, r: nat, i: nat)
    requires i < |s.jobs| == |s.agg.perJob| && r < |s.jobs|
  {
    && |t.jobs| == |s.jobs| && t.jobs[r].rest == s.jobs[r].rest
    && Carried(ch, t.jobs[r].todo, i) == Kept(ch, s.agg, i) && Seen(ch, t.agg, i) == Seen(ch, s.agg, i)
  }

  lemma ReplayLeft(ch: Channel, s: System, r: nat, c: Choice, i: nat, ev: Event)
    requires Opens(s, r, c) && i < |s.jobs| && OwnBuffers(s.agg.perJob)
    requires s.jobs[r].todo == [Buffer(ev)] && ev.kind.Ready? && ev.source == Job(r)
    ensures Replays(ch, s, Next(s, Exec(r, c)), r, i)
  {
    ExecOnly(s, r, c, Buffer(ev));
    ReadyCarries(ch, s.agg, r, ev, c.order, i);
  }

  lemma ReadyCall(ch: Channel, ev: Event, i: nat)
    requires ev.kind.Ready?
    ensures Carried(ch, [Buffer(ev)], i) == []
  {
    CarriedOne(ch, Buffer(ev), i);
    PicksOne(ch, ev, i);
  }

  /** The opening goroutine's operations are the replay: of job i what phase 1 had kept. */
  lemma OpensReplay(ch: Channel, s: System, traces: seq<seq<Event>>, r: nat, c: Choice, i: nat)
    requires Inv(s, traces) && EarlyShape(s) && Opens(s, r, c) && i < |s.jobs| == |traces|
    ensures Replays(ch, s, Next(s, Exec(r, c)), r, i) && Carried(ch, s.jobs[r].todo, i) == []
  {
    var ev := OpeningCall(s, traces, r, c);
    OwnersKnown(s, traces);
    ReplayLeft(ch, s, r, c, i, ev);
    ReadyCall(ch, ev, i);
  }

  lemma ExecElsewhere(s: System, r: nat, c: Choice, j: nat)
    requires Enabled(s, Exec(r, c)) && |s.agg.perJob| == |s.jobs| && j < |s.jobs| && j != r
    ensures |Next(s, Exec(r, c)).jobs| == |s.jobs| && Next(s, Exec(r, c)).jobs[j] == s.jobs[j]
  {
  }

  /** Before the transition no goroutine carries another job's events. */
  lemma ForeignTodo(ch: Channel, todo: seq<Op>, j: nat, i: nat, traces: seq<seq<Event>>)
    requires j != i && CallShape(todo, j) && forall op | op in todo :: EarlyOp(op) && OpOk(op, j, traces)
    ensures Carried(ch, todo, i) == []
  {
    if todo != [] {
      var op := todo[0];
      assert op in todo;
      assert todo == [op] || todo == [op, Gate];
      CarriedOne(ch, op, i);
      if op.Emit? {
        ForeignBlock(ch, op.evs, j, i);
      } else if op.Handle? || op.Buffer? {
        PicksOne(ch, op.ev, i);
      }
    }
  }

  /** The three parts of job i's turn when phase 2 opens at s. */
  ghost function PartsOf(ch: Channel, s: System, i: nat): Parts
    requires i < |s.jobs| == |s.agg.perJob|
  {
    Parts(Seen(ch, s.agg, i), Kept(ch, s.agg, i), Live(ch, s.jobs[i], i))
  }

  lemma NothingYet(ch: Channel, t: System, r: nat, i: nat, q: Parts)
    requires i < |t.jobs| && r < |t.jobs|
    requires Carried(ch, t.jobs[r].todo, i) == q.early && Live(ch, t.jobs[i], i) == q.late
    requires Seen(ch, t.agg, i) == q.base
    ensures PartsAt(ch, t, r, i, q, [], [])
  {
    assert [] + Carried(ch, t.jobs[r].todo, i) == Carried(ch, t.jobs[r].todo, i);
    assert [] + Live(ch, t.jobs[i], i) == Live(ch, t.jobs[i], i);
    assert Shuffle([], [], []);
  }

  lemma OwnParts(base: seq<Event>, early: seq<Event>, rest: seq<Event>)
    ensures base + (early + rest) == (base + early) + ([] + rest)
  {
  }

  lemma OpensLate(ch: Channel, s: System, traces: seq<seq<Event>>, r: nat, c: Choice, i: nat)
    requires Inv(s, traces) && EarlyShape(s) && Opens(s, r, c) && i < |s.jobs| == |traces|
    ensures |Next(s, Exec(r, c)).jobs| == |traces|
    ensures LateAt(ch, Next(s, Exec(r, c)), r, i, PartsOf(ch, s, i))
  {
    var t, q := Next(s, Exec(r, c)), PartsOf(ch, s, i);
    OpensReplay(ch, s, traces, r, c, i);
    forall j | 0 <= j < |t.jobs| && j != i && j != r ensures Carried(ch, t.jobs[j].todo, i) == [] {
      ExecElsewhere(s, r, c, j);
      assert CallShape(s.jobs[j].todo, j);
      ForeignTodo(ch, s.jobs[j].todo, j, i, traces);
    }
    if i == r {
      OwnParts(q.base, q.early, Picks(ch, s.jobs[r].rest, r));
    } else {
      ExecElsewhere(s, r, c, i);
      NothingYet(ch, t, r, i, q);
    }
  }

  /** What a goroutine carries of its own job before the transition: the blocks that wait, then what is ahead. */
  lemma LiveSplits(ch: Channel, g: Goroutine, i: nat)
    requires CallShape(g.todo, i) && forall op | op in g.todo :: EarlyOp(op)
    ensures Live(ch, g, i) == Waiting(ch, g.todo, i) + Picks(ch, Ahead(g, i), i)
  {
    var up := Upcoming(g.todo, i, i);
    PicksAppend(ch, up, g.rest, i);
    CarriedSplits(ch, g.todo, i);
    Regroup(Waiting(ch, g.todo, i), Picks(ch, up, i), Picks(ch, g.rest, i));
  }

  lemma CarriedSplits(ch: Channel, todo: seq<Op>, i: nat)
    requires CallShape(todo, i) && forall op | op in todo :: EarlyOp(op)
    ensures Carried(ch, todo, i) == Waiting(ch, todo, i) + Picks(ch, Upcoming(todo, i, i), i)
  {
    if todo != [] {
      var op := todo[0];
      assert op in todo;
      assert todo == [op] || todo == [op, Gate];
      CarriedOne(ch, op, i);
      WaitingOne(ch, op, i);
      UpcomingOne(op, i);
    }
  }

  /** The parts in terms of the turn: phase 1 has handled its first n events and appended e of their ToolEnds. */
  ghost predicate CutAt(ch: Channel, q: Parts, trace: seq<Event>, i: nat, n: nat, e: nat) {
    && n <= |trace| && e <= |AtOnce(ch, trace[..n], i)|
    && q.base == AtOnce(ch, trace[..n], i)[..e]
    && q.early == Backlog(ch, trace[..n], i)
    && q.late == AtOnce(ch, trace[..n], i)[e..] + Picks(ch, trace[n..], i)
  }

  lemma CutOf(ch: Channel, s: System, traces: seq<seq<Event>>, i: nat)
    requires i < |s.jobs| == |s.agg.perJob| == |traces| && EarlyAt(ch, s, traces, i) && ConsumedAt(s, i, traces)
    requires CallShape(s.jobs[i].todo, i) && forall op | op in s.jobs[i].todo :: EarlyOp(op)
    ensures CutAt(ch, PartsOf(ch, s, i), Stamp(i, traces[i]), i, Handled(s, traces, i), |Seen(ch, s.agg, i)|)
  {
    var trace, n := Stamp(i, traces[i]), Handled(s, traces, i);
    LiveSplits(ch, s.jobs[i], i);
    TailOf(Seen(ch, s.agg, i), Waiting(ch, s.jobs[i].todo, i), AtOnce(ch, trace[..n], i));
    assert trace[n..] == Ahead(s.jobs[i], i);
  }

  lemma PartsCut(ch: Channel, s: System, traces: seq<seq<Event>>, i: nat)
    requires Before(s, traces) && i < |s.jobs| == |traces|
    ensures 0 <= Handled(s, traces, i)
    ensures CutAt(ch, PartsOf(ch, s, i), Stamp(i, traces[i]), i, Handled(s, traces, i), |Seen(ch, s.agg, i)|)
  {
    assert EarlyAt(ch, s, traces, i) && ConsumedAt(s, i, traces) && CallShape(s.jobs[i].todo, i);
    CutOf(ch, s, traces, i);
  }

  lemma TailOf(a: seq<Event>, b: seq<Event>, all: seq<Event>)
    requires a + b == all
    ensures |a| <= |all| && a == all[..|a|] && b == all[|a|..]
  {
  }

  /** The one step of a run that opens phase 2. */
  ghost predicate OpensIn(s: System, acts: seq<Action>, t: System, traces: seq<seq<Event>>, k: nat, mid: System,
                          r: nat, c: Choice)
  {
    && k < |acts| && acts[k] == Exec(r, c) && Runs(s, acts[..k], mid) && Before(mid, traces) && Opens(mid, r, c)
    && Runs(Next(mid, Exec(r, c)), acts[k + 1..], t)
  }

  lemma OpensHere(s: System, acts: seq<Action>, t: System, traces: seq<seq<Event>>) returns (r: nat, c: Choice)
    requires Before(s, traces) && Runs(s, acts, t) && acts != [] && Next(s, acts[0]).agg.readyEmitted
    ensures OpensIn(s, acts, t, traces, 0, s, r, c)
  {
    if !acts[0].Exec? {
      QuietCounters(s, acts[0]);
    }
    r, c := acts[0].i, acts[0].c;
    assert Runs(s, acts[..0], s);
  }

  lemma OpensLater(s: System, acts: seq<Action>, t: System, traces: seq<seq<Event>>, k: nat, mid: System, r: nat,
                   c: Choice)
    requires acts != [] && Enabled(s, acts[0]) && |s.agg.perJob| == |s.jobs|
    requires OpensIn(Next(s, acts[0]), acts[1..], t, traces, k, mid, r, c)
    ensures OpensIn(s, acts, t, traces, k + 1, mid, r, c)
  {
    assert acts[..k + 1][0] == acts[0] && acts[..k + 1][1..] == acts[1..][..k];
    assert acts[1..][k + 1..] == acts[k + 2..];
  }

  lemma {:induction false} FindOpening(s: System, acts: seq<Action>, t: System, traces: seq<seq<Event>>)
    returns (k: nat, mid: System, r: nat, c: Choice)
    requires Before(s, traces) && Runs(s, acts, t) && t.agg.readyEmitted
    ensures OpensIn(s, acts, t, traces, k, mid, r, c)
    decreases acts
  {
    if Next(s, acts[0]).agg.readyEmitted {
      r, c := OpensHere(s, acts, t, traces);
      k, mid := 0, s;
    } else {
      NextBefore(s, acts[0], traces);
      k, mid, r, c := FindOpening(Next(s, acts[0]), acts[1..], t, traces);
      OpensLater(s, acts, t, traces, k, mid, r, c);
      k := k + 1;
    }
  }

  lemma {:induction false} StillBefore(s: System, acts: seq<Action>, t: System, traces: seq<seq<Event>>)
    requires Before(s, traces) && Runs(s, acts, t) && !t.agg.readyEmitted
    ensures Before(t, traces)
    decreases acts
  {
    if acts != [] {
      if Next(s, acts[0]).agg.readyEmitted {
        ReadyForGood(Next(s, acts[0]), acts[1..], t);
      }
      NextBefore(s, acts[0], traces);
      StillBefore(Next(s, acts[0]), acts[1..], t, traces);
    }
  }
}

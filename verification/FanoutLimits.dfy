/**
 When ToolEnds are forwarded once. A ToolEnd without its Start that meets phase 1 is emitted
 there and again by the replay. This module gives the condition on the turns that rules it
 out; FanoutOvertaking shows that the condition is exact.
 */
module FanoutLimits {
  import opened Sums
  import opened AggregatorSpec
  import opened Fanout
  import opened FanoutDelivery
  import opened FanoutOutcome
  import opened FanoutResults
  import opened FanoutTools

  /** The ids whose Start waits for its End after a job's phase-1 sections handled evs. */
  function OpenAfter(evs: seq<Event>): set<string> {
    if evs == [] then {}
    else
      var last := evs[|evs| - 1];
      var before := OpenAfter(evs[..|evs| - 1]);
      if last.KeyedStart() then before + {last.toolId}
      else if last.KeyedEnd() then before - {last.toolId}
      else before
  }

  lemma OpenAfterNext(evs: seq<Event>, ev: Event)
    ensures OpenAfter(evs + [ev]) ==
      if ev.KeyedStart() then OpenAfter(evs) + {ev.toolId}
      else if ev.KeyedEnd() then OpenAfter(evs) - {ev.toolId}
      else OpenAfter(evs)
  {
    assert (evs + [ev])[..|evs|] == evs;
  }

  ghost function ReadysIn(evs: seq<Event>): int { Sum(evs, IsReady()) }

  /** Event k of the turn is a keyed ToolEnd whose Start is missing. */
  ghost predicate Unmatched(trace: seq<Event>, k: nat)
    requires k < |trace|
  {
    trace[k].KeyedEnd() && trace[k].toolId !in OpenAfter(trace[..k])
  }

  /** The Readys the groups before i send, but for those held back. */
  ghost function EarlierReadys(traces: seq<seq<Event>>, i: nat, held: set<nat>): int
    requires i <= |traces|
  {
    if i == 0 then 0
    else EarlierReadys(traces, i - 1, held) + if i - 1 in held then 0 else ReadysIn(Stamp(i - 1, traces[i - 1]))
  }

  /**
   Event k of group i's turn can be sent before phase 2: group i is launched after the groups before it, of which
   all but three must have returned, so their Readys and the turn's own before k have to be too few.
   */
  ghost predicate InTime(traces: seq<seq<Event>>, i: nat, k: nat)
    requires i < |traces| && k < |traces[i]|
  {
    exists held: set<nat> | |held| < MAX_JOBS ::
      EarlierReadys(traces, i, held) + ReadysIn(Stamp(i, traces[i])[..k]) < |traces|
  }

  /** The unmatched ToolEnd k of group i's turn may still meet phase 1. */
  ghost predicate EarlyUnmatched(traces: seq<seq<Event>>, i: nat, k: nat)
    requires i < |traces| && k < |traces[i]|
  {
    Unmatched(Stamp(i, traces[i]), k) && InTime(traces, i, k)
  }

  ghost predicate NoEarlyUnmatched(traces: seq<seq<Event>>) {
    forall i, k | 0 <= i < |traces| && 0 <= k < |traces[i]| :: !EarlyUnmatched(traces, i, k)
  }

  // ----- the condition suffices -----

  /** What job i's goroutine has still to apply, in order. */
  ghost function Ahead(g: Goroutine, i: nat): seq<Event> { Upcoming(g.todo, i, i) + g.rest }

  /** A job with `ahead` still to apply has had the rest of its turn handled by phase-1 sections. */
  ghost predicate Consumed(ahead: seq<Event>, started: bool, open: set<string>, count: int, trace: seq<Event>) {
    && |ahead| <= |trace|
    && trace[|trace| - |ahead|..] == ahead
    && (if started then open == OpenAfter(trace[..|trace| - |ahead|]) else |ahead| == |trace|)
    && ReadysIn(trace[..|trace| - |ahead|]) <= count
  }

  ghost predicate Started(g: Goroutine) { !g.stage.Waiting? && !g.stage.Wrapping? }

  ghost predicate ConsumedAt(s: System, i: nat, traces: seq<seq<Event>>)
    requires i < |s.jobs| == |s.agg.perJob| == |traces|
  {
    Consumed(Ahead(s.jobs[i], i), Started(s.jobs[i]), s.agg.perJob[i].pending.Keys, s.agg.readyCount,
      Stamp(i, traces[i]))
  }

  ghost predicate EarlyStray(e: Event, traces: seq<seq<Event>>) {
    exists i, k :: 0 <= i < |traces| && 0 <= k < |traces[i]|
      && EarlyUnmatched(traces, i, k) && Stamp(i, traces[i])[k] == e
  }

  ghost predicate Phase1(s: System, traces: seq<seq<Event>>) {
    && |s.jobs| == |s.agg.perJob| == |traces|
    && (!s.agg.readyEmitted ==> forall i | 0 <= i < |s.jobs| :: ConsumedAt(s, i, traces))
    && (forall e | e in s.agg.strays :: EarlyStray(e, traces))
  }

  ghost function NextOpen(open: set<string>, ev: Event): set<string> {
    if ev.KeyedStart() then open + {ev.toolId} else if ev.KeyedEnd() then open - {ev.toolId} else open
  }

  /** The head of what is ahead is the next event of the turn. */
  lemma Advance(trace: seq<Event>, ev: Event, later: seq<Event>, open: set<string>, count: int)
    requires Consumed([ev] + later, true, open, count, trace)
    ensures Consumed(later, true, NextOpen(open, ev), count + IsReady()(ev), trace)
    ensures var n := |trace| - 1 - |later|;
      0 <= n && trace[n] == ev && open == OpenAfter(trace[..n]) && ReadysIn(trace[..n]) <= count
  {
    var n := |trace| - 1 - |later|;
    assert trace[n..][0] == ev && trace[n..][1..] == later;
    assert trace[n + 1..] == later;
    assert trace[..n + 1] == trace[..n] + [ev];
    SumAppend(trace[..n], [ev], IsReady());
    SumSmall(IsReady(), ev, ev);
    OpenAfterNext(trace[..n], ev);
  }

  ghost predicate TableStep(a: Aggregator, i: nat, ev: Event, after: (Aggregator, seq<Op>))
    requires i < |a.perJob|
  {
    var (b, ops) := after;
    && |b.perJob| == |a.perJob| && b.expected == a.expected
    && b.perJob[i].pending.Keys == NextOpen(a.perJob[i].pending.Keys, ev)
    && (forall j | 0 <= j < |a.perJob| && j != i :: b.perJob[j].pending == a.perJob[j].pending)
    && b.readyCount == a.readyCount + IsReady()(ev)
    && b.strays == (if ev.KeyedEnd() && ev.toolId !in a.perJob[i].pending then a.strays + [ev] else a.strays)
    && (!b.readyEmitted ==> Upcoming(ops, i, i) == [] && b.phase.Buffering?)
    && (!a.readyEmitted && b.readyCount < b.expected ==> !b.readyEmitted)
  }

  lemma EndTable(a: Aggregator, i: nat, ev: Event, order: seq<nat>)
    requires i < |a.perJob| && a.phase.Buffering? && ev.KeyedEnd()
    ensures TableStep(a, i, ev, BufferSection(a, i, ev, order))
  {
    var p := a.perJob[i];
    assert (p.pending - {ev.toolId}).Keys == p.pending.Keys - {ev.toolId};
    var ops := BufferSection(a, i, ev, order).1;
    assert ops[1..] == [Gate] && Upcoming([Gate], i, i) == Applies(Gate, i, i) + Upcoming([], i, i);
    assert Upcoming(ops, i, i) == Applies(ops[0], i, i) + Upcoming(ops[1..], i, i);
  }

  lemma OtherTable(a: Aggregator, i: nat, ev: Event, order: seq<nat>)
    requires i < |a.perJob| && a.phase.Buffering? && !ev.KeyedEnd()
    ensures TableStep(a, i, ev, BufferSection(a, i, ev, order))
  {
    var p := a.perJob[i];
    var q := PerJob(if ev.KeyedStart() then p.pending[ev.toolId := ev] else p.pending, p.initBuffer + [ev]);
    assert ev.KeyedStart() ==> q.pending.Keys == p.pending.Keys + {ev.toolId};
    var a1 := a.(perJob := a.perJob[i := q],
                 readyCount := if ev.kind.Ready? then a.readyCount + 1 else a.readyCount);
    assert BufferSection(a, i, ev, order) == TransitionGate(a1, order);
  }

  /** What a phase-1 section does to the tables and counters. */
  lemma BufferTable(a: Aggregator, i: nat, ev: Event, order: seq<nat>)
    requires i < |a.perJob| && a.phase.Buffering?
    ensures TableStep(a, i, ev, BufferSection(a, i, ev, order))
    ensures var (b, ops) := BufferSection(a, i, ev, order);
      && (ev.KeyedEnd() ==> b.readyEmitted == a.readyEmitted && |ops| == 2 && ops[0].Emit? && ops[1] == Gate)
      && (!ev.KeyedEnd() && !b.readyEmitted ==> ops == [])
  {
    if ev.KeyedEnd() {
      EndTable(a, i, ev, order);
    } else {
      OtherTable(a, i, ev, order);
    }
  }

  /** Every other operation before the transition leaves the tables and what is ahead as they were. */
  lemma EarlyOpTable(a: Aggregator, i: nat, op: Op, c: Choice)
    requires i < |a.perJob| && EarlyOp(op) && !op.Buffer?
    requires a.phase.Buffering? || op.Emit?
    requires a.phase.Buffering? ==> a.readyCount < a.expected
    ensures var (b, ops) := ExecOp(a, i, op, c);
      && b.perJob == a.perJob && b.strays == a.strays && b.readyCount == a.readyCount
      && b.readyEmitted == a.readyEmitted
      && Upcoming(ops, i, i) == Applies(op, i, i)
  {
    if op.Handle? {
      assert Upcoming([Buffer(op.ev)], i, i) == Applies(Buffer(op.ev), i, i) + Upcoming([], i, i);
    }
  }

  lemma AheadAfter(g: Goroutine, i: nat, ops: seq<Op>)
    requires g.todo != []
    ensures Ahead(g, i) == Applies(g.todo[0], i, i) + (Upcoming(g.todo[1..], i, i) + g.rest)
    ensures Ahead(g.(todo := ops + g.todo[1..]), i) == Upcoming(ops, i, i) + (Upcoming(g.todo[1..], i, i) + g.rest)
  {
    var tail := Upcoming(g.todo[1..], i, i);
    UpcomingAppend(ops, g.todo[1..], i, i);
    Regroup(Applies(g.todo[0], i, i), tail, g.rest);
    Regroup(Upcoming(ops, i, i), tail, g.rest);
  }

  /** One phase-1 section seen from its own job and from the strays. */
  lemma BufferConsumes(a: Aggregator, i: nat, ev: Event, order: seq<nat>, later: seq<Event>, trace: seq<Event>)
    requires i < |a.perJob| && a.phase.Buffering?
    requires Consumed([ev] + later, true, a.perJob[i].pending.Keys, a.readyCount, trace)
    ensures i < |BufferSection(a, i, ev, order).0.perJob|
    ensures var b := BufferSection(a, i, ev, order).0;
      Consumed(later, true, b.perJob[i].pending.Keys, b.readyCount, trace)
  {
    Advance(trace, ev, later, a.perJob[i].pending.Keys, a.readyCount);
    BufferTable(a, i, ev, order);
  }

  /** A stray of that section is an unmatched end that came in time. */
  lemma BufferStrays(a: Aggregator, i: nat, ev: Event, order: seq<nat>, later: seq<Event>, traces: seq<seq<Event>>)
    requires i < |a.perJob| == |traces| && a.phase.Buffering?
    requires forall e | e in a.strays :: EarlyStray(e, traces)
    requires Consumed([ev] + later, true, a.perJob[i].pending.Keys, a.readyCount, Stamp(i, traces[i]))
    requires InTime(traces, i, |traces[i]| - 1 - |later|)
    ensures forall e | e in BufferSection(a, i, ev, order).0.strays :: EarlyStray(e, traces)
  {
    Advance(Stamp(i, traces[i]), ev, later, a.perJob[i].pending.Keys, a.readyCount);
    if ev.KeyedEnd() && ev.toolId !in a.perJob[i].pending {
      assert EarlyUnmatched(traces, i, |traces[i]| - 1 - |later|);
    }
  }

  // ----- how far the other groups have come -----

  /** The Readys of job g that phase-1 sections have counted. */
  ghost function CountedOf(s: System, traces: seq<seq<Event>>, g: nat): int
    requires g < |s.jobs| == |traces|
  {
    ReadysIn(Stamp(g, traces[g])) - ReadysIn(Ahead(s.jobs[g], g))
  }

  /** Before the transition a goroutine's Readys are those ahead of it. */
  lemma {:induction false} EarlyReadys(todo: seq<Op>, i: nat)
    requires forall op | op in todo :: EarlyOp(op)
    ensures Sum(todo, ReadyAhead()) == ReadysIn(Upcoming(todo, i, i))
    decreases todo
  {
    if todo != [] {
      var op := todo[0];
      assert op in todo;
      EarlyReadys(todo[1..], i);
      SumAppend(Applies(op, i, i), Upcoming(todo[1..], i, i), IsReady());
      if op.Handle? || op.Buffer? {
        SumSmall(IsReady(), op.ev, op.ev);
        assert Applies(op, i, i) == [op.ev];
      } else {
        assert Applies(op, i, i) == [];
      }
    }
  }

  lemma LoadAhead(s: System, g: nat)
    requires Split(s) && !s.agg.readyEmitted && g < |s.jobs|
    ensures Load(IsReady(), ReadyAhead())(s.jobs[g]) == ReadysIn(Ahead(s.jobs[g], g))
  {
    EarlyReadys(s.jobs[g].todo, g);
    SumAppend(Upcoming(s.jobs[g].todo, g, g), s.jobs[g].rest, IsReady());
  }

  /** What has been counted of a turn are the Readys of its consumed prefix. */
  lemma CountedPrefix(s: System, traces: seq<seq<Event>>, g: nat)
    requires g < |s.jobs| == |s.agg.perJob| == |traces| && ConsumedAt(s, g, traces)
    ensures var trace, n := Stamp(g, traces[g]), |traces[g]| - |Ahead(s.jobs[g], g)|;
      0 <= n <= |trace| && CountedOf(s, traces, g) == ReadysIn(trace[..n]) >= 0
  {
    var trace, n := Stamp(g, traces[g]), |traces[g]| - |Ahead(s.jobs[g], g)|;
    assert trace == trace[..n] + trace[n..];
    SumAppend(trace[..n], trace[n..], IsReady());
    SumNonNegative(trace[..n], IsReady());
  }

  ghost function Itself(): int -> int { (x: int) => x }

  lemma {:induction false} SumDifference<S, T>(d: seq<int>, a: seq<S>, b: seq<T>, f: S -> int, g: T -> int)
    requires |d| == |a| == |b| && forall k | 0 <= k < |d| :: d[k] == f(a[k]) - g(b[k])
    ensures Sum(d, Itself()) == Sum(a, f) - Sum(b, g)
  {
    if d != [] {
      SumDifference(d[1..], a[1..], b[1..], f, g);
    }
  }

  lemma CountedDifference(s: System, traces: seq<seq<Event>>, g: nat)
    requires Split(s) && !s.agg.readyEmitted && g < |s.jobs| == |traces|
    ensures CountedOf(s, traces, g) == ReadysOf()(traces[g]) - Load(IsReady(), ReadyAhead())(s.jobs[g])
  {
    LoadAhead(s, g);
    SumPointwise(Stamp(g, traces[g]), traces[g], IsReady(), IsReady());
  }

  /** All groups together account for the Readys counted. */
  lemma CountedTotal(s: System, traces: seq<seq<Event>>, counted: seq<int>)
    requires Split(s) && ReadyGate(s, ReadysSent(traces)) && !s.agg.readyEmitted
    requires |counted| == |s.jobs| == |traces|
    requires forall g | 0 <= g < |counted| :: counted[g] == CountedOf(s, traces, g)
    ensures Sum(counted, Itself()) == s.agg.readyCount
  {
    forall g | 0 <= g < |counted|
      ensures counted[g] == ReadysOf()(traces[g]) - Load(IsReady(), ReadyAhead())(s.jobs[g])
    {
      CountedDifference(s, traces, g);
    }
    SumDifference(counted, traces, s.jobs, ReadysOf(), Load(IsReady(), ReadyAhead()));
  }

  lemma {:induction false} EarlierBound(traces: seq<seq<Event>>, counted: seq<int>, i: nat, held: set<nat>)
    requires i <= |traces| && i <= |counted|
    requires forall g | 0 <= g < i ::
      counted[g] >= 0 && (g !in held ==> counted[g] == ReadysIn(Stamp(g, traces[g])))
    ensures EarlierReadys(traces, i, held) <= Sum(counted[..i], Itself())
  {
    if i > 0 {
      EarlierBound(traces, counted, i - 1, held);
      assert counted[..i] == counted[..i - 1] + [counted[i - 1]];
      SumAppend(counted[..i - 1], [counted[i - 1]], Itself());
      SumSmall(Itself(), counted[i - 1], counted[i - 1]);
    }
  }

  /** The groups before i that still hold a slot. */
  ghost function Holders(jobs: seq<Goroutine>, i: nat): set<nat>
    requires i <= |jobs|
  {
    if i == 0 then {} else Holders(jobs, i - 1) + if HoldsSlot(jobs[i - 1]) then {i - 1} else {}
  }

  lemma {:induction false} HoldersCount(jobs: seq<Goroutine>, i: nat)
    requires i <= |jobs|
    ensures |Holders(jobs, i)| == Sum(jobs[..i], SlotWeight())
    ensures forall g: nat :: g in Holders(jobs, i) <==> g < i && HoldsSlot(jobs[g])
  {
    if i > 0 {
      HoldersCount(jobs, i - 1);
      assert jobs[..i] == jobs[..i - 1] + [jobs[i - 1]];
      SumAppend(jobs[..i - 1], [jobs[i - 1]], SlotWeight());
      SumSmall(SlotWeight(), jobs[i - 1], jobs[i - 1]);
    }
  }

  /** While group i holds a slot, at most three groups before it do. */
  lemma FewHolders(jobs: seq<Goroutine>, i: nat)
    requires i < |jobs| && HoldsSlot(jobs[i]) && Sum(jobs, SlotWeight()) <= MAX_JOBS
    ensures |Holders(jobs, i)| < MAX_JOBS
  {
    HoldersCount(jobs, i);
    SumUpTo(jobs, i, SlotWeight());
  }

  /** A group launched before i that holds no slot has nothing ahead. */
  lemma ReturnedHasNothingAhead(s: System, g: nat, i: nat)
    requires Lifecycle(s) && g < i < |s.jobs| && s.jobs[i].stage.Turning? && !HoldsSlot(s.jobs[g])
    ensures Ahead(s.jobs[g], g) == []
  {
    assert ControlOk(s.jobs[g]);
    assert !s.jobs[i].stage.Waiting?;
    assert Upcoming([Emit([OuterResult])], g, g) == [] + Upcoming([], g, g);
  }

  /** What every group has had counted, for a running group i: no less than the returned ones before it sent. */
  ghost predicate CountedSoFar(s: System, traces: seq<seq<Event>>, i: nat, held: set<nat>, counted: seq<int>)
    requires |s.jobs| == |traces|
  {
    && |counted| == |traces|
    && (forall g | 0 <= g < |counted| :: counted[g] == CountedOf(s, traces, g) && counted[g] >= 0)
    && (forall g | 0 <= g < i && g < |counted| && g !in held :: counted[g] == ReadysIn(Stamp(g, traces[g])))
  }

  lemma SoFar(s: System, traces: seq<seq<Event>>, i: nat) returns (counted: seq<int>)
    requires Lifecycle(s) && Phase1(s, traces) && !s.agg.readyEmitted
    requires i < |s.jobs| && s.jobs[i].stage.Turning?
    ensures CountedSoFar(s, traces, i, Holders(s.jobs, i), counted)
  {
    counted := seq(|traces|, g requires 0 <= g < |traces| => CountedOf(s, traces, g));
    HoldersCount(s.jobs, i);
    forall g | 0 <= g < |counted|
      ensures counted[g] == CountedOf(s, traces, g) && counted[g] >= 0
      ensures g < i && g !in Holders(s.jobs, i) ==> counted[g] == ReadysIn(Stamp(g, traces[g]))
    {
      assert ConsumedAt(s, g, traces);
      CountedPrefix(s, traces, g);
      if g < i && g !in Holders(s.jobs, i) {
        ReturnedHasNothingAhead(s, g, i);
      }
    }
  }

  lemma EarlierPlusOwn(traces: seq<seq<Event>>, counted: seq<int>, i: nat, held: set<nat>)
    requires i < |counted| == |traces|
    requires forall g | 0 <= g < |counted| :: counted[g] >= 0
    requires forall g | 0 <= g < i && g !in held :: counted[g] == ReadysIn(Stamp(g, traces[g]))
    ensures EarlierReadys(traces, i, held) + counted[i] <= Sum(counted, Itself())
  {
    EarlierBound(traces, counted, i, held);
    SumUpTo(counted, i, Itself());
  }

  /** The Readys the returned groups before a running group i sent, and its own so far, are still too few. */
  lemma RoomLeft(s: System, traces: seq<seq<Event>>, i: nat)
    requires Lifecycle(s) && Split(s) && ReadyGate(s, ReadysSent(traces)) && Phase1(s, traces) && !s.agg.readyEmitted
    requires i < |s.jobs| == |traces| && s.jobs[i].stage.Turning?
    ensures var n := |traces[i]| - |Ahead(s.jobs[i], i)|;
      0 <= n && EarlierReadys(traces, i, Holders(s.jobs, i)) + ReadysIn(Stamp(i, traces[i])[..n]) < |traces|
  {
    assert ConsumedAt(s, i, traces);
    CountedPrefix(s, traces, i);
    var counted := SoFar(s, traces, i);
    EarlierPlusOwn(traces, counted, i, Holders(s.jobs, i));
    CountedTotal(s, traces, counted);
    GateShut(s, traces);
  }

  lemma InTimeBy(traces: seq<seq<Event>>, i: nat, k: nat, held: set<nat>)
    requires i < |traces| && k < |traces[i]| && |held| < MAX_JOBS
    requires EarlierReadys(traces, i, held) + ReadysIn(Stamp(i, traces[i])[..k]) < |traces|
    ensures InTime(traces, i, k)
  {
  }

  /** The next event of a turn that is running before the transition comes in time. */
  lemma NextInTime(s: System, traces: seq<seq<Event>>, i: nat)
    requires Lifecycle(s) && Split(s) && ReadyGate(s, ReadysSent(traces)) && Phase1(s, traces) && !s.agg.readyEmitted
    requires i < |s.jobs| && s.jobs[i].stage.Turning? && Ahead(s.jobs[i], i) != []
    ensures |Ahead(s.jobs[i], i)| <= |traces[i]|
    ensures InTime(traces, i, |traces[i]| - |Ahead(s.jobs[i], i)|)
  {
    RoomLeft(s, traces, i);
    FewHolders(s.jobs, i);
    InTimeBy(traces, i, |traces[i]| - |Ahead(s.jobs[i], i)|, Holders(s.jobs, i));
  }

  /** Before the transition the Readys counted are fewer than the groups. */
  lemma GateShut(s: System, traces: seq<seq<Event>>)
    requires Lifecycle(s) && ReadyGate(s, ReadysSent(traces)) && |s.jobs| == |traces| > 0 && !s.agg.readyEmitted
    ensures s.agg.readyCount < |traces|
  {
  }

  /** Replacing one goroutine and the aggregator keeps Phase1 when the other jobs' tables stay. */
  lemma OthersKept(s: System, i: nat, b: Aggregator, g: Goroutine, traces: seq<seq<Event>>)
    requires Phase1(s, traces) && i < |s.jobs| && !s.agg.readyEmitted
    requires |b.perJob| == |s.jobs| && b.readyCount >= s.agg.readyCount
    requires forall j | 0 <= j < |b.perJob| && j != i :: b.perJob[j].pending == s.agg.perJob[j].pending
    requires forall e | e in b.strays :: EarlyStray(e, traces)
    requires Consumed(Ahead(g, i), Started(g), b.perJob[i].pending.Keys, b.readyCount, Stamp(i, traces[i]))
    ensures Phase1(s.(agg := b, jobs := s.jobs[i := g]), traces)
  {
    var t := s.(agg := b, jobs := s.jobs[i := g]);
    forall j | 0 <= j < |t.jobs| ensures ConsumedAt(t, j, traces) {
      assert ConsumedAt(s, j, traces);
    }
  }

  lemma BufferPhase1(s: System, i: nat, c: Choice, later: seq<Event>, traces: seq<seq<Event>>)
    requires Lifecycle(s) && Phase1(s, traces) && Enabled(s, Exec(i, c))
    requires s.jobs[i].todo[0].Buffer? && !s.agg.readyEmitted && s.agg.phase.Buffering?
    requires later == Upcoming(s.jobs[i].todo[1..], i, i) + s.jobs[i].rest
    requires |later| < |traces[i]| && InTime(traces, i, |traces[i]| - 1 - |later|)
    ensures Phase1(Next(s, Exec(i, c)), traces)
  {
    var g := s.jobs[i];
    var ev := g.todo[0].ev;
    assert ControlOk(g) && ConsumedAt(s, i, traces);
    var (b, ops) := BufferSection(s.agg, i, ev, c.order);
    AheadAfter(g, i, ops);
    BufferConsumes(s.agg, i, ev, c.order, later, Stamp(i, traces[i]));
    BufferStrays(s.agg, i, ev, c.order, later, traces);
    BufferTable(s.agg, i, ev, c.order);
    var h := g.(todo := ops + g.todo[1..]);
    assert Next(s, Exec(i, c)) == s.(agg := b, jobs := s.jobs[i := h]);
    if !b.readyEmitted {
      assert [] + later == later;
      OthersKept(s, i, b, h, traces);
    }
  }

  lemma ExecBufferPhase1(s: System, i: nat, c: Choice, traces: seq<seq<Event>>)
    requires Inv(s, traces) && Phase1(s, traces) && Enabled(s, Exec(i, c))
    requires s.jobs[i].todo[0].Buffer? && !s.agg.readyEmitted && s.agg.phase.Buffering?
    ensures Phase1(Next(s, Exec(i, c)), traces)
  {
    var later := Upcoming(s.jobs[i].todo[1..], i, i) + s.jobs[i].rest;
    BufferedInTime(s, i, later, traces);
    BufferPhase1(s, i, c, later, traces);
  }

  lemma BufferedInTime(s: System, i: nat, later: seq<Event>, traces: seq<seq<Event>>)
    requires Inv(s, traces) && Phase1(s, traces) && !s.agg.readyEmitted
    requires i < |s.jobs| && s.jobs[i].todo != [] && s.jobs[i].todo[0].Buffer?
    requires later == Upcoming(s.jobs[i].todo[1..], i, i) + s.jobs[i].rest
    ensures |later| < |traces[i]| && InTime(traces, i, |traces[i]| - 1 - |later|)
  {
    BufferingTurns(s, i);
    AheadBuffered(s.jobs[i], i);
    NextInTime(s, traces, i);
  }

  lemma BufferingTurns(s: System, i: nat)
    requires Lifecycle(s) && i < |s.jobs| && s.jobs[i].todo != [] && s.jobs[i].todo[0].Buffer?
    ensures s.jobs[i].stage.Turning?
  {
    assert ControlOk(s.jobs[i]);
  }

  lemma AheadBuffered(g: Goroutine, i: nat)
    requires g.todo != [] && g.todo[0].Buffer?
    ensures |Ahead(g, i)| == 1 + |Upcoming(g.todo[1..], i, i) + g.rest|
  {
    AheadAfter(g, i, []);
  }

  lemma EarlyPhase1(s: System, i: nat, c: Choice, traces: seq<seq<Event>>)
    requires Lifecycle(s) && Split(s) && ReadyGate(s, ReadysSent(traces)) && Phase1(s, traces)
    requires Enabled(s, Exec(i, c)) && !s.agg.readyEmitted && !s.jobs[i].todo[0].Buffer?
    ensures Phase1(Next(s, Exec(i, c)), traces)
  {
    var op := s.jobs[i].todo[0];
    NotClosed(s, i);
    assert ControlOk(s.jobs[i]) && EarlyOp(op);
    EarlyOpTable(s.agg, i, op, c);
    AheadAfter(s.jobs[i], i, ExecOp(s.agg, i, op, c).1);
    var t := Next(s, Exec(i, c));
    forall j | 0 <= j < |t.jobs| ensures ConsumedAt(t, j, traces) {
      assert ConsumedAt(s, j, traces);
    }
  }

  lemma ExecPhase1(s: System, i: nat, c: Choice, traces: seq<seq<Event>>)
    requires Inv(s, traces) && Phase1(s, traces) && Enabled(s, Exec(i, c))
    ensures Phase1(Next(s, Exec(i, c)), traces)
  {
    NotClosed(s, i);
    if s.agg.readyEmitted {
      LateStrays(s.agg, i, s.jobs[i].todo[0], c);
    } else if s.jobs[i].todo[0].Buffer? {
      ExecBufferPhase1(s, i, c, traces);
    } else {
      EarlyPhase1(s, i, c, traces);
    }
  }

  lemma LateStrays(a: Aggregator, i: nat, op: Op, c: Choice)
    requires i < |a.perJob| && a.readyEmitted && !a.phase.Buffering?
    ensures ExecOp(a, i, op, c).0.strays == a.strays
    ensures ExecOp(a, i, op, c).0.readyEmitted
    ensures |ExecOp(a, i, op, c).0.perJob| == |a.perJob|
  {
  }

  ghost predicate Moves(s: System, act: Action, j: nat) {
    match act
    case Launch => s.main.Launching? && s.main.next == j
    case Wrap(i) => i == j
    case Call(i) => i == j
    case Exec(i, _) => i == j
    case Return(i) => i == j
    case Release(i) => i == j
    case Mark(i) => i == j
    case Leave(i) => i == j
    case _ => false
  }

  lemma QuietElsewhere(s: System, act: Action, j: nat)
    requires Lifecycle(s) && Enabled(s, act) && !act.Exec? && j < |s.jobs| && !Moves(s, act, j)
    ensures Next(s, act).jobs[j] == s.jobs[j] && Next(s, act).agg.perJob[j] == s.agg.perJob[j]
  {
  }

  lemma QuietCall(s: System, j: nat)
    requires Lifecycle(s) && Enabled(s, Call(j)) && j < |s.jobs|
    ensures Ahead(Next(s, Call(j)).jobs[j], j) == Ahead(s.jobs[j], j)
    ensures Started(s.jobs[j]) && Started(Next(s, Call(j)).jobs[j]) && Next(s, Call(j)).agg == s.agg
  {
    var g := s.jobs[j];
    var op := Handle(g.rest[0]);
    assert Upcoming([op], j, j) == Applies(op, j, j) + Upcoming([], j, j);
    assert Ahead(g, j) == [g.rest[0]] + g.rest[1..] == Ahead(Next(s, Call(j)).jobs[j], j);
  }

  lemma QuietMark(s: System, j: nat)
    requires Lifecycle(s) && Enabled(s, Mark(j)) && j < |s.jobs|
    ensures Ahead(Next(s, Mark(j)).jobs[j], j) == Ahead(s.jobs[j], j)
    ensures Started(s.jobs[j]) && Started(Next(s, Mark(j)).jobs[j])
    ensures Next(s, Mark(j)).agg.perJob == s.agg.perJob
  {
    var op := Emit([OuterResult]);
    assert ControlOk(s.jobs[j]);
    assert Upcoming([op], j, j) == Applies(op, j, j) + Upcoming([], j, j);
  }

  lemma QuietStage(s: System, act: Action, j: nat)
    requires Lifecycle(s) && Enabled(s, act) && !act.Exec? && !act.Call? && !act.Mark?
    requires j < |s.jobs| && Moves(s, act, j)
    ensures var t := Next(s, act);
      && Ahead(t.jobs[j], j) == Ahead(s.jobs[j], j)
      && (if act.Wrap? then !Started(s.jobs[j]) && t.agg.perJob[j] == EmptyJob
          else Started(t.jobs[j]) == Started(s.jobs[j]) && t.agg.perJob[j] == s.agg.perJob[j])
  {
    assert ControlOk(s.jobs[j]);
  }

  lemma QuietCounters(s: System, act: Action)
    requires Lifecycle(s) && Enabled(s, act) && !act.Exec?
    ensures var t := Next(s, act);
      && t.agg.readyCount == s.agg.readyCount && t.agg.readyEmitted == s.agg.readyEmitted
      && t.agg.strays == s.agg.strays && |t.jobs| == |s.jobs| && |t.agg.perJob| == |s.agg.perJob|
  {
  }

  lemma QuietConsumed(s: System, act: Action, j: nat, traces: seq<seq<Event>>)
    requires Lifecycle(s) && Enabled(s, act) && !act.Exec?
    requires j < |s.jobs| == |traces| && ConsumedAt(s, j, traces)
    ensures |Next(s, act).jobs| == |Next(s, act).agg.perJob| == |traces| && ConsumedAt(Next(s, act), j, traces)
  {
    QuietCounters(s, act);
    if !Moves(s, act, j) {
      QuietElsewhere(s, act, j);
    } else if act.Call? {
      QuietCall(s, j);
    } else if act.Mark? {
      QuietMark(s, j);
    } else {
      QuietStage(s, act, j);
      var trace := Stamp(j, traces[j]);
      assert trace[..0] == [];
    }
  }

  lemma QuietPhase1(s: System, act: Action, traces: seq<seq<Event>>)
    requires Inv(s, traces) && Phase1(s, traces) && Enabled(s, act) && !act.Exec?
    ensures Phase1(Next(s, act), traces)
  {
    QuietCounters(s, act);
    if !s.agg.readyEmitted {
      forall j | 0 <= j < |s.jobs| ensures ConsumedAt(Next(s, act), j, traces) {
        assert ConsumedAt(s, j, traces);
        QuietConsumed(s, act, j, traces);
      }
    }
  }

  lemma {:induction false} RunPhase1(s: System, acts: seq<Action>, t: System, traces: seq<seq<Event>>)
    requires Inv(s, traces) && Phase1(s, traces) && Runs(s, acts, t)
    ensures Phase1(t, traces)
    decreases acts
  {
    if acts != [] {
      if acts[0].Exec? {
        ExecPhase1(s, acts[0].i, acts[0].c, traces);
      } else {
        QuietPhase1(s, acts[0], traces);
      }
      NextInv(s, acts[0], traces);
      RunPhase1(Next(s, acts[0]), acts[1..], t, traces);
    }
  }

  lemma InitPhase1(traces: seq<seq<Event>>)
    ensures Phase1(Init(traces), traces)
  {
    var s := Init(traces);
    forall i | 0 <= i < |traces| ensures ConsumedAt(s, i, traces) {
      assert Ahead(s.jobs[i], i) == Stamp(i, traces[i]);
      assert Stamp(i, traces[i])[..0] == [];
    }
  }

  /** Every failed phase-1 lookup, in any run, is an early unmatched ToolEnd of its turn. */
  lemma StraysAreEarlyUnmatched(traces: seq<seq<Event>>, acts: seq<Action>, t: System, e: Event)
    requires Runs(Init(traces), acts, t) && e in t.agg.strays
    ensures EarlyStray(e, traces)
  {
    InitInv(traces);
    InitPhase1(traces);
    RunPhase1(Init(traces), acts, t, traces);
  }

  /** For any number of groups: with no early unmatched ToolEnd every keyed ToolEnd is forwarded exactly once. */
  lemma ExactlyOnce(traces: seq<seq<Event>>, acts: seq<Action>, t: System, e: Event)
    requires NoEarlyUnmatched(traces) || ReadysSent(traces) < |traces|
    requires Runs(Init(traces), acts, t) && t.main.Merged?
    requires e.KeyedEnd() && e.source.Job? && e.source.index < |traces|
    ensures multiset(t.agg.log)[e] == multiset(Stamp(e.source.index, traces[e.source.index]))[e]
  {
    ToolEndDelivery(traces, acts, t, e);
    if NoEarlyUnmatched(traces) && e in t.agg.strays {
      StraysAreEarlyUnmatched(traces, acts, t, e);
    }
  }
}

/**
 The order in which one job's events reach the outer log or the task table. What phase 1
 buffered is replayed by the goroutine that opened phase 2, what comes later is sent live by
 the job's own: each part keeps its order, and for the job whose goroutine replays the two
 parts follow each other.
 */
module FanoutOrder {
  import opened Sums
  import opened AggregatorSpec
  import opened FanoutShape

  /** What is followed: passed-through events or all that is forwarded to the log, or task events to the table. */
  datatype Channel = Texts | Forwards | Merges

  /** Phase 2 logs something for such an event. */
  predicate Forwarded(ev: Event) { ev.kind.PassThrough? || ev.kind.Task() || ev.KeyedEnd() }

  /** How it shows in the log: a task event as a snapshot, whose listing is left open here. */
  function Face(ev: Event): Event { if ev.kind.Task() then Event(ev.kind, ev.source, "", [], "") else ev }

  function Shown(ch: Channel, ev: Event): seq<Event> {
    match ch
    case Texts => if ev.kind.PassThrough? then [ev] else []
    case Forwards => if Forwarded(ev) then [Face(ev)] else []
    case Merges => if ev.kind.Task() then [ev] else []
  }

  /** What the channel shows of job i's events among evs, in order. */
  function Picks(ch: Channel, evs: seq<Event>, i: nat): seq<Event> {
    if evs == [] then []
    else (if evs[0].source == Job(i) then Shown(ch, evs[0]) else []) + Picks(ch, evs[1..], i)
  }

  lemma {:induction false} PicksAppend(ch: Channel, a: seq<Event>, b: seq<Event>, i: nat)
    ensures Picks(ch, a + b, i) == Picks(ch, a, i) + Picks(ch, b, i)
  {
    if a == [] {
      assert a + b == b;
    } else {
      assert (a + b)[1..] == a[1..] + b;
      PicksAppend(ch, a[1..], b, i);
    }
  }

  lemma {:induction false} NoPicks(ch: Channel, evs: seq<Event>, i: nat)
    requires forall ev | ev in evs :: ev.source != Job(i) || Shown(ch, ev) == []
    ensures Picks(ch, evs, i) == []
  {
    if evs != [] {
      NoPicks(ch, evs[1..], i);
    }
  }

  lemma PicksOne(ch: Channel, ev: Event, i: nat)
    ensures Picks(ch, [ev], i) == if ev.source == Job(i) then Shown(ch, ev) else []
  {
    assert [ev][1..] == [];
  }

  /** Where the channel ends. */
  function Sink(ch: Channel, a: Aggregator): seq<Event> { if ch.Merges? then a.merged else a.log }

  predicate Sinks(ch: Channel, op: Op) { if ch.Merges? then op.Merge? else op.Emit? }

  /** What of job i has arrived there. */
  function Seen(ch: Channel, a: Aggregator, i: nat): seq<Event> { Picks(ch, Sink(ch, a), i) }

  /** What an operation still carries there of job i. */
  function Carries(ch: Channel, op: Op, i: nat): seq<Event> {
    match op
    case Handle(ev) => Picks(ch, [ev], i)
    case Buffer(ev) => Picks(ch, [ev], i)
    case Redirect(ev) => Picks(ch, [ev], i)
    case Stream(_, ev) => Picks(ch, [ev], i)
    case Match(_, ev) => Picks(ch, [ev], i)
    case Merge(ev) => Picks(ch, [ev], i)
    case Emit(evs) => if ch.Merges? then [] else Picks(ch, evs, i)
    case _ => []
  }

  function Carried(ch: Channel, todo: seq<Op>, i: nat): seq<Event>
    decreases todo
  {
    if todo == [] then [] else Carries(ch, todo[0], i) + Carried(ch, todo[1..], i)
  }

  lemma {:induction false} CarriedAppend(ch: Channel, a: seq<Op>, b: seq<Op>, i: nat)
    ensures Carried(ch, a + b, i) == Carried(ch, a, i) + Carried(ch, b, i)
    decreases a
  {
    if a == [] {
      assert a + b == b;
    } else {
      assert (a + b)[0] == a[0] && (a + b)[1..] == a[1..] + b;
      CarriedAppend(ch, a[1..], b, i);
    }
  }

  lemma CarriedOne(ch: Channel, op: Op, i: nat)
    ensures Carried(ch, [op], i) == Carries(ch, op, i)
    ensures Carried(ch, [op, Gate], i) == Carries(ch, op, i)
  {
    assert [op][1..] == [] && [op, Gate][1..] == [Gate] && [Gate][1..] == [];
    assert Carried(ch, [Gate], i) == Carries(ch, Gate, i) + Carried(ch, [], i);
  }

  // ----- one operation -----

  lemma {:induction false} ReplayJobCarries(ch: Channel, owner: nat, events: seq<Event>, i: nat)
    ensures Carried(ch, ReplayJob(owner, events), i) == Picks(ch, events, i)
  {
    if events != [] {
      var ops := ReplayJob(owner, events);
      assert ops[0] == Stream(owner, events[0]) && ops[1..] == ReplayJob(owner, events[1..]);
      ReplayJobCarries(ch, owner, events[1..], i);
      assert Picks(ch, [events[0]], i) + Picks(ch, events[1..], i) == Picks(ch, events, i) by {
        assert [events[0]] + events[1..] == events;
        PicksAppend(ch, [events[0]], events[1..], i);
      }
    }
  }

  /** The buffers hold only their own jobs' events. */
  ghost predicate OwnBuffers(perJob: seq<PerJob>) {
    forall j, ev | 0 <= j < |perJob| && ev in perJob[j].initBuffer :: ev.source == Job(j)
  }

  lemma ReplayJobsCarry(ch: Channel, perJob: seq<PerJob>, o: nat, i: nat)
    requires OwnBuffers(perJob) && i < |perJob| && o < |perJob|
    ensures Carried(ch, ReplayJob(o, perJob[o].initBuffer), i)
         == if o == i then Picks(ch, perJob[i].initBuffer, i) else []
  {
    ReplayJobCarries(ch, o, perJob[o].initBuffer, i);
    if o != i {
      NoPicks(ch, perJob[o].initBuffer, i);
    }
  }

  lemma CountHead(order: seq<nat>, i: nat)
    requires order != []
    ensures multiset(order)[i] == (if order[0] == i then 1 else 0) + multiset(order[1..])[i]
    ensures i in order <==> order[0] == i || i in order[1..]
    ensures i in order[1..] <==> multiset(order[1..])[i] > 0
  {
    assert order == [order[0]] + order[1..];
  }

  /** Whatever order the map iteration picks, the replay has job i's buffered events in arrival order. */
  lemma {:induction false} ReplayCarries(ch: Channel, perJob: seq<PerJob>, order: seq<nat>, i: nat)
    requires OwnBuffers(perJob) && i < |perJob| && multiset(order)[i] <= 1
    ensures Carried(ch, Replay(perJob, order), i) == if i in order then Picks(ch, perJob[i].initBuffer, i) else []
  {
    if order != [] {
      var o, rest := order[0], order[1..];
      CountHead(order, i);
      ReplayCarries(ch, perJob, rest, i);
      if o < |perJob| {
        ReplayJobsCarry(ch, perJob, o, i);
        CarriedAppend(ch, ReplayJob(o, perJob[o].initBuffer), Replay(perJob, rest), i);
      }
    }
  }

  lemma EachOnce(order: seq<nat>, n: nat, i: nat)
    requires ValidOrder(order, n) && i < n
    ensures multiset(order)[i] == 1 && i in order
  {
    RangeOnce(n, i);
    assert i in multiset(order);
  }

  lemma {:induction false} RangeOnce(n: nat, i: nat)
    requires i < n
    ensures multiset(Range(n))[i] == 1
  {
    var low, high := Range(n)[..i], Range(n)[i + 1..];
    assert Range(n) == low + [i] + high;
    assert i !in low && i !in high;
  }

  function Kept(ch: Channel, a: Aggregator, i: nat): seq<Event>
    requires i < |a.perJob|
  {
    Picks(ch, a.perJob[i].initBuffer, i)
  }

  lemma FiredCarries(ch: Channel, perJob: seq<PerJob>, order: seq<nat>, i: nat)
    requires ValidOrder(order, |perJob|) && OwnBuffers(perJob) && i < |perJob|
    ensures Carried(ch, [Emit([SyntheticReady])] + Replay(perJob, order), i) == Picks(ch, perJob[i].initBuffer, i)
  {
    EachOnce(order, |perJob|, i);
    ReplayCarries(ch, perJob, order, i);
    OuterCarries(ch, SyntheticReady, Replay(perJob, order), i);
  }

  lemma OuterCarries(ch: Channel, ev: Event, ops: seq<Op>, i: nat)
    requires ev.source.Outer?
    ensures Carried(ch, [Emit([ev])] + ops, i) == Carried(ch, ops, i)
  {
    CarriedAppend(ch, [Emit([ev])], ops, i);
    CarriedOne(ch, Emit([ev]), i);
    PicksOne(ch, ev, i);
  }

  /** What the gate makes of the buffers: nothing, or it hands all of job i's events to the replay. */
  lemma GateCarries(ch: Channel, a: Aggregator, order: seq<nat>, i: nat)
    requires ValidOrder(order, |a.perJob|) && OwnBuffers(a.perJob) && i < |a.perJob|
    ensures var (b, ops) := TransitionGate(a, order);
      && |b.perJob| == |a.perJob| && b.log == a.log && b.merged == a.merged
      && (if b.readyEmitted && !a.readyEmitted then Kept(ch, b, i) == [] && Carried(ch, ops, i) == Kept(ch, a, i)
          else Kept(ch, b, i) == Kept(ch, a, i) && Carried(ch, ops, i) == [])
  {
    if a.readyCount >= a.expected && !a.readyEmitted {
      FiredCarries(ch, a.perJob, order, i);
    }
  }

  /** What an operation delivers of job i. */
  function Logs(ch: Channel, op: Op, i: nat): seq<Event> { if Sinks(ch, op) then Carries(ch, op, i) else [] }

  /** after is what one operation made of a in phase 2: what it carried of job i it delivered or left to follow-ups. */
  ghost predicate PassesOn(ch: Channel, a: Aggregator, op: Op, after: (Aggregator, seq<Op>), i: nat) {
    && Seen(ch, after.0, i) == Seen(ch, a, i) + Logs(ch, op, i)
    && Logs(ch, op, i) + Carried(ch, after.1, i) == Carries(ch, op, i)
  }

  /** An operation that delivers nothing itself leaves what it carried to its follow-ups. */
  lemma HandsOn(ch: Channel, a: Aggregator, op: Op, b: Aggregator, ops: seq<Op>, i: nat)
    requires !Sinks(ch, op) && Sink(ch, b) == Sink(ch, a) && Carried(ch, ops, i) == Carries(ch, op, i)
    ensures PassesOn(ch, a, op, (b, ops), i)
  {
    assert Seen(ch, a, i) + [] == Seen(ch, a, i);
    assert [] + Carried(ch, ops, i) == Carried(ch, ops, i);
  }

  lemma Hands(ch: Channel, a: Aggregator, op: Op, next: Op, i: nat)
    requires Carries(ch, next, i) == Carries(ch, op, i) && !Sinks(ch, op)
    ensures PassesOn(ch, a, op, (a, [next]), i)
  {
    CarriedOne(ch, next, i);
    HandsOn(ch, a, op, a, [next], i);
  }

  lemma StreamCarries(ch: Channel, a: Aggregator, owner: nat, ev: Event, i: nat)
    requires !a.phase.Closed?
    ensures Carried(ch, StreamSection(a, owner, ev), i) == Picks(ch, [ev], i)
  {
    CarriedOne(ch, Store(owner, ev), i);
    CarriedOne(ch, Match(owner, ev), i);
    CarriedOne(ch, Merge(ev), i);
    CarriedOne(ch, Emit([ev]), i);
    PicksOne(ch, ev, i);
  }

  /** Of a pair only the ToolEnd shows. */
  lemma PairCarries(ch: Channel, start: Event, end: Event, i: nat)
    requires start.KeyedStart() && end.KeyedEnd()
    ensures Carried(ch, [Emit([start, end])], i) == Picks(ch, [end], i)
    ensures Carried(ch, [Emit([end])], i) == Picks(ch, [end], i)
  {
    PicksPair(ch, start, end, i);
    CarriedOne(ch, Emit([start, end]), i);
    CarriedOne(ch, Emit([end]), i);
    if ch.Merges? {
      PicksOne(ch, end, i);
    }
  }

  lemma PicksPair(ch: Channel, start: Event, end: Event, i: nat)
    requires start.KeyedStart()
    ensures Picks(ch, [start, end], i) == Picks(ch, [end], i)
  {
    PicksOne(ch, start, i);
    PicksAppend(ch, [start], [end], i);
    assert [start] + [end] == [start, end] && Shown(ch, start) == [];
    assert [] + Picks(ch, [end], i) == Picks(ch, [end], i);
  }

  lemma MatchCarries(ch: Channel, a: Aggregator, owner: nat, ev: Event, i: nat)
    requires owner < |a.perJob| && ev.KeyedEnd()
    requires forall id | id in a.perJob[owner].pending :: a.perJob[owner].pending[id].KeyedStart()
    ensures PassesOn(ch, a, Match(owner, ev), MatchSection(a, owner, ev), i)
  {
    var p := a.perJob[owner];
    var (b, ops) := MatchSection(a, owner, ev);
    PairCarries(ch, if ev.toolId in p.pending then p.pending[ev.toolId] else ev.(kind := ToolStart), ev, i);
    HandsOn(ch, a, Match(owner, ev), b, ops, i);
  }

  lemma SnapshotCarries(ch: Channel, ev: Event, items: seq<Item>, i: nat)
    requires ev.kind.Task()
    ensures Carried(ch, [Emit([Snapshot(ev, items)])], i) == if ch.Merges? then [] else Picks(ch, [ev], i)
  {
    PicksOne(ch, ev, i);
    PicksOne(ch, Snapshot(ev, items), i);
    CarriedOne(ch, Emit([Snapshot(ev, items)]), i);
  }

  lemma MergeCarries(ch: Channel, a: Aggregator, ev: Event, items: seq<Item>, i: nat)
    requires ev.kind.Task()
    ensures PassesOn(ch, a, Merge(ev), MergeSection(a, ev, items), i)
  {
    var (b, ops) := MergeSection(a, ev, items);
    SnapshotCarries(ch, ev, items, i);
    if ch.Merges? {
      PicksAppend(ch, a.merged, [ev], i);
      assert Picks(ch, [ev], i) + [] == Picks(ch, [ev], i);
    } else {
      HandsOn(ch, a, Merge(ev), b, ops, i);
    }
  }

  /** Every phase-2 operation passes job i's events on, in order: to its follow-ups or to where the channel ends. */
  lemma ExecCarries(ch: Channel, a: Aggregator, j: nat, op: Op, c: Choice, traces: seq<seq<Event>>, i: nat)
    requires j < |a.perJob| == |traces| && OpOk(op, j, traces) && !a.phase.Buffering?
    requires forall k | 0 <= k < |traces| :: PerJobOk(a.perJob[k], k, traces)
    requires a.phase.Closed? ==> op.Emit?
    requires op.Match? ==> op.owner < |a.perJob|
    ensures PassesOn(ch, a, op, ExecOp(a, j, op, c), i)
  {
    match op
    case Handle(ev) => Hands(ch, a, op, Stream(j, ev), i);
    case Buffer(ev) => Hands(ch, a, op, Redirect(ev), i);
    case Redirect(ev) => Hands(ch, a, op, Stream(j, ev), i);
    case Gate =>
    case Stream(owner, ev) =>
      StreamCarries(ch, a, owner, ev, i);
      HandsOn(ch, a, op, a, StreamSection(a, owner, ev), i);
    case Store(owner, ev) =>
    case Match(owner, ev) => MatchCarries(ch, a, owner, ev, i);
    case Merge(ev) => MergeCarries(ch, a, ev, c.items, i);
    case Emit(evs) => PicksAppend(ch, a.log, evs, i);
  }
}

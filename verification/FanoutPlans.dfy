/**
 Schedules that bring every group to a chosen point of its turn before phase 2. A plan says
 how far; it can be met exactly if no group had to be launched while four others held the
 slots. Reached states are of this kind, so plans say exactly what phase 2 can find.
 */
module FanoutPlans {
  import opened Sums
  import opened AggregatorSpec
  import opened Fanout
  import opened FanoutOutcome
  import opened FanoutLimits

  // ----- composing runs -----

  lemma {:induction false} RunsAppend(s: System, a: seq<Action>, t: System, b: seq<Action>, u: System)
    requires Runs(s, a, t) && Runs(t, b, u)
    ensures Runs(s, a + b, u)
    decreases a
  {
    if a == [] {
      assert a + b == b;
    } else {
      assert (a + b)[0] == a[0] && (a + b)[1..] == a[1..] + b;
      RunsAppend(Next(s, a[0]), a[1..], t, b, u);
    }
  }

  lemma RunsOne(s: System, a: seq<Action>, t: System, act: Action)
    requires Runs(s, a, t) && Enabled(t, act) && |t.agg.perJob| == |t.jobs|
    ensures Runs(s, a + [act], Next(t, act))
  {
    assert [act][1..] == [];
    assert Runs(Next(t, act), [], Next(t, act));
    RunsAppend(s, a, t, [act], Next(t, act));
  }

  // ----- one group's turn in phase 1 -----

  /** Job i has handled the first n events of its turn in phase 1, after base Readys of others, and is between calls. */
  ghost predicate At(s: System, i: nat, trace: seq<Event>, n: nat, base: int) {
    && i < |s.jobs| == |s.agg.perJob| == s.agg.expected && n <= |trace|
    && s.jobs[i] == Goroutine(Turning, trace[n..], [])
    && s.agg.phase.Buffering? && !s.agg.readyEmitted
    && s.agg.perJob[i].pending.Keys == OpenAfter(trace[..n])
    && s.agg.readyCount == base + ReadysIn(trace[..n])
  }

  /** Only job i has moved, and only within its turn. */
  ghost predicate OnlyJob(s: System, t: System, i: nat) {
    && t.main == s.main && t.slots == s.slots && |t.jobs| == |s.jobs| && t.agg.expected == s.agg.expected
    && |t.agg.perJob| == |s.agg.perJob|
    && (forall j | 0 <= j < |s.jobs| && j != i :: t.jobs[j] == s.jobs[j])
    && (forall j | 0 <= j < |s.agg.perJob| && j != i :: t.agg.perJob[j].pending == s.agg.perJob[j].pending)
  }

  ghost function AnyOrder(s: System): Choice { Choice(Range(|s.jobs|), []) }

  /** Job i sends its next event, which is about to enter its first phase-1 section. */
  lemma Deliver(s: System, i: nat, trace: seq<Event>, n: nat, base: int) returns (acts: seq<Action>, t: System)
    requires At(s, i, trace, n, base) && n < |trace|
    ensures Runs(s, acts, t)
    ensures t == s.(jobs := s.jobs[i := Goroutine(Turning, trace[n + 1..], [Buffer(trace[n])])])
  {
    var ev := trace[n];
    var c := AnyOrder(s);
    assert trace[n..][0] == ev && trace[n..][1..] == trace[n + 1..];
    assert [Handle(ev)][1..] == [] && [Buffer(ev)] + [] == [Buffer(ev)];
    var s1 := s.(jobs := s.jobs[i := Goroutine(Turning, trace[n + 1..], [Handle(ev)])]);
    assert Next(s, Call(i)) == s1;
    assert Runs(s, [], s);
    RunsOne(s, [], s, Call(i));
    t := s.(jobs := s.jobs[i := Goroutine(Turning, trace[n + 1..], [Buffer(ev)])]);
    assert s1.jobs[i := t.jobs[i]] == t.jobs;
    assert Next(s1, Exec(i, c)) == t;
    RunsOne(s, [] + [Call(i)], s1, Exec(i, c));
    acts := [] + [Call(i)] + [Exec(i, c)];
  }

  /** Job i sends its next event and has its first phase-1 section run. */
  lemma SendOne(s: System, i: nat, trace: seq<Event>, n: nat, base: int) returns (acts: seq<Action>, t: System)
    requires At(s, i, trace, n, base) && n < |trace|
    ensures Runs(s, acts, t)
    ensures var (b, ops) := BufferSection(s.agg, i, trace[n], AnyOrder(s).order);
      t == s.(agg := b, jobs := s.jobs[i := Goroutine(Turning, trace[n + 1..], ops)])
  {
    var c := AnyOrder(s);
    var before, s2 := Deliver(s, i, trace, n, base);
    var (b, ops) := BufferSection(s.agg, i, trace[n], c.order);
    assert [Buffer(trace[n])][1..] == [] && ops + [] == ops;
    t := s.(agg := b, jobs := s.jobs[i := Goroutine(Turning, trace[n + 1..], ops)]);
    assert s2.jobs[i := t.jobs[i]] == t.jobs;
    assert Next(s2, Exec(i, c)) == t;
    RunsOne(s, before, s2, Exec(i, c));
    acts := before + [Exec(i, c)];
  }

  /** What that section leaves, when it does not open phase 2. */
  lemma AfterSend(s: System, i: nat, trace: seq<Event>, n: nat, base: int)
    requires At(s, i, trace, n, base) && n < |trace|
    ensures ReadysIn(trace[..n + 1]) == ReadysIn(trace[..n]) + IsReady()(trace[n])
    ensures var (b, ops) := BufferSection(s.agg, i, trace[n], AnyOrder(s).order);
      && |b.perJob| == |s.jobs| == b.expected
      && (forall j | 0 <= j < |b.perJob| && j != i :: b.perJob[j].pending == s.agg.perJob[j].pending)
      && (Unmatched(trace, n) ==> trace[n] in b.strays)
      && (base + ReadysIn(trace[..n + 1]) < s.agg.expected ==>
            && !b.readyEmitted && b.phase.Buffering?
            && b.perJob[i].pending.Keys == OpenAfter(trace[..n + 1])
            && b.readyCount == base + ReadysIn(trace[..n + 1])
            && (if trace[n].KeyedEnd() then |ops| == 2 && ops[0].Emit? && ops[1] == Gate else ops == []))
  {
    var ev := trace[n];
    assert trace[..n + 1] == trace[..n] + [ev];
    OpenAfterNext(trace[..n], ev);
    SumAppend(trace[..n], [ev], IsReady());
    SumSmall(IsReady(), ev, ev);
    BufferTable(s.agg, i, ev, AnyOrder(s).order);
  }

  lemma FinishCall(s: System, i: nat, trace: seq<Event>, n: nat, base: int) returns (acts: seq<Action>, t: System)
    requires i < |s.jobs| == |s.agg.perJob| == s.agg.expected && n <= |trace|
    requires s.jobs[i].stage.Turning? && s.jobs[i].rest == trace[n..]
    requires s.agg.phase.Buffering? && !s.agg.readyEmitted
    requires s.agg.perJob[i].pending.Keys == OpenAfter(trace[..n])
    requires s.agg.readyCount == base + ReadysIn(trace[..n]) < s.agg.expected
    requires |s.jobs[i].todo| == 2 && s.jobs[i].todo[0].Emit? && s.jobs[i].todo[1] == Gate
    ensures Runs(s, acts, t) && At(t, i, trace, n, base) && OnlyJob(s, t, i)
  {
    var c := AnyOrder(s);
    var s1 := Next(s, Exec(i, c));
    assert Runs(s, [], s);
    RunsOne(s, [], s, Exec(i, c));
    assert s1.jobs[i].todo == [Gate];
    t := Next(s1, Exec(i, c));
    RunsOne(s, [] + [Exec(i, c)], s1, Exec(i, c));
    acts := [] + [Exec(i, c)] + [Exec(i, c)];
  }

  /** Job i sends its next event and has the whole sink call run. */
  lemma SendNext(s: System, i: nat, trace: seq<Event>, n: nat, base: int) returns (acts: seq<Action>, t: System)
    requires At(s, i, trace, n, base) && n < |trace| && base + ReadysIn(trace[..n + 1]) < s.agg.expected
    ensures Runs(s, acts, t) && At(t, i, trace, n + 1, base) && OnlyJob(s, t, i)
  {
    acts, t := SendOne(s, i, trace, n, base);
    AfterSend(s, i, trace, n, base);
    if trace[n].KeyedEnd() {
      var a2, s2 := FinishCall(t, i, trace, n + 1, base);
      RunsAppend(s, acts, t, a2, s2);
      acts, t := acts + a2, s2;
    }
  }

  lemma FewerBefore(trace: seq<Event>, n: nat)
    requires 0 < n <= |trace|
    ensures ReadysIn(trace[..n - 1]) <= ReadysIn(trace[..n])
  {
    assert trace[..n] == trace[..n - 1] + [trace[n - 1]];
    SumAppend(trace[..n - 1], [trace[n - 1]], IsReady());
    SumSmall(IsReady(), trace[n - 1], trace[n - 1]);
  }

  lemma {:induction false} SendPrefix(s: System, i: nat, trace: seq<Event>, n: nat, base: int)
    returns (acts: seq<Action>, t: System)
    requires At(s, i, trace, 0, base) && n <= |trace| && base + ReadysIn(trace[..n]) < s.agg.expected
    ensures Runs(s, acts, t) && At(t, i, trace, n, base) && OnlyJob(s, t, i)
  {
    if n == 0 {
      acts, t := [], s;
    } else {
      FewerBefore(trace, n);
      var a1, s1 := SendPrefix(s, i, trace, n - 1, base);
      var a2, s2 := SendNext(s1, i, trace, n - 1, base);
      RunsAppend(s, a1, s1, a2, s2);
      acts, t := a1 + a2, s2;
    }
  }

  // ----- plans -----

  /** How far each group has got. */
  ghost predicate Extent(traces: seq<seq<Event>>, prog: seq<nat>) {
    |prog| == |traces| && forall g | 0 <= g < |prog| :: prog[g] <= |traces[g]|
  }

  /** How many of the first m groups have not sent all of their turn. */
  ghost function Unfinished(traces: seq<seq<Event>>, prog: seq<nat>, m: nat): nat
    requires Extent(traces, prog) && m <= |prog|
  {
    if m == 0 then 0
    else Unfinished(traces, prog, m - 1) + if prog[m - 1] < |traces[m - 1]| then 1 else 0
  }

  /** The Readys the first m groups have sent. */
  ghost function CountedBy(traces: seq<seq<Event>>, prog: seq<nat>, m: nat): int
    requires Extent(traces, prog) && m <= |prog|
  {
    if m == 0 then 0
    else CountedBy(traces, prog, m - 1) + ReadysIn(Stamp(m - 1, traces[m - 1])[..prog[m - 1]])
  }

  /** The groups before `launched` are launched, the last of them while a slot was free. */
  ghost predicate Plan(traces: seq<seq<Event>>, launched: nat, prog: seq<nat>) {
    && Extent(traces, prog) && launched <= |traces|
    && (forall g | launched <= g < |prog| :: prog[g] == 0)
    && (launched > 0 ==> Unfinished(traces, prog, launched - 1) < MAX_JOBS)
  }

  lemma {:induction false} PlanGrows(traces: seq<seq<Event>>, prog: seq<nat>, m: nat, n: nat)
    requires Extent(traces, prog) && m <= n <= |prog|
    ensures Unfinished(traces, prog, m) <= Unfinished(traces, prog, n)
    ensures CountedBy(traces, prog, m) <= CountedBy(traces, prog, n)
  {
    if m < n {
      PlanGrows(traces, prog, m, n - 1);
      SumNonNegative(Stamp(n - 1, traces[n - 1])[..prog[n - 1]], IsReady());
    }
  }

  // ----- meeting a plan -----

  ghost function StagedJob(traces: seq<seq<Event>>, prog: seq<nat>, m: nat, j: nat): Goroutine
    requires Extent(traces, prog) && j < |traces|
  {
    if j >= m then Goroutine(Waiting, Stamp(j, traces[j]), [])
    else if prog[j] == |traces[j]| then Goroutine(Marking, [], [])
    else Goroutine(Turning, Stamp(j, traces[j])[prog[j]..], [])
  }

  /** The first m groups are launched and as far as the plan has them. */
  ghost predicate Staged(s: System, traces: seq<seq<Event>>, prog: seq<nat>, m: nat) {
    && Extent(traces, prog) && m <= |traces| && |s.jobs| == |s.agg.perJob| == s.agg.expected == |traces|
    && s.main == Launching(m) && s.slots == Unfinished(traces, prog, m)
    && s.agg.phase.Buffering? && !s.agg.readyEmitted && s.agg.readyCount == CountedBy(traces, prog, m)
    && (forall j | 0 <= j < |traces| :: s.jobs[j] == StagedJob(traces, prog, m, j))
    && (forall j | 0 <= j < m :: s.agg.perJob[j].pending.Keys == OpenAfter(Stamp(j, traces[j])[..prog[j]]))
  }

  /** A launched group sends the first n events of its turn. */
  lemma StartGroup(s: System, i: nat, trace: seq<Event>, n: nat, base: int) returns (acts: seq<Action>, t: System)
    requires i < |s.jobs| == |s.agg.perJob| == s.agg.expected && n <= |trace|
    requires s.jobs[i] == Goroutine(Wrapping, trace, [])
    requires s.agg.phase.Buffering? && !s.agg.readyEmitted && s.agg.readyCount == base
    requires base + ReadysIn(trace[..n]) < s.agg.expected
    ensures Runs(s, acts, t) && At(t, i, trace, n, base) && OnlyJob(s, t, i)
  {
    assert trace[..0] == [] && trace[0..] == trace && EmptyJob.pending.Keys == {};
    var s1 := Next(s, Wrap(i));
    assert Runs(s, [], s);
    RunsOne(s, [], s, Wrap(i));
    acts, t := SendPrefix(s1, i, trace, n, base);
    RunsAppend(s, [] + [Wrap(i)], s1, acts, t);
    acts := [] + [Wrap(i)] + acts;
  }

  /** A turn that has sent everything returns and frees its slot. */
  lemma ReturnGroup(s: System, i: nat, trace: seq<Event>, base: int) returns (acts: seq<Action>, t: System)
    requires At(s, i, trace, |trace|, base)
    ensures Runs(s, acts, t) && t == s.(jobs := s.jobs[i := Goroutine(Marking, [], [])], slots := s.slots - 1)
  {
    assert trace[|trace|..] == [];
    var s1 := Next(s, Return(i));
    assert Runs(s, [], s);
    RunsOne(s, [], s, Return(i));
    t := Next(s1, Release(i));
    RunsOne(s, [] + [Return(i)], s1, Release(i));
    assert s1.jobs[i := t.jobs[i]] == s.jobs[i := t.jobs[i]];
    acts := [] + [Return(i)] + [Release(i)];
  }

  /** Everything Staged says but for the group being launched. */
  lemma StageNext(s: System, traces: seq<seq<Event>>, prog: seq<nat>, m: nat, next: nat)
    returns (acts: seq<Action>, t: System)
    requires Staged(s, traces, prog, m) && next == m + 1 <= |traces|
    requires Unfinished(traces, prog, m) < MAX_JOBS && CountedBy(traces, prog, next) < |traces|
    ensures Runs(s, acts, t) && Staged(t, traces, prog, next)
  {
    var trace := Stamp(m, traces[m]);
    var s1 := Next(s, Launch);
    assert Runs(s, [], s);
    RunsOne(s, [], s, Launch);
    var a2, s2 := StartGroup(s1, m, trace, prog[m], s.agg.readyCount);
    RunsAppend(s, [] + [Launch], s1, a2, s2);
    acts, t := [] + [Launch] + a2, s2;
    if prog[m] == |traces[m]| {
      var a3, s3 := ReturnGroup(s2, m, trace, s.agg.readyCount);
      RunsAppend(s, acts, s2, a3, s3);
      acts, t := acts + a3, s3;
    }
    StagedAfter(s, s2, t, traces, prog, m);
  }

  lemma StagedAfter(s: System, s2: System, t: System, traces: seq<seq<Event>>, prog: seq<nat>, m: nat)
    requires Staged(s, traces, prog, m) && m < |traces|
    requires At(s2, m, Stamp(m, traces[m]), prog[m], s.agg.readyCount)
    requires Enabled(s, Launch) && OnlyJob(Next(s, Launch), s2, m)
    requires prog[m] < |traces[m]| ==> t == s2
    requires prog[m] == |traces[m]| ==>
      t == s2.(jobs := s2.jobs[m := Goroutine(Marking, [], [])], slots := s2.slots - 1)
    ensures Staged(t, traces, prog, m + 1)
  {
    forall j | 0 <= j < |traces| ensures t.jobs[j] == StagedJob(traces, prog, m + 1, j) {
      assert s.jobs[j] == StagedJob(traces, prog, m, j);
    }
  }

  lemma StageNone(traces: seq<seq<Event>>, prog: seq<nat>)
    requires Extent(traces, prog)
    ensures Staged(Init(traces), traces, prog, 0)
  {
  }

  /** Launching the first m groups of the plan one by one leaves a slot for each and does not open phase 2. */
  ghost predicate Room(traces: seq<seq<Event>>, prog: seq<nat>, m: nat)
    requires Extent(traces, prog) && m <= |traces|
  {
    m > 0 ==> Unfinished(traces, prog, m - 1) < MAX_JOBS && CountedBy(traces, prog, m) < |traces|
  }

  lemma RoomBefore(traces: seq<seq<Event>>, prog: seq<nat>, m: nat, next: nat)
    requires Extent(traces, prog) && next == m + 1 <= |traces| && Room(traces, prog, next)
    ensures Room(traces, prog, m)
    ensures Unfinished(traces, prog, m) < MAX_JOBS && CountedBy(traces, prog, next) < |traces|
  {
    PlanGrows(traces, prog, m, next);
    if m > 0 {
      PlanGrows(traces, prog, m - 1, m);
    }
  }

  lemma {:induction false} Reach(start: System, traces: seq<seq<Event>>, prog: seq<nat>, m: nat)
    returns (acts: seq<Action>, s: System)
    requires Staged(start, traces, prog, 0) && m <= |traces| && Room(traces, prog, m)
    ensures Runs(start, acts, s) && Staged(s, traces, prog, m)
  {
    if m == 0 {
      acts, s := [], start;
    } else {
      RoomBefore(traces, prog, m - 1, m);
      var before, prior := Reach(start, traces, prog, m - 1);
      acts, s := StageMore(start, before, prior, traces, prog, m - 1, m);
    }
  }

  lemma StageMore(start: System, before: seq<Action>, s: System, traces: seq<seq<Event>>, prog: seq<nat>, m: nat,
                  next: nat)
    returns (acts: seq<Action>, t: System)
    requires Runs(start, before, s) && Staged(s, traces, prog, m) && next == m + 1 <= |traces|
    requires Unfinished(traces, prog, m) < MAX_JOBS && CountedBy(traces, prog, next) < |traces|
    ensures Runs(start, acts, t) && Staged(t, traces, prog, next)
  {
    acts, t := StageNext(s, traces, prog, m, next);
    RunsAppend(start, before, s, acts, t);
    acts := before + acts;
  }

  // ----- the plan that has an early event sent in phase 1 -----

  ghost function Below(held: set<nat>, m: nat): set<nat> { set g | g in held && g < m }

  lemma {:induction false} SubsetSize(a: set<nat>, b: set<nat>)
    requires a <= b
    ensures |a| <= |b|
  {
    if a != {} {
      var x :| x in a;
      SubsetSize(a - {x}, b - {x});
    }
  }

  lemma BelowGrows(held: set<nat>, m: nat)
    ensures |Below(held, m)| <= |held| && Below(held, 0) == {}
    ensures |Below(held, m + 1)| == |Below(held, m)| + if m in held then 1 else 0
  {
    SubsetSize(Below(held, m), held);
    assert Below(held, m + 1) == Below(held, m) + if m in held then {m} else {};
  }

  /** The groups in held wait, the others before i run to their end, and i sends k events. */
  ghost function HoldBack(traces: seq<seq<Event>>, held: set<nat>, i: nat, k: nat): seq<nat> {
    seq(|traces|, g requires 0 <= g < |traces| =>
      if g == i then k else if g > i || g in held then 0 else |traces[g]|)
  }

  lemma {:induction false} HoldBackCounts(traces: seq<seq<Event>>, held: set<nat>, i: nat, k: nat, m: nat)
    requires m <= i < |traces| && k <= |traces[i]|
    ensures Extent(traces, HoldBack(traces, held, i, k))
    ensures Unfinished(traces, HoldBack(traces, held, i, k), m) <= |Below(held, m)|
    ensures CountedBy(traces, HoldBack(traces, held, i, k), m) == EarlierReadys(traces, m, held)
  {
    BelowGrows(held, if m == 0 then 0 else m - 1);
    if m > 0 {
      HoldBackCounts(traces, held, i, k, m - 1);
      var trace := Stamp(m - 1, traces[m - 1]);
      assert trace[..|trace|] == trace && trace[..0] == [];
    }
  }

  /** An event that is in time can be the next its group sends in phase 1. */
  lemma ReachInTime(traces: seq<seq<Event>>, i: nat, k: nat) returns (acts: seq<Action>, s: System, base: int)
    requires i < |traces| && k < |traces[i]| && InTime(traces, i, k)
    ensures Runs(Init(traces), acts, s) && At(s, i, Stamp(i, traces[i]), k, base)
  {
    var held: set<nat> :|
      |held| < MAX_JOBS && EarlierReadys(traces, i, held) + ReadysIn(Stamp(i, traces[i])[..k]) < |traces|;
    var prog := HoldBack(traces, held, i, k);
    HoldBackCounts(traces, held, i, k, i);
    BelowGrows(held, i);
    assert Room(traces, prog, i + 1);
    StageNone(traces, prog);
    acts, s := Reach(Init(traces), traces, prog, i + 1);
    assert s.jobs[i] == StagedJob(traces, prog, i + 1, i);
    base := s.agg.readyCount - ReadysIn(Stamp(i, traces[i])[..k]);
  }

  // ----- all slots -----

  /** Turns are launched one by one while fewer than four are running. */
  lemma {:induction false} LaunchMany(traces: seq<seq<Event>>, m: nat) returns (acts: seq<Action>, s: System)
    requires m <= 4 && m <= |traces|
    ensures Runs(Init(traces), acts, s) && s.main == Launching(m) && s.slots == m && |s.jobs| == |traces|
    ensures |s.agg.perJob| == |s.jobs| && forall j | 0 <= j < m :: HoldsSlot(s.jobs[j])
  {
    if m == 0 {
      acts, s := [], Init(traces);
    } else {
      var before, prior := LaunchMany(traces, m - 1);
      RunsOne(Init(traces), before, prior, Launch);
      acts, s := before + [Launch], Next(prior, Launch);
    }
  }

  /** The bound is reached: with four groups or more, four turns can be under way at once. */
  lemma FourAtOnce(traces: seq<seq<Event>>) returns (acts: seq<Action>, s: System)
    requires |traces| >= 4
    ensures Runs(Init(traces), acts, s) && s.slots == 4 && |s.jobs| == |traces|
    ensures forall j | 0 <= j < 4 :: HoldsSlot(s.jobs[j])
  {
    acts, s := LaunchMany(traces, 4);
  }
}

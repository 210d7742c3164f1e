/**
 Which events phase 1 can have handled when phase 2 opens: a run can open it with every
 group at its place in a plan exactly when the plan is one Ready short and some launched
 group sends a Ready next.
 */
module FanoutOpening {
  import opened Sums
  import opened AggregatorSpec
  import opened Fanout
  import opened FanoutTools
  import opened FanoutLimits
  import opened FanoutBacklog
  import opened FanoutPlans

  /** With the groups as far as prog says, group r's next event is the last Ready missing. */
  ghost predicate Fires(traces: seq<seq<Event>>, launched: nat, prog: seq<nat>, r: nat) {
    && Plan(traces, launched, prog)
    && r < launched && prog[r] < |traces[r]| && traces[r][prog[r]].kind.Ready?
    && CountedBy(traces, prog, |traces|) + 1 == |traces|
  }

  // ----- every such plan can be met -----

  lemma {:induction false} CountedBeyond(traces: seq<seq<Event>>, launched: nat, prog: seq<nat>, m: nat)
    requires Plan(traces, launched, prog) && launched <= m <= |traces|
    ensures CountedBy(traces, prog, m) == CountedBy(traces, prog, launched)
  {
    if launched < m {
      CountedBeyond(traces, launched, prog, m - 1);
      assert Stamp(m - 1, traces[m - 1])[..0] == [];
    }
  }

  lemma FiresRoom(traces: seq<seq<Event>>, launched: nat, prog: seq<nat>, r: nat)
    requires Fires(traces, launched, prog, r)
    ensures Room(traces, prog, launched) && CountedBy(traces, prog, launched) + 1 == |traces|
  {
    CountedBeyond(traces, launched, prog, |traces|);
  }

  lemma StagedAt(s: System, traces: seq<seq<Event>>, launched: nat, prog: seq<nat>, r: nat) returns (base: int)
    requires Staged(s, traces, prog, launched) && r < launched && prog[r] < |traces[r]|
    ensures At(s, r, Stamp(r, traces[r]), prog[r], base)
  {
    assert s.jobs[r] == StagedJob(traces, prog, launched, r);
    base := s.agg.readyCount - ReadysIn(Stamp(r, traces[r])[..prog[r]]);
  }

  /** Group r is about to enter the section that opens phase 2, the others stand where the plan has them. */
  ghost predicate Standing(s: System, traces: seq<seq<Event>>, launched: nat, prog: seq<nat>, r: nat) {
    && Extent(traces, prog) && r < |traces| == |s.jobs| && prog[r] < |traces[r]|
    && s.jobs[r] == Goroutine(Turning, Stamp(r, traces[r])[prog[r] + 1..], [Buffer(Stamp(r, traces[r])[prog[r]])])
    && (forall j | 0 <= j < |traces| && j != r :: s.jobs[j] == StagedJob(traces, prog, launched, j))
  }

  ghost predicate AtOpening(s: System, traces: seq<seq<Event>>, launched: nat, prog: seq<nat>, r: nat, c: Choice) {
    Standing(s, traces, launched, prog, r) && Before(s, traces) && Opens(s, r, c)
  }

  lemma DeliveredStands(s: System, t: System, traces: seq<seq<Event>>, launched: nat, prog: seq<nat>, r: nat)
    requires Staged(s, traces, prog, launched) && r < launched && prog[r] < |traces[r]|
    requires var trace := Stamp(r, traces[r]);
      t == s.(jobs := s.jobs[r := Goroutine(Turning, trace[prog[r] + 1..], [Buffer(trace[prog[r]])])])
    ensures Standing(t, traces, launched, prog, r)
  {
    forall j | 0 <= j < |traces| && j != r ensures t.jobs[j] == StagedJob(traces, prog, launched, j) {
      assert s.jobs[j] == StagedJob(traces, prog, launched, j);
    }
  }

  lemma LastReadyOpens(s: System, r: nat, ev: Event, c: Choice)
    requires r < |s.jobs| == |s.agg.perJob| && s.jobs[r].todo == [Buffer(ev)] && ValidOrder(c.order, |s.jobs|)
    requires s.agg.phase.Buffering? && !s.agg.readyEmitted && ev.kind.Ready? && s.agg.readyCount + 1 == s.agg.expected
    ensures Opens(s, r, c)
  {
  }

  lemma ReachStaged(traces: seq<seq<Event>>, launched: nat, prog: seq<nat>, r: nat)
    returns (acts: seq<Action>, s: System)
    requires Fires(traces, launched, prog, r)
    ensures Runs(Init(traces), acts, s) && Staged(s, traces, prog, launched) && s.agg.readyCount + 1 == |traces|
  {
    FiresRoom(traces, launched, prog, r);
    StageNone(traces, prog);
    acts, s := Reach(Init(traces), traces, prog, launched);
  }

  lemma DeliverLastReady(s: System, traces: seq<seq<Event>>, launched: nat, prog: seq<nat>, r: nat, c: Choice)
    returns (acts: seq<Action>, t: System)
    requires Fires(traces, launched, prog, r) && Staged(s, traces, prog, launched) && ValidOrder(c.order, |traces|)
    requires s.agg.readyCount + 1 == |traces|
    ensures Runs(s, acts, t) && Standing(t, traces, launched, prog, r) && t.agg == s.agg
    ensures Opens(t, r, c)
  {
    var base := StagedAt(s, traces, launched, prog, r);
    acts, t := Deliver(s, r, Stamp(r, traces[r]), prog[r], base);
    DeliveredStands(s, t, traces, launched, prog, r);
    LastReadyOpens(t, r, Stamp(r, traces[r])[prog[r]], c);
  }

  /** In whatever order the replay will take the jobs. */
  lemma ReachOpening(traces: seq<seq<Event>>, launched: nat, prog: seq<nat>, r: nat, c: Choice)
    returns (acts: seq<Action>, s: System)
    requires Fires(traces, launched, prog, r) && ValidOrder(c.order, |traces|)
    ensures Runs(Init(traces), acts, s) && AtOpening(s, traces, launched, prog, r, c)
  {
    var a1, s1 := ReachStaged(traces, launched, prog, r);
    var a2, s2 := DeliverLastReady(s1, traces, launched, prog, r, c);
    RunsAppend(Init(traces), a1, s1, a2, s2);
    acts, s := a1 + a2, s2;
    InitBefore(traces);
    StillBefore(Init(traces), acts, s, traces);
  }

  lemma OneBuffered(g: Goroutine, i: nat, ev: Event)
    requires g.todo == [Buffer(ev)]
    ensures |Ahead(g, i)| == 1 + |g.rest|
  {
    AheadBuffered(g, i);
    assert g.todo[1..] == [] && Upcoming([], i, i) + g.rest == g.rest;
  }

  lemma PlanHandled(s: System, traces: seq<seq<Event>>, launched: nat, prog: seq<nat>, r: nat, j: nat)
    requires Standing(s, traces, launched, prog, r) && Plan(traces, launched, prog) && j < |traces|
    ensures Handled(s, traces, j) == prog[j]
  {
    if j == r {
      OneBuffered(s.jobs[r], r, Stamp(r, traces[r])[prog[r]]);
    } else {
      assert s.jobs[j] == StagedJob(traces, prog, launched, j);
      assert Ahead(s.jobs[j], j) == s.jobs[j].rest;
    }
  }

  // ----- and phase 2 opens at no other -----

  /** When the last group was launched a slot was free, and those before it can only have returned since. */
  ghost predicate LaunchRoom(s: System) {
    s.main.Launching? && 0 < s.main.next <= |s.jobs| ==> Sum(s.jobs[..s.main.next - 1], SlotWeight()) < MAX_JOBS
  }

  lemma {:induction false} SumShrinks<T>(a: seq<T>, b: seq<T>, f: T -> int)
    requires |a| == |b| && forall k | 0 <= k < |a| :: f(a[k]) <= f(b[k])
    ensures Sum(a, f) <= Sum(b, f)
  {
    if a != [] {
      assert forall k | 0 <= k < |a[1..]| :: f(a[1..][k]) <= f(b[1..][k]);
      SumShrinks(a[1..], b[1..], f);
    }
  }

  lemma SlotsOnlyFreed(s: System, act: Action)
    requires Lifecycle(s) && Enabled(s, act) && !act.Launch?
    ensures var t := Next(s, act);
      && |t.jobs| == |s.jobs| && (t.main.Launching? ==> t.main == s.main)
      && forall j | 0 <= j < |s.jobs| :: SlotWeight()(t.jobs[j]) <= SlotWeight()(s.jobs[j])
  {
  }

  lemma LaunchFindsRoom(s: System)
    requires Lifecycle(s) && Enabled(s, Launch)
    ensures LaunchRoom(Next(s, Launch))
  {
    var m := s.main.next;
    assert Next(s, Launch).jobs[..m] == s.jobs[..m];
    assert s.jobs == s.jobs[..m] + s.jobs[m..];
    SumAppend(s.jobs[..m], s.jobs[m..], SlotWeight());
    SumNonNegative(s.jobs[m..], SlotWeight());
  }

  lemma NextLaunchRoom(s: System, act: Action)
    requires Lifecycle(s) && LaunchRoom(s) && Enabled(s, act)
    ensures LaunchRoom(Next(s, act))
  {
    if act.Launch? {
      LaunchFindsRoom(s);
    } else {
      SlotsOnlyFreed(s, act);
      if Next(s, act).main.Launching? && s.main.next > 0 {
        SumShrinks(Next(s, act).jobs[..s.main.next - 1], s.jobs[..s.main.next - 1], SlotWeight());
      }
    }
  }

  lemma {:induction false} RunLaunchRoom(s: System, acts: seq<Action>, t: System)
    requires Lifecycle(s) && LaunchRoom(s) && Runs(s, acts, t)
    ensures LaunchRoom(t)
    decreases acts
  {
    if acts != [] {
      NextLifecycle(s, acts[0]);
      NextLaunchRoom(s, acts[0]);
      RunLaunchRoom(Next(s, acts[0]), acts[1..], t);
    }
  }

  lemma {:induction false} CountedIsSum(traces: seq<seq<Event>>, prog: seq<nat>, counted: seq<int>, m: nat)
    requires Extent(traces, prog) && m <= |traces| == |counted|
    requires forall g | 0 <= g < |traces| :: counted[g] == ReadysIn(Stamp(g, traces[g])[..prog[g]])
    ensures CountedBy(traces, prog, m) == Sum(counted[..m], Itself())
  {
    if m > 0 {
      CountedIsSum(traces, prog, counted, m - 1);
      assert counted[..m] == counted[..m - 1] + [counted[m - 1]];
      SumAppend(counted[..m - 1], [counted[m - 1]], Itself());
      SumSmall(Itself(), counted[m - 1], counted[m - 1]);
    }
  }

  /** A launched group with events ahead still holds its slot. */
  lemma AheadHolds(s: System, g: nat)
    requires Lifecycle(s) && g < |s.jobs| && !s.jobs[g].stage.Waiting? && Ahead(s.jobs[g], g) != []
    ensures HoldsSlot(s.jobs[g])
  {
    assert ControlOk(s.jobs[g]);
    assert Upcoming([Emit([OuterResult])], g, g) == [] + Upcoming([], g, g);
  }

  lemma UnfinishedHolds(s: System, traces: seq<seq<Event>>, g: nat)
    requires Lifecycle(s) && g < |s.jobs| == |traces| && !s.jobs[g].stage.Waiting?
    ensures (if Handled(s, traces, g) < |traces[g]| then 1 else 0) <= SlotWeight()(s.jobs[g])
  {
    if Ahead(s.jobs[g], g) != [] {
      AheadHolds(s, g);
    }
  }

  lemma {:induction false} UnfinishedHold(jobs: seq<Goroutine>, traces: seq<seq<Event>>, prog: seq<nat>, m: nat)
    requires Extent(traces, prog) && m <= |traces| == |jobs|
    requires forall g | 0 <= g < m :: (if prog[g] < |traces[g]| then 1 else 0) <= SlotWeight()(jobs[g])
    ensures Unfinished(traces, prog, m) <= Sum(jobs[..m], SlotWeight())
  {
    if m > 0 {
      UnfinishedHold(jobs, traces, prog, m - 1);
      assert jobs[..m] == jobs[..m - 1] + [jobs[m - 1]];
      SumAppend(jobs[..m - 1], [jobs[m - 1]], SlotWeight());
      SumSmall(SlotWeight(), jobs[m - 1], jobs[m - 1]);
    }
  }

  lemma HandledCounts(s: System, traces: seq<seq<Event>>, g: nat)
    requires g < |traces| == |s.jobs| == |s.agg.perJob| && ConsumedAt(s, g, traces)
    ensures 0 <= Handled(s, traces, g) <= |traces[g]|
    ensures CountedOf(s, traces, g) == ReadysIn(Stamp(g, traces[g])[..Handled(s, traces, g)])
  {
    CountedPrefix(s, traces, g);
  }

  lemma PlanCounts(s: System, traces: seq<seq<Event>>, prog: seq<nat>)
    requires Before(s, traces) && Extent(traces, prog)
    requires forall g | 0 <= g < |traces| :: prog[g] == Handled(s, traces, g)
    ensures CountedBy(traces, prog, |traces|) == s.agg.readyCount
  {
    var counted := seq(|traces|, g requires 0 <= g < |traces| => CountedOf(s, traces, g));
    forall g | 0 <= g < |traces| ensures counted[g] == ReadysIn(Stamp(g, traces[g])[..prog[g]]) {
      assert ConsumedAt(s, g, traces);
      HandledCounts(s, traces, g);
    }
    CountedTotal(s, traces, counted);
    CountedIsSum(traces, prog, counted, |traces|);
    assert counted[..|traces|] == counted;
  }

  lemma HandledPlan(s: System, traces: seq<seq<Event>>) returns (prog: seq<nat>)
    requires Before(s, traces)
    ensures Extent(traces, prog) && forall g | 0 <= g < |traces| :: prog[g] == Handled(s, traces, g)
  {
    forall g | 0 <= g < |traces| ensures 0 <= Handled(s, traces, g) <= |traces[g]| {
      assert ConsumedAt(s, g, traces);
    }
    prog := seq(|traces|, g requires 0 <= g < |traces| => Handled(s, traces, g));
  }

  lemma OpenerAhead(s: System, traces: seq<seq<Event>>, r: nat, ev: Event)
    requires Before(s, traces) && r < |traces| && s.jobs[r].todo != [] && s.jobs[r].todo[0] == Buffer(ev)
    ensures 0 <= Handled(s, traces, r) < |traces[r]| && Stamp(r, traces[r])[Handled(s, traces, r)] == ev
  {
    assert ConsumedAt(s, r, traces);
    AheadAfter(s.jobs[r], r, []);
    assert Ahead(s.jobs[r], r)[0] == ev;
  }

  lemma LaunchedHold(s: System, traces: seq<seq<Event>>, prog: seq<nat>, m: nat)
    requires Lifecycle(s) && Extent(traces, prog) && m <= |traces| == |s.jobs|
    requires forall g | 0 <= g < |traces| :: prog[g] == Handled(s, traces, g)
    requires forall g | 0 <= g < m :: !s.jobs[g].stage.Waiting?
    ensures Unfinished(traces, prog, m) <= Sum(s.jobs[..m], SlotWeight())
  {
    forall g | 0 <= g < m ensures (if prog[g] < |traces[g]| then 1 else 0) <= SlotWeight()(s.jobs[g]) {
      UnfinishedHolds(s, traces, g);
    }
    UnfinishedHold(s.jobs, traces, prog, m);
  }

  lemma OpenerLaunched(s: System, r: nat)
    requires Lifecycle(s) && r < |s.jobs| && s.jobs[r].todo != []
    ensures s.main.Launching? && r < s.main.next <= |s.jobs|
    ensures forall g | 0 <= g < s.main.next :: !s.jobs[g].stage.Waiting?
  {
    assert ControlOk(s.jobs[r]);
  }

  /** How far the groups have come before phase 2 is a plan. */
  lemma HandledIsPlan(s: System, traces: seq<seq<Event>>, prog: seq<nat>)
    requires Before(s, traces) && LaunchRoom(s) && s.main.Launching? && Extent(traces, prog)
    requires forall g | 0 <= g < |traces| :: prog[g] == Handled(s, traces, g)
    requires forall g | 0 <= g < s.main.next && g < |s.jobs| :: !s.jobs[g].stage.Waiting?
    ensures Plan(traces, s.main.next, prog)
  {
    forall g | s.main.next <= g < |traces| ensures prog[g] == 0 {
      assert ConsumedAt(s, g, traces);
    }
    if s.main.next > 0 {
      LaunchedHold(s, traces, prog, s.main.next - 1);
    }
  }

  /** Where the groups stand when a run opens phase 2 is a plan that fires. */
  lemma OpeningPlan(s: System, traces: seq<seq<Event>>, r: nat, c: Choice) returns (launched: nat, prog: seq<nat>)
    requires Before(s, traces) && LaunchRoom(s) && Opens(s, r, c)
    ensures Fires(traces, launched, prog, r)
    ensures forall g | 0 <= g < |traces| :: prog[g] == Handled(s, traces, g)
  {
    TriggerIsReady(s, traces, r, c);
    OpenerAhead(s, traces, r, s.jobs[r].todo[0].ev);
    OpenerLaunched(s, r);
    launched := s.main.next;
    prog := HandledPlan(s, traces);
    PlanCounts(s, traces, prog);
    HandledIsPlan(s, traces, prog);
  }

  /** The same for a run from the start. */
  lemma OpenedByPlan(traces: seq<seq<Event>>, acts: seq<Action>, t: System, k: nat, mid: System, r: nat, c: Choice)
    returns (launched: nat, prog: seq<nat>)
    requires OpensIn(Init(traces), acts, t, traces, k, mid, r, c)
    ensures Fires(traces, launched, prog, r)
    ensures |mid.jobs| == |traces| && forall g | 0 <= g < |traces| :: prog[g] == Handled(mid, traces, g)
  {
    InitLifecycle(traces);
    RunLaunchRoom(Init(traces), acts[..k], mid);
    launched, prog := OpeningPlan(mid, traces, r, c);
  }
}

/**
 When every job's passed-through events are logged, or its task events merged, in the order
 they were sent. A live event can overtake the replay of earlier ones; FanoutInOrder says how
 far that can go, this module for which turns it can happen at all.
 */
module FanoutReorder {
  import opened Sums
  import opened AggregatorSpec
  import opened Fanout
  import opened FanoutShape
  import opened FanoutDelivery
  import opened FanoutResults
  import opened FanoutTasks
  import opened FanoutProgress
  import opened FanoutOrder
  import opened FanoutReplay
  import opened FanoutBacklog
  import opened FanoutInOrder
  import opened FanoutPlans
  import opened FanoutOpening

  predicate Uniform(evs: seq<Event>) {
    forall k | 0 <= k < |evs| :: evs[k] == evs[0]
  }

  /** Phase 2 can open from group r while group i has such events on both sides, not all of them equal. */
  ghost predicate CutInTwo(ch: Channel, traces: seq<seq<Event>>, launched: nat, prog: seq<nat>, r: nat, i: nat) {
    && Fires(traces, launched, prog, r) && i < |traces| && i != r
    && Picks(ch, Stamp(i, traces[i])[..prog[i]], i) != [] && Picks(ch, Stamp(i, traces[i])[prog[i]..], i) != []
    && !Uniform(Picks(ch, Stamp(i, traces[i]), i))
  }

  ghost predicate AtRisk(ch: Channel, traces: seq<seq<Event>>) {
    exists launched: nat, prog: seq<nat>, r: nat, i: nat :: CutInTwo(ch, traces, launched, prog, r, i)
  }

  // ----- no risk, no reordering -----

  lemma {:induction false} MergedAlone(l: seq<Event>, a: seq<Event>, z: seq<Event>)
    requires Shuffle(l, a, z)
    ensures |l| == |a| + |z|
    ensures a == [] ==> l == z
    ensures z == [] ==> l == a
    decreases |l|
  {
    if l != [] {
      var n := |l| - 1;
      if a != [] && a[|a| - 1] == l[n] && Shuffle(l[..n], a[..|a| - 1], z) {
        MergedAlone(l[..n], a[..|a| - 1], z);
        assert l == l[..n] + [l[n]] && a == a[..|a| - 1] + [l[n]];
      } else {
        MergedAlone(l[..n], a, z[..|z| - 1]);
        assert l == l[..n] + [l[n]] && z == z[..|z| - 1] + [l[n]];
      }
    }
  }

  lemma {:induction false} MergedFrom(l: seq<Event>, a: seq<Event>, z: seq<Event>, e: Event)
    requires Shuffle(l, a, z) && e in l
    ensures e in a || e in z
    decreases |l|
  {
    var n := |l| - 1;
    assert l == l[..n] + [l[n]];
    if e != l[n] {
      if a != [] && a[|a| - 1] == l[n] && Shuffle(l[..n], a[..|a| - 1], z) {
        MergedFrom(l[..n], a[..|a| - 1], z, e);
      } else {
        MergedFrom(l[..n], a, z[..|z| - 1], e);
      }
    }
  }

  /** Interleaving equal events, or with nothing, cannot be seen. */
  lemma Unseen(sent: seq<Event>, p: seq<Event>, q: seq<Event>, a: seq<Event>, z: seq<Event>)
    requires Shuffle(sent, p, q) && p <= a && q <= z
    requires a == [] || z == [] || Uniform(a + z)
    ensures sent <= a + z
  {
    MergedAlone(sent, p, q);
    if a == [] {
      assert p == [] && sent == q && a + z == z;
    } else if z == [] {
      assert q == [] && sent == p && a + z == a;
    } else {
      forall k | 0 <= k < |sent| ensures sent[k] == (a + z)[k] {
        MergedFrom(sent, p, q, sent[k]);
        assert sent[k] in a + z && (a + z)[k] == (a + z)[0];
      }
    }
  }

  lemma LateInOrder(ch: Channel, t: System, r: nat, i: nat, q: Parts)
    requires i < |t.jobs| && r < |t.jobs| && LateAt(ch, t, r, i, q) && q.base == []
    requires i != r ==> q.early == [] || q.late == [] || Uniform(q.early + q.late)
    ensures Seen(ch, t.agg, i) <= q.early + q.late
  {
    if i == r {
      OwnWhole(ch, t, r, q, q.early + q.late);
    } else {
      var a, z :| PartsAt(ch, t, r, i, q, a, z);
      Unseen(Seen(ch, t.agg, i), a, z, q.early, q.late);
    }
  }

  lemma OpenedInOrder(ch: Channel, traces: seq<seq<Event>>, acts: seq<Action>, t: System, i: nat)
    requires !ch.Forwards? && !AtRisk(ch, traces) && Runs(Init(traces), acts, t) && i < |traces| && t.agg.readyEmitted
    ensures Seen(ch, t.agg, i) <= Picks(ch, Stamp(i, traces[i]), i)
  {
    InitBefore(traces);
    var k, mid, r, c := FindOpening(Init(traces), acts, t, traces);
    var launched, prog := OpenedByPlan(traces, acts, t, k, mid, r, c);
    OrderAfterOpening(ch, traces, acts, t, k, mid, r, c, i);
    PlainCut(ch, PartsOf(ch, mid, i), Stamp(i, traces[i]), i, Handled(mid, traces, i), |Seen(ch, mid.agg, i)|);
    assert !CutInTwo(ch, traces, launched, prog, r, i);
    LateInOrder(ch, t, r, i, PartsOf(ch, mid, i));
  }

  lemma NothingSeen(ch: Channel, t: System, traces: seq<seq<Event>>, i: nat)
    requires Before(t, traces) && i < |t.jobs| == |traces| && !ch.Forwards?
    ensures Seen(ch, t.agg, i) == []
  {
    assert EarlyAt(ch, t, traces, i);
    KeepsAll(ch, Stamp(i, traces[i])[..Handled(t, traces, i)], i);
  }

  /**
   Without that risk: at every moment of every run each job's events are there in the order they were sent, with none
   left out in between; and all of them in the end if enough Readys were sent.
   */
  lemma InOrder(ch: Channel, traces: seq<seq<Event>>, acts: seq<Action>, t: System, i: nat)
    requires !ch.Forwards? && !AtRisk(ch, traces) && Runs(Init(traces), acts, t) && i < |traces|
    ensures Seen(ch, t.agg, i) <= Picks(ch, Stamp(i, traces[i]), i)
    ensures t.main.Merged? && ReadysSent(traces) >= |traces| ==> Seen(ch, t.agg, i) == Picks(ch, Stamp(i, traces[i]), i)
  {
    if t.agg.readyEmitted {
      OpenedInOrder(ch, traces, acts, t, i);
    } else {
      InitBefore(traces);
      StillBefore(Init(traces), acts, t, traces);
      NothingSeen(ch, t, traces, i);
    }
    if t.main.Merged? && ReadysSent(traces) >= |traces| {
      AllThere(ch, traces, acts, t, i);
    }
  }

  lemma PartsLength(ch: Channel, trace: seq<Event>, m: nat, sent: seq<Event>, i: nat)
    requires m <= |trace| && Shuffle(sent, Picks(ch, trace[..m], i), Picks(ch, trace[m..], i))
    ensures |sent| == |Picks(ch, trace, i)|
  {
    MergedAlone(sent, Picks(ch, trace[..m], i), Picks(ch, trace[m..], i));
    assert trace == trace[..m] + trace[m..];
    PicksAppend(ch, trace[..m], trace[m..], i);
  }

  lemma AllThere(ch: Channel, traces: seq<seq<Event>>, acts: seq<Action>, t: System, i: nat)
    requires Runs(Init(traces), acts, t) && t.main.Merged? && ReadysSent(traces) >= |traces| && i < |traces|
    requires !ch.Forwards?
    ensures |Seen(ch, t.agg, i)| == |Picks(ch, Stamp(i, traces[i]), i)|
  {
    CompleteParts(ch, traces, acts, t, i);
    var m: nat :| m <= |traces[i]|
      && Shuffle(Seen(ch, t.agg, i), Picks(ch, Stamp(i, traces[i])[..m], i), Picks(ch, Stamp(i, traces[i])[m..], i));
    PartsLength(ch, Stamp(i, traces[i]), m, Seen(ch, t.agg, i), i);
  }

  // ----- with it, some run reorders -----

  /** The start of a cut short and followed by the start of z is not how they were sent. */
  lemma BadCut(a: seq<Event>, z: seq<Event>) returns (k: nat, q: nat)
    requires a != [] && z != [] && !Uniform(a + z)
    ensures k <= |a| && q <= |z| && !(a[..k] + z[..q] <= a + z)
  {
    if j :| 0 <= j < |a| && a[j] != z[0] {
      k, q := j, 1;
      assert (a[..k] + z[..q])[k] == z[0] && (a + z)[k] == a[j];
    } else {
      var n :| 0 <= n < |a + z| && (a + z)[n] != (a + z)[0];
      assert (a + z)[n] == z[n - |a|];
      var j := FirstOther(z, z[0]);
      k, q := 0, j + 1;
      assert (a[..k] + z[..q])[j] == z[j] && (a + z)[j] == z[0];
    }
  }

  lemma {:induction false} FirstOther(z: seq<Event>, e: Event) returns (j: nat)
    requires exists n :: 0 <= n < |z| && z[n] != e
    ensures j < |z| && z[j] != e && forall n | 0 <= n < j :: z[n] == e
  {
    if z[0] != e {
      j := 0;
    } else {
      var n :| 0 <= n < |z| && z[n] != e;
      assert z[1..][n - 1] != e;
      var m := FirstOther(z[1..], e);
      j := m + 1;
      assert forall n | 0 < n < j :: z[n] == z[1..][n - 1];
    }
  }

  /** Goroutine j, in its turn with some of job i's events to log, is let run until the log has n of them. */
  ghost predicate Running(s: System, traces: seq<seq<Event>>, j: nat, i: nat) {
    && Good(s, traces) && Tasks(s) && s.agg.readyEmitted && j < |s.jobs| && i < |s.jobs| && s.jobs[j].stage.Turning?
  }

  lemma StepAlong(ch: Channel, s: System, traces: seq<seq<Event>>, j: nat, i: nat) returns (act: Action)
    requires Running(s, traces, j, i) && Live(ch, s.jobs[j], i) != []
    ensures Enabled(s, act) && (act == Call(j) || (act.Exec? && act.i == j))
  {
    var g := s.jobs[j];
    if g.todo != [] {
      var c := SomeChoice(s.agg, g.todo[0]);
      act := Exec(j, c);
    } else {
      act := Call(j);
    }
  }

  /** It logs at most one of them in a step, and the next one. */
  lemma AlongLogs(ch: Channel, s: System, traces: seq<seq<Event>>, j: nat, i: nat, act: Action)
    requires Running(s, traces, j, i) && Enabled(s, act) && (act == Call(j) || (act.Exec? && act.i == j))
    ensures var t := Next(s, act);
      && Running(t, traces, j, i) && |t.jobs| == |s.jobs| && Cost(t) < Cost(s) && Cost(t) >= 0
      && (forall h | 0 <= h < |s.jobs| && h != j :: t.jobs[h] == s.jobs[h])
      && Seen(ch, t.agg, i) + Live(ch, t.jobs[j], i) == Seen(ch, s.agg, i) + Live(ch, s.jobs[j], i)
      && |Seen(ch, t.agg, i)| <= |Seen(ch, s.agg, i)| + 1
  {
    NextGood(s, act, traces);
    NextTasks(s, act, traces);
    StepCost(s, act, traces);
    CostNonNegative(Next(s, act));
    if act.Exec? {
      LateExecCarries(ch, s, traces, j, act.c, i);
      ReadyStays(s.agg, j, s.jobs[j].todo[0], act.c);
      OwnMoves(Seen(ch, s.agg, i), Logs(ch, s.jobs[j].todo[0], i), Carried(ch, Next(s, act).jobs[j].todo, i),
        Picks(ch, s.jobs[j].rest, i), Seen(ch, s.agg, i) + Live(ch, s.jobs[j], i));
    } else {
      QuietCarries(ch, s, traces, act, j, i);
      QuietLog(ch, s, traces, act, i);
    }
  }

  lemma {:induction false} LetRun(ch: Channel, s: System, traces: seq<seq<Event>>, j: nat, i: nat, n: nat)
    returns (acts: seq<Action>, t: System)
    requires Running(s, traces, j, i)
    requires |Seen(ch, s.agg, i)| <= n <= |Seen(ch, s.agg, i) + Live(ch, s.jobs[j], i)|
    ensures Runs(s, acts, t) && Running(t, traces, j, i) && |t.jobs| == |s.jobs|
    ensures forall h | 0 <= h < |s.jobs| && h != j :: t.jobs[h] == s.jobs[h]
    ensures Seen(ch, t.agg, i) == (Seen(ch, s.agg, i) + Live(ch, s.jobs[j], i))[..n]
    decreases Cost(s)
  {
    CostNonNegative(s);
    if n == |Seen(ch, s.agg, i)| {
      acts, t := [], s;
    } else {
      var act := StepAlong(ch, s, traces, j, i);
      AlongLogs(ch, s, traces, j, i, act);
      var more, end := LetRun(ch, Next(s, act), traces, j, i, n);
      acts, t := [act] + more, end;
    }
  }

  /** Phase 2 has opened with nothing of job i logged: goroutine r has what phase 1 handled of it, its own the rest. */
  ghost predicate Cut(ch: Channel, t: System, traces: seq<seq<Event>>, prog: seq<nat>, r: nat, i: nat) {
    && |prog| == |traces| == |t.jobs| && i < |traces| && prog[i] <= |traces[i]|
    && Running(t, traces, r, i) && Running(t, traces, i, i) && Seen(ch, t.agg, i) == []
    && Live(ch, t.jobs[r], i) == Picks(ch, Stamp(i, traces[i])[..prog[i]], i)
    && Live(ch, t.jobs[i], i) == Picks(ch, Stamp(i, traces[i])[prog[i]..], i)
  }

  lemma PlanParts(ch: Channel, mid: System, traces: seq<seq<Event>>, launched: nat, prog: seq<nat>, r: nat, c: Choice,
                  i: nat)
    requires !ch.Forwards? && Plan(traces, launched, prog) && AtOpening(mid, traces, launched, prog, r, c)
    requires i < |traces|
    ensures PartsOf(ch, mid, i)
         == Parts([], Picks(ch, Stamp(i, traces[i])[..prog[i]], i), Picks(ch, Stamp(i, traces[i])[prog[i]..], i))
  {
    PlanHandled(mid, traces, launched, prog, r, i);
    PartsCut(ch, mid, traces, i);
    PlainCut(ch, PartsOf(ch, mid, i), Stamp(i, traces[i]), i, Handled(mid, traces, i), |Seen(ch, mid.agg, i)|);
  }

  /** What the opening leaves of job i to goroutine r and to its own. */
  lemma OpensLoads(ch: Channel, mid: System, traces: seq<seq<Event>>, r: nat, c: Choice, i: nat)
    requires Inv(mid, traces) && EarlyShape(mid) && Opens(mid, r, c) && i < |traces| == |mid.jobs| && i != r
    requires Shape(Next(mid, Exec(r, c)), traces)
    ensures var t, q := Next(mid, Exec(r, c)), PartsOf(ch, mid, i);
      && |t.jobs| == |traces| && Seen(ch, t.agg, i) == q.base
      && Live(ch, t.jobs[r], i) == q.early && Live(ch, t.jobs[i], i) == q.late
  {
    var t := Next(mid, Exec(r, c));
    OpensReplay(ch, mid, traces, r, c, i);
    ExecElsewhere(mid, r, c, i);
    ForeignRest(ch, t, traces, r, i);
    NoRest(ch, t.jobs[r], i);
  }

  lemma NoRest(ch: Channel, g: Goroutine, i: nat)
    requires Picks(ch, g.rest, i) == []
    ensures Live(ch, g, i) == Carried(ch, g.todo, i)
  {
  }

  lemma OpensCut(ch: Channel, mid: System, traces: seq<seq<Event>>, launched: nat, prog: seq<nat>, r: nat, c: Choice,
                 i: nat)
    requires !ch.Forwards? && CutInTwo(ch, traces, launched, prog, r, i)
    requires AtOpening(mid, traces, launched, prog, r, c)
    requires Good(Next(mid, Exec(r, c)), traces) && Tasks(Next(mid, Exec(r, c)))
    ensures Cut(ch, Next(mid, Exec(r, c)), traces, prog, r, i)
  {
    PlanParts(ch, mid, traces, launched, prog, r, c, i);
    OpensLoads(ch, mid, traces, r, c, i);
    OpenedStages(ch, mid, traces, launched, prog, r, c, i);
  }

  lemma OpenedStages(ch: Channel, mid: System, traces: seq<seq<Event>>, launched: nat, prog: seq<nat>, r: nat,
                     c: Choice, i: nat)
    requires CutInTwo(ch, traces, launched, prog, r, i) && AtOpening(mid, traces, launched, prog, r, c)
    ensures var t := Next(mid, Exec(r, c));
      |t.jobs| == |traces| && t.jobs[r].stage.Turning? && t.jobs[i].stage.Turning? && t.agg.readyEmitted
  {
    assert mid.jobs[i] == StagedJob(traces, prog, launched, i);
  }

  lemma ReachCut(ch: Channel, traces: seq<seq<Event>>, launched: nat, prog: seq<nat>, r: nat, i: nat)
    returns (acts: seq<Action>, t: System)
    requires !ch.Forwards? && CutInTwo(ch, traces, launched, prog, r, i)
    ensures Runs(Init(traces), acts, t) && Cut(ch, t, traces, prog, r, i)
  {
    var c := Choice(Range(|traces|), []);
    var a1, mid := ReachOpening(traces, launched, prog, r, c);
    RunsOne(Init(traces), a1, mid, Exec(r, c));
    acts, t := a1 + [Exec(r, c)], Next(mid, Exec(r, c));
    InitGood(traces);
    RunTasks(Init(traces), acts, t, traces);
    OpensCut(ch, mid, traces, launched, prog, r, c, i);
  }

  lemma Prefixes(a: seq<Event>, z: seq<Event>, k: nat, q: nat)
    requires k <= |a| && q <= |z|
    ensures ([] + a)[..k] == a[..k] && (a[..k] + z)[..k + q] == a[..k] + z[..q]
    ensures |a[..k]| <= k + q <= |a[..k] + z|
  {
  }

  lemma OvertakeFrom(ch: Channel, s: System, traces: seq<seq<Event>>, r: nat, i: nat, a: seq<Event>, z: seq<Event>,
                     k: nat, q: nat)
    returns (acts: seq<Action>, t: System)
    requires Running(s, traces, r, i) && Running(s, traces, i, i) && i != r && k <= |a| && q <= |z|
    requires Seen(ch, s.agg, i) == [] && Live(ch, s.jobs[r], i) == a && Live(ch, s.jobs[i], i) == z
    ensures Runs(s, acts, t) && Running(t, traces, i, i) && Seen(ch, t.agg, i) == a[..k] + z[..q]
  {
    Prefixes(a, z, k, q);
    var a2, s2 := LetRun(ch, s, traces, r, i, k);
    assert Live(ch, s2.jobs[i], i) == z;
    var a3, s3 := LetRun(ch, s2, traces, i, i, k + q);
    RunsAppend(s, a2, s2, a3, s3);
    acts, t := a2 + a3, s3;
  }

  /** The replay is let run to its k-th event of job i, then the job's own goroutine delivers q more. */
  lemma Overtake(ch: Channel, traces: seq<seq<Event>>, launched: nat, prog: seq<nat>, r: nat, i: nat, k: nat, q: nat)
    returns (acts: seq<Action>, t: System)
    requires !ch.Forwards? && CutInTwo(ch, traces, launched, prog, r, i)
    requires k <= |Picks(ch, Stamp(i, traces[i])[..prog[i]], i)| && q <= |Picks(ch, Stamp(i, traces[i])[prog[i]..], i)|
    ensures Runs(Init(traces), acts, t) && Running(t, traces, i, i)
    ensures Seen(ch, t.agg, i)
         == Picks(ch, Stamp(i, traces[i])[..prog[i]], i)[..k] + Picks(ch, Stamp(i, traces[i])[prog[i]..], i)[..q]
  {
    var a1, s1 := ReachCut(ch, traces, launched, prog, r, i);
    var a2, s2 := OvertakeFrom(ch, s1, traces, r, i, Picks(ch, Stamp(i, traces[i])[..prog[i]], i),
      Picks(ch, Stamp(i, traces[i])[prog[i]..], i), k, q);
    RunsAppend(Init(traces), a1, s1, a2, s2);
    acts, t := a1 + a2, s2;
  }

  /** With that risk some complete run has a job's events in an order in which they were not sent. */
  lemma Reordered(ch: Channel, traces: seq<seq<Event>>, launched: nat, prog: seq<nat>, r: nat, i: nat)
    returns (acts: seq<Action>, t: System)
    requires !ch.Forwards? && CutInTwo(ch, traces, launched, prog, r, i)
    ensures Runs(Init(traces), acts, t) && t.main.Merged?
    ensures !(Seen(ch, t.agg, i) <= Picks(ch, Stamp(i, traces[i]), i))
  {
    var trace := Stamp(i, traces[i]);
    assert trace == trace[..prog[i]] + trace[prog[i]..];
    PicksAppend(ch, trace[..prog[i]], trace[prog[i]..], i);
    var k, q := BadCut(Picks(ch, trace[..prog[i]], i), Picks(ch, trace[prog[i]..], i));
    var a1, s1 := Overtake(ch, traces, launched, prog, r, i, k, q);
    var a2, s2 := CanFinish(s1, traces);
    RunsAppend(Init(traces), a1, s1, a2, s2);
    acts, t := a1 + a2, s2;
    SeenGrows(ch, s1, a2, s2, i);
  }

  /** Every complete run has every job's events in the order they were sent. */
  ghost predicate AlwaysInOrder(ch: Channel, traces: seq<seq<Event>>) {
    forall acts: seq<Action>, t: System, i: nat | Runs(Init(traces), acts, t) && t.main.Merged? && i < |traces| ::
      Seen(ch, t.agg, i) <= Picks(ch, Stamp(i, traces[i]), i)
  }

  /** For every fan-out: the order is always kept iff phase 2 never opens between two different events of a group. */
  lemma InOrderExactly(ch: Channel, traces: seq<seq<Event>>)
    requires !ch.Forwards?
    ensures AlwaysInOrder(ch, traces) <==> !AtRisk(ch, traces)
  {
    if AtRisk(ch, traces) {
      var launched: nat, prog: seq<nat>, r: nat, i: nat :| CutInTwo(ch, traces, launched, prog, r, i);
      var acts, t := Reordered(ch, traces, launched, prog, r, i);
    } else {
      forall acts: seq<Action>, t: System, i: nat | Runs(Init(traces), acts, t) && t.main.Merged? && i < |traces|
        ensures Seen(ch, t.agg, i) <= Picks(ch, Stamp(i, traces[i]), i)
      {
        InOrder(ch, traces, acts, t, i);
      }
    }
  }
}

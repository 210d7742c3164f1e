/**
 Schedules in phase 2 that spare a few goroutines: the others can always go on, launching those
 that wait for a slot included, unless the spared ones fill all slots.
 */
module FanoutBeside {
  import opened Sums
  import opened AggregatorSpec
  import opened Fanout
  import opened FanoutProgress
  import opened FanoutLimits
  import opened FanoutPlans
  import opened FanoutDue

  predicate Spares(act: Action, held: set<nat>) { forall g | g in held :: !Own(act, g) }

  ghost predicate SameWork(g: Goroutine, h: Goroutine) { h.todo == g.todo && h.rest == g.rest }

  /** The goroutines in held have done nothing since; one may have been launched. */
  ghost predicate Spared(s: System, t: System, held: set<nat>) {
    |t.jobs| == |s.jobs| && forall g | g in held && g < |s.jobs| :: SameWork(s.jobs[g], t.jobs[g])
  }

  lemma SparesWork(s: System, act: Action, held: set<nat>)
    requires Lifecycle(s) && Enabled(s, act) && Spares(act, held)
    ensures Spared(s, Next(s, act), held)
  {
    forall g | g in held && g < |s.jobs|
      ensures |Next(s, act).jobs| == |s.jobs| && SameWork(s.jobs[g], Next(s, act).jobs[g])
    {
      assert !Own(act, g);
    }
  }

  lemma LaterAllWait(s: System, j: nat)
    requires Lifecycle(s) && j < |s.jobs| && s.jobs[j].stage.Waiting?
    ensures s.main.Launching? && s.main.next <= j && Sum(s.jobs[..j], SlotWeight()) == s.slots
  {
    assert s.jobs == s.jobs[..j] + s.jobs[j..];
    SumAppend(s.jobs[..j], s.jobs[j..], SlotWeight());
    SumConstant(s.jobs[j..], 0, SlotWeight());
  }

  lemma SomeOther(a: set<nat>, b: set<nat>) returns (x: nat)
    requires |a| > |b|
    ensures x in a && x !in b
  {
    if a <= b {
      SubsetSize(a, b);
    }
    x :| x in a && x !in b;
  }

  /** Unless those in held fill all slots, a waiting goroutine is launched or another step frees one. */
  lemma FreeOne(s: System, traces: seq<seq<Event>>, held: set<nat>, j: nat) returns (act: Action)
    requires Late(s, traces) && j < |s.jobs| && s.jobs[j].stage.Waiting? && |Below(held, j)| < MAX_JOBS
    ensures Enabled(s, act) && Spares(act, held + {j})
  {
    LaterAllWait(s, j);
    if s.slots < MAX_JOBS {
      act := Launch;
    } else {
      HoldersCount(s.jobs, j);
      var h := SomeOther(Holders(s.jobs, j), Below(held, j));
      act := GoroutineMoves(s, h);
    }
  }

  lemma CostsLess(s: System, traces: seq<seq<Event>>, act: Action)
    requires Late(s, traces) && Enabled(s, act)
    ensures Late(Next(s, act), traces) && 0 <= Cost(Next(s, act)) < Cost(s)
  {
    NextLate(s, traces, act);
    StepCost(s, act, traces);
    CostNonNegative(Next(s, act));
  }

  lemma {:induction false} LaunchBeside(s: System, traces: seq<seq<Event>>, held: set<nat>, j: nat)
    returns (acts: seq<Action>, t: System)
    requires Late(s, traces) && j < |s.jobs| && |Below(held, j)| < MAX_JOBS
    ensures Runs(s, acts, t) && Late(t, traces) && Spared(s, t, held + {j}) && !t.jobs[j].stage.Waiting?
    decreases Cost(s)
  {
    if !s.jobs[j].stage.Waiting? {
      acts, t := [], s;
    } else {
      var act := FreeOne(s, traces, held, j);
      CostsLess(s, traces, act);
      SparesWork(s, act, held + {j});
      var more, end := LaunchBeside(Next(s, act), traces, held, j);
      acts, t := [act] + more, end;
    }
  }

  ghost predicate Rest(s: System, held: set<nat>) {
    forall j | 0 <= j < |s.jobs| && j !in held :: s.jobs[j].stage.Gone?
  }

  lemma OtherStep(s: System, traces: seq<seq<Event>>, held: set<nat>, j: nat) returns (act: Action)
    requires Late(s, traces) && |held| < MAX_JOBS && j < |s.jobs| && j !in held && !s.jobs[j].stage.Gone?
    ensures Enabled(s, act) && Spares(act, held)
  {
    if s.jobs[j].stage.Waiting? {
      BelowGrows(held, j);
      act := FreeOne(s, traces, held, j);
    } else {
      act := GoroutineMoves(s, j);
    }
  }

  /** All others can come to their end beside a few that do nothing. */
  lemma {:induction false} FinishBeside(s: System, traces: seq<seq<Event>>, held: set<nat>)
    returns (acts: seq<Action>, t: System)
    requires Late(s, traces) && |held| < MAX_JOBS
    ensures Runs(s, acts, t) && Late(t, traces) && Spared(s, t, held) && Rest(t, held)
    decreases Cost(s)
  {
    if Rest(s, held) {
      acts, t := [], s;
    } else {
      var j :| 0 <= j < |s.jobs| && j !in held && !s.jobs[j].stage.Gone?;
      var act := OtherStep(s, traces, held, j);
      CostsLess(s, traces, act);
      SparesWork(s, act, held);
      var more, end := FinishBeside(Next(s, act), traces, held);
      acts, t := [act] + more, end;
    }
  }
}

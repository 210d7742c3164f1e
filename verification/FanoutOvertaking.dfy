/**
 The condition of FanoutLimits is exact: whenever an unmatched ToolEnd may meet phase 1 and
 enough Readys are sent, some schedule forwards it once too often. Up to three earlier
 groups are launched and held back; all others before it run their turns.
 */
module FanoutOvertaking {
  import opened AggregatorSpec
  import opened Fanout
  import opened FanoutDelivery
  import opened FanoutResults
  import opened FanoutTasks
  import opened FanoutProgress
  import opened FanoutLimits
  import opened FanoutPlans

  // ----- the condition is needed -----

  lemma {:induction false} StraysGrow(s: System, acts: seq<Action>, t: System)
    requires Runs(s, acts, t)
    ensures s.agg.strays <= t.agg.strays
    decreases acts
  {
    if acts != [] {
      StraysGrow(Next(s, acts[0]), acts[1..], t);
    }
  }

  /** A schedule in which the unmatched ToolEnd k of group i meets phase 1. */
  lemma EarlySchedule(traces: seq<seq<Event>>, i: nat, k: nat) returns (acts: seq<Action>, t: System)
    requires i < |traces| && k < |traces[i]| && EarlyUnmatched(traces, i, k)
    ensures Runs(Init(traces), acts, t) && Stamp(i, traces[i])[k] in t.agg.strays
  {
    var trace := Stamp(i, traces[i]);
    var a1, s1, base := ReachInTime(traces, i, k);
    var a2, s2 := SendOne(s1, i, trace, k, base);
    AfterSend(s1, i, trace, k, base);
    RunsAppend(Init(traces), a1, s1, a2, s2);
    acts, t := a1 + a2, s2;
  }

  /**
   When enough Readys are sent and some group has an early unmatched ToolEnd, some complete
   run forwards that ToolEnd more often than it was sent.
   */
  lemma DuplicatedEnd(traces: seq<seq<Event>>, i: nat, k: nat) returns (acts: seq<Action>, t: System)
    requires i < |traces| && k < |traces[i]| && EarlyUnmatched(traces, i, k)
    requires ReadysSent(traces) >= |traces|
    ensures Runs(Init(traces), acts, t) && t.main.Merged?
    ensures multiset(t.agg.log)[Stamp(i, traces[i])[k]] > multiset(Stamp(i, traces[i]))[Stamp(i, traces[i])[k]]
  {
    var a1, s1 := EarlySchedule(traces, i, k);
    InitGood(traces);
    RunTasks(Init(traces), a1, s1, traces);
    var a2, s2 := CanFinish(s1, traces);
    RunsAppend(Init(traces), a1, s1, a2, s2);
    StraysGrow(s1, a2, s2);
    acts, t := a1 + a2, s2;
    var e := Stamp(i, traces[i])[k];
    ToolEndDelivery(traces, acts, t, e);
    assert e in multiset(t.agg.strays);
  }

  /** Every complete run forwards every keyed ToolEnd exactly as often as its turn sent it. */
  ghost predicate AlwaysExactlyOnce(traces: seq<seq<Event>>) {
    forall acts: seq<Action>, t: System, e: Event
      | Runs(Init(traces), acts, t) && t.main.Merged? && e.KeyedEnd() && e.source.Job? && e.source.index < |traces| ::
      multiset(t.agg.log)[e] == multiset(Stamp(e.source.index, traces[e.source.index]))[e]
  }

  /** For every fan-out: keyed ToolEnds are always forwarded exactly once iff none is unmatched and early. */
  lemma ExactlyOnceIff(traces: seq<seq<Event>>)
    ensures AlwaysExactlyOnce(traces) <==> NoEarlyUnmatched(traces) || ReadysSent(traces) < |traces|
  {
    if NoEarlyUnmatched(traces) || ReadysSent(traces) < |traces| {
      forall acts: seq<Action>, t: System, e: Event
        | Runs(Init(traces), acts, t) && t.main.Merged? && e.KeyedEnd() && e.source.Job? && e.source.index < |traces|
        ensures multiset(t.agg.log)[e] == multiset(Stamp(e.source.index, traces[e.source.index]))[e]
      {
        ExactlyOnce(traces, acts, t, e);
      }
    } else {
      var i, k :| 0 <= i < |traces| && 0 <= k < |traces[i]| && EarlyUnmatched(traces, i, k);
      var acts, t := DuplicatedEnd(traces, i, k);
      assert Stamp(i, traces[i])[k].KeyedEnd();
    }
  }
}

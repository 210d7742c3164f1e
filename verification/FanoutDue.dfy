/**
 Phase 2 as far as the task table goes: every goroutine has a list of task events still to
 merge, of its replay and of its turn, and the merge history takes from the fronts of these
 lists, one event at a time.
 */
module FanoutDue {
  import opened AggregatorSpec
  import opened Fanout
  import opened FanoutShape
  import opened FanoutDelivery
  import opened FanoutTasks
  import opened FanoutReplay
  import opened FanoutLatest
  import opened FanoutSnapshots

  function TasksOf(evs: seq<Event>): seq<Event> {
    if evs == [] then [] else (if evs[0].kind.Task() then [evs[0]] else []) + TasksOf(evs[1..])
  }

  function DueOp(op: Op): seq<Event> {
    match op
    case Handle(ev) => TasksOf([ev])
    case Buffer(ev) => TasksOf([ev])
    case Redirect(ev) => TasksOf([ev])
    case Stream(_, ev) => TasksOf([ev])
    case Merge(ev) => TasksOf([ev])
    case _ => []
  }

  function DueOps(todo: seq<Op>): seq<Event>
    decreases todo
  {
    if todo == [] then [] else DueOp(todo[0]) + DueOps(todo[1..])
  }

  /** What goroutine g has still to merge, in order. */
  function Due(g: Goroutine): seq<Event> { DueOps(g.todo) + TasksOf(g.rest) }

  lemma {:induction false} DueAppend(a: seq<Op>, b: seq<Op>)
    ensures DueOps(a + b) == DueOps(a) + DueOps(b)
    decreases a
  {
    if a == [] {
      assert a + b == b;
    } else {
      assert (a + b)[0] == a[0] && (a + b)[1..] == a[1..] + b;
      DueAppend(a[1..], b);
    }
  }

  lemma TasksFirst(ev: Event, more: seq<Event>)
    ensures TasksOf([ev]) == if ev.kind.Task() then [ev] else []
    ensures TasksOf([ev] + more) == TasksOf([ev]) + TasksOf(more)
  {
    assert [ev][1..] == [] && ([ev] + more)[1..] == more;
  }

  lemma DueOne(op: Op)
    ensures DueOps([op]) == DueOp(op)
  {
    assert [op][1..] == [];
  }

  // ----- one step -----

  /** Phase 2, with at most one snapshot to forward in every goroutine. */
  ghost predicate Late(s: System, traces: seq<seq<Event>>) {
    Good(s, traces) && Tasks(s) && OneEach(s) && s.agg.readyEmitted
  }

  lemma SectionDue(a: Aggregator, i: nat, op: Op, c: Choice)
    requires i < |a.perJob| && !op.Merge? && !a.phase.Buffering? && (a.phase.Closed? ==> op.Emit?)
    requires op.Match? ==> op.ev.KeyedEnd()
    requires op.Store? ==> op.ev.KeyedStart()
    ensures DueOps(ExecOp(a, i, op, c).1) == DueOp(op)
  {
    var ops := ExecOp(a, i, op, c).1;
    if ops != [] {
      assert ops == [ops[0]];
      DueOne(ops[0]);
    }
    if op.Stream? {
      assert [op.ev][1..] == [] && TasksOf([op.ev]) == if op.ev.kind.Task() then [op.ev] else [];
    }
  }

  /** What a step of goroutine j does to its list: it merges the front, or nothing. */
  ghost predicate Takes(s: System, t: System, j: nat, merges: bool)
    requires j < |s.jobs|
  {
    && |t.jobs| == |s.jobs|
    && (if merges then
          && Due(s.jobs[j]) != [] && t.agg.merged == s.agg.merged + [Due(s.jobs[j])[0]]
          && Due(t.jobs[j]) == Due(s.jobs[j])[1..]
        else t.agg.merged == s.agg.merged && Due(t.jobs[j]) == Due(s.jobs[j]))
  }

  lemma FrontOf(x: Event, more: seq<Event>, tail: seq<Event>)
    ensures ([x] + more) + tail != [] && (([x] + more) + tail)[0] == x && (([x] + more) + tail)[1..] == more + tail
  {
    assert ([x] + more) + tail == [x] + (more + tail);
  }

  lemma MergeTakes(s: System, traces: seq<seq<Event>>, j: nat, c: Choice)
    requires Late(s, traces) && Enabled(s, Exec(j, c)) && s.jobs[j].todo[0].Merge?
    ensures Takes(s, Next(s, Exec(j, c)), j, true)
    ensures Due(s.jobs[j])[0] == s.jobs[j].todo[0].ev
  {
    var g, op := s.jobs[j], s.jobs[j].todo[0];
    assert OpOk(op, j, traces);
    assert [op.ev][1..] == [] && TasksOf([op.ev]) == [op.ev];
    FrontOf(op.ev, DueOps(g.todo[1..]), TasksOf(g.rest));
    var ops := ExecOp(s.agg, j, op, c).1;
    DueAppend(ops, g.todo[1..]);
    DueOne(ops[0]);
    assert [] + DueOps(g.todo[1..]) == DueOps(g.todo[1..]);
  }

  lemma SectionTakes(s: System, traces: seq<seq<Event>>, j: nat, c: Choice)
    requires Late(s, traces) && Enabled(s, Exec(j, c)) && !s.jobs[j].todo[0].Merge?
    ensures Takes(s, Next(s, Exec(j, c)), j, false)
  {
    var g, op := s.jobs[j], s.jobs[j].todo[0];
    NotClosed(s, j);
    assert OpOk(op, j, traces);
    SectionDue(s.agg, j, op, c);
    SameTables(s.agg, j, op, c);
    DueAppend(ExecOp(s.agg, j, op, c).1, g.todo[1..]);
  }

  lemma CallDue(s: System, j: nat)
    requires Lifecycle(s) && Enabled(s, Call(j))
    ensures Due(Next(s, Call(j)).jobs[j]) == Due(s.jobs[j])
  {
    var ev, rest := s.jobs[j].rest[0], s.jobs[j].rest[1..];
    DueOne(Handle(ev));
    assert [ev][1..] == [];
    assert TasksOf(s.jobs[j].rest) == TasksOf([ev]) + TasksOf(rest);
    assert [] + TasksOf(s.jobs[j].rest) == TasksOf(s.jobs[j].rest);
  }

  /** Every other step leaves all lists. */
  lemma QuietDue(s: System, act: Action, j: nat)
    requires Lifecycle(s) && Enabled(s, act) && !act.Exec? && j < |s.jobs|
    ensures Takes(s, Next(s, act), j, false)
  {
    QuietTables(s, act);
    if act == Call(j) {
      CallDue(s, j);
    } else if act == Mark(j) {
      assert ControlOk(s.jobs[j]);
      DueOne(Emit([OuterResult]));
    } else {
      assert Next(s, act).jobs[j].rest == s.jobs[j].rest && Next(s, act).jobs[j].todo == s.jobs[j].todo;
    }
  }

  predicate Merging(s: System, act: Action, j: nat) {
    act.Exec? && act.i == j && j < |s.jobs| && s.jobs[j].todo != [] && s.jobs[j].todo[0].Merge?
  }

  predicate NoMerge(s: System, act: Action) { act.Exec? ==> !Merging(s, act, act.i) }

  lemma StepDue(s: System, traces: seq<seq<Event>>, act: Action, j: nat)
    requires Late(s, traces) && Enabled(s, act) && j < |s.jobs|
    ensures |Next(s, act).jobs| == |s.jobs|
    ensures if Merging(s, act, j) then Takes(s, Next(s, act), j, true) else Due(Next(s, act).jobs[j]) == Due(s.jobs[j])
    ensures NoMerge(s, act) ==> Next(s, act).agg.merged == s.agg.merged
  {
    if act.Exec? {
      if s.jobs[act.i].todo[0].Merge? {
        MergeTakes(s, traces, act.i, act.c);
      } else {
        SectionTakes(s, traces, act.i, act.c);
      }
    } else {
      QuietDue(s, act, j);
    }
  }

  lemma NextLate(s: System, traces: seq<seq<Event>>, act: Action)
    requires Late(s, traces) && Enabled(s, act)
    ensures Late(Next(s, act), traces) && |Next(s, act).jobs| == |s.jobs|
  {
    NextGood(s, act, traces);
    NextTasks(s, act, traces);
    if act.Exec? {
      ExecPends(s, traces, act.i, act.c);
      ReadyStays(s.agg, act.i, s.jobs[act.i].todo[0], act.c);
    } else {
      QuietPending(s, act);
    }
  }

  // ----- whole runs -----

  /** What goroutine j merges on the way from s to t. */
  ghost predicate TookOff(s: System, t: System, j: nat, evs: seq<Event>) {
    j < |s.jobs| && j < |t.jobs| && Due(s.jobs[j]) == evs + Due(t.jobs[j])
  }

  lemma {:induction false} RunLate(s: System, acts: seq<Action>, t: System, traces: seq<seq<Event>>)
    requires Late(s, traces) && Runs(s, acts, t)
    ensures Late(t, traces) && |t.jobs| == |s.jobs| && s.agg.merged <= t.agg.merged
    decreases acts
  {
    MergedGrows(s, acts, t);
    if acts != [] {
      NextLate(s, traces, acts[0]);
      RunLate(Next(s, acts[0]), acts[1..], t, traces);
    }
  }

  /** The merges from s to t. */
  function Since(s: System, t: System): seq<Event>
    requires s.agg.merged <= t.agg.merged
  {
    t.agg.merged[|s.agg.merged|..]
  }

  lemma SinceSelf(s: System)
    ensures Since(s, s) == []
  {
  }

  lemma SinceNone(s: System, s1: System, t: System)
    requires s1.agg.merged == s.agg.merged && s1.agg.merged <= t.agg.merged
    ensures Since(s, t) == Since(s1, t)
  {
  }

  lemma SinceOne(s: System, s1: System, t: System, x: Event)
    requires s1.agg.merged == s.agg.merged + [x] && s1.agg.merged <= t.agg.merged
    ensures s.agg.merged <= t.agg.merged && Since(s, t) == [x] + Since(s1, t)
  {
    assert t.agg.merged == (s.agg.merged + [x]) + Since(s1, t);
    assert t.agg.merged == s.agg.merged + ([x] + Since(s1, t));
  }

  /** The first step of a run, and what it merges. */
  lemma FirstTakes(s: System, acts: seq<Action>, t: System, traces: seq<seq<Event>>, j: nat)
    requires Late(s, traces) && Runs(s, acts, t) && acts != [] && j < |s.jobs|
    ensures var s1, merges := Next(s, acts[0]), Merging(s, acts[0], j);
      && Late(s1, traces) && |s1.jobs| == |s.jobs| && s1.agg.merged <= t.agg.merged && s.agg.merged <= t.agg.merged
      && (if merges then Takes(s, s1, j, true) else Due(s1.jobs[j]) == Due(s.jobs[j]))
      && (merges ==> Since(s, t) == [Due(s.jobs[j])[0]] + Since(s1, t))
      && (NoMerge(s, acts[0]) ==> Since(s, t) == Since(s1, t))
  {
    var s1 := Next(s, acts[0]);
    NextLate(s, traces, acts[0]);
    StepDue(s, traces, acts[0], j);
    MergedGrows(s, acts, t);
    MergedGrows(s1, acts[1..], t);
    if Merging(s, acts[0], j) {
      SinceOne(s, s1, t, Due(s.jobs[j])[0]);
    } else if NoMerge(s, acts[0]) {
      SinceNone(s, s1, t);
    }
  }

  lemma MergedNone(s: System, s1: System, t: System, j: nat, evs: seq<Event>)
    requires j < |s.jobs| && j < |s1.jobs| && Due(s1.jobs[j]) == Due(s.jobs[j]) && TookOff(s1, t, j, evs)
    ensures TookOff(s, t, j, evs)
  {
  }

  lemma MergedOne(s: System, s1: System, t: System, j: nat, evs: seq<Event>)
    requires j < |s.jobs| && Takes(s, s1, j, true) && TookOff(s1, t, j, evs)
    ensures TookOff(s, t, j, [Due(s.jobs[j])[0]] + evs)
  {
    var x := Due(s.jobs[j])[0];
    assert Due(s.jobs[j]) == [x] + Due(s.jobs[j])[1..];
    assert ([x] + evs) + Due(t.jobs[j]) == [x] + (evs + Due(t.jobs[j]));
  }

  /** Everything a goroutine takes off its list is merged. */
  lemma {:induction false} TakenOff(s: System, acts: seq<Action>, t: System, traces: seq<seq<Event>>, j: nat)
    returns (evs: seq<Event>)
    requires Late(s, traces) && Runs(s, acts, t) && j < |s.jobs|
    ensures s.agg.merged <= t.agg.merged && TookOff(s, t, j, evs)
    ensures forall id | id in Table(evs) :: id in Table(Since(s, t))
    decreases acts
  {
    if acts == [] {
      evs := [];
      assert [] + Due(t.jobs[j]) == Due(t.jobs[j]);
    } else {
      var s1 := Next(s, acts[0]);
      FirstTakes(s, acts, t, traces, j);
      var more := TakenOff(s1, acts[1..], t, traces, j);
      if Merging(s, acts[0], j) {
        var x := Due(s.jobs[j])[0];
        MergedOne(s, s1, t, j, more);
        evs := [x] + more;
        forall id | id in Table(evs) ensures id in Table(Since(s, t)) {
          TableAppend([x], more, id);
          TableAppend([x], Since(s1, t), id);
        }
      } else {
        MergedNone(s, s1, t, j, more);
        evs := more;
        forall id | id in Table(evs) ensures id in Table(Since(s, t)) {
          StillSince(s, acts, t, traces, id);
        }
      }
    }
  }

  lemma StillSince(s: System, acts: seq<Action>, t: System, traces: seq<seq<Event>>, id: string)
    requires Late(s, traces) && Runs(s, acts, t) && acts != []
    ensures s.agg.merged <= t.agg.merged && Next(s, acts[0]).agg.merged <= t.agg.merged
    ensures id in Table(Since(Next(s, acts[0]), t)) ==>
      id in Table(Since(s, t)) && Table(Since(s, t))[id] == Table(Since(Next(s, acts[0]), t))[id]
  {
    var act := acts[0];
    var s1 := Next(s, act);
    if act.Exec? {
      FirstTakes(s, acts, t, traces, act.i);
      if Merging(s, act, act.i) {
        TableAppend([Due(s.jobs[act.i])[0]], Since(s1, t), id);
      }
    } else {
      MergedGrows(s, acts, t);
      MergedGrows(s1, acts[1..], t);
      QuietTables(s, act);
      SinceNone(s, s1, t);
    }
  }

  /** Goroutine j merged last under the id: what is left from s to t is the last it took off its list. */
  ghost predicate Decides(s: System, t: System, j: nat, evs: seq<Event>, id: string)
    requires s.agg.merged <= t.agg.merged
  {
    && TookOff(s, t, j, evs) && id in Table(evs) && id in Table(Since(s, t))
    && Table(evs)[id] == Table(Since(s, t))[id]
  }

  lemma DecidesEarlier(s: System, acts: seq<Action>, t: System, traces: seq<seq<Event>>, j: nat, more: seq<Event>,
                       id: string)
    returns (evs: seq<Event>)
    requires Late(s, traces) && Runs(s, acts, t) && acts != [] && |Next(s, acts[0]).jobs| == |s.jobs|
    requires s.agg.merged <= t.agg.merged && Next(s, acts[0]).agg.merged <= t.agg.merged
    requires Decides(Next(s, acts[0]), t, j, more, id)
    ensures Decides(s, t, j, evs, id)
  {
    FirstTakes(s, acts, t, traces, j);
    StillSince(s, acts, t, traces, id);
    if Merging(s, acts[0], j) {
      var x := Due(s.jobs[j])[0];
      MergedOne(s, Next(s, acts[0]), t, j, more);
      evs := [x] + more;
      TableAppend([x], more, id);
    } else {
      MergedNone(s, Next(s, acts[0]), t, j, more);
      evs := more;
    }
  }

  lemma DecidesNow(s: System, acts: seq<Action>, t: System, traces: seq<seq<Event>>, id: string)
    returns (j: nat, evs: seq<Event>)
    requires Late(s, traces) && Runs(s, acts, t) && acts != []
    requires s.agg.merged <= t.agg.merged && Next(s, acts[0]).agg.merged <= t.agg.merged
    requires id in Table(Since(s, t)) && id !in Table(Since(Next(s, acts[0]), t))
    ensures Decides(s, t, j, evs, id)
  {
    var s1 := Next(s, acts[0]);
    if !acts[0].Exec? {
      QuietTables(s, acts[0]);
      SinceNone(s, s1, t);
    }
    j := acts[0].i;
    FirstTakes(s, acts, t, traces, j);
    var more := TakenOff(s1, acts[1..], t, traces, j);
    var x := Due(s.jobs[j])[0];
    MergedOne(s, s1, t, j, more);
    evs := [x] + more;
    TableAppend([x], more, id);
    TableAppend([x], Since(s1, t), id);
  }

  lemma {:induction false} LastBy(s: System, acts: seq<Action>, t: System, traces: seq<seq<Event>>, id: string)
    returns (j: nat, evs: seq<Event>)
    requires Late(s, traces) && Runs(s, acts, t) && s.agg.merged <= t.agg.merged && id in Table(Since(s, t))
    ensures Decides(s, t, j, evs, id)
    decreases acts
  {
    SinceSelf(s);
    var s1 := Next(s, acts[0]);
    MergedGrows(s1, acts[1..], t);
    if id in Table(Since(s1, t)) {
      NextLate(s, traces, acts[0]);
      var more;
      j, more := LastBy(s1, acts[1..], t, traces, id);
      evs := DecidesEarlier(s, acts, t, traces, j, more, id);
    } else {
      j, evs := DecidesNow(s, acts, t, traces, id);
    }
  }
}

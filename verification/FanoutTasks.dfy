/** Invariant #13 of aggregate_sink.go: every forwarded task list is a last-write-wins snapshot. */
module FanoutTasks {
  import opened AggregatorSpec
  import opened Fanout
  import opened FanoutShape
  import opened FanoutDelivery
  import opened FanoutResults

  lemma {:induction false} MergeAppend(tasks: map<string, Item>, a: seq<Item>, b: seq<Item>)
    ensures MergeItems(tasks, a + b) == MergeItems(MergeItems(tasks, a), b)
    decreases a
  {
    if a == [] {
      assert a + b == b;
    } else {
      assert (a + b)[1..] == a[1..] + b;
      MergeAppend(tasks[a[0].id := a[0]], a[1..], b);
    }
  }

  /** The table holds, for every id merged, the item merged last under that id, and nothing else. */
  lemma {:induction false} LatestWins(items: seq<Item>, id: string)
    ensures id in MergeItems(map[], items) <==> exists k :: 0 <= k < |items| && items[k].id == id
    ensures forall k | 0 <= k < |items| && items[k].id == id && (forall m | k < m < |items| :: items[m].id != id) ::
      MergeItems(map[], items)[id] == items[k]
    decreases |items|
  {
    if items != [] {
      var n := |items| - 1;
      var first := items[..n];
      assert items == first + [items[n]];
      MergeAppend(map[], first, [items[n]]);
      LatestWins(first, id);
      var before := MergeItems(map[], first);
      assert MergeItems(before, [items[n]]) == before[items[n].id := items[n]];
      if items[n].id != id {
        assert forall k | 0 <= k < n :: items[k] == first[k];
      }
    }
  }

  /** The items of a list of task events, event by event. */
  function Items(evs: seq<Event>): seq<Item> {
    if evs == [] then [] else Items(evs[..|evs| - 1]) + evs[|evs| - 1].items
  }

  /** ev lists the table as it stood after some number of merges. */
  ghost predicate SnapshotOf(ev: Event, merged: seq<Event>) {
    exists p: nat :: p <= |merged| && Lists(ev.items, MergeItems(map[], Items(merged[..p])))
  }

  lemma SnapshotKept(ev: Event, merged: seq<Event>, more: seq<Event>)
    requires SnapshotOf(ev, merged)
    ensures SnapshotOf(ev, merged + more)
  {
    var p: nat :| p <= |merged| && Lists(ev.items, MergeItems(map[], Items(merged[..p])));
    assert (merged + more)[..p] == merged[..p];
  }

  ghost predicate SnapshotsOk(evs: seq<Event>, merged: seq<Event>) {
    forall ev | ev in evs :: ev.kind.Task() ==> SnapshotOf(ev, merged)
  }

  ghost predicate TaskOp(op: Op, merged: seq<Event>) { op.Emit? ==> SnapshotsOk(op.evs, merged) }

  ghost predicate Tasks(s: System) {
    && s.agg.tasks == MergeItems(map[], Items(s.agg.merged))
    && SnapshotsOk(s.agg.log, s.agg.merged)
    && (forall j | 0 <= j < |s.jobs| :: forall op | op in s.jobs[j].todo :: TaskOp(op, s.agg.merged))
  }

  lemma SnapshotsKept(evs: seq<Event>, merged: seq<Event>, more: seq<Event>)
    requires SnapshotsOk(evs, merged)
    ensures SnapshotsOk(evs, merged + more)
  {
    forall ev | ev in evs && ev.kind.Task() ensures SnapshotOf(ev, merged + more) {
      SnapshotKept(ev, merged, more);
    }
  }

  lemma MergeTasks(a: Aggregator, ev: Event, items: seq<Item>)
    requires a.tasks == MergeItems(map[], Items(a.merged))
    requires Lists(items, MergeItems(a.tasks, ev.items))
    ensures var (b, ops) := MergeSection(a, ev, items);
      && b.tasks == MergeItems(map[], Items(b.merged))
      && TaskOp(ops[0], b.merged)
  {
    MergeAppend(map[], Items(a.merged), ev.items);
    var merged := a.merged + [ev];
    assert merged[..|a.merged|] == a.merged && merged[..|merged|] == merged;
    assert SnapshotOf(Snapshot(ev, items), merged);
  }

  lemma SameTables(a: Aggregator, i: nat, op: Op, c: Choice)
    requires i < |a.perJob| && !op.Merge?
    ensures ExecOp(a, i, op, c).0.merged == a.merged && ExecOp(a, i, op, c).0.tasks == a.tasks
  {
  }

  /** Only MergeSection lists tasks; every other new Emit carries other kinds. */
  lemma NewEmits(a: Aggregator, i: nat, op: Op, c: Choice, o: Op, traces: seq<seq<Event>>)
    requires i < |a.perJob| == |traces| && !op.Merge? && OpOk(op, i, traces)
    requires forall j | 0 <= j < |traces| :: PerJobOk(a.perJob[j], j, traces)
    requires o in ExecOp(a, i, op, c).1 && o.Emit?
    ensures forall ev | ev in o.evs :: !ev.kind.Task()
    ensures ExecOp(a, i, op, c).0.merged == a.merged && ExecOp(a, i, op, c).0.tasks == a.tasks
  {
    SameTables(a, i, op, c);
    if op.Buffer? || op.Gate? {
      NewBufferEmits(a, i, op, c, o, traces);
    }
  }

  lemma NewBufferEmits(a: Aggregator, i: nat, op: Op, c: Choice, o: Op, traces: seq<seq<Event>>)
    requires i < |a.perJob| == |traces| && (op.Buffer? || op.Gate?)
    requires PerJobOk(a.perJob[i], i, traces)
    requires o in ExecOp(a, i, op, c).1 && o.Emit?
    ensures forall ev | ev in o.evs :: !ev.kind.Task()
  {
    if op.Gate? {
      ReplayOps(a.perJob, c.order);
    } else {
      var ev := op.ev;
      var p := a.perJob[i];
      if a.phase.Buffering? && !ev.KeyedEnd() {
        var q := PerJob(if ev.KeyedStart() then p.pending[ev.toolId := ev] else p.pending, p.initBuffer + [ev]);
        var a1 := a.(perJob := a.perJob[i := q],
                     readyCount := if ev.kind.Ready? then a.readyCount + 1 else a.readyCount);
        assert BufferSection(a, i, ev, c.order) == TransitionGate(a1, c.order);
        ReplayOps(a1.perJob, c.order);
      }
    }
  }

  lemma ExecMergeTasks(s: System, i: nat, c: Choice)
    requires Lifecycle(s) && Tasks(s) && Enabled(s, Exec(i, c)) && s.jobs[i].todo[0].Merge?
    ensures Tasks(Next(s, Exec(i, c)))
  {
    var g := s.jobs[i];
    var ev := g.todo[0].ev;
    var t := Next(s, Exec(i, c));
    MergeTasks(s.agg, ev, c.items);
    SnapshotsKept(s.agg.log, s.agg.merged, [ev]);
    forall j, op | 0 <= j < |t.jobs| && op in t.jobs[j].todo ensures TaskOp(op, t.agg.merged) {
      if op in s.jobs[j].todo && op.Emit? {
        assert TaskOp(op, s.agg.merged);
        SnapshotsKept(op.evs, s.agg.merged, [ev]);
      }
    }
  }

  lemma ExecOtherTasks(s: System, i: nat, c: Choice, traces: seq<seq<Event>>)
    requires Good(s, traces) && Tasks(s) && Enabled(s, Exec(i, c)) && !s.jobs[i].todo[0].Merge?
    ensures Tasks(Next(s, Exec(i, c)))
  {
    var g := s.jobs[i];
    var op := g.todo[0];
    var t := Next(s, Exec(i, c));
    assert OpOk(op, i, traces) && TaskOp(op, s.agg.merged);
    SameTables(s.agg, i, op, c);
    ExecLog(s.agg, i, op, c);
    forall j, o | 0 <= j < |t.jobs| && o in t.jobs[j].todo ensures TaskOp(o, t.agg.merged) {
      if o !in s.jobs[j].todo && o.Emit? {
        NewEmits(s.agg, i, op, c, o, traces);
      }
    }
  }

  lemma NextTasks(s: System, act: Action, traces: seq<seq<Event>>)
    requires Good(s, traces) && Tasks(s) && Enabled(s, act)
    ensures Tasks(Next(s, act))
  {
    if act.Exec? {
      if s.jobs[act.i].todo[0].Merge? {
        ExecMergeTasks(s, act.i, act.c);
      } else {
        ExecOtherTasks(s, act.i, act.c, traces);
      }
    } else {
      QuietTasks(s, act);
    }
  }

  lemma QuietTodo(s: System, act: Action, j: nat, op: Op)
    requires Lifecycle(s) && Enabled(s, act) && !act.Exec? && j < |s.jobs| && op in Next(s, act).jobs[j].todo
    ensures op in s.jobs[j].todo || op.Handle? || op == Emit([OuterResult])
  {
  }

  lemma QuietTables(s: System, act: Action)
    requires Lifecycle(s) && Enabled(s, act) && !act.Exec?
    ensures var t := Next(s, act);
      && |t.jobs| == |s.jobs| && t.agg.tasks == s.agg.tasks && t.agg.merged == s.agg.merged
      && (t.agg.log == s.agg.log || t.agg.log == s.agg.log + [OuterResult])
  {
  }

  lemma QuietTasks(s: System, act: Action)
    requires Lifecycle(s) && Tasks(s) && Enabled(s, act) && !act.Exec?
    ensures Tasks(Next(s, act))
  {
    var t := Next(s, act);
    QuietTables(s, act);
    forall j, op | 0 <= j < |t.jobs| && op in t.jobs[j].todo ensures TaskOp(op, t.agg.merged) {
      QuietTodo(s, act, j, op);
    }
  }

  lemma {:induction false} RunTasks(s: System, acts: seq<Action>, t: System, traces: seq<seq<Event>>)
    requires Good(s, traces) && Tasks(s) && Runs(s, acts, t)
    ensures Good(t, traces) && Tasks(t)
    decreases acts
  {
    if acts != [] {
      NextGood(s, acts[0], traces);
      NextTasks(s, acts[0], traces);
      RunTasks(Next(s, acts[0]), acts[1..], t, traces);
    }
  }

  /**
   Every forwarded task event lists distinct ids, and is the merged table after some number of
   the merges of all jobs, in any run. FanoutMerges says which merges there are.
   */
  lemma ForwardedSnapshots(traces: seq<seq<Event>>, acts: seq<Action>, t: System, k: nat)
    requires Runs(Init(traces), acts, t) && k < |t.agg.log| && t.agg.log[k].kind.Task()
    ensures SnapshotOf(t.agg.log[k], t.agg.merged)
    ensures forall m, n | 0 <= m < n < |t.agg.log[k].items| :: t.agg.log[k].items[m].id != t.agg.log[k].items[n].id
  {
    InitGood(traces);
    RunTasks(Init(traces), acts, t, traces);
    assert t.agg.log[k] in t.agg.log;
  }
}

/**
 How far the last forwarded snapshots can be behind. Merging and forwarding are two sections,
 so a snapshot can be overtaken by later ones and be forwarded after them; but the full final
 table is forwarded, and no more snapshots come after it than other turns can run beside.
 */
module FanoutSnapshots {
  import opened Sums
  import opened AggregatorSpec
  import opened Fanout
  import opened FanoutShape
  import opened FanoutDelivery
  import opened FanoutResults
  import opened FanoutTasks

  predicate Snaps(op: Op) { op.Emit? && |op.evs| == 1 && op.evs[0].kind.Task() }

  /** The goroutine has merged and will forward the snapshot next. */
  predicate Pends(g: Goroutine) { g.todo != [] && Snaps(g.todo[0]) }

  ghost function PendWeight(): Goroutine -> int { (g: Goroutine) => if Pends(g) then 1 else 0 }
  ghost function IsTask(): Event -> int { (ev: Event) => if ev.kind.Task() then 1 else 0 }

  predicate OnlyFirst(todo: seq<Op>) { forall k | 1 <= k < |todo| :: !Snaps(todo[k]) }

  /** A goroutine has at most one snapshot to forward. */
  ghost predicate OneEach(s: System) {
    forall j | 0 <= j < |s.jobs| :: OnlyFirst(s.jobs[j].todo)
  }

  ghost function Pending(s: System): int { Sum(s.jobs, PendWeight()) }

  function AtOnceMost(n: nat): nat { if n < MAX_JOBS then n else MAX_JOBS }

  ghost predicate FullPends(s: System, j: nat) {
    j < |s.jobs| && Pends(s.jobs[j]) && Lists(s.jobs[j].todo[0].evs[0].items, s.agg.tasks)
  }

  ghost predicate FullAt(s: System, k: nat) {
    && k < |s.agg.log| && s.agg.log[k].kind.Task() && Lists(s.agg.log[k].items, s.agg.tasks)
    && Sum(s.agg.log[k + 1..], IsTask()) + Pending(s) < AtOnceMost(|s.jobs|)
  }

  /** A listing of the whole table is about to be forwarded, or has been and few others can follow it. */
  ghost predicate FullShown(s: System) {
    s.agg.merged == [] || (exists j: nat :: FullPends(s, j)) || exists k: nat :: FullAt(s, k)
  }

  // ----- one operation -----

  lemma PendBound(s: System)
    requires Lifecycle(s)
    ensures 0 <= Pending(s) <= AtOnceMost(|s.jobs|)
  {
    forall j | 0 <= j < |s.jobs| ensures PendWeight()(s.jobs[j]) <= SlotWeight()(s.jobs[j]) {
      assert ControlOk(s.jobs[j]);
    }
    AtMost(s.jobs, SlotWeight(), PendWeight());
    AtMost(s.jobs, _ => 1, PendWeight());
    SumConstant(s.jobs, 1, _ => 1);
    SumNonNegative(s.jobs, PendWeight());
  }

  lemma {:induction false} AtMost<T>(s: seq<T>, f: T -> int, g: T -> int)
    requires forall k | 0 <= k < |s| :: g(s[k]) <= f(s[k])
    ensures Sum(s, g) <= Sum(s, f)
  {
    if s != [] {
      assert forall k | 0 <= k < |s[1..]| :: g(s[1..][k]) <= f(s[1..][k]);
      AtMost(s[1..], f, g);
    }
  }

  /** Only a merge leaves a snapshot to forward, and first. */
  lemma OpSnaps(a: Aggregator, i: nat, op: Op, c: Choice, traces: seq<seq<Event>>)
    requires i < |a.perJob| == |traces| && OpOk(op, i, traces) && ValidChoice(a, op, c)
    requires forall j | 0 <= j < |traces| :: PerJobOk(a.perJob[j], j, traces)
    ensures var (b, ops) := ExecOp(a, i, op, c);
      if op.Merge? then |ops| == 1 && Snaps(ops[0]) && Lists(ops[0].evs[0].items, b.tasks)
      else b.tasks == a.tasks && b.merged == a.merged && forall o | o in ops :: !Snaps(o)
  {
    if !op.Merge? {
      SameTables(a, i, op, c);
      forall o | o in ExecOp(a, i, op, c).1 ensures !Snaps(o) {
        if o.Emit? {
          NewEmits(a, i, op, c, o, traces);
          assert forall ev | ev in o.evs :: !ev.kind.Task();
        }
      }
    }
  }

  lemma FirstNext(todo: seq<Op>, ops: seq<Op>)
    requires todo != [] && OnlyFirst(todo)
    requires (|ops| == 1 && Snaps(ops[0])) || forall o | o in ops :: !Snaps(o)
    ensures OnlyFirst(ops + todo[1..])
    ensures ops + todo[1..] != [] && Snaps((ops + todo[1..])[0]) <==> |ops| == 1 && Snaps(ops[0])
  {
  }

  ghost predicate Shows(s: System, traces: seq<seq<Event>>) { Good(s, traces) && OneEach(s) && FullShown(s) }

  /** What an operation of goroutine i does to the snapshots. */
  lemma ExecPends(s: System, traces: seq<seq<Event>>, i: nat, c: Choice)
    requires Good(s, traces) && OneEach(s) && Enabled(s, Exec(i, c))
    ensures var t, op := Next(s, Exec(i, c)), s.jobs[i].todo[0];
      && OneEach(t) && |t.jobs| == |s.jobs| && (forall j | 0 <= j < |s.jobs| && j != i :: t.jobs[j] == s.jobs[j])
      && (Pends(t.jobs[i]) <==> op.Merge?)
      && (op.Merge? ==> FullPends(t, i))
      && (!op.Merge? ==> t.agg.tasks == s.agg.tasks && t.agg.merged == s.agg.merged)
      && Pending(t) == Pending(s) - (if Snaps(op) then 1 else 0) + (if op.Merge? then 1 else 0)
  {
    var op := s.jobs[i].todo[0];
    assert OpOk(op, i, traces);
    OpSnaps(s.agg, i, op, c, traces);
    assert OnlyFirst(s.jobs[i].todo);
    FirstNext(s.jobs[i].todo, ExecOp(s.agg, i, op, c).1);
    SumUpdate(s.jobs, i, Next(s, Exec(i, c)).jobs[i], PendWeight());
  }

  lemma BlockTasks(evs: seq<Event>, traces: seq<seq<Event>>)
    requires BlockOk(evs, traces)
    ensures Sum(evs, IsTask()) == if Snaps(Emit(evs)) then 1 else 0
  {
    if |evs| == 2 {
      assert evs == [evs[0], evs[1]];
      SumSmall(IsTask(), evs[0], evs[1]);
    } else {
      assert evs == [evs[0]];
      SumSmall(IsTask(), evs[0], evs[0]);
    }
  }

  lemma StillAt(s: System, t: System, k: nat, more: seq<Event>)
    requires FullAt(s, k) && t.agg.log == s.agg.log + more && t.agg.tasks == s.agg.tasks && |t.jobs| == |s.jobs|
    requires Sum(more, IsTask()) + Pending(t) <= Pending(s)
    ensures FullAt(t, k)
  {
    assert t.agg.log[k + 1..] == s.agg.log[k + 1..] + more;
    SumAppend(s.agg.log[k + 1..], more, IsTask());
  }

  /** The full listing is forwarded. */
  lemma NowAt(s: System, t: System, j: nat)
    requires FullPends(s, j) && t.agg.log == s.agg.log + s.jobs[j].todo[0].evs && t.agg.tasks == s.agg.tasks
    requires |t.jobs| == |s.jobs| && Pending(t) < AtOnceMost(|s.jobs|)
    ensures FullAt(t, |s.agg.log|)
  {
    assert t.agg.log[|s.agg.log| + 1..] == [];
  }

  lemma ExecShows(s: System, traces: seq<seq<Event>>, i: nat, c: Choice)
    requires Shows(s, traces) && Enabled(s, Exec(i, c))
    ensures Shows(Next(s, Exec(i, c)), traces)
  {
    var t, op := Next(s, Exec(i, c)), s.jobs[i].todo[0];
    assert OpOk(op, i, traces);
    NextGood(s, Exec(i, c), traces);
    ExecPends(s, traces, i, c);
    ExecLog(s.agg, i, op, c);
    PendBound(s);
    if op.Merge? {
      assert FullPends(t, i);
    } else if s.agg.merged != [] {
      OtherShows(s, traces, i, c);
    }
  }

  lemma OtherPends(s: System, traces: seq<seq<Event>>, i: nat, c: Choice, j: nat)
    requires Good(s, traces) && OneEach(s) && Enabled(s, Exec(i, c)) && !s.jobs[i].todo[0].Merge? && FullPends(s, j)
    ensures FullShown(Next(s, Exec(i, c)))
  {
    var t := Next(s, Exec(i, c));
    ExecPends(s, traces, i, c);
    if j == i {
      ExecLog(s.agg, i, s.jobs[i].todo[0], c);
      PendBound(s);
      NowAt(s, t, i);
    } else {
      assert FullPends(t, j);
    }
  }

  lemma OtherAt(s: System, traces: seq<seq<Event>>, i: nat, c: Choice, k: nat)
    requires Good(s, traces) && OneEach(s) && Enabled(s, Exec(i, c)) && !s.jobs[i].todo[0].Merge? && FullAt(s, k)
    ensures FullAt(Next(s, Exec(i, c)), k)
  {
    var t, op := Next(s, Exec(i, c)), s.jobs[i].todo[0];
    assert OpOk(op, i, traces);
    ExecPends(s, traces, i, c);
    ExecLog(s.agg, i, op, c);
    if op.Emit? {
      BlockTasks(op.evs, traces);
      StillAt(s, t, k, op.evs);
    } else {
      assert s.agg.log + [] == s.agg.log;
      StillAt(s, t, k, []);
    }
  }

  lemma OtherShows(s: System, traces: seq<seq<Event>>, i: nat, c: Choice)
    requires Shows(s, traces) && Enabled(s, Exec(i, c)) && !s.jobs[i].todo[0].Merge? && s.agg.merged != []
    ensures FullShown(Next(s, Exec(i, c)))
  {
    if j: nat :| FullPends(s, j) {
      OtherPends(s, traces, i, c, j);
    } else {
      var k: nat :| FullAt(s, k);
      OtherAt(s, traces, i, c, k);
    }
  }

  // ----- the other steps, and whole runs -----

  lemma QuietPends(s: System, act: Action, j: nat)
    requires Lifecycle(s) && Enabled(s, act) && !act.Exec? && j < |s.jobs| && OnlyFirst(s.jobs[j].todo)
    ensures var t := Next(s, act);
      |t.jobs| == |s.jobs| && OnlyFirst(t.jobs[j].todo) && (Pends(t.jobs[j]) <==> Pends(s.jobs[j]))
      && (Pends(s.jobs[j]) ==> t.jobs[j].todo == s.jobs[j].todo)
  {
    assert ControlOk(s.jobs[j]);
  }

  lemma QuietPending(s: System, act: Action)
    requires Lifecycle(s) && OneEach(s) && Enabled(s, act) && !act.Exec?
    ensures OneEach(Next(s, act)) && |Next(s, act).jobs| == |s.jobs| && Pending(Next(s, act)) == Pending(s)
  {
    var t := Next(s, act);
    forall j | 0 <= j < |s.jobs|
      ensures |t.jobs| == |s.jobs| && OnlyFirst(t.jobs[j].todo)
      ensures PendWeight()(t.jobs[j]) == PendWeight()(s.jobs[j])
    {
      assert OnlyFirst(s.jobs[j].todo);
      QuietPends(s, act, j);
    }
    SumPointwise(t.jobs, s.jobs, PendWeight(), PendWeight());
  }

  lemma QuietAt(s: System, act: Action, k: nat)
    requires Lifecycle(s) && OneEach(s) && Enabled(s, act) && !act.Exec? && FullAt(s, k)
    ensures FullAt(Next(s, act), k)
  {
    var t := Next(s, act);
    QuietTables(s, act);
    QuietPending(s, act);
    SumSmall(IsTask(), OuterResult, OuterResult);
    assert s.agg.log + [] == s.agg.log;
    StillAt(s, t, k, if t.agg.log == s.agg.log then [] else [OuterResult]);
  }

  lemma QuietFull(s: System, act: Action, j: nat)
    requires Lifecycle(s) && OneEach(s) && Enabled(s, act) && !act.Exec? && FullPends(s, j)
    ensures FullPends(Next(s, act), j)
  {
    QuietTables(s, act);
    assert OnlyFirst(s.jobs[j].todo);
    QuietPends(s, act, j);
  }

  lemma QuietShows(s: System, traces: seq<seq<Event>>, act: Action)
    requires Shows(s, traces) && Enabled(s, act) && !act.Exec?
    ensures Shows(Next(s, act), traces)
  {
    NextGood(s, act, traces);
    QuietPending(s, act);
    QuietTables(s, act);
    if j: nat :| FullPends(s, j) {
      QuietFull(s, act, j);
    } else if k: nat :| FullAt(s, k) {
      QuietAt(s, act, k);
    }
  }

  lemma {:induction false} RunShows(s: System, acts: seq<Action>, t: System, traces: seq<seq<Event>>)
    requires Shows(s, traces) && Runs(s, acts, t)
    ensures Shows(t, traces)
    decreases acts
  {
    if acts != [] {
      if acts[0].Exec? {
        ExecShows(s, traces, acts[0].i, acts[0].c);
      } else {
        QuietShows(s, traces, acts[0]);
      }
      RunShows(Next(s, acts[0]), acts[1..], t, traces);
    }
  }

  /** Entry k of the log lists the whole table, and fewer snapshots come after it than n turns can take at once. */
  ghost predicate Trails(a: Aggregator, k: nat, n: nat) {
    && k < |a.log| && a.log[k].kind.Task() && Lists(a.log[k].items, a.tasks)
    && Sum(a.log[k + 1..], IsTask()) < AtOnceMost(n)
  }

  /**
   In every complete run that merged anything some forwarded snapshot lists the whole final table, and fewer snapshots
   come after it than turns can run at once. For a single group it is the last.
   */
  lemma FullTableForwarded(traces: seq<seq<Event>>, acts: seq<Action>, t: System)
    requires Runs(Init(traces), acts, t) && t.main.Merged? && t.agg.merged != []
    ensures exists k: nat :: Trails(t.agg, k, |traces|)
  {
    InitGood(traces);
    RunShows(Init(traces), acts, t, traces);
    PendBound(t);
    forall j: nat ensures !FullPends(t, j) {
      if j < |t.jobs| {
        assert ControlOk(t.jobs[j]);
      }
    }
    var k: nat :| FullAt(t, k);
    assert Trails(t.agg, k, |traces|);
  }
}
